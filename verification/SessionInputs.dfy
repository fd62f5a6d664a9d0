/** What a session can only know from its peer, and what it can tell its peer. */
module SessionInputs {
  import opened Common
  import opened SessionFsm
  import opened SessionInvariants

  /** Device information has been received, buffered or queued. */
  ghost predicate InfoSeen(s: Session) {
    s.ex.nodeInfoReceived || s.ex.earlyInfo.Some? || exists data :: Data(RecvDeviceInfo(data)) in s.ctl.queue
  }

  /** A close acknowledgement has been received or queued, on a link that uses them. */
  ghost predicate AckSeen(s: Session) {
    !SyncsByReply(s.setup.link) && (s.ex.closeAckReceived || Data(RecvCloseAck) in s.ctl.queue)
  }

  /** Queued messages about device ids. */
  predicate AboutIds(m: Message) {
    m.RecvDeviceId? || m.PostDeviceId?
  }

  /** The log only grows; a device id is posted under the current start state; the queue of
      concurrent authentications is joined only past negotiation. */
  ghost predicate Tells(s: Session, t: Session) {
    && t.setup == s.setup && t.id.localState == s.id.localState
    && (s.ctl.curState != Negotiation ==> t.ctl.curState != Negotiation)
    && (forall k :: Count(t.log, k) >= Count(s.log, k))
    && (forall st :: Count(t.log, SentId(st)) > Count(s.log, SentId(st)) ==> st == s.id.localState)
    && (Count(t.log, Queued) > Count(s.log, Queued) ==> t.ctl.curState != Negotiation)
  }

  /** A move that needs nothing from the peer. */
  ghost predicate Hears(s: Session, t: Session) {
    && (InfoSeen(t) ==> InfoSeen(s))
    && (AckSeen(t) ==> AckSeen(s))
    && (forall m :: AboutIds(m) && Data(m) in t.ctl.queue ==> Data(m) in s.ctl.queue)
  }

  ghost predicate Alone(s: Session, t: Session) {
    Tells(s, t) && Hears(s, t)
  }

  lemma {:induction false} AloneTwice(s: Session, t: Session, u: Session)
    requires Alone(s, t) && Alone(t, u)
    ensures Alone(s, u)
  {
  }

  lemma {:induction false} CompleteAlone(s: Session, result: int)
    ensures Alone(s, Complete(s, result))
  {
    CompleteEnds(s, result);
    EndedAlone(s, Complete(s, result), result);
  }

  lemma {:induction false} EndedAlone(s: Session, t: Session, result: int)
    requires EndedFrom(s, t, result)
    ensures Alone(s, t)
  {
  }

  /** Logging an effect that posts no device id and joins no queue. */
  lemma {:induction false} EmitAlone(s: Session, e: Effect)
    requires e.PostedDeviceId? ==> e.id.startState == s.id.localState
    requires e.Enqueued? ==> s.ctl.curState != Negotiation
    ensures Alone(s, Emit(s, e))
  {
  }

  lemma {:induction false} MoveAlone(s: Session, p: Phase)
    requires p != Negotiation
    ensures Alone(s, MoveTo(s, p))
  {
  }

  lemma {:induction false} CancelAlone(s: Session, result: int)
    ensures Alone(s, Emit(Complete(s, result), HichainCancelled))
  {
    CompleteAlone(s, result);
    EmitAlone(Complete(s, result), HichainCancelled);
    AloneTwice(s, Complete(s, result), Emit(Complete(s, result), HichainCancelled));
  }

  lemma {:induction false} HandleCommonAlone(s: Session, m: Message)
    ensures Alone(s, HandleCommon(s, m))
  {
    match m
    case AuthTimeout =>
      EmitAlone(s, TimedOut);
      CancelAlone(Emit(s, TimedOut), AUTH_TIMEOUT);
      AloneTwice(s, Emit(s, TimedOut), HandleCommon(s, m));
    case DeviceNotTrusted => CancelAlone(s, AUTH_HICHAIN_NOT_TRUSTED);
    case DeviceDisconnected =>
      EmitAlone(s, Disconnected);
      DisconnectedAlone(Emit(s, Disconnected));
      AloneTwice(s, Emit(s, Disconnected), HandleCommon(s, m));
    case StopAuthFsm => StopAlone(s);
    case _ =>
  }

  lemma {:induction false} DisconnectedAlone(s: Session)
    ensures Alone(s, HandleDisconnected(s))
  {
    CompleteAlone(s, SOFTBUS_OK);
    CancelAlone(s, AUTH_DEVICE_DISCONNECTED);
  }

  lemma {:induction false} StopAlone(s: Session)
    ensures Alone(s, HandleCommon(s, StopAuthFsm))
  {
  }

  // ----- the id exchange -----

  lemma {:induction false} SendAlone(s: Session, o: Oracle)
    ensures Alone(s, SendDeviceId(s, o))
  {
    EmitAlone(s, PostedDeviceId(DeviceIdMsg(s.id.localState, Some(IdTypeCode(s.id.idType)), o.localDeviceId)));
  }

  lemma {:induction false} PostQueuedIdAlone(s: Session, o: Oracle)
    ensures Alone(s, PostQueuedId(s, o))
  {
    SendAlone(s, o);
    CompleteAlone(s, AUTH_SYNC_DEVID_FAIL);
  }

  lemma {:induction false} EnterSyncDeviceIdAlone(s: Session, o: Oracle)
    ensures Alone(s, EnterSyncDeviceId(s, o)) && EnterSyncDeviceId(s, o).ctl.curState == SyncDeviceId
    ensures EnterSyncDeviceId(s, o).id == s.id
  {
    var s1 := MoveTo(s, SyncDeviceId);
    MoveAlone(s, SyncDeviceId);
    EmitAlone(s1, Enqueued);
    var s2 := if s1.id.localState == Start && (o.queue == Behind || o.queue == First) then Emit(s1, Enqueued) else s1;
    AloneTwice(s, s1, s2);
    PostQueuedIdAlone(s2, o);
    AloneTwice(s, s2, PostQueuedId(s2, o));
    CompleteEnds(s2, AUTH_SYNC_DEVID_FAIL);
  }

  /** Entering device-auth keeps the role and leaves negotiation behind. */
  lemma {:induction false} EnterDeviceAuthAlone(s: Session, o: Oracle)
    ensures Alone(s, EnterDeviceAuth(s, o)) && EnterDeviceAuth(s, o).ctl.curState in {DeviceAuth, SyncDeviceId}
    ensures EnterDeviceAuth(s, o).id.isServer == s.id.isServer
  {
    var s1 := MoveTo(s, DeviceAuth);
    var t := EnterDeviceAuth(s, o);
    MoveAlone(s, DeviceAuth);
    if s1.id.normalized == Support || s1.id.fastAuth {
      if o.recoveryOk {
        RecoveredAlone(s1, o);
      } else {
        CompleteAlone(s1, AUTH_SYNC_DEVID_FAIL);
        CompleteEnds(s1, AUTH_SYNC_DEVID_FAIL);
      }
    } else if s1.id.isServer {
    } else if s1.id.idType == Fail {
      var s2 := s1.(id := s1.id.(idType := Udid));
      EmitAlone(s2, FellBack);
      assert Alone(s1, s2);
      AloneTwice(s1, s2, Emit(s2, FellBack));
      EnterSyncDeviceIdAlone(Emit(s2, FellBack), o);
      AloneTwice(s1, Emit(s2, FellBack), t);
    } else if o.startAuth == SOFTBUS_OK {
      EmitAlone(s1, HichainStarted);
    } else {
      CompleteAlone(s1, o.startAuth);
      CompleteEnds(s1, o.startAuth);
    }
    AloneTwice(s, s1, t);
  }

  lemma {:induction false} RecoveredAlone(s: Session, o: Oracle)
    ensures Alone(s, Enqueue(Enqueue(s, Data(SaveSessionKey(o.recoveredKeyLen))), Data(AuthFinish)))
  {
  }

  lemma {:induction false} SendThenAuthAlone(s: Session, o: Oracle)
    ensures Alone(s, EnterDeviceAuth(SendDeviceId(s, o), o))
  {
    SendAlone(s, o);
    EnterDeviceAuthAlone(SendDeviceId(s, o), o);
    AloneTwice(s, SendDeviceId(s, o), EnterDeviceAuth(SendDeviceId(s, o), o));
  }

  lemma {:induction false} PostDeviceIdAlone(s: Session, o: Oracle)
    ensures Alone(s, HandlePostDeviceId(s, o))
  {
    CompleteAlone(s, AUTH_SYNC_DEVID_FAIL);
    SendThenAuthAlone(s, o);
    SendAlone(s, o);
  }

  lemma {:induction false} AnswerDeviceIdAlone(s: Session, o: Oracle)
    ensures Alone(s, AnswerDeviceId(s, o))
  {
    if !s.id.isServer {
      EmitAlone(s, NormalizeSuccess(false));
      var released := s.id.normalized == NotSupport || s.id.peerState == Compatible;
      var s1 := s.(log := AddIf(released, s.log, NormalizeSuccess(false)));
      EnterDeviceAuthAlone(s1, o);
      AloneTwice(s, s1, EnterDeviceAuth(s1, o));
    } else {
      CompleteAlone(s, AUTH_SYNC_DEVID_FAIL);
      SendThenAuthAlone(s, o);
    }
  }

  lemma {:induction false} RecvDeviceIdAlone(s: Session, m: DeviceIdMsg, o: Oracle)
    ensures Alone(s, HandleRecvDeviceId(s, m, o))
  {
    if !o.unpackOk {
      CompleteAlone(s, AUTH_SYNC_DEVID_FAIL);
    } else {
      var s1 := s.(id := UnpackDeviceId(s.id, m, o));
      UnpackKeepsSide(s.id, m, o);
      assert Alone(s, s1);
      AnswerDeviceIdAlone(s1, o);
      AloneTwice(s, s1, AnswerDeviceId(s1, o));
    }
  }

  // ----- negotiation -----

  /** The start states that take a session out of negotiation. */
  predicate Decided(st: StartState) {
    st == Start || st == Ack || st == Compatible
  }

  /** What following the local state does to the role: a starter is the client, an acknowledger the
      server, a compatible session keeps its side, and everyone else stays in negotiation. */
  ghost predicate Follows(s: Session, t: Session) {
    && t.id.localState == s.id.localState
    && (t.ctl.curState == Negotiation <==> !Decided(s.id.localState))
    && (s.id.localState == Start ==> !t.id.isServer)
    && (s.id.localState == Ack ==> t.id.isServer)
    && (s.id.localState == Compatible ==> t.id.isServer == s.id.isServer)
    && (s.id.isServer && s.id.localState != Start ==> t.id.isServer)
  }

  lemma {:induction false} PostThenAuthAlone(s: Session, o: Oracle)
    ensures Alone(s, PostThenAuth(s, o))
    ensures PostThenAuth(s, o).ctl.curState != Negotiation && PostThenAuth(s, o).id.isServer == s.id.isServer
  {
    if o.postId == SOFTBUS_OK {
      SendThenAuthAlone(s, o);
      EnterDeviceAuthAlone(SendDeviceId(s, o), o);
    } else {
      EnterDeviceAuthAlone(s, o);
      CompleteAlone(EnterDeviceAuth(s, o), o.postId);
      CompleteEnds(EnterDeviceAuth(s, o), o.postId);
      AloneTwice(s, EnterDeviceAuth(s, o), PostThenAuth(s, o));
    }
  }

  lemma {:induction false} PostOrFailAlone(s: Session, o: Oracle)
    ensures Alone(s, PostOrFail(s, o))
    ensures PostOrFail(s, o).ctl.curState == s.ctl.curState && PostOrFail(s, o).id == s.id
  {
    SendAlone(s, o);
    CompleteAlone(s, o.postId);
    CompleteEnds(s, o.postId);
  }

  lemma {:induction false} ByLocalStateAlone(s: Session, o: Oracle)
    requires s.ctl.curState == Negotiation
    ensures Alone(s, ByLocalState(s, o)) && Follows(s, ByLocalState(s, o))
  {
    var t := ByLocalState(s, o);
    match s.id.localState
    case Start =>
      EnterSyncDeviceIdAlone(AsSide(s, false), o);
      SideAlone(s, false, t);
    case Ack =>
      PostThenAuthAlone(AsSide(s, true), o);
      SideAlone(s, true, t);
    case Wait =>
      PostOrFailAlone(AsSide(s, true), o);
      SideAlone(s, true, t);
    case Compatible =>
      PostThenAuthAlone(s, o);
      EnterDeviceAuthAlone(s, o);
    case Unknow => PostOrFailAlone(s, o);
    case Unset =>
      CompleteAlone(s, AUTH_SYNC_DEVID_FAIL);
      CompleteEnds(s, AUTH_SYNC_DEVID_FAIL);
  }

  lemma {:induction false} SideAlone(s: Session, isServer: bool, t: Session)
    requires Alone(AsSide(s, isServer), t)
    ensures Alone(s, t)
  {
  }

  lemma {:induction false} FollowLocalStateAlone(s: Session, o: Oracle)
    requires s.ctl.curState == Negotiation
    ensures Alone(s, FollowLocalState(s, o)) && Follows(s, FollowLocalState(s, o))
  {
    EmitAlone(s, NormalizeSuccess(false));
    var s1 := s.(log := AddIf(s.id.peerState == Compatible, s.log, NormalizeSuccess(false)));
    ByLocalStateAlone(s1, o);
    AloneTwice(s, s1, ByLocalState(s1, o));
  }

  /** Which start state a packet from the peer justifies. */
  ghost predicate Justifies(setup: Setup, peer: StartState, st: StartState) {
    && (st == Ack ==> peer == Ack || peer == Start)
    && (st == Compatible ==> peer == Compatible)
    && (st == Start ==> !Decided(peer) && setup.hashOrder >= 0)
  }

  /** A device-id packet handled in negotiation. */
  lemma {:induction false} NegotiationHears(s: Session, m: DeviceIdMsg, o: Oracle)
    requires s.ctl.curState == Negotiation && !Decided(s.id.localState)
    ensures var t := HandleRecvDeviceIdNego(s, m, o);
            && Alone(s.(id := s.id.(localState := t.id.localState)), t)
            && Justifies(s.setup, m.startState, t.id.localState)
            && (t.ctl.curState == Negotiation <==> !Decided(t.id.localState))
            && (t.id.localState == Start ==> !t.id.isServer)
            && (t.id.localState == Ack ==> t.id.isServer)
            && (s.id.isServer && t.id.localState != Start ==> t.id.isServer)
  {
    if !o.unpackOk {
      CompleteAlone(s, AUTH_SYNC_DEVID_FAIL);
      CompleteEnds(s, AUTH_SYNC_DEVID_FAIL);
      assert s.(id := s.id.(localState := s.id.localState)) == s;
    } else {
      var s1 := s.(id := UnpackDeviceId(s.id, m, o));
      UnpackKeepsSide(s.id, m, o);
      var next := UpdateLocalState(s1, o);
      if next.None? {
        assert Alone(s, s1);
        assert s.(id := s.id.(localState := s.id.localState)) == s;
      } else {
        var s2 := s1.(id := s1.id.(localState := next.value));
        FollowLocalStateAlone(s2, o);
        OtherIdAlone(s, s2, FollowLocalState(s2, o));
      }
    }
  }

  /** Alone looks at nothing of the identity but the start state. */
  lemma {:induction false} OtherIdAlone(s: Session, s2: Session, t: Session)
    requires s2 == s.(id := s2.id) && Alone(s2, t)
    ensures Alone(s.(id := s.id.(localState := t.id.localState)), t)
  {
  }

  // ----- the remaining handlers -----

  lemma {:induction false} RecvAuthDataAlone(s: Session, o: Oracle)
    ensures Alone(s, HandleRecvAuthData(s, o))
  {
    CompleteAlone(s, o.processData);
  }

  lemma {:induction false} AuthErrorAlone(s: Session, reason: int, o: Oracle)
    ensures Alone(s, HandleAuthError(s, reason, o))
  {
    var s1 := Emit(s, HichainError(reason));
    var s2 := Emit(s1, NotTrustNotified);
    var s3 := Enqueue(s2, Data(DeviceNotTrusted));
    EmitAlone(s, HichainError(reason));
    EmitAlone(s1, NotTrustNotified);
    assert Alone(s2, s3);
    AloneTwice(s, s1, s2);
    AloneTwice(s, s2, s3);
    CompleteAlone(s1, reason);
    CompleteAlone(s3, reason);
    AloneTwice(s, s1, Complete(s1, reason));
    AloneTwice(s, s3, Complete(s3, reason));
  }

  lemma {:induction false} TryFinishAlone(s: Session)
    ensures Alone(s, TryFinish(s))
  {
    CompleteAlone(s, SOFTBUS_OK);
  }

  lemma {:induction false} AuthFinishAlone(s: Session)
    ensures Alone(s, HandleAuthFinish(s))
  {
    var s1 := s.(ex := s.ex.(authFinished := true));
    assert Alone(s, s1);
    TryFinishAlone(s1);
    AloneTwice(s, s1, TryFinish(s1));
  }

  lemma {:induction false} SaveSessionKeyAlone(s: Session, keyLen: nat, o: Oracle)
    ensures Alone(s, HandleSaveSessionKey(s, keyLen, o))
  {
    if keyLen > SESSION_KEY_LENGTH {
    } else if !SyncInfoOk(s, o) {
      CompleteAlone(s, AUTH_SYNC_DEVINFO_FAIL);
    } else {
      var s1 := LogKey(s, o);
      var s2 := FlushEarlyInfo(s1);
      LogKeyAlone(s, o);
      FlushAlone(s1);
      MoveAlone(s2, SyncDeviceInfo);
      AloneTwice(s, s1, s2);
      AloneTwice(s, s2, MoveTo(s2, SyncDeviceInfo));
    }
  }

  lemma {:induction false} LogKeyAlone(s: Session, o: Oracle)
    ensures Alone(s, LogKey(s, o))
  {
  }

  /** The payload handed over had been received before. */
  lemma {:induction false} FlushAlone(s: Session)
    ensures Alone(s, FlushEarlyInfo(s))
  {
  }

  lemma {:induction false} PassAndFinishAlone(s: Session)
    ensures Alone(s, PassAndFinish(s))
  {
    var s1 := s.(ctl := s.ctl.(timer := false), log := Add(s.log, Passed));
    assert Alone(s, s1);
    TryFinishAlone(s1);
    AloneTwice(s, s1, TryFinish(s1));
  }

  lemma {:induction false} ReplyLinkAlone(s: Session, o: Oracle)
    ensures Alone(s.(ex := s.ex.(nodeInfoReceived := true, closeAckReceived := true)), InfoOnReplyLink(s, o))
  {
    var s1 := s.(ex := s.ex.(nodeInfoReceived := true, closeAckReceived := true));
    var s2 := Emit(s1, PostedDeviceInfo(o.localInfo));
    PassAndFinishAlone(s1);
    CompleteAlone(s1, AUTH_SYNC_DEVINFO_FAIL);
    EmitAlone(s1, PostedDeviceInfo(o.localInfo));
    PassAndFinishAlone(s2);
    AloneTwice(s1, s2, PassAndFinish(s2));
  }

  lemma {:induction false} AckLinkAlone(s: Session, o: Oracle)
    ensures Alone(s.(ex := s.ex.(nodeInfoReceived := true)), InfoOnAckLink(s, o))
  {
    var s1 := s.(ex := s.ex.(nodeInfoReceived := true));
    var s2 := Emit(s1, PostedCloseAck);
    CompleteAlone(s1, AUTH_NOT_SUPPORT_THREE_STATE);
    CompleteAlone(s1, AUTH_SEND_FAIL);
    EmitAlone(s1, PostedCloseAck);
    PassAndFinishAlone(s2);
    AloneTwice(s1, s2, PassAndFinish(s2));
  }

  /** A move caused by message m. */
  ghost predicate Takes(s: Session, m: Message, t: Session) {
    && Tells(s, t)
    && (InfoSeen(t) ==> InfoSeen(s) || m.RecvDeviceInfo?)
    && (AckSeen(t) ==> AckSeen(s) || m.RecvCloseAck?)
    && (forall q :: AboutIds(q) && Data(q) in t.ctl.queue ==> Data(q) in s.ctl.queue)
  }

  /** What a packet leaves behind it also accounts for. */
  lemma {:induction false} TakesThenAlone(s: Session, m: Message, s1: Session, t: Session)
    requires Takes(s, m, s1) && Alone(s1, t)
    ensures Takes(s, m, t)
  {
  }

  lemma {:induction false} AloneTakes(s: Session, m: Message, t: Session)
    requires Alone(s, t)
    ensures Takes(s, m, t)
  {
  }

  lemma {:induction false} RecvDeviceInfoTakes(s: Session, data: Payload, o: Oracle)
    ensures Takes(s, RecvDeviceInfo(data), HandleRecvDeviceInfo(s, o))
  {
    var m := RecvDeviceInfo(data);
    if !o.parseInfoOk {
      CompleteAlone(s, AUTH_UNPACK_DEVINFO_FAIL);
      AloneTakes(s, m, Complete(s, AUTH_UNPACK_DEVINFO_FAIL));
    } else if SyncsByReply(s.setup.link) {
      var s1 := s.(ex := s.ex.(nodeInfoReceived := true, closeAckReceived := true));
      assert Takes(s, m, s1);
      ReplyLinkAlone(s, o);
      TakesThenAlone(s, m, s1, InfoOnReplyLink(s, o));
    } else {
      var s1 := s.(ex := s.ex.(nodeInfoReceived := true));
      assert Takes(s, m, s1);
      AckLinkAlone(s, o);
      TakesThenAlone(s, m, s1, InfoOnAckLink(s, o));
    }
  }

  lemma {:induction false} RecvCloseAckTakes(s: Session)
    ensures Takes(s, RecvCloseAck, HandleRecvCloseAck(s))
  {
    var s1 := s.(ex := s.ex.(closeAckReceived := true));
    assert Takes(s, RecvCloseAck, s1);
    PassAndFinishAlone(s1);
    TryFinishAlone(s1);
    TakesThenAlone(s, RecvCloseAck, s1, HandleRecvCloseAck(s));
  }

  lemma {:induction false} EarlyInfoTakes(s: Session, data: Payload)
    ensures Takes(s, RecvDeviceInfo(data), HandleEarlyInfo(s, data))
  {
  }

  lemma {:induction false} DeviceAuthTakes(s: Session, m: Message, o: Oracle)
    ensures Takes(s, m, ProcessDeviceAuth(s, m, o))
  {
    var t := ProcessDeviceAuth(s, m, o);
    match m
    case RecvDeviceId(id) => RecvDeviceIdAlone(s, id, o); AloneTakes(s, m, t);
    case RecvAuthData => RecvAuthDataAlone(s, o); AloneTakes(s, m, t);
    case SaveSessionKey(n) => SaveSessionKeyAlone(s, n, o); AloneTakes(s, m, t);
    case AuthError(reason) => AuthErrorAlone(s, reason, o); AloneTakes(s, m, t);
    case RecvDeviceInfo(data) => EarlyInfoTakes(s, data);
    case AuthFinish => AuthFinishAlone(s); AloneTakes(s, m, t);
    case _ => HandleCommonAlone(s, m); AloneTakes(s, m, t);
  }

  lemma {:induction false} SyncDeviceInfoTakes(s: Session, m: Message, o: Oracle)
    ensures Takes(s, m, ProcessSyncDeviceInfo(s, m, o))
  {
    var t := ProcessSyncDeviceInfo(s, m, o);
    match m
    case RecvDeviceInfo(data) => RecvDeviceInfoTakes(s, data, o);
    case RecvCloseAck => RecvCloseAckTakes(s);
    case RecvAuthData => RecvAuthDataAlone(s, o); AloneTakes(s, m, t);
    case AuthFinish => AuthFinishAlone(s); AloneTakes(s, m, t);
    case _ => HandleCommonAlone(s, m); AloneTakes(s, m, t);
  }

  lemma {:induction false} SyncDeviceIdTakes(s: Session, m: Message, o: Oracle)
    ensures Takes(s, m, ProcessSyncDeviceId(s, m, o))
  {
    var t := ProcessSyncDeviceId(s, m, o);
    match m
    case RecvDeviceId(id) => RecvDeviceIdAlone(s, id, o); AloneTakes(s, m, t);
    case PostDeviceId => PostDeviceIdAlone(s, o); AloneTakes(s, m, t);
    case _ => HandleCommonAlone(s, m); AloneTakes(s, m, t);
  }
}
