/** What every message keeps true of a session, and what follows for whole runs. */
module SessionInvariants {
  import opened Common
  import opened SessionFsm

  /** The payload HandleMsgRecvDevInfoEarly can keep: an empty one is not duplicated. */
  function Kept(data: Option<Payload>): Option<Payload> {
    if data.Some? && data.value != [] then data else None
  }

  ghost predicate BothFlags(s: Session) {
    s.ex.nodeInfoReceived && s.ex.closeAckReceived
  }

  /** Phase, flags and the library's state agree. */
  ghost predicate PhaseInv(s: Session) {
    && (s.ctl.machine.Running? ==> s.ctl.machine.phase == s.ctl.curState)
    && (s.ctl.machine.Idle? ==>
          s.ctl.curState == Negotiation && s.id.isServer == s.setup.isConnectServer && s.log == Nil)
    && (s.ctl.machine.Idle? ==> FirstQueued(s))
    && (s.ex.nodeInfoReceived || s.ex.closeAckReceived ==> s.ctl.curState == SyncDeviceInfo)
    && (s.ctl.curState == SyncDeviceId ==> !s.id.isServer)
    && (Has(s.log, KeySaved) <==> s.ctl.curState == SyncDeviceInfo)
  }

  /** An unstarted machine still holds its start message, which names one of the first two states. */
  ghost predicate FirstQueued(s: Session) {
    && s.ctl.queue != []
    && (s.ctl.queue[0] == CtrlStart(Negotiation) || (s.ctl.queue[0] == CtrlStart(SyncDeviceId) && !s.id.isServer))
  }

  /** What has been reported and sent is justified by the flags. */
  ghost predicate ReportInv(s: Session) {
    && (Has(s.log, Reported) ==> BothFlags(s))
    && (s.ctl.timer ==> !Has(s.log, Reported))
    && !TimedOutAfterPass(s.log)
    && (Has(s.log, SentAck) ==> s.ex.nodeInfoReceived)
    && (Has(s.log, SentInfo) ==> s.ctl.curState == SyncDeviceInfo)
    && (Has(s.log, KeySaved) ==> !CannotSyncInfo(s.setup.link)
                                 && (Has(s.log, SentInfo) || (SyncsByReply(s.setup.link) && s.id.isServer)))
    && (Has(s.log, SentInfo) && SyncsByReply(s.setup.link) && s.id.isServer ==> s.ex.nodeInfoReceived)
  }

  /** Why a session may be completed with SOFTBUS_OK. */
  ghost predicate OkIsJustified(s: Session) {
    Has(s.log, ErrorZero) || (BothFlags(s) && Has(s.log, Reported) && (s.ex.authFinished || Has(s.log, LostLink)))
  }

  /** Why and how a session ended. */
  ghost predicate EndInv(s: Session) {
    && (s.ctl.isDead <==> Ends(s.log) > 0)
    && (Has(s.log, EndedOk) ==> s.ctl.isDead && OkIsJustified(s))
    && !Has(s.log, EndedRawTimeout)
    && (Has(s.log, ErrorZero) ==> Has(s.log, EndedOk) && s.ctl.curState == DeviceAuth)
  }

  /** Early device information: buffered until the key is saved, then queued once. */
  ghost predicate EarlyInv(s: Session) {
    if s.ctl.curState != SyncDeviceInfo then Requeued(s.log) == [] && s.ex.earlyInfo == Kept(LastEarly(s.log))
    else s.ex.earlyInfo == None && Requeued(s.log) == HandedOver(s.log)
  }

  function HandedOver(log: Log): seq<Payload> {
    if Kept(LastEarly(log)).Some? then [Kept(LastEarly(log)).value] else []
  }

  /** Inv, except that both flags may be set before authentication is reported passed, and the link lost before the
      session is ended. */
  ghost predicate Mid(s: Session) {
    && PhaseInv(s)
    && ReportInv(s)
    && EndInv(s)
    && EarlyInv(s)
    && Data(AuthTimeout) !in s.ctl.queue
  }

  ghost predicate Inv(s: Session) {
    && Mid(s)
    && (BothFlags(s) && !s.ctl.isDead ==> Has(s.log, Reported))
    && (Has(s.log, LostLink) ==> s.ctl.isDead)
  }

  /** A session whose machine has started and that still handles messages. */
  ghost predicate Active(s: Session) {
    Inv(s) && !s.ctl.isDead && s.ctl.machine.Running?
  }

  lemma {:induction false} CreateInv(c: Config)
    ensures Inv(Create(c))
  {
  }

  /** How a completed session t differs from the session s it was. */
  ghost predicate EndedFrom(s: Session, t: Session, result: int) {
    && t.setup == s.setup && t.id == s.id && t.ex == s.ex
    && t.ctl.curState == s.ctl.curState && t.ctl.machine == s.ctl.machine && t.ctl.isDead
    && t.ctl.queue == s.ctl.queue + [CtrlStop, CtrlDeinit]
    && (t.ctl.timer ==> s.ctl.timer)
    && Requeued(t.log) == Requeued(s.log) && LastEarly(t.log) == LastEarly(s.log)
    && TimedOutAfterPass(t.log) == TimedOutAfterPass(s.log)
    && (forall k :: Count(t.log, k) == Count(s.log, k)
                      + if k == Ended || (k == EndedOk && result == SOFTBUS_OK) then 1 else 0)
  }

  lemma {:induction false} CompleteOkEnds(s: Session)
    ensures EndedFrom(s, CompleteOk(s), SOFTBUS_OK)
  {
  }

  lemma {:induction false} CompleteFailedEnds(s: Session, code: int)
    requires code != SOFTBUS_OK && code != AUTH_TIMEOUT
    ensures EndedFrom(s, CompleteFailed(s, code), code) && !CompleteFailed(s, code).ctl.timer
  {
  }

  lemma {:induction false} CompleteEnds(s: Session, result: int)
    ensures EndedFrom(s, Complete(s, result), result)
    ensures result != SOFTBUS_OK ==> !Complete(s, result).ctl.timer
  {
    if result == SOFTBUS_OK {
      CompleteOkEnds(s);
    } else {
      CompleteFailedEnds(s, if result == AUTH_TIMEOUT then TimeoutCode(s) else result);
    }
  }

  lemma {:induction false} EndedKeeps(s: Session, t: Session, result: int)
    requires Mid(s) && s.ctl.machine.Running? && EndedFrom(s, t, result)
    requires result == SOFTBUS_OK ==> OkIsJustified(s)
    ensures Inv(t)
  {
  }

  lemma {:induction false} CompleteKeeps(s: Session, result: int)
    requires Mid(s) && s.ctl.machine.Running?
    requires result == SOFTBUS_OK ==> OkIsJustified(s)
    ensures Inv(Complete(s, result)) && EndedFrom(s, Complete(s, result), result)
  {
    CompleteEnds(s, result);
    EndedKeeps(s, Complete(s, result), result);
  }

  /** Logging an effect nobody asks about keeps everything. */
  lemma {:induction false} EmitQuiet(s: Session, e: Effect)
    requires Inv(s) && !s.ctl.machine.Idle?
    requires e.HichainCancelled? || e.HichainStarted? || e.PostedDeviceId? || e.Enqueued? || e.NormalizeSuccess?
             || e.NotTrustNotified? || e.FellBack? || (e.HichainError? && e.reason != SOFTBUS_OK)
    ensures Inv(Emit(s, e))
  {
  }

  lemma {:induction false} HandleCommonKeeps(s: Session, m: Message)
    requires Active(s)
    requires m.AuthTimeout? ==> !Has(s.log, Reported)
    ensures Inv(HandleCommon(s, m))
  {
    match m
    case AuthTimeout => TimeoutKeeps(s);
    case DeviceNotTrusted => CancelKeeps(s, AUTH_HICHAIN_NOT_TRUSTED);
    case DeviceDisconnected =>
      LostMid(s);
      DisconnectedKeeps(Emit(s, Disconnected));
    case StopAuthFsm => StopKeeps(s);
    case _ =>
  }

  lemma {:induction false} TimeoutKeeps(s: Session)
    requires Active(s) && !Has(s.log, Reported)
    ensures Inv(Emit(Complete(Emit(s, TimedOut), AUTH_TIMEOUT), HichainCancelled))
  {
    assert Mid(Emit(s, TimedOut));
    CancelKeeps(Emit(s, TimedOut), AUTH_TIMEOUT);
  }

  lemma {:induction false} CancelKeeps(s: Session, result: int)
    requires Mid(s) && s.ctl.machine.Running? && result != SOFTBUS_OK
    ensures Inv(Emit(Complete(s, result), HichainCancelled))
  {
    CompleteKeeps(s, result);
    EmitQuiet(Complete(s, result), HichainCancelled);
  }

  lemma {:induction false} StopKeeps(s: Session)
    requires Active(s)
    ensures Inv(HandleCommon(s, StopAuthFsm))
  {
  }

  lemma {:induction false} LostMid(s: Session)
    requires Active(s)
    ensures Mid(Emit(s, Disconnected)) && Has(Emit(s, Disconnected).log, LostLink)
    ensures Has(Emit(s, Disconnected).log, Reported) == Has(s.log, Reported)
  {
  }

  lemma {:induction false} DisconnectedKeeps(s: Session)
    requires Mid(s) && s.ctl.machine.Running? && Has(s.log, LostLink) && (BothFlags(s) ==> Has(s.log, Reported))
    ensures Inv(HandleDisconnected(s))
  {
    if BothFlags(s) {
      CompleteKeeps(s, SOFTBUS_OK);
    } else {
      CancelKeeps(s, AUTH_DEVICE_DISCONNECTED);
    }
  }

  // ----- entering states -----

  /** Leaving negotiation and the id exchange: only device-auth needs no side condition. */
  lemma {:induction false} MoveKeeps(s: Session, p: Phase)
    requires Inv(s) && !s.ctl.isDead && !s.ctl.machine.Idle? && s.ctl.curState != SyncDeviceInfo
    requires p == DeviceAuth || p == Negotiation || (p == SyncDeviceId && !s.id.isServer)
    ensures Inv(MoveTo(s, p)) && MoveTo(s, p).ctl.machine == Running(p)
  {
  }

  lemma {:induction false} PostQueuedIdKeeps(s: Session, o: Oracle)
    requires Active(s)
    ensures Inv(PostQueuedId(s, o))
  {
    if o.postId != SOFTBUS_OK {
      CompleteKeeps(s, AUTH_SYNC_DEVID_FAIL);
    }
  }

  lemma {:induction false} EnterSyncDeviceIdKeeps(s: Session, o: Oracle)
    requires Active(s) && s.ctl.curState != SyncDeviceInfo && !s.id.isServer
    ensures Inv(EnterSyncDeviceId(s, o))
  {
    var s1 := MoveTo(s, SyncDeviceId);
    MoveKeeps(s, SyncDeviceId);
    EmitQuiet(s1, Enqueued);
    PostQueuedIdKeeps(s1, o);
    PostQueuedIdKeeps(Emit(s1, Enqueued), o);
  }

  lemma {:induction false} EnterDeviceAuthKeeps(s: Session, o: Oracle)
    requires Active(s) && s.ctl.curState != SyncDeviceInfo
    ensures Inv(EnterDeviceAuth(s, o))
    ensures !EnterDeviceAuth(s, o).ctl.machine.Idle?
  {
    var s1 := MoveTo(s, DeviceAuth);
    MoveKeeps(s, DeviceAuth);
    if s1.id.normalized == Support || s1.id.fastAuth {
      if !o.recoveryOk {
        CompleteKeeps(s1, AUTH_SYNC_DEVID_FAIL);
      }
    } else if s1.id.isServer {
    } else if s1.id.idType == Fail {
      var s2 := s1.(id := s1.id.(idType := Udid));
      IdentityKeeps(s1, s2.id);
      EmitQuiet(s2, FellBack);
      EnterSyncDeviceIdKeeps(Emit(s2, FellBack), o);
    } else if o.startAuth == SOFTBUS_OK {
      EmitQuiet(s1, HichainStarted);
    } else {
      CompleteKeeps(s1, o.startAuth);
    }
  }

  // ----- handlers -----

  /** The identity fields matter to Inv only through the side. */
  lemma {:induction false} IdentityKeeps(s: Session, id: Identity)
    requires Inv(s) && !s.ctl.machine.Idle? && s.ctl.curState != SyncDeviceInfo
    requires s.ctl.curState == SyncDeviceId ==> !id.isServer
    ensures Inv(s.(id := id))
  {
  }

  lemma {:induction false} PostDeviceIdKeeps(s: Session, o: Oracle)
    requires Active(s) && s.ctl.curState != SyncDeviceInfo
    ensures Inv(HandlePostDeviceId(s, o))
  {
    if o.postId != SOFTBUS_OK {
      CompleteKeeps(s, AUTH_SYNC_DEVID_FAIL);
    } else {
      SendDeviceIdKeeps(s, o);
      EnterDeviceAuthKeeps(SendDeviceId(s, o), o);
    }
  }

  lemma {:induction false} SendDeviceIdKeeps(s: Session, o: Oracle)
    requires Active(s)
    ensures Active(SendDeviceId(s, o)) && SendDeviceId(s, o).ctl == s.ctl
  {
    EmitQuiet(s, PostedDeviceId(DeviceIdMsg(s.id.localState, Some(IdTypeCode(s.id.idType)), o.localDeviceId)));
  }

  lemma {:induction false} UnpackKeepsSide(id: Identity, m: DeviceIdMsg, o: Oracle)
    ensures UnpackDeviceId(id, m, o).isServer == id.isServer
    ensures UnpackDeviceId(id, m, o).localState == id.localState
    ensures UnpackDeviceId(id, m, o).peerState == m.startState
  {
  }

  lemma {:induction false} RecvDeviceIdKeeps(s: Session, m: DeviceIdMsg, o: Oracle)
    requires Active(s) && s.ctl.curState != SyncDeviceInfo
    ensures Inv(HandleRecvDeviceId(s, m, o))
  {
    if !o.unpackOk {
      CompleteKeeps(s, AUTH_SYNC_DEVID_FAIL);
    } else {
      UnpackKeepsSide(s.id, m, o);
      IdentityKeeps(s, UnpackDeviceId(s.id, m, o));
      AnswerDeviceIdKeeps(s.(id := UnpackDeviceId(s.id, m, o)), o);
    }
  }

  lemma {:induction false} AnswerDeviceIdKeeps(s: Session, o: Oracle)
    requires Active(s) && s.ctl.curState != SyncDeviceInfo
    ensures Inv(AnswerDeviceId(s, o))
  {
    if !s.id.isServer {
      EmitQuiet(s, NormalizeSuccess(false));
      EnterDeviceAuthKeeps(s, o);
      EnterDeviceAuthKeeps(Emit(s, NormalizeSuccess(false)), o);
    } else if o.postId != SOFTBUS_OK {
      CompleteKeeps(s, AUTH_SYNC_DEVID_FAIL);
    } else {
      SendDeviceIdKeeps(s, o);
      EnterDeviceAuthKeeps(SendDeviceId(s, o), o);
    }
  }

  lemma {:induction false} PostThenAuthKeeps(s: Session, o: Oracle)
    requires Active(s) && s.ctl.curState != SyncDeviceInfo
    ensures Inv(PostThenAuth(s, o))
  {
    if o.postId == SOFTBUS_OK {
      SendDeviceIdKeeps(s, o);
      EnterDeviceAuthKeeps(SendDeviceId(s, o), o);
    } else {
      EnterDeviceAuthKeeps(s, o);
      EnterDeviceAuthRuns(s, o);
      CompleteKeeps(EnterDeviceAuth(s, o), o.postId);
    }
  }

  lemma {:induction false} EnterDeviceAuthRuns(s: Session, o: Oracle)
    ensures EnterDeviceAuth(s, o).ctl.machine.Running?
  {
  }

  lemma {:induction false} PostOrFailKeeps(s: Session, o: Oracle)
    requires Active(s)
    ensures Inv(PostOrFail(s, o))
  {
    if o.postId == SOFTBUS_OK {
      SendDeviceIdKeeps(s, o);
    } else {
      CompleteKeeps(s, o.postId);
    }
  }

  lemma {:induction false} FollowLocalStateKeeps(s: Session, o: Oracle)
    requires Active(s) && s.ctl.curState == Negotiation
    ensures Inv(FollowLocalState(s, o))
  {
    EmitQuiet(s, NormalizeSuccess(false));
    ByLocalStateKeeps(s.(log := AddIf(s.id.peerState == Compatible, s.log, NormalizeSuccess(false))), o);
  }

  lemma {:induction false} ByLocalStateKeeps(s: Session, o: Oracle)
    requires Active(s) && s.ctl.curState == Negotiation
    ensures Inv(ByLocalState(s, o))
  {
    match s.id.localState
    case Start =>
      IdentityKeeps(s, s.id.(isServer := false));
      EnterSyncDeviceIdKeeps(AsSide(s, false), o);
    case Ack =>
      IdentityKeeps(s, s.id.(isServer := true));
      PostThenAuthKeeps(AsSide(s, true), o);
    case Wait =>
      IdentityKeeps(s, s.id.(isServer := true));
      PostOrFailKeeps(AsSide(s, true), o);
    case Compatible =>
      if s.id.isServer {
        PostThenAuthKeeps(s, o);
      } else {
        EnterDeviceAuthKeeps(s, o);
      }
    case Unknow => PostOrFailKeeps(s, o);
    case Unset => CompleteKeeps(s, AUTH_SYNC_DEVID_FAIL);
  }

  lemma {:induction false} RecvDeviceIdNegoKeeps(s: Session, m: DeviceIdMsg, o: Oracle)
    requires Active(s) && s.ctl.curState == Negotiation
    ensures Inv(HandleRecvDeviceIdNego(s, m, o))
  {
    if !o.unpackOk {
      CompleteKeeps(s, AUTH_SYNC_DEVID_FAIL);
    } else {
      var s1 := s.(id := UnpackDeviceId(s.id, m, o));
      IdentityKeeps(s, s1.id);
      var next := UpdateLocalState(s1, o);
      if next.Some? {
        IdentityKeeps(s, s1.id.(localState := next.value));
        FollowLocalStateKeeps(s1.(id := s1.id.(localState := next.value)), o);
      }
    }
  }

  lemma {:induction false} AuthErrorKeeps(s: Session, reason: int, o: Oracle)
    requires Active(s) && s.ctl.curState == DeviceAuth
    ensures Inv(HandleAuthError(s, reason, o))
  {
    var s1 := Emit(s, HichainError(reason));
    if reason == SOFTBUS_OK {
      CompleteEnds(s1, SOFTBUS_OK);
      ZeroErrorKeeps(s, s1, Complete(s1, SOFTBUS_OK));
    } else {
      EmitQuiet(s, HichainError(reason));
      EmitQuiet(s1, NotTrustNotified);
      EnqueueKeeps(Emit(s1, NotTrustNotified), Data(DeviceNotTrusted));
      CompleteKeeps(s1, reason);
      CompleteKeeps(Enqueue(Emit(s1, NotTrustNotified), Data(DeviceNotTrusted)), reason);
    }
  }

  lemma {:induction false} ZeroErrorKeeps(s: Session, s1: Session, t: Session)
    requires Active(s) && s.ctl.curState == DeviceAuth
    requires s1 == Emit(s, HichainError(SOFTBUS_OK)) && EndedFrom(s1, t, SOFTBUS_OK)
    ensures Inv(t)
  {
  }

  lemma {:induction false} EnqueueKeeps(s: Session, m: LooperMsg)
    requires Inv(s) && m != Data(AuthTimeout)
    ensures Inv(Enqueue(s, m))
  {
  }

  lemma {:induction false} TryFinishKeeps(s: Session)
    requires Mid(s) && s.ctl.machine.Running? && !s.ctl.isDead && !Has(s.log, LostLink)
    requires BothFlags(s) ==> Has(s.log, Reported)
    ensures Inv(TryFinish(s))
  {
    if BothFlags(s) && s.ex.authFinished {
      CompleteKeeps(s, SOFTBUS_OK);
    }
  }

  lemma {:induction false} AuthFinishKeeps(s: Session)
    requires Active(s)
    ensures Inv(HandleAuthFinish(s))
  {
    TryFinishKeeps(s.(ex := s.ex.(authFinished := true)));
  }

  lemma {:induction false} SaveSessionKeyKeeps(s: Session, keyLen: nat, o: Oracle)
    requires Active(s) && s.ctl.curState == DeviceAuth
    ensures Inv(HandleSaveSessionKey(s, keyLen, o))
  {
    if keyLen > SESSION_KEY_LENGTH {
    } else if !SyncInfoOk(s, o) {
      CompleteKeeps(s, AUTH_SYNC_DEVINFO_FAIL);
    } else {
      KeyIsLogged(s, o);
      KeyLoggedMoves(s, LogKey(s, o));
    }
  }

  /** What saving the key does to the log and the buffer, before the state changes. */
  ghost predicate KeyLogged(s: Session, t: Session) {
    && t.setup == s.setup && t.id == s.id && t.ctl == s.ctl && t.ex == s.ex
    && Requeued(t.log) == Requeued(s.log) && LastEarly(t.log) == LastEarly(s.log)
    && TimedOutAfterPass(t.log) == TimedOutAfterPass(s.log)
    && Has(t.log, KeySaved)
    && (Has(t.log, SentInfo) || (SyncsByReply(s.setup.link) && s.id.isServer))
    && (SyncsByReply(s.setup.link) && s.id.isServer ==> Has(t.log, SentInfo) == Has(s.log, SentInfo))
    && (forall k :: k != KeySaved && k != SentInfo ==> Count(t.log, k) == Count(s.log, k))
  }

  lemma {:induction false} KeyIsLogged(s: Session, o: Oracle)
    ensures KeyLogged(s, LogKey(s, o))
  {
  }

  lemma {:induction false} KeyLoggedMoves(s: Session, t: Session)
    requires Active(s) && s.ctl.curState == DeviceAuth && KeyLogged(s, t) && !CannotSyncInfo(s.setup.link)
    ensures Inv(MoveTo(FlushEarlyInfo(t), SyncDeviceInfo))
  {
  }

  lemma {:induction false} PassAndFinishKeeps(s: Session)
    requires Mid(s) && s.ctl.machine.Running? && !s.ctl.isDead && BothFlags(s) && !Has(s.log, LostLink)
    ensures Inv(PassAndFinish(s))
  {
    TryFinishKeeps(s.(ctl := s.ctl.(timer := false), log := Add(s.log, Passed)));
  }

  lemma {:induction false} ReplyLinkKeeps(s: Session, o: Oracle)
    requires Active(s) && s.ctl.curState == SyncDeviceInfo
    ensures Inv(InfoOnReplyLink(s, o))
  {
    var s1 := s.(ex := s.ex.(nodeInfoReceived := true, closeAckReceived := true));
    assert Mid(s1);
    if !s.id.isServer {
      PassAndFinishKeeps(s1);
    } else if !o.postInfoOk {
      CompleteKeeps(s1, AUTH_SYNC_DEVINFO_FAIL);
    } else {
      PassAndFinishKeeps(Emit(s1, PostedDeviceInfo(o.localInfo)));
    }
  }

  lemma {:induction false} AckLinkKeeps(s: Session, o: Oracle)
    requires Active(s) && s.ctl.curState == SyncDeviceInfo
    ensures Inv(InfoOnAckLink(s, o))
  {
    var s1 := s.(ex := s.ex.(nodeInfoReceived := true));
    assert Mid(s1);
    if s.setup.link == Ble && !o.threeState {
      CompleteKeeps(s1, AUTH_NOT_SUPPORT_THREE_STATE);
    } else if !o.postAckOk {
      CompleteKeeps(s1, AUTH_SEND_FAIL);
    } else {
      assert Mid(Emit(s1, PostedCloseAck));
      if s.ex.closeAckReceived {
        PassAndFinishKeeps(Emit(s1, PostedCloseAck));
      }
    }
  }

  lemma {:induction false} RecvDeviceInfoKeeps(s: Session, o: Oracle)
    requires Active(s) && s.ctl.curState == SyncDeviceInfo
    ensures Inv(HandleRecvDeviceInfo(s, o))
  {
    if !o.parseInfoOk {
      CompleteKeeps(s, AUTH_UNPACK_DEVINFO_FAIL);
    } else if SyncsByReply(s.setup.link) {
      ReplyLinkKeeps(s, o);
    } else {
      AckLinkKeeps(s, o);
    }
  }

  lemma {:induction false} RecvCloseAckKeeps(s: Session)
    requires Active(s) && s.ctl.curState == SyncDeviceInfo
    ensures Inv(HandleRecvCloseAck(s))
  {
    var s1 := s.(ex := s.ex.(closeAckReceived := true));
    assert Mid(s1);
    if s.ex.nodeInfoReceived {
      PassAndFinishKeeps(s1);
    } else {
      TryFinishKeeps(s1);
    }
  }

  lemma {:induction false} RecvAuthDataKeeps(s: Session, o: Oracle)
    requires Active(s)
    ensures Inv(HandleRecvAuthData(s, o))
  {
    if o.processData != SOFTBUS_OK && !s.ex.authFinished {
      CompleteKeeps(s, o.processData);
    }
  }

  // ----- dispatch and runs -----

  lemma {:induction false} ProcessKeeps(s: Session, m: Message, o: Oracle)
    requires Active(s)
    requires m.AuthTimeout? ==> !Has(s.log, Reported)
    ensures Inv(Process(s, s.ctl.curState, m, o))
  {
    match s.ctl.curState
    case Negotiation => NegotiationKeeps(s, m, o);
    case SyncDeviceId => SyncDeviceIdKeeps(s, m, o);
    case DeviceAuth => DeviceAuthKeeps(s, m, o);
    case SyncDeviceInfo => SyncDeviceInfoKeeps(s, m, o);
  }

  lemma {:induction false} NegotiationKeeps(s: Session, m: Message, o: Oracle)
    requires Active(s) && s.ctl.curState == Negotiation
    requires m.AuthTimeout? ==> !Has(s.log, Reported)
    ensures Inv(ProcessNegotiation(s, m, o))
  {
    match m
    case RecvDeviceId(id) => RecvDeviceIdNegoKeeps(s, id, o);
    case PostDeviceId => PostDeviceIdKeeps(s, o);
    case _ => HandleCommonKeeps(s, m);
  }

  lemma {:induction false} SyncDeviceIdKeeps(s: Session, m: Message, o: Oracle)
    requires Active(s) && s.ctl.curState == SyncDeviceId
    requires m.AuthTimeout? ==> !Has(s.log, Reported)
    ensures Inv(ProcessSyncDeviceId(s, m, o))
  {
    match m
    case RecvDeviceId(id) => RecvDeviceIdKeeps(s, id, o);
    case PostDeviceId => PostDeviceIdKeeps(s, o);
    case _ => HandleCommonKeeps(s, m);
  }

  lemma {:induction false} DeviceAuthKeeps(s: Session, m: Message, o: Oracle)
    requires Active(s) && s.ctl.curState == DeviceAuth
    requires m.AuthTimeout? ==> !Has(s.log, Reported)
    ensures Inv(ProcessDeviceAuth(s, m, o))
  {
    match m
    case RecvDeviceId(id) => RecvDeviceIdKeeps(s, id, o);
    case RecvAuthData => RecvAuthDataKeeps(s, o);
    case SaveSessionKey(n) => SaveSessionKeyKeeps(s, n, o);
    case AuthError(reason) => AuthErrorKeeps(s, reason, o);
    case RecvDeviceInfo(data) => EarlyInfoKeeps(s, data);
    case AuthFinish => AuthFinishKeeps(s);
    case _ => HandleCommonKeeps(s, m);
  }

  lemma {:induction false} EarlyInfoKeeps(s: Session, data: Payload)
    requires Active(s) && s.ctl.curState == DeviceAuth
    ensures Inv(HandleEarlyInfo(s, data))
  {
  }

  lemma {:induction false} SyncDeviceInfoKeeps(s: Session, m: Message, o: Oracle)
    requires Active(s) && s.ctl.curState == SyncDeviceInfo
    requires m.AuthTimeout? ==> !Has(s.log, Reported)
    ensures Inv(ProcessSyncDeviceInfo(s, m, o))
  {
    match m
    case RecvDeviceInfo(_) => RecvDeviceInfoKeeps(s, o);
    case RecvCloseAck => RecvCloseAckKeeps(s);
    case RecvAuthData => RecvAuthDataKeeps(s, o);
    case AuthFinish => AuthFinishKeeps(s);
    case _ => HandleCommonKeeps(s, m);
  }

  /** Taking the start message off the queue of an unstarted machine and entering its state. */
  lemma {:induction false} StartMoves(s: Session, p: Phase)
    requires Inv(s) && s.ctl.machine.Idle?
    requires p == Negotiation || (p == SyncDeviceId && !s.id.isServer)
    ensures s.ctl.queue != [] && Active(MoveTo(Popped(s), p))
  {
  }

  lemma {:induction false} StartKeeps(s: Session, o: Oracle)
    requires Inv(s) && s.ctl.machine.Idle?
    ensures s.ctl.queue != [] && Inv(Handle(Popped(s), s.ctl.queue[0], o))
  {
    if s.ctl.queue[0] == CtrlStart(Negotiation) {
      StartMoves(s, Negotiation);
      PostQueuedIdKeeps(MoveTo(Popped(s), Negotiation), o);
    } else {
      StartMoves(s, SyncDeviceId);
      EnterSyncDeviceIdKeeps(MoveTo(Popped(s), SyncDeviceId), o);
    }
  }

  lemma {:induction false} PoppedKeeps(s: Session)
    requires Inv(s) && !s.ctl.machine.Idle? && s.ctl.queue != []
    ensures Inv(Popped(s)) && s.ctl.queue[0] != Data(AuthTimeout)
  {
  }

  lemma {:induction false} HandleKeeps(s: Session, m: LooperMsg, o: Oracle)
    requires Inv(s) && !s.ctl.machine.Idle?
    requires m == Data(AuthTimeout) ==> !Has(s.log, Reported)
    ensures Inv(Handle(s, m, o))
  {
    if m.Data? && s.ctl.machine.Running? && !s.ctl.isDead {
      ProcessKeeps(s, m.msg, o);
    }
  }

  lemma {:induction false} NextKeeps(s: Session, e: Event)
    requires Inv(s)
    ensures Inv(Next(s, e))
  {
    match e
    case Post(m) => EnqueueKeeps(s, if Postable(m) then Data(m) else CtrlStop);
    case Step(o) =>
      if s.ctl.machine.Idle? {
        StartKeeps(s, o);
      } else if s.ctl.queue != [] {
        PoppedKeeps(s);
        HandleKeeps(Popped(s), s.ctl.queue[0], o);
      }
    case Expire(o) =>
      if s.ctl.timer && !s.ctl.machine.Idle? {
        HandleKeeps(Unarmed(s), Data(AuthTimeout), o);
      }
  }

  lemma {:induction false} RunKeeps(s: Session, events: seq<Event>)
    requires Inv(s)
    ensures Inv(Run(s, events))
    decreases |events|
  {
    if events != [] {
      NextKeeps(s, events[0]);
      RunKeeps(Next(s, events[0]), events[1..]);
    }
  }
}
