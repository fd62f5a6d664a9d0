/** How a session moves through its phases, and how often it can end. */
module SessionProgress {
  import opened Common
  import opened SessionFsm
  import opened SessionInvariants

  /** The phases in the order a session can go through them. The id exchange and device-auth occur
      twice, because a client whose network id the peer could not resolve falls back once. */
  function Rank(s: Session): nat {
    if s.ctl.machine.Idle? then 6
    else match s.ctl.curState
      case Negotiation => 5
      case SyncDeviceId => if s.id.idType == Udid then 2 else 4
      case DeviceAuth => if !s.id.isServer && s.id.idType != Udid then 3 else 1
      case SyncDeviceInfo => 0
  }

  /** A move from s to t never goes up in Rank, changes phase only by going down, falls back only by
      crossing from rank 3 to rank 2, and fixes the role once negotiation is left. */
  ghost predicate Progress(s: Session, t: Session) {
    && t.setup == s.setup
    && Rank(t) <= Rank(s)
    && (t.ctl.curState != s.ctl.curState ==> Rank(t) < Rank(s))
    && (s.ctl.curState != Negotiation ==> t.id.isServer == s.id.isServer && t.id.localState == s.id.localState)
    && Count(t.log, BackEdge) <= Count(s.log, BackEdge) + if Rank(s) > 2 >= Rank(t) then 1 else 0
  }

  /** Progress that ends the session at most n times. */
  ghost predicate Goes(s: Session, t: Session, n: nat) {
    Progress(s, t) && Ends(t.log) <= Ends(s.log) + n
  }

  /** A move inside one phase that leaves the identity alone. */
  ghost predicate Stays(s: Session, t: Session, n: nat) {
    && t.setup == s.setup && t.id == s.id && t.ctl.curState == s.ctl.curState && t.ctl.machine == s.ctl.machine
    && Count(t.log, BackEdge) == Count(s.log, BackEdge)
    && Ends(t.log) <= Ends(s.log) + n
  }

  lemma {:induction false} StaysGoes(s: Session, t: Session, n: nat)
    requires Stays(s, t, n)
    ensures Goes(s, t, n)
  {
  }

  lemma {:induction false} CompleteStays(s: Session, result: int)
    ensures Stays(s, Complete(s, result), 1) && Ends(Complete(s, result).log) == Ends(s.log) + 1
  {
    CompleteEnds(s, result);
  }

  lemma {:induction false} HandleCommonStays(s: Session, m: Message)
    ensures Stays(s, HandleCommon(s, m), 1)
  {
    match m
    case AuthTimeout => CancelStays(Emit(s, TimedOut), AUTH_TIMEOUT);
    case DeviceNotTrusted => CancelStays(s, AUTH_HICHAIN_NOT_TRUSTED);
    case DeviceDisconnected => DisconnectedStays(Emit(s, Disconnected));
    case StopAuthFsm => StopStays(s);
    case _ =>
  }

  lemma {:induction false} HandleCommonGoes(s: Session, m: Message)
    ensures Goes(s, HandleCommon(s, m), 1)
  {
    HandleCommonStays(s, m);
    StaysGoes(s, HandleCommon(s, m), 1);
  }

  lemma {:induction false} CancelStays(s: Session, result: int)
    ensures Stays(s, Emit(Complete(s, result), HichainCancelled), 1)
  {
    CompleteStays(s, result);
  }

  lemma {:induction false} StopStays(s: Session)
    ensures Stays(s, HandleCommon(s, StopAuthFsm), 1)
  {
  }

  lemma {:induction false} DisconnectedStays(s: Session)
    ensures Stays(s, HandleDisconnected(s), 1)
  {
    CompleteStays(s, SOFTBUS_OK);
    CancelStays(s, AUTH_DEVICE_DISCONNECTED);
  }

  lemma {:induction false} PostQueuedIdStays(s: Session, o: Oracle)
    ensures Stays(s, PostQueuedId(s, o), 1)
  {
    CompleteStays(s, AUTH_SYNC_DEVID_FAIL);
  }

  lemma {:induction false} EnterSyncDeviceIdStays(s: Session, o: Oracle)
    ensures Stays(MoveTo(s, SyncDeviceId), EnterSyncDeviceId(s, o), 1)
  {
    var s1 := MoveTo(s, SyncDeviceId);
    PostQueuedIdStays(s1, o);
    PostQueuedIdStays(Emit(s1, Enqueued), o);
  }

  /** Entering device-auth ends the session at most once; on the server only a failed recovery does. */
  lemma {:induction false} EnterDeviceAuthGoes(s: Session, o: Oracle)
    requires !s.ctl.machine.Idle? && s.ctl.curState != SyncDeviceInfo
    requires s.ctl.curState == SyncDeviceId ==> !s.id.isServer
    ensures Goes(s, EnterDeviceAuth(s, o), 1)
    ensures s.id.isServer ==>
              Ends(EnterDeviceAuth(s, o).log) ==
              Ends(s.log) + if (s.id.normalized == Support || s.id.fastAuth) && !o.recoveryOk then 1 else 0
  {
    var s1 := MoveTo(s, DeviceAuth);
    assert Goes(s, s1, 0);
    if s.id.normalized == Support || s.id.fastAuth {
      CompleteGoes(s, s1, AUTH_SYNC_DEVID_FAIL);
    } else if s.id.isServer {
    } else if s.id.idType == Fail {
      FallBackGoes(s, o);
    } else {
      CompleteGoes(s, s1, o.startAuth);
    }
  }

  lemma {:induction false} CompleteGoes(s: Session, s1: Session, result: int)
    requires !s.ctl.machine.Idle? && Goes(s, s1, 0)
    ensures Goes(s, Complete(s1, result), 1) && Ends(Complete(s1, result).log) == Ends(s1.log) + 1
  {
    CompleteStays(s1, result);
    StaysGoes(s1, Complete(s1, result), 1);
    GoesAfter(s, s1, Complete(s1, result), 1);
  }

  lemma {:induction false} FallBackGoes(s: Session, o: Oracle)
    requires !s.ctl.machine.Idle? && s.ctl.curState != SyncDeviceInfo && !s.id.isServer && s.id.idType == Fail
    ensures Goes(s, EnterSyncDeviceId(Emit(MoveTo(s, DeviceAuth).(id := s.id.(idType := Udid)), FellBack), o), 1)
  {
    EnterSyncDeviceIdStays(Emit(MoveTo(s, DeviceAuth).(id := s.id.(idType := Udid)), FellBack), o);
  }

  lemma {:induction false} GoesAfter(s: Session, t: Session, u: Session, n: nat)
    requires !s.ctl.machine.Idle? && Goes(s, t, 0) && Goes(t, u, n)
    ensures Goes(s, u, n)
  {
  }

  lemma {:induction false} SendDeviceIdStays(s: Session, o: Oracle)
    ensures Stays(s, SendDeviceId(s, o), 0)
  {
  }

  lemma {:induction false} SendThenAuthGoes(s: Session, o: Oracle)
    requires !s.ctl.machine.Idle? && s.ctl.curState != SyncDeviceInfo
    requires s.ctl.curState == SyncDeviceId ==> !s.id.isServer
    ensures Goes(s, EnterDeviceAuth(SendDeviceId(s, o), o), 1)
  {
    SendDeviceIdStays(s, o);
    StaysGoes(s, SendDeviceId(s, o), 0);
    EnterDeviceAuthGoes(SendDeviceId(s, o), o);
    GoesAfter(s, SendDeviceId(s, o), EnterDeviceAuth(SendDeviceId(s, o), o), 1);
  }

  lemma {:induction false} PostDeviceIdGoes(s: Session, o: Oracle)
    requires Active(s) && s.ctl.curState != SyncDeviceInfo
    ensures Goes(s, HandlePostDeviceId(s, o), 1)
  {
    CompleteStays(s, AUTH_SYNC_DEVID_FAIL);
    SendThenAuthGoes(s, o);
    SendDeviceIdStays(s, o);
  }

  /** A client's id type moves only from a network id to another value, and stays once it is the udid. */
  lemma {:induction false} ClientIdType(id: Identity, m: DeviceIdMsg, o: Oracle)
    requires !id.isServer && id.idType != NetworkId
    ensures UnpackDeviceId(id, m, o).idType in {id.idType, Udid}
  {
  }

  lemma {:induction false} UnpackGoes(s: Session, m: DeviceIdMsg, o: Oracle)
    requires Active(s)
    ensures Goes(s, s.(id := UnpackDeviceId(s.id, m, o)), 0)
  {
    UnpackKeepsSide(s.id, m, o);
    if !s.id.isServer && s.id.idType != NetworkId {
      ClientIdType(s.id, m, o);
    }
  }

  lemma {:induction false} AnswerDeviceIdGoes(s: Session, o: Oracle)
    requires !s.ctl.machine.Idle? && s.ctl.curState != SyncDeviceInfo
    requires s.ctl.curState == SyncDeviceId ==> !s.id.isServer
    ensures Goes(s, AnswerDeviceId(s, o), 1)
  {
    if !s.id.isServer {
      var released := s.id.normalized == NotSupport || s.id.peerState == Compatible;
      var s1 := s.(log := AddIf(released, s.log, NormalizeSuccess(false)));
      EnterDeviceAuthGoes(s1, o);
      GoesAfter(s, s1, EnterDeviceAuth(s1, o), 1);
    } else {
      CompleteStays(s, AUTH_SYNC_DEVID_FAIL);
      SendThenAuthGoes(s, o);
    }
  }

  lemma {:induction false} RecvDeviceIdGoes(s: Session, m: DeviceIdMsg, o: Oracle)
    requires Active(s) && s.ctl.curState != SyncDeviceInfo
    ensures Goes(s, HandleRecvDeviceId(s, m, o), 1)
  {
    if !o.unpackOk {
      CompleteStays(s, AUTH_SYNC_DEVID_FAIL);
    } else {
      var s1 := s.(id := UnpackDeviceId(s.id, m, o));
      UnpackGoes(s, m, o);
      UnpackKeepsSide(s.id, m, o);
      AnswerDeviceIdGoes(s1, o);
      GoesAfter(s, s1, AnswerDeviceId(s1, o), 1);
    }
  }

  // ----- the double fault -----

  /** The post fails and so does the device-auth entry performed all the same. */
  predicate FaultsTwice(id: Identity, o: Oracle) {
    o.postId != SOFTBUS_OK && (id.normalized == Support || id.fastAuth) && !o.recoveryOk
  }

  /** The branches of HandleMsgRecvDeviceIdNego that enter device-auth whatever became of the post. */
  predicate EntersRegardless(id: Identity) {
    && !(id.isServer && id.udid == "")
    && (id.peerState == Ack || id.peerState == Start || (id.peerState == Compatible && id.isServer))
  }

  predicate DoubleFault(s: Session, m: DeviceIdMsg, o: Oracle) {
    var id := UnpackDeviceId(s.id, m, o);
    o.unpackOk && EntersRegardless(id) && FaultsTwice(id, o)
  }

  lemma {:induction false} PostThenAuthGoes(s: Session, o: Oracle)
    requires !s.ctl.machine.Idle? && s.ctl.curState == Negotiation && s.id.isServer
    ensures Goes(s, PostThenAuth(s, o), if FaultsTwice(s.id, o) then 2 else 1)
    ensures FaultsTwice(s.id, o) ==> Ends(PostThenAuth(s, o).log) == Ends(s.log) + 2
  {
    SendThenAuthGoes(s, o);
    EnterDeviceAuthGoes(s, o);
    CompleteStays(EnterDeviceAuth(s, o), o.postId);
  }

  lemma {:induction false} PostOrFailStays(s: Session, o: Oracle)
    ensures Stays(s, PostOrFail(s, o), 1)
  {
    SendDeviceIdStays(s, o);
    CompleteStays(s, o.postId);
  }

  /** In negotiation the identity is free to change. */
  lemma {:induction false} FreeInNegotiation(s: Session, s1: Session, t: Session, n: nat)
    requires !s.ctl.machine.Idle? && s.ctl.curState == Negotiation
    requires s1.setup == s.setup && s1.ctl == s.ctl
    requires Count(s1.log, BackEdge) == Count(s.log, BackEdge) && Ends(s1.log) == Ends(s.log)
    requires Goes(s1, t, n)
    ensures Goes(s, t, n)
  {
  }

  /** The local states whose branch enters device-auth whatever became of the post. */
  predicate AnswersAtOnce(id: Identity) {
    id.localState == Ack || (id.localState == Compatible && id.isServer)
  }

  lemma {:induction false} ByLocalStateGoes(s: Session, o: Oracle)
    requires !s.ctl.machine.Idle? && s.ctl.curState == Negotiation
    ensures var twice := AnswersAtOnce(s.id) && FaultsTwice(s.id, o);
            && Goes(s, ByLocalState(s, o), if twice then 2 else 1)
            && (twice ==> Ends(ByLocalState(s, o).log) == Ends(s.log) + 2)
  {
    var t := ByLocalState(s, o);
    match s.id.localState
    case Start => EnterSyncDeviceIdStays(AsSide(s, false), o);
    case Ack =>
      PostThenAuthGoes(AsSide(s, true), o);
      FreeInNegotiation(s, AsSide(s, true), t, if FaultsTwice(s.id, o) then 2 else 1);
    case Wait =>
      PostOrFailStays(AsSide(s, true), o);
      FreeInNegotiation(s, AsSide(s, true), t, 1);
    case Compatible =>
      if s.id.isServer {
        PostThenAuthGoes(s, o);
      } else {
        EnterDeviceAuthGoes(s, o);
      }
    case Unknow => PostOrFailStays(s, o);
    case Unset => CompleteStays(s, AUTH_SYNC_DEVID_FAIL);
  }

  lemma {:induction false} FollowLocalStateGoes(s: Session, o: Oracle)
    requires !s.ctl.machine.Idle? && s.ctl.curState == Negotiation
    ensures var twice := AnswersAtOnce(s.id) && FaultsTwice(s.id, o);
            && Goes(s, FollowLocalState(s, o), if twice then 2 else 1)
            && (twice ==> Ends(FollowLocalState(s, o).log) == Ends(s.log) + 2)
  {
    var s1 := s.(log := AddIf(s.id.peerState == Compatible, s.log, NormalizeSuccess(false)));
    ByLocalStateGoes(s1, o);
    FreeInNegotiation(s, s1, ByLocalState(s1, o), if AnswersAtOnce(s.id) && FaultsTwice(s.id, o) then 2 else 1);
  }

  lemma {:induction false} RecvDeviceIdNegoGoes(s: Session, m: DeviceIdMsg, o: Oracle)
    requires Active(s) && s.ctl.curState == Negotiation
    ensures Goes(s, HandleRecvDeviceIdNego(s, m, o), if DoubleFault(s, m, o) then 2 else 1)
    ensures DoubleFault(s, m, o) ==> Ends(HandleRecvDeviceIdNego(s, m, o).log) == Ends(s.log) + 2
  {
    if !o.unpackOk {
      CompleteStays(s, AUTH_SYNC_DEVID_FAIL);
    } else {
      var s1 := s.(id := UnpackDeviceId(s.id, m, o));
      var next := UpdateLocalState(s1, o);
      if next.Some? {
        var s2 := s1.(id := s1.id.(localState := next.value));
        IdentityKeeps(s, s2.id);
        FollowLocalStateGoes(s2, o);
        FreeInNegotiation(s, s2, FollowLocalState(s2, o), if DoubleFault(s, m, o) then 2 else 1);
      }
    }
  }

  // ----- the device-information phase -----

  lemma {:induction false} TryFinishStays(s: Session)
    ensures Stays(s, TryFinish(s), 1)
  {
    CompleteStays(s, SOFTBUS_OK);
  }

  lemma {:induction false} PassAndFinishStays(s: Session)
    ensures Stays(s, PassAndFinish(s), 1)
  {
    TryFinishStays(s.(ctl := s.ctl.(timer := false), log := Add(s.log, Passed)));
  }

  lemma {:induction false} ReplyLinkStays(s: Session, o: Oracle)
    ensures Stays(s, InfoOnReplyLink(s, o), 1)
  {
    var s1 := s.(ex := s.ex.(nodeInfoReceived := true, closeAckReceived := true));
    PassAndFinishStays(s1);
    CompleteStays(s1, AUTH_SYNC_DEVINFO_FAIL);
    PassAndFinishStays(Emit(s1, PostedDeviceInfo(o.localInfo)));
  }

  lemma {:induction false} AckLinkStays(s: Session, o: Oracle)
    ensures Stays(s, InfoOnAckLink(s, o), 1)
  {
    var s1 := s.(ex := s.ex.(nodeInfoReceived := true));
    CompleteStays(s1, AUTH_NOT_SUPPORT_THREE_STATE);
    CompleteStays(s1, AUTH_SEND_FAIL);
    PassAndFinishStays(Emit(s1, PostedCloseAck));
  }

  lemma {:induction false} RecvDeviceInfoStays(s: Session, o: Oracle)
    ensures Stays(s, HandleRecvDeviceInfo(s, o), 1)
  {
    CompleteStays(s, AUTH_UNPACK_DEVINFO_FAIL);
    ReplyLinkStays(s, o);
    AckLinkStays(s, o);
  }

  lemma {:induction false} RecvCloseAckStays(s: Session)
    ensures Stays(s, HandleRecvCloseAck(s), 1)
  {
    var s1 := s.(ex := s.ex.(closeAckReceived := true));
    PassAndFinishStays(s1);
    TryFinishStays(s1);
  }

  lemma {:induction false} RecvAuthDataStays(s: Session, o: Oracle)
    ensures Stays(s, HandleRecvAuthData(s, o), 1)
  {
    CompleteStays(s, o.processData);
  }

  lemma {:induction false} AuthErrorStays(s: Session, reason: int, o: Oracle)
    ensures Stays(s, HandleAuthError(s, reason, o), 1)
  {
    var s1 := Emit(s, HichainError(reason));
    CompleteStays(s1, reason);
    CompleteStays(Enqueue(Emit(s1, NotTrustNotified), Data(DeviceNotTrusted)), reason);
  }

  lemma {:induction false} AuthFinishStays(s: Session)
    ensures Stays(s, HandleAuthFinish(s), 1)
  {
    TryFinishStays(s.(ex := s.ex.(authFinished := true)));
  }

  lemma {:induction false} SaveSessionKeyGoes(s: Session, keyLen: nat, o: Oracle)
    requires Active(s) && s.ctl.curState == DeviceAuth
    ensures Goes(s, HandleSaveSessionKey(s, keyLen, o), 1)
  {
    if keyLen > SESSION_KEY_LENGTH {
    } else if !SyncInfoOk(s, o) {
      CompleteStays(s, AUTH_SYNC_DEVINFO_FAIL);
    } else {
      KeyIsLogged(s, o);
      FlushStays(LogKey(s, o));
    }
  }

  lemma {:induction false} FlushStays(s: Session)
    ensures Stays(s, FlushEarlyInfo(s), 0)
  {
  }

  // ----- one message, one event, a whole run -----

  /** The message ends a live session twice. */
  predicate EndsTwice(s: Session, m: Message, o: Oracle) {
    s.ctl.curState == Negotiation && m.RecvDeviceId? && DoubleFault(s, m.id, o)
  }

  lemma {:induction false} NegotiationGoes(s: Session, m: Message, o: Oracle)
    requires Active(s) && s.ctl.curState == Negotiation
    ensures Goes(s, ProcessNegotiation(s, m, o), if EndsTwice(s, m, o) then 2 else 1)
    ensures EndsTwice(s, m, o) ==> Ends(ProcessNegotiation(s, m, o).log) == Ends(s.log) + 2
  {
    match m
    case RecvDeviceId(id) => RecvDeviceIdNegoGoes(s, id, o);
    case PostDeviceId => PostDeviceIdGoes(s, o);
    case _ => HandleCommonGoes(s, m);
  }

  lemma {:induction false} SyncDeviceIdGoes(s: Session, m: Message, o: Oracle)
    requires Active(s) && s.ctl.curState == SyncDeviceId
    ensures Goes(s, ProcessSyncDeviceId(s, m, o), 1)
  {
    match m
    case RecvDeviceId(id) => RecvDeviceIdGoes(s, id, o);
    case PostDeviceId => PostDeviceIdGoes(s, o);
    case _ => HandleCommonGoes(s, m);
  }

  lemma {:induction false} DeviceAuthGoes(s: Session, m: Message, o: Oracle)
    requires Active(s) && s.ctl.curState == DeviceAuth
    ensures Goes(s, ProcessDeviceAuth(s, m, o), 1)
  {
    match m
    case RecvDeviceId(id) => RecvDeviceIdGoes(s, id, o);
    case RecvAuthData => RecvAuthDataStays(s, o);
    case SaveSessionKey(n) => SaveSessionKeyGoes(s, n, o);
    case AuthError(reason) => AuthErrorStays(s, reason, o);
    case RecvDeviceInfo(data) => assert Stays(s, HandleEarlyInfo(s, data), 0);
    case AuthFinish => AuthFinishStays(s);
    case _ => HandleCommonGoes(s, m);
  }

  lemma {:induction false} SyncDeviceInfoStays(s: Session, m: Message, o: Oracle)
    ensures Stays(s, ProcessSyncDeviceInfo(s, m, o), 1)
  {
    match m
    case RecvDeviceInfo(_) => RecvDeviceInfoStays(s, o);
    case RecvCloseAck => RecvCloseAckStays(s);
    case RecvAuthData => RecvAuthDataStays(s, o);
    case AuthFinish => AuthFinishStays(s);
    case _ => HandleCommonStays(s, m);
  }

  lemma {:induction false} ProcessGoes(s: Session, m: Message, o: Oracle)
    requires Active(s)
    ensures Goes(s, Process(s, s.ctl.curState, m, o), if EndsTwice(s, m, o) then 2 else 1)
    ensures EndsTwice(s, m, o) ==> Ends(Process(s, s.ctl.curState, m, o).log) == Ends(s.log) + 2
  {
    match s.ctl.curState
    case Negotiation => NegotiationGoes(s, m, o);
    case SyncDeviceId => SyncDeviceIdGoes(s, m, o);
    case DeviceAuth => DeviceAuthGoes(s, m, o);
    case SyncDeviceInfo => SyncDeviceInfoStays(s, m, o);
  }

  /** The event is the double fault: a device-id packet reaches a live session in negotiation, the
      answer cannot be posted, and the key recovery of the device-auth entry fails too. */
  predicate IsDoubleFault(s: Session, e: Event) {
    && e.Step? && s.ctl.queue != [] && s.ctl.queue[0].Data?
    && s.ctl.machine == Running(Negotiation) && !s.ctl.isDead
    && EndsTwice(s, s.ctl.queue[0].msg, e.o)
  }

  /** Nothing but the looper's own bookkeeping moves any more. */
  ghost predicate Frozen(s: Session, t: Session) {
    && t.setup == s.setup && t.id == s.id && t.ex == s.ex && t.log == s.log
    && t.ctl.curState == s.ctl.curState && t.ctl.isDead == s.ctl.isDead
    && (t.ctl.machine == s.ctl.machine || !t.ctl.machine.Running?)
  }

  lemma {:induction false} DeadIsFrozen(s: Session, e: Event)
    requires Inv(s) && s.ctl.isDead
    ensures Frozen(s, Next(s, e)) && Progress(s, Next(s, e))
  {
  }

  lemma {:induction false} StartGoes(s: Session, o: Oracle)
    requires Inv(s) && s.ctl.machine.Idle?
    ensures s.ctl.queue != [] && Goes(s, Handle(Popped(s), s.ctl.queue[0], o), 1)
  {
    if s.ctl.queue[0] == CtrlStart(Negotiation) {
      PostQueuedIdStays(MoveTo(Popped(s), Negotiation), o);
    } else {
      EnterSyncDeviceIdStays(Popped(s), o);
    }
  }

  lemma {:induction false} HandleGoes(s: Session, m: LooperMsg, o: Oracle)
    requires Inv(s) && !s.ctl.isDead && !s.ctl.machine.Idle?
    ensures var twice := s.ctl.machine.Running? && m.Data? && EndsTwice(s, m.msg, o);
            && Goes(s, Handle(s, m, o), if twice then 2 else 1)
            && (twice ==> Ends(Handle(s, m, o).log) == Ends(s.log) + 2)
  {
    if m.Data? && s.ctl.machine.Running? {
      ProcessGoes(s, m.msg, o);
    }
  }

  lemma {:induction false} StepGoes(s: Session, o: Oracle)
    requires Inv(s) && !s.ctl.isDead && !s.ctl.machine.Idle? && s.ctl.queue != []
    ensures Goes(s, Next(s, Step(o)), if IsDoubleFault(s, Step(o)) then 2 else 1)
    ensures IsDoubleFault(s, Step(o)) ==> Ends(Next(s, Step(o)).log) == 2
  {
    PoppedKeeps(s);
    HandleGoes(Popped(s), s.ctl.queue[0], o);
    if s.ctl.queue[0].Data? {
      assert EndsTwice(Popped(s), s.ctl.queue[0].msg, o) == EndsTwice(s, s.ctl.queue[0].msg, o);
    }
    FromLooper(s, Popped(s), Next(s, Step(o)), if IsDoubleFault(s, Step(o)) then 2 else 1);
  }

  /** The looper's own bookkeeping is no progress. */
  lemma {:induction false} FromLooper(s: Session, s1: Session, t: Session, n: nat)
    requires s1.setup == s.setup && s1.id == s.id && s1.log == s.log
    requires s1.ctl.curState == s.ctl.curState && s1.ctl.machine == s.ctl.machine
    requires Goes(s1, t, n)
    ensures Goes(s, t, n)
  {
  }

  /** One event: progress always, two endings exactly on the double fault. */
  lemma {:induction false} NextGoes(s: Session, e: Event)
    requires Inv(s) && !s.ctl.isDead
    ensures Goes(s, Next(s, e), if IsDoubleFault(s, e) then 2 else 1)
    ensures IsDoubleFault(s, e) ==> Ends(Next(s, e).log) == 2
  {
    match e
    case Post(m) =>
    case Step(o) =>
      if s.ctl.machine.Idle? {
        StartGoes(s, o);
      } else if s.ctl.queue != [] {
        StepGoes(s, o);
      }
    case Expire(o) =>
      if s.ctl.timer && !s.ctl.machine.Idle? {
        assert Inv(Unarmed(s));
        HandleGoes(Unarmed(s), Data(AuthTimeout), o);
        FromLooper(s, Unarmed(s), Next(s, Expire(o)), 1);
      }
  }
}
