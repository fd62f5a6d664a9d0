/** What a session that has everything it waits for must have done: answered its peer, reported and, once HiChain is
    finished or the link is gone, completed successfully. */
module SessionFinish {
  import opened Common
  import opened SessionFsm
  import opened SessionInvariants

  /** The session has given its peer what it owes for the device information it received. */
  ghost predicate PaidBack(s: Session) {
    if SyncsByReply(s.setup.link) then s.ex.closeAckReceived && (s.id.isServer ==> Has(s.log, SentInfo))
    else Has(s.log, SentAck)
  }

  ghost predicate FinishInv(s: Session) {
    && (Has(s.log, Reported) && (s.ex.authFinished || Has(s.log, LostLink)) ==> Has(s.log, EndedOk))
    && (s.ex.nodeInfoReceived && !s.ctl.isDead ==> PaidBack(s))
    && (Has(s.log, Reported) ==> PaidBack(s))
  }

  /** Nothing that matters here changed, but for ending the session. */
  lemma {:induction false} EndedFinishes(s: Session, t: Session, result: int)
    requires EndedFrom(s, t, result) && FinishInv(s)
    ensures FinishInv(t)
  {
  }

  /** Nothing but an ending, whatever the session had earned. */
  lemma {:induction false} OkFinishes(s: Session)
    requires Has(s.log, Reported) ==> PaidBack(s)
    ensures FinishInv(Complete(s, SOFTBUS_OK)) && Has(Complete(s, SOFTBUS_OK).log, EndedOk)
  {
    CompleteEnds(s, SOFTBUS_OK);
  }

  lemma {:induction false} CancelFinishes(s: Session, result: int)
    requires FinishInv(s)
    ensures FinishInv(Complete(s, result)) && FinishInv(Emit(Complete(s, result), HichainCancelled))
  {
    CompleteEnds(s, result);
    EndedFinishes(s, Complete(s, result), result);
  }

  lemma {:induction false} CommonFinishes(s: Session, m: Message)
    requires Active(s) && FinishInv(s)
    ensures FinishInv(HandleCommon(s, m))
  {
    match m
    case AuthTimeout => CancelFinishes(Emit(s, TimedOut), AUTH_TIMEOUT);
    case DeviceNotTrusted => CancelFinishes(s, AUTH_HICHAIN_NOT_TRUSTED);
    case DeviceDisconnected =>
      LostReport(s);
      DisconnectedFinishes(Emit(s, Disconnected));
    case StopAuthFsm =>
    case _ =>
  }

  lemma {:induction false} DisconnectedFinishes(s: Session)
    requires Has(s.log, Reported) ==> BothFlags(s) && PaidBack(s)
    ensures FinishInv(HandleDisconnected(s))
  {
    if BothFlags(s) {
      OkFinishes(s);
    } else {
      LostFinishes(s);
    }
  }

  lemma {:induction false} LostReport(s: Session)
    requires Has(s.log, Reported) ==> BothFlags(s) && PaidBack(s)
    ensures var s1 := Emit(s, Disconnected); Has(s1.log, Reported) ==> BothFlags(s1) && PaidBack(s1)
  {
  }

  lemma {:induction false} LostFinishes(s: Session)
    requires !Has(s.log, Reported)
    ensures FinishInv(Emit(Complete(s, AUTH_DEVICE_DISCONNECTED), HichainCancelled))
  {
    CompleteEnds(s, AUTH_DEVICE_DISCONNECTED);
  }

  /** With everything there, the session is completed successfully. */
  lemma {:induction false} TryFinishFinishes(s: Session)
    requires Has(s.log, Reported) ==> BothFlags(s)
    requires Has(s.log, Reported) && Has(s.log, LostLink) ==> Has(s.log, EndedOk)
    requires (s.ex.nodeInfoReceived && !s.ctl.isDead) || Has(s.log, Reported) ==> PaidBack(s)
    ensures FinishInv(TryFinish(s))
  {
    if BothFlags(s) && s.ex.authFinished {
      OkFinishes(s);
    }
  }

  lemma {:induction false} AuthFinishFinishes(s: Session)
    requires Active(s) && FinishInv(s)
    ensures FinishInv(HandleAuthFinish(s))
  {
    TryFinishFinishes(s.(ex := s.ex.(authFinished := true)));
  }

  lemma {:induction false} PassFinishes(s: Session)
    requires BothFlags(s) && PaidBack(s) && !Has(s.log, LostLink)
    ensures FinishInv(PassAndFinish(s))
  {
    TryFinishFinishes(s.(ctl := s.ctl.(timer := false), log := Add(s.log, Passed)));
  }

  lemma {:induction false} RecvDeviceInfoFinishes(s: Session, o: Oracle)
    requires Active(s) && FinishInv(s) && s.ctl.curState == SyncDeviceInfo
    ensures FinishInv(HandleRecvDeviceInfo(s, o))
  {
    if !o.parseInfoOk {
      CancelFinishes(s, AUTH_UNPACK_DEVINFO_FAIL);
    } else if SyncsByReply(s.setup.link) {
      ReplyLinkFinishes(s, o);
    } else {
      AckLinkFinishes(s, o);
    }
  }

  lemma {:induction false} FailedFinishes(s: Session, s1: Session, result: int)
    requires Active(s) && FinishInv(s) && s1.log == s.log && s1.ex.authFinished == s.ex.authFinished
    requires s1.setup == s.setup && s1.id == s.id && (s.ex.closeAckReceived ==> s1.ex.closeAckReceived)
    ensures FinishInv(Complete(s1, result))
  {
    CompleteEnds(s1, result);
  }

  lemma {:induction false} ReplyLinkFinishes(s: Session, o: Oracle)
    requires Active(s) && FinishInv(s) && SyncsByReply(s.setup.link)
    ensures FinishInv(InfoOnReplyLink(s, o))
  {
    var s1 := s.(ex := s.ex.(nodeInfoReceived := true, closeAckReceived := true));
    if !s.id.isServer {
      PassFinishes(s1);
    } else if !o.postInfoOk {
      FailedFinishes(s, s1, AUTH_SYNC_DEVINFO_FAIL);
    } else {
      PassFinishes(Emit(s1, PostedDeviceInfo(o.localInfo)));
    }
  }

  lemma {:induction false} AckLinkFinishes(s: Session, o: Oracle)
    requires Active(s) && FinishInv(s) && !SyncsByReply(s.setup.link)
    ensures FinishInv(InfoOnAckLink(s, o))
  {
    var s1 := s.(ex := s.ex.(nodeInfoReceived := true));
    if s.setup.link == Ble && !o.threeState {
      FailedFinishes(s, s1, AUTH_NOT_SUPPORT_THREE_STATE);
    } else if !o.postAckOk {
      FailedFinishes(s, s1, AUTH_SEND_FAIL);
    } else if s.ex.closeAckReceived {
      PassFinishes(Emit(s1, PostedCloseAck));
    }
  }

  lemma {:induction false} RecvCloseAckFinishes(s: Session)
    requires Active(s) && FinishInv(s)
    ensures FinishInv(HandleRecvCloseAck(s))
  {
    var s1 := s.(ex := s.ex.(closeAckReceived := true));
    if s.ex.nodeInfoReceived {
      PassFinishes(s1);
    } else {
      TryFinishFinishes(s1);
    }
  }

  lemma {:induction false} InfoFinishes(s: Session, m: Message, o: Oracle)
    requires Active(s) && FinishInv(s) && s.ctl.curState == SyncDeviceInfo
    ensures FinishInv(ProcessSyncDeviceInfo(s, m, o))
  {
    match m
    case RecvDeviceInfo(_) => RecvDeviceInfoFinishes(s, o);
    case RecvCloseAck => RecvCloseAckFinishes(s);
    case RecvAuthData => CancelFinishes(s, o.processData);
    case AuthFinish => AuthFinishFinishes(s);
    case _ => CommonFinishes(s, m);
  }

  // ----- before sync-device-info -----

  ghost predicate FlagsKept(s: Session, t: Session) {
    t.ex.nodeInfoReceived == s.ex.nodeInfoReceived && t.ex.closeAckReceived == s.ex.closeAckReceived
  }

  lemma {:induction false} CompleteFlags(s: Session, result: int)
    ensures FlagsKept(s, Complete(s, result))
  {
    CompleteEnds(s, result);
  }

  lemma {:induction false} CommonFlags(s: Session, m: Message)
    ensures FlagsKept(s, HandleCommon(s, m))
  {
    CompleteFlags(Emit(s, TimedOut), AUTH_TIMEOUT);
    CompleteFlags(s, AUTH_HICHAIN_NOT_TRUSTED);
    CompleteFlags(Emit(s, Disconnected), SOFTBUS_OK);
    CompleteFlags(Emit(s, Disconnected), AUTH_DEVICE_DISCONNECTED);
  }

  lemma {:induction false} EnterSyncDeviceIdFlags(s: Session, o: Oracle)
    ensures FlagsKept(s, EnterSyncDeviceId(s, o))
  {
    var s1 := MoveTo(s, SyncDeviceId);
    CompleteFlags(s1, AUTH_SYNC_DEVID_FAIL);
    CompleteFlags(Emit(s1, Enqueued), AUTH_SYNC_DEVID_FAIL);
  }

  lemma {:induction false} EnterDeviceAuthFlags(s: Session, o: Oracle)
    ensures FlagsKept(s, EnterDeviceAuth(s, o))
  {
    var s1 := MoveTo(s, DeviceAuth);
    CompleteFlags(s1, AUTH_SYNC_DEVID_FAIL);
    CompleteFlags(s1, o.startAuth);
    EnterSyncDeviceIdFlags(Emit(s1.(id := s1.id.(idType := Udid)), FellBack), o);
  }

  lemma {:induction false} PostDeviceIdFlags(s: Session, o: Oracle)
    ensures FlagsKept(s, HandlePostDeviceId(s, o))
  {
    CompleteFlags(s, AUTH_SYNC_DEVID_FAIL);
    EnterDeviceAuthFlags(SendDeviceId(s, o), o);
  }

  lemma {:induction false} RecvDeviceIdFlags(s: Session, m: DeviceIdMsg, o: Oracle)
    ensures FlagsKept(s, HandleRecvDeviceId(s, m, o))
  {
    var s1 := s.(id := UnpackDeviceId(s.id, m, o));
    CompleteFlags(s, AUTH_SYNC_DEVID_FAIL);
    CompleteFlags(s1, AUTH_SYNC_DEVID_FAIL);
    EnterDeviceAuthFlags(s1, o);
    EnterDeviceAuthFlags(Emit(s1, NormalizeSuccess(false)), o);
    EnterDeviceAuthFlags(SendDeviceId(s1, o), o);
  }

  lemma {:induction false} PostThenAuthFlags(s: Session, o: Oracle)
    ensures FlagsKept(s, PostThenAuth(s, o)) && FlagsKept(s, PostOrFail(s, o))
  {
    EnterDeviceAuthFlags(s, o);
    EnterDeviceAuthFlags(SendDeviceId(s, o), o);
    CompleteFlags(EnterDeviceAuth(s, o), o.postId);
    CompleteFlags(s, o.postId);
  }

  lemma {:induction false} ByLocalStateFlags(s: Session, o: Oracle)
    ensures FlagsKept(s, ByLocalState(s, o))
  {
    match s.id.localState
    case Start => EnterSyncDeviceIdFlags(AsSide(s, false), o);
    case Ack => PostThenAuthFlags(AsSide(s, true), o);
    case Wait => PostThenAuthFlags(AsSide(s, true), o);
    case Compatible =>
      PostThenAuthFlags(s, o);
      EnterDeviceAuthFlags(s, o);
    case Unknow => PostThenAuthFlags(s, o);
    case Unset => CompleteFlags(s, AUTH_SYNC_DEVID_FAIL);
  }

  lemma {:induction false} NegotiationFlags(s: Session, m: DeviceIdMsg, o: Oracle)
    ensures FlagsKept(s, HandleRecvDeviceIdNego(s, m, o))
  {
    CompleteFlags(s, AUTH_SYNC_DEVID_FAIL);
    var s1 := s.(id := UnpackDeviceId(s.id, m, o));
    var next := UpdateLocalState(s1, o);
    if next.Some? {
      var s2 := s1.(id := s1.id.(localState := next.value));
      ByLocalStateFlags(s2.(log := AddIf(s2.id.peerState == Compatible, s2.log, NormalizeSuccess(false))), o);
    }
  }

  lemma {:induction false} TryFinishFlags(s: Session)
    ensures FlagsKept(s, TryFinish(s))
  {
    CompleteFlags(s, SOFTBUS_OK);
  }

  lemma {:induction false} AuthErrorFlags(s: Session, reason: int, o: Oracle)
    ensures FlagsKept(s, HandleAuthError(s, reason, o))
  {
    var s1 := Emit(s, HichainError(reason));
    CompleteFlags(s1, reason);
    CompleteFlags(Enqueue(Emit(s1, NotTrustNotified), Data(DeviceNotTrusted)), reason);
  }

  lemma {:induction false} DeviceAuthFlags(s: Session, m: Message, o: Oracle)
    ensures FlagsKept(s, ProcessDeviceAuth(s, m, o))
  {
    match m
    case RecvDeviceId(id) => RecvDeviceIdFlags(s, id, o);
    case RecvAuthData => CompleteFlags(s, o.processData);
    case SaveSessionKey(_) => CompleteFlags(s, AUTH_SYNC_DEVINFO_FAIL);
    case AuthError(reason) => AuthErrorFlags(s, reason, o);
    case RecvDeviceInfo(_) =>
    case AuthFinish => TryFinishFlags(s.(ex := s.ex.(authFinished := true)));
    case _ => CommonFlags(s, m);
  }

  /** The flags are set in sync-device-info only. */
  lemma {:induction false} EarlierFlags(s: Session, m: Message, o: Oracle)
    requires s.ctl.curState != SyncDeviceInfo
    ensures FlagsKept(s, Process(s, s.ctl.curState, m, o))
  {
    match s.ctl.curState
    case DeviceAuth => DeviceAuthFlags(s, m, o);
    case SyncDeviceId =>
      match m {
        case RecvDeviceId(id) => RecvDeviceIdFlags(s, id, o);
        case PostDeviceId => PostDeviceIdFlags(s, o);
        case _ => CommonFlags(s, m);
      }
    case Negotiation =>
      match m {
        case RecvDeviceId(id) => NegotiationFlags(s, id, o);
        case PostDeviceId => PostDeviceIdFlags(s, o);
        case _ => CommonFlags(s, m);
      }
  }

  // ----- every event -----

  lemma {:induction false} UnflaggedFinishes(s: Session)
    requires Inv(s) && !s.ex.nodeInfoReceived
    ensures FinishInv(s)
  {
  }

  lemma {:induction false} ProcessFinishes(s: Session, m: Message, o: Oracle)
    requires Active(s) && FinishInv(s) && (m.AuthTimeout? ==> !Has(s.log, Reported))
    ensures FinishInv(Process(s, s.ctl.curState, m, o))
  {
    if s.ctl.curState == SyncDeviceInfo {
      InfoFinishes(s, m, o);
    } else {
      ProcessKeeps(s, m, o);
      EarlierFlags(s, m, o);
      UnflaggedFinishes(Process(s, s.ctl.curState, m, o));
    }
  }

  lemma {:induction false} HandleFinishes(s: Session, m: LooperMsg, o: Oracle)
    requires Inv(s) && FinishInv(s) && !s.ctl.machine.Idle? && (m == Data(AuthTimeout) ==> !Has(s.log, Reported))
    ensures FinishInv(Handle(s, m, o))
  {
    if m.Data? && s.ctl.machine.Running? && !s.ctl.isDead {
      ProcessFinishes(s, m.msg, o);
    }
  }

  lemma {:induction false} StartFinishes(s: Session, o: Oracle)
    requires Inv(s) && s.ctl.machine.Idle?
    ensures FinishInv(Next(s, Step(o)))
  {
    StartKeeps(s, o);
    EnterSyncDeviceIdFlags(Popped(s), o);
    CompleteFlags(MoveTo(Popped(s), Negotiation), AUTH_SYNC_DEVID_FAIL);
    UnflaggedFinishes(Next(s, Step(o)));
  }

  lemma {:induction false} NextFinishes(s: Session, e: Event)
    requires Inv(s) && FinishInv(s)
    ensures FinishInv(Next(s, e))
  {
    match e
    case Post(m) =>
    case Step(o) =>
      if s.ctl.machine.Idle? {
        StartFinishes(s, o);
      } else if s.ctl.queue != [] {
        PoppedKeeps(s);
        HandleFinishes(Popped(s), s.ctl.queue[0], o);
      }
    case Expire(o) =>
      if s.ctl.timer && !s.ctl.machine.Idle? {
        HandleFinishes(Unarmed(s), Data(AuthTimeout), o);
      }
  }

  lemma {:induction false} RunFinishes(s: Session, events: seq<Event>)
    requires Inv(s) && FinishInv(s)
    ensures FinishInv(Run(s, events))
    decreases |events|
  {
    if events != [] {
      NextKeeps(s, events[0]);
      NextFinishes(s, events[0]);
      RunFinishes(Next(s, events[0]), events[1..]);
    }
  }
}
