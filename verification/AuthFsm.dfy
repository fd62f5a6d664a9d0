/** The session object of auth_session_fsm.c: handlers that update its fields in place. Every method is
    proved to do what the function of the same name in SessionFsm does to the session's value, so what
    is proved of runs of those functions holds of runs of these methods. */
module AuthFsm {
  import opened Common
  import opened SessionFsm
  import SessionInvariants
  import SessionProgress
  import SessionRuns

  class AuthFsm {
    const link: LinkType
    const isConnectServer: bool
    const hashOrder: int
    // AuthSessionInfo
    var isServer: bool
    var idType: IdType
    var udid: string
    var normalized: NormalizedType
    var fastAuth: bool
    var localState: StartState
    var peerState: StartState
    var nodeInfoReceived: bool
    var closeAckReceived: bool
    var authFinished: bool
    var earlyInfo: Option<Payload>
    // the state machine and its looper
    var curState: Phase
    var isDead: bool
    var machine: Machine
    var queue: seq<LooperMsg>
    var timer: bool
    /** Calls made to the rest of the system. */
    var log: Log

    function View(): Session
      reads this
    {
      Session(Setup(link, isConnectServer, hashOrder),
              Identity(isServer, idType, udid, normalized, fastAuth, localState, peerState),
              Exchange(nodeInfoReceived, closeAckReceived, authFinished, earlyInfo),
              Control(curState, isDead, machine, queue, timer),
              log)
    }

    /** Flags, phase, queue, timer and log fit together. */
    ghost predicate Valid()
      reads this
    {
      SessionInvariants.Inv(View())
    }

    /** AuthSessionStartAuth and CreateAuthFsm. */
    constructor (c: Config)
      ensures View() == SessionFsm.Create(c) && Valid()
    {
      link, isConnectServer, hashOrder := c.setup.link, c.setup.isConnectServer, c.setup.hashOrder;
      isServer := c.setup.isConnectServer;
      if !c.setup.isConnectServer && c.setup.link == Ble && c.useNetworkId {
        idType := NetworkId;
      } else {
        idType := Udid;
      }
      udid, normalized, fastAuth := "", NotSupport, false;
      localState, peerState := FirstLocalState(c), Unset;
      nodeInfoReceived, closeAckReceived, authFinished, earlyInfo := false, false, false, None;
      curState, isDead, machine, timer := Negotiation, false, Idle, true;
      queue := [CtrlStart(FirstPhase(c))];
      log := Nil;
      new;
      SessionInvariants.CreateInv(c);
    }

    method Emit(e: Effect)
      modifies `log
      ensures View() == SessionFsm.Emit(old(View()), e)
    {
      log := Add(log, e);
    }

    method Enqueue(m: LooperMsg)
      modifies `queue
      ensures View() == SessionFsm.Enqueue(old(View()), m)
    {
      queue := queue + [m];
    }

    /** CompleteAuthSession. */
    method Complete(result: int)
      modifies `log, `isDead, `queue, `timer
      ensures View() == SessionFsm.Complete(old(View()), result)
    {
      if result == SOFTBUS_OK {
        CompleteOk();
      } else if result == AUTH_TIMEOUT {
        CompleteFailed(TimeoutCode(View()));
      } else {
        CompleteFailed(result);
      }
    }

    method CompleteOk()
      modifies `log, `isDead, `queue
      ensures View() == SessionFsm.CompleteOk(old(View()))
    {
      if !isServer {
        log := Add(log, NormalizeSuccess(true));
      }
      if isConnectServer && peerState != Compatible {
        log := Add(log, StopSibling);
      }
      log := Add(log, Completed(SOFTBUS_OK));
      Die();
    }

    method CompleteFailed(code: int)
      modifies `log, `isDead, `queue, `timer
      ensures View() == SessionFsm.CompleteFailed(old(View()), code)
    {
      timer := false;
      if !isServer {
        log := Add(log, NormalizeFailed(code));
      }
      log := Add(log, Completed(code));
      Die();
    }

    method Die()
      modifies `isDead, `queue
      ensures View() == old(View()).(ctl := SessionFsm.Die(old(View()).ctl))
    {
      isDead := true;
      Enqueue(CtrlStop);
      Enqueue(CtrlDeinit);
    }

    /** TryFinishAuthSession. */
    method TryFinish()
      modifies `log, `isDead, `queue, `timer
      ensures View() == SessionFsm.TryFinish(old(View()))
    {
      if nodeInfoReceived && closeAckReceived && authFinished {
        Complete(SOFTBUS_OK);
      }
    }

    /** HandleCommonMsg with its four handlers. */
    method HandleCommon(m: Message)
      modifies `log, `isDead, `queue, `timer
      ensures View() == SessionFsm.HandleCommon(old(View()), m)
    {
      match m
      case AuthTimeout =>
        Emit(TimedOut);
        Complete(AUTH_TIMEOUT);
        Emit(HichainCancelled);
      case DeviceNotTrusted =>
        Complete(AUTH_HICHAIN_NOT_TRUSTED);
        Emit(HichainCancelled);
      case DeviceDisconnected =>
        Emit(Disconnected);
        if nodeInfoReceived && closeAckReceived {
          Complete(SOFTBUS_OK);
        } else {
          Complete(AUTH_DEVICE_DISCONNECTED);
          Emit(HichainCancelled);
        }
      case StopAuthFsm =>
        Emit(Stopped);
        Die();
      case _ =>
    }

    // ----- device ids -----

    method SendDeviceId(o: Oracle)
      modifies `log
      ensures View() == SessionFsm.SendDeviceId(old(View()), o)
    {
      Emit(PostedDeviceId(DeviceIdMsg(localState, Some(IdTypeCode(idType)), o.localDeviceId)));
    }

    function Id(): Identity
      reads this
    {
      Identity(isServer, idType, udid, normalized, fastAuth, localState, peerState)
    }

    /** VerifyExchangeIdTypeAndInfo. */
    method VerifyExchangeId(wireType: int, o: Oracle)
      modifies `idType, `udid
      ensures Id() == SessionFsm.VerifyExchangeId(old(Id()), wireType, o)
    {
      if wireType != IdTypeCode(NetworkId) {
        return;
      }
      if o.resolvedUdid.None? {
        idType := Fail;
        udid := "";
        return;
      }
      if o.exchangeUdid {
        idType := Udid;
      } else {
        idType := NetworkId;
      }
      udid := o.resolvedUdid.value;
    }

    /** SetExchangeIdTypeAndValue. */
    method SetExchangeId(wireType: Option<int>, o: Oracle)
      modifies `idType, `udid
      ensures Id() == SessionFsm.SetExchangeId(old(Id()), wireType, o)
    {
      if wireType.None? || wireType.value == IdTypeCode(Udid) {
        idType := Udid;
      } else if isServer {
        VerifyExchangeId(wireType.value, o);
      } else if idType == NetworkId {
        if wireType.value == IdTypeCode(Fail) {
          idType := Fail;
        } else {
          VerifyExchangeId(wireType.value, o);
        }
      }
    }

    /** UnpackDeviceIdJson. */
    method UnpackDeviceId(m: DeviceIdMsg, o: Oracle)
      modifies `idType, `udid, `peerState, `fastAuth, `normalized
      ensures Id() == SessionFsm.UnpackDeviceId(old(Id()), m, o)
    {
      udid := m.deviceId;
      peerState := m.startState;
      SetExchangeId(m.idType, o);
      fastAuth := o.fastAuth;
      normalized := o.normalized;
    }

    // ----- entering states -----

    method MoveTo(p: Phase)
      modifies `curState, `machine
      ensures View() == SessionFsm.MoveTo(old(View()), p)
    {
      curState := p;
      machine := Running(p);
    }

    /** SyncNegotiationEnter. */
    method EnterNegotiation(o: Oracle)
      modifies this
      ensures View() == SessionFsm.EnterNegotiation(old(View()), o)
    {
      MoveTo(Negotiation);
      if !isServer {
        if o.postId == SOFTBUS_OK {
          SendDeviceId(o);
        } else {
          Complete(AUTH_SYNC_DEVID_FAIL);
        }
      }
    }

    /** SyncDevIdStateEnter. */
    method EnterSyncDeviceId(o: Oracle)
      modifies this
      ensures View() == SessionFsm.EnterSyncDeviceId(old(View()), o)
    {
      MoveTo(SyncDeviceId);
      if isServer {
        return;
      }
      if localState == Start {
        if o.queue == First || o.queue == Behind {
          Emit(Enqueued);
        }
        if o.queue == Behind {
          return;
        }
      }
      if o.postId == SOFTBUS_OK {
        SendDeviceId(o);
      } else {
        Complete(AUTH_SYNC_DEVID_FAIL);
      }
    }

    /** DeviceAuthStateEnter. */
    method EnterDeviceAuth(o: Oracle)
      modifies this
      ensures View() == SessionFsm.EnterDeviceAuth(old(View()), o)
    {
      MoveTo(DeviceAuth);
      if normalized == Support || fastAuth {
        if o.recoveryOk {
          Enqueue(Data(SaveSessionKey(o.recoveredKeyLen)));
          Enqueue(Data(AuthFinish));
        } else {
          Complete(AUTH_SYNC_DEVID_FAIL);
        }
      } else if !isServer {
        StartClientAuth(o);
      }
    }

    /** ProcessClientAuthState: a client without a usable id goes back to exchange udids. */
    method StartClientAuth(o: Oracle)
      requires !isServer
      modifies this
      ensures View() == if old(idType) == Fail
                        then SessionFsm.EnterSyncDeviceId(
                               SessionFsm.Emit(old(View()).(id := old(View()).id.(idType := Udid)), FellBack), o)
                        else if o.startAuth == SOFTBUS_OK then SessionFsm.Emit(old(View()), HichainStarted)
                        else SessionFsm.Complete(old(View()), o.startAuth)
    {
      if idType == Fail {
        idType := Udid;
        Emit(FellBack);
        EnterSyncDeviceId(o);
      } else if o.startAuth == SOFTBUS_OK {
        Emit(HichainStarted);
      } else {
        Complete(o.startAuth);
      }
    }

    // ----- handlers -----

    /** HandleMsgPostDeviceId. */
    method HandlePostDeviceId(o: Oracle)
      modifies this
      ensures View() == SessionFsm.HandlePostDeviceId(old(View()), o)
    {
      if o.postId != SOFTBUS_OK {
        Complete(AUTH_SYNC_DEVID_FAIL);
        return;
      }
      SendDeviceId(o);
      if isServer {
        EnterDeviceAuth(o);
      }
    }

    /** HandleMsgRecvDeviceId. */
    method HandleRecvDeviceId(m: DeviceIdMsg, o: Oracle)
      modifies this
      ensures View() == SessionFsm.HandleRecvDeviceId(old(View()), m, o)
    {
      if !o.unpackOk {
        Complete(AUTH_SYNC_DEVID_FAIL);
        return;
      }
      UnpackDeviceId(m, o);
      AnswerDeviceId(o);
    }

    method AnswerDeviceId(o: Oracle)
      modifies this
      ensures View() == SessionFsm.AnswerDeviceId(old(View()), o)
    {
      if isServer {
        if o.postId != SOFTBUS_OK {
          Complete(AUTH_SYNC_DEVID_FAIL);
          return;
        }
        SendDeviceId(o);
      } else if normalized == NotSupport || peerState == Compatible {
        Emit(NormalizeSuccess(false));
      }
      EnterDeviceAuth(o);
    }

    /** HandleMsgRecvDeviceIdNego. */
    method HandleRecvDeviceIdNego(m: DeviceIdMsg, o: Oracle)
      modifies this
      ensures View() == SessionFsm.HandleRecvDeviceIdNego(old(View()), m, o)
    {
      if !o.unpackOk {
        Complete(AUTH_SYNC_DEVID_FAIL);
        return;
      }
      UnpackDeviceId(m, o);
      var next := UpdateLocalState(View(), o);
      if next.Some? {
        localState := next.value;
        FollowLocalState(o);
      }
    }

    method FollowLocalState(o: Oracle)
      modifies this
      ensures View() == SessionFsm.FollowLocalState(old(View()), o)
    {
      if peerState == Compatible {
        Emit(NormalizeSuccess(false));
      }
      ByLocalState(o);
    }

    method ByLocalState(o: Oracle)
      modifies this
      ensures View() == SessionFsm.ByLocalState(old(View()), o)
    {
      match localState
      case Start =>
        isServer := false;
        EnterSyncDeviceId(o);
      case Ack =>
        isServer := true;
        PostThenAuth(o);
      case Wait =>
        isServer := true;
        PostOrFail(o);
      case Compatible =>
        if isServer {
          PostThenAuth(o);
        } else {
          EnterDeviceAuth(o);
        }
      case Unknow => PostOrFail(o);
      case Unset => Complete(AUTH_SYNC_DEVID_FAIL);
    }

    method PostThenAuth(o: Oracle)
      modifies this
      ensures View() == SessionFsm.PostThenAuth(old(View()), o)
    {
      if o.postId == SOFTBUS_OK {
        SendDeviceId(o);
      }
      EnterDeviceAuth(o);
      if o.postId != SOFTBUS_OK {
        Complete(o.postId);
      }
    }

    method PostOrFail(o: Oracle)
      modifies this
      ensures View() == SessionFsm.PostOrFail(old(View()), o)
    {
      if o.postId == SOFTBUS_OK {
        SendDeviceId(o);
      } else {
        Complete(o.postId);
      }
    }

    /** HandleMsgRecvAuthData. */
    method HandleRecvAuthData(o: Oracle)
      modifies this
      ensures View() == SessionFsm.HandleRecvAuthData(old(View()), o)
    {
      if o.processData != SOFTBUS_OK && !authFinished {
        Complete(o.processData);
      }
    }

    /** HandleMsgAuthError. */
    method HandleAuthError(reason: int, o: Oracle)
      modifies this
      ensures View() == SessionFsm.HandleAuthError(old(View()), reason, o)
    {
      Emit(HichainError(reason));
      if reason == HICHAIN_RETURN_NOT_TRUSTED && udid != "" && o.peerOnline {
        Emit(NotTrustNotified);
        Enqueue(Data(DeviceNotTrusted));
      }
      Complete(reason);
    }

    /** HandleMsgRecvDevInfoEarly. */
    method HandleEarlyInfo(data: Payload)
      modifies `earlyInfo, `log
      ensures View() == SessionFsm.HandleEarlyInfo(old(View()), data)
    {
      earlyInfo := None;
      if data != [] {
        earlyInfo := Some(data);
      }
      Emit(EarlyInfo(data));
    }

    /** HandleMsgAuthFinish. */
    method HandleAuthFinish()
      modifies this
      ensures View() == SessionFsm.HandleAuthFinish(old(View()))
    {
      authFinished := true;
      TryFinish();
    }

    /** HandleMsgSaveSessionKey. */
    method HandleSaveSessionKey(keyLen: nat, o: Oracle)
      modifies this
      ensures View() == SessionFsm.HandleSaveSessionKey(old(View()), keyLen, o)
    {
      if keyLen > SESSION_KEY_LENGTH {
        return;
      }
      if !SyncInfoOk(View(), o) {
        Complete(AUTH_SYNC_DEVINFO_FAIL);
        return;
      }
      Emit(KeyHandled);
      if !(SyncsByReply(link) && isServer) {
        Emit(PostedDeviceInfo(o.localInfo));
      }
      FlushEarlyInfo();
      MoveTo(SyncDeviceInfo);
    }

    method FlushEarlyInfo()
      modifies this
      ensures View() == SessionFsm.FlushEarlyInfo(old(View()))
    {
      if earlyInfo.Some? {
        Emit(EarlyRequeued(earlyInfo.value));
        Enqueue(Data(RecvDeviceInfo(earlyInfo.value)));
        earlyInfo := None;
      }
    }

    method PassAndFinish()
      modifies this
      ensures View() == SessionFsm.PassAndFinish(old(View()))
    {
      timer := false;
      Emit(Passed);
      TryFinish();
    }

    /** HandleMsgRecvDeviceInfo. */
    method HandleRecvDeviceInfo(o: Oracle)
      modifies this
      ensures View() == SessionFsm.HandleRecvDeviceInfo(old(View()), o)
    {
      if !o.parseInfoOk {
        Complete(AUTH_UNPACK_DEVINFO_FAIL);
      } else if SyncsByReply(link) {
        InfoOnReplyLink(o);
      } else {
        InfoOnAckLink(o);
      }
    }

    method InfoOnReplyLink(o: Oracle)
      modifies this
      ensures View() == SessionFsm.InfoOnReplyLink(old(View()), o)
    {
      nodeInfoReceived := true;
      closeAckReceived := true;
      if isServer {
        if !o.postInfoOk {
          Complete(AUTH_SYNC_DEVINFO_FAIL);
          return;
        }
        Emit(PostedDeviceInfo(o.localInfo));
      }
      PassAndFinish();
    }

    method InfoOnAckLink(o: Oracle)
      modifies this
      ensures View() == SessionFsm.InfoOnAckLink(old(View()), o)
    {
      nodeInfoReceived := true;
      if link == Ble && !o.threeState {
        Complete(AUTH_NOT_SUPPORT_THREE_STATE);
        return;
      }
      if !o.postAckOk {
        Complete(AUTH_SEND_FAIL);
        return;
      }
      Emit(PostedCloseAck);
      if closeAckReceived {
        PassAndFinish();
      }
    }

    /** HandleMsgRecvCloseAck. */
    method HandleRecvCloseAck()
      modifies this
      ensures View() == SessionFsm.HandleRecvCloseAck(old(View()))
    {
      closeAckReceived := true;
      if nodeInfoReceived {
        PassAndFinish();
      } else {
        TryFinish();
      }
    }

    // ----- dispatch -----

    /** The four StateProcess functions. */
    method Process(p: Phase, m: Message, o: Oracle)
      modifies this
      ensures View() == SessionFsm.Process(old(View()), p, m, o)
    {
      if isDead {
        return;
      }
      match p
      case Negotiation => ProcessNegotiation(m, o);
      case SyncDeviceId => ProcessSyncDeviceId(m, o);
      case DeviceAuth => ProcessDeviceAuth(m, o);
      case SyncDeviceInfo => ProcessSyncDeviceInfo(m, o);
    }

    method ProcessNegotiation(m: Message, o: Oracle)
      modifies this
      ensures View() == SessionFsm.ProcessNegotiation(old(View()), m, o)
    {
      match m
      case RecvDeviceId(id) => HandleRecvDeviceIdNego(id, o);
      case PostDeviceId => HandlePostDeviceId(o);
      case _ => HandleCommon(m);
    }

    method ProcessSyncDeviceId(m: Message, o: Oracle)
      modifies this
      ensures View() == SessionFsm.ProcessSyncDeviceId(old(View()), m, o)
    {
      match m
      case RecvDeviceId(id) => HandleRecvDeviceId(id, o);
      case PostDeviceId => HandlePostDeviceId(o);
      case _ => HandleCommon(m);
    }

    method ProcessDeviceAuth(m: Message, o: Oracle)
      modifies this
      ensures View() == SessionFsm.ProcessDeviceAuth(old(View()), m, o)
    {
      match m
      case RecvDeviceId(id) => HandleRecvDeviceId(id, o);
      case RecvAuthData => HandleRecvAuthData(o);
      case SaveSessionKey(n) => HandleSaveSessionKey(n, o);
      case AuthError(reason) => HandleAuthError(reason, o);
      case RecvDeviceInfo(data) => HandleEarlyInfo(data);
      case AuthFinish => HandleAuthFinish();
      case _ => HandleCommon(m);
    }

    method ProcessSyncDeviceInfo(m: Message, o: Oracle)
      modifies this
      ensures View() == SessionFsm.ProcessSyncDeviceInfo(old(View()), m, o)
    {
      match m
      case RecvDeviceInfo(_) => HandleRecvDeviceInfo(o);
      case RecvCloseAck => HandleRecvCloseAck();
      case RecvAuthData => HandleRecvAuthData(o);
      case AuthFinish => HandleAuthFinish();
      case _ => HandleCommon(m);
    }

    /** FsmStateMsgHandler. */
    method Handle(m: LooperMsg, o: Oracle)
      modifies this
      ensures View() == SessionFsm.Handle(old(View()), m, o)
    {
      match m
      case CtrlStart(p) =>
        if machine.Idle? {
          match p
          case Negotiation => EnterNegotiation(o);
          case SyncDeviceId => EnterSyncDeviceId(o);
          case DeviceAuth => EnterDeviceAuth(o);
          case SyncDeviceInfo => MoveTo(SyncDeviceInfo);
        }
      case CtrlStop =>
        if machine.Running? {
          machine := Halted;
        }
      case CtrlDeinit =>
        machine := Destroyed;
        queue := [];
      case Data(d) =>
        if machine.Running? {
          Process(machine.phase, d, o);
        }
    }

    /** What another thread, the looper or the timer does to the session. */
    method Take(e: Event)
      modifies this
      ensures View() == Next(old(View()), e)
    {
      match e
      case Post(m) =>
        if !isDead && Postable(m) {
          Enqueue(Data(m));
        }
      case Step(o) =>
        if queue != [] {
          var m := queue[0];
          queue := queue[1..];
          Handle(m, o);
        }
      case Expire(o) =>
        if timer {
          timer := false;
          Handle(Data(AuthTimeout), o);
        }
    }

    /** Whatever happens, the session stays valid and its phase does not go back but for the one fallback, and once it
        has ended it does not change. */
    method React(e: Event)
      requires Valid()
      modifies this
      ensures View() == Next(old(View()), e) && Valid()
      ensures SessionProgress.Progress(old(View()), View())
      ensures old(isDead) ==> SessionProgress.Frozen(old(View()), View())
    {
      Reacts(View(), e);
      Take(e);
    }
  }

  lemma {:induction false} Reacts(s: Session, e: Event)
    requires SessionInvariants.Inv(s)
    ensures SessionInvariants.Inv(Next(s, e)) && SessionProgress.Progress(s, Next(s, e))
    ensures s.ctl.isDead ==> SessionProgress.Frozen(s, Next(s, e))
  {
    SessionInvariants.NextKeeps(s, e);
    SessionRuns.NextProgress(s, e);
    if s.ctl.isDead {
      SessionProgress.DeadIsFrozen(s, e);
    }
  }

  /** A session from its creation through whatever happens to it. It has ended once if it is dead and not at all
      otherwise, but twice after the double fault. With a key it is completed successfully exactly when it was reported
      passed and was finished or cut off; a reported session synced device information, has both flags and has
      answered its peer. Once reported, it has neither handled a timeout nor has one pending. */
  method Authenticate(c: Config, events: seq<Event>) returns (fsm: AuthFsm)
    ensures fresh(fsm) && fsm.Valid() && fsm.View() == Run(Create(c), events)
    ensures Ends(fsm.log) == if SessionRuns.Faults(Create(c), events) then 2 else if fsm.isDead then 1 else 0
    ensures Has(fsm.log, KeySaved) ==>
              (Has(fsm.log, EndedOk) <==> Has(fsm.log, Reported) && (fsm.authFinished || Has(fsm.log, LostLink)))
    ensures Has(fsm.log, Reported) ==>
              && fsm.curState == SyncDeviceInfo && Has(fsm.log, KeySaved) && !CannotSyncInfo(fsm.link)
              && fsm.nodeInfoReceived && fsm.closeAckReceived && Has(fsm.log, SentInfo)
              && (SyncsByReply(fsm.link) || Has(fsm.log, SentAck))
    ensures Has(fsm.log, EndedOk) && !Has(fsm.log, KeySaved) <==> Has(fsm.log, ErrorZero)
    ensures fsm.nodeInfoReceived && fsm.closeAckReceived && !fsm.isDead ==> Has(fsm.log, Reported) && !fsm.timer
    ensures !TimedOutAfterPass(fsm.log) && Data(AuthTimeout) !in fsm.queue && !Has(fsm.log, EndedRawTimeout)
  {
    fsm := new AuthFsm(c);
    var i := 0;
    while i < |events|
      invariant 0 <= i <= |events|
      invariant fresh(fsm) && fsm.Valid() && fsm.View() == Run(Create(c), events[..i])
    {
      RunSnoc(Create(c), events, i);
      fsm.React(events[i]);
      i := i + 1;
    }
    assert events[..i] == events;
    SessionRuns.EndsOnce(c, events);
    SessionRuns.OkIsEarned(c, events);
    SessionRuns.OkWithoutKey(c, events);
    SessionRuns.NoTimeoutAfterPass(c, events);
  }

  lemma {:induction false} RunSnoc(s: Session, events: seq<Event>, i: nat)
    requires i < |events|
    ensures Run(s, events[..i + 1]) == Next(Run(s, events[..i]), events[i])
  {
    assert events[..i + 1] == events[..i] + [events[i]];
    SessionRuns.RunConcat(s, events[..i], [events[i]]);
    assert [events[i]][1..] == [];
  }
}
