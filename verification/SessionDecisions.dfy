/** What a session decides on a device-id packet in negotiation, and what it tells whom when it is completed. */
module SessionDecisions {
  import opened Common
  import opened SessionFsm
  import opened SessionInvariants

  // ----- negotiation -----

  /** The packet names a device this side can tell by its udid. */
  predicate Named(s: Session, m: DeviceIdMsg, o: Oracle) {
    if s.id.isServer && m.idType == Some(1) then o.resolvedUdid.Some? && o.resolvedUdid.value != ""
    else m.deviceId != ""
  }

  /** The start state the two sides' agreement asks for: an accepting side that cannot name its peer does not know; a
      peer without negotiation is followed; who has started is acknowledged; of two that have not, the one with the
      smaller hash waits and the other starts, as soon as the hashes are known. None: the look-up failed. */
  function Asked(s: Session, m: DeviceIdMsg, o: Oracle): Option<StartState> {
    if s.id.isServer && !Named(s, m, o) then Some(Unknow)
    else if m.startState == Compatible then Some(Compatible)
    else if m.startState in {Start, Ack} then Some(Ack)
    else if o.lookup == LookupFailed then None
    else if o.lookup == HashUnknown then Some(Unknow)
    else if s.setup.hashOrder < 0 then Some(Wait)
    else Some(Start)
  }

  /** How many device ids were posted between s and t. */
  function Said(s: Session, t: Session, st: StartState): int {
    Count(t.log, SentId(st)) - Count(s.log, SentId(st))
  }

  /** What a side does that has come to a start state: who does not know or waits stays and answers in kind; who
      acknowledges answers and goes to device-auth as the server; who starts goes to the id exchange as the client and
      says so when it is its turn. A post that fails ends the session. */
  ghost predicate Follows(s: Session, st: StartState, o: Oracle, t: Session) {
    && t.id.localState == st
    && (st in {Unknow, Wait, Ack} ==> Said(s, t, st) == if o.postId == SOFTBUS_OK then 1 else 0)
    && (st in {Unknow, Wait} ==> t.ctl.curState == Negotiation && (t.ctl.isDead <==> o.postId != SOFTBUS_OK))
    && (st in {Wait, Ack} ==> t.id.isServer) && (st in {Unknow, Compatible} ==> t.id.isServer == s.id.isServer)
    && (st == Ack ==> t.ctl.curState == DeviceAuth && (o.postId != SOFTBUS_OK ==> t.ctl.isDead))
    && (st == Start ==>
          && !t.id.isServer && t.ctl.curState == SyncDeviceId
          && Said(s, t, st) == (if o.queue != Behind && o.postId == SOFTBUS_OK then 1 else 0)
          && (t.ctl.isDead <==> o.queue != Behind && o.postId != SOFTBUS_OK))
    && (st == Compatible && s.id.isServer ==>
          t.ctl.curState == DeviceAuth && Said(s, t, st) == if o.postId == SOFTBUS_OK then 1 else 0)
  }

  lemma {:induction false} ServerAuths(s: Session, o: Oracle)
    requires s.id.isServer
    ensures var t := EnterDeviceAuth(s, o);
            && t.id == s.id && t.ctl.curState == DeviceAuth
            && forall st :: Count(t.log, SentId(st)) == Count(s.log, SentId(st))
  {
    CompleteEnds(MoveTo(s, DeviceAuth), AUTH_SYNC_DEVID_FAIL);
  }

  lemma {:induction false} ServerPosts(s: Session, o: Oracle)
    requires s.id.isServer && !s.ctl.isDead
    ensures var t := PostThenAuth(s, o);
            && t.id == s.id && t.ctl.curState == DeviceAuth && (o.postId != SOFTBUS_OK ==> t.ctl.isDead)
            && Said(s, t, s.id.localState) == if o.postId == SOFTBUS_OK then 1 else 0
  {
    ServerAuths(s, o);
    ServerAuths(SendDeviceId(s, o), o);
    CompleteEnds(EnterDeviceAuth(s, o), o.postId);
  }

  lemma {:induction false} StarterEnters(s: Session, o: Oracle)
    requires !s.id.isServer && s.id.localState == Start && !s.ctl.isDead
    ensures var t := EnterSyncDeviceId(s, o);
            && t.id == s.id && t.ctl.curState == SyncDeviceId
            && Said(s, t, Start) == (if o.queue != Behind && o.postId == SOFTBUS_OK then 1 else 0)
            && (t.ctl.isDead <==> o.queue != Behind && o.postId != SOFTBUS_OK)
  {
    var s1 := MoveTo(s, SyncDeviceId);
    CompleteEnds(s1, AUTH_SYNC_DEVID_FAIL);
    CompleteEnds(Emit(s1, Enqueued), AUTH_SYNC_DEVID_FAIL);
  }

  lemma {:induction false} ClientAuths(s: Session, o: Oracle)
    ensures EnterDeviceAuth(s, o).id.localState == s.id.localState && EnterDeviceAuth(s, o).id.isServer == s.id.isServer
  {
    var s1 := MoveTo(s, DeviceAuth);
    CompleteEnds(s1, AUTH_SYNC_DEVID_FAIL);
    CompleteEnds(s1, o.startAuth);
    var s2 := MoveTo(Emit(s1.(id := s1.id.(idType := Udid)), FellBack), SyncDeviceId);
    CompleteEnds(s2, AUTH_SYNC_DEVID_FAIL);
    CompleteEnds(Emit(s2, Enqueued), AUTH_SYNC_DEVID_FAIL);
  }

  lemma {:induction false} LocalStateFollows(s: Session, o: Oracle)
    requires s.ctl.curState == Negotiation && !s.ctl.isDead && s.id.localState != Unset
    ensures Follows(s, s.id.localState, o, ByLocalState(s, o))
  {
    match s.id.localState
    case Start => StarterEnters(AsSide(s, false), o);
    case Ack => ServerPosts(AsSide(s, true), o);
    case Wait => CompleteEnds(AsSide(s, true), o.postId);
    case Compatible =>
      ClientAuths(s, o);
      if s.id.isServer {
        ServerPosts(s, o);
      }
    case Unknow => CompleteEnds(s, o.postId);
  }

  /** The start state an accepted packet leads to is the one the agreement asks for. */
  lemma {:induction false} StateIsAsked(s: Session, m: DeviceIdMsg, o: Oracle)
    ensures UpdateLocalState(s.(id := UnpackDeviceId(s.id, m, o)), o) == Asked(s, m, o)
  {
  }

  /** A device-id packet in negotiation: the session comes to the start state the agreement asks for and acts on it; a
      look-up that fails leaves it as it was, a packet it cannot read ends it. */
  lemma {:induction false} NegotiationDecides(s: Session, m: DeviceIdMsg, o: Oracle)
    requires s.ctl.curState == Negotiation && !s.ctl.isDead
    ensures var t := HandleRecvDeviceIdNego(s, m, o);
            if !o.unpackOk then t.ctl.isDead && t.id == s.id && Ends(t.log) == Ends(s.log) + 1
            else if Asked(s, m, o).None? then t.ctl == s.ctl && t.log == s.log && t.id.localState == s.id.localState
            else Follows(s, Asked(s, m, o).value, o, t)
  {
    if !o.unpackOk {
      CompleteEnds(s, AUTH_SYNC_DEVID_FAIL);
    } else {
      StateIsAsked(s, m, o);
      UnpackKeepsSide(s.id, m, o);
      if Asked(s, m, o).Some? {
        var s1 := s.(id := UnpackDeviceId(s.id, m, o).(localState := Asked(s, m, o).value));
        var s2 := s1.(log := AddIf(s1.id.peerState == Compatible, s1.log, NormalizeSuccess(false)));
        LocalStateFollows(s2, o);
        assert forall st :: Count(s2.log, SentId(st)) == Count(s.log, SentId(st));
      }
    }
  }

  // ----- the id exchange -----

  /** What a client exchanges ids by after a packet: udids once either side names one; a network id the peer, or the
      local ledger, could not resolve is of no use. */
  function ExchangedId(s: Session, m: DeviceIdMsg, o: Oracle): IdType {
    if m.idType == None || m.idType == Some(0) then Udid
    else if s.id.idType != NetworkId then s.id.idType
    else if m.idType == Some(2) || (m.idType == Some(1) && o.resolvedUdid.None?) then Fail
    else if m.idType == Some(1) && o.exchangeUdid then Udid
    else NetworkId
  }

  lemma {:induction false} UnpackExchanges(s: Session, m: DeviceIdMsg, o: Oracle)
    requires !s.id.isServer
    ensures var id := UnpackDeviceId(s.id, m, o);
            && id.idType == ExchangedId(s, m, o) && id.normalized == o.normalized && id.fastAuth == o.fastAuth
            && !id.isServer && id.peerState == m.startState && id.localState == s.id.localState
  {
  }

  /** Device-auth as a client enters it. */
  ghost predicate ClientEnters(s: Session, o: Oracle, t: Session) {
    if s.id.normalized == Support || s.id.fastAuth then
      // the key is recovered, or the session ends
      && t.ctl.curState == DeviceAuth
      && if o.recoveryOk then
           t.ctl.queue == s.ctl.queue + [Data(SaveSessionKey(o.recoveredKeyLen)), Data(AuthFinish)] && t.log == s.log
         else t.ctl.isDead && LastCode(t.log) == Some(AUTH_SYNC_DEVID_FAIL)
    else if s.id.idType == Fail then
      // once more with udids
      && t.ctl.curState == SyncDeviceId && t.id == s.id.(idType := Udid)
      && Count(t.log, BackEdge) == Count(s.log, BackEdge) + 1
    else
      && t.ctl.curState == DeviceAuth && t.id == s.id
      && if o.startAuth == SOFTBUS_OK then t.log == Snoc(s.log, HichainStarted) && t.ctl.queue == s.ctl.queue
         else t.ctl.isDead && LastCode(t.log) == Some(Refined(MoveTo(s, DeviceAuth), o.startAuth))
  }

  lemma {:induction false} ClientRecovers(s: Session, o: Oracle)
    requires s.id.normalized == Support || s.id.fastAuth
    ensures ClientEnters(s, o, EnterDeviceAuth(s, o))
  {
    CompletionTells(MoveTo(s, DeviceAuth), AUTH_SYNC_DEVID_FAIL);
    CompleteEnds(MoveTo(s, DeviceAuth), AUTH_SYNC_DEVID_FAIL);
    assert s.ctl.queue + [Data(SaveSessionKey(o.recoveredKeyLen))] + [Data(AuthFinish)]
        == s.ctl.queue + [Data(SaveSessionKey(o.recoveredKeyLen)), Data(AuthFinish)];
  }

  lemma {:induction false} ClientGoesBack(s: Session, o: Oracle)
    requires !s.id.isServer && s.id.normalized != Support && !s.id.fastAuth && s.id.idType == Fail
    ensures ClientEnters(s, o, EnterDeviceAuth(s, o))
  {
    var s1 := MoveTo(s, DeviceAuth);
    var s2 := MoveTo(Emit(s1.(id := s1.id.(idType := Udid)), FellBack), SyncDeviceId);
    CompleteEnds(s2, AUTH_SYNC_DEVID_FAIL);
    CompleteEnds(Emit(s2, Enqueued), AUTH_SYNC_DEVID_FAIL);
  }

  lemma {:induction false} ClientAsksHichain(s: Session, o: Oracle)
    requires !s.id.isServer && s.id.normalized != Support && !s.id.fastAuth && s.id.idType != Fail
    ensures ClientEnters(s, o, EnterDeviceAuth(s, o))
  {
    CompletionTells(MoveTo(s, DeviceAuth), o.startAuth);
    CompleteEnds(MoveTo(s, DeviceAuth), o.startAuth);
  }

  lemma {:induction false} ClientEntersAuth(s: Session, o: Oracle)
    requires !s.id.isServer
    ensures ClientEnters(s, o, EnterDeviceAuth(s, o))
  {
    if s.id.normalized == Support || s.id.fastAuth {
      ClientRecovers(s, o);
    } else if s.id.idType == Fail {
      ClientGoesBack(s, o);
    } else {
      ClientAsksHichain(s, o);
    }
  }

  /** The answer to a client's device id: one it cannot read ends it; otherwise it enters device-auth with what the
      packet said, and gives up its turn exactly when the peer has no normalised key or does not negotiate. */
  lemma {:induction false} ExchangeDecides(s: Session, m: DeviceIdMsg, o: Oracle)
    requires !s.id.isServer && !s.ctl.isDead
    ensures var t := HandleRecvDeviceId(s, m, o);
            if !o.unpackOk then t.ctl.isDead && LastCode(t.log) == Some(AUTH_SYNC_DEVID_FAIL)
            else
              var heard := s.(id := UnpackDeviceId(s.id, m, o));
              var gives := o.normalized == NotSupport || m.startState == Compatible;
              && heard.id.idType == ExchangedId(s, m, o) && heard.id.normalized == o.normalized
              && heard.id.fastAuth == o.fastAuth && heard.id.peerState == m.startState
              && ClientEnters(if gives then Emit(heard, NormalizeSuccess(false)) else heard, o, t)
  {
    CompletionTells(s, AUTH_SYNC_DEVID_FAIL);
    UnpackExchanges(s, m, o);
    var heard := s.(id := UnpackDeviceId(s.id, m, o));
    ClientEntersAuth(heard, o);
    ClientEntersAuth(Emit(heard, NormalizeSuccess(false)), o);
  }

  // ----- completing -----

  /** The code of the newest completion. */
  function LastCode(log: Log): Option<int> {
    match log
    case Nil => None
    case Snoc(before, e) => if e.Completed? then Some(e.code) else LastCode(before)
  }

  /** The code a session is completed with: a timeout is told apart by the phase it struck in. */
  function Refined(s: Session, result: int): int {
    if result != AUTH_TIMEOUT then result
    else if s.ctl.curState in {Negotiation, SyncDeviceId} then AUTH_SYNC_DEVICEID_TIMEOUT
    else if s.ctl.curState == SyncDeviceInfo then AUTH_SYNC_DEVICEINFO_TIMEOUT
    else if s.id.normalized != Support && !s.id.fastAuth then AUTH_HICHAIN_TIMEOUT
    else AUTH_SAVE_SESSIONKEY_TIMEOUT
  }

  /** Whom a completion tells: a client its turn-taking queue, success or failure with the code; the accepting side, on
      success and unless the peer does not negotiate, its sibling session; and always the manager, last. */
  lemma {:induction false} CompletionTells(s: Session, result: int)
    ensures var t, code := Complete(s, result), Refined(s, result);
            var sibling := code == SOFTBUS_OK && s.setup.isConnectServer && s.id.peerState != Compatible;
            && t.log.Snoc? && t.log.last == Completed(code) && LastCode(t.log) == Some(code) && t.ctl.isDead
            && var told := t.log.before;
               && (sibling ==> told.Snoc? && told.last == StopSibling)
               && var queue := if sibling then told.before else told;
                  if s.id.isServer then queue == s.log
                  else && queue.Snoc? && queue.before == s.log
                       && queue.last == if code == SOFTBUS_OK then NormalizeSuccess(true) else NormalizeFailed(code)
  {
  }

  // ----- what ends a session -----

  /** The code a message ends a session with that is past the id exchange; None: it goes on. */
  function Ending(s: Session, m: Message, o: Oracle): Option<int> {
    match m
    case AuthTimeout => Some(Refined(s, AUTH_TIMEOUT))
    case DeviceNotTrusted => Some(AUTH_HICHAIN_NOT_TRUSTED)
    case DeviceDisconnected =>
      Some(if s.ex.nodeInfoReceived && s.ex.closeAckReceived then SOFTBUS_OK else AUTH_DEVICE_DISCONNECTED)
    case RecvAuthData =>
      if o.processData != SOFTBUS_OK && !s.ex.authFinished then Some(Refined(s, o.processData)) else None
    case AuthError(reason) => if s.ctl.curState == DeviceAuth then Some(Refined(s, reason)) else None
    case SaveSessionKey(n) =>
      if s.ctl.curState == DeviceAuth && n <= SESSION_KEY_LENGTH && (CannotSyncInfo(s.setup.link) || PostsInVain(s, o))
      then Some(AUTH_SYNC_DEVINFO_FAIL) else None
    case AuthFinish => if s.ex.nodeInfoReceived && s.ex.closeAckReceived then Some(SOFTBUS_OK) else None
    case RecvCloseAck =>
      if s.ctl.curState == SyncDeviceInfo && s.ex.nodeInfoReceived && s.ex.authFinished then Some(SOFTBUS_OK) else None
    case RecvDeviceInfo(_) => if s.ctl.curState == SyncDeviceInfo then InfoEnding(s, o) else None
    case _ => None
  }

  /** The session sends its information with the key, and cannot. */
  predicate PostsInVain(s: Session, o: Oracle) {
    !(SyncsByReply(s.setup.link) && s.id.isServer) && !o.postInfoOk
  }

  function InfoEnding(s: Session, o: Oracle): Option<int> {
    if !o.parseInfoOk then Some(AUTH_UNPACK_DEVINFO_FAIL)
    else if SyncsByReply(s.setup.link) then
      if s.id.isServer && !o.postInfoOk then Some(AUTH_SYNC_DEVINFO_FAIL)
      else if s.ex.authFinished then Some(SOFTBUS_OK) else None
    else if s.setup.link == Ble && !o.threeState then Some(AUTH_NOT_SUPPORT_THREE_STATE)
    else if !o.postAckOk then Some(AUTH_SEND_FAIL)
    else if s.ex.closeAckReceived && s.ex.authFinished then Some(SOFTBUS_OK)
    else None
  }

  /** The session is over with this code, or lives on. */
  ghost predicate Over(t: Session, code: Option<int>) {
    (t.ctl.isDead <==> code.Some?) && (code.Some? ==> LastCode(t.log) == code)
  }

  lemma {:induction false} CompleteOver(s: Session, result: int)
    ensures Over(Complete(s, result), Some(Refined(s, result)))
    ensures Over(Emit(Complete(s, result), HichainCancelled), Some(Refined(s, result)))
  {
    CompletionTells(s, result);
  }

  lemma {:induction false} CommonOver(s: Session, m: Message, o: Oracle)
    requires !s.ctl.isDead && (m.AuthTimeout? || m.DeviceNotTrusted? || m.DeviceDisconnected?)
    ensures Over(HandleCommon(s, m), Ending(s, m, o))
  {
    CompleteOver(Emit(s, TimedOut), AUTH_TIMEOUT);
    CompleteOver(s, AUTH_HICHAIN_NOT_TRUSTED);
    CompleteOver(Emit(s, Disconnected), SOFTBUS_OK);
    CompleteOver(Emit(s, Disconnected), AUTH_DEVICE_DISCONNECTED);
  }

  lemma {:induction false} FinishOver(s: Session)
    requires !s.ctl.isDead
    ensures Over(TryFinish(s), if BothFlags(s) && s.ex.authFinished then Some(SOFTBUS_OK) else None)
  {
    CompleteOver(s, SOFTBUS_OK);
  }

  lemma {:induction false} PassOver(s: Session)
    requires !s.ctl.isDead
    ensures Over(PassAndFinish(s), if BothFlags(s) && s.ex.authFinished then Some(SOFTBUS_OK) else None)
  {
    FinishOver(s.(ctl := s.ctl.(timer := false), log := Add(s.log, Passed)));
  }

  lemma {:induction false} InfoOver(s: Session, o: Oracle)
    requires !s.ctl.isDead
    ensures Over(HandleRecvDeviceInfo(s, o), InfoEnding(s, o))
  {
    CompleteOver(s, AUTH_UNPACK_DEVINFO_FAIL);
    if SyncsByReply(s.setup.link) {
      var s1 := s.(ex := s.ex.(nodeInfoReceived := true, closeAckReceived := true));
      PassOver(s1);
      CompleteOver(s1, AUTH_SYNC_DEVINFO_FAIL);
      PassOver(Emit(s1, PostedDeviceInfo(o.localInfo)));
    } else {
      var s1 := s.(ex := s.ex.(nodeInfoReceived := true));
      CompleteOver(s1, AUTH_NOT_SUPPORT_THREE_STATE);
      CompleteOver(s1, AUTH_SEND_FAIL);
      PassOver(Emit(s1, PostedCloseAck));
    }
  }

  lemma {:induction false} AuthErrorOver(s: Session, reason: int, o: Oracle)
    ensures Over(HandleAuthError(s, reason, o), Some(Refined(s, reason)))
  {
    var s1 := Emit(s, HichainError(reason));
    CompleteOver(s1, reason);
    CompleteOver(Enqueue(Emit(s1, NotTrustNotified), Data(DeviceNotTrusted)), reason);
  }

  lemma {:induction false} KeyOver(s: Session, n: nat, o: Oracle)
    requires !s.ctl.isDead && s.ctl.curState == DeviceAuth
    ensures Over(HandleSaveSessionKey(s, n, o), Ending(s, SaveSessionKey(n), o))
    ensures Ending(s, SaveSessionKey(n), o).None? && n <= SESSION_KEY_LENGTH ==>
              HandleSaveSessionKey(s, n, o).ctl.curState == SyncDeviceInfo
  {
    CompleteOver(s, AUTH_SYNC_DEVINFO_FAIL);
  }

  lemma {:induction false} AuthEnds(s: Session, m: Message, o: Oracle)
    requires !s.ctl.isDead && s.ctl.curState == DeviceAuth && !m.StopAuthFsm? && !m.RecvDeviceId?
    ensures Over(ProcessDeviceAuth(s, m, o), Ending(s, m, o))
  {
    match m
    case AuthTimeout => CommonOver(s, m, o);
    case DeviceNotTrusted => CommonOver(s, m, o);
    case DeviceDisconnected => CommonOver(s, m, o);
    case RecvAuthData => CompleteOver(s, o.processData);
    case AuthError(reason) => AuthErrorOver(s, reason, o);
    case SaveSessionKey(n) => KeyOver(s, n, o);
    case AuthFinish => FinishOver(s.(ex := s.ex.(authFinished := true)));
    case _ =>
  }

  lemma {:induction false} InfoEnds(s: Session, m: Message, o: Oracle)
    requires !s.ctl.isDead && s.ctl.curState == SyncDeviceInfo && !m.StopAuthFsm?
    ensures Over(ProcessSyncDeviceInfo(s, m, o), Ending(s, m, o))
  {
    match m
    case AuthTimeout => CommonOver(s, m, o);
    case DeviceNotTrusted => CommonOver(s, m, o);
    case DeviceDisconnected => CommonOver(s, m, o);
    case RecvAuthData => CompleteOver(s, o.processData);
    case AuthFinish => FinishOver(s.(ex := s.ex.(authFinished := true)));
    case RecvCloseAck => AckOver(s);
    case RecvDeviceInfo(_) => InfoOver(s, o);
    case _ =>
  }

  lemma {:induction false} AckOver(s: Session)
    requires !s.ctl.isDead
    ensures Over(HandleRecvCloseAck(s), if s.ex.nodeInfoReceived && s.ex.authFinished then Some(SOFTBUS_OK) else None)
  {
    PassOver(s.(ex := s.ex.(closeAckReceived := true)));
    FinishOver(s.(ex := s.ex.(closeAckReceived := true)));
  }

  /** Past the id exchange every message ends a session exactly when the table says so, with the code it says; another
      device id in device-auth and a stop are not in the table. */
  lemma {:induction false} EndsExactly(s: Session, m: Message, o: Oracle)
    requires !s.ctl.isDead && s.ctl.curState in {DeviceAuth, SyncDeviceInfo}
    requires !m.StopAuthFsm? && (m.RecvDeviceId? ==> s.ctl.curState == SyncDeviceInfo)
    ensures Over(Process(s, s.ctl.curState, m, o), Ending(s, m, o))
  {
    if s.ctl.curState == DeviceAuth {
      AuthEnds(s, m, o);
    } else {
      InfoEnds(s, m, o);
    }
  }

  /** The common messages, in every phase; a stop ends the session without completing it. */
  lemma {:induction false} CommonEnds(s: Session, m: Message, o: Oracle)
    requires !s.ctl.isDead
    ensures m.AuthTimeout? || m.DeviceNotTrusted? || m.DeviceDisconnected? ==>
              Over(Process(s, s.ctl.curState, m, o), Ending(s, m, o))
    ensures m.StopAuthFsm? ==>
              var t := Process(s, s.ctl.curState, m, o); t.ctl.isDead && t.log == Snoc(s.log, Stopped) && t.id == s.id
  {
    if m.AuthTimeout? || m.DeviceNotTrusted? || m.DeviceDisconnected? {
      CommonOver(s, m, o);
    }
  }

  /** The delayed timeout, when it is due, ends a live session with the code of its phase, and cancels HiChain; it is
      due once. */
  lemma {:induction false} ExpireEnds(s: Session, o: Oracle)
    requires Active(s) && s.ctl.timer
    ensures var t := Next(s, Expire(o));
            && Over(t, Some(Refined(s, AUTH_TIMEOUT))) && !t.ctl.timer
            && t.log.Snoc? && t.log.last == HichainCancelled
  {
    CommonEnds(Unarmed(s), AuthTimeout, o);
    CompleteEnds(Emit(Unarmed(s), TimedOut), AUTH_TIMEOUT);
  }

  /** So do a lost trust relation and, before both flags are set, a lost link. */
  lemma {:induction false} HichainIsCancelled(s: Session, m: Message)
    requires m.AuthTimeout? || m.DeviceNotTrusted? || (m.DeviceDisconnected? && !BothFlags(s))
    ensures HandleCommon(s, m).log.Snoc? && HandleCommon(s, m).log.last == HichainCancelled
  {
  }

  /** A HiChain error that says the peer is not trusted any more is announced to every session with that peer, this one
      included, if the peer is known and online; the session ends with the error in any case. */
  lemma {:induction false} NotTrustedAnnounced(s: Session, reason: int, o: Oracle)
    ensures var t := HandleAuthError(s, reason, o);
            var announced := reason == HICHAIN_RETURN_NOT_TRUSTED && s.id.udid != "" && o.peerOnline;
            && Over(t, Some(Refined(s, reason)))
            && t.ctl.queue
               == s.ctl.queue + (if announced then [Data(DeviceNotTrusted)] else []) + [CtrlStop, CtrlDeinit]
  {
    AuthErrorOver(s, reason, o);
    var s1 := Emit(s, HichainError(reason));
    CompleteEnds(s1, reason);
    CompleteEnds(Enqueue(Emit(s1, NotTrustNotified), Data(DeviceNotTrusted)), reason);
  }

  /** What ends the machine: a stop halts it, a deinit empties its queue for good. */
  lemma {:induction false} MachineEnds(s: Session, o: Oracle)
    ensures s.ctl.machine.Running? ==> Handle(s, CtrlStop, o).ctl == s.ctl.(machine := Halted)
    ensures var t := Handle(s, CtrlDeinit, o); t.ctl.machine == Destroyed && t.ctl.queue == [] && t.log == s.log
    ensures !s.ctl.machine.Running? ==> forall m :: Handle(s, Data(m), o) == s
  {
  }

  /** A woken client sends its device id, once, or ends. */
  lemma {:induction false} WokenSends(s: Session, o: Oracle)
    requires !s.ctl.isDead && !s.id.isServer
    ensures var t := HandlePostDeviceId(s, o);
            && t.id == s.id && t.ctl.curState == s.ctl.curState && (t.ctl.isDead <==> o.postId != SOFTBUS_OK)
            && Said(s, t, s.id.localState) == if o.postId == SOFTBUS_OK then 1 else 0
  {
    CompleteEnds(s, AUTH_SYNC_DEVID_FAIL);
  }

  // ----- the beginning -----

  /** How a session begins: an accepting side knows nothing and negotiates, as the server. An opening side is the
      client; it goes straight to the id exchange if the peer does not negotiate, or if it knows the hashes and has not
      the smaller; else it negotiates, waiting if it has, not knowing if it does not know. Only an opening side on BLE
      exchanges network ids. */
  lemma {:induction false} BeginsAs(c: Config)
    ensures var s := Create(c);
            var opens := !c.setup.isConnectServer;
            var starts := opens && c.peerSupportsNego && c.lookup == HashKnown && c.setup.hashOrder >= 0;
            && s.setup == c.setup && s.id.isServer == c.setup.isConnectServer && s.log == Nil && s.ctl.timer
            && (s.id.localState == Start <==> starts)
            && (s.id.localState == Compatible <==> opens && !c.peerSupportsNego)
            && (s.id.localState == Wait <==>
                  opens && c.peerSupportsNego && c.lookup == HashKnown && c.setup.hashOrder < 0)
            && (s.id.localState == Unknow <==> !opens || (c.peerSupportsNego && c.lookup == HashUnknown))
            && s.ctl.queue
               == [CtrlStart(if starts || (opens && !c.peerSupportsNego) then SyncDeviceId else Negotiation)]
            && (s.id.idType == NetworkId <==> opens && c.setup.link == Ble && c.useNetworkId)
  {
  }
}
