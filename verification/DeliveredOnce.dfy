/** Two sessions over a network that delivers each device-id packet at most once, in any order: a reliable channel is
    one such network. In negotiation the two ends then strictly take turns, so the roles agree whatever the hashes
    are, and a session waiting for its turn to start hears nothing. */
module DeliveredOnce {
  import opened Common
  import opened SessionFsm
  import opened SessionInvariants
  import opened SessionProgress
  import opened SessionRuns
  import opened SessionInputs
  import opened TwoParty

  /** Device-id packets waiting in a looper queue. */
  function IdsIn(queue: seq<LooperMsg>): nat {
    if queue == [] then 0 else IdsIn(queue[1..]) + if IsId(queue[0]) then 1 else 0
  }

  predicate IsId(m: LooperMsg) {
    m.Data? && m.msg.RecvDeviceId?
  }

  lemma {:induction false} IdsInAppend(a: seq<LooperMsg>, b: seq<LooperMsg>)
    ensures IdsIn(a + b) == IdsIn(a) + IdsIn(b)
  {
    if a == [] {
      assert a + b == b;
    } else {
      assert (a + b)[1..] == a[1..] + b;
      IdsInAppend(a[1..], b);
    }
  }

  lemma {:induction false} IdsInNone(queue: seq<LooperMsg>)
    ensures IdsIn(queue) == 0 <==> forall m :: m in queue ==> !IsId(m)
  {
    if queue != [] {
      IdsInNone(queue[1..]);
      assert queue[0] in queue;
      assert forall m :: m in queue <==> m == queue[0] || m in queue[1..];
    }
  }

  // ----- how many device ids a handler posts -----

  /** Between s and t at most n device ids were posted. */
  ghost predicate Sends(s: Session, t: Session, n: nat) {
    forall st :: Count(t.log, SentId(st)) <= Count(s.log, SentId(st)) + n
  }

  lemma {:induction false} CompleteSends(s: Session, result: int)
    ensures Sends(s, Complete(s, result), 0)
  {
    CompleteEnds(s, result);
  }

  lemma {:induction false} SendSends(s: Session, o: Oracle)
    ensures Sends(s, SendDeviceId(s, o), 1)
  {
  }

  lemma {:induction false} PostQueuedIdSends(s: Session, o: Oracle)
    ensures Sends(s, PostQueuedId(s, o), 1)
  {
    SendSends(s, o);
    CompleteSends(s, AUTH_SYNC_DEVID_FAIL);
  }

  lemma {:induction false} EnterSyncDeviceIdSends(s: Session, o: Oracle)
    ensures Sends(s, EnterSyncDeviceId(s, o), 1)
  {
    var s1 := MoveTo(s, SyncDeviceId);
    PostQueuedIdSends(s1, o);
    PostQueuedIdSends(Emit(s1, Enqueued), o);
  }

  lemma {:induction false} EnterDeviceAuthSends(s: Session, o: Oracle)
    ensures Sends(s, EnterDeviceAuth(s, o), if s.id.isServer then 0 else 1)
  {
    var s1 := MoveTo(s, DeviceAuth);
    if s.id.normalized == Support || s.id.fastAuth {
      CompleteSends(s1, AUTH_SYNC_DEVID_FAIL);
    } else if s.id.isServer {
    } else if s.id.idType == Fail {
      EnterSyncDeviceIdSends(Emit(s1.(id := s1.id.(idType := Udid)), FellBack), o);
    } else {
      CompleteSends(s1, o.startAuth);
    }
  }

  lemma {:induction false} PostThenAuthSends(s: Session, o: Oracle)
    requires s.id.isServer
    ensures Sends(s, PostThenAuth(s, o), 1)
  {
    if o.postId == SOFTBUS_OK {
      SendSends(s, o);
      EnterDeviceAuthSends(SendDeviceId(s, o), o);
    } else {
      EnterDeviceAuthSends(s, o);
      CompleteSends(EnterDeviceAuth(s, o), o.postId);
    }
  }

  lemma {:induction false} PostOrFailSends(s: Session, o: Oracle)
    ensures Sends(s, PostOrFail(s, o), 1)
  {
    SendSends(s, o);
    CompleteSends(s, o.postId);
  }

  lemma {:induction false} ByLocalStateSends(s: Session, o: Oracle)
    ensures Sends(s, ByLocalState(s, o), 1)
  {
    match s.id.localState
    case Start => EnterSyncDeviceIdSends(AsSide(s, false), o);
    case Ack => PostThenAuthSends(AsSide(s, true), o);
    case Wait => PostOrFailSends(AsSide(s, true), o);
    case Compatible =>
      if s.id.isServer {
        PostThenAuthSends(s, o);
      } else {
        EnterDeviceAuthSends(s, o);
      }
    case Unknow => PostOrFailSends(s, o);
    case Unset => CompleteSends(s, AUTH_SYNC_DEVID_FAIL);
  }

  lemma {:induction false} NegotiationSends(s: Session, m: DeviceIdMsg, o: Oracle)
    ensures Sends(s, HandleRecvDeviceIdNego(s, m, o), 1)
  {
    if !o.unpackOk {
      CompleteSends(s, AUTH_SYNC_DEVID_FAIL);
    } else {
      var s1 := s.(id := UnpackDeviceId(s.id, m, o));
      var next := UpdateLocalState(s1, o);
      if next.Some? {
        var s2 := s1.(id := s1.id.(localState := next.value));
        ByLocalStateSends(s2.(log := AddIf(s2.id.peerState == Compatible, s2.log, NormalizeSuccess(false))), o);
      }
    }
  }

  /** The common messages post nothing and leave the queued packets alone. */
  lemma {:induction false} HandleCommonSends(s: Session, m: Message)
    ensures Sends(s, HandleCommon(s, m), 0) && IdsIn(HandleCommon(s, m).ctl.queue) == IdsIn(s.ctl.queue)
  {
    match m
    case AuthTimeout => CancelSends(Emit(s, TimedOut), AUTH_TIMEOUT);
    case DeviceNotTrusted => CancelSends(s, AUTH_HICHAIN_NOT_TRUSTED);
    case DeviceDisconnected => DisconnectedSends(Emit(s, Disconnected));
    case StopAuthFsm => IdsInEnds(s.ctl.queue);
    case _ =>
  }

  lemma {:induction false} IdsInEnds(queue: seq<LooperMsg>)
    ensures IdsIn(queue + [CtrlStop, CtrlDeinit]) == IdsIn(queue)
  {
    IdsInAppend(queue, [CtrlStop, CtrlDeinit]);
    assert [CtrlStop, CtrlDeinit][1..] == [CtrlDeinit] && [CtrlDeinit][1..] == [];
  }

  lemma {:induction false} CancelSends(s: Session, result: int)
    ensures var t := Emit(Complete(s, result), HichainCancelled);
            Sends(s, t, 0) && IdsIn(t.ctl.queue) == IdsIn(s.ctl.queue)
  {
    CompleteEnds(s, result);
    IdsInEnds(s.ctl.queue);
  }

  lemma {:induction false} DisconnectedSends(s: Session)
    ensures Sends(s, HandleDisconnected(s), 0) && IdsIn(HandleDisconnected(s).ctl.queue) == IdsIn(s.ctl.queue)
  {
    CompleteEnds(s, SOFTBUS_OK);
    IdsInEnds(s.ctl.queue);
    CancelSends(s, AUTH_DEVICE_DISCONNECTED);
  }

  // ----- one event on one side -----

  /** A start the opening side has yet to make, which will post its first device id. */
  function Owes(s: Session): nat {
    if s.ctl.machine.Idle? && !s.setup.isConnectServer then 1 else 0
  }

  /** What may still make this side post a device id. */
  function Debt(s: Session): nat {
    IdsIn(s.ctl.queue) + Owes(s)
  }

  /** Device ids posted between s and t; they carry the start state of t. */
  function Posted(s: Session, t: Session): nat {
    var k := SentId(t.id.localState);
    if Count(t.log, k) >= Count(s.log, k) then Count(t.log, k) - Count(s.log, k) else 0
  }

  predicate Delivers(e: Event) {
    e.Post? && e.msg.RecvDeviceId?
  }

  predicate Undecided(s: Session) {
    !Decided(s.id.localState)
  }

  /** In negotiation a side posts at most one device id per packet it answers. */
  ghost predicate TakesTurns(s: Session, e: Event, t: Session) {
    Debt(t) + Posted(s, t) <= Debt(s) + (if Delivers(e) then 1 else 0)
  }

  /** The event answers a device-id packet in negotiation. */
  predicate AnswersId(s: Session, e: Event) {
    && e.Step? && s.ctl.machine == Running(Negotiation) && !s.ctl.isDead
    && s.ctl.queue != [] && IsId(s.ctl.queue[0])
  }

  lemma {:induction false} PostTurns(s: Session, m: Message)
    ensures TakesTurns(s, Post(m), Next(s, Post(m)))
  {
    IdsInAppend(s.ctl.queue, [Data(m)]);
    assert [Data(m)][1..] == [];
  }

  lemma {:induction false} PoppedIds(s: Session)
    requires s.ctl.queue != []
    ensures IdsIn(s.ctl.queue) == IdsIn(Popped(s).ctl.queue) + if IsId(s.ctl.queue[0]) then 1 else 0
  {
  }

  lemma {:induction false} StartTurns(s: Session, peer: Log, o: Oracle)
    requires Side(s, peer) && s.ctl.machine.Idle? && Undecided(s)
    ensures TakesTurns(s, Step(o), Next(s, Step(o)))
  {
    var s1 := MoveTo(Popped(s), Negotiation);
    PoppedIds(s);
    PostQueuedIdSends(s1, o);
    PostQueuedIdStays(s1, o);
    CompleteEnds(s1, AUTH_SYNC_DEVID_FAIL);
    IdsInEnds(s1.ctl.queue);
  }

  /** A device-id packet answered in negotiation, when no other waits. */
  lemma {:induction false} AnswerTurns(s: Session, peer: Log, e: Event)
    requires Side(s, peer) && Undecided(s) && AnswersId(s, e) && IdsIn(s.ctl.queue) <= 1
    ensures TakesTurns(s, e, Next(s, e)) && IdsIn(Next(s, e).ctl.queue) == 0 && Posted(s, Next(s, e)) <= 1
  {
    var m := s.ctl.queue[0].msg.id;
    var s1 := Popped(s);
    var t := HandleRecvDeviceIdNego(s1, m, e.o);
    PoppedIds(s);
    NegotiationHears(s1, m, e.o);
    NegotiationSends(s1, m, e.o);
    PoppedKeeps(s);
    RecvDeviceIdNegoGoes(s1, m, e.o);
    IdsInNone(s1.ctl.queue);
    IdsInNone(t.ctl.queue);
  }

  /** An undecided side decides only by answering a packet that justifies it; to start is to enter the id exchange. */
  lemma {:induction false} AnswerLearns(s: Session, peer: Log, e: Event)
    requires Side(s, peer) && Undecided(s) && AnswersId(s, e)
    ensures Justifies(s.setup, s.ctl.queue[0].msg.id.startState, Next(s, e).id.localState)
    ensures Next(s, e).id.localState == Start ==>
              Next(s, e).ctl.curState == SyncDeviceId && Count(Next(s, e).log, BackEdge) == Count(s.log, BackEdge)
  {
    NegotiationHears(Popped(s), s.ctl.queue[0].msg.id, e.o);
    StartLands(Popped(s), s.ctl.queue[0].msg.id, e.o);
  }

  lemma {:induction false} StartLands(s: Session, m: DeviceIdMsg, o: Oracle)
    requires s.ctl.curState == Negotiation && !s.ctl.machine.Idle? && Undecided(s)
    ensures var t := HandleRecvDeviceIdNego(s, m, o);
            t.id.localState == Start ==>
              t.ctl.curState == SyncDeviceId && Count(t.log, BackEdge) == Count(s.log, BackEdge)
  {
    if !o.unpackOk {
      CompleteEnds(s, AUTH_SYNC_DEVID_FAIL);
    } else {
      var s1 := s.(id := UnpackDeviceId(s.id, m, o));
      UnpackKeepsSide(s.id, m, o);
      var next := UpdateLocalState(s1, o);
      if next.Some? {
        var s2 := s1.(id := s1.id.(localState := next.value));
        FollowLocalStateAlone(s2, o);
        if next.value == Start {
          var s3 := s2.(log := AddIf(s2.id.peerState == Compatible, s2.log, NormalizeSuccess(false)));
          EnterSyncDeviceIdStays(AsSide(s3, false), o);
        }
      }
    }
  }

  /** Anything else handled in negotiation. */
  lemma {:induction false} CommonTurns(s: Session, s1: Session, e: Event, m: Message)
    requires !s.ctl.machine.Idle? && (e.Step? || e.Expire?)
    requires s1.id == s.id && s1.setup == s.setup && s1.log == s.log && s1.ctl.machine == s.ctl.machine
    requires IdsIn(s1.ctl.queue) <= IdsIn(s.ctl.queue)
    ensures TakesTurns(s, e, HandleCommon(s1, m))
  {
    HandleCommonSends(s1, m);
    HandleCommonStays(s1, m);
  }

  /** The looper's own messages, and any message to a session that is over. */
  lemma {:induction false} LooperTurns(s: Session, e: Event, t: Session)
    requires t.id == s.id && t.setup == s.setup && t.log == s.log
    requires t.ctl.machine.Idle? ==> s.ctl.machine.Idle?
    requires IdsIn(t.ctl.queue) <= IdsIn(s.ctl.queue)
    ensures TakesTurns(s, e, t)
  {
  }

  lemma {:induction false} StepTurns(s: Session, peer: Log, o: Oracle)
    requires Side(s, peer) && Undecided(s) && IdsIn(s.ctl.queue) <= 1
    ensures TakesTurns(s, Step(o), Next(s, Step(o)))
  {
    if s.ctl.queue == [] {
      LooperTurns(s, Step(o), s);
    } else if s.ctl.machine.Idle? {
      StartTurns(s, peer, o);
    } else {
      var m := s.ctl.queue[0];
      assert m in s.ctl.queue;
      PoppedIds(s);
      if m.Data? && s.ctl.machine.Running? && !s.ctl.isDead {
        if IsId(m) {
          AnswerTurns(s, peer, Step(o));
        } else {
          assert !m.msg.PostDeviceId?;
          CommonTurns(s, Popped(s), Step(o), m.msg);
        }
      } else {
        LooperTurns(s, Step(o), Next(s, Step(o)));
      }
    }
  }

  lemma {:induction false} UndecidedTurns(s: Session, peer: Log, e: Event)
    requires Side(s, peer) && Undecided(s) && IdsIn(s.ctl.queue) <= 1
    ensures TakesTurns(s, e, Next(s, e))
  {
    match e
    case Post(m) => PostTurns(s, m);
    case Step(o) => StepTurns(s, peer, o);
    case Expire(o) =>
      if s.ctl.timer && s.ctl.machine.Running? && !s.ctl.isDead {
        CommonTurns(s, Unarmed(s), e, AuthTimeout);
      } else {
        LooperTurns(s, e, Next(s, e));
      }
  }

  /** Nothing but an answered packet changes the start state of an undecided side. */
  lemma {:induction false} OnlyAnswersLearn(s: Session, peer: Log, e: Event)
    requires Side(s, peer) && Undecided(s) && !AnswersId(s, e)
    ensures Next(s, e).id.localState == s.id.localState
  {
    match e
    case Post(m) =>
    case Step(o) =>
      if s.ctl.machine.Idle? {
        PostQueuedIdStays(MoveTo(Popped(s), Negotiation), o);
      } else if s.ctl.queue != [] && s.ctl.machine.Running? && !s.ctl.isDead && s.ctl.queue[0].Data? {
        assert s.ctl.queue[0] in s.ctl.queue;
        HandleCommonStays(Popped(s), s.ctl.queue[0].msg);
      }
    case Expire(o) => HandleCommonStays(Unarmed(s), AuthTimeout);
  }

  // ----- waiting for the turn to start -----

  /** The session has decided to start and has not posted its device id yet. */
  ghost predicate Waits(s: Session) {
    s.id.localState == Start && !s.ctl.machine.Idle? && !Has(s.log, SentId(Start))
  }

  /** The session is in the id exchange, was so before, and no device id is queued. */
  ghost predicate StaysThere(s: Session, t: Session) {
    && t.ctl.curState == SyncDeviceId && Count(t.log, BackEdge) == Count(s.log, BackEdge) && IdsIn(t.ctl.queue) == 0
  }

  lemma {:induction false} WaiterSteps(s: Session, peer: Log, o: Oracle)
    requires Side(s, peer) && Waits(s) && s.ctl.curState == SyncDeviceId && IdsIn(s.ctl.queue) == 0
    ensures StaysThere(s, Next(s, Step(o)))
  {
    if s.ctl.queue != [] {
      var m := s.ctl.queue[0];
      IdsInNone(s.ctl.queue);
      assert m in s.ctl.queue && !IsId(m);
      PoppedIds(s);
      if m.Data? && s.ctl.machine.Running? && !s.ctl.isDead {
        WaiterHandles(Popped(s), m.msg, o);
      }
    }
  }

  /** While it waits and hears nothing, a session stays where it is. */
  lemma {:induction false} WaiterStays(s: Session, peer: Log, e: Event)
    requires Side(s, peer) && Waits(s) && s.ctl.curState == SyncDeviceId && IdsIn(s.ctl.queue) == 0 && !Delivers(e)
    ensures StaysThere(s, Next(s, e))
  {
    match e
    case Post(m) => PostTurns(s, m);
    case Step(o) => WaiterSteps(s, peer, o);
    case Expire(o) =>
      if s.ctl.timer && s.ctl.machine.Running? && !s.ctl.isDead {
        WaiterHandles(Unarmed(s), AuthTimeout, o);
      }
  }

  lemma {:induction false} WaiterHandles(s: Session, m: Message, o: Oracle)
    requires s.ctl.curState == SyncDeviceId && !s.id.isServer && !m.RecvDeviceId? && IdsIn(s.ctl.queue) == 0
    ensures StaysThere(s, ProcessSyncDeviceId(s, m, o))
  {
    if m.PostDeviceId? {
      CompleteEnds(s, AUTH_SYNC_DEVID_FAIL);
      IdsInEnds(s.ctl.queue);
    } else {
      HandleCommonSends(s, m);
      HandleCommonStays(s, m);
    }
  }

  /** The opening side that starts at once. */
  lemma {:induction false} StarterLands(s: Session, peer: Log, o: Oracle)
    requires Side(s, peer) && s.ctl.machine.Idle? && s.id.localState == Start && IdsIn(s.ctl.queue) == 0
    ensures var t := Next(s, Step(o));
            t.ctl.curState == SyncDeviceId && Count(t.log, BackEdge) == 0 && IdsIn(t.ctl.queue) == 0 && t.id == s.id
  {
    var s1 := Popped(s);
    PoppedIds(s);
    EnterSyncDeviceIdStays(s1, o);
    EnterSyncDeviceIdAlone(s1, o);
    IdsInNone(s1.ctl.queue);
    IdsInNone(EnterSyncDeviceId(s1, o).ctl.queue);
  }

  // ----- packets come from outside only -----

  /** The messages about device ids queued in t were queued in s. */
  ghost predicate NoNewIds(s: Session, t: Session) {
    forall m :: AboutIds(m) && Data(m) in t.ctl.queue ==> Data(m) in s.ctl.queue
  }

  lemma {:induction false} ProcessNoNewIds(s: Session, peer: Log, m: Message, o: Oracle)
    requires Side(s, peer) && s.ctl.machine.Running? && !s.ctl.isDead && (m.PostDeviceId? ==> Has(s.log, Queued))
    ensures NoNewIds(s, Process(s, s.ctl.curState, m, o))
  {
    match s.ctl.curState
    case Negotiation =>
      if m.RecvDeviceId? {
        NegotiationHears(s, m.id, o);
      } else {
        HandleCommonAlone(s, m);
      }
    case SyncDeviceId => SyncDeviceIdTakes(s, m, o);
    case DeviceAuth => DeviceAuthTakes(s, m, o);
    case SyncDeviceInfo => SyncDeviceInfoTakes(s, m, o);
  }

  lemma {:induction false} StartNoNewIds(s: Session, peer: Log, o: Oracle)
    requires Side(s, peer) && s.ctl.machine.Idle?
    ensures NoNewIds(s, Next(s, Step(o)))
  {
    var s1 := Popped(s);
    assert forall m :: m in s1.ctl.queue ==> m in s.ctl.queue;
    PostQueuedIdAlone(MoveTo(s1, Negotiation), o);
    EnterSyncDeviceIdAlone(s1, o);
  }

  lemma {:induction false} OnlyDeliveryAddsIds(s: Session, peer: Log, e: Event)
    requires Side(s, peer)
    ensures forall m :: AboutIds(m) && Data(m) in Next(s, e).ctl.queue ==> Data(m) in s.ctl.queue || e == Post(m)
  {
    match e
    case Post(m) =>
    case Step(o) =>
      if s.ctl.machine.Idle? {
        StartNoNewIds(s, peer, o);
      } else if s.ctl.queue != [] {
        var m := s.ctl.queue[0];
        assert m in s.ctl.queue;
        assert forall x :: x in Popped(s).ctl.queue ==> x in s.ctl.queue;
        PoppedKeeps(s);
        LooperSide(s, peer, Popped(s));
        if m.Data? && s.ctl.machine.Running? && !s.ctl.isDead {
          ProcessNoNewIds(Popped(s), peer, m.msg, o);
        }
      }
    case Expire(o) =>
      if s.ctl.timer && s.ctl.machine.Running? && !s.ctl.isDead {
        assert Inv(Unarmed(s));
        LooperSide(s, peer, Unarmed(s));
        ProcessNoNewIds(Unarmed(s), peer, AuthTimeout, o);
      }
  }

  // ----- the network -----

  /** A pair and the start states of the device-id packets on their way. A delivery uses up one packet with its start
      state; which of the packets sent with that start state it brings is left open. */
  datatype Net = Net(p: Pair, toK: Channel, toV: Channel)

  type Channel = multiset<StartState>

  datatype NetMove = Do(move: Move) | LoseToK(st: StartState) | LoseToV(st: StartState)

  /** The packets a side posted while going from s to t are on their way. */
  function Carry(ch: Channel, s: Session, t: Session): Channel {
    ch[t.id.localState := ch[t.id.localState] + Posted(s, t)]
  }

  predicate OnItsWay(ch: Channel, e: Event) {
    Delivers(e) ==> e.msg.id.startState in ch
  }

  function Take(ch: Channel, e: Event): Channel {
    if Delivers(e) then ch - multiset{e.msg.id.startState} else ch
  }

  function AdvanceNet(n: Net, m: NetMove): Net {
    match m
    case Do(OnK(e)) =>
      if Allowed(n.p.k, n.p.v.log, e) && OnItsWay(n.toK, e)
      then Net(Advance(n.p, OnK(e)), Take(n.toK, e), Carry(n.toV, n.p.k, Next(n.p.k, e))) else n
    case Do(OnV(e)) =>
      if Allowed(n.p.v, n.p.k.log, e) && OnItsWay(n.toV, e)
      then Net(Advance(n.p, OnV(e)), Carry(n.toK, n.p.v, Next(n.p.v, e)), Take(n.toV, e)) else n
    case LoseToK(st) => n.(toK := n.toK - multiset{st})
    case LoseToV(st) => n.(toV := n.toV - multiset{st})
  }

  function RunNet(n: Net, moves: seq<NetMove>): Net
    decreases |moves|
  {
    if moves == [] then n else RunNet(AdvanceNet(n, moves[0]), moves[1..])
  }

  // ----- the invariant -----

  /** What the pair invariant says of two ends, in either order. */
  ghost predicate Fair(x: Session, y: Session) {
    && Side(x, y.log) && Side(y, x.log) && x.setup.isConnectServer != y.setup.isConnectServer
    && (y.id.localState == Ack ==> Has(x.log, SentId(Start)))
    && (x.id.localState == Ack ==> Has(y.log, SentId(Start)))
    && !(x.id.localState == Start && y.id.localState == Compatible)
    && !(y.id.localState == Start && x.id.localState == Compatible)
  }

  lemma {:induction false} PairIsFair(first: StartState, p: Pair)
    requires PairInv(first, p)
    ensures Fair(p.k, p.v) && Fair(p.v, p.k)
  {
  }

  /** A starter's packets are all "start", its peer is no starter, and while it waits nothing moves. */
  ghost predicate Leads(x: Session, y: Session, toX: Channel, toY: Channel) {
    && (x.id.localState == Start ==>
          && y.id.localState != Start
          && (forall st :: st in toY ==> st == Start)
          && (forall id :: Data(RecvDeviceId(id)) in y.ctl.queue ==> id.startState == Start))
    && (Waits(x) ==>
          && toX == multiset{} && toY == multiset{} && IdsIn(x.ctl.queue) == 0 && Debt(y) == 0
          && x.ctl.curState == SyncDeviceId && Count(x.log, BackEdge) == 0)
  }

  /** While both are undecided at most one device id is on its way, queued or owed. */
  ghost predicate OneTurn(x: Session, y: Session, toX: Channel, toY: Channel) {
    Undecided(x) && Undecided(y) ==> |toX| + |toY| + Debt(x) + Debt(y) <= 1
  }

  /** Before the opening side starts, nothing has been said. */
  ghost predicate Silence(x: Session, y: Session, toX: Channel, toY: Channel) {
    Owes(x) == 1 ==>
      toX == multiset{} && toY == multiset{} && IdsIn(x.ctl.queue) == 0 && IdsIn(y.ctl.queue) == 0 && Undecided(y)
  }

  /** One session on its own: an accepting session starts undecided, and one that has gone back is past device-auth. */
  ghost predicate Steady(s: Session) {
    && (s.ctl.machine.Idle? && s.setup.isConnectServer ==> Undecided(s))
    && Count(s.log, BackEdge) + (if Rank(s) > 2 then 1 else 0) <= 1
  }

  ghost predicate Turns(x: Session, y: Session, toX: Channel, toY: Channel) {
    && Steady(x) && Steady(y)
    && Leads(x, y, toX, toY) && Leads(y, x, toY, toX) && OneTurn(x, y, toX, toY)
    && Silence(x, y, toX, toY) && Silence(y, x, toY, toX)
  }

  // ----- one side moves -----

  /** Before the machine starts, only its start message is handled. */
  lemma {:induction false} IdleTurns(s: Session, peer: Log, e: Event)
    requires Side(s, peer) && s.ctl.machine.Idle? && !e.Step?
    ensures Next(s, e).id == s.id && Next(s, e).log == s.log && TakesTurns(s, e, Next(s, e))
  {
    if e.Post? {
      PostTurns(s, e.msg);
    }
  }

  lemma {:induction false} StartStarts(s: Session, peer: Log, e: Event)
    requires Side(s, peer) && Next(s, e).ctl.machine.Idle?
    ensures s.ctl.machine.Idle? && !e.Step?
  {
    NextProgress(s, e);
  }

  lemma {:induction false} NextSteady(s: Session, peer: Log, e: Event)
    requires Side(s, peer) && Steady(s)
    ensures Steady(Next(s, e))
  {
    NextProgress(s, e);
    if Next(s, e).ctl.machine.Idle? {
      StartStarts(s, peer, e);
      IdleTurns(s, peer, e);
    }
  }

  /** x may take event e, with toX and toY on their way. */
  ghost predicate Ready(x: Session, y: Session, toX: Channel, toY: Channel, e: Event) {
    Fair(x, y) && Turns(x, y, toX, toY) && Allowed(x, y.log, e) && OnItsWay(toX, e)
  }

  lemma {:induction false} CarryAdds(ch: Channel, s: Session, t: Session)
    ensures |Carry(ch, s, t)| == |ch| + Posted(s, t)
    ensures Posted(s, t) == 0 ==> Carry(ch, s, t) == ch
    ensures forall st :: st in Carry(ch, s, t) ==> st in ch || st == t.id.localState
  {
  }

  lemma {:induction false} TakeRemoves(ch: Channel, e: Event)
    requires OnItsWay(ch, e)
    ensures |Take(ch, e)| == |ch| - if Delivers(e) then 1 else 0
    ensures forall st :: st in Take(ch, e) ==> st in ch
  {
  }

  lemma {:induction false} OneTurnKept(x: Session, y: Session, toX: Channel, toY: Channel, e: Event)
    requires Ready(x, y, toX, toY, e)
    ensures OneTurn(Next(x, e), y, Take(toX, e), Carry(toY, x, Next(x, e)))
  {
    var t := Next(x, e);
    CarryAdds(toY, x, t);
    TakeRemoves(toX, e);
    NextSide(x, y.log, e);
    if Undecided(t) && Undecided(y) {
      UndecidedTurns(x, y.log, e);
    }
  }

  lemma {:induction false} SilenceKept(x: Session, y: Session, toX: Channel, toY: Channel, e: Event)
    requires Ready(x, y, toX, toY, e)
    ensures Silence(Next(x, e), y, Take(toX, e), Carry(toY, x, Next(x, e)))
  {
    var t := Next(x, e);
    CarryAdds(toY, x, t);
    TakeRemoves(toX, e);
    NextSide(x, y.log, e);
    if Owes(t) == 1 {
      StartStarts(x, y.log, e);
      IdleTurns(x, y.log, e);
    }
  }

  lemma {:induction false} PeerSilenceKept(x: Session, y: Session, toX: Channel, toY: Channel, e: Event)
    requires Ready(x, y, toX, toY, e)
    ensures Silence(y, Next(x, e), Carry(toY, x, Next(x, e)), Take(toX, e))
  {
    var t := Next(x, e);
    CarryAdds(toY, x, t);
    TakeRemoves(toX, e);
    if Owes(y) == 1 {
      UndecidedTurns(x, y.log, e);
      IdsInNone(x.ctl.queue);
      assert !AnswersId(x, e);
      OnlyAnswersLearn(x, y.log, e);
    }
  }

  /** The peer leads: x hears only "start" and does not start itself. */
  lemma {:induction false} FollowerKept(x: Session, y: Session, toX: Channel, toY: Channel, e: Event)
    requires Ready(x, y, toX, toY, e)
    ensures Leads(y, Next(x, e), Carry(toY, x, Next(x, e)), Take(toX, e))
  {
    var t := Next(x, e);
    CarryAdds(toY, x, t);
    TakeRemoves(toX, e);
    NextSide(x, y.log, e);
    if y.id.localState == Start {
      OnlyDeliveryAddsIds(x, y.log, e);
      if Undecided(x) {
        FollowerLearns(x, y.log, e);
        if Waits(y) {
          UndecidedTurns(x, y.log, e);
        }
      }
    }
  }

  lemma {:induction false} FollowerLearns(x: Session, peer: Log, e: Event)
    requires Side(x, peer) && Undecided(x)
    requires forall id :: Data(RecvDeviceId(id)) in x.ctl.queue ==> id.startState == Start
    ensures Next(x, e).id.localState != Start
  {
    if AnswersId(x, e) {
      assert x.ctl.queue[0] == Data(RecvDeviceId(x.ctl.queue[0].msg.id)) && x.ctl.queue[0] in x.ctl.queue;
      AnswerLearns(x, peer, e);
    } else {
      OnlyAnswersLearn(x, peer, e);
    }
  }

  /** A starter goes on. */
  lemma {:induction false} StarterKept(x: Session, y: Session, toX: Channel, toY: Channel, e: Event)
    requires Ready(x, y, toX, toY, e) && x.id.localState == Start
    ensures Leads(Next(x, e), y, Take(toX, e), Carry(toY, x, Next(x, e)))
  {
    var t := Next(x, e);
    CarryAdds(toY, x, t);
    TakeRemoves(toX, e);
    NextSide(x, y.log, e);
    if Waits(t) {
      assert Count(t.log, SentId(Start)) >= Count(x.log, SentId(Start));
      assert Posted(x, t) == 0;
      if x.ctl.machine.Idle? {
        assert Owes(x) == 1 && Owes(y) == 0;
        StarterStarts(x, y.log, e);
      } else {
        WaiterStays(x, y.log, e);
      }
    }
  }

  lemma {:induction false} StarterStarts(x: Session, peer: Log, e: Event)
    requires Side(x, peer) && x.ctl.machine.Idle? && x.id.localState == Start && IdsIn(x.ctl.queue) == 0
    requires !Next(x, e).ctl.machine.Idle?
    ensures var t := Next(x, e);
            t.ctl.curState == SyncDeviceId && Count(t.log, BackEdge) == 0 && IdsIn(t.ctl.queue) == 0
  {
    if e.Step? {
      StarterLands(x, peer, e.o);
    }
  }

  /** An undecided side that decides to start took the one turn there was. */
  lemma {:induction false} StarterBorn(x: Session, y: Session, toX: Channel, toY: Channel, e: Event)
    requires Ready(x, y, toX, toY, e) && Undecided(x) && Next(x, e).id.localState == Start && Fair(Next(x, e), y)
    ensures Leads(Next(x, e), y, Take(toX, e), Carry(toY, x, Next(x, e)))
  {
    var t := Next(x, e);
    CarryAdds(toY, x, t);
    TakeRemoves(toX, e);
    if !AnswersId(x, e) {
      OnlyAnswersLearn(x, y.log, e);
    }
    assert y.id.localState != Start by {
      if y.id.localState == Start {
        FollowerLearns(x, y.log, e);
      }
    }
    assert Undecided(y);
    IdsInNone(x.ctl.queue);
    IdsInNone(y.ctl.queue);
    AnswerTurns(x, y.log, e);
    AnswerLearns(x, y.log, e);
  }

  lemma {:induction false} LeaderKept(x: Session, y: Session, toX: Channel, toY: Channel, e: Event)
    requires Ready(x, y, toX, toY, e) && Fair(Next(x, e), y)
    ensures Leads(Next(x, e), y, Take(toX, e), Carry(toY, x, Next(x, e)))
  {
    if x.id.localState == Start {
      StarterKept(x, y, toX, toY, e);
    } else if Next(x, e).id.localState == Start {
      NextSide(x, y.log, e);
      StarterBorn(x, y, toX, toY, e);
    }
  }

  lemma {:induction false} TurnsKept(x: Session, y: Session, toX: Channel, toY: Channel, e: Event)
    requires Ready(x, y, toX, toY, e) && Fair(Next(x, e), y)
    ensures Turns(Next(x, e), y, Take(toX, e), Carry(toY, x, Next(x, e)))
  {
    NextSteady(x, y.log, e);
    OneTurnKept(x, y, toX, toY, e);
    SilenceKept(x, y, toX, toY, e);
    PeerSilenceKept(x, y, toX, toY, e);
    FollowerKept(x, y, toX, toY, e);
    LeaderKept(x, y, toX, toY, e);
  }

  // ----- whole runs -----

  ghost predicate NetInv(first: StartState, n: Net) {
    PairInv(first, n.p) && Turns(n.p.k, n.p.v, n.toK, n.toV)
  }

  lemma {:induction false} TurnsSwap(x: Session, y: Session, toX: Channel, toY: Channel)
    requires Turns(x, y, toX, toY)
    ensures Turns(y, x, toY, toX)
  {
  }

  lemma {:induction false} LossKeeps(x: Session, y: Session, toX: Channel, toY: Channel, st: StartState)
    requires Turns(x, y, toX, toY)
    ensures Turns(x, y, toX - multiset{st}, toY)
  {
    var less := toX - multiset{st};
    assert |less| <= |toX| && forall q :: q in less ==> q in toX;
    assert toX == multiset{} ==> less == multiset{};
  }

  lemma {:induction false} KMoves(first: StartState, n: Net, e: Event)
    requires NetInv(first, n) && Allowed(n.p.k, n.p.v.log, e) && OnItsWay(n.toK, e)
    ensures NetInv(first, AdvanceNet(n, Do(OnK(e))))
  {
    PairIsFair(first, n.p);
    AdvanceKeeps(first, n.p, OnK(e));
    PairIsFair(first, Advance(n.p, OnK(e)));
    TurnsKept(n.p.k, n.p.v, n.toK, n.toV, e);
  }

  lemma {:induction false} VMoves(first: StartState, n: Net, e: Event)
    requires NetInv(first, n) && Allowed(n.p.v, n.p.k.log, e) && OnItsWay(n.toV, e)
    ensures NetInv(first, AdvanceNet(n, Do(OnV(e))))
  {
    PairIsFair(first, n.p);
    AdvanceKeeps(first, n.p, OnV(e));
    PairIsFair(first, Advance(n.p, OnV(e)));
    TurnsSwap(n.p.k, n.p.v, n.toK, n.toV);
    TurnsKept(n.p.v, n.p.k, n.toV, n.toK, e);
    TurnsSwap(Next(n.p.v, e), n.p.k, Take(n.toV, e), Carry(n.toK, n.p.v, Next(n.p.v, e)));
  }

  lemma {:induction false} AdvanceNetKeeps(first: StartState, n: Net, m: NetMove)
    requires NetInv(first, n)
    ensures NetInv(first, AdvanceNet(n, m))
  {
    match m
    case Do(OnK(e)) =>
      if Allowed(n.p.k, n.p.v.log, e) && OnItsWay(n.toK, e) {
        KMoves(first, n, e);
      }
    case Do(OnV(e)) =>
      if Allowed(n.p.v, n.p.k.log, e) && OnItsWay(n.toV, e) {
        VMoves(first, n, e);
      }
    case LoseToK(st) => LossKeeps(n.p.k, n.p.v, n.toK, n.toV, st);
    case LoseToV(st) =>
      TurnsSwap(n.p.k, n.p.v, n.toK, n.toV);
      LossKeeps(n.p.v, n.p.k, n.toV, n.toK, st);
      TurnsSwap(n.p.v, n.p.k, n.toV - multiset{st}, n.toK);
  }

  lemma {:induction false} RunNetKeeps(first: StartState, n: Net, moves: seq<NetMove>)
    requires NetInv(first, n)
    ensures NetInv(first, RunNet(n, moves))
    decreases |moves|
  {
    if moves != [] {
      AdvanceNetKeeps(first, n, moves[0]);
      RunNetKeeps(first, AdvanceNet(n, moves[0]), moves[1..]);
    }
  }

  /** Nothing said yet. */
  function Fresh(kc: Config, vc: Config): Net {
    Net(Pair(Create(kc), Create(vc)), multiset{}, multiset{})
  }

  lemma {:induction false} FreshInv(kc: Config, vc: Config)
    requires Connected(kc, vc)
    ensures NetInv(FirstLocalState(kc), Fresh(kc, vc))
  {
    ReachablePair(kc, vc, []);
    assert [CtrlStart(FirstPhase(kc))][1..] == [] && [CtrlStart(FirstPhase(vc))][1..] == [];
  }

  lemma {:induction false} ReachableNet(kc: Config, vc: Config, moves: seq<NetMove>)
    requires Connected(kc, vc)
    ensures NetInv(FirstLocalState(kc), RunNet(Fresh(kc, vc), moves))
  {
    FreshInv(kc, vc);
    RunNetKeeps(FirstLocalState(kc), Fresh(kc, vc), moves);
  }

  /** Once both sides have left negotiation exactly one of them is the server, whatever the udid-hash prefixes are. */
  lemma {:induction false} RolesAgreeOnce(kc: Config, vc: Config, moves: seq<NetMove>)
    requires Connected(kc, vc)
    ensures var p := RunNet(Fresh(kc, vc), moves).p;
            p.k.ctl.curState != Negotiation && p.v.ctl.curState != Negotiation ==> p.k.id.isServer != p.v.id.isServer
  {
    ReachableNet(kc, vc, moves);
  }

  /** While a session waits for its turn no device id is on its way in either direction or queued at either end, the
      session is in the id exchange, and it has not gone back from device-auth. */
  ghost predicate HearsNothing(x: Session, y: Session, toX: Channel, toY: Channel) {
    Waits(x) ==>
      && toX == multiset{} && toY == multiset{} && IdsIn(x.ctl.queue) == 0 && IdsIn(y.ctl.queue) == 0
      && x.ctl.curState == SyncDeviceId && !Has(x.log, BackEdge)
  }

  /** So a starting session that went back to the id exchange had sent its device id: none enters again while it
      waits. */
  lemma {:induction false} WaiterHearsNothing(kc: Config, vc: Config, moves: seq<NetMove>)
    requires Connected(kc, vc)
    ensures var n := RunNet(Fresh(kc, vc), moves);
            HearsNothing(n.p.k, n.p.v, n.toK, n.toV) && HearsNothing(n.p.v, n.p.k, n.toV, n.toK)
  {
    ReachableNet(kc, vc, moves);
  }

  /** Every such run is a run of the lossy, repeating network. */
  lemma {:induction false} NetRunIsPairRun(n: Net, moves: seq<NetMove>)
    ensures exists pairMoves :: RunPair(n.p, pairMoves) == RunNet(n, moves).p
    decreases |moves|
  {
    if moves == [] {
      assert RunPair(n.p, []) == n.p;
    } else {
      var n' := AdvanceNet(n, moves[0]);
      NetRunIsPairRun(n', moves[1..]);
      var rest :| RunPair(n'.p, rest) == RunNet(n', moves[1..]).p;
      if n'.p == n.p {
        assert RunPair(n.p, rest) == RunNet(n, moves).p;
      } else {
        var first := [moves[0].move] + rest;
        assert first[1..] == rest;
        assert RunPair(n.p, first) == RunNet(n, moves).p;
      }
    }
  }

  /** So on every link, whatever the hashes are, a client's report means its peer has the client's device
      information. */
  lemma {:induction false} ClientReportAgreesOnce(kc: Config, vc: Config, moves: seq<NetMove>)
    requires Connected(kc, vc)
    ensures var p := RunNet(Fresh(kc, vc), moves).p;
            && (Has(p.k.log, Reported) && !p.k.id.isServer ==> p.v.ex.nodeInfoReceived)
            && (Has(p.v.log, Reported) && !p.v.id.isServer ==> p.k.ex.nodeInfoReceived)
  {
    RolesAgreeOnce(kc, vc, moves);
    NetRunIsPairRun(Fresh(kc, vc), moves);
    var pairMoves :| RunPair(Fresh(kc, vc).p, pairMoves) == RunNet(Fresh(kc, vc), moves).p;
    ReportsAgree(kc, vc, pairMoves);
    ReachablePair(kc, vc, pairMoves);
  }
}
