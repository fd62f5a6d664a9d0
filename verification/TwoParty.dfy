/** Two sessions authenticating each other over a network that delivers only what was sent, but may
    lose, repeat and reorder it. FIFO channels are one such network. */
module TwoParty {
  import opened Common
  import opened SessionFsm
  import opened SessionInvariants
  import opened SessionProgress
  import opened SessionRuns
  import opened SessionInputs

  // ----- the network -----

  /** The packet an effect puts on the network arrives as this message. */
  predicate Carries(e: Effect, m: Message) {
    match e
    case PostedDeviceId(id) => m == RecvDeviceId(id)
    case PostedDeviceInfo(info) => m == RecvDeviceInfo(info)
    case PostedCloseAck => m == RecvCloseAck
    case _ => false
  }

  predicate WasSent(log: Log, m: Message) {
    log.Snoc? && (WasSent(log.before, m) || Carries(log.last, m))
  }

  /** What may happen to a session whose peer has this log: packets come from the peer, and the queue
      of concurrent authentications wakes only a session that joined it. */
  predicate Allowed(s: Session, peer: Log, e: Event) {
    match e
    case Post(m) =>
      if m.RecvDeviceId? || m.RecvDeviceInfo? || m.RecvCloseAck? then WasSent(peer, m)
      else m.PostDeviceId? ==> Has(s.log, Queued)
    case _ => true
  }

  /** The two ends of one connection: k opened it, v accepted it. */
  datatype Pair = Pair(k: Session, v: Session)

  datatype Move = OnK(e: Event) | OnV(e: Event)

  function Advance(p: Pair, move: Move): Pair {
    match move
    case OnK(e) => if Allowed(p.k, p.v.log, e) then p.(k := Next(p.k, e)) else p
    case OnV(e) => if Allowed(p.v, p.k.log, e) then p.(v := Next(p.v, e)) else p
  }

  function RunPair(p: Pair, moves: seq<Move>): Pair
    decreases |moves|
  {
    if moves == [] then p else RunPair(Advance(p, moves[0]), moves[1..])
  }

  predicate Connected(kc: Config, vc: Config) {
    !kc.setup.isConnectServer && vc.setup.isConnectServer && kc.setup.link == vc.setup.link
  }

  // ----- one side -----

  lemma {:induction false} SentMarks(log: Log, m: Message)
    requires WasSent(log, m)
    ensures m.RecvDeviceId? ==> Has(log, SentId(m.id.startState))
    ensures m.RecvDeviceInfo? ==> Has(log, SentInfo)
    ensures m.RecvCloseAck? ==> Has(log, SentAck)
    decreases log
  {
    if WasSent(log.before, m) {
      SentMarks(log.before, m);
    }
  }

  /** What a session has received, its peer has sent. */
  ghost predicate Fed(s: Session, peer: Log) {
    && (InfoSeen(s) ==> Has(peer, SentInfo))
    && (AckSeen(s) ==> Has(peer, SentAck))
    && (forall id :: Data(RecvDeviceId(id)) in s.ctl.queue ==> Has(peer, SentId(id.startState)))
    && (Data(PostDeviceId) in s.ctl.queue ==> Has(s.log, Queued))
  }

  /** A message about to be handled has a sender, or joined the queue before it was woken, or is a
      timeout that struck before the report. */
  ghost predicate Supplied(s: Session, peer: Log, m: Message) {
    && (m.RecvDeviceId? ==> Has(peer, SentId(m.id.startState)))
    && (m.RecvDeviceInfo? ==> Has(peer, SentInfo))
    && (m.RecvCloseAck? && !SyncsByReply(s.setup.link) ==> Has(peer, SentAck))
    && (m.PostDeviceId? ==> Has(s.log, Queued))
    && (m.AuthTimeout? ==> !Has(s.log, Reported))
  }

  /** Role, phase and start state of one session agree. */
  ghost predicate Sides(s: Session) {
    && (if s.ctl.machine.Idle?
        then FirstQueued(s) && (s.ctl.queue[0] == CtrlStart(SyncDeviceId) <==> Decided(s.id.localState))
        else s.ctl.curState == Negotiation <==> !Decided(s.id.localState))
    && (s.id.localState == Start ==> !s.id.isServer && s.setup.hashOrder >= 0)
    && (s.id.localState == Ack ==> s.id.isServer)
    && (s.setup.isConnectServer && s.id.localState != Start ==> s.id.isServer)
    && (forall st :: Decided(st) && Has(s.log, SentId(st)) ==> s.id.localState == st)
    && (Has(s.log, Queued) ==> s.ctl.curState != Negotiation)
  }

  ghost predicate Side(s: Session, peer: Log) {
    Inv(s) && Sides(s) && Fed(s, peer)
  }

  /** The start state changes only in negotiation, and only as a packet of the peer justifies. */
  ghost predicate Learns(s: Session, peer: Log, t: Session) {
    t.id.localState == s.id.localState
    || (!Decided(s.id.localState)
        && exists st :: Has(peer, SentId(st)) && Justifies(s.setup, st, t.id.localState))
  }

  /** What one event does to one side. */
  ghost predicate Moves(s: Session, peer: Log, t: Session) {
    && t.setup == s.setup
    && (forall k :: Count(t.log, k) >= Count(s.log, k))
    && (forall st :: Count(t.log, SentId(st)) > Count(s.log, SentId(st)) ==> st == t.id.localState)
    && (Decided(s.id.localState) ==> t.id.isServer == s.id.isServer)
    && Learns(s, peer, t)
  }

  lemma {:induction false} CreateSide(c: Config, peer: Log)
    ensures Side(Create(c), peer)
  {
    CreateInv(c);
  }

  /** A session past negotiation that took message m. */
  lemma {:induction false} TakesSide(s: Session, peer: Log, m: Message, t: Session)
    requires Side(s, peer) && !s.ctl.machine.Idle? && Decided(s.id.localState)
    requires Inv(t) && Progress(s, t) && Takes(s, m, t) && Supplied(s, peer, m)
    ensures Side(t, peer) && Moves(s, peer, t)
  {
  }

  /** A session in negotiation whose identity stayed as it was. */
  lemma {:induction false} StaysSide(s: Session, peer: Log, t: Session)
    requires Side(s, peer) && !s.ctl.machine.Idle? && !Decided(s.id.localState)
    requires Inv(t) && t.id == s.id && t.ctl.curState == s.ctl.curState && !t.ctl.machine.Idle? && Alone(s, t)
    ensures Side(t, peer) && Moves(s, peer, t)
  {
  }

  /** A session in negotiation that took a device-id packet. */
  lemma {:induction false} NegotiationSide(s: Session, peer: Log, m: DeviceIdMsg, o: Oracle)
    requires Side(s, peer) && s.ctl.machine == Running(Negotiation) && !s.ctl.isDead
    requires Has(peer, SentId(m.startState))
    ensures Side(HandleRecvDeviceIdNego(s, m, o), peer) && Moves(s, peer, HandleRecvDeviceIdNego(s, m, o))
  {
    RecvDeviceIdNegoKeeps(s, m, o);
    NegotiationHears(s, m, o);
    RecvDeviceIdNegoGoes(s, m, o);
    HeardSide(s, peer, m, HandleRecvDeviceIdNego(s, m, o));
  }

  lemma {:induction false} HeardSide(s: Session, peer: Log, m: DeviceIdMsg, t: Session)
    requires Side(s, peer) && s.ctl.machine == Running(Negotiation) && !s.ctl.isDead
    requires Has(peer, SentId(m.startState))
    requires Inv(t) && !t.ctl.machine.Idle?
    requires Alone(s.(id := s.id.(localState := t.id.localState)), t)
    requires Justifies(s.setup, m.startState, t.id.localState)
    requires t.ctl.curState == Negotiation <==> !Decided(t.id.localState)
    requires t.id.localState == Start ==> !t.id.isServer
    requires t.id.localState == Ack ==> t.id.isServer
    requires s.id.isServer && t.id.localState != Start ==> t.id.isServer
    ensures Side(t, peer) && Moves(s, peer, t)
  {
  }

  lemma {:induction false} InNegotiationSide(s: Session, peer: Log, m: Message, o: Oracle)
    requires Side(s, peer) && s.ctl.machine == Running(Negotiation) && !s.ctl.isDead
    requires Supplied(s, peer, m)
    ensures Side(ProcessNegotiation(s, m, o), peer) && Moves(s, peer, ProcessNegotiation(s, m, o))
  {
    match m
    case RecvDeviceId(id) => NegotiationSide(s, peer, id, o);
    case PostDeviceId => assert false;
    case _ =>
      HandleCommonKeeps(s, m);
      HandleCommonStays(s, m);
      HandleCommonAlone(s, m);
      StaysSide(s, peer, HandleCommon(s, m));
  }

  lemma {:induction false} PastNegotiationSide(s: Session, peer: Log, m: Message, o: Oracle)
    requires Side(s, peer) && s.ctl.machine.Running? && s.ctl.curState != Negotiation && !s.ctl.isDead
    requires Supplied(s, peer, m)
    ensures var t := Process(s, s.ctl.curState, m, o); Side(t, peer) && Moves(s, peer, t)
  {
    ProcessKeeps(s, m, o);
    ProcessGoes(s, m, o);
    match s.ctl.curState
    case SyncDeviceId => SyncDeviceIdTakes(s, m, o);
    case DeviceAuth => DeviceAuthTakes(s, m, o);
    case SyncDeviceInfo => SyncDeviceInfoTakes(s, m, o);
    TakesSide(s, peer, m, Process(s, s.ctl.curState, m, o));
  }

  /** Nothing but the looper's state or queue changed. */
  lemma {:induction false} LooperSide(s: Session, peer: Log, t: Session)
    requires Side(s, peer) && Inv(t) && !s.ctl.machine.Idle? && !t.ctl.machine.Idle?
    requires t.setup == s.setup && t.id == s.id && t.ex == s.ex && t.log == s.log && t.ctl.curState == s.ctl.curState
    requires forall m :: m in t.ctl.queue ==> m in s.ctl.queue
    ensures Side(t, peer) && Moves(s, peer, t)
  {
  }

  lemma {:induction false} ProcessSide(s: Session, peer: Log, m: Message, o: Oracle)
    requires Side(s, peer) && s.ctl.machine.Running? && !s.ctl.isDead && Supplied(s, peer, m)
    ensures var t := Process(s, s.ctl.curState, m, o); Side(t, peer) && Moves(s, peer, t)
  {
    if s.ctl.curState == Negotiation {
      InNegotiationSide(s, peer, m, o);
    } else {
      PastNegotiationSide(s, peer, m, o);
    }
  }

  lemma {:induction false} HandleSide(s: Session, peer: Log, m: LooperMsg, o: Oracle)
    requires Side(s, peer) && !s.ctl.machine.Idle?
    requires m.Data? ==> Supplied(s, peer, m.msg)
    ensures Side(Handle(s, m, o), peer) && Moves(s, peer, Handle(s, m, o))
  {
    if m.Data? && s.ctl.machine.Running? && !s.ctl.isDead {
      ProcessSide(s, peer, m.msg, o);
    } else if m.Data? {
      LooperSide(s, peer, s);
    } else {
      HandleKeeps(s, m, o);
      LooperSide(s, peer, Handle(s, m, o));
    }
  }

  lemma {:induction false} PostSide(s: Session, peer: Log, m: Message)
    requires Side(s, peer) && Allowed(s, peer, Post(m))
    ensures Side(Next(s, Post(m)), peer) && Moves(s, peer, Next(s, Post(m)))
  {
    NextKeeps(s, Post(m));
    if m.RecvDeviceId? || m.RecvDeviceInfo? || m.RecvCloseAck? {
      SentMarks(peer, m);
    }
  }

  lemma {:induction false} StartSide(s: Session, peer: Log, o: Oracle)
    requires Side(s, peer) && s.ctl.machine.Idle?
    ensures s.ctl.queue != []
    ensures var t := Handle(Popped(s), s.ctl.queue[0], o); Side(t, peer) && Moves(s, peer, t)
  {
    StartKeeps(s, o);
    StartGoes(s, o);
    if s.ctl.queue[0] == CtrlStart(Negotiation) {
      var s1 := MoveTo(Popped(s), Negotiation);
      PostQueuedIdAlone(s1, o);
      PostQueuedIdStays(s1, o);
      StartedSide(s, peer, Negotiation, Handle(Popped(s), s.ctl.queue[0], o));
    } else {
      var s1 := MoveTo(Popped(s), SyncDeviceId);
      EnterSyncDeviceIdAlone(s1, o);
      StartedSide(s, peer, SyncDeviceId, EnterSyncDeviceId(s1, o));
    }
  }

  lemma {:induction false} StartedSide(s: Session, peer: Log, p: Phase, t: Session)
    requires Side(s, peer) && s.ctl.machine.Idle? && s.ctl.queue[0] == CtrlStart(p)
    requires Inv(t) && !t.ctl.machine.Idle? && t.id == s.id && t.ctl.curState == p
    requires Alone(MoveTo(Popped(s), p), t)
    ensures Side(t, peer) && Moves(s, peer, t)
  {
  }

  lemma {:induction false} MovesTwice(s: Session, peer: Log, s1: Session, t: Session)
    requires Moves(s1, peer, t)
    requires s1.setup == s.setup && s1.id == s.id && s1.log == s.log
    ensures Moves(s, peer, t)
  {
  }

  lemma {:induction false} StepSide(s: Session, peer: Log, o: Oracle)
    requires Side(s, peer)
    ensures Side(Next(s, Step(o)), peer) && Moves(s, peer, Next(s, Step(o)))
  {
    if s.ctl.machine.Idle? {
      StartSide(s, peer, o);
    } else if s.ctl.queue != [] {
      PoppedKeeps(s);
      var m := s.ctl.queue[0];
      assert m in s.ctl.queue;
      LooperSide(s, peer, Popped(s));
      HandleSide(Popped(s), peer, m, o);
      MovesTwice(s, peer, Popped(s), Handle(Popped(s), m, o));
    }
  }

  lemma {:induction false} ExpireSide(s: Session, peer: Log, o: Oracle)
    requires Side(s, peer)
    ensures Side(Next(s, Expire(o)), peer) && Moves(s, peer, Next(s, Expire(o)))
  {
    if s.ctl.timer {
      if s.ctl.machine.Idle? {
        NextKeeps(s, Expire(o));
      } else {
        assert Inv(Unarmed(s));
        LooperSide(s, peer, Unarmed(s));
        HandleSide(Unarmed(s), peer, Data(AuthTimeout), o);
        MovesTwice(s, peer, Unarmed(s), Handle(Unarmed(s), Data(AuthTimeout), o));
      }
    }
  }

  lemma {:induction false} NextSide(s: Session, peer: Log, e: Event)
    requires Side(s, peer) && Allowed(s, peer, e)
    ensures Side(Next(s, e), peer) && Moves(s, peer, Next(s, e))
  {
    match e
    case Post(m) => PostSide(s, peer, m);
    case Step(o) => StepSide(s, peer, o);
    case Expire(o) => ExpireSide(s, peer, o);
  }

  lemma {:induction false} PeerMoves(s: Session, peer: Log, peer': Log)
    requires Side(s, peer) && forall k :: Count(peer', k) >= Count(peer, k)
    ensures Side(s, peer')
  {
  }

  // ----- both sides -----

  /** What start states say about the peer. `first` is the start state k began with: a compatible
      session never negotiates. */
  ghost predicate Negotiated(first: StartState, k: Session, v: Session) {
    && !k.setup.isConnectServer && v.setup.isConnectServer
    && (k.id.localState == Ack ==> Has(v.log, SentId(Start)))
    && (v.id.localState == Ack ==> Has(k.log, SentId(Start)))
    && (k.id.localState == Compatible || v.id.localState == Compatible ==> first == Compatible)
    && (v.id.localState == Start ==> first != Compatible)
    && (first == Compatible ==> k.id.localState == Compatible && !k.id.isServer
                                && forall st :: Has(k.log, SentId(st)) ==> st == Compatible)
  }

  ghost predicate PairInv(first: StartState, p: Pair) {
    Side(p.k, p.v.log) && Side(p.v, p.k.log) && Negotiated(first, p.k, p.v) && p.k.setup.link == p.v.setup.link
  }

  lemma {:induction false} KNegotiates(first: StartState, k: Session, v: Session, t: Session)
    requires Side(k, v.log) && Side(v, k.log) && Negotiated(first, k, v)
    requires Side(t, v.log) && Moves(k, v.log, t)
    ensures Negotiated(first, t, v)
  {
  }

  lemma {:induction false} VNegotiates(first: StartState, k: Session, v: Session, t: Session)
    requires Side(k, v.log) && Side(v, k.log) && Negotiated(first, k, v)
    requires Side(t, k.log) && Moves(v, k.log, t)
    ensures Negotiated(first, k, t)
  {
  }

  lemma {:induction false} AdvanceKeeps(first: StartState, p: Pair, move: Move)
    requires PairInv(first, p)
    ensures PairInv(first, Advance(p, move))
  {
    match move
    case OnK(e) =>
      if Allowed(p.k, p.v.log, e) {
        NextSide(p.k, p.v.log, e);
        KNegotiates(first, p.k, p.v, Next(p.k, e));
        PeerMoves(p.v, p.k.log, Next(p.k, e).log);
      }
    case OnV(e) =>
      if Allowed(p.v, p.k.log, e) {
        NextSide(p.v, p.k.log, e);
        VNegotiates(first, p.k, p.v, Next(p.v, e));
        PeerMoves(p.k, p.v.log, Next(p.v, e).log);
      }
  }

  lemma {:induction false} RunPairKeeps(first: StartState, p: Pair, moves: seq<Move>)
    requires PairInv(first, p)
    ensures PairInv(first, RunPair(p, moves))
    ensures RunPair(p, moves).k.setup == p.k.setup && RunPair(p, moves).v.setup == p.v.setup
    decreases |moves|
  {
    if moves != [] {
      AdvanceKeeps(first, p, moves[0]);
      AdvanceSetup(first, p, moves[0]);
      RunPairKeeps(first, Advance(p, moves[0]), moves[1..]);
    }
  }

  lemma {:induction false} AdvanceSetup(first: StartState, p: Pair, move: Move)
    requires PairInv(first, p)
    ensures Advance(p, move).k.setup == p.k.setup && Advance(p, move).v.setup == p.v.setup
  {
    NextProgress(p.k, move.e);
    NextProgress(p.v, move.e);
  }

  lemma {:induction false} ReachablePair(kc: Config, vc: Config, moves: seq<Move>)
    requires Connected(kc, vc)
    ensures var p := RunPair(Pair(Create(kc), Create(vc)), moves);
            PairInv(FirstLocalState(kc), p) && p.k.setup == kc.setup && p.v.setup == vc.setup
  {
    CreateSide(kc, Nil);
    CreateSide(vc, Nil);
    RunPairKeeps(FirstLocalState(kc), Pair(Create(kc), Create(vc)), moves);
  }

  /** Once both sides have left negotiation exactly one of them is the server, provided their udid-hash
      prefixes differ, so that each side sees the opposite order. */
  lemma {:induction false} RolesAgree(kc: Config, vc: Config, moves: seq<Move>)
    requires Connected(kc, vc)
    requires kc.setup.hashOrder == -vc.setup.hashOrder != 0
    ensures var p := RunPair(Pair(Create(kc), Create(vc)), moves);
            p.k.ctl.curState != Negotiation && p.v.ctl.curState != Negotiation ==> p.k.id.isServer != p.v.id.isServer
  {
    ReachablePair(kc, vc, moves);
  }

  /** What one side's report says about its peer. */
  ghost predicate ReportMeans(reporter: Session, peer: Session) {
    Has(reporter.log, Reported) ==>
      && Has(reporter.log, KeySaved) && Has(peer.log, KeySaved)
      && (!SyncsByReply(reporter.setup.link) || peer.id.isServer ==> peer.ex.nodeInfoReceived)
  }

  lemma {:induction false} ReportMeansSides(x: Session, y: Session)
    requires Side(x, y.log) && Side(y, x.log) && x.setup.link == y.setup.link
    ensures ReportMeans(x, y)
  {
  }

  /** Agreement: when either side reports authentication passed, both have saved their session key, and
      the peer already has the reporter's device information - on links that sync by reply, when the
      peer is the server. */
  lemma {:induction false} ReportsAgree(kc: Config, vc: Config, moves: seq<Move>)
    requires Connected(kc, vc)
    ensures var p := RunPair(Pair(Create(kc), Create(vc)), moves);
            ReportMeans(p.k, p.v) && ReportMeans(p.v, p.k)
  {
    ReachablePair(kc, vc, moves);
    var p := RunPair(Pair(Create(kc), Create(vc)), moves);
    ReportMeansSides(p.k, p.v);
    ReportMeansSides(p.v, p.k);
  }

  /** So on every link a client's report means its peer has the client's device information. */
  lemma {:induction false} ClientReportAgrees(kc: Config, vc: Config, moves: seq<Move>)
    requires Connected(kc, vc)
    requires kc.setup.hashOrder == -vc.setup.hashOrder != 0
    ensures var p := RunPair(Pair(Create(kc), Create(vc)), moves);
            && (Has(p.k.log, Reported) && !p.k.id.isServer ==> p.v.ex.nodeInfoReceived)
            && (Has(p.v.log, Reported) && !p.v.id.isServer ==> p.k.ex.nodeInfoReceived)
  {
    RolesAgree(kc, vc, moves);
    ReportsAgree(kc, vc, moves);
    ReachablePair(kc, vc, moves);
  }
}
