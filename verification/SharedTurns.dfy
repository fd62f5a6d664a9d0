/** The sessions of one device and the queue they share. Each session talks to its peer over a network that delivers
    device ids at most once; when it enters the id exchange as the starting side it asks the queue for its turn. Then
    the queue keeps its promise - of the living sessions queued for one peer only the first is released - in every
    run. */
module SharedTurns {
  import opened Common
  import opened SessionFsm
  import opened SessionInvariants
  import opened SessionProgress
  import opened SessionRuns
  import opened SessionInputs
  import opened TwoParty
  import opened DeliveredOnce
  import Q = NormalizeQueue

  // ----- going back leaves its mark -----

  lemma {:induction false} EnterDeviceAuthMarks(s: Session, o: Oracle)
    ensures var t := EnterDeviceAuth(s, o);
            t.ctl.curState == SyncDeviceId ==> Count(t.log, BackEdge) > Count(s.log, BackEdge)
  {
    var s1 := MoveTo(s, DeviceAuth);
    if s.id.normalized == Support || s.id.fastAuth {
      CompleteEnds(s1, AUTH_SYNC_DEVID_FAIL);
    } else if s.id.isServer {
    } else if s.id.idType == Fail {
      EnterSyncDeviceIdStays(Emit(s1.(id := s1.id.(idType := Udid)), FellBack), o);
    } else {
      CompleteEnds(s1, o.startAuth);
    }
  }

  lemma {:induction false} RecvDeviceIdMarks(s: Session, m: DeviceIdMsg, o: Oracle)
    requires s.ctl.curState == DeviceAuth
    ensures var t := HandleRecvDeviceId(s, m, o);
            t.ctl.curState == SyncDeviceId ==> Count(t.log, BackEdge) > Count(s.log, BackEdge)
  {
    CompleteEnds(s, AUTH_SYNC_DEVID_FAIL);
    var s1 := s.(id := UnpackDeviceId(s.id, m, o));
    CompleteEnds(s1, AUTH_SYNC_DEVID_FAIL);
    EnterDeviceAuthMarks(SendDeviceId(s1, o), o);
    var released := s1.id.normalized == NotSupport || s1.id.peerState == Compatible;
    EnterDeviceAuthMarks(s1.(log := AddIf(released, s1.log, NormalizeSuccess(false))), o);
  }

  lemma {:induction false} SaveSessionKeyLands(s: Session, keyLen: nat, o: Oracle)
    requires s.ctl.curState == DeviceAuth
    ensures HandleSaveSessionKey(s, keyLen, o).ctl.curState != SyncDeviceId
  {
    CompleteEnds(s, AUTH_SYNC_DEVINFO_FAIL);
    FlushStays(LogKey(s, o));
  }

  lemma {:induction false} DeviceAuthMarks(s: Session, m: Message, o: Oracle)
    requires s.ctl.curState == DeviceAuth
    ensures var t := ProcessDeviceAuth(s, m, o);
            t.ctl.curState == SyncDeviceId ==> Count(t.log, BackEdge) > Count(s.log, BackEdge)
  {
    match m
    case RecvDeviceId(id) => RecvDeviceIdMarks(s, id, o);
    case RecvAuthData => RecvAuthDataStays(s, o);
    case SaveSessionKey(n) => SaveSessionKeyLands(s, n, o);
    case AuthError(reason) => AuthErrorStays(s, reason, o);
    case RecvDeviceInfo(data) =>
    case AuthFinish => AuthFinishStays(s);
    case _ => HandleCommonStays(s, m);
  }

  lemma {:induction false} BackMarks(s: Session, e: Event)
    requires Inv(s) && s.ctl.curState == DeviceAuth
    ensures Next(s, e).ctl.curState == SyncDeviceId ==> Count(Next(s, e).log, BackEdge) > Count(s.log, BackEdge)
  {
    if s.ctl.isDead {
      DeadIsFrozen(s, e);
    } else {
      match e
      case Post(m) =>
      case Step(o) =>
        if s.ctl.queue != [] && s.ctl.queue[0].Data? {
          DeviceAuthMarks(Popped(s), s.ctl.queue[0].msg, o);
        }
      case Expire(o) => HandleCommonStays(Unarmed(s), AuthTimeout);
    }
  }

  // ----- entering the id exchange -----

  /** The event took the session into the id exchange as the starting side, for the first time or again. */
  ghost predicate Enters(s: Session, t: Session) {
    && t.id.localState == Start && t.ctl.curState == SyncDeviceId
    && (s.ctl.curState != SyncDeviceId || Count(t.log, BackEdge) > Count(s.log, BackEdge))
  }

  /** A waiting session is in the id exchange and hears nothing. */
  ghost predicate Quiet(s: Session, e: Event) {
    Waits(s) ==> s.ctl.curState == SyncDeviceId && IdsIn(s.ctl.queue) == 0 && !Delivers(e)
  }

  /** A session that enters again has gone back just now, and had sent its device id. */
  lemma {:induction false} EntersAgain(s: Session, peer: Log, e: Event)
    requires Side(s, peer) && Steady(s) && Quiet(s, e) && Enters(s, Next(s, e)) && s.ctl.curState != Negotiation
    ensures Has(s.log, SentId(Start)) && Count(s.log, BackEdge) == 0 && Count(Next(s, e).log, BackEdge) > 0
  {
    NextProgress(s, e);
    NextSteady(s, peer, e);
    if !Has(s.log, SentId(Start)) {
      WaiterStays(s, peer, e);
    }
    if s.ctl.curState == DeviceAuth {
      BackMarks(s, e);
    }
  }

  lemma {:induction false} BehindSends(s: Session, m: DeviceIdMsg, o: Oracle)
    requires s.ctl.curState == Negotiation && !s.ctl.machine.Idle? && Undecided(s) && o.queue == Behind
    ensures var t := HandleRecvDeviceIdNego(s, m, o);
            t.id.localState == Start ==> Count(t.log, SentId(Start)) == Count(s.log, SentId(Start))
  {
    if !o.unpackOk {
      CompleteEnds(s, AUTH_SYNC_DEVID_FAIL);
    } else {
      var s1 := s.(id := UnpackDeviceId(s.id, m, o));
      UnpackKeepsSide(s.id, m, o);
      var next := UpdateLocalState(s1, o);
      if next.Some? {
        var s2 := s1.(id := s1.id.(localState := next.value));
        FollowLocalStateAlone(s2, o);
      }
    }
  }

  lemma {:induction false} FirstEntryByAnswer(s: Session, peer: Log, e: Event)
    requires Side(s, peer) && Steady(s) && Undecided(s) && Enters(s, Next(s, e))
    ensures e.Step? && Count(Next(s, e).log, BackEdge) == 0
    ensures e.o.queue == Behind ==> !Has(Next(s, e).log, SentId(Start))
  {
    if !AnswersId(s, e) {
      OnlyAnswersLearn(s, peer, e);
    }
    AnswerLearns(s, peer, e);
    if e.o.queue == Behind {
      BehindSends(Popped(s), s.ctl.queue[0].msg.id, e.o);
    }
  }

  lemma {:induction false} FirstEntryByStart(s: Session, peer: Log, e: Event)
    requires Side(s, peer) && Steady(s) && s.ctl.machine.Idle? && s.id.localState == Start && Enters(s, Next(s, e))
    ensures e.Step? && Count(Next(s, e).log, BackEdge) == 0
    ensures e.o.queue == Behind ==> !Has(Next(s, e).log, SentId(Start))
  {
    if !e.Step? {
      IdleTurns(s, peer, e);
    }
    EnterSyncDeviceIdStays(Popped(s), e.o);
  }

  /** A session that enters for the first time sends nothing if others are before it, and nothing has woken it. */
  lemma {:induction false} EntersFirst(s: Session, peer: Log, e: Event)
    requires Side(s, peer) && Steady(s) && Enters(s, Next(s, e)) && s.ctl.curState == Negotiation
    ensures e.Step? && Count(Next(s, e).log, BackEdge) == 0
    ensures e.o.queue == Behind ==> !Has(Next(s, e).log, SentId(Start))
    ensures Data(PostDeviceId) !in Next(s, e).ctl.queue
  {
    OnlyDeliveryAddsIds(s, peer, e);
    if Undecided(s) {
      FirstEntryByAnswer(s, peer, e);
    } else {
      NextProgress(s, e);
      FirstEntryByStart(s, peer, e);
    }
  }

  /** The looper is about to handle a wake-up. */
  predicate Wakes(s: Session, e: Event) {
    e.Step? && s.ctl.queue != [] && s.ctl.queue[0] == Data(PostDeviceId)
  }

  lemma {:induction false} WaiterSends(s: Session, peer: Log, e: Event)
    requires Side(s, peer) && Waits(s) && Quiet(s, e) && Has(Next(s, e).log, SentId(Start))
    ensures Wakes(s, e)
  {
    IdsInNone(s.ctl.queue);
    match e
    case Post(m) =>
    case Step(o) =>
      if s.ctl.queue != [] && s.ctl.queue[0].Data? && s.ctl.machine.Running? && !s.ctl.isDead {
        assert s.ctl.queue[0] in s.ctl.queue && !IsId(s.ctl.queue[0]);
        HandleCommonSends(Popped(s), s.ctl.queue[0].msg);
      }
    case Expire(o) => HandleCommonSends(Unarmed(s), AuthTimeout);
  }

  /** A session that sends its device id as the starting side enters the id exchange or was woken. */
  lemma {:induction false} SendsByTurn(s: Session, peer: Log, e: Event)
    requires Side(s, peer) && Allowed(s, peer, e) && Steady(s) && Quiet(s, e)
    requires !Has(s.log, SentId(Start)) && Has(Next(s, e).log, SentId(Start)) && !Enters(s, Next(s, e))
    ensures Wakes(s, e)
  {
    NextSide(s, peer, e);
    if Undecided(s) {
      if !AnswersId(s, e) {
        OnlyAnswersLearn(s, peer, e);
      }
      AnswerLearns(s, peer, e);
    } else if s.ctl.machine.Idle? {
      StarterMoves(s, peer, e);
    } else {
      WaiterSends(s, peer, e);
    }
  }

  lemma {:induction false} StarterMoves(s: Session, peer: Log, e: Event)
    requires Side(s, peer) && s.ctl.machine.Idle? && s.id.localState == Start && !Has(s.log, SentId(Start))
    ensures Has(Next(s, e).log, SentId(Start)) ==> Enters(s, Next(s, e))
  {
    if e.Step? {
      EnterSyncDeviceIdStays(Popped(s), e.o);
    } else {
      IdleTurns(s, peer, e);
    }
  }

  // ----- sessions and queue -----

  /** A connection of this device: the session at one end of it is ours. */
  datatype Line = Line(net: Net, oursIsK: bool)

  function Ours(l: Line): Session {
    if l.oursIsK then l.net.p.k else l.net.p.v
  }

  /** The sessions of this device by sequence number, and the queue they share. */
  datatype Device = Device(lines: map<int, Line>, turns: Q.Turns)

  datatype Act =
    /** Something happens on a connection; `hash` is the peer's hash as the session knows it then. */
    | OnLine(a: int, move: NetMove, hash: string)
    /** A session in the queue is answered, completed, failed, deleted or stopped. */
    | OnQueue(e: Q.Event)

  /** What the queue tells an entering session. */
  function Verdict(q: Q.Turns, it: Q.Item): QueueVerdict {
    if Q.Find(q.items, it.authSeq).Some? then AlreadyQueued
    else if it.hash == "" then NoHash
    else if |Q.At(q.items + [it], Q.Short(it.hash))| > 1 then Behind
    else First
  }

  function ItemOf(d: Device, act: Act): Q.Item
    requires act.OnLine? && act.a in d.lines
  {
    Q.Item(act.hash, act.a, Ours(d.lines[act.a]).setup.link)
  }

  predicate IsOurs(l: Line, m: NetMove) {
    m.Do? && m.move.OnK? == l.oursIsK
  }

  /** The queue and the sessions agree: an entering session is told what the queue says, and only a released session
      is woken. Only sessions enter the queue. */
  ghost predicate Agrees(d: Device, act: Act) {
    match act
    case OnLine(a, move, hash) =>
      a in d.lines &&
      var l := d.lines[a];
      IsOurs(l, move) ==>
        var e := move.move.e;
        && (e == Post(PostDeviceId) ==> a in d.turns.released)
        && (e.Step? && Enters(Ours(l), Ours(Moved(l, move))) ==> e.o.queue == Verdict(d.turns, ItemOf(d, act)))
    case OnQueue(e) => !e.Entered?
  }

  function Moved(l: Line, move: NetMove): Line {
    l.(net := AdvanceNet(l.net, move))
  }

  ghost function Do(d: Device, act: Act): Device
    requires Agrees(d, act)
  {
    match act
    case OnLine(a, move, hash) =>
      var l := Moved(d.lines[a], move);
      Device(d.lines[a := l],
             if Enters(Ours(d.lines[a]), Ours(l)) then Q.Next(d.turns, Q.Entered(ItemOf(d, act))) else d.turns)
    case OnQueue(e) => d.(turns := Q.Next(d.turns, e))
  }

  /** What does not agree does not happen. */
  ghost function RunDevice(d: Device, acts: seq<Act>): Device
    decreases |acts|
  {
    if acts == [] then d else RunDevice(if Agrees(d, acts[0]) then Do(d, acts[0]) else d, acts[1..])
  }

  // ----- the invariant -----

  /** A session in the queue has entered the id exchange; until it goes back, one that has sent its device id, or is
      about to be woken, has been released. */
  ghost predicate Queues(s: Session, a: int, q: Q.Turns) {
    && (Q.Find(q.items, a).Some? ==> s.ctl.curState != Negotiation)
    && (a !in q.dead && Count(s.log, BackEdge) == 0 && Q.Find(q.items, a).Some? && Has(s.log, SentId(Start)) ==>
          a in q.released)
    && (a !in q.dead && Count(s.log, BackEdge) == 0 && Data(PostDeviceId) in s.ctl.queue ==> a in q.released)
  }

  ghost predicate LineInv(l: Line) {
    exists first :: NetInv(first, l.net)
  }

  ghost predicate DeviceInv(d: Device) {
    && (forall a :: a in d.lines ==> LineInv(d.lines[a]) && Queues(Ours(d.lines[a]), a, d.turns))
    && Q.WellFormed(d.turns) && Q.SingleFlight(d.turns)
  }

  // ----- one session and the queue -----

  /** What one event of our session needs of the network. */
  ghost predicate Hearing(s: Session, peer: Log, e: Event) {
    Side(s, peer) && Allowed(s, peer, e) && Steady(s) && Quiet(s, e)
  }

  /** Entering is no jump: a session that is in the queue already has been released, so it is the first. */
  lemma {:induction false} EnteringIsNoJump(s: Session, peer: Log, e: Event, q: Q.Turns, it: Q.Item)
    requires Hearing(s, peer, e) && Enters(s, Next(s, e)) && Queues(s, it.authSeq, q)
    requires Q.WellFormed(q) && Q.SingleFlight(q)
    ensures !Q.JumpsQueue(q, Q.Entered(it))
  {
    Q.FindIsIn(q.items, it.authSeq);
    if s.ctl.curState != Negotiation {
      EntersAgain(s, peer, e);
    }
  }

  lemma {:induction false} EnteringQueues(s: Session, peer: Log, e: Event, q: Q.Turns, it: Q.Item)
    requires Hearing(s, peer, e) && Enters(s, Next(s, e)) && Queues(s, it.authSeq, q)
    requires e.Step? ==> e.o.queue == Verdict(q, it)
    ensures Queues(Next(s, e), it.authSeq, Q.Next(q, Q.Entered(it)))
  {
    if s.ctl.curState == Negotiation {
      EntersFirst(s, peer, e);
    } else {
      EntersAgain(s, peer, e);
    }
  }

  lemma {:induction false} StayingQueues(s: Session, peer: Log, e: Event, q: Q.Turns, a: int)
    requires Hearing(s, peer, e) && !Enters(s, Next(s, e)) && Queues(s, a, q)
    requires e == Post(PostDeviceId) ==> a in q.released
    ensures Queues(Next(s, e), a, q)
  {
    NextProgress(s, e);
    NextSide(s, peer, e);
    OnlyDeliveryAddsIds(s, peer, e);
    if !Has(s.log, SentId(Start)) && Has(Next(s, e).log, SentId(Start)) {
      SendsByTurn(s, peer, e);
    }
  }

  // ----- the queue and the other sessions -----

  /** Nobody joined, nobody was revived, nobody lost a release. */
  ghost predicate OnlyLeaves(q: Q.Turns, r: Q.Turns) {
    && (forall a :: Q.Find(r.items, a).Some? ==> Q.Find(q.items, a).Some?)
    && q.dead <= r.dead && q.released <= r.released
  }

  lemma {:induction false} QueueLeaves(q: Q.Turns, e: Q.Event)
    requires !e.Entered?
    ensures OnlyLeaves(q, Q.Next(q, e))
  {
    var a := e.a;
    var rest := Q.Without(q.items, a);
    forall b | Q.Find(Q.Next(q, e).items, b).Some? ensures Q.Find(q.items, b).Some? {
      Q.FindIsIn(q.items, b);
      Q.FindIsIn(Q.Next(q, e).items, b);
      WithoutIn(q.items, a);
      if Q.Find(q.items, a).Some? {
        Q.NotAtMeans(rest, Q.Short(Q.Find(q.items, a).value.hash));
      }
    }
  }

  lemma {:induction false} WithoutIn(items: seq<Q.Item>, a: int)
    ensures forall x :: x in Q.Without(items, a) ==> x in items
  {
    if items != [] && items[0].authSeq != a {
      WithoutIn(items[1..], a);
    }
  }

  lemma {:induction false} LeavingQueues(s: Session, a: int, q: Q.Turns, r: Q.Turns)
    requires Queues(s, a, q) && OnlyLeaves(q, r)
    ensures Queues(s, a, r)
  {
  }

  lemma {:induction false} FindSnoc(items: seq<Q.Item>, it: Q.Item, b: int)
    requires b != it.authSeq
    ensures Q.Find(items + [it], b) == Q.Find(items, b)
  {
    if items == [] {
      assert items + [it] == [it] && [it][1..] == [];
    } else {
      assert (items + [it])[1..] == items[1..] + [it];
      FindSnoc(items[1..], it, b);
    }
  }

  lemma {:induction false} OthersQueue(s: Session, b: int, q: Q.Turns, it: Q.Item)
    requires Queues(s, b, q) && b != it.authSeq
    ensures Queues(s, b, Q.Next(q, Q.Entered(it)))
  {
    FindSnoc(q.items, it, b);
  }

  // ----- one line -----

  lemma {:induction false} MovedInv(l: Line, move: NetMove)
    requires LineInv(l)
    ensures LineInv(Moved(l, move))
  {
    var first :| NetInv(first, l.net);
    AdvanceNetKeeps(first, l.net, move);
  }

  function Theirs(l: Line): Session {
    if l.oursIsK then l.net.p.v else l.net.p.k
  }

  /** Our session moves by an event the network allows, or not at all. */
  lemma {:induction false} OursMoves(l: Line, move: NetMove)
    requires LineInv(l)
    ensures Ours(Moved(l, move)) == Ours(l)
            || (&& IsOurs(l, move) && Ours(Moved(l, move)) == Next(Ours(l), move.move.e)
                && Hearing(Ours(l), Theirs(l).log, move.move.e))
  {
    var first :| NetInv(first, l.net);
    PairIsFair(first, l.net.p);
  }

  lemma {:induction false} LineQueues(l: Line, move: NetMove, q: Q.Turns, it: Q.Item)
    requires LineInv(l) && Queues(Ours(l), it.authSeq, q) && Q.WellFormed(q) && Q.SingleFlight(q)
    requires IsOurs(l, move) && move.move.e == Post(PostDeviceId) ==> it.authSeq in q.released
    requires IsOurs(l, move) && move.move.e.Step? && Enters(Ours(l), Ours(Moved(l, move))) ==>
               move.move.e.o.queue == Verdict(q, it)
    ensures var s, t := Ours(l), Ours(Moved(l, move));
            var r := if Enters(s, t) then Q.Next(q, Q.Entered(it)) else q;
            Queues(t, it.authSeq, r) && Q.WellFormed(r) && Q.SingleFlight(r)
  {
    var s, t := Ours(l), Ours(Moved(l, move));
    OursMoves(l, move);
    if t != s {
      var e, peer := move.move.e, Theirs(l).log;
      if Enters(s, t) {
        EnteringIsNoJump(s, peer, e, q, it);
        EnteringQueues(s, peer, e, q, it);
        Q.NextFlight(q, Q.Entered(it));
      } else {
        StayingQueues(s, peer, e, q, it.authSeq);
      }
    }
  }

  // ----- whole runs -----

  lemma {:induction false} LineKeeps(d: Device, act: Act)
    requires DeviceInv(d) && Agrees(d, act) && act.OnLine?
    ensures DeviceInv(Do(d, act))
  {
    var l, it := d.lines[act.a], ItemOf(d, act);
    MovedInv(l, act.move);
    LineQueues(l, act.move, d.turns, it);
    var d1 := Do(d, act);
    forall b | b in d1.lines ensures LineInv(d1.lines[b]) && Queues(Ours(d1.lines[b]), b, d1.turns) {
      if b != act.a {
        OthersQueue(Ours(d.lines[b]), b, d.turns, it);
      }
    }
  }

  lemma {:induction false} QueueKeeps(d: Device, act: Act)
    requires DeviceInv(d) && Agrees(d, act) && act.OnQueue?
    ensures DeviceInv(Do(d, act))
  {
    var r := Q.Next(d.turns, act.e);
    QueueLeaves(d.turns, act.e);
    Q.NextFlight(d.turns, act.e);
    forall a | a in d.lines ensures Queues(Ours(d.lines[a]), a, r) {
      LeavingQueues(Ours(d.lines[a]), a, d.turns, r);
    }
  }

  lemma {:induction false} RunDeviceKeeps(d: Device, acts: seq<Act>)
    requires DeviceInv(d)
    ensures DeviceInv(RunDevice(d, acts))
    decreases |acts|
  {
    if acts != [] {
      if Agrees(d, acts[0]) {
        if acts[0].OnLine? {
          LineKeeps(d, acts[0]);
        } else {
          QueueKeeps(d, acts[0]);
        }
        RunDeviceKeeps(Do(d, acts[0]), acts[1..]);
      } else {
        RunDeviceKeeps(d, acts[1..]);
      }
    }
  }

  /** A connection on which nothing has happened. */
  ghost predicate IsNew(l: Line) {
    exists kc, vc :: Connected(kc, vc) && l.net == Fresh(kc, vc)
  }

  lemma {:induction false} RunDeviceInv(lines: map<int, Line>, acts: seq<Act>)
    requires forall a :: a in lines ==> IsNew(lines[a])
    ensures DeviceInv(RunDevice(Device(lines, Q.EMPTY), acts))
  {
    var d := Device(lines, Q.EMPTY);
    forall a | a in lines ensures LineInv(lines[a]) && Queues(Ours(lines[a]), a, Q.EMPTY) {
      var kc, vc :| Connected(kc, vc) && lines[a].net == Fresh(kc, vc);
      FreshInv(kc, vc);
    }
    RunDeviceKeeps(d, acts);
  }

  /** Single flight, whatever the sessions, the networks and the queue do, and in whatever order: of the living sessions
      queued for one peer only the first has been released. */
  lemma {:induction false} SingleFlightHolds(lines: map<int, Line>, acts: seq<Act>)
    requires forall a :: a in lines ==> IsNew(lines[a])
    ensures Q.SingleFlight(RunDevice(Device(lines, Q.EMPTY), acts).turns)
  {
    RunDeviceInv(lines, acts);
  }

  /** In particular no two living sessions queued for one peer are both released. */
  lemma {:induction false} OnlyOneReleased(lines: map<int, Line>, acts: seq<Act>, i: int, j: int)
    requires forall a :: a in lines ==> IsNew(lines[a])
    requires var q := RunDevice(Device(lines, Q.EMPTY), acts).turns;
             && 0 <= i < j < |q.items| && Q.Short(q.items[i].hash) == Q.Short(q.items[j].hash)
             && q.items[i].authSeq !in q.dead && q.items[j].authSeq !in q.dead
    ensures var q := RunDevice(Device(lines, Q.EMPTY), acts).turns;
            !(q.items[i].authSeq in q.released && q.items[j].authSeq in q.released)
  {
    RunDeviceInv(lines, acts);
    var q := RunDevice(Device(lines, Q.EMPTY), acts).turns;
    assert q.items[i].authSeq != q.items[j].authSeq;
  }
}
