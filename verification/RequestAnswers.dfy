/** What callers are told: which answer each event gives to which request. */
module RequestAnswers {
  import opened Common
  import opened Addresses
  import opened Requests
  import opened RequestRuns
  import RequestProgress

  /** The answers given between two books. */
  function New(b: Book, c: Book): seq<Answer> {
    if |c.answers| >= |b.answers| then c.answers[|b.answers|..] else []
  }

  ghost predicate Extends(b: Book, c: Book) {
    |c.answers| >= |b.answers| && c.answers[..|b.answers|] == b.answers
  }

  // ----- authentication passed -----

  /** A connection for the network builder that is not kept as it is: it is connected again. */
  predicate NeedsReconnect(x: Request) {
    x.callback == OnConn && x.lnn && TypeOf(x.addr) !in {Wifi, P2p, EnhancedP2p, Usb, SessionKey}
  }

  /** What the caller of a request that passed is told at once. */
  predicate Told(x: Request, w: World, o: Outcome) {
    match o
    case VerifyPassed => x.callback == OnVerify
    case Opened =>
      x.callback == OnConn && (!NeedsReconnect(x) || (x.addr.SessionAddr? && w.hasManager && w.rebinds(x.id)))
    case OpenFailed(code) =>
      && NeedsReconnect(x)
      && if !w.hasManager then code == AUTH_CONN_FAIL
         else if x.addr.SessionAddr? then !w.rebinds(x.id) && code == AUTH_NOT_FOUND
         else !w.connects(x.id) && code == AUTH_CONN_FAIL
    case _ => false
  }

  /** The request is being connected again and will be told later. */
  predicate Reconnecting(x: Request, w: World) {
    NeedsReconnect(x) && w.hasManager && !x.addr.SessionAddr? && w.connects(x.id)
  }

  /** The requests that can pass: verify requests, and the one reported. */
  predicate CanPass(x: Request, first: Option<nat>) {
    x.kind == Verify || first == Some(x.id)
  }

  /** Every request that passed and is gone was told so, or is being connected again under its id. */
  ghost predicate AllTold(b: Book, c: Book, w: World, first: Option<nat>) {
    forall x :: x in b.pending && CanPass(x, first) && x !in c.pending ==>
      if Reconnecting(x, w) then RequestProgress.InFlight(c, AsReconnect(x, w))
      else exists o :: Answer(x.id, o) in New(b, c) && Told(x, w, o)
  }

  /** Request x passed between the books and answer a tells its caller. */
  ghost predicate TellsPassed(b: Book, c: Book, w: World, first: Option<nat>, a: Answer, x: Request) {
    x in b.pending && CanPass(x, first) && x !in c.pending && a.id == x.id && Told(x, w, a.outcome)
  }

  /** Request y was an expired reconnect that made way for a new one. */
  ghost predicate TellsExpired(b: Book, c: Book, w: World, a: Answer, y: Request) {
    && y in b.pending && y.kind == Reconnect && y !in c.pending && a == Failure(y, AUTH_CONN_FAIL)
    && (w.now - y.addTime) % TWO_64 >= REQUEST_TIMEOUT
  }

  /** Nobody else is told anything. */
  ghost predicate OnlyTold(b: Book, c: Book, w: World, first: Option<nat>) {
    forall a :: a in New(b, c) ==>
      (exists x :: TellsPassed(b, c, w, first, a, x)) || exists y :: TellsExpired(b, c, w, a, y)
  }

  ghost predicate Refiled(b: Book, w: World, first: Option<nat>, z: Request) {
    exists y :: y in b.pending && CanPass(y, first) && z == AsReconnect(y, w)
  }

  /** Requests stay or are the reconnects of requests that passed; a reconnect just filed stays. */
  ghost predicate OnlyPassed(b: Book, c: Book, w: World, first: Option<nat>) {
    && Extends(b, c)
    && (forall x :: x in b.pending && first == Some(x.id) && x in c.pending ==> x == AsReconnect(x, w))
    && (forall z :: z in c.pending && z !in b.pending ==> Refiled(b, w, first, z))
    && (forall z :: z in b.pending && z.kind == Reconnect && z.addTime == w.now && first != Some(z.id) ==>
          z in c.pending && (z.id in b.started ==> z.id in c.started))
  }

  ghost predicate PassesOn(b: Book, c: Book, w: World, first: Option<nat>) {
    OnlyPassed(b, c, w, first) && AllTold(b, c, w, first) && OnlyTold(b, c, w, first)
  }

  lemma {:induction false} NewTwice(b: Book, c: Book, d: Book)
    requires Extends(b, c) && Extends(c, d)
    ensures Extends(b, d) && New(b, d) == New(b, c) + New(c, d)
  {
    assert d.answers[..|b.answers|] == d.answers[..|c.answers|][..|b.answers|];
    assert d.answers[|b.answers|..] == d.answers[..|c.answers|][|b.answers|..] + d.answers[|c.answers|..];
  }

  /** A request that passed or expired does not come back. */
  lemma {:induction false} StaysGone(b: Book, c: Book, d: Book, w: World, first: Option<nat>, x: Request)
    requires Once(b) && PassesOn(b, c, w, first) && PassesOn(c, d, w, None) && x in b.pending && x !in c.pending
    ensures x !in d.pending
  {
    forall y | y in c.pending && CanPass(y, None) ensures x != AsReconnect(y, w) {
      if x.id == y.id {
        RequestProgress.PendingOnce(b, x, y);
      }
    }
  }

  lemma {:induction false} ToldTwice(b: Book, c: Book, d: Book, w: World, first: Option<nat>)
    requires Once(b) && PassesOn(b, c, w, first) && PassesOn(c, d, w, None)
    ensures AllTold(b, d, w, first)
  {
    NewTwice(b, c, d);
    forall x | x in b.pending && CanPass(x, first) && x !in d.pending
      ensures if Reconnecting(x, w) then RequestProgress.InFlight(d, AsReconnect(x, w))
              else exists o :: Answer(x.id, o) in New(b, d) && Told(x, w, o)
    {
      if x in c.pending {
        assert CanPass(x, None);
      }
    }
  }

  lemma {:induction false} OnlyTwice(b: Book, c: Book, d: Book, w: World, first: Option<nat>)
    requires Once(b) && PassesOn(b, c, w, first) && PassesOn(c, d, w, None)
    ensures OnlyTold(b, d, w, first)
  {
    NewTwice(b, c, d);
    forall a | a in New(b, d)
      ensures (exists x :: TellsPassed(b, d, w, first, a, x)) || exists y :: TellsExpired(b, d, w, a, y)
    {
      if a in New(b, c) {
        if x :| TellsPassed(b, c, w, first, a, x) {
          StaysGone(b, c, d, w, first, x);
          assert TellsPassed(b, d, w, first, a, x);
        } else {
          var y :| TellsExpired(b, c, w, a, y);
          StaysGone(b, c, d, w, first, y);
          assert TellsExpired(b, d, w, a, y);
        }
      } else {
        assert a in New(c, d);
        if x :| TellsPassed(c, d, w, None, a, x) {
          assert TellsPassed(b, d, w, first, a, x);
        } else {
          var y :| TellsExpired(c, d, w, a, y);
          assert TellsExpired(b, d, w, a, y);
        }
      }
    }
  }

  lemma {:induction false} PassedTwice(b: Book, c: Book, d: Book, w: World, first: Option<nat>)
    requires Once(b) && PassesOn(b, c, w, first) && PassesOn(c, d, w, None)
    ensures OnlyPassed(b, d, w, first)
  {
    NewTwice(b, c, d);
    forall z | z in d.pending && z !in b.pending ensures Refiled(b, w, first, z) {
      if z !in c.pending {
        var y :| y in c.pending && CanPass(y, None) && z == AsReconnect(y, w);
        assert y in b.pending && CanPass(y, first);
      }
    }
    forall x | x in b.pending && first == Some(x.id) && x in d.pending ensures x == AsReconnect(x, w) {
      if x !in c.pending {
        StaysGone(b, c, d, w, first, x);
      }
    }
  }

  // ----- one round -----

  /** What a round leaves: request r is gone, but for its reconnect; the reconnects it found expired are gone and
      told. */
  ghost predicate Round(b: Book, r: Request, w: World, c: Book, again: bool, told: seq<Answer>) {
    var r' := AsReconnect(r, w);
    && Extends(b, c)
    && (forall x :: x in c.pending ==> (x in b.pending && x != r) || (again && x == r'))
    && (forall x :: x in b.pending && x != r && !Stale(r', x) ==>
          x in c.pending && (x.id in b.started ==> x.id in c.started))
    && (again ==> RequestProgress.InFlight(c, r'))
    && (forall a :: a in told ==> a in New(b, c))
    && (forall a :: a in New(b, c) ==> a in told || Evicts(b, c, r', a))
  }

  /** The answer tells an expired request that it made way. */
  ghost predicate Evicts(b: Book, c: Book, r': Request, a: Answer) {
    exists y :: y in b.pending && y !in c.pending && Stale(r', y) && a == Failure(y, AUTH_CONN_FAIL)
  }

  lemma {:induction false} RoundPasses(b: Book, r: Request, w: World, c: Book, told: seq<Answer>, first: Option<nat>)
    requires Once(b) && r in b.pending && CanPass(r, first) && (first.Some? ==> first.value == r.id)
    requires Round(b, r, w, c, Reconnecting(r, w), told)
    requires !Reconnecting(r, w) ==> exists o :: Answer(r.id, o) in told
    requires forall a :: a in told ==> a.id == r.id && Told(r, w, a.outcome) && !Reconnecting(r, w)
    ensures PassesOn(b, c, w, first)
  {
    var r' := AsReconnect(r, w);
    forall x | x in b.pending && x.id == r.id ensures x == r {
      RequestProgress.PendingOnce(b, x, r);
    }
    assert forall y :: Stale(r', y) ==>
        y.kind == Reconnect && y.id != r.id && (w.now - y.addTime) % TWO_64 >= REQUEST_TIMEOUT;
    forall a | a in New(b, c)
      ensures (exists x :: TellsPassed(b, c, w, first, a, x)) || exists y :: TellsExpired(b, c, w, a, y)
    {
      if a in told {
        assert TellsPassed(b, c, w, first, a, r);
      } else {
        var y :| y in b.pending && y !in c.pending && Stale(r', y) && a == Failure(y, AUTH_CONN_FAIL);
        assert TellsExpired(b, c, w, a, y);
      }
    }
  }

  lemma {:induction false} DropMembers(b: Book, r: Request)
    requires Once(b) && r in b.pending
    ensures forall x :: x in Remove(b.pending, r.id) <==> x in b.pending && x != r
    ensures forall x :: x in b.pending && x.id == r.id ==> x == r
  {
    forall x ensures x in Remove(b.pending, r.id) <==> x in b.pending && x != r
             ensures x in b.pending && x.id == r.id ==> x == r {
      assert Ids(b.pending)[r.id] <= Tally(b)[r.id];
      RequestProgress.RemoveMembers(b.pending, r.id, x);
      if x in b.pending && x.id == r.id {
        RequestProgress.PendingOnce(b, x, r);
      }
    }
  }

  lemma {:induction false} SettleRound(b: Book, r: Request, w: World, o: Outcome)
    requires Once(b) && r in b.pending
    ensures Round(b, r, w, Settle(b, Answer(r.id, o)), false, [Answer(r.id, o)])
    ensures var b0 := b.(pending := Remove(b.pending, r.id));
            Round(b, r, w, Reply(b0, Answer(r.id, o)), false, [Answer(r.id, o)])
  {
    DropMembers(b, r);
    assert New(b, Settle(b, Answer(r.id, o))) == [Answer(r.id, o)];
  }

  lemma {:induction false} FailuresOf(items: seq<Request>, r: Request, a: Answer)
    requires a in Failures(items, StaleFor(r))
    ensures exists y :: y in items && Stale(r, y) && a == Failure(y, AUTH_CONN_FAIL)
  {
    if Stale(r, items[0]) && a == Failure(items[0], AUTH_CONN_FAIL) {
      assert items[0] in items;
    } else {
      FailuresOf(items[1..], r, a);
      var y :| y in items[1..] && Stale(r, y) && a == Failure(y, AUTH_CONN_FAIL);
      assert y in items;
    }
  }

  /** Filing the reconnect of a request just taken off. */
  ghost predicate Filed(b: Book, r: Request, w: World, c: Book) {
    var r' := AsReconnect(r, w);
    && Extends(b, c)
    && (forall x :: x in c.pending <==> (x in b.pending && x != r && !Stale(r', x)) || x == r')
    && (forall x :: x in b.pending && x != r && x.id in b.started ==> x.id in c.started)
    && (forall a :: a in New(b, c) ==>
          exists y :: y in b.pending && y != r && Stale(r', y) && a == Failure(y, AUTH_CONN_FAIL))
  }

  lemma {:induction false} AddFiles(b: Book, r: Request, w: World)
    requires Once(b) && r in b.pending
    ensures Filed(b, r, w, Add(b.(pending := Remove(b.pending, r.id)), AsReconnect(r, w)))
  {
    var b0, r' := b.(pending := Remove(b.pending, r.id)), AsReconnect(r, w);
    var c := Add(b0, r');
    DropMembers(b, r);
    forall x ensures x in c.pending <==> (x in b.pending && x != r && !Stale(r', x)) || x == r' {
      RequestProgress.AddedMembers(b0, r', x);
    }
    assert New(b, c) == Failures(b0.pending + [r'], StaleFor(r'));
    forall a | a in New(b, c)
      ensures exists y :: y in b.pending && y != r && Stale(r', y) && a == Failure(y, AUTH_CONN_FAIL)
    {
      FailuresOf(b0.pending + [r'], r', a);
    }
  }

  /** The reconnect was filed and is in flight. */
  lemma {:induction false} StartedRound(b: Book, r: Request, w: World, c: Book)
    requires Filed(b, r, w, c)
    ensures Round(b, r, w, Started(c, r.id), true, [])
  {
    FiledEvicts(b, r, w, c, Started(c, r.id));
  }

  lemma {:induction false} FiledEvicts(b: Book, r: Request, w: World, c: Book, d: Book)
    requires Filed(b, r, w, c) && forall x :: x in d.pending ==> x in c.pending
    ensures forall a :: a in New(b, c) ==> Evicts(b, d, AsReconnect(r, w), a)
  {
    var r' := AsReconnect(r, w);
    forall a | a in New(b, c) ensures Evicts(b, d, r', a) {
      var y :| y in b.pending && y != r && Stale(r', y) && a == Failure(y, AUTH_CONN_FAIL);
      assert y !in c.pending;
    }
  }

  /** It was filed, taken off again, and its caller told. */
  lemma {:induction false} DroppedRound(b: Book, r: Request, w: World, c: Book, o: Outcome)
    requires Once(b) && r in b.pending && Filed(b, r, w, c) && Once(c)
    ensures var d := Settle(c, Answer(r.id, o));
            && d == Reply(c.(pending := Remove(c.pending, r.id)), Answer(r.id, o))
            && Round(b, r, w, d, false, [Answer(r.id, o)])
  {
    var r' := AsReconnect(r, w);
    var d := Settle(c, Answer(r.id, o));
    DropMembers(b, r);
    DropMembers(c, r');
    FiledEvicts(b, r, w, c, d);
    assert New(b, d) == New(b, c) + [Answer(r.id, o)];
  }

  lemma {:induction false} SwitchBooks(b: Book, r: Request, w: World)
    requires Once(b) && r in b.pending && !r.addr.Unsupported?
    ensures var b0, r' := b.(pending := Remove(b.pending, r.id)), AsReconnect(r, w);
            Filed(b, r, w, Add(b0, r')) && Once(Add(b0, r')) && WaitNum(b0.pending + [r'], r') >= 1
  {
    var b0, r' := b.(pending := Remove(b.pending, r.id)), AsReconnect(r, w);
    AddFiles(b, r, w);
    InIds(b.pending, r);
    DropTally(b, r.id);
    RequestProgress.DroppedIsNew(b, r);
    OnceLess(b, b0, r.id);
    AddOnce(b0, r');
    CompareSymmetric(r'.addr, r'.addr);
    WaitNumAppend(b0.pending, r');
  }

  lemma {:induction false} SwitchRound(b: Book, r: Request, w: World, told: seq<Answer>)
    requires Once(b) && r in b.pending && NeedsReconnect(r) && !r.addr.Unsupported?
    requires told == if Reconnecting(r, w) then [] else [Answer(r.id, Refusal(r, w))]
    ensures Round(b, r, w, Pass(b, r, w), Reconnecting(r, w), told)
  {
    var b0, r' := b.(pending := Remove(b.pending, r.id)), AsReconnect(r, w);
    SwitchBooks(b, r, w);
    if !w.hasManager {
      SettleRound(b, r, w, OpenFailed(AUTH_CONN_FAIL));
    } else if Reconnecting(r, w) {
      StartedRound(b, r, w, Add(b0, r'));
    } else {
      DroppedRound(b, r, w, Add(b0, r'), Refusal(r, w));
    }
  }

  /** What a request that is not being connected again is told. */
  function Refusal(r: Request, w: World): Outcome {
    if !w.hasManager || !r.addr.SessionAddr? then OpenFailed(AUTH_CONN_FAIL)
    else if w.rebinds(r.id) then Opened
    else OpenFailed(AUTH_NOT_FOUND)
  }

  lemma {:induction false} SwitchPasses(b: Book, r: Request, w: World, first: Option<nat>)
    requires Once(b) && r in b.pending && CanPass(r, first) && (first.Some? ==> first.value == r.id)
    requires NeedsReconnect(r) && !r.addr.Unsupported?
    ensures PassesOn(b, Pass(b, r, w), w, first)
  {
    var told := if Reconnecting(r, w) then [] else [Answer(r.id, Refusal(r, w))];
    SwitchRound(b, r, w, told);
    RoundPasses(b, r, w, Pass(b, r, w), told, first);
  }

  lemma {:induction false} OnceLess(b: Book, b0: Book, id: nat)
    requires Once(b) && Tally(b0) + multiset{id} == Tally(b)
    ensures Once(b0)
  {
    forall k ensures Tally(b0)[k] <= 1 {
      assert Tally(b)[k] == (Tally(b0) + multiset{id})[k];
    }
  }

  lemma {:induction false} PassPasses(b: Book, r: Request, w: World, first: Option<nat>)
    requires Once(b) && r in b.pending && CanPass(r, first) && (first.Some? ==> first.value == r.id)
    requires !r.addr.Unsupported?
    ensures PassesOn(b, Pass(b, r, w), w, first)
  {
    if NeedsReconnect(r) {
      SwitchPasses(b, r, w, first);
    } else {
      var o := if r.callback == OnVerify then VerifyPassed else Opened;
      SettleRound(b, r, w, o);
      RoundPasses(b, r, w, Settle(b, Answer(r.id, o)), [Answer(r.id, o)], first);
    }
  }

  // ----- the whole drain -----

  lemma {:induction false} NothingPasses(b: Book, w: World)
    ensures PassesOn(b, b, w, None)
  {
    assert New(b, b) == [];
  }

  lemma {:induction false} DrainPasses(b: Book, addr: Address, w: World)
    requires Once(b)
    ensures PassesOn(b, Drain(b, addr, w), w, None)
    decreases VerifyCount(b.pending)
  {
    var next := FindVerify(b.pending, addr);
    FindVerifyIsIn(b.pending, addr);
    if next.None? {
      NothingPasses(b, w);
    } else {
      var r := next.value;
      PassShrinks(b, r, w);
      var c := Pass(b, r, w);
      PassPasses(b, r, w, None);
      DrainPasses(c, r.addr, w);
      var d := Drain(c, r.addr, w);
      ToldTwice(b, c, d, w, None);
      OnlyTwice(b, c, d, w, None);
      PassedTwice(b, c, d, w, None);
    }
  }

  /** When authentication of a request passed: it and every verify request that leaves the list with it is told so
      through its own callbacks - or is being connected again, or could not be - and no one else is told anything but
      reconnects that expired. */
  lemma {:induction false} PassedAnswers(b: Book, id: nat, w: World)
    requires Once(b) && AllSupported(b.pending) && Find(b.pending, id).Some?
    ensures PassesOn(b, ReportPassed(b, id, w), w, Some(id))
  {
    var r := Find(b.pending, id).value;
    FindIsIn(b.pending, id);
    PassTally(b, r, w);
    var c := Pass(b, r, w);
    PassPasses(b, r, w, Some(id));
    DrainPasses(c, r.addr, w);
    var d := Drain(c, r.addr, w);
    ToldTwice(b, c, d, w, Some(id));
    OnlyTwice(b, c, d, w, Some(id));
    PassedTwice(b, c, d, w, Some(id));
  }

  /** In every run. */
  lemma {:induction false} RunPassedAnswers(events: seq<Event>, id: nat, w: World)
    ensures Accounted(EMPTY)
    ensures var l := Run(EMPTY, events);
            && Once(l.book) && AllSupported(l.book.pending)
            && (Find(l.book.pending, id).Some? ==> PassesOn(l.book, Next(l, AuthPassed(id, w)).book, w, Some(id)))
  {
    assert Accounted(EMPTY);
    RunAccounts(EMPTY, events);
    var l := Run(EMPTY, events);
    AccountedOnce(l);
    if Find(l.book.pending, id).Some? {
      PassedAnswers(l.book, id, w);
    }
  }

  // ----- authentication failed -----

  /** The request could not be connected: no connection, or no session on a link that is connected already. */
  predicate CannotConnect(x: Request, w: World, code: int) {
    if x.addr.SessionAddr? then w.startAuth(x.id) == code && code != SOFTBUS_OK
    else !w.connects(x.id) && code == AUTH_CONN_FAIL
  }

  /** The answer tells a verify request that came after that it could not be connected. */
  ghost predicate TellsUnconnected(b: Book, w: World, a: Answer) {
    exists x, code :: x in b.pending && x.kind == Verify && CannotConnect(x, w, code) && a == Failure(x, code)
  }

  ghost predicate Answered(b: Book, c: Book, id: nat) {
    exists a :: a in New(b, c) && a.id == id
  }

  /** A failure: the caller is told the reason; then the next ones at the address that could not be connected, one after
      the other; who is told is gone, who is not told stays. */
  ghost predicate FailsOn(b: Book, c: Book, r: Request, reason: int, w: World) {
    && Extends(b, c) && New(b, c) != [] && New(b, c)[0] == Failure(r, reason)
    && (forall k :: 0 < k < |New(b, c)| ==> TellsUnconnected(b, w, New(b, c)[k]))
    && (forall x :: x in c.pending <==> x in b.pending && !Answered(b, c, x.id))
  }

  lemma {:induction false} SettleFails(b: Book, r: Request, reason: int, w: World)
    requires Once(b) && r in b.pending
    ensures FailsOn(b, Settle(b, Failure(r, reason)), r, reason, w)
  {
    var c := Settle(b, Failure(r, reason));
    DropMembers(b, r);
    assert New(b, c) == [Failure(r, reason)];
    assert Failure(r, reason) in New(b, c);
  }

  lemma {:induction false} FailsThen(b: Book, c: Book, d: Book, r: Request, reason: int, x: Request, code: int,
                                     w: World)
    requires FailsOn(b, c, r, reason, w) && FailsOn(c, d, x, code, w)
    requires x in c.pending && x.kind == Verify && CannotConnect(x, w, code)
    ensures FailsOn(b, d, r, reason, w)
  {
    NewTwice(b, c, d);
    assert TellsUnconnected(b, w, Failure(x, code));
    forall k | 0 < k < |New(b, d)| ensures TellsUnconnected(b, w, New(b, d)[k]) {
      if k >= |New(b, c)| {
        assert New(b, d)[k] == New(c, d)[k - |New(b, c)|];
        if k > |New(b, c)| {
          var y, n :| y in c.pending && y.kind == Verify && CannotConnect(y, w, n) && New(b, d)[k] == Failure(y, n);
          assert y in b.pending;
        }
      }
    }
    forall n: nat ensures Answered(b, d, n) <==> Answered(b, c, n) || Answered(c, d, n) {
      AnsweredTwice(b, c, d, n);
    }
  }

  lemma {:induction false} AnsweredTwice(b: Book, c: Book, d: Book, id: nat)
    requires New(b, d) == New(b, c) + New(c, d)
    ensures Answered(b, d, id) <==> Answered(b, c, id) || Answered(c, d, id)
  {
  }

  /** What ReportAuthRequestFailed tells whom. */
  lemma {:induction false} FailedAnswers(b: Book, id: nat, reason: int, w: World)
    requires Once(b) && Find(b.pending, id).Some?
    ensures FailsOn(b, ReportFailed(b, id, reason, w), Find(b.pending, id).value, reason, w)
    decreases |b.pending|
  {
    var r := Find(b.pending, id).value;
    FindIsIn(b.pending, id);
    SettleFails(b, r, reason, w);
    SettleTally(b, Failure(r, reason));
    RemoveShrinks(b.pending, id);
    var c := Settle(b, Failure(r, reason));
    FindVerifyIsIn(c.pending, r.addr);
    var next := FindVerify(c.pending, r.addr);
    if next.Some? {
      var x := next.value;
      var code := ConnectCode(x, w);
      if code == SOFTBUS_OK {
        assert New(b, Started(c, x.id)) == New(b, c);
      } else {
        RequestProgress.PendingFound(c, x);
        FailedAnswers(c, x.id, code, w);
        FailsThen(b, c, ReportFailed(c, x.id, code, w), r, reason, x, code, w);
      }
    }
  }

  // ----- connection results -----

  /** What the caller of a reconnect is told when its connection came up or did not. */
  function ReconnectOutcome(result: int, rebound: bool): Outcome {
    if result != SOFTBUS_OK then OpenFailed(result) else if rebound then Opened else OpenFailed(AUTH_NOT_FOUND)
  }

  /** A connection result, for the request it was made for: a reconnect is over and its caller told how; a verification
      whose connection or session could not be had fails; one that got its session goes on, and nobody is told. */
  lemma {:induction false} ConnectedAnswers(b: Book, id: nat, result: int, hasInfo: bool, w: World)
    requires Once(b)
    ensures var c, found := Connected(b, id, result, hasInfo, w), Find(b.pending, id);
            if found.None? then c == b
            else if found.value.kind == Reconnect && hasInfo then
              && Extends(b, c) && New(b, c) == [Answer(id, ReconnectOutcome(result, w.rebinds(id)))]
              && forall x :: x in c.pending <==> x in b.pending && x.id != id
            else
              var reason := if result != SOFTBUS_OK then result else if hasInfo then w.startAuth(id) else INVALID_PARAM;
              if reason != SOFTBUS_OK then FailsOn(b, c, found.value, reason, w)
              else c.pending == b.pending && c.answers == b.answers && c.started == b.started + {id}
  {
    var found := Find(b.pending, id);
    FindIsIn(b.pending, id);
    if found.Some? {
      DropMembers(b, found.value);
      FailedAnswers(b, id, result, w);
      FailedAnswers(b, id, if hasInfo then w.startAuth(id) else INVALID_PARAM, w);
      assert New(b, Settle(b, Answer(id, ReconnectOutcome(result, w.rebinds(id)))))
          == [Answer(id, ReconnectOutcome(result, w.rebinds(id)))];
    }
  }

  // ----- submitting -----

  /** Someone else is young enough to wait behind. */
  ghost predicate MustWait(b: Book, r: Request) {
    exists x :: x in b.pending && Counts(r, x)
  }

  lemma {:induction false} RejectMembers(b: Book, id: nat, addr: Address)
    ensures var c := RejectAll(b, id, addr);
            && Extends(b, c) && (forall x :: x in c.pending <==> x in b.pending && !Compare(x.addr, addr))
            && forall a :: a in New(b, c) <==> Rejects(b, id, addr, a)
  {
    var c := RejectAll(b, id, addr);
    assert New(b, c) == Failures(b.pending, OthersAt(addr, id));
    forall x ensures x in c.pending <==> x in b.pending && !Compare(x.addr, addr) {
      RequestProgress.KeepMembers(b.pending, AtAddress(addr), x);
    }
    forall a ensures a in New(b, c) <==> Rejects(b, id, addr, a) {
      FailuresIff(b.pending, OthersAt(addr, id), a);
    }
  }

  ghost predicate Rejects(b: Book, id: nat, addr: Address, a: Answer) {
    exists y :: y in b.pending && Compare(y.addr, addr) && y.id != id && a == Failure(y, AUTH_CONN_FAIL)
  }

  lemma {:induction false} FailuresIff(items: seq<Request>, fails: Request -> bool, a: Answer)
    ensures a in Failures(items, fails) <==> exists y :: y in items && fails(y) && a == Failure(y, AUTH_CONN_FAIL)
  {
    if items != [] {
      FailuresIff(items[1..], fails, a);
      assert items[0] in items;
      assert forall y :: y in items <==> y == items[0] || y in items[1..];
      if a in Failures(items[1..], fails) {
        var y :| y in items[1..] && fails(y) && a == Failure(y, AUTH_CONN_FAIL);
        assert y in items;
      }
    }
  }

  /** A submitted verification on a link the comparison knows, in terms of the book once it is filed: without the trust
      listener it is refused and not filed; behind others it waits; first in line it is connected or given its session,
      and if that fails everyone at its address is told so, the caller by the error returned - on a link connected
      already as after any failure. */
  lemma {:induction false} VerifyAnswers(b: Book, r: Request, w: World)
    requires Once(b) && r.id !in Tally(b) && r.kind == Verify && !r.addr.Unsupported?
    ensures var c, b1 := VerifyDevice(b, r, w), Add(b, r);
            if !w.listenerOk then
              c == Reply(b, Answer(r.id, Returned(AUTH_INIT_FAIL))) && VerifyCode(b, r, w) == AUTH_INIT_FAIL
            else if MustWait(b, r) then c == b1 && VerifyCode(b, r, w) == SOFTBUS_OK
            else if r.addr.SessionAddr? then
              && VerifyCode(b, r, w) == SOFTBUS_OK
              && if w.startAuth(r.id) == SOFTBUS_OK then c == Started(b1, r.id)
                 else FailsOn(b1, c, r, w.startAuth(r.id), w)
            else if w.connects(r.id) then c == Started(b1, r.id) && VerifyCode(b, r, w) == SOFTBUS_OK
            else
              && VerifyCode(b, r, w) == AUTH_CONN_FAIL && Extends(b1, c)
              && (forall x :: x in c.pending <==> x in b1.pending && !Compare(x.addr, r.addr))
              && forall a :: a in New(b1, c) <==>
                   a == Answer(r.id, Returned(AUTH_CONN_FAIL)) || Rejects(b1, r.id, r.addr, a)
  {
    CompareSymmetric(r.addr, r.addr);
    RequestProgress.WaitsForNobody(b.pending, r);
    if w.listenerOk && !MustWait(b, r) {
      var b1 := Add(b, r);
      AddOnce(b, r);
      AddHolds(b, r);
      RequestProgress.PendingFound(b1, r);
      if r.addr.SessionAddr? {
        FailedAnswers(b1, r.id, w.startAuth(r.id), w);
      } else if !w.connects(r.id) {
        var d := RejectAll(b1, r.id, r.addr);
        RejectMembers(b1, r.id, r.addr);
        assert New(b1, Reply(d, Answer(r.id, Returned(AUTH_CONN_FAIL))))
            == New(b1, d) + [Answer(r.id, Returned(AUTH_CONN_FAIL))];
      }
    }
  }

  /** Opening a connection: on links whose managers are looked up, the caller gets what there is or an error; a direct
      link that is up is handed out; what cannot be opened is refused. The other cases submit a verification or a
      reconnect. */
  lemma {:induction false} OpenAnswers(b: Book, e: Event)
    requires e.OpenConn?
    ensures var t := TypeOf(e.addr);
            && (t in {Wifi, SessionKey, Usb} && !e.addr.Unsupported? ==>
                  Open(b, e) == Reply(b, Answer(e.id, if e.active then Opened else Returned(AUTH_NOT_FOUND))))
            && (t in {P2p, EnhancedP2p} && !e.addr.Unsupported? ==>
                  Open(b, e) == if e.active then Reply(b, Answer(e.id, Opened))
                                else VerifyDevice(b, OpenRequest(e), e.w))
            && (t in {Br, Ble, Sle} && !e.addr.Unsupported? && !(e.active && e.hasKey) ==>
                  Open(b, e) == VerifyDevice(b, OpenRequest(e), e.w))
            && (t in {Br, Ble, Sle} && !e.addr.Unsupported? && e.active && e.hasKey ==>
                  Open(b, e) == Reopen(b, OpenRequest(e), e.w))
            && (e.addr.SessionAddr? || e.addr.Unsupported? ==>
                  Open(b, e) == Reply(b, Answer(e.id, Returned(INVALID_PARAM))))
  {
  }

  /** Opening a connection to a device that is authenticated already: without its manager the call fails; the reconnect
      is filed and in flight if it can be connected, and otherwise taken off again and the call fails. */
  lemma {:induction false} ReopenAnswers(b: Book, r: Request, w: World)
    requires Once(b) && r.id !in Tally(b) && !r.addr.Unsupported? && !r.addr.SessionAddr?
    ensures var c, b1 := Reopen(b, r, w), Add(b, AsReconnect(r, w));
            if !w.hasManager then c == Reply(b, Answer(r.id, Returned(AUTH_NOT_FOUND)))
            else if w.connects(r.id) then c == Started(b1, r.id) && RequestProgress.InFlight(c, AsReconnect(r, w))
            else
              && Extends(b1, c) && New(b1, c) == [Answer(r.id, Returned(AUTH_CONN_FAIL))]
              && forall x :: x in c.pending <==> x in b1.pending && x.id != r.id
  {
    var r', b1 := AsReconnect(r, w), Add(b, AsReconnect(r, w));
    CompareSymmetric(r'.addr, r'.addr);
    WaitNumAppend(b.pending, r');
    AddHolds(b, r');
    AddOnce(b, r');
    DropMembers(b1, r');
  }
}
