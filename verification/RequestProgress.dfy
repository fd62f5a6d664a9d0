/** Whether the requests that wait for an address wait for something: a verify request whose connection or
    authentication session is under way. */
module RequestProgress {
  import opened Common
  import opened Addresses
  import opened Requests
  import opened RequestRuns

  /** A connection or a session was started for the request, and it has not been answered yet. */
  predicate InFlight(b: Book, r: Request) {
    r in b.pending && r.id in b.started
  }

  /** When requests wait to be verified at the address, one of them is in flight. */
  ghost predicate Served(b: Book, addr: Address) {
    NoneVerifiesAt(b.pending, addr) || exists r :: InFlight(b, r) && VerifiesAt(r, addr)
  }

  /** The verify requests at the address are the same in both books, and the same ones are in flight. */
  ghost predicate Untouched(b: Book, c: Book, addr: Address) {
    forall r :: VerifiesAt(r, addr) ==> (r in b.pending <==> r in c.pending) && (InFlight(b, r) <==> InFlight(c, r))
  }

  lemma {:induction false} UntouchedServes(b: Book, c: Book, addr: Address)
    requires Untouched(b, c, addr)
    ensures Served(b, addr) <==> Served(c, addr)
  {
    assert NoneVerifiesAt(b.pending, addr) <==> forall r :: r in b.pending ==> !VerifiesAt(r, addr);
    assert NoneVerifiesAt(c.pending, addr) <==> forall r :: r in c.pending ==> !VerifiesAt(r, addr);
  }

  // ----- addresses with one key -----

  lemma {:induction false} SameKey(a: Address, b: Address, c: Address)
    requires OneKey(a) && Compare(b, a) && Compare(c, b)
    ensures Compare(c, a)
  {
    CompareTransitive(c, b, a);
  }

  lemma {:induction false} OtherKey(a: Address, b: Address, c: Address)
    requires OneKey(a) && !Compare(b, a) && Compare(c, b)
    ensures !Compare(c, a)
  {
    if Compare(c, a) {
      CompareSymmetric(b, c);
      CompareTransitive(b, c, a);
    }
  }

  // ----- the list -----

  lemma {:induction false} RemoveMembers(items: seq<Request>, id: nat, x: Request)
    requires Ids(items)[id] <= 1
    ensures x in Remove(items, id) <==> x in items && x.id != id
  {
    if items == [] {
    } else if items[0].id == id {
      FindIsIn(items[1..], id);
      if x in items[1..] {
        InIds(items[1..], x);
      }
    } else {
      RemoveMembers(items[1..], id, x);
    }
  }

  lemma {:induction false} KeepMembers(items: seq<Request>, drop: Request -> bool, x: Request)
    ensures x in Keep(items, drop) <==> x in items && !drop(x)
  {
    if items != [] {
      KeepMembers(items[1..], drop, x);
    }
  }

  lemma {:induction false} PendingOnce(b: Book, x: Request, y: Request)
    requires Once(b) && x in b.pending && y in b.pending && x.id == y.id
    ensures x == y
  {
    assert Ids(b.pending)[x.id] <= Tally(b)[x.id];
    FindUnique(b.pending, x);
    FindUnique(b.pending, y);
  }

  lemma {:induction false} PendingFound(b: Book, r: Request)
    requires Once(b) && r in b.pending
    ensures Find(b.pending, r.id) == Some(r)
  {
    assert Ids(b.pending)[r.id] <= Tally(b)[r.id];
    FindUnique(b.pending, r);
  }

  /** A new id is not pending. */
  lemma {:induction false} NewIsNotPending(b: Book, id: nat, x: Request)
    requires id !in Tally(b) && x in b.pending
    ensures x.id != id
  {
    InIds(b.pending, x);
  }

  /** Taking off the list a request that does not verify at the address. */
  lemma {:induction false} RemoveUntouched(b: Book, r: Request, a: Address)
    requires Once(b) && r in b.pending && !VerifiesAt(r, a)
    ensures Untouched(b, b.(pending := Remove(b.pending, r.id)), a)
  {
    forall x | VerifiesAt(x, a) ensures x in Remove(b.pending, r.id) <==> x in b.pending {
      assert Ids(b.pending)[r.id] <= Tally(b)[r.id];
      RemoveMembers(b.pending, r.id, x);
      if x in b.pending && x.id == r.id {
        PendingOnce(b, x, r);
      }
    }
  }

  // ----- failing -----

  lemma {:induction false} StartedUntouched(b: Book, r: Request, a: Address)
    requires Once(b) && r in b.pending && !VerifiesAt(r, a)
    ensures Untouched(b, Started(b, r.id), a)
  {
    forall x | VerifiesAt(x, a) && x in b.pending ensures x.id != r.id {
      if x.id == r.id {
        PendingOnce(b, x, r);
      }
    }
  }

  /** After a failure the requests that wait at the address have one in flight again, whoever was in flight
      before; other addresses are left alone. */
  lemma {:induction false} FailureHandsOver(b: Book, id: nat, reason: int, w: World, a: Address)
    requires Once(b) && Find(b.pending, id).Some? && OneKey(a)
    ensures var after := ReportFailed(b, id, reason, w);
            if Compare(Find(b.pending, id).value.addr, a) then Served(after, a) else Untouched(b, after, a)
    decreases |b.pending|
  {
    var r := Find(b.pending, id).value;
    var b1 := Settle(b, Failure(r, reason));
    FindIsIn(b.pending, id);
    RemoveShrinks(b.pending, id);
    SettleTally(b, Failure(r, reason));
    if !Compare(r.addr, a) {
      RemoveUntouched(b, r, a);
    }
    FindVerifyIsIn(b1.pending, r.addr);
    var next := FindVerify(b1.pending, r.addr);
    if next.None? {
      if Compare(r.addr, a) {
        NoneVerifiesAtEither(b1.pending, a, r.addr);
      }
    } else {
      HandOver(b1, r, next.value, w, a);
      if ConnectCode(next.value, w) != SOFTBUS_OK {
        PendingFound(b1, next.value);
        FailureHandsOver(b1, next.value.id, ConnectCode(next.value, w), w, a);
      }
    }
  }

  lemma {:induction false} HandOver(b1: Book, r: Request, next: Request, w: World, a: Address)
    requires Once(b1) && next in b1.pending && VerifiesAt(next, r.addr) && OneKey(a)
    ensures Compare(next.addr, a) <==> Compare(r.addr, a)
    ensures if Compare(r.addr, a) then Served(Started(b1, next.id), a) else Untouched(b1, Started(b1, next.id), a)
  {
    if Compare(r.addr, a) {
      SameKey(a, r.addr, next.addr);
      assert InFlight(Started(b1, next.id), next) && VerifiesAt(next, a);
    } else {
      OtherKey(a, r.addr, next.addr);
      StartedUntouched(b1, next, a);
    }
  }

  // ----- passing -----

  lemma {:induction false} ReconnectUntouched(b: Book, r: Request, w: World, a: Address)
    requires r.kind == Reconnect && r.id !in Tally(b)
    ensures Untouched(b, StartReconnect(b, r, w).0, a)
  {
    var b1 := Add(b, r);
    forall x | VerifiesAt(x, a)
      ensures (x in b.pending <==> x in b1.pending) && (x in b.pending ==> x.id != r.id)
      ensures x in Remove(b1.pending, r.id) <==> x in b1.pending
    {
      KeepMembers(b.pending + [r], StaleFor(r), x);
      if x in b.pending {
        NewIsNotPending(b, r.id, x);
      }
      RemoveOther(b1.pending, r.id, x);
    }
  }

  lemma {:induction false} RemoveOther(items: seq<Request>, id: nat, x: Request)
    requires x in items ==> x.id != id
    ensures x in Remove(items, id) <==> x in items
  {
    if items != [] && items[0].id != id {
      RemoveOther(items[1..], id, x);
    }
  }

  lemma {:induction false} PassUntouched(b: Book, r: Request, w: World, a: Address)
    requires Once(b) && r in b.pending && !VerifiesAt(r, a)
    ensures Untouched(b, Pass(b, r, w), a)
  {
    RemoveUntouched(b, r, a);
    var b0 := b.(pending := Remove(b.pending, r.id));
    DroppedIsNew(b, r);
    ReconnectUntouched(b0, AsReconnect(r, w), w, a);
  }

  lemma {:induction false} DroppedIsNew(b: Book, r: Request)
    requires Once(b) && r in b.pending
    ensures r.id !in Tally(b.(pending := Remove(b.pending, r.id)))
  {
    InIds(b.pending, r);
    DropTally(b, r.id);
    assert Tally(b)[r.id] <= 1;
  }

  lemma {:induction false} DrainUntouched(b: Book, addr: Address, w: World, a: Address)
    requires Once(b) && OneKey(a) && !Compare(addr, a)
    ensures Untouched(b, Drain(b, addr, w), a)
    decreases VerifyCount(b.pending)
  {
    var next := FindVerify(b.pending, addr);
    FindVerifyIsIn(b.pending, addr);
    if next.Some? {
      PassShrinks(b, next.value, w);
      OtherKey(a, addr, next.value.addr);
      PassUntouched(b, next.value, w, a);
      DrainUntouched(Pass(b, next.value, w), next.value.addr, w, a);
    }
  }

  lemma {:induction false} PassedServes(b: Book, id: nat, w: World, a: Address)
    requires Once(b) && AllSupported(b.pending) && Find(b.pending, id).Some? && OneKey(a)
    ensures var after := ReportPassed(b, id, w);
            if Compare(Find(b.pending, id).value.addr, a) then Served(after, a) else Untouched(b, after, a)
  {
    var r := Find(b.pending, id).value;
    FindIsIn(b.pending, id);
    PassTally(b, r, w);
    if Compare(r.addr, a) {
      PassedEmpties(b, id, w);
      NoneVerifiesAtEither(ReportPassed(b, id, w).pending, a, r.addr);
    } else {
      PassUntouched(b, r, w, a);
      DrainUntouched(Pass(b, r, w), r.addr, w, a);
    }
  }

  // ----- submitting -----

  /** Request r queues behind others of its kind, and none of those it queues behind is in flight. */
  ghost predicate Strands(b: Book, r: Request) {
    (exists x :: x in b.pending && Counts(r, x)) && forall x :: InFlight(b, x) ==> !Counts(r, x)
  }

  lemma {:induction false} WaitsForNobody(items: seq<Request>, r: Request)
    requires Compare(r.addr, r.addr)
    ensures WaitNum(items + [r], r) == 1 <==> forall x :: x in items ==> !Counts(r, x)
    ensures WaitNum(items + [r], r) >= 1
  {
    if items == [] {
      assert items + [r] == [r] && [r][1..] == [];
    } else {
      assert (items + [r])[1..] == items[1..] + [r];
      WaitsForNobody(items[1..], r);
      assert forall x :: x in items <==> x == items[0] || x in items[1..];
    }
  }

  lemma {:induction false} AddedMembers(b: Book, r: Request, x: Request)
    ensures x in Add(b, r).pending <==> (x in b.pending && !Stale(r, x)) || x == r
  {
    KeepMembers(b.pending + [r], StaleFor(r), x);
  }

  lemma {:induction false} AddUntouched(b: Book, r: Request, a: Address)
    requires r.id !in Tally(b) && OneKey(a) && !Compare(r.addr, a)
    ensures Untouched(b, Add(b, r), a)
  {
    forall x | VerifiesAt(x, a)
      ensures (x in b.pending <==> x in Add(b, r).pending) && (x in b.pending ==> x.id != r.id)
    {
      AddedMembers(b, r, x);
      if Same(r, x) {
        CompareSymmetric(r.addr, x.addr);
        CompareTransitive(r.addr, x.addr, a);
      }
      if x in b.pending {
        NewIsNotPending(b, r.id, x);
      }
    }
  }

  lemma {:induction false} RejectUntouched(b: Book, id: nat, addr: Address, a: Address)
    requires OneKey(a) && !Compare(addr, a)
    ensures Untouched(b, RejectAll(b, id, addr), a)
  {
    forall x | VerifiesAt(x, a) ensures x in b.pending <==> x in RejectAll(b, id, addr).pending {
      KeepMembers(b.pending, AtAddress(addr), x);
      if Compare(x.addr, addr) {
        CompareSymmetric(x.addr, addr);
        CompareTransitive(addr, x.addr, a);
      }
    }
  }

  lemma {:induction false} RejectServes(b: Book, id: nat, addr: Address, a: Address)
    requires OneKey(a) && Compare(addr, a)
    ensures Served(RejectAll(b, id, addr), a)
  {
    var after := RejectAll(b, id, addr).pending;
    forall i | 0 <= i < |after| ensures !VerifiesAt(after[i], addr) {
      KeepMembers(b.pending, AtAddress(addr), after[i]);
    }
    NoneVerifiesAtEither(after, a, addr);
  }

  /** The request queues up: it is served exactly when one of those before it is in flight. */
  lemma {:induction false} QueuedServes(b: Book, r: Request, a: Address)
    requires Once(b) && r.id !in Tally(b) && r.kind == Verify && OneKey(a) && Compare(r.addr, a)
    ensures Served(Add(b, r), a) <==> exists x :: InFlight(b, x) && Counts(r, x)
  {
    var b1 := Add(b, r);
    AddHolds(b, r);
    assert VerifiesAt(r, a) && !NoneVerifiesAt(b1.pending, a) by {
      var i :| 0 <= i < |b1.pending| && b1.pending[i] == r;
    }
    forall x ensures InFlight(b1, x) && VerifiesAt(x, a) <==> InFlight(b, x) && Counts(r, x) {
      AddedMembers(b, r, x);
      SameAddress(r, x, a);
      if x in b.pending {
        NewIsNotPending(b, r.id, x);
      }
    }
  }

  lemma {:induction false} SameAddress(r: Request, x: Request, a: Address)
    requires r.kind == Verify && OneKey(a) && Compare(r.addr, a)
    ensures VerifiesAt(x, a) <==> Same(r, x)
  {
    CompareSymmetric(r.addr, a);
    CompareSymmetric(r.addr, x.addr);
    if VerifiesAt(x, a) {
      CompareTransitive(x.addr, a, r.addr);
    }
    if Same(r, x) {
      SameKey(a, r.addr, x.addr);
    }
  }

  /** A request that waits for nobody is connected, or fails with everyone at its address. */
  lemma {:induction false} FirstServes(b: Book, r: Request, w: World, a: Address)
    requires Once(b) && r.id !in Tally(b) && r.kind == Verify && OneKey(a) && Compare(r.addr, a) && w.listenerOk
    requires WaitNum(b.pending + [r], r) == 1
    ensures Served(VerifyDevice(b, r, w), a)
  {
    var b1 := Add(b, r);
    AddHolds(b, r);
    AddOnce(b, r);
    PendingFound(b1, r);
    if ConnectCode(r, w) == SOFTBUS_OK {
      assert InFlight(Started(b1, r.id), r) && VerifiesAt(r, a);
    } else if r.addr.SessionAddr? {
      FailureHandsOver(b1, r.id, w.startAuth(r.id), w, a);
    } else {
      RejectServes(b1, r.id, r.addr, a);
    }
  }

  lemma {:induction false} VerifyUntouched(b: Book, r: Request, w: World, a: Address)
    requires Once(b) && r.id !in Tally(b) && r.kind == Verify && OneKey(a) && (w.listenerOk ==> !Compare(r.addr, a))
    ensures Untouched(b, VerifyDevice(b, r, w), a)
  {
    if w.listenerOk {
      var b1 := Add(b, r);
      AddUntouched(b, r, a);
      AddHolds(b, r);
      AddOnce(b, r);
      PendingFound(b1, r);
      if ConnectCode(r, w) == SOFTBUS_OK {
        StartedUntouched(b1, r, a);
      } else if r.addr.SessionAddr? {
        FailureHandsOver(b1, r.id, w.startAuth(r.id), w, a);
      } else {
        RejectUntouched(b1, r.id, r.addr, a);
      }
    }
  }

  /** A submitted verification keeps its address served unless it strands it. */
  lemma {:induction false} VerifyServes(b: Book, r: Request, w: World, a: Address)
    requires Once(b) && r.id !in Tally(b) && r.kind == Verify && OneKey(a) && Compare(r.addr, a) && w.listenerOk
    ensures Served(VerifyDevice(b, r, w), a) <==> !Strands(b, r)
  {
    CompareSymmetric(r.addr, a);
    CompareSymmetric(r.addr, r.addr);
    WaitsForNobody(b.pending, r);
    if WaitNum(b.pending + [r], r) == 1 {
      FirstServes(b, r, w, a);
    } else {
      QueuedServes(b, r, a);
    }
  }

  // ----- one event -----

  /** The verification an event submits. */
  function Verification(e: Event): Option<Request> {
    match e
    case OpenConn(_, addr, active, hasKey, _) =>
      if (WayOf(addr) == Paired && !(active && hasKey)) || (WayOf(addr) == Direct && !active)
      then Some(OpenRequest(e)) else None
    case StartVerify(id, addr, callback, lnn, w) => Some(Request(id, Verify, callback, lnn, addr, w.now))
    case _ => None
  }

  /** The event submits a verification at the address. */
  predicate VerifiesNow(e: Event, a: Address) {
    Verification(e).Some? && e.w.listenerOk && Compare(Verification(e).value.addr, a)
  }

  /** The event settles or advances a request at the address; a reconnect that is over concerns no other. */
  predicate Reports(b: Book, e: Event, a: Address) {
    !Submits(e) && var r := Find(b.pending, e.id);
    r.Some? && Compare(r.value.addr, a) && !(e.ConnectResult? && r.value.kind == Reconnect && e.hasInfo)
  }

  ghost predicate StrandsAt(b: Book, e: Event, a: Address) {
    VerifiesNow(e, a) && Strands(b, Verification(e).value)
  }

  lemma {:induction false} SettledUntouched(b: Book, r: Request, answer: Answer, a: Address)
    requires Once(b) && r in b.pending && r.kind == Reconnect && answer.id == r.id
    ensures Untouched(b, Settle(b, answer), a)
  {
    RemoveUntouched(b, r, a);
  }

  lemma {:induction false} ConnectedServes(b: Book, id: nat, result: int, hasInfo: bool, w: World, a: Address)
    requires Once(b) && OneKey(a)
    ensures var after := Connected(b, id, result, hasInfo, w);
            if Reports(b, ConnectResult(id, result, hasInfo, w), a) then Served(after, a) else Untouched(b, after, a)
  {
    var r := Find(b.pending, id);
    FindIsIn(b.pending, id);
    if r.Some? {
      if r.value.kind == Reconnect && hasInfo {
        SettledUntouched(b, r.value, Answer(id, if result != SOFTBUS_OK then OpenFailed(result)
                                                else if w.rebinds(id) then Opened else OpenFailed(AUTH_NOT_FOUND)), a);
      } else {
        FailureHandsOver(b, id, result, w, a);
        FailureHandsOver(b, id, if hasInfo then w.startAuth(id) else INVALID_PARAM, w, a);
        BegunServes(b, r.value, a);
      }
    }
  }

  lemma {:induction false} BegunServes(b: Book, r: Request, a: Address)
    requires Once(b) && r in b.pending
    ensures r.kind == Verify ==>
              if Compare(r.addr, a) then Served(Started(b, r.id), a) else Untouched(b, Started(b, r.id), a)
  {
    if r.kind == Verify {
      if Compare(r.addr, a) {
        assert InFlight(Started(b, r.id), r) && VerifiesAt(r, a);
      } else {
        StartedUntouched(b, r, a);
      }
    }
  }

  lemma {:induction false} VerificationServes(b: Book, e: Event, a: Address)
    requires Once(b) && Submits(e) && e.id !in Tally(b) && OneKey(a) && Verification(e).Some?
    ensures var r := Verification(e).value;
            if VerifiesNow(e, a) then Served(VerifyDevice(b, r, e.w), a) <==> !Strands(b, r)
            else Untouched(b, VerifyDevice(b, r, e.w), a)
  {
    var r := Verification(e).value;
    if VerifiesNow(e, a) {
      VerifyServes(b, r, e.w, a);
    } else {
      VerifyUntouched(b, r, e.w, a);
    }
  }

  lemma {:induction false} OpenServes(b: Book, e: Event, a: Address)
    requires e.OpenConn? && Once(b) && e.id !in Tally(b) && OneKey(a)
    ensures if VerifiesNow(e, a) then Served(Open(b, e), a) <==> !Strands(b, Verification(e).value)
            else Untouched(b, Open(b, e), a)
  {
    if Verification(e).Some? {
      VerificationServes(b, e, a);
    } else {
      ReconnectUntouched(b, AsReconnect(OpenRequest(e), e.w), e.w, a);
    }
  }

  /** What one event does to an address, exactly. Submitting a verification there leaves it served unless it queues
      behind requests none of which is in flight; a report about a request there leaves it served in any case;
      everything else leaves it as it was. */
  lemma {:induction false} ServedAfter(b: Book, e: Event, a: Address)
    requires Once(b) && AllSupported(b.pending) && (Submits(e) ==> e.id !in Tally(b)) && OneKey(a)
    ensures Served(Handle(b, e), a) <==>
              if VerifiesNow(e, a) then !StrandsAt(b, e, a) else Reports(b, e, a) || Served(b, a)
  {
    match e
    case OpenConn(_, _, _, _, _) => OpenServes(b, e, a);
    case StartVerify(_, _, _, _, _) => VerificationServes(b, e, a);
    case ConnectResult(id, result, hasInfo, w) => ConnectedServes(b, id, result, hasInfo, w, a);
    case AuthPassed(id, w) =>
      if Find(b.pending, id).Some? {
        PassedServes(b, id, w, a);
      }
    case AuthFailed(id, reason, w) =>
      if Find(b.pending, id).Some? {
        FailureHandsOver(b, id, reason, w, a);
      }
    if Untouched(b, Handle(b, e), a) {
      UntouchedServes(b, Handle(b, e), a);
    }
  }

  // ----- runs -----

  /** The address is served after every event of the run. */
  ghost predicate AlwaysServed(l: Ledger, events: seq<Event>, a: Address)
    requires Accounted(l)
  {
    forall n :: 0 <= n <= |events| ==> Served(Run(l, events[..n]).book, a)
  }

  /** Some event of the run strands the address. */
  ghost predicate Stranding(l: Ledger, events: seq<Event>, a: Address)
    requires Accounted(l)
  {
    exists n :: 0 <= n < |events| && StrandsNext(Run(l, events[..n]), events[n], a)
  }

  ghost predicate StrandsNext(l: Ledger, e: Event, a: Address) {
    Admissible(l, e) && StrandsAt(l.book, e, a)
  }

  lemma {:induction false} RunSnoc(l: Ledger, events: seq<Event>, e: Event)
    requires Accounted(l)
    ensures Accounted(Run(l, events)) && Once(Run(l, events).book) && AllSupported(Run(l, events).book.pending)
    ensures Run(l, events + [e]) == if Admissible(Run(l, events), e) then Next(Run(l, events), e) else Run(l, events)
    decreases |events|
  {
    RunAccounts(l, events);
    AccountedOnce(Run(l, events));
    if events == [] {
      assert events + [e] == [e] && [e][1..] == [];
    } else {
      assert (events + [e])[1..] == events[1..] + [e];
      if Admissible(l, events[0]) {
        NextAccounts(l, events[0]);
        RunSnoc(Next(l, events[0]), events[1..], e);
      } else {
        RunSnoc(l, events[1..], e);
      }
    }
  }

  lemma {:induction false} NextServes(l: Ledger, e: Event, a: Address)
    requires Accounted(l) && Admissible(l, e) && OneKey(a) && Served(l.book, a)
    ensures Once(l.book) && AllSupported(l.book.pending) && (Served(Next(l, e).book, a) <==> !StrandsAt(l.book, e, a))
  {
    AccountedOnce(l);
    if Submits(e) {
      assert e.id !in multiset(l.calls.Keys);
    }
    ServedAfter(l.book, e, a);
  }

  /** Between a served address and a run's next event. */
  lemma {:induction false} PrefixServes(l: Ledger, events: seq<Event>, n: nat, a: Address)
    requires Accounted(l) && OneKey(a) && n < |events| && Served(Run(l, events[..n]).book, a)
    ensures Served(Run(l, events[..n + 1]).book, a) <==> !StrandsNext(Run(l, events[..n]), events[n], a)
  {
    assert events[..n + 1] == events[..n] + [events[n]];
    RunSnoc(l, events[..n], events[n]);
    if Admissible(Run(l, events[..n]), events[n]) {
      NextServes(Run(l, events[..n]), events[n], a);
    }
  }

  lemma {:induction false} UnstrandedServes(l: Ledger, events: seq<Event>, n: nat, a: Address)
    requires Accounted(l) && OneKey(a) && Served(l.book, a) && !Stranding(l, events, a) && n <= |events|
    ensures Served(Run(l, events[..n]).book, a)
  {
    if n == 0 {
      assert events[..0] == [];
    } else {
      UnstrandedServes(l, events, n - 1, a);
      PrefixServes(l, events, n - 1, a);
    }
  }

  /** Throughout a run the requests that wait at an address have one in flight, exactly if no submission ever
      queues behind requests that are all not in flight - which is to find the one in flight expired and another not. */
  lemma {:induction false} ServedUnlessStranded(events: seq<Event>, a: Address)
    requires OneKey(a)
    ensures Accounted(EMPTY) && (AlwaysServed(EMPTY, events, a) <==> !Stranding(EMPTY, events, a))
  {
    assert Accounted(EMPTY) && Served(EMPTY.book, a);
    if AlwaysServed(EMPTY, events, a) && Stranding(EMPTY, events, a) {
      var n :| 0 <= n < |events| && StrandsNext(Run(EMPTY, events[..n]), events[n], a);
      PrefixServes(EMPTY, events, n, a);
    }
    if !Stranding(EMPTY, events, a) {
      forall n | 0 <= n <= |events| ensures Served(Run(EMPTY, events[..n]).book, a) {
        UnstrandedServes(EMPTY, events, n, a);
      }
    }
  }

  /** At a served address, to strand it is to find every request in flight expired and some other one not. */
  lemma {:induction false} StrandsExpired(b: Book, r: Request, a: Address)
    requires Once(b) && r.id !in Tally(b) && r.kind == Verify && OneKey(a) && Compare(r.addr, a) && Served(b, a)
    ensures Strands(b, r) <==>
              && (exists x :: InFlight(b, x) && Stale(r, x))
              && (forall x :: InFlight(b, x) && Same(r, x) ==> Stale(r, x))
              && exists x :: x in b.pending && !InFlight(b, x) && Counts(r, x)
  {
    forall x ensures VerifiesAt(x, a) <==> Same(r, x) {
      SameAddress(r, x, a);
    }
    if Strands(b, r) {
      var x :| x in b.pending && Counts(r, x);
      assert VerifiesAt(x, a) && !NoneVerifiesAt(b.pending, a) by {
        var i :| 0 <= i < |b.pending| && b.pending[i] == x;
      }
    }
  }

  // ----- where the guarantee stops -----

  /** A world in which everything succeeds, at a time. */
  function Calm(now: Time): World {
    World(now, true, (id: nat) => true, (id: nat) => SOFTBUS_OK, true, (id: nat) => true, 0)
  }

  function Ask(id: nat, addr: Address, now: Time): Event {
    StartVerify(id, addr, OnVerify, true, Calm(now))
  }

  /** Twenty seconds apart three callers ask for the same address; nothing is heard of the first one's connection. */
  function ThreeCallers(addr: Address): seq<Event> {
    [Ask(1, addr, 0), Ask(2, addr, 20000), Ask(3, addr, 40000)]
  }

  function Asked(id: nat, addr: Address, now: Time): Request {
    Request(id, Verify, OnVerify, true, addr, now)
  }

  lemma {:induction false} ScanCons(item: Request, rest: seq<Request>, r: Request)
    ensures Keep([item] + rest, StaleFor(r)) == (if Stale(r, item) then [] else [item]) + Keep(rest, StaleFor(r))
    ensures Failures([item] + rest, StaleFor(r))
            == (if Stale(r, item) then [Failure(item, AUTH_CONN_FAIL)] else []) + Failures(rest, StaleFor(r))
    ensures WaitNum([item] + rest, r) == (if Counts(r, item) then 1 else 0) + WaitNum(rest, r)
  {
    assert ([item] + rest)[1..] == rest;
  }

  lemma {:induction false} FirstAsks(addr: Address)
    requires Compare(addr, addr)
    ensures VerifyDevice(Book([], [], {}), Asked(1, addr, 0), Calm(0)) == Book([Asked(1, addr, 0)], [], {1})
  {
    var r := Asked(1, addr, 0);
    ScanCons(r, [], r);
    assert [] + [r] == [r] + [] == [r];
  }

  lemma {:induction false} SecondAsks(addr: Address)
    requires Compare(addr, addr)
    ensures var a, b := Asked(1, addr, 0), Asked(2, addr, 20000);
            VerifyDevice(Book([a], [], {1}), b, Calm(20000)) == Book([a, b], [], {1})
  {
    var a, b := Asked(1, addr, 0), Asked(2, addr, 20000);
    ScanCons(b, [], b);
    ScanCons(a, [b], b);
    assert [b] + [] == [b] && [a] + [b] == [a, b];
  }

  lemma {:induction false} ThirdAsks(addr: Address)
    requires Compare(addr, addr)
    ensures var a, b, c := Asked(1, addr, 0), Asked(2, addr, 20000), Asked(3, addr, 40000);
            VerifyDevice(Book([a, b], [], {1}), c, Calm(40000)) == Book([b, c], [Failure(a, AUTH_CONN_FAIL)], {1})
  {
    var a, b, c := Asked(1, addr, 0), Asked(2, addr, 20000), Asked(3, addr, 40000);
    ScanCons(c, [], c);
    ScanCons(b, [c], c);
    ScanCons(a, [b, c], c);
    assert [c] + [] == [c] && [b] + [c] == [b, c] && [a] + [b, c] == [a, b] + [c];
  }

  /** One more caller asks. */
  lemma {:induction false} AskNext(events: seq<Event>, l: Ledger, id: nat, addr: Address, now: Time)
    requires Accounted(EMPTY) && Run(EMPTY, events) == l && id !in l.calls && Compare(addr, addr)
    ensures Run(EMPTY, events + [Ask(id, addr, now)])
         == Ledger(VerifyDevice(l.book, Asked(id, addr, now), Calm(now)), l.calls[id := OnVerify])
  {
    RunSnoc(EMPTY, events, Ask(id, addr, now));
  }

  lemma {:induction false} TwoHaveAsked(addr: Address)
    requires Compare(addr, addr)
    ensures Accounted(EMPTY)
    ensures Run(EMPTY, [Ask(1, addr, 0), Ask(2, addr, 20000)])
         == Ledger(Book([Asked(1, addr, 0), Asked(2, addr, 20000)], [], {1}), map[1 := OnVerify][2 := OnVerify])
  {
    assert Accounted(EMPTY);
    FirstAsks(addr);
    AskNext([], EMPTY, 1, addr, 0);
    SecondAsks(addr);
    var one := [Ask(1, addr, 0)];
    assert [] + one == one;
    AskNext(one, Ledger(Book([Asked(1, addr, 0)], [], {1}), map[1 := OnVerify]), 2, addr, 20000);
    assert one + [Ask(2, addr, 20000)] == [Ask(1, addr, 0), Ask(2, addr, 20000)];
  }

  lemma {:induction false} ThreeHaveAsked(addr: Address)
    requires Compare(addr, addr)
    ensures Accounted(EMPTY)
    ensures Run(EMPTY, ThreeCallers(addr)).book
         == Book([Asked(2, addr, 20000), Asked(3, addr, 40000)], [Failure(Asked(1, addr, 0), AUTH_CONN_FAIL)], {1})
  {
    var two := [Ask(1, addr, 0), Ask(2, addr, 20000)];
    TwoHaveAsked(addr);
    ThirdAsks(addr);
    AskNext(two, Run(EMPTY, two), 3, addr, 40000);
    assert ThreeCallers(addr) == two + [Ask(3, addr, 40000)];
  }

  /** Strands happen, on every link the comparison knows: when the second caller asks, the first is being connected;
      when the third asks, the first has expired and is told so, and the other two wait for nothing. */
  lemma {:induction false} EvictionStrands(addr: Address)
    requires !addr.Unsupported?
    ensures Accounted(EMPTY)
    ensures var b := Run(EMPTY, ThreeCallers(addr)[..2]).book;
            InFlight(b, Asked(1, addr, 0)) && Served(b, addr)
    ensures var b := Run(EMPTY, ThreeCallers(addr)).book;
            && b.pending == [Asked(2, addr, 20000), Asked(3, addr, 40000)]
            && (forall r :: !InFlight(b, r)) && !Served(b, addr)
  {
    CompareSymmetric(addr, addr);
    TwoHaveAsked(addr);
    ThreeHaveAsked(addr);
    assert ThreeCallers(addr)[..2] == [Ask(1, addr, 0), Ask(2, addr, 20000)];
    var first, second := Asked(1, addr, 0), Asked(2, addr, 20000);
    assert [first, second][0] == first && VerifiesAt(first, addr);
    assert [second, Asked(3, addr, 40000)][0] == second && VerifiesAt(second, addr);
  }

  /** The drain goes on from the address of the request it found last, so a request that matches the first
      address but not that one is left behind. */
  lemma {:induction false} DrainSkips(found: Request, missed: Request, addr: Address, w: World)
    requires found.id != missed.id && found.callback == OnVerify
    requires VerifiesAt(found, addr) && VerifiesAt(missed, addr) && !Compare(missed.addr, found.addr)
    ensures var b := Book([found, missed], [], {found.id});
            Once(b) && Drain(b, addr, w) == Book([missed], [Answer(found.id, VerifyPassed)], {found.id})
  {
    var b := Book([found, missed], [], {found.id});
    IdsAppend([found], [missed]);
    assert Ids([found]) == multiset{found.id} && Ids([missed]) == multiset{missed.id};
    assert b.pending == [found] + [missed];
    var b1 := Pass(b, found, w);
    assert b1.pending == [missed];
    assert FindVerify([missed], found.addr) == None;
    PassShrinks(b, found, w);
  }

  lemma {:induction false} SkippingStrands(found: Request, missed: Request, addr: Address, w: World)
    requires found.id != missed.id && found.callback == OnVerify
    requires VerifiesAt(found, addr) && VerifiesAt(missed, addr) && !Compare(missed.addr, found.addr)
    ensures var b := Book([found, missed], [], {found.id});
            Once(b) && Served(b, addr) && !Served(Drain(b, addr, w), addr)
  {
    DrainSkips(found, missed, addr, w);
    assert [found, missed][0] == found && InFlight(Book([found, missed], [], {found.id}), found);
    assert [missed][0] == missed;
  }

  /** So on the links whose addresses have two keys it can leave a verify request for its own address, with nothing
      in flight. */
  lemma {:induction false} DrainLeavesTwoKeyRequest(ble: bool, w: World)
    ensures exists b, addr: Address ::
              && Once(b) && (if ble then addr.BleAddr? else addr.SleAddr?)
              && Served(b, addr) && !Served(Drain(b, addr, w), addr)
  {
    TwoKeysNotTransitive();
    var a: Address, addr, c :| (if ble then a.BleAddr? else a.SleAddr?)
                               && Compare(a, addr) && Compare(addr, c) && !Compare(a, c);
    CompareSymmetric(addr, c);
    var found := Request(1, Verify, OnVerify, true, c, 0);
    var missed := Request(2, Verify, OnVerify, true, a, 0);
    SkippingStrands(found, missed, addr, w);
  }
}
