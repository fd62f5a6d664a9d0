/** Every run of the request list: what is submitted is answered exactly once, through its own callbacks, or
    still pending. */
module RequestRuns {
  import opened Common
  import opened Addresses
  import opened Requests
  import opened RequestOutcomes

  datatype Event =
    /** AuthDeviceOpenConn; `active` says a usable manager was found, `hasKey` that it has a session key. */
    | OpenConn(id: nat, addr: Address, active: bool, hasKey: bool, w: World)
    /** AuthStartVerify and AuthStartConnVerify. */
    | StartVerify(id: nat, addr: Address, callback: Callback, lnn: bool, w: World)
    /** OnConnectResult; a failed connection comes without connection info. */
    | ConnectResult(id: nat, result: int, hasInfo: bool, w: World)
    /** A session reports its request passed or failed. */
    | AuthPassed(id: nat, w: World)
    | AuthFailed(id: nat, reason: int, w: World)

  predicate Submits(e: Event) {
    e.OpenConn? || e.StartVerify?
  }

  /** The four ways AuthDeviceOpenConn goes by link type. */
  datatype Way = Known | Paired | Direct | Unopenable

  function WayOf(addr: Address): Way {
    match addr
    case WifiAddr(_, _) => Known
    case SessionKeyAddr(_, _) => Known
    case UsbAddr(_, _) => Known
    case SleAddr(_, _) => Paired
    case BrAddr(_, _) => Paired
    case BleAddr(_, _) => Paired
    case P2pAddr(_, _) => Direct
    case EnhancedP2pAddr(_, _) => Direct
    case _ => Unopenable
  }

  /** AuthDeviceOpenConn. */
  function Open(b: Book, e: Event): Book
    requires e.OpenConn?
  {
    match WayOf(e.addr)
    case Known => OpenKnown(b, e)
    case Paired => OpenPaired(b, e)
    case Direct => OpenDirect(b, e)
    case Unopenable => Reply(b, Answer(e.id, Returned(INVALID_PARAM)))
  }

  function OpenRequest(e: Event): Request
    requires e.OpenConn?
  {
    Request(e.id, Verify, OnConn, true, e.addr, e.w.now)
  }

  function OpenPaired(b: Book, e: Event): Book
    requires e.OpenConn?
  {
    if e.active && e.hasKey then Reopen(b, OpenRequest(e), e.w) else VerifyDevice(b, OpenRequest(e), e.w)
  }

  function OpenDirect(b: Book, e: Event): Book
    requires e.OpenConn?
  {
    if e.active then Reply(b, Answer(e.id, Opened)) else VerifyDevice(b, OpenRequest(e), e.w)
  }

  function OpenKnown(b: Book, e: Event): Book
    requires e.OpenConn?
  {
    Reply(b, Answer(e.id, if e.active then Opened else Returned(AUTH_NOT_FOUND)))
  }

  function Reopen(b: Book, r: Request, w: World): Book {
    var (b1, code) := StartReconnect(b, AsReconnect(r, w), w);
    if code == SOFTBUS_OK then b1 else Reply(b1, Answer(r.id, Returned(code)))
  }

  /** OnConnectResult with HandleReconnectResult. */
  function Connected(b: Book, id: nat, result: int, hasInfo: bool, w: World): Book {
    var r := Find(b.pending, id);
    if r.None? then b
    else if r.value.kind == Reconnect && hasInfo then
      if result == SOFTBUS_OK then Rebind(b, id, w) else Settle(b, Answer(id, OpenFailed(result)))
    else if result != SOFTBUS_OK then ReportFailed(b, id, result, w)
    else
      var code := if hasInfo then w.startAuth(id) else INVALID_PARAM;
      if code == SOFTBUS_OK then Started(b, id) else ReportFailed(b, id, code, w)
  }

  function Handle(b: Book, e: Event): Book
    requires Once(b) && AllSupported(b.pending)
  {
    match e
    case OpenConn(_, _, _, _, _) => Open(b, e)
    case StartVerify(id, addr, callback, lnn, w) => VerifyDevice(b, Request(id, Verify, callback, lnn, addr, w.now), w)
    case ConnectResult(id, result, hasInfo, w) => Connected(b, id, result, hasInfo, w)
    case AuthPassed(id, w) => ReportPassed(b, id, w)
    case AuthFailed(id, reason, w) => ReportFailed(b, id, reason, w)
  }

  /** The request list and the calls made so far, each with the callbacks it filled in. */
  datatype Ledger = Ledger(book: Book, calls: map<nat, Callback>)

  /** Every call made is accounted for exactly once. */
  ghost predicate Accounted(l: Ledger) {
    Tally(l.book) == multiset(l.calls.Keys) && Fitting(l.book, l.calls)
  }

  /** Callers use each request id once, on a link type the comparison knows, and a session that failed
      names an error. */
  predicate Admissible(l: Ledger, e: Event) {
    && (Submits(e) ==> e.id !in l.calls && !e.addr.Unsupported?)
    && (e.AuthFailed? ==> e.reason != SOFTBUS_OK)
  }

  function CalledBack(e: Event): Callback {
    if e.StartVerify? then e.callback else OnConn
  }

  function Next(l: Ledger, e: Event): Ledger
    requires Once(l.book) && AllSupported(l.book.pending)
  {
    Ledger(Handle(l.book, e), if Submits(e) then l.calls[e.id := CalledBack(e)] else l.calls)
  }

  // ----- one event -----

  lemma {:induction false} ReopenTally(b: Book, r: Request, w: World)
    requires !r.addr.Unsupported?
    ensures Tally(Reopen(b, r, w)) == Tally(b) + multiset{r.id}
  {
    var code := StartReconnect(b, AsReconnect(r, w), w).1;
    ReconnectTally(b, AsReconnect(r, w), w, Answer(r.id, Returned(code)));
  }

  lemma {:induction false} OpenPairedTally(b: Book, e: Event)
    requires e.OpenConn? && Once(b) && e.id !in Tally(b) && !e.addr.Unsupported?
    ensures Tally(OpenPaired(b, e)) == Tally(b) + multiset{e.id}
  {
    ReopenTally(b, OpenRequest(e), e.w);
    VerifyDeviceTally(b, OpenRequest(e), e.w);
  }

  lemma {:induction false} OpenDirectTally(b: Book, e: Event)
    requires e.OpenConn? && Once(b) && e.id !in Tally(b) && !e.addr.Unsupported?
    ensures Tally(OpenDirect(b, e)) == Tally(b) + multiset{e.id}
  {
    ReplyTally(b, Answer(e.id, Opened));
    VerifyDeviceTally(b, OpenRequest(e), e.w);
  }

  lemma {:induction false} OpenKnownTally(b: Book, e: Event)
    requires e.OpenConn?
    ensures Tally(OpenKnown(b, e)) == Tally(b) + multiset{e.id}
  {
    ReplyTally(b, Answer(e.id, if e.active then Opened else Returned(AUTH_NOT_FOUND)));
  }

  lemma {:induction false} OpenTally(b: Book, e: Event)
    requires e.OpenConn? && Once(b) && e.id !in Tally(b) && !e.addr.Unsupported?
    ensures Tally(Open(b, e)) == Tally(b) + multiset{e.id}
  {
    match WayOf(e.addr)
    case Known => OpenKnownTally(b, e);
    case Paired => OpenPairedTally(b, e);
    case Direct => OpenDirectTally(b, e);
    case Unopenable => ReplyTally(b, Answer(e.id, Returned(INVALID_PARAM)));
  }

  lemma {:induction false} ConnectedTally(b: Book, id: nat, result: int, hasInfo: bool, w: World)
    ensures Tally(Connected(b, id, result, hasInfo, w)) == Tally(b)
  {
    var r := Find(b.pending, id);
    if r.None? {
    } else if r.value.kind == Reconnect && hasInfo {
      SettleTally(b, Answer(id, if result != SOFTBUS_OK then OpenFailed(result)
                                else if w.rebinds(id) then Opened else OpenFailed(AUTH_NOT_FOUND)));
    } else {
      var code := if result != SOFTBUS_OK then result else if hasInfo then w.startAuth(id) else INVALID_PARAM;
      ReportFailedTally(b, id, code, w);
    }
  }

  lemma {:induction false} ReportPassedTally(b: Book, id: nat, w: World)
    requires Once(b) && AllSupported(b.pending)
    ensures Tally(ReportPassed(b, id, w)) == Tally(b)
  {
    var r := Find(b.pending, id);
    if r.Some? {
      FindIsIn(b.pending, id);
      PassTally(b, r.value, w);
      DrainTally(Pass(b, r.value, w), r.value.addr, w);
    }
  }

  lemma {:induction false} HandleTally(b: Book, e: Event)
    requires Once(b) && AllSupported(b.pending)
    requires Submits(e) ==> e.id !in Tally(b) && !e.addr.Unsupported?
    ensures Tally(Handle(b, e)) == Tally(b) + if Submits(e) then multiset{e.id} else multiset{}
  {
    match e
    case OpenConn(_, _, _, _, _) => OpenTally(b, e);
    case StartVerify(id, addr, callback, lnn, w) =>
      VerifyDeviceTally(b, Request(id, Verify, callback, lnn, addr, w.now), w);
    case ConnectResult(id, result, hasInfo, w) => ConnectedTally(b, id, result, hasInfo, w);
    case AuthPassed(id, w) => ReportPassedTally(b, id, w);
    case AuthFailed(id, reason, w) => ReportFailedTally(b, id, reason, w);
  }

  lemma {:induction false} ReopenFits(b: Book, e: Event, calls: map<nat, Callback>)
    requires e.OpenConn? && Fitting(b, calls) && e.id in calls && calls[e.id] == OnConn && !e.addr.Unsupported?
    ensures Fitting(Reopen(b, OpenRequest(e), e.w), calls)
  {
    var r := AsReconnect(OpenRequest(e), e.w);
    StartReconnectFits(b, r, e.w, calls);
    var (b1, code) := StartReconnect(b, r, e.w);
    if code != SOFTBUS_OK {
      SettleFits(b1, Answer(e.id, Returned(code)), calls);
    }
  }

  lemma {:induction false} OpenFits(b: Book, e: Event, calls: map<nat, Callback>)
    requires e.OpenConn? && Fitting(b, calls) && e.id in calls && calls[e.id] == OnConn && !e.addr.Unsupported?
    ensures Fitting(Open(b, e), calls)
  {
    VerifyDeviceFits(b, OpenRequest(e), e.w, calls);
    ReopenFits(b, e, calls);
    SettleFits(b, Answer(e.id, Opened), calls);
    SettleFits(b, Answer(e.id, Returned(AUTH_NOT_FOUND)), calls);
    SettleFits(b, Answer(e.id, Returned(INVALID_PARAM)), calls);
  }

  lemma {:induction false} ConnectedFits(b: Book, id: nat, result: int, hasInfo: bool, w: World, calls: map<nat,
                                        Callback>)
    requires Fitting(b, calls)
    ensures Fitting(Connected(b, id, result, hasInfo, w), calls)
  {
    var r := Find(b.pending, id);
    FindIsIn(b.pending, id);
    if r.None? {
    } else if r.value.kind == Reconnect && hasInfo {
      SettleFits(b, Answer(id, if result != SOFTBUS_OK then OpenFailed(result)
                               else if w.rebinds(id) then Opened else OpenFailed(AUTH_NOT_FOUND)), calls);
    } else {
      var code := if result != SOFTBUS_OK then result else if hasInfo then w.startAuth(id) else INVALID_PARAM;
      if code != SOFTBUS_OK {
        ReportFailedFits(b, id, code, w, calls);
      }
    }
  }

  lemma {:induction false} ReportPassedFits(b: Book, id: nat, w: World, calls: map<nat, Callback>)
    requires Once(b) && Fitting(b, calls) && AllSupported(b.pending)
    ensures Fitting(ReportPassed(b, id, w), calls)
  {
    var r := Find(b.pending, id);
    if r.Some? {
      FindIsIn(b.pending, id);
      PassTally(b, r.value, w);
      PassFits(b, r.value, w, calls);
      DrainFits(Pass(b, r.value, w), r.value.addr, w, calls);
    }
  }

  lemma {:induction false} HandleFits(b: Book, e: Event, calls: map<nat, Callback>)
    requires Once(b) && Fitting(b, calls) && AllSupported(b.pending)
    requires Submits(e) ==> e.id in calls && calls[e.id] == CalledBack(e) && !e.addr.Unsupported?
    requires e.AuthFailed? ==> e.reason != SOFTBUS_OK
    ensures Fitting(Handle(b, e), calls)
  {
    match e
    case OpenConn(_, _, _, _, _) => OpenFits(b, e, calls);
    case StartVerify(id, addr, callback, lnn, w) =>
      VerifyDeviceFits(b, Request(id, Verify, callback, lnn, addr, w.now), w, calls);
    case ConnectResult(id, result, hasInfo, w) => ConnectedFits(b, id, result, hasInfo, w, calls);
    case AuthPassed(id, w) => ReportPassedFits(b, id, w, calls);
    case AuthFailed(id, reason, w) => ReportFailedFits(b, id, reason, w, calls);
  }

  lemma {:induction false} AccountedOnce(l: Ledger)
    requires Accounted(l)
    ensures Once(l.book) && AllSupported(l.book.pending)
  {
    FittingSupported(l.book, l.calls);
    forall id ensures Tally(l.book)[id] <= 1 {
      assert multiset(l.calls.Keys)[id] <= 1;
    }
  }

  lemma {:induction false} KeysGrow(calls: map<nat, Callback>, id: nat, c: Callback)
    requires id !in calls
    ensures multiset(calls[id := c].Keys) == multiset(calls.Keys) + multiset{id}
  {
    assert calls[id := c].Keys == calls.Keys + {id};
  }

  lemma {:induction false} NextAccounts(l: Ledger, e: Event)
    requires Accounted(l) && Admissible(l, e)
    ensures Once(l.book) && AllSupported(l.book.pending) && Accounted(Next(l, e))
  {
    AccountedOnce(l);
    HandleTally(l.book, e);
    if Submits(e) {
      var calls := l.calls[e.id := CalledBack(e)];
      KeysGrow(l.calls, e.id, CalledBack(e));
      HandleFits(l.book, e, calls);
    } else {
      HandleFits(l.book, e, l.calls);
    }
  }

  // ----- runs -----

  /** A run; calls that break the callers' side of the bargain do not happen. */
  function Run(l: Ledger, events: seq<Event>): Ledger
    requires Accounted(l)
    decreases |events|
  {
    if events == [] then l
    else if !Admissible(l, events[0]) then Run(l, events[1..])
    else
      NextAccounts(l, events[0]);
      Run(Next(l, events[0]), events[1..])
  }

  const EMPTY := Ledger(Book([], [], {}), map[])

  lemma {:induction false} RunAccounts(l: Ledger, events: seq<Event>)
    requires Accounted(l)
    ensures Accounted(Run(l, events))
    decreases |events|
  {
    if events != [] {
      if Admissible(l, events[0]) {
        NextAccounts(l, events[0]);
        RunAccounts(Next(l, events[0]), events[1..]);
      } else {
        RunAccounts(l, events[1..]);
      }
    }
  }

  /** Conservation: after every run, each request ever submitted is either pending once and unanswered, or
      answered exactly once and no longer pending; and nothing else is pending or answered. */
  lemma {:induction false} AnsweredExactlyOnce(events: seq<Event>)
    ensures Accounted(EMPTY)
    ensures var l := Run(EMPTY, events);
            forall id :: Ids(l.book.pending)[id] + AnsweredIds(l.book.answers)[id] == if id in l.calls then 1 else 0
  {
    assert Accounted(EMPTY);
    RunAccounts(EMPTY, events);
    var l := Run(EMPTY, events);
    forall id ensures Ids(l.book.pending)[id] + AnsweredIds(l.book.answers)[id] == if id in l.calls then 1 else 0 {
      assert Tally(l.book)[id] == multiset(l.calls.Keys)[id];
    }
  }

  /** Every answer of a run goes through the callbacks its caller filled in, and every failure and every
      error returned carries an error code. */
  lemma {:induction false} AnsweredThroughItsCallback(events: seq<Event>)
    ensures Accounted(EMPTY)
    ensures var l := Run(EMPTY, events);
            forall a :: a in l.book.answers ==> a.id in l.calls && Fits(l.calls[a.id], a.outcome)
  {
    assert Accounted(EMPTY);
    RunAccounts(EMPTY, events);
  }
}
