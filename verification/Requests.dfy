/** The list of pending authentication requests (auth_request.c) and the operations that add to it, answer
    from it and retry from it (auth_device.c, auth_manager.c), as functions on the list's value.

    What the connection layer, the session layer and the registry of managers answer comes in through
    a World, so every result below holds for all their behaviours. */
module Requests {
  import opened Common
  import opened Addresses

  const REQUEST_TIMEOUT := 30000
  const TWO_64 := 0x1_0000_0000_0000_0000

  /** Milliseconds, uint64_t. */
  type Time = t: int | 0 <= t < TWO_64 witness 0

  const AUTH_INIT_FAIL := AUTH_ERR_BASE + 1
  const AUTH_NOT_FOUND := AUTH_ERR_BASE + 20
  const AUTH_INNER_ERR := AUTH_ERR_BASE + 21
  const AUTH_ADD_REQUEST_FAIL := AUTH_ERR_BASE + 90
  const INVALID_PARAM := -426442749

  datatype Kind = Verify | Reconnect

  /** Which of its two callback tables a request filled in. */
  datatype Callback = OnConn | OnVerify

  /** `lnn` says the request comes from the network builder, which wants a long-lived connection. */
  datatype Request = Request(id: nat, kind: Kind, callback: Callback, lnn: bool, addr: Address, addTime: Time)

  datatype Outcome =
    | Opened | OpenFailed(code: int)
    | VerifyPassed | VerifyFailed(code: int)
    | Returned(code: int)           // the submitting call returned this error

  datatype Answer = Answer(id: nat, outcome: Outcome)

  /** The pending list, the answers given, and the requests a connection or an authentication session was
      started for. */
  datatype Book = Book(pending: seq<Request>, answers: seq<Answer>, started: set<nat>)

  datatype World = World(
    now: Time,
    listenerOk: bool,               // the trust listener is registered
    connects: nat -> bool,          // ConnectAuthDevice for this request succeeded
    startAuth: nat -> int,          // AuthSessionStartAuth for this request
    hasManager: bool,               // GetAuthManagerByAuthId
    rebinds: nat -> bool,           // UpdateAuthManagerByAuthId(SetAuthConnId)
    brConnection: nat)              // connection id of the manager's BR link

  // ----- the list -----

  function Find(items: seq<Request>, id: nat): Option<Request> {
    if items == [] then None else if items[0].id == id then Some(items[0]) else Find(items[1..], id)
  }

  /** DelAuthRequest: the first request with this id goes. */
  function Remove(items: seq<Request>, id: nat): seq<Request> {
    if items == [] then [] else if items[0].id == id then items[1..] else [items[0]] + Remove(items[1..], id)
  }

  predicate VerifiesAt(r: Request, addr: Address) {
    r.kind == Verify && Compare(r.addr, addr)
  }

  /** FindAuthRequestByConnInfo: the first verify request for an address. */
  function FindVerify(items: seq<Request>, addr: Address): Option<Request> {
    if items == [] then None else if VerifiesAt(items[0], addr) then Some(items[0]) else FindVerify(items[1..], addr)
  }

  function Failure(r: Request, code: int): Answer {
    Answer(r.id, if r.callback == OnConn then OpenFailed(code) else VerifyFailed(code))
  }

  /** Milliseconds since the item was added, in uint64_t arithmetic. */
  function Elapsed(r: Request, item: Request): int {
    (r.addTime - item.addTime) % TWO_64
  }

  /** The item waits for the same thing as request r. */
  predicate Same(r: Request, item: Request) {
    item.kind == r.kind && Compare(r.addr, item.addr)
  }

  /** The item is r itself or young enough to wait behind. */
  predicate Counts(r: Request, item: Request) {
    Same(r, item) && (item.id == r.id || Elapsed(r, item) < REQUEST_TIMEOUT)
  }

  predicate Stale(r: Request, item: Request) {
    Same(r, item) && !Counts(r, item)
  }

  function WaitNum(items: seq<Request>, r: Request): nat {
    if items == [] then 0 else (if Counts(r, items[0]) then 1 else 0) + WaitNum(items[1..], r)
  }

  /** The requests that are not dropped, in order. */
  function Keep(items: seq<Request>, drop: Request -> bool): seq<Request> {
    if items == [] then []
    else if drop(items[0]) then Keep(items[1..], drop)
    else [items[0]] + Keep(items[1..], drop)
  }

  /** The failure callbacks of some of the requests, in order. */
  function Failures(items: seq<Request>, fails: Request -> bool): seq<Answer> {
    if items == [] then []
    else if fails(items[0]) then [Failure(items[0], AUTH_CONN_FAIL)] + Failures(items[1..], fails)
    else Failures(items[1..], fails)
  }

  function StaleFor(r: Request): Request -> bool {
    item => Stale(r, item)
  }

  /** AddAuthRequest; nothing is started for a request that was just added. */
  function Add(b: Book, r: Request): Book {
    Book(Keep(b.pending + [r], StaleFor(r)), b.answers + Failures(b.pending + [r], StaleFor(r)), b.started - {r.id})
  }

  function AtAddress(addr: Address): Request -> bool {
    (item: Request) => Compare(item.addr, addr)
  }

  function OthersAt(addr: Address, id: nat): Request -> bool {
    (item: Request) => Compare(item.addr, addr) && item.id != id
  }

  /** FindAndDelAuthRequestByConnInfo. */
  function RejectAll(b: Book, id: nat, addr: Address): Book {
    b.(pending := Keep(b.pending, AtAddress(addr)), answers := b.answers + Failures(b.pending, OthersAt(addr, id)))
  }

  function Reply(b: Book, a: Answer): Book {
    b.(answers := b.answers + [a])
  }

  /** A callback is performed for a pending request and the request deleted. */
  function Settle(b: Book, a: Answer): Book {
    b.(pending := Remove(b.pending, a.id), answers := b.answers + [a])
  }

  // ----- connecting and failing -----

  function Started(b: Book, id: nat): Book {
    b.(started := b.started + {id})
  }

  /** ConnectAuthDevice, with the result that a session link reports at once. */
  function ConnectCode(r: Request, w: World): int {
    if r.addr.SessionAddr? then w.startAuth(r.id) else if w.connects(r.id) then SOFTBUS_OK else AUTH_CONN_FAIL
  }

  lemma {:induction false} RemoveShrinks(items: seq<Request>, id: nat)
    requires Find(items, id).Some?
    ensures |Remove(items, id)| == |items| - 1 && Find(items, id).value.id == id
  {
    if items[0].id != id {
      RemoveShrinks(items[1..], id);
    }
  }

  /** ReportAuthRequestFailed: answers the request, then tries the next one for its address. */
  function ReportFailed(b: Book, id: nat, reason: int, w: World): Book
    decreases |b.pending|
  {
    var r := Find(b.pending, id);
    if r.None? then b
    else
      var b1 := Settle(b, Failure(r.value, reason));
      var next := FindVerify(b1.pending, r.value.addr);
      if next.None? then b1
      else if ConnectCode(next.value, w) == SOFTBUS_OK then Started(b1, next.value.id)
      else
        RemoveShrinks(b.pending, id);
        ReportFailed(b1, next.value.id, ConnectCode(next.value, w), w)
  }

  /** VerifyDevice. */
  function VerifyDevice(b: Book, r: Request, w: World): Book {
    if !w.listenerOk then Reply(b, Answer(r.id, Returned(AUTH_INIT_FAIL)))
    else
      var b1 := Add(b, r);
      var waitNum := WaitNum(b.pending + [r], r);
      if waitNum == 0 then Reply(b1, Answer(r.id, Returned(AUTH_INNER_ERR)))
      else if waitNum > 1 then b1
      else if r.addr.SessionAddr? then
        if w.startAuth(r.id) == SOFTBUS_OK then Started(b1, r.id) else ReportFailed(b1, r.id, w.startAuth(r.id), w)
      else if w.connects(r.id) then Started(b1, r.id)
      else Reply(RejectAll(b1, r.id, r.addr), Answer(r.id, Returned(AUTH_CONN_FAIL)))
  }

  /** What VerifyDevice returns. */
  function VerifyCode(b: Book, r: Request, w: World): int {
    var waitNum := WaitNum(b.pending + [r], r);
    if !w.listenerOk then AUTH_INIT_FAIL
    else if waitNum == 0 then AUTH_INNER_ERR
    else if waitNum == 1 && !r.addr.SessionAddr? && !w.connects(r.id) then AUTH_CONN_FAIL
    else SOFTBUS_OK
  }

  // ----- reconnecting and passing -----

  /** HandleReconnectResult on a connection that came up. */
  function Rebind(b: Book, id: nat, w: World): Book {
    Settle(b, Answer(id, if w.rebinds(id) then Opened else OpenFailed(AUTH_NOT_FOUND)))
  }

  /** AuthStartReconnectDevice; the code is what it returns. */
  function StartReconnect(b: Book, r: Request, w: World): (Book, int) {
    if !w.hasManager then (b, AUTH_NOT_FOUND)
    else
      var b1 := Add(b, r);
      if WaitNum(b.pending + [r], r) == 0 then (b1, AUTH_ADD_REQUEST_FAIL)
      else if r.addr.SessionAddr? then (Rebind(b1, r.id, w), SOFTBUS_OK)
      else if w.connects(r.id) then (Started(b1, r.id), SOFTBUS_OK)
      else (b1.(pending := Remove(b1.pending, r.id)), AUTH_CONN_FAIL)
  }

  /** The links on which an authenticated connection is handed out as it is. */
  predicate KeepsConnection(addr: Address) {
    addr.WifiAddr? || addr.P2pAddr? || addr.EnhancedP2pAddr? || addr.UsbAddr? || addr.SessionKeyAddr?
  }

  /** The request AuthStartReconnectDevice files under the same id. */
  function AsReconnect(r: Request, w: World): Request {
    var addr := if r.addr.BrAddr? then r.addr.(connectionId := w.brConnection) else r.addr;
    Request(r.id, Reconnect, OnConn, true, addr, w.now)
  }

  /** One round of ReportAuthRequestPassed. */
  function Pass(b: Book, r: Request, w: World): Book {
    if r.callback == OnVerify then Settle(b, Answer(r.id, VerifyPassed))
    else if KeepsConnection(r.addr) || !r.lnn then Settle(b, Answer(r.id, Opened))
    else
      var (b1, code) := StartReconnect(b.(pending := Remove(b.pending, r.id)), AsReconnect(r, w), w);
      if code == SOFTBUS_OK then b1 else Reply(b1, Answer(r.id, OpenFailed(AUTH_CONN_FAIL)))
  }

  // ----- what is conserved -----

  function Ids(items: seq<Request>): multiset<nat> {
    if items == [] then multiset{} else multiset{items[0].id} + Ids(items[1..])
  }

  function AnsweredIds(answers: seq<Answer>): multiset<nat> {
    if answers == [] then multiset{} else multiset{answers[0].id} + AnsweredIds(answers[1..])
  }

  /** Every id, as often as it is pending plus as often as it was answered. */
  function Tally(b: Book): multiset<nat> {
    Ids(b.pending) + AnsweredIds(b.answers)
  }

  /** No id is accounted for twice. */
  ghost predicate Once(b: Book) {
    forall id :: Tally(b)[id] <= 1
  }

  lemma {:induction false} IdsAppend(a: seq<Request>, b: seq<Request>)
    ensures Ids(a + b) == Ids(a) + Ids(b)
  {
    if a == [] {
      assert a + b == b;
    } else {
      assert (a + b)[1..] == a[1..] + b;
      IdsAppend(a[1..], b);
    }
  }

  lemma {:induction false} AnsweredAppend(a: seq<Answer>, b: seq<Answer>)
    ensures AnsweredIds(a + b) == AnsweredIds(a) + AnsweredIds(b)
  {
    if a == [] {
      assert a + b == b;
    } else {
      assert (a + b)[1..] == a[1..] + b;
      AnsweredAppend(a[1..], b);
    }
  }

  lemma {:induction false} RemoveIds(items: seq<Request>, id: nat)
    requires Find(items, id).Some?
    ensures Ids(items) == Ids(Remove(items, id)) + multiset{id}
  {
    if items[0].id != id {
      RemoveIds(items[1..], id);
    }
  }

  /** Settling a pending request moves its id from pending to answered. */
  lemma {:induction false} SettleTally(b: Book, a: Answer)
    requires Find(b.pending, a.id).Some?
    ensures Tally(Settle(b, a)) == Tally(b)
  {
    RemoveIds(b.pending, a.id);
    AnsweredAppend(b.answers, [a]);
  }

  lemma {:induction false} ReplyTally(b: Book, a: Answer)
    ensures Tally(Reply(b, a)) == Tally(b) + multiset{a.id}
  {
    AnsweredAppend(b.answers, [a]);
  }

  /** Eviction loses no request: what leaves the list is answered. */
  lemma {:induction false} DroppedAreTold(items: seq<Request>, drop: Request -> bool)
    ensures Ids(Keep(items, drop)) + AnsweredIds(Failures(items, drop)) == Ids(items)
  {
    if items != [] {
      DroppedAreTold(items[1..], drop);
      if drop(items[0]) {
        AnsweredAppend([Failure(items[0], AUTH_CONN_FAIL)], Failures(items[1..], drop));
      } else {
        IdsAppend([items[0]], Keep(items[1..], drop));
      }
    }
  }

  lemma {:induction false} AddTally(b: Book, r: Request)
    ensures Tally(Add(b, r)) == Tally(b) + multiset{r.id}
  {
    DroppedAreTold(b.pending + [r], StaleFor(r));
    IdsAppend(b.pending, [r]);
    AnsweredAppend(b.answers, Failures(b.pending + [r], StaleFor(r)));
  }

  lemma {:induction false} FindIsIn(items: seq<Request>, id: nat)
    ensures Find(items, id).Some? <==> id in Ids(items)
    ensures Find(items, id).Some? ==> Find(items, id).value in items && Find(items, id).value.id == id
  {
    if items != [] {
      FindIsIn(items[1..], id);
    }
  }

  lemma {:induction false} FindVerifyIsIn(items: seq<Request>, addr: Address)
    ensures var r := FindVerify(items, addr);
            if r.Some? then r.value in items && VerifiesAt(r.value, addr)
            else forall i :: 0 <= i < |items| ==> !VerifiesAt(items[i], addr)
  {
    if items != [] {
      FindVerifyIsIn(items[1..], addr);
    }
  }

  lemma {:induction false} InIds(items: seq<Request>, r: Request)
    requires r in items
    ensures r.id in Ids(items) && Find(items, r.id).Some?
  {
    if items[0] != r {
      InIds(items[1..], r);
    }
  }

  lemma {:induction false} ReportFailedTally(b: Book, id: nat, reason: int, w: World)
    ensures Tally(ReportFailed(b, id, reason, w)) == Tally(b)
    decreases |b.pending|
  {
    var r := Find(b.pending, id);
    if r.Some? {
      FindIsIn(b.pending, id);
      SettleTally(b, Failure(r.value, reason));
      RemoveShrinks(b.pending, id);
      var b1 := Settle(b, Failure(r.value, reason));
      var next := FindVerify(b1.pending, r.value.addr);
      if next.Some? && ConnectCode(next.value, w) != SOFTBUS_OK {
        ReportFailedTally(b1, next.value.id, ConnectCode(next.value, w), w);
      }
    }
  }

  // ----- rejecting -----

  /** The requests the rejecting call removes silently. */
  function Silent(items: seq<Request>, at: Request -> bool, id: nat): multiset<nat> {
    if items == [] then multiset{}
    else Silent(items[1..], at, id) + if at(items[0]) && items[0].id == id then multiset{id} else multiset{}
  }

  lemma {:induction false} RejectCount(items: seq<Request>, at: Request -> bool, others: Request -> bool, id: nat,
                                       k: nat)
    requires forall x :: others(x) <==> at(x) && x.id != id
    ensures Ids(Keep(items, at))[k] + AnsweredIds(Failures(items, others))[k] + Silent(items, at, id)[k]
         == Ids(items)[k]
  {
    if items != [] {
      var x, rest := items[0], items[1..];
      RejectCount(rest, at, others, id, k);
      if others(x) {
        var told := Failures(rest, others);
        assert ([Failure(x, AUTH_CONN_FAIL)] + told)[1..] == told;
      } else if !at(x) {
        var kept := Keep(rest, at);
        assert ([x] + kept)[1..] == kept;
      }
    }
  }

  lemma {:induction false} RejectIds(items: seq<Request>, at: Request -> bool, others: Request -> bool, id: nat)
    requires forall x :: others(x) <==> at(x) && x.id != id
    ensures Ids(Keep(items, at)) + AnsweredIds(Failures(items, others)) + Silent(items, at, id) == Ids(items)
  {
    forall k: nat
      ensures (Ids(Keep(items, at)) + AnsweredIds(Failures(items, others)) + Silent(items, at, id))[k] == Ids(items)[k]
    {
      RejectCount(items, at, others, id, k);
    }
  }

  lemma {:induction false} SilentIsOwn(items: seq<Request>, at: Request -> bool, r: Request)
    requires at(r)
    ensures forall id :: id in Silent(items, at, r.id) ==> id == r.id
    ensures r in items ==> Silent(items, at, r.id)[r.id] >= 1
  {
    if items != [] {
      SilentIsOwn(items[1..], at, r);
    }
  }

  lemma {:induction false} RejectTally(b: Book, r: Request)
    requires Once(b) && r in b.pending && Compare(r.addr, r.addr)
    ensures Tally(RejectAll(b, r.id, r.addr)) + multiset{r.id} == Tally(b)
  {
    var at, others := AtAddress(r.addr), OthersAt(r.addr, r.id);
    RejectIds(b.pending, at, others, r.id);
    SilentIsOwn(b.pending, at, r);
    AnsweredAppend(b.answers, Failures(b.pending, others));
    OwnOnly(Ids(b.pending), Silent(b.pending, at, r.id), r.id, b);
  }

  lemma {:induction false} OwnOnly(ids: multiset<nat>, own: multiset<nat>, id: nat, b: Book)
    requires Once(b) && ids == Ids(b.pending) && own <= ids && own[id] >= 1
    requires forall i :: i in own ==> i == id
    ensures own == multiset{id}
  {
    assert ids[id] <= Tally(b)[id];
  }

  lemma {:induction false} KeepHolds(items: seq<Request>, drop: Request -> bool, r: Request)
    requires r in items && !drop(r)
    ensures r in Keep(items, drop)
  {
    if items[0] != r {
      KeepHolds(items[1..], drop, r);
    }
  }

  /** A request never evicts itself. */
  lemma {:induction false} AddHolds(b: Book, r: Request)
    ensures r in Add(b, r).pending && Find(Add(b, r).pending, r.id).Some?
  {
    assert r in b.pending + [r];
    KeepHolds(b.pending + [r], StaleFor(r), r);
    InIds(Add(b, r).pending, r);
  }

  lemma {:induction false} WaitNumAppend(items: seq<Request>, r: Request)
    requires Compare(r.addr, r.addr)
    ensures WaitNum(items + [r], r) >= 1
  {
    if items != [] {
      assert (items + [r])[1..] == items[1..] + [r];
      WaitNumAppend(items[1..], r);
    }
  }

  lemma {:induction false} WaitNumUnsupported(items: seq<Request>, r: Request)
    requires r.addr.Unsupported?
    ensures WaitNum(items, r) == 0
  {
    if items != [] {
      WaitNumUnsupported(items[1..], r);
    }
  }

  lemma {:induction false} AddOnce(b: Book, r: Request)
    requires Once(b) && r.id !in Tally(b)
    ensures Tally(Add(b, r)) == Tally(b) + multiset{r.id} && Once(Add(b, r))
  {
    AddTally(b, r);
    forall id ensures Tally(Add(b, r))[id] <= 1 {
      assert Tally(b)[id] <= 1;
    }
  }

  /** The new request is rejected with everyone else at its address, and its caller told. */
  lemma {:induction false} RejectNewTally(b: Book, r: Request, code: int)
    requires Once(b) && r.id !in Tally(b) && !r.addr.Unsupported?
    ensures Tally(Reply(RejectAll(Add(b, r), r.id, r.addr), Answer(r.id, Returned(code)))) == Tally(b) + multiset{r.id}
  {
    CompareSymmetric(r.addr, r.addr);
    AddOnce(b, r);
    AddHolds(b, r);
    RejectTally(Add(b, r), r);
    ReplyTally(RejectAll(Add(b, r), r.id, r.addr), Answer(r.id, Returned(code)));
  }

  lemma {:induction false} SupportedVerifyTally(b: Book, r: Request, w: World)
    requires Once(b) && r.id !in Tally(b) && w.listenerOk && !r.addr.Unsupported?
    ensures Tally(VerifyDevice(b, r, w)) == Tally(b) + multiset{r.id}
  {
    CompareSymmetric(r.addr, r.addr);
    WaitNumAppend(b.pending, r);
    AddTally(b, r);
    if WaitNum(b.pending + [r], r) == 1 {
      if r.addr.SessionAddr? {
        ReportFailedTally(Add(b, r), r.id, w.startAuth(r.id), w);
      } else if !w.connects(r.id) {
        RejectNewTally(b, r, AUTH_CONN_FAIL);
      }
    }
  }

  lemma {:induction false} UnsupportedVerifyTally(b: Book, r: Request, w: World)
    requires w.listenerOk && r.addr.Unsupported?
    ensures Tally(VerifyDevice(b, r, w)) == Tally(b) + multiset{r.id, r.id}
  {
    WaitNumUnsupported(b.pending + [r], r);
    AddTally(b, r);
    ReplyTally(Add(b, r), Answer(r.id, Returned(AUTH_INNER_ERR)));
  }

  /** Submitting a verification accounts for its id exactly once - unless the link type is one the
      comparison does not know: then the call fails and the request stays in the list all the same. */
  lemma {:induction false} VerifyDeviceTally(b: Book, r: Request, w: World)
    requires Once(b) && r.id !in Tally(b)
    ensures Tally(VerifyDevice(b, r, w)) == Tally(b) + multiset{r.id}
            <==> !w.listenerOk || !r.addr.Unsupported?
  {
    if !w.listenerOk {
      ReplyTally(b, Answer(r.id, Returned(AUTH_INIT_FAIL)));
    } else if r.addr.Unsupported? {
      UnsupportedVerifyTally(b, r, w);
      assert (Tally(b) + multiset{r.id, r.id})[r.id] == 2;
    } else {
      SupportedVerifyTally(b, r, w);
    }
  }

  // ----- passing -----

  lemma {:induction false} DropTally(b: Book, id: nat)
    requires Find(b.pending, id).Some?
    ensures Tally(b.(pending := Remove(b.pending, id))) + multiset{id} == Tally(b)
  {
    RemoveIds(b.pending, id);
  }

  /** Filing a reconnect and dropping it again changes nothing. */
  lemma {:induction false} AddThenDrop(b: Book, r: Request)
    ensures var b1 := Add(b, r); Tally(b1.(pending := Remove(b1.pending, r.id))) == Tally(b)
  {
    AddTally(b, r);
    AddHolds(b, r);
    DropTally(Add(b, r), r.id);
    Cancels(Tally(b), Tally(Add(b, r).(pending := Remove(Add(b, r).pending, r.id))), r.id);
  }

  lemma {:induction false} Cancels(a: multiset<nat>, b: multiset<nat>, id: nat)
    requires a + multiset{id} == b + multiset{id}
    ensures a == b
  {
    assert a == (a + multiset{id}) - multiset{id};
    assert b == (b + multiset{id}) - multiset{id};
  }

  lemma {:induction false} StartReconnectTally(b: Book, r: Request, w: World)
    requires !r.addr.Unsupported?
    ensures StartReconnect(b, r, w).1 == SOFTBUS_OK ==> Tally(StartReconnect(b, r, w).0) == Tally(b) + multiset{r.id}
    ensures StartReconnect(b, r, w).1 != SOFTBUS_OK ==> Tally(StartReconnect(b, r, w).0) == Tally(b)
  {
    if w.hasManager {
      CompareSymmetric(r.addr, r.addr);
      WaitNumAppend(b.pending, r);
      AddTally(b, r);
      AddHolds(b, r);
      if r.addr.SessionAddr? {
        SettleTally(Add(b, r), Answer(r.id, if w.rebinds(r.id) then Opened else OpenFailed(AUTH_NOT_FOUND)));
      } else if !w.connects(r.id) {
        AddThenDrop(b, r);
      }
    }
  }

  /** A reconnect that either is under way or has its failure answered accounts for one id. */
  lemma {:induction false} ReconnectTally(b: Book, r: Request, w: World, failure: Answer)
    requires failure.id == r.id && !r.addr.Unsupported?
    ensures var (b1, code) := StartReconnect(b, r, w);
            Tally(if code == SOFTBUS_OK then b1 else Reply(b1, failure)) == Tally(b) + multiset{r.id}
  {
    StartReconnectTally(b, r, w);
    ReplyTally(StartReconnect(b, r, w).0, failure);
  }

  /** The switch from a verify to a reconnect request under one id. */
  lemma {:induction false} SwitchTally(b: Book, r: Request, w: World)
    requires r in b.pending && r.callback == OnConn && !KeepsConnection(r.addr) && r.lnn && !r.addr.Unsupported?
    ensures Tally(Pass(b, r, w)) == Tally(b)
  {
    InIds(b.pending, r);
    DropTally(b, r.id);
    var b0 := b.(pending := Remove(b.pending, r.id));
    ReconnectTally(b0, AsReconnect(r, w), w, Answer(r.id, OpenFailed(AUTH_CONN_FAIL)));
  }

  lemma {:induction false} PassTally(b: Book, r: Request, w: World)
    requires r in b.pending && !r.addr.Unsupported?
    ensures Tally(Pass(b, r, w)) == Tally(b)
  {
    InIds(b.pending, r);
    if r.callback == OnVerify {
      SettleTally(b, Answer(r.id, VerifyPassed));
    } else if KeepsConnection(r.addr) || !r.lnn {
      SettleTally(b, Answer(r.id, Opened));
    } else {
      SwitchTally(b, r, w);
    }
  }

  function VerifyCount(items: seq<Request>): nat {
    if items == [] then 0 else VerifyCount(items[1..]) + if items[0].kind == Verify then 1 else 0
  }

  lemma {:induction false} VerifyCountAppend(a: seq<Request>, b: seq<Request>)
    ensures VerifyCount(a + b) == VerifyCount(a) + VerifyCount(b)
  {
    if a == [] {
      assert a + b == b;
    } else {
      assert (a + b)[1..] == a[1..] + b;
      VerifyCountAppend(a[1..], b);
    }
  }

  lemma {:induction false} RemoveVerify(items: seq<Request>, r: Request)
    requires r in items && Ids(items)[r.id] <= 1
    ensures VerifyCount(Remove(items, r.id)) + (if r.kind == Verify then 1 else 0) == VerifyCount(items)
  {
    if items[0] == r {
    } else {
      InIds(items[1..], r);
      RemoveVerify(items[1..], r);
      VerifyCountAppend([items[0]], Remove(items[1..], r.id));
    }
  }

  lemma {:induction false} RemoveAnyVerify(items: seq<Request>, id: nat)
    ensures VerifyCount(Remove(items, id)) <= VerifyCount(items)
  {
    if items != [] && items[0].id != id {
      RemoveAnyVerify(items[1..], id);
      VerifyCountAppend([items[0]], Remove(items[1..], id));
    }
  }

  lemma {:induction false} KeepVerify(items: seq<Request>, drop: Request -> bool)
    ensures VerifyCount(Keep(items, drop)) <= VerifyCount(items)
  {
    if items != [] {
      KeepVerify(items[1..], drop);
      VerifyCountAppend([items[0]], Keep(items[1..], drop));
    }
  }

  /** Filing a reconnect adds no verify request. */
  lemma {:induction false} ReconnectVerify(b: Book, r: Request, w: World)
    requires r.kind == Reconnect
    ensures VerifyCount(StartReconnect(b, r, w).0.pending) <= VerifyCount(b.pending)
  {
    VerifyCountAppend(b.pending, [r]);
    KeepVerify(b.pending + [r], StaleFor(r));
    RemoveAnyVerify(Add(b, r).pending, r.id);
  }

  /** Each round of the drain takes one verify request off the list, whatever it re-adds. */
  lemma {:induction false} PassShrinks(b: Book, r: Request, w: World)
    requires Once(b) && r in b.pending && r.kind == Verify && !r.addr.Unsupported?
    ensures VerifyCount(Pass(b, r, w).pending) < VerifyCount(b.pending)
    ensures Once(Pass(b, r, w))
  {
    PassTally(b, r, w);
    assert Ids(b.pending)[r.id] <= Tally(b)[r.id];
    RemoveVerify(b.pending, r);
    ReconnectVerify(b.(pending := Remove(b.pending, r.id)), AsReconnect(r, w), w);
  }

  /** The loop of ReportAuthRequestPassed after its first round. */
  function Drain(b: Book, addr: Address, w: World): Book
    requires Once(b)
    decreases VerifyCount(b.pending)
  {
    var next := FindVerify(b.pending, addr);
    if next.None? then b
    else
      FindVerifyIsIn(b.pending, addr);
      PassShrinks(b, next.value, w);
      Drain(Pass(b, next.value, w), next.value.addr, w)
  }

  /** Every pending request has an address the comparison knows. */
  predicate AllSupported(items: seq<Request>) {
    forall i :: 0 <= i < |items| ==> !items[i].addr.Unsupported?
  }

  /** ReportAuthRequestPassed. */
  function ReportPassed(b: Book, id: nat, w: World): Book
    requires Once(b) && AllSupported(b.pending)
  {
    var r := Find(b.pending, id);
    if r.None? then b
    else
      FindIsIn(b.pending, id);
      PassTally(b, r.value, w);
      Drain(Pass(b, r.value, w), r.value.addr, w)
  }

  lemma {:induction false} DrainTally(b: Book, addr: Address, w: World)
    requires Once(b)
    ensures Tally(Drain(b, addr, w)) == Tally(b)
    decreases VerifyCount(b.pending)
  {
    var next := FindVerify(b.pending, addr);
    if next.Some? {
      var r := next.value;
      FindVerifyIsIn(b.pending, addr);
      PassTally(b, r, w);
      PassShrinks(b, r, w);
      var b1 := Pass(b, r, w);
      DrainTally(b1, r.addr, w);
    }
  }

  predicate NoneVerifiesAt(items: seq<Request>, addr: Address) {
    forall i :: 0 <= i < |items| ==> !VerifiesAt(items[i], addr)
  }

  /** Addresses with one key that match stand for each other. */
  lemma {:induction false} NoneVerifiesAtEither(items: seq<Request>, a: Address, b: Address)
    requires OneKey(a) && Compare(b, a) && NoneVerifiesAt(items, b)
    ensures NoneVerifiesAt(items, a)
  {
    forall i | 0 <= i < |items| ensures !VerifiesAt(items[i], a) {
      if VerifiesAt(items[i], a) {
        CompareSymmetric(b, a);
        CompareTransitive(items[i].addr, a, b);
      }
    }
  }

  /** On links whose addresses have one key the drain leaves no verify request for the address. */
  lemma {:induction false} DrainEmpties(b: Book, addr: Address, w: World)
    requires Once(b) && OneKey(addr)
    ensures NoneVerifiesAt(Drain(b, addr, w).pending, addr)
    decreases VerifyCount(b.pending)
  {
    var next := FindVerify(b.pending, addr);
    FindVerifyIsIn(b.pending, addr);
    if next.Some? {
      PassShrinks(b, next.value, w);
      DrainEmpties(Pass(b, next.value, w), next.value.addr, w);
      NoneVerifiesAtEither(Drain(b, addr, w).pending, addr, next.value.addr);
    }
  }

  /** So when authentication of a request passed, no verify request for its address is left. */
  lemma {:induction false} PassedEmpties(b: Book, id: nat, w: World)
    requires Once(b) && AllSupported(b.pending) && Find(b.pending, id).Some? && OneKey(Find(b.pending, id).value.addr)
    ensures NoneVerifiesAt(ReportPassed(b, id, w).pending, Find(b.pending, id).value.addr)
  {
    var r := Find(b.pending, id).value;
    FindIsIn(b.pending, id);
    PassTally(b, r, w);
    DrainEmpties(Pass(b, r, w), r.addr, w);
  }

  // ----- what adding means -----

  function SameAs(r: Request): Request -> bool {
    item => Same(r, item)
  }

  function CountIf(items: seq<Request>, p: Request -> bool): nat {
    if items == [] then 0 else CountIf(items[1..], p) + if p(items[0]) then 1 else 0
  }

  lemma {:induction false} CountIfAppend(a: seq<Request>, b: seq<Request>, p: Request -> bool)
    ensures CountIf(a + b, p) == CountIf(a, p) + CountIf(b, p)
  {
    if a == [] {
      assert a + b == b;
    } else {
      assert (a + b)[1..] == a[1..] + b;
      CountIfAppend(a[1..], b, p);
    }
  }

  lemma {:induction false} KeepAppend(a: seq<Request>, b: seq<Request>, drop: Request -> bool)
    ensures Keep(a + b, drop) == Keep(a, drop) + Keep(b, drop)
  {
    if a == [] {
      assert a + b == b;
    } else {
      assert (a + b)[1..] == a[1..] + b;
      KeepAppend(a[1..], b, drop);
    }
  }

  lemma {:induction false} EvictionMeans(items: seq<Request>, r: Request)
    ensures WaitNum(items, r) == CountIf(Keep(items, StaleFor(r)), SameAs(r))
    ensures Keep(Keep(items, StaleFor(r)), SameAs(r)) == Keep(items, SameAs(r))
    ensures forall x :: x in Keep(items, StaleFor(r)) <==> x in items && !Stale(r, x)
  {
    if items != [] {
      var rest := Keep(items[1..], StaleFor(r));
      EvictionMeans(items[1..], r);
      CountIfAppend([items[0]], rest, SameAs(r));
      KeepAppend([items[0]], rest, SameAs(r));
    }
  }

  function FreshFor(r: Request): Request -> bool {
    item => !Stale(r, item)
  }

  lemma {:induction false} FailuresMean(items: seq<Request>, r: Request)
    ensures var stale, told := Keep(items, FreshFor(r)), Failures(items, StaleFor(r));
            |told| == |stale| && forall i :: 0 <= i < |stale| ==> told[i] == Failure(stale[i], AUTH_CONN_FAIL)
  {
    if items != [] {
      FailuresMean(items[1..], r);
    }
  }

  /** AddAuthRequest against its simple meaning: the count returned is the number of requests of the same
      kind for the same address that remain, the new one included; those left are young or the request
      itself; all other requests keep their places; and those that went are told, in list order, that
      they failed to connect, and nobody else is told anything. */
  lemma {:induction false} AddMeans(b: Book, r: Request)
    ensures var stale, answers := Keep(b.pending, FreshFor(r)), Add(b, r).answers;
            && |answers| == |b.answers| + |stale| && answers[..|b.answers|] == b.answers
            && forall i :: 0 <= i < |stale| ==> answers[|b.answers| + i] == Failure(stale[i], AUTH_CONN_FAIL)
    ensures WaitNum(b.pending + [r], r) == CountIf(Add(b, r).pending, SameAs(r))
    ensures r.addr.Unsupported? <==> WaitNum(b.pending + [r], r) == 0
    ensures Keep(Add(b, r).pending, SameAs(r)) == Keep(b.pending + [r], SameAs(r))
    ensures forall x :: x in Add(b, r).pending <==>
              x in b.pending + [r] && (Same(r, x) ==> x.id == r.id || Elapsed(r, x) < REQUEST_TIMEOUT)
  {
    EvictionMeans(b.pending + [r], r);
    FailuresMean(b.pending + [r], r);
    KeepAppend(b.pending, [r], FreshFor(r));
    CompareSymmetric(r.addr, r.addr);
    if r.addr.Unsupported? {
      WaitNumUnsupported(b.pending + [r], r);
    } else {
      WaitNumAppend(b.pending, r);
    }
  }

  lemma {:induction false} FindUnique(items: seq<Request>, r: Request)
    requires r in items && Ids(items)[r.id] <= 1
    ensures Find(items, r.id) == Some(r)
  {
    if items[0] != r {
      InIds(items[1..], r);
      FindUnique(items[1..], r);
    }
  }
}
