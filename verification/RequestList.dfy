/** The global request list as auth_request.c, auth_device.c and auth_manager.c change it in place. Every
    method is proved to turn the list's value into what the function of Requests or RequestRuns says. */
module RequestList {
  import opened Common
  import opened Addresses
  import opened Requests
  import opened RequestRuns

  class RequestList {
    var list: seq<Request>
    /** Callbacks performed and errors returned, oldest first. */
    var answers: seq<Answer>
    /** The requests a connection or an authentication session was started for. */
    var started: set<nat>

    function View(): Book
      reads this
    {
      Book(list, answers, started)
    }

    constructor ()
      ensures View() == EMPTY.book
    {
      list, answers, started := [], [], {};
    }

    method Answered(a: Answer)
      modifies `answers
      ensures View() == Reply(old(View()), a)
    {
      answers := answers + [a];
    }

    /** GetAuthRequest. */
    method Get(id: nat) returns (r: Option<Request>)
      ensures r == Find(list, id)
    {
      var i := 0;
      while i < |list|
        invariant 0 <= i <= |list|
        invariant Find(list, id) == Find(list[i..], id)
      {
        if list[i].id == id {
          return Some(list[i]);
        }
        i := i + 1;
      }
      return None;
    }

    /** FindAuthRequestByConnInfo. */
    method GetVerify(addr: Address) returns (r: Option<Request>)
      ensures r == FindVerify(list, addr)
    {
      var i := 0;
      while i < |list|
        invariant 0 <= i <= |list|
        invariant FindVerify(list, addr) == FindVerify(list[i..], addr)
      {
        if list[i].kind == Verify && Compare(list[i].addr, addr) {
          return Some(list[i]);
        }
        i := i + 1;
      }
      return None;
    }

    /** DelAuthRequest. */
    method Del(id: nat)
      modifies `list
      ensures list == Remove(old(list), id)
    {
      var i := 0;
      while i < |list|
        invariant 0 <= i <= |list|
        invariant list == old(list)
        invariant Remove(list, id) == list[..i] + Remove(list[i..], id)
      {
        if list[i].id == id {
          list := list[..i] + list[i + 1..];
          return;
        }
        i := i + 1;
      }
    }

    /** AddAuthRequest. */
    method Add(r: Request) returns (waitNum: nat)
      modifies this
      ensures View() == Requests.Add(old(View()), r)
      ensures waitNum == WaitNum(old(list) + [r], r)
    {
      list, started := list + [r], started - {r.id};
      var notify;
      waitNum, notify := GetWaitNum(r);
      NotifyAll(notify);
    }

    /** GetAuthRequestWaitNum: counts the requests to wait for and takes the stale ones off the list. */
    method GetWaitNum(r: Request) returns (waitNum: nat, notify: seq<Request>)
      modifies `list
      ensures list == Keep(old(list), StaleFor(r))
      ensures FailAll(notify) == Failures(old(list), StaleFor(r))
      ensures waitNum == WaitNum(old(list), r)
    {
      waitNum, notify := 0, [];
      var i := 0;
      while i < |list|
        invariant Scanned(old(list), list, i, notify, waitNum, r)
        decreases |list| - i
      {
        var item := list[i];
        if item.kind != r.kind || !Compare(r.addr, item.addr) {
          ScanPast(old(list), list, i, notify, waitNum, r);
          i := i + 1;
        } else if item.id == r.id || (r.addTime - item.addTime) % TWO_64 < REQUEST_TIMEOUT {
          ScanPast(old(list), list, i, notify, waitNum, r);
          waitNum := waitNum + 1;
          i := i + 1;
        } else {
          ScanOut(old(list), list, i, notify, waitNum, r);
          notify := notify + [item];
          list := list[..i] + list[i + 1..];
        }
      }
    }

    /** The failure callbacks of the evicted requests. */
    method NotifyAll(items: seq<Request>)
      modifies `answers
      ensures answers == old(answers) + FailAll(items)
    {
      var i := 0;
      while i < |items|
        invariant 0 <= i <= |items|
        invariant answers + FailAll(items[i..]) == old(answers) + FailAll(items)
      {
        answers := answers + [Failure(items[i], AUTH_CONN_FAIL)];
        i := i + 1;
      }
    }

    /** FindAndDelAuthRequestByConnInfo. */
    method FindAndDel(id: nat, addr: Address)
      modifies `list, `answers
      ensures View() == RejectAll(old(View()), id, addr)
    {
      ghost var before := View();
      var i := 0;
      while i < |list|
        invariant Swept(before, View(), i, id, addr)
        decreases |list| - i
      {
        var item := list[i];
        if !Compare(item.addr, addr) {
          SweepPast(before, View(), i, id, addr);
          i := i + 1;
        } else {
          SweepOut(before, View(), i, id, addr);
          Sweep(i, id);
        }
      }
      SweptAll(before, View(), id, addr);
    }

    /** The item at index i goes; unless it is the request with this id, its caller is told. */
    method Sweep(i: nat, id: nat)
      requires i < |list|
      modifies `list, `answers
      ensures View() == SweptAt(old(View()), i, id)
    {
      if list[i].id != id {
        answers := answers + [Failure(list[i], AUTH_CONN_FAIL)];
      }
      list := list[..i] + list[i + 1..];
    }

    // ----- callbacks -----

    /** PerformAuthConnCallback: nothing happens to an unknown request or one that filled in the other table. */
    method PerformConn(id: nat, result: int)
      modifies `answers
      ensures var answer := Answer(id, if result == SOFTBUS_OK then Opened else OpenFailed(result));
              View() == if FilledIn(list, id, OnConn) then Reply(old(View()), answer) else old(View())
    {
      var r := Get(id);
      if r.None? || r.value.callback != OnConn {
        return;
      }
      if result == SOFTBUS_OK {
        Answered(Answer(id, Opened));
      } else {
        Answered(Answer(id, OpenFailed(result)));
      }
    }

    /** PerformVerifyCallback. */
    method PerformVerify(id: nat, result: int)
      modifies `answers
      ensures var answer := Answer(id, if result == SOFTBUS_OK then VerifyPassed else VerifyFailed(result));
              View() == if FilledIn(list, id, OnVerify) then Reply(old(View()), answer) else old(View())
    {
      var r := Get(id);
      if r.None? || r.value.callback != OnVerify {
        return;
      }
      if result == SOFTBUS_OK {
        Answered(Answer(id, VerifyPassed));
      } else {
        Answered(Answer(id, VerifyFailed(result)));
      }
    }

    // ----- connecting and failing -----

    /** ConnectAuthDevice: a session link is connected already and reports so at once. */
    method ConnectAuthDevice(r: Request, w: World) returns (code: int)
      requires Once(View())
      modifies this
      ensures code == if r.addr.SessionAddr? || w.connects(r.id) then SOFTBUS_OK else AUTH_CONN_FAIL
      ensures View() == if r.addr.SessionAddr? then Connected(old(View()), r.id, SOFTBUS_OK, true, w)
                        else if w.connects(r.id) then Started(old(View()), r.id) else old(View())
      decreases |list|, 2
    {
      if r.addr.SessionAddr? {
        OnConnectResult(r.id, SOFTBUS_OK, true, w);
        return SOFTBUS_OK;
      }
      if !w.connects(r.id) {
        return AUTH_CONN_FAIL;
      }
      started := started + {r.id};
      return SOFTBUS_OK;
    }

    /** OnConnectResult with HandleReconnectResult. */
    method OnConnectResult(id: nat, result: int, hasInfo: bool, w: World)
      requires Once(View())
      modifies this
      ensures View() == Connected(old(View()), id, result, hasInfo, w)
      decreases |list|, 1
    {
      var r := Get(id);
      if r.None? {
        return;
      }
      if r.value.kind == Reconnect && hasInfo {
        if result != SOFTBUS_OK {
          Answered(Answer(id, OpenFailed(result)));
        } else if w.rebinds(id) {
          Answered(Answer(id, Opened));
        } else {
          Answered(Answer(id, OpenFailed(AUTH_NOT_FOUND)));
        }
        Del(id);
        return;
      }
      if result != SOFTBUS_OK {
        ReportFailed(id, result, w);
        return;
      }
      var code := if hasInfo then w.startAuth(id) else INVALID_PARAM;
      if code != SOFTBUS_OK {
        ReportFailed(id, code, w);
        return;
      }
      started := started + {id};
    }

    /** ReportAuthRequestFailed. */
    method ReportFailed(id: nat, reason: int, w: World)
      requires Once(View()) && reason != SOFTBUS_OK
      modifies this
      ensures View() == Requests.ReportFailed(old(View()), id, reason, w)
      decreases |list|, 0
    {
      var r := Get(id);
      if r.None? {
        return;
      }
      SettledNext(View(), id, reason);
      Fail(r.value, reason);
      var next := GetVerify(r.value.addr);
      if next.None? {
        return;
      }
      var code := ConnectAuthDevice(next.value, w);
      if code != SOFTBUS_OK {
        ReportFailed(next.value.id, AUTH_CONN_FAIL, w);
      }
    }

    /** The failure callback of a pending request, which is then deleted. */
    method Fail(r: Request, reason: int)
      requires Find(list, r.id) == Some(r) && reason != SOFTBUS_OK
      modifies this
      ensures View() == Settle(old(View()), Failure(r, reason))
    {
      if r.callback == OnConn {
        PerformConn(r.id, reason);
      } else {
        PerformVerify(r.id, reason);
      }
      Del(r.id);
    }

    // ----- entry points -----

    /** VerifyDevice. */
    method VerifyDevice(r: Request, w: World) returns (code: int)
      requires Once(View()) && r.id !in Tally(View()) && r.kind == Verify
      modifies this
      ensures View() == Requests.VerifyDevice(old(View()), r, w)
      ensures code == VerifyCode(old(View()), r, w)
    {
      if !w.listenerOk {
        Answered(Answer(r.id, Returned(AUTH_INIT_FAIL)));
        return AUTH_INIT_FAIL;
      }
      AddedOnce(View(), r);
      var waitNum := Add(r);
      if waitNum == 0 {
        Answered(Answer(r.id, Returned(AUTH_INNER_ERR)));
        return AUTH_INNER_ERR;
      }
      if waitNum > 1 {
        return SOFTBUS_OK;
      }
      code := ConnectAuthDevice(r, w);
      if code != SOFTBUS_OK {
        FindAndDel(r.id, r.addr);
        Answered(Answer(r.id, Returned(AUTH_CONN_FAIL)));
        return AUTH_CONN_FAIL;
      }
    }

    /** AuthStartReconnectDevice. */
    method StartReconnect(r: Request, w: World) returns (code: int)
      requires Once(View()) && r.id !in Tally(View()) && r.kind == Reconnect
      modifies this
      ensures (View(), code) == Requests.StartReconnect(old(View()), r, w)
    {
      if !w.hasManager {
        return AUTH_NOT_FOUND;
      }
      AddedOnce(View(), r);
      var waitNum := Add(r);
      if waitNum == 0 {
        return AUTH_ADD_REQUEST_FAIL;
      }
      code := ConnectAuthDevice(r, w);
      if code != SOFTBUS_OK {
        Del(r.id);
        return AUTH_CONN_FAIL;
      }
    }

    /** One round of ReportAuthRequestPassed. */
    method PassOne(r: Request, w: World)
      requires Once(View()) && Find(list, r.id) == Some(r)
      modifies this
      ensures View() == Pass(old(View()), r, w)
    {
      if r.callback == OnConn {
        if KeepsConnection(r.addr) || !r.lnn {
          PerformConn(r.id, SOFTBUS_OK);
          Del(r.id);
          return;
        }
        DroppedOnce(View(), r.id);
        Del(r.id);
        var code := StartReconnect(AsReconnect(r, w), w);
        if code != SOFTBUS_OK {
          Answered(Answer(r.id, OpenFailed(AUTH_CONN_FAIL)));
        }
        return;
      }
      PerformVerify(r.id, SOFTBUS_OK);
      Del(r.id);
    }

    /** ReportAuthRequestPassed. */
    method ReportPassed(id: nat, w: World)
      requires Once(View()) && AllSupported(list)
      modifies this
      ensures View() == Requests.ReportPassed(old(View()), id, w)
    {
      var r := Get(id);
      if r.None? {
        return;
      }
      FindIsIn(list, id);
      PassTally(View(), r.value, w);
      PassOne(r.value, w);
      PassRest(r.value.addr, w);
    }

    /** The loop of ReportAuthRequestPassed: each round looks for the address of the round before. */
    method PassRest(first: Address, w: World)
      requires Once(View())
      modifies this
      ensures View() == Drain(old(View()), first, w)
    {
      var addr := first;
      var r := GetVerify(addr);
      while r.Some?
        invariant Once(View()) && r == FindVerify(list, addr)
        invariant Drain(View(), addr, w) == Drain(old(View()), first, w)
        decreases VerifyCount(list)
      {
        FindVerifyIsIn(list, addr);
        PassShrinks(View(), r.value, w);
        OnlyOne(View(), r.value);
        PassOne(r.value, w);
        addr := r.value.addr;
        r := GetVerify(addr);
      }
    }
  }

  /** The request is pending and filled in this table of callbacks. */
  predicate FilledIn(list: seq<Request>, id: nat, c: Callback) {
    Find(list, id).Some? && Find(list, id).value.callback == c
  }

  lemma {:induction false} OnlyOne(b: Book, r: Request)
    requires Once(b) && r in b.pending
    ensures Find(b.pending, r.id) == Some(r)
  {
    assert Ids(b.pending)[r.id] <= Tally(b)[r.id];
    FindUnique(b.pending, r);
  }

  lemma {:induction false} AddedOnce(b: Book, r: Request)
    requires Once(b) && r.id !in Tally(b)
    ensures Once(Requests.Add(b, r)) && Find(Requests.Add(b, r).pending, r.id) == Some(r)
  {
    AddTally(b, r);
    AddHolds(b, r);
    OnlyOne(Requests.Add(b, r), r);
  }

  lemma {:induction false} DroppedOnce(b: Book, id: nat)
    requires Once(b) && Find(b.pending, id).Some?
    ensures var b0 := b.(pending := Remove(b.pending, id)); Once(b0) && id !in Tally(b0)
  {
    DropTally(b, id);
    var b0 := b.(pending := Remove(b.pending, id));
    forall x ensures Tally(b0)[x] <= 1 && Tally(b0)[id] == 0 {
      assert Tally(b)[x] <= 1 && Tally(b)[id] <= 1;
      assert Tally(b)[x] == (Tally(b0) + multiset{id})[x] && Tally(b)[id] == (Tally(b0) + multiset{id})[id];
    }
  }

  /** After the request with this id is settled, the next one for its address can be found by its own id. */
  lemma {:induction false} SettledNext(b: Book, id: nat, reason: int)
    requires Once(b) && Find(b.pending, id).Some?
    ensures var r := Find(b.pending, id).value;
            var b1 := Settle(b, Failure(r, reason));
            var next := FindVerify(b1.pending, r.addr);
            && r.id == id && Once(b1) && |b1.pending| < |b.pending|
            && (next.Some? ==> Find(b1.pending, next.value.id) == next && next.value.kind == Verify)
  {
    var r := Find(b.pending, id).value;
    var b1 := Settle(b, Failure(r, reason));
    FindIsIn(b.pending, id);
    RemoveShrinks(b.pending, id);
    SettleTally(b, Failure(r, reason));
    FindVerifyIsIn(b1.pending, r.addr);
    var next := FindVerify(b1.pending, r.addr);
    if next.Some? {
      assert Ids(b1.pending)[next.value.id] <= Tally(b1)[next.value.id];
      FindUnique(b1.pending, next.value);
    }
  }

  function FailAll(items: seq<Request>): seq<Answer> {
    if items == [] then [] else [Failure(items[0], AUTH_CONN_FAIL)] + FailAll(items[1..])
  }

  lemma {:induction false} FailAllSnoc(items: seq<Request>, item: Request)
    ensures FailAll(items + [item]) == FailAll(items) + [Failure(item, AUTH_CONN_FAIL)]
  {
    if items != [] {
      assert (items + [item])[1..] == items[1..] + [item];
      FailAllSnoc(items[1..], item);
    }
  }

  /** How far GetAuthRequestWaitNum has got: `all` was the list, and everything before index i is settled. */
  ghost predicate Scanned(all: seq<Request>, list: seq<Request>, i: int, notify: seq<Request>, n: nat, r: Request) {
    && 0 <= i <= |list|
    && Keep(all, StaleFor(r)) == list[..i] + Keep(list[i..], StaleFor(r))
    && Failures(all, StaleFor(r)) == FailAll(notify) + Failures(list[i..], StaleFor(r))
    && WaitNum(all, r) == n + WaitNum(list[i..], r)
  }

  lemma {:induction false} ScanPast(all: seq<Request>, list: seq<Request>, i: int, notify: seq<Request>, n: nat,
                                    r: Request)
    requires Scanned(all, list, i, notify, n, r) && i < |list| && !Stale(r, list[i])
    ensures Scanned(all, list, i + 1, notify, n + if Counts(r, list[i]) then 1 else 0, r)
  {
    assert list[i..][1..] == list[i + 1..];
    assert list[..i + 1] == list[..i] + [list[i]];
  }

  lemma {:induction false} ScanOut(all: seq<Request>, list: seq<Request>, i: int, notify: seq<Request>, n: nat,
                                   r: Request)
    requires Scanned(all, list, i, notify, n, r) && i < |list| && Stale(r, list[i])
    ensures Scanned(all, list[..i] + list[i + 1..], i, notify + [list[i]], n, r)
  {
    var shorter := list[..i] + list[i + 1..];
    assert list[i..][1..] == list[i + 1..] == shorter[i..];
    assert shorter[..i] == list[..i];
    FailAllSnoc(notify, list[i]);
  }

  /** How far FindAndDelAuthRequestByConnInfo has got from book b: everything before index i is settled. */
  ghost predicate Swept(b: Book, c: Book, i: int, id: nat, addr: Address) {
    && 0 <= i <= |c.pending| && c.started == b.started
    && Keep(b.pending, AtAddress(addr)) == c.pending[..i] + Keep(c.pending[i..], AtAddress(addr))
    && b.answers + Failures(b.pending, OthersAt(addr, id)) == c.answers + Failures(c.pending[i..], OthersAt(addr, id))
  }

  lemma {:induction false} SweepPast(b: Book, c: Book, i: int, id: nat, addr: Address)
    requires Swept(b, c, i, id, addr) && i < |c.pending| && !AtAddress(addr)(c.pending[i])
    ensures Swept(b, c, i + 1, id, addr)
  {
    assert c.pending[i..][1..] == c.pending[i + 1..];
    assert c.pending[..i + 1] == c.pending[..i] + [c.pending[i]];
  }

  function SweptAt(c: Book, i: nat, id: nat): Book
    requires i < |c.pending|
  {
    var told := if c.pending[i].id != id then [Failure(c.pending[i], AUTH_CONN_FAIL)] else [];
    c.(pending := c.pending[..i] + c.pending[i + 1..], answers := c.answers + told)
  }

  lemma {:induction false} SweepOut(b: Book, c: Book, i: int, id: nat, addr: Address)
    requires Swept(b, c, i, id, addr) && i < |c.pending| && AtAddress(addr)(c.pending[i])
    ensures Swept(b, SweptAt(c, i, id), i, id, addr)
  {
    var shorter := c.pending[..i] + c.pending[i + 1..];
    assert c.pending[i..][1..] == c.pending[i + 1..] == shorter[i..];
    assert shorter[..i] == c.pending[..i];
  }

  lemma {:induction false} SweptAll(b: Book, c: Book, id: nat, addr: Address)
    requires Swept(b, c, |c.pending|, id, addr)
    ensures c == RejectAll(b, id, addr)
  {
    assert c.pending[|c.pending|..] == [];
  }
}
