/** Which callback a request is answered through. */
module RequestOutcomes {
  import opened Common
  import opened Addresses
  import opened Requests

  /** The outcome is reported through the table the caller filled in, and a failure carries an error. */
  predicate Fits(c: Callback, o: Outcome) {
    match o
    case Opened => c == OnConn
    case OpenFailed(code) => c == OnConn && code != SOFTBUS_OK
    case VerifyPassed => c == OnVerify
    case VerifyFailed(code) => c == OnVerify && code != SOFTBUS_OK
    case Returned(code) => code != SOFTBUS_OK
  }

  ghost predicate PendingFit(items: seq<Request>, calls: map<nat, Callback>) {
    forall r :: r in items ==>
      && r.id in calls && calls[r.id] == r.callback
      && (r.kind == Reconnect ==> r.callback == OnConn)
      && !r.addr.Unsupported?
  }

  ghost predicate AnswersFit(answers: seq<Answer>, calls: map<nat, Callback>) {
    forall a :: a in answers ==> a.id in calls && Fits(calls[a.id], a.outcome)
  }

  /** Every pending request and every answer belongs to a call and to its callback table. */
  ghost predicate Fitting(b: Book, calls: map<nat, Callback>) {
    PendingFit(b.pending, calls) && AnswersFit(b.answers, calls)
  }

  lemma {:induction false} FittingSupported(b: Book, calls: map<nat, Callback>)
    requires Fitting(b, calls)
    ensures AllSupported(b.pending)
  {
  }

  lemma {:induction false} RemoveFits(items: seq<Request>, id: nat, calls: map<nat, Callback>)
    requires PendingFit(items, calls)
    ensures PendingFit(Remove(items, id), calls)
  {
    if items != [] && items[0].id != id {
      RemoveFits(items[1..], id, calls);
    }
  }

  lemma {:induction false} KeepFits(items: seq<Request>, drop: Request -> bool, calls: map<nat, Callback>)
    requires PendingFit(items, calls)
    ensures PendingFit(Keep(items, drop), calls)
  {
    if items != [] {
      KeepFits(items[1..], drop, calls);
    }
  }

  lemma {:induction false} FailuresFit(items: seq<Request>, fails: Request -> bool, calls: map<nat, Callback>)
    requires PendingFit(items, calls)
    ensures AnswersFit(Failures(items, fails), calls)
  {
    if items != [] {
      FailuresFit(items[1..], fails, calls);
    }
  }

  lemma {:induction false} SettleFits(b: Book, a: Answer, calls: map<nat, Callback>)
    requires Fitting(b, calls) && a.id in calls && Fits(calls[a.id], a.outcome)
    ensures Fitting(Settle(b, a), calls) && Fitting(Reply(b, a), calls)
  {
    RemoveFits(b.pending, a.id, calls);
  }

  lemma {:induction false} AddFits(b: Book, r: Request, calls: map<nat, Callback>)
    requires Fitting(b, calls) && r.id in calls && calls[r.id] == r.callback
    requires (r.kind == Reconnect ==> r.callback == OnConn) && !r.addr.Unsupported?
    ensures Fitting(Add(b, r), calls)
  {
    KeepFits(b.pending + [r], StaleFor(r), calls);
    FailuresFit(b.pending + [r], StaleFor(r), calls);
  }

  lemma {:induction false} RejectFits(b: Book, id: nat, addr: Address, calls: map<nat, Callback>)
    requires Fitting(b, calls)
    ensures Fitting(RejectAll(b, id, addr), calls)
  {
    KeepFits(b.pending, AtAddress(addr), calls);
    FailuresFit(b.pending, OthersAt(addr, id), calls);
  }

  lemma {:induction false} ReportFailedFits(b: Book, id: nat, reason: int, w: World, calls: map<nat, Callback>)
    requires Fitting(b, calls) && reason != SOFTBUS_OK
    ensures Fitting(ReportFailed(b, id, reason, w), calls)
    decreases |b.pending|
  {
    var r := Find(b.pending, id);
    if r.Some? {
      FindIsIn(b.pending, id);
      RemoveShrinks(b.pending, id);
      SettleFits(b, Failure(r.value, reason), calls);
      var b1 := Settle(b, Failure(r.value, reason));
      var next := FindVerify(b1.pending, r.value.addr);
      if next.Some? && ConnectCode(next.value, w) != SOFTBUS_OK {
        ReportFailedFits(b1, next.value.id, ConnectCode(next.value, w), w, calls);
      }
    }
  }

  lemma {:induction false} VerifyDeviceFits(b: Book, r: Request, w: World, calls: map<nat, Callback>)
    requires Fitting(b, calls) && r.id in calls && calls[r.id] == r.callback && r.kind == Verify && !r.addr.Unsupported?
    ensures Fitting(VerifyDevice(b, r, w), calls)
  {
    if !w.listenerOk {
      SettleFits(b, Answer(r.id, Returned(AUTH_INIT_FAIL)), calls);
    } else {
      var b1 := Add(b, r);
      AddFits(b, r, calls);
      var waitNum := WaitNum(b.pending + [r], r);
      if waitNum == 0 {
        SettleFits(b1, Answer(r.id, Returned(AUTH_INNER_ERR)), calls);
      } else if waitNum == 1 && r.addr.SessionAddr? && w.startAuth(r.id) != SOFTBUS_OK {
        ReportFailedFits(b1, r.id, w.startAuth(r.id), w, calls);
      } else if waitNum == 1 && !r.addr.SessionAddr? && !w.connects(r.id) {
        RejectFits(b1, r.id, r.addr, calls);
        SettleFits(RejectAll(b1, r.id, r.addr), Answer(r.id, Returned(AUTH_CONN_FAIL)), calls);
      }
    }
  }

  lemma {:induction false} StartReconnectFits(b: Book, r: Request, w: World, calls: map<nat, Callback>)
    requires Fitting(b, calls) && r.id in calls && calls[r.id] == r.callback == OnConn && !r.addr.Unsupported?
    ensures Fitting(StartReconnect(b, r, w).0, calls)
  {
    if w.hasManager {
      AddFits(b, r, calls);
      SettleFits(Add(b, r), Answer(r.id, if w.rebinds(r.id) then Opened else OpenFailed(AUTH_NOT_FOUND)), calls);
      RemoveFits(Add(b, r).pending, r.id, calls);
    }
  }

  lemma {:induction false} PassFits(b: Book, r: Request, w: World, calls: map<nat, Callback>)
    requires Fitting(b, calls) && r in b.pending
    ensures Fitting(Pass(b, r, w), calls)
  {
    if r.callback == OnVerify {
      SettleFits(b, Answer(r.id, VerifyPassed), calls);
    } else if KeepsConnection(r.addr) || !r.lnn {
      SettleFits(b, Answer(r.id, Opened), calls);
    } else {
      RemoveFits(b.pending, r.id, calls);
      var b0 := b.(pending := Remove(b.pending, r.id));
      StartReconnectFits(b0, AsReconnect(r, w), w, calls);
      SettleFits(StartReconnect(b0, AsReconnect(r, w), w).0, Answer(r.id, OpenFailed(AUTH_CONN_FAIL)), calls);
    }
  }

  lemma {:induction false} DrainFits(b: Book, addr: Address, w: World, calls: map<nat, Callback>)
    requires Once(b) && Fitting(b, calls)
    ensures Fitting(Drain(b, addr, w), calls)
    decreases VerifyCount(b.pending)
  {
    var next := FindVerify(b.pending, addr);
    if next.Some? {
      FindVerifyIsIn(b.pending, addr);
      PassShrinks(b, next.value, w);
      PassFits(b, next.value, w, calls);
      DrainFits(Pass(b, next.value, w), next.value.addr, w, calls);
    }
  }
}
