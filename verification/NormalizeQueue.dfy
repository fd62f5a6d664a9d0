/** The queue of concurrent authentications (auth_normalize_request.c): sessions for one peer, known by the
    first 16 characters of its udid hash, take turns to send their device id. */
module NormalizeQueue {
  import opened Common

  const UDID_SHORT_HASH_STR := 16

  /** NormalizeRequest. */
  datatype Item = Item(hash: string, authSeq: int, link: LinkType)

  /** The queue, the sessions that have ended, and the queued sessions released to send their device id. */
  datatype Turns = Turns(items: seq<Item>, dead: set<int>, released: set<int>)

  /** The part of a hash strncmp looks at. */
  function Short(hash: string): string {
    if |hash| <= UDID_SHORT_HASH_STR then hash else hash[..UDID_SHORT_HASH_STR]
  }

  function Find(items: seq<Item>, a: int): Option<Item> {
    if items == [] then None else if items[0].authSeq == a then Some(items[0]) else Find(items[1..], a)
  }

  /** DelAuthNormalizeRequest on the list. */
  function Without(items: seq<Item>, a: int): seq<Item> {
    if items == [] then [] else if items[0].authSeq == a then items[1..] else [items[0]] + Without(items[1..], a)
  }

  /** GetRequestListByUdidHash: the items of one peer, in order. */
  function At(items: seq<Item>, p: string): seq<Item> {
    if items == [] then []
    else if Short(items[0].hash) == p then [items[0]] + At(items[1..], p)
    else At(items[1..], p)
  }

  function NotAt(items: seq<Item>, p: string): seq<Item> {
    if items == [] then []
    else if Short(items[0].hash) == p then NotAt(items[1..], p)
    else [items[0]] + NotAt(items[1..], p)
  }

  /** The first queued session of a peer that is still alive. */
  function FirstLive(items: seq<Item>, p: string, dead: set<int>): Option<int> {
    if items == [] then None
    else if Short(items[0].hash) == p && items[0].authSeq !in dead then Some(items[0].authSeq)
    else FirstLive(items[1..], p, dead)
  }

  /** The sessions NotifyNormalizeRequestSuccess wakes. */
  function Woken(items: seq<Item>, supportNego: bool, link: LinkType, dead: set<int>): set<int> {
    if items == [] then {}
    else
      (if (supportNego && items[0].link == link) || items[0].authSeq in dead then {} else {items[0].authSeq})
      + Woken(items[1..], supportNego, link, dead)
  }

  // ----- operations -----

  /** A session enters the id exchange as the starting client (SyncDevIdStateEnter). */
  function Enter(q: Turns, it: Item): Turns {
    if Find(q.items, it.authSeq).Some? then q.(released := q.released + {it.authSeq})
    else if it.hash == "" then q
    else
      var items := q.items + [it];
      if |At(items, Short(it.hash))| > 1 then q.(items := items, released := q.released - {it.authSeq})
      else q.(items := items, released := q.released + {it.authSeq})
  }

  /** NotifyNormalizeRequestSuccess. */
  function Success(q: Turns, a: int, supportNego: bool): Turns {
    var it := Find(q.items, a);
    if it.None? then q
    else
      var rest := Without(q.items, a);
      var p := Short(it.value.hash);
      q.(items := NotAt(rest, p), released := q.released + Woken(At(rest, p), supportNego, it.value.link, q.dead))
  }

  /** NotifyNormalizeRequestFail. */
  function Fail(q: Turns, a: int): Turns {
    var it := Find(q.items, a);
    if it.None? then q
    else
      var rest := Without(q.items, a);
      var next := FirstLive(rest, Short(it.value.hash), q.dead);
      q.(items := rest, released := if next.Some? then q.released + {next.value} else q.released)
  }

  function Delete(q: Turns, a: int): Turns {
    q.(items := Without(q.items, a))
  }

  function Kill(q: Turns, a: int): Turns {
    q.(dead := q.dead + {a})
  }

  datatype Event =
    | Entered(it: Item)                 // SyncDevIdStateEnter
    | Answered(a: int)                  // a device id arrived that needs no turn-taking
    | Completed(a: int)                 // CompleteAuthSession with SOFTBUS_OK
    | Failed(a: int)                    // CompleteAuthSession with an error
    | Deleted(a: int)                   // AuthNotifyAuthPassed on a sibling session
    | Stopped(a: int)                   // StopAuthFsm

  function Next(q: Turns, e: Event): Turns {
    match e
    case Entered(it) => if it.authSeq in q.dead then q else Enter(q, it)
    case Answered(a) => Success(q, a, false)
    case Completed(a) => Kill(Success(q, a, true), a)
    case Failed(a) => Kill(Fail(q, a), a)
    case Deleted(a) => Delete(q, a)
    case Stopped(a) => Kill(q, a)
  }

  // ----- the list -----

  predicate NoDup(items: seq<Item>) {
    forall i, j :: 0 <= i < j < |items| ==> items[i].authSeq != items[j].authSeq
  }

  lemma {:induction false} FindIsIn(items: seq<Item>, a: int)
    ensures Find(items, a).Some? <==> exists i :: 0 <= i < |items| && items[i].authSeq == a
    ensures Find(items, a).Some? ==> Find(items, a).value in items && Find(items, a).value.authSeq == a
  {
    if items != [] {
      FindIsIn(items[1..], a);
      if Find(items[1..], a).Some? {
        var i :| 0 <= i < |items[1..]| && items[1..][i].authSeq == a;
        assert items[i + 1].authSeq == a;
      } else if exists i :: 0 <= i < |items| && items[i].authSeq == a {
        var i :| 0 <= i < |items| && items[i].authSeq == a;
        assert i > 0 ==> items[1..][i - 1].authSeq == a;
      }
    }
  }

  /** What stays after the one item of session a is taken out. */
  lemma {:induction false} WithoutMeans(items: seq<Item>, a: int)
    requires NoDup(items)
    ensures NoDup(Without(items, a))
    ensures forall x :: x in Without(items, a) <==> x in items && x.authSeq != a
  {
    if items != [] {
      if items[0].authSeq == a {
        forall x | x in items && x.authSeq != a ensures x in items[1..] {}
      } else {
        WithoutMeans(items[1..], a);
      }
    }
  }

  lemma {:induction false} NotAtMeans(items: seq<Item>, p: string)
    ensures forall x :: x in NotAt(items, p) <==> x in items && Short(x.hash) != p
  {
    if items != [] {
      NotAtMeans(items[1..], p);
    }
  }

  lemma {:induction false} NotAtNoDup(items: seq<Item>, p: string)
    requires NoDup(items)
    ensures NoDup(NotAt(items, p))
  {
    if items != [] {
      NotAtNoDup(items[1..], p);
      NotAtMeans(items[1..], p);
      var rest := NotAt(items[1..], p);
      forall k | 0 <= k < |rest| ensures rest[k].authSeq != items[0].authSeq {
        assert rest[k] in items[1..];
      }
    }
  }

  lemma {:induction false} AtMeans(items: seq<Item>, p: string)
    ensures forall x :: x in At(items, p) <==> x in items && Short(x.hash) == p
  {
    if items != [] {
      AtMeans(items[1..], p);
    }
  }

  lemma {:induction false} FirstLiveIsIn(items: seq<Item>, p: string, dead: set<int>)
    ensures var f := FirstLive(items, p, dead);
            && (f.Some? ==> f.value !in dead && exists x :: x in items && Short(x.hash) == p && x.authSeq == f.value)
            && (f.None? ==> forall x :: x in items && Short(x.hash) == p ==> x.authSeq in dead)
  {
    if items != [] {
      FirstLiveIsIn(items[1..], p, dead);
    }
  }

  lemma {:induction false} FirstLiveSnoc(items: seq<Item>, it: Item, p: string, dead: set<int>)
    ensures FirstLive(items + [it], p, dead) ==
            if FirstLive(items, p, dead).Some? then FirstLive(items, p, dead)
            else if Short(it.hash) == p && it.authSeq !in dead then Some(it.authSeq) else None
  {
    if items != [] {
      assert (items + [it])[1..] == items[1..] + [it];
      FirstLiveSnoc(items[1..], it, p, dead);
    }
  }

  /** Taking a session out of the queue, or its dying, promotes another only if it was first itself. */
  lemma {:induction false} FirstLiveWithout(items: seq<Item>, a: int, p: string, dead: set<int>)
    requires FirstLive(items, p, dead) != Some(a)
    ensures FirstLive(Without(items, a), p, dead) == FirstLive(items, p, dead)
    ensures FirstLive(items, p, dead + {a}) == FirstLive(items, p, dead)
  {
    if items != [] && !(Short(items[0].hash) == p && items[0].authSeq !in dead) {
      FirstLiveWithout(items[1..], a, p, dead);
    }
  }

  lemma {:induction false} FirstLiveNotAt(items: seq<Item>, p: string, p': string, dead: set<int>)
    requires p != p'
    ensures FirstLive(NotAt(items, p), p', dead) == FirstLive(items, p', dead)
  {
    if items != [] {
      FirstLiveNotAt(items[1..], p, p', dead);
    }
  }

  /** Removing and dying are the same to the others. */
  lemma {:induction false} WithoutIsDead(items: seq<Item>, a: int, p: string, dead: set<int>)
    requires NoDup(items)
    ensures FirstLive(Without(items, a), p, dead) == FirstLive(items, p, dead + {a})
  {
    if items != [] {
      if items[0].authSeq == a {
        NotThere(items[1..], a, p, dead);
      } else {
        WithoutIsDead(items[1..], a, p, dead);
      }
    }
  }

  lemma {:induction false} NotThere(items: seq<Item>, a: int, p: string, dead: set<int>)
    requires forall i :: 0 <= i < |items| ==> items[i].authSeq != a
    ensures FirstLive(items, p, dead + {a}) == FirstLive(items, p, dead)
  {
    if items != [] {
      NotThere(items[1..], a, p, dead);
    }
  }

  // ----- single flight -----

  ghost predicate WellFormed(q: Turns) {
    NoDup(q.items)
  }

  /** Only the first living session of its peer may have been released. */
  ghost predicate SingleFlight(q: Turns) {
    forall x :: x in q.items && x.authSeq !in q.dead && x.authSeq in q.released ==>
      FirstLive(q.items, Short(x.hash), q.dead) == Some(x.authSeq)
  }

  /** A living session enters the id exchange again while it waits behind another. */
  predicate JumpsQueue(q: Turns, e: Event) {
    && e.Entered? && e.it.authSeq !in q.dead
    && var it := Find(q.items, e.it.authSeq);
       it.Some? && FirstLive(q.items, Short(it.value.hash), q.dead) != Some(e.it.authSeq)
  }

  lemma {:induction false} SameItem(items: seq<Item>, x: Item, y: Item)
    requires NoDup(items) && x in items && y in items && x.authSeq == y.authSeq
    ensures x == y
  {
  }

  lemma {:induction false} AtOnly(items: seq<Item>, it: Item)
    requires |At(items + [it], Short(it.hash))| <= 1
    ensures forall x :: x in items ==> Short(x.hash) != Short(it.hash)
  {
    AtSnoc(items, it, Short(it.hash));
    AtMeans(items, Short(it.hash));
    assert At(items, Short(it.hash)) == [];
  }

  lemma {:induction false} AtSnoc(items: seq<Item>, it: Item, p: string)
    ensures At(items + [it], p) == At(items, p) + if Short(it.hash) == p then [it] else []
  {
    if items == [] {
      assert items + [it] == [it];
    } else {
      assert (items + [it])[1..] == items[1..] + [it];
      AtSnoc(items[1..], it, p);
    }
  }

  lemma {:induction false} EnterFlight(q: Turns, it: Item)
    requires WellFormed(q) && SingleFlight(q) && it.authSeq !in q.dead && Find(q.items, it.authSeq).None?
    ensures WellFormed(Enter(q, it)) && SingleFlight(Enter(q, it))
  {
    FindIsIn(q.items, it.authSeq);
    if it.hash != "" {
      var q1 := Enter(q, it);
      if |At(q.items + [it], Short(it.hash))| <= 1 {
        AtOnly(q.items, it);
      }
      forall x | x in q1.items && x.authSeq !in q1.dead && x.authSeq in q1.released
        ensures FirstLive(q1.items, Short(x.hash), q1.dead) == Some(x.authSeq)
      {
        FirstLiveSnoc(q.items, it, Short(x.hash), q.dead);
        FirstLiveIsIn(q.items, Short(x.hash), q.dead);
      }
    }
  }

  lemma {:induction false} DeleteFlight(q: Turns, a: int)
    requires WellFormed(q) && SingleFlight(q)
    ensures WellFormed(Delete(q, a)) && SingleFlight(Delete(q, a))
    ensures SingleFlight(Kill(q, a))
  {
    WithoutMeans(q.items, a);
    forall x | x in q.items && x.authSeq != a && x.authSeq !in q.dead && x.authSeq in q.released
      ensures FirstLive(Without(q.items, a), Short(x.hash), q.dead) == Some(x.authSeq)
      ensures FirstLive(q.items, Short(x.hash), q.dead + {a}) == Some(x.authSeq)
    {
      FirstLiveWithout(q.items, a, Short(x.hash), q.dead);
    }
  }

  /** Releasing the first living session of a peer is always safe. */
  lemma {:induction false} ReleaseFlight(q: Turns, p: string)
    requires WellFormed(q) && SingleFlight(q) && FirstLive(q.items, p, q.dead).Some?
    ensures SingleFlight(q.(released := q.released + {FirstLive(q.items, p, q.dead).value}))
  {
    FirstLiveIsIn(q.items, p, q.dead);
    var f := FirstLive(q.items, p, q.dead).value;
    var y :| y in q.items && Short(y.hash) == p && y.authSeq == f;
    forall x | x in q.items && x.authSeq == f ensures x == y {
      SameItem(q.items, x, y);
    }
  }

  lemma {:induction false} FailFlight(q: Turns, a: int)
    requires WellFormed(q) && SingleFlight(q)
    ensures WellFormed(Fail(q, a)) && SingleFlight(Fail(q, a))
  {
    var it := Find(q.items, a);
    if it.Some? {
      DeleteFlight(q, a);
      if FirstLive(Without(q.items, a), Short(it.value.hash), q.dead).Some? {
        ReleaseFlight(Delete(q, a), Short(it.value.hash));
      }
    }
  }

  lemma {:induction false} WokenIsIn(items: seq<Item>, supportNego: bool, link: LinkType, dead: set<int>)
    ensures forall w :: w in Woken(items, supportNego, link, dead) <==>
              exists x :: x in items && x.authSeq == w && w !in dead && !(supportNego && x.link == link)
  {
    if items != [] {
      WokenIsIn(items[1..], supportNego, link, dead);
      var now := if (supportNego && items[0].link == link) || items[0].authSeq in dead then {} else {items[0].authSeq};
      var later := Woken(items[1..], supportNego, link, dead);
      forall w ensures w in now + later <==>
          exists x :: x in items && x.authSeq == w && w !in dead && !(supportNego && x.link == link)
      {
        if w in now {
          assert items[0] in items;
        } else if w in later {
          var x :| x in items[1..] && x.authSeq == w && w !in dead && !(supportNego && x.link == link);
          assert x in items;
        }
      }
    }
  }

  lemma {:induction false} SuccessFlight(q: Turns, a: int, supportNego: bool)
    requires WellFormed(q) && SingleFlight(q)
    ensures WellFormed(Success(q, a, supportNego)) && SingleFlight(Success(q, a, supportNego))
  {
    var it := Find(q.items, a);
    if it.Some? {
      var rest := Without(q.items, a);
      var p := Short(it.value.hash);
      DeleteFlight(q, a);
      WithoutMeans(q.items, a);
      NotAtMeans(rest, p);
      NotAtNoDup(rest, p);
      AtMeans(rest, p);
      WokenIsIn(At(rest, p), supportNego, it.value.link, q.dead);
      var q1 := Success(q, a, supportNego);
      forall x | x in q1.items && x.authSeq !in q1.dead && x.authSeq in q1.released
        ensures FirstLive(q1.items, Short(x.hash), q1.dead) == Some(x.authSeq)
      {
        if x.authSeq !in q.released {
          var y :| y in At(rest, p) && y.authSeq == x.authSeq;
          SameItem(rest, x, y);
        }
        FirstLiveNotAt(rest, p, Short(x.hash), q.dead);
      }
    }
  }

  /** One event keeps single flight exactly when it is not a waiting session jumping the queue. */
  lemma {:induction false} NextFlight(q: Turns, e: Event)
    requires WellFormed(q) && SingleFlight(q)
    ensures WellFormed(Next(q, e))
    ensures SingleFlight(Next(q, e)) <==> !JumpsQueue(q, e)
  {
    match e
    case Entered(it) =>
      if it.authSeq !in q.dead {
        FindIsIn(q.items, it.authSeq);
        if Find(q.items, it.authSeq).None? {
          EnterFlight(q, it);
        } else {
          ReenterFlight(q, it);
        }
      }
    case Answered(a) => SuccessFlight(q, a, false);
    case Completed(a) =>
      SuccessFlight(q, a, true);
      DeleteFlight(Success(q, a, true), a);
    case Failed(a) =>
      FailFlight(q, a);
      DeleteFlight(Fail(q, a), a);
    case Deleted(a) => DeleteFlight(q, a);
    case Stopped(a) => DeleteFlight(q, a);
  }

  lemma {:induction false} ReenterFlight(q: Turns, it: Item)
    requires WellFormed(q) && SingleFlight(q) && it.authSeq !in q.dead && Find(q.items, it.authSeq).Some?
    ensures SingleFlight(Enter(q, it)) <==>
            FirstLive(q.items, Short(Find(q.items, it.authSeq).value.hash), q.dead) == Some(it.authSeq)
  {
    FindIsIn(q.items, it.authSeq);
    var y := Find(q.items, it.authSeq).value;
    if FirstLive(q.items, Short(y.hash), q.dead) == Some(it.authSeq) {
      ReleaseFlight(q, Short(y.hash));
    } else {
      assert y in Enter(q, it).items && y.authSeq in Enter(q, it).released;
    }
  }

  function Run(q: Turns, events: seq<Event>): Turns
    decreases |events|
  {
    if events == [] then q else Run(Next(q, events[0]), events[1..])
  }

  /** No event of the run is a waiting session jumping the queue. */
  predicate Orderly(q: Turns, events: seq<Event>)
    decreases |events|
  {
    events == [] || (!JumpsQueue(q, events[0]) && Orderly(Next(q, events[0]), events[1..]))
  }

  const EMPTY := Turns([], {}, {})

  lemma {:induction false} RunFlight(q: Turns, events: seq<Event>)
    requires WellFormed(q) && SingleFlight(q) && Orderly(q, events)
    ensures WellFormed(Run(q, events)) && SingleFlight(Run(q, events))
    decreases |events|
  {
    if events != [] {
      NextFlight(q, events[0]);
      RunFlight(Next(q, events[0]), events[1..]);
    }
  }

  /** Single flight: after any mix of entering, answering, success, failure, deletion and stopping, no two
      living sessions queued for one peer have both been released. */
  lemma {:induction false} OneAtATime(events: seq<Event>, i: int, j: int)
    requires Orderly(EMPTY, events)
    requires var q := Run(EMPTY, events);
             0 <= i < j < |q.items| && Short(q.items[i].hash) == Short(q.items[j].hash)
             && q.items[i].authSeq !in q.dead && q.items[j].authSeq !in q.dead
    ensures Run(EMPTY, events).items[j].authSeq !in Run(EMPTY, events).released
  {
    RunFlight(EMPTY, events);
    var q := Run(EMPTY, events);
    FirstLiveBefore(q.items, i, q.dead);
  }

  lemma {:induction false} FirstLiveBefore(items: seq<Item>, i: int, dead: set<int>)
    requires 0 <= i < |items| && items[i].authSeq !in dead
    ensures var f := FirstLive(items, Short(items[i].hash), dead);
            f.Some? && exists k :: 0 <= k <= i && items[k].authSeq == f.value
  {
    if i == 0 || (Short(items[0].hash) == Short(items[i].hash) && items[0].authSeq !in dead) {
      assert items[0].authSeq == FirstLive(items, Short(items[i].hash), dead).value;
    } else {
      FirstLiveBefore(items[1..], i - 1, dead);
      var f := FirstLive(items[1..], Short(items[i].hash), dead).value;
      var k :| 0 <= k <= i - 1 && items[1..][k].authSeq == f;
      assert items[k + 1].authSeq == f;
    }
  }

  ghost predicate AlwaysSingle(q: Turns, events: seq<Event>)
    decreases |events|
  {
    SingleFlight(q) && (events == [] || AlwaysSingle(Next(q, events[0]), events[1..]))
  }

  /** A run keeps single flight throughout exactly when no waiting session jumps the queue. */
  lemma {:induction false} OrderlyExactly(q: Turns, events: seq<Event>)
    requires WellFormed(q) && SingleFlight(q)
    ensures AlwaysSingle(q, events) <==> Orderly(q, events)
    decreases |events|
  {
    if events != [] {
      NextFlight(q, events[0]);
      if !JumpsQueue(q, events[0]) {
        OrderlyExactly(Next(q, events[0]), events[1..]);
      }
    }
  }

  /** And jumping does happen: a second session that waits and enters again is released beside the first. */
  lemma {:induction false} JumpingReleasesTwo(a: Item, b: Item)
    requires a.authSeq != b.authSeq && a.hash == b.hash != ""
    ensures var q := Run(EMPTY, [Entered(a), Entered(b), Entered(b)]);
            q.items == [a, b] && q.released == {a.authSeq, b.authSeq} && q.dead == {}
  {
    var p := Short(a.hash);
    AtSnoc([], a, p);
    AtSnoc([a], b, p);
    assert [] + [a] == [a] && [a] + [b] == [a, b];
    var q1, q2 := Turns([a], {}, {a.authSeq}), Turns([a, b], {}, {a.authSeq});
    assert Next(EMPTY, Entered(a)) == q1;
    assert Find([a], b.authSeq) == None;
    assert Next(q1, Entered(b)) == q2;
    assert [a, b][1..] == [b];
    assert Find([a, b], b.authSeq) == Some(b);
    RunThree(EMPTY, Entered(a), Entered(b), Entered(b));
  }

  lemma {:induction false} RunThree(q: Turns, a: Event, b: Event, c: Event)
    ensures Run(q, [a, b, c]) == Next(Next(Next(q, a), b), c)
  {
    assert [a, b, c][1..] == [b, c] && [b, c][1..] == [c] && [c][1..] == [];
    assert Run(Next(q, a), [b, c]) == Run(Next(Next(q, a), b), [c]);
    assert Run(Next(Next(q, a), b), [c]) == Run(Next(Next(Next(q, a), b), c), []);
  }

  // ----- wake-ups -----

  /** The first living session queued for the peer, if any, has been released. */
  ghost predicate Awake(q: Turns, p: string) {
    FirstLive(q.items, p, q.dead).Some? ==> FirstLive(q.items, p, q.dead).value in q.released
  }

  /** A failing session wakes its peer's queue, whatever state the queue was in, and harms no other. */
  lemma {:induction false} FailureWakes(q: Turns, a: int, p: string)
    requires WellFormed(q) && Find(q.items, a).Some?
    requires Awake(q, p) || p == Short(Find(q.items, a).value.hash)
    ensures Awake(Next(q, Failed(a)), p)
  {
    var it := Find(q.items, a).value;
    var rest := Without(q.items, a);
    FindIsIn(q.items, a);
    WithoutMeans(q.items, a);
    NotThere(rest, a, p, q.dead);
    if p != Short(it.hash) {
      FirstLiveIsIn(q.items, p, q.dead);
      assert FirstLive(q.items, p, q.dead) != Some(a);
      FirstLiveWithout(q.items, a, p, q.dead);
    }
  }

  /** Deleting or stopping a session wakes no one: under single flight the queue of a peer stays awake exactly
      when the session was not the first one living, or no one living is left behind it. */
  lemma {:induction false} DeletionStrands(q: Turns, a: int, p: string)
    requires WellFormed(q) && SingleFlight(q) && Awake(q, p)
    ensures Awake(Next(q, Deleted(a)), p) <==>
            FirstLive(q.items, p, q.dead) != Some(a) || FirstLive(q.items, p, q.dead + {a}).None?
    ensures Awake(Next(q, Stopped(a)), p) <==>
            FirstLive(q.items, p, q.dead) != Some(a) || FirstLive(q.items, p, q.dead + {a}).None?
  {
    WithoutIsDead(q.items, a, p, q.dead);
    if FirstLive(q.items, p, q.dead) != Some(a) {
      FirstLiveWithout(q.items, a, p, q.dead);
    } else {
      var f := FirstLive(q.items, p, q.dead + {a});
      FirstLiveIsIn(q.items, p, q.dead + {a});
      if f.Some? {
        var x :| x in q.items && Short(x.hash) == p && x.authSeq == f.value;
        assert x.authSeq !in q.released;
      }
    }
  }

  /** A session that joins keeps the queue awake unless it is the only one living behind dead entries. */
  lemma {:induction false} JoiningKeepsAwake(q: Turns, it: Item, p: string)
    requires WellFormed(q) && Awake(q, p)
    requires it.authSeq !in q.dead && Find(q.items, it.authSeq).None? && it.hash != ""
    ensures Awake(Next(q, Entered(it)), p) <==>
            Short(it.hash) != p || FirstLive(q.items, p, q.dead).Some? || At(q.items, p) == []
  {
    FirstLiveSnoc(q.items, it, p, q.dead);
    FirstLiveIsIn(q.items, p, q.dead);
    FindIsIn(q.items, it.authSeq);
    AtSnoc(q.items, it, Short(it.hash));
  }
}
