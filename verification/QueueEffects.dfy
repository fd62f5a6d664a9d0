/** What each event does to the queue of concurrent authentications, said of its sessions: who is in the queue
    afterwards, who has been released and who is dead. */
module QueueEffects {
  import opened Common
  import opened NormalizeQueue

  /** The same items in the same order, some left out. */
  ghost predicate Thinned(all: seq<Item>, some: seq<Item>) {
    if some == [] then true
    else if all == [] then false
    else if all[0] == some[0] then Thinned(all[1..], some[1..])
    else Thinned(all[1..], some)
  }

  lemma {:induction false} ThinnedSelf(all: seq<Item>)
    ensures Thinned(all, all)
  {
    if all != [] {
      ThinnedSelf(all[1..]);
    }
  }

  lemma {:induction false} ThinnedLess(all: seq<Item>, some: seq<Item>)
    requires some != [] && Thinned(all, some)
    ensures Thinned(all, some[1..])
  {
    if all[0] == some[0] {
      ThinnedSkip(all, some[1..]);
    } else {
      ThinnedLess(all[1..], some);
      ThinnedSkip(all, some[1..]);
    }
  }

  lemma {:induction false} ThinnedSkip(all: seq<Item>, some: seq<Item>)
    requires all != [] && Thinned(all[1..], some)
    ensures Thinned(all, some)
  {
    if some != [] && all[0] == some[0] {
      ThinnedLess(all[1..], some);
    }
  }

  lemma {:induction false} WithoutThins(items: seq<Item>, a: int)
    ensures Thinned(items, Without(items, a))
  {
    if items == [] {
    } else if items[0].authSeq == a {
      ThinnedSelf(items[1..]);
      ThinnedSkip(items, items[1..]);
    } else {
      WithoutThins(items[1..], a);
    }
  }

  lemma {:induction false} NotAtThins(items: seq<Item>, p: string)
    ensures Thinned(items, NotAt(items, p))
  {
    if items == [] {
    } else if Short(items[0].hash) == p {
      NotAtThins(items[1..], p);
      ThinnedSkip(items, NotAt(items[1..], p));
    } else {
      NotAtThins(items[1..], p);
    }
  }

  lemma {:induction false} ThinnedTwice(a: seq<Item>, b: seq<Item>, c: seq<Item>)
    requires Thinned(a, b) && Thinned(b, c)
    ensures Thinned(a, c)
  {
    if c == [] {
    } else if b[0] == a[0] {
      if b[0] == c[0] {
        ThinnedTwice(a[1..], b[1..], c[1..]);
      } else {
        ThinnedTwice(a[1..], b[1..], c);
        ThinnedSkip(a, c);
      }
    } else {
      ThinnedTwice(a[1..], b, c);
      ThinnedSkip(a, c);
    }
  }

  // ----- success -----

  /** Session b waits in the queue with session a, for the same peer. */
  ghost predicate WaitsWith(q: Turns, a: Item, b: Item) {
    b in q.items && Short(b.hash) == Short(a.hash) && b.authSeq != a.authSeq
  }

  /** A success of session a, in the queue as `it`: its peer's sessions leave the queue, and every living one of them is
      released - but for those on the same link, if the peer negotiates. Nothing else changes. */
  ghost predicate Wakes(q: Turns, it: Item, supportNego: bool, r: Turns) {
    && Thinned(q.items, r.items)
    && (forall x :: x in r.items <==> x in q.items && Short(x.hash) != Short(it.hash))
    && (forall b :: b in r.released <==>
          || b in q.released
          || exists x :: WaitsWith(q, it, x) && x.authSeq == b && b !in q.dead && !(supportNego && x.link == it.link))
  }

  lemma {:induction false} SuccessMeans(q: Turns, a: int, supportNego: bool)
    requires WellFormed(q)
    ensures Success(q, a, supportNego).dead == q.dead
    ensures if Find(q.items, a).None? then Success(q, a, supportNego) == q
            else Wakes(q, Find(q.items, a).value, supportNego, Success(q, a, supportNego))
  {
    var found := Find(q.items, a);
    if found.Some? {
      var it, rest := found.value, Without(q.items, a);
      var p := Short(it.hash);
      FindIsIn(q.items, a);
      WithoutMeans(q.items, a);
      NotAtMeans(rest, p);
      AtMeans(rest, p);
      WokenIsIn(At(rest, p), supportNego, it.link, q.dead);
      WithoutThins(q.items, a);
      NotAtThins(rest, p);
      ThinnedTwice(q.items, rest, NotAt(rest, p));
      forall x | x in q.items && x.authSeq == a ensures x == it {
        SameItem(q.items, x, it);
      }
      WokenWith(q, it, supportNego);
    }
  }

  lemma {:induction false} WokenWith(q: Turns, it: Item, supportNego: bool)
    requires WellFormed(q) && it in q.items
    ensures var woken := Woken(At(Without(q.items, it.authSeq), Short(it.hash)), supportNego, it.link, q.dead);
            forall b :: b in woken <==>
              exists x :: WaitsWith(q, it, x) && x.authSeq == b && b !in q.dead && !(supportNego && x.link == it.link)
  {
    var rest := Without(q.items, it.authSeq);
    var at := At(rest, Short(it.hash));
    WithoutMeans(q.items, it.authSeq);
    AtMeans(rest, Short(it.hash));
    WokenIsIn(at, supportNego, it.link, q.dead);
    assert forall x :: x in at <==> WaitsWith(q, it, x);
    forall b ensures b in Woken(at, supportNego, it.link, q.dead) <==>
        exists x :: WaitsWith(q, it, x) && x.authSeq == b && b !in q.dead && !(supportNego && x.link == it.link)
    {
      if b in Woken(at, supportNego, it.link, q.dead) {
        var x :| x in at && x.authSeq == b && b !in q.dead && !(supportNego && x.link == it.link);
        assert WaitsWith(q, it, x);
      }
    }
  }

  /** An answered device id, and a successful end: who is woken, who leaves, who dies. */
  lemma {:induction false} SuccessWakes(q: Turns, a: int)
    requires WellFormed(q)
    ensures Next(q, Answered(a)).dead == q.dead && Next(q, Completed(a)).dead == q.dead + {a}
    ensures if Find(q.items, a).None? then Next(q, Answered(a)) == q && Next(q, Completed(a)) == Kill(q, a)
            else && Wakes(q, Find(q.items, a).value, false, Next(q, Answered(a)))
                 && Wakes(q, Find(q.items, a).value, true, Next(q, Completed(a)))
  {
    SuccessMeans(q, a, false);
    SuccessMeans(q, a, true);
  }

  // ----- failure -----

  /** The item at index i is the first living one of a's peer, a itself left aside. */
  ghost predicate NextInTurn(q: Turns, it: Item, i: int) {
    && 0 <= i < |q.items| && WaitsWith(q, it, q.items[i]) && q.items[i].authSeq !in q.dead
    && forall j :: 0 <= j < i ==> !WaitsWith(q, it, q.items[j]) || q.items[j].authSeq in q.dead
  }

  lemma {:induction false} FirstLiveAt(items: seq<Item>, p: string, dead: set<int>) returns (i: int)
    ensures var f := FirstLive(items, p, dead);
            if f.None? then i == |items| else 0 <= i < |items| && items[i].authSeq == f.value
    ensures i < |items| ==> Short(items[i].hash) == p && items[i].authSeq !in dead
    ensures forall j :: 0 <= j < i ==> Short(items[j].hash) != p || items[j].authSeq in dead
  {
    if items == [] || (Short(items[0].hash) == p && items[0].authSeq !in dead) {
      i := 0;
    } else {
      var k := FirstLiveAt(items[1..], p, dead);
      i := k + 1;
    }
  }

  /** A failure of session a, in the queue as `it`: it leaves the queue and dies, and the next living session of its
      peer, if there is one, is released. Nothing else changes. */
  lemma {:induction false} FailureReleasesNext(q: Turns, a: int)
    requires WellFormed(q)
    ensures Next(q, Failed(a)).dead == q.dead + {a}
    ensures var r := Next(q, Failed(a));
            if Find(q.items, a).None? then r == Kill(q, a)
            else var it := Find(q.items, a).value;
                 && Thinned(q.items, r.items) && (forall x :: x in r.items <==> x in q.items && x.authSeq != a)
                 && (forall i :: NextInTurn(q, it, i) ==> r.released == q.released + {q.items[i].authSeq})
                 && ((forall i :: !NextInTurn(q, it, i)) ==> r.released == q.released)
  {
    FindIsIn(q.items, a);
    if Find(q.items, a).Some? {
      var it := Find(q.items, a).value;
      WithoutMeans(q.items, a);
      WithoutThins(q.items, a);
      WithoutIsDead(q.items, a, Short(it.hash), q.dead);
      var k := FirstLiveAt(q.items, Short(it.hash), q.dead + {a});
      forall i | NextInTurn(q, it, i) ensures i == k {
        assert i >= k;
        if i > k {
          assert WaitsWith(q, it, q.items[k]);
        }
      }
      if k < |q.items| {
        assert NextInTurn(q, it, k);
      }
    }
  }

  // ----- joining and leaving -----

  /** A session that enters: released if it is queued already; queued and released if nobody is queued for its peer,
      queued only otherwise; without a hash, nothing. */
  lemma {:induction false} EnteringMeans(q: Turns, it: Item)
    requires it.authSeq !in q.dead
    ensures var r := Next(q, Entered(it));
            var alone := forall x :: x in q.items ==> Short(x.hash) != Short(it.hash);
            && r.dead == q.dead
            && r.items == q.items + (if Find(q.items, it.authSeq).None? && it.hash != "" then [it] else [])
            && (forall b :: b != it.authSeq ==> (b in r.released <==> b in q.released))
            && (it.authSeq in r.released <==>
                  if Find(q.items, it.authSeq).Some? then true
                  else if it.hash == "" then it.authSeq in q.released
                  else alone)
  {
    AtSnoc(q.items, it, Short(it.hash));
    NobodyAt(q.items, Short(it.hash));
  }

  lemma {:induction false} NobodyAt(items: seq<Item>, p: string)
    ensures At(items, p) == [] <==> forall x :: x in items ==> Short(x.hash) != p
  {
    if items != [] {
      NobodyAt(items[1..], p);
      assert items[0] in items;
      assert forall x :: x in items <==> x == items[0] || x in items[1..];
    }
  }

  /** A deleted session leaves the queue, a stopped one dies in it; neither wakes anybody, and the dead do not enter. */
  lemma {:induction false} LeavingMeans(q: Turns, a: int, it: Item)
    requires WellFormed(q)
    ensures var r := Next(q, Deleted(a));
            && r.dead == q.dead && r.released == q.released && Thinned(q.items, r.items)
            && forall x :: x in r.items <==> x in q.items && x.authSeq != a
    ensures var r := Next(q, Stopped(a)); r.dead == q.dead + {a} && r.released == q.released && r.items == q.items
    ensures it.authSeq in q.dead ==> Next(q, Entered(it)) == q
  {
    WithoutMeans(q.items, a);
    WithoutThins(q.items, a);
  }
}
