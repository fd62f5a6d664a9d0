/** The global list behind the queue of concurrent authentications, as auth_normalize_request.c changes it in
    place: counted, copied into an array, cleared and notified from. Every method is proved to do to the
    list what the function of NormalizeQueue says. */
module NormalizeList {
  import opened Common
  import opened NormalizeQueue

  class NormalizeList {
    var items: seq<Item>
    /** Sessions that have ended, and queued sessions told to send their device id. */
    var dead: set<int>
    var released: set<int>

    function View(): Turns
      reads this
    {
      Turns(items, dead, released)
    }

    constructor ()
      ensures View() == EMPTY
    {
      items, dead, released := [], {}, {};
    }

    /** GetSameRequestNum. */
    method GetSameRequestNum(hash: string) returns (num: nat)
      ensures num == |At(items, Short(hash))|
    {
      num := 0;
      var i := 0;
      while i < |items|
        invariant 0 <= i <= |items|
        invariant num + |At(items[i..], Short(hash))| == |At(items, Short(hash))|
      {
        assert items[i..][1..] == items[i + 1..];
        if Short(items[i].hash) == Short(hash) {
          num := num + 1;
        }
        i := i + 1;
      }
    }

    /** GetRequestListByUdidHash: the peer's requests in an array of the counted size. */
    method GetRequestList(hash: string, isNeedClear: bool) returns (requests: array<Item>)
      modifies `items
      ensures fresh(requests) && requests[..] == At(old(items), Short(hash))
      ensures items == if isNeedClear then NotAt(old(items), Short(hash)) else old(items)
    {
      var num := GetSameRequestNum(hash);
      requests := new Item[num];
      var index, i := 0, 0;
      while i < |items|
        invariant Copied(old(items), items, i, requests[..], index, isNeedClear, Short(hash))
        decreases |items| - i
      {
        if Short(items[i].hash) == Short(hash) {
          CopyOne(old(items), items, i, requests[..], index, isNeedClear, Short(hash));
        } else {
          CopySkip(old(items), items, i, requests[..], index, isNeedClear, Short(hash));
        }
        if Short(items[i].hash) != Short(hash) || index >= num {
          i := i + 1;
        } else {
          requests[index] := items[i];
          index := index + 1;
          if isNeedClear {
            items := items[..i] + items[i + 1..];
          } else {
            i := i + 1;
          }
        }
      }
      CopyDone(old(items), items, requests[..], index, isNeedClear, Short(hash));
    }

    /** FindAndDelNormalizeRequest. */
    method FindAndDel(a: int) returns (it: Option<Item>)
      modifies `items
      ensures it == Find(old(items), a) && items == Without(old(items), a)
      ensures it.None? ==> items == old(items)
    {
      var i := 0;
      while i < |items|
        invariant 0 <= i <= |items|
        invariant items == old(items)
        invariant Find(items, a) == Find(items[i..], a)
        invariant Without(items, a) == items[..i] + Without(items[i..], a)
      {
        if items[i].authSeq == a {
          it := Some(items[i]);
          items := items[..i] + items[i + 1..];
          return;
        }
        i := i + 1;
      }
      it := None;
    }

    /** DelAuthNormalizeRequest. */
    method Delete(a: int)
      modifies `items
      ensures View() == NormalizeQueue.Delete(old(View()), a)
    {
      var _ := FindAndDel(a);
    }

    /** AuthIsRepeatedAuthRequest. */
    method IsRepeated(a: int) returns (found: bool)
      ensures found == Find(items, a).Some?
    {
      var i := 0;
      while i < |items|
        invariant 0 <= i <= |items|
        invariant Find(items, a) == Find(items[i..], a)
      {
        if items[i].authSeq == a {
          return true;
        }
        i := i + 1;
      }
      return false;
    }

    /** AddNormalizeRequest. */
    method Add(it: Item) returns (num: nat)
      modifies `items
      ensures items == old(items) + [it] && num == |At(items, Short(it.hash))|
    {
      items := items + [it];
      num := GetSameRequestNum(it.hash);
    }

    /** The queueing part of SyncDevIdStateEnter; true when the session may send its device id now. */
    method Enter(it: Item) returns (sends: bool)
      modifies this
      ensures View() == NormalizeQueue.Enter(old(View()), it)
      ensures sends <==> it.authSeq in released || it.hash == ""
    {
      var repeated := IsRepeated(it.authSeq);
      if repeated {
        released := released + {it.authSeq};
        return true;
      }
      if it.hash == "" {
        return true;
      }
      var num := Add(it);
      if num > 1 {
        released := released - {it.authSeq};
        return false;
      }
      released := released + {it.authSeq};
      return true;
    }

    /** AuthNotifyRequestVerify: reaches only a living session. */
    method NotifyVerify(a: int) returns (ok: bool)
      modifies `released
      ensures ok == (a !in dead)
      ensures released == if ok then old(released) + {a} else old(released)
    {
      ok := a !in dead;
      if ok {
        released := released + {a};
      }
    }

    /** NotifyNormalizeRequestSuccess. */
    method NotifySuccess(a: int, supportNego: bool)
      modifies this
      ensures View() == Success(old(View()), a, supportNego)
    {
      var it := FindAndDel(a);
      if it.None? {
        return;
      }
      var requests := GetRequestList(it.value.hash, true);
      var i := 0;
      while i < requests.Length
        invariant 0 <= i <= requests.Length
        invariant dead == old(dead) && requests[..] == At(Without(old(items), a), Short(it.value.hash))
        invariant items == NotAt(Without(old(items), a), Short(it.value.hash))
        invariant released + Woken(requests[i..], supportNego, it.value.link, dead)
               == old(released) + Woken(requests[..], supportNego, it.value.link, dead)
      {
        assert requests[i..][1..] == requests[i + 1..];
        if !(supportNego && requests[i].link == it.value.link) {
          var _ := NotifyVerify(requests[i].authSeq);
        }
        i := i + 1;
      }
      assert requests[requests.Length..] == [];
    }

    /** NotifyNormalizeRequestFail: wakes the first session it can reach. */
    method NotifyFail(a: int)
      modifies this
      ensures View() == Fail(old(View()), a)
    {
      var it := FindAndDel(a);
      if it.None? {
        return;
      }
      var p := Short(it.value.hash);
      FirstLiveAt(items, p, dead);
      var requests := GetRequestList(it.value.hash, false);
      var i := 0;
      while i < requests.Length
        invariant 0 <= i <= requests.Length
        invariant items == Without(old(items), a) && dead == old(dead) && released == old(released)
        invariant requests[..] == At(items, p)
        invariant FirstLive(items, p, dead) == FirstLive(requests[i..], p, dead)
      {
        assert requests[i..][1..] == requests[i + 1..];
        assert requests[i] in requests[..];
        AtMeans(items, p);
        var ok := NotifyVerify(requests[i].authSeq);
        if ok {
          break;
        }
        i := i + 1;
      }
    }
  }

  /** How far the copying loop has got: `all` was the list, everything before index i is settled, and the
      array holds the matching items found so far. */
  ghost predicate Copied(all: seq<Item>, items: seq<Item>, i: int, copy: seq<Item>, index: int, clears: bool,
                         p: string) {
    && 0 <= i <= |items| && 0 <= index <= |copy| == |At(all, p)|
    && copy[..index] + At(items[i..], p) == At(all, p)
    && (if clears then items[..i] + NotAt(items[i..], p) == NotAt(all, p) else items == all)
  }

  lemma {:induction false} CopyDone(all: seq<Item>, items: seq<Item>, copy: seq<Item>, index: int, clears: bool,
                                    p: string)
    requires Copied(all, items, |items|, copy, index, clears, p)
    ensures copy == At(all, p) && items == if clears then NotAt(all, p) else all
  {
    assert items[|items|..] == [];
    assert items[..|items|] == items;
    assert copy[..index] + [] == copy[..index];
    assert copy[..index] == copy;
  }

  lemma {:induction false} NotAtSkip(items: seq<Item>, i: nat, p: string)
    requires i < |items| && Short(items[i].hash) != p
    ensures items[..i] + NotAt(items[i..], p) == items[..i + 1] + NotAt(items[i + 1..], p)
    ensures At(items[i..], p) == At(items[i + 1..], p)
  {
    assert items[i..][1..] == items[i + 1..];
    assert items[..i + 1] == items[..i] + [items[i]];
  }

  lemma {:induction false} CopySkip(all: seq<Item>, items: seq<Item>, i: int, copy: seq<Item>, index: int,
                                    clears: bool, p: string)
    requires Copied(all, items, i, copy, index, clears, p) && i < |items| && Short(items[i].hash) != p
    ensures Copied(all, items, i + 1, copy, index, clears, p)
  {
    NotAtSkip(items, i, p);
  }

  /** While a matching item is left the array has room for it. */
  lemma {:induction false} CopyFits(all: seq<Item>, items: seq<Item>, i: int, copy: seq<Item>, index: int,
                                    clears: bool, p: string)
    requires Copied(all, items, i, copy, index, clears, p) && i < |items| && Short(items[i].hash) == p
    ensures index < |copy|
    ensures copy[index := items[i]][..index + 1] + At(items[i + 1..], p) == At(all, p)
  {
    assert items[i..][1..] == items[i + 1..];
    assert At(items[i..], p) == [items[i]] + At(items[i + 1..], p);
    assert |copy[..index] + At(items[i..], p)| == |copy|;
    assert copy[index := items[i]][..index + 1] == copy[..index] + [items[i]];
  }

  lemma {:induction false} CopyOne(all: seq<Item>, items: seq<Item>, i: int, copy: seq<Item>, index: int,
                                   clears: bool, p: string)
    requires Copied(all, items, i, copy, index, clears, p) && i < |items| && Short(items[i].hash) == p
    ensures index < |copy|
    ensures if clears then Copied(all, items[..i] + items[i + 1..], i, copy[index := items[i]], index + 1, clears, p)
            else Copied(all, items, i + 1, copy[index := items[i]], index + 1, clears, p)
  {
    CopyFits(all, items, i, copy, index, clears, p);
    assert items[i..][1..] == items[i + 1..];
    var shorter := items[..i] + items[i + 1..];
    assert shorter[i..] == items[i + 1..] && shorter[..i] == items[..i];
  }

  lemma {:induction false} FirstLiveAt(items: seq<Item>, p: string, dead: set<int>)
    ensures FirstLive(At(items, p), p, dead) == FirstLive(items, p, dead)
  {
    if items != [] {
      FirstLiveAt(items[1..], p, dead);
    }
  }
}
