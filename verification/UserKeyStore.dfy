/** The profiles and the user-key cache as auth_deviceprofile.cpp and auth_user_common_key.c change them in place. */
module UserKeyStore {
  import opened Common
  import opened UserKeys

  datatype UpdateResult = GetAllAclFail | AclIsEmpty | NotMatch | Succ

  /** What UpdateDpAclByAuthAcl reports of profiles it could read. */
  function UpdateCode(ps: seq<Profile>, acl: Acl, sameAccount: bool): UpdateResult {
    if ps == [] then AclIsEmpty
    else if exists k :: 0 <= k < |ps| && Matches(ps[k], acl, sameAccount) then Succ
    else NotMatch
  }

  class UserKeyCache {
    /** g_userKeyList and its count. */
    var items: seq<CacheItem>
    var cnt: nat

    predicate Valid()
      reads this
    {
      cnt == |items|
    }

    constructor ()
      ensures Valid() && items == []
    {
      items, cnt := [], 0;
    }

    /** AuthInsertUserKey. */
    method AuthInsertUserKey(acl: Acl, key: Key, userLevel: bool)
      requires Valid()
      modifies this
      ensures Valid() && items == Insert(old(items), acl, key, userLevel)
    {
      var i := 0;
      while i < |items|
        invariant 0 <= i <= |items| && items == old(items) && cnt == |items|
        invariant FirstOf(items, acl) == i + FirstOf(items[i..], acl)
      {
        if SameRelation(acl, items[i].acl) {
          items := items[i := items[i].(key := key)];
          return;
        }
        i := i + 1;
      }
      items := [CacheItem(acl, key, userLevel)] + items;
      cnt := cnt + 1;
    }

    /** InsertUserKeyToUKCache. */
    method InsertUserKeyToUKCache(acl: Acl, keyId: int, time: nat, userLevel: bool, stored: Option<seq<bv8>>)
      requires Valid()
      modifies this
      ensures Valid() && items == Remember(old(items), acl, keyId, time, userLevel, stored)
    {
      var info := acl;
      if !acl.isServer {
        info := Acl(!acl.isServer, acl.sink, acl.source);
      }
      if stored.None? || |stored.value| > SESSION_KEY_LENGTH {
        return;
      }
      AuthInsertUserKey(info, Key(keyId, time, stored.value), userLevel);
    }

    /** DelUserKeyByNetworkId. */
    method DelUserKey(peerUdid: string)
      requires Valid()
      modifies this
      ensures Valid() && items == Forget(old(items), peerUdid)
    {
      var i := 0;
      while i < |items|
        invariant cnt == |items| && ForgottenTo(old(items), items, i, peerUdid)
        decreases |items| - i
      {
        var acl := items[i].acl;
        ForgetStep(old(items), items, i, peerUdid);
        if (acl.isServer && acl.sink.udid != peerUdid) || (!acl.isServer && acl.source.udid != peerUdid) {
          i := i + 1;
        } else {
          items := items[..i] + items[i + 1..];
          cnt := cnt - 1;
        }
      }
    }

    /** GetUserKeyInfoSameAccount, GetUserKeyInfoDiffAccount and GetUserKeyInfoDiffAccountWithUserLevel. */
    method GetUserKeyInfo(how: Lookup, asked: Acl) returns (key: Option<Key>)
      ensures key == Find(items, how, asked)
    {
      var i := 0;
      while i < |items|
        invariant 0 <= i <= |items|
        invariant Find(items, how, asked) == Find(items[i..], how, asked)
      {
        if Answers(how, asked, items[i]) {
          return Some(items[i].key);
        }
        i := i + 1;
      }
      return None;
    }
  }

  /** How far DelUserKeyByNetworkId has got: `all` was the list, and everything before index i stays. */
  ghost predicate ForgottenTo(all: seq<CacheItem>, items: seq<CacheItem>, i: int, peerUdid: string) {
    0 <= i <= |items| && Forget(all, peerUdid) == items[..i] + Forget(items[i..], peerUdid)
  }

  lemma {:induction false} ForgetStep(all: seq<CacheItem>, items: seq<CacheItem>, i: int, peerUdid: string)
    requires ForgottenTo(all, items, i, peerUdid) && i < |items|
    ensures if DeletedBy(items[i].acl) == peerUdid then ForgottenTo(all, items[..i] + items[i + 1..], i, peerUdid)
            else ForgottenTo(all, items, i + 1, peerUdid)
  {
    assert items[i..][1..] == items[i + 1..];
    if DeletedBy(items[i].acl) == peerUdid {
      var shorter := items[..i] + items[i + 1..];
      assert shorter[..i] == items[..i] && shorter[i..] == items[i + 1..];
    } else {
      var rest := Forget(items[i + 1..], peerUdid);
      assert items[..i + 1] == items[..i] + [items[i]];
      assert items[..i] + ([items[i]] + rest) == (items[..i] + [items[i]]) + rest;
    }
  }

  class ProfileStore {
    var profiles: seq<Profile>

    constructor (ps: seq<Profile>)
      ensures profiles == ps
    {
      profiles := ps;
    }

    /** UpdateDpAclByAuthAcl; `readable` says the profiles could be read. */
    method UpdateDpAclByAuthAcl(readable: bool, cache: UserKeyCache, acl: Acl, keyId: int, time: nat, sameAccount: bool,
                                stored: Option<seq<bv8>>)
      returns (r: UpdateResult)
      requires cache.Valid()
      modifies this, cache
      ensures cache.Valid()
      ensures !readable ==> r == GetAllAclFail && profiles == old(profiles) && cache.items == old(cache.items)
      ensures readable ==> profiles == WrittenAll(old(profiles), acl, keyId, time, sameAccount)
      ensures readable ==> cache.items == Cached(old(cache.items), old(profiles), acl, keyId, time, sameAccount, stored)
      ensures readable ==> r == UpdateCode(old(profiles), acl, sameAccount)
    {
      if !readable {
        return GetAllAclFail;
      }
      r := UpdateProfiles(cache, acl, keyId, time, sameAccount, stored);
    }

    method UpdateProfiles(cache: UserKeyCache, acl: Acl, keyId: int, time: nat, sameAccount: bool,
                          stored: Option<seq<bv8>>)
      returns (r: UpdateResult)
      requires cache.Valid()
      modifies this, cache
      ensures cache.Valid()
      ensures profiles == WrittenAll(old(profiles), acl, keyId, time, sameAccount)
      ensures cache.items == Cached(old(cache.items), old(profiles), acl, keyId, time, sameAccount, stored)
      ensures r == UpdateCode(old(profiles), acl, sameAccount)
    {
      if |profiles| == 0 {
        return AclIsEmpty;
      }
      r := NotMatch;
      ghost var all, before, n := profiles, cache.items, Note(acl, keyId, time, sameAccount, stored);
      var i := 0;
      while i < |profiles|
        invariant cache.Valid() && Updated(all, profiles, before, cache.items, i, r, n)
      {
        UpdateStep(all, profiles, before, cache.items, i, r, n);
        var userLevel := profiles[i].userLevel;
        var matched := WriteOne(i, acl, keyId, time, sameAccount);
        if matched {
          r := Succ;
          cache.InsertUserKeyToUKCache(acl, keyId, time, userLevel, stored);
        }
        i := i + 1;
      }
    }

    /** The key id goes on the end of one profile that the two comparisons pick. */
    method WriteOne(i: nat, acl: Acl, keyId: int, time: nat, sameAccount: bool) returns (matched: bool)
      requires i < |profiles|
      modifies this
      ensures matched == Matches(old(profiles)[i], acl, sameAccount)
      ensures profiles == old(profiles)[i := Written(old(profiles)[i], acl, keyId, time, sameAccount)]
    {
      var p := profiles[i];
      var same := MatchesSide(p, acl, true, sameAccount);
      var diff := MatchesSide(p, acl, false, sameAccount);
      matched := same || diff;
      if (same && acl.isServer) || (diff && !acl.isServer) {
        profiles := profiles[i := p.(accesser := Keyed(p.accesser, keyId, time))];
      } else if (same && !acl.isServer) || (diff && acl.isServer) {
        profiles := profiles[i := p.(accessee := Keyed(p.accessee, keyId, time))];
      }
    }
  }

  /** The arguments of one update. */
  datatype Note = Note(acl: Acl, keyId: int, time: nat, sameAccount: bool, stored: Option<seq<bv8>>)

  /** How far the update has got: `all` were the profiles, `before` the cache, and the first i profiles are done. */
  ghost predicate Updated(all: seq<Profile>, ps: seq<Profile>, before: seq<CacheItem>, items: seq<CacheItem>, i: int,
                          r: UpdateResult, n: Note)
  {
    && 0 <= i <= |ps| == |all| && ps[i..] == all[i..]
    && ps[..i] + WrittenAll(all[i..], n.acl, n.keyId, n.time, n.sameAccount)
       == WrittenAll(all, n.acl, n.keyId, n.time, n.sameAccount)
    && Cached(items, all[i..], n.acl, n.keyId, n.time, n.sameAccount, n.stored)
       == Cached(before, all, n.acl, n.keyId, n.time, n.sameAccount, n.stored)
    && r == if exists k :: 0 <= k < i && Matches(all[k], n.acl, n.sameAccount) then Succ else NotMatch
  }

  lemma {:induction false} UpdateStep(all: seq<Profile>, ps: seq<Profile>, before: seq<CacheItem>,
                                      items: seq<CacheItem>, i: int,
                                      r: UpdateResult, n: Note)
    requires Updated(all, ps, before, items, i, r, n) && i < |ps|
    ensures var p := ps[i];
            var matched := Matches(p, n.acl, n.sameAccount);
            Updated(all, ps[i := Written(p, n.acl, n.keyId, n.time, n.sameAccount)], before,
                    if matched then Remember(items, n.acl, n.keyId, n.time, p.userLevel, n.stored) else items,
                    i + 1, if matched then Succ else r, n)
  {
    var p := ps[i];
    var ps1 := ps[i := Written(p, n.acl, n.keyId, n.time, n.sameAccount)];
    assert p == ps[i..][0] == all[i] && all[i..][1..] == all[i + 1..];
    assert ps1[i + 1..] == ps[i..][1..];
    assert ps1[..i + 1] == ps[..i] + [ps1[i]];
    var rest := WrittenAll(all[i + 1..], n.acl, n.keyId, n.time, n.sameAccount);
    assert ps[..i] + ([ps1[i]] + rest) == (ps[..i] + [ps1[i]]) + rest;
  }
}
