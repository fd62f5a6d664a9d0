/** User keys: which end of an access-control profile a new key id is written on (auth_deviceprofile.cpp), and the
    cache of keys (auth_user_common_key.c, auth_uk_manager.c). */
module UserKeys {
  import opened Common

  const TWO_32 := 0x1_0000_0000
  /** The account id of a device without an account. */
  const DEFAULT_ACCOUNT_UID := "ohosAnonymousUid"

  /** Accesser or accessee of a profile. */
  datatype End = End(udid: string, account: string, user: int, token: int, keyId: int, keyTime: nat)

  /** AccessControlProfile; the two flags say BindType::SAME_ACCOUNT and BindLevel::USER. */
  datatype Profile = Profile(accesser: End, accessee: End, sameAccount: bool, userLevel: bool)

  /** One party of an authentication relation. */
  datatype Party = Party(udid: string, account: string, user: int, token: int)

  /** AuthACLInfo: the local device is the source when isServer, the sink otherwise. */
  datatype Acl = Acl(isServer: bool, source: Party, sink: Party)

  function Local(acl: Acl): Party {
    if acl.isServer then acl.source else acl.sink
  }

  function Peer(acl: Acl): Party {
    if acl.isServer then acl.sink else acl.source
  }

  /** The same relation seen in the other role. */
  function Mirror(acl: Acl): Acl {
    Acl(!acl.isServer, acl.sink, acl.source)
  }

  // ----- matching profiles -----

  predicate SameUser(e: End, p: Party) {
    e.udid == p.udid && e.user == p.user
  }

  predicate SameNamedAccount(e: End, p: Party) {
    e.account == p.account && e.account != DEFAULT_ACCOUNT_UID
  }

  /** Token ids are compared as int32_t. */
  predicate SameToken(e: End, p: Party) {
    e.token % TWO_32 == p.token % TWO_32
  }

  /** CompareAssetAclSameAccount, with a and b the parties expected at the accesser and the accessee. */
  predicate MatchesSameAccount(p: Profile, a: Party, b: Party) {
    && p.sameAccount
    && SameUser(p.accesser, a) && SameUser(p.accessee, b)
    && SameNamedAccount(p.accesser, a) && SameNamedAccount(p.accessee, b)
  }

  /** CompareAssetAclDiffAccountWithUserLevel. */
  predicate MatchesUserLevel(p: Profile, a: Party, b: Party) {
    p.userLevel && SameUser(p.accesser, a) && SameUser(p.accessee, b)
  }

  /** CompareAssetAclDiffAccount. */
  predicate MatchesDiffAccount(p: Profile, a: Party, b: Party) {
    && !p.sameAccount && !p.userLevel
    && SameUser(p.accesser, a) && SameUser(p.accessee, b)
    && SameToken(p.accesser, a) && SameToken(p.accessee, b)
  }

  /** CompareAssetAllAcl. */
  predicate MatchesSide(p: Profile, acl: Acl, sameSide: bool, sameAccount: bool) {
    var (a, b) := if sameSide then (acl.source, acl.sink) else (acl.sink, acl.source);
    if sameAccount then MatchesSameAccount(p, a, b) else MatchesUserLevel(p, a, b) || MatchesDiffAccount(p, a, b)
  }

  predicate Matches(p: Profile, acl: Acl, sameAccount: bool) {
    MatchesSide(p, acl, true, sameAccount) || MatchesSide(p, acl, false, sameAccount)
  }

  function Keyed(e: End, keyId: int, time: nat): End {
    e.(keyId := keyId, keyTime := time)
  }

  /** What UpdateDpAclByAuthAcl does to one profile. */
  function Written(p: Profile, acl: Acl, keyId: int, time: nat, sameAccount: bool): Profile {
    var same, other := MatchesSide(p, acl, true, sameAccount), MatchesSide(p, acl, false, sameAccount);
    if (same && acl.isServer) || (other && !acl.isServer) then p.(accesser := Keyed(p.accesser, keyId, time))
    else if (same && !acl.isServer) || (other && acl.isServer) then p.(accessee := Keyed(p.accessee, keyId, time))
    else p
  }

  function WrittenAll(ps: seq<Profile>, acl: Acl, keyId: int, time: nat, sameAccount: bool): seq<Profile> {
    if ps == [] then []
    else [Written(ps[0], acl, keyId, time, sameAccount)] + WrittenAll(ps[1..], acl, keyId, time, sameAccount)
  }

  /** The two ends of a profile belong to the local user and the peer's, and the profile is of the kind asked for: for
      one account, both ends in named accounts that are the parties' own; otherwise bound at user level, or bound for
      other accounts with the parties' own tokens. */
  predicate BelongsTo(p: Profile, mine: End, theirs: End, acl: Acl, sameAccount: bool) {
    var me, peer := Local(acl), Peer(acl);
    && mine.udid == me.udid && mine.user == me.user && theirs.udid == peer.udid && theirs.user == peer.user
    && if sameAccount then
         && p.sameAccount && mine.account == me.account && theirs.account == peer.account
         && mine.account != DEFAULT_ACCOUNT_UID && theirs.account != DEFAULT_ACCOUNT_UID
       else
         || p.userLevel
         || (!p.sameAccount && (mine.token - me.token) % TWO_32 == 0 && (theirs.token - peer.token) % TWO_32 == 0)
  }

  /** The key id goes on the local end of a profile that belongs to the two parties, whichever end that is; any other
      profile stays as it was. */
  ghost predicate WrittenOnLocalEnd(p: Profile, q: Profile, acl: Acl, keyId: int, time: nat, sameAccount: bool) {
    if BelongsTo(p, p.accesser, p.accessee, acl, sameAccount)
    then q == p.(accesser := p.accesser.(keyId := keyId, keyTime := time))
    else if BelongsTo(p, p.accessee, p.accesser, acl, sameAccount)
    then q == p.(accessee := p.accessee.(keyId := keyId, keyTime := time))
    else q == p
  }

  /** Comparison modulo 2^32 is comparison of the low words. */
  lemma {:induction false} SameWord(a: int, b: int)
    ensures a % TWO_32 == b % TWO_32 <==> (a - b) % TWO_32 == 0
  {
  }

  lemma {:induction false} TokensMean(e: End, p: Party)
    ensures SameToken(e, p) <==> (e.token - p.token) % TWO_32 == 0
  {
    SameWord(e.token, p.token);
  }

  /** Which profiles match, and which of their ends is the local one. */
  lemma {:induction false} MatchMeans(p: Profile, acl: Acl, sameAccount: bool)
    ensures MatchesSide(p, acl, acl.isServer, sameAccount) <==> BelongsTo(p, p.accesser, p.accessee, acl, sameAccount)
    ensures MatchesSide(p, acl, !acl.isServer, sameAccount) <==> BelongsTo(p, p.accessee, p.accesser, acl, sameAccount)
  {
    TokensMean(p.accesser, acl.source);
    TokensMean(p.accesser, acl.sink);
    TokensMean(p.accessee, acl.source);
    TokensMean(p.accessee, acl.sink);
  }

  /** For every list of profiles and either role. */
  lemma {:induction false} KeyOnLocalEnd(ps: seq<Profile>, acl: Acl, keyId: int, time: nat, sameAccount: bool)
    ensures var qs := WrittenAll(ps, acl, keyId, time, sameAccount);
            |qs| == |ps| && forall i :: 0 <= i < |ps| ==> WrittenOnLocalEnd(ps[i], qs[i], acl, keyId, time, sameAccount)
  {
    if ps != [] {
      MatchMeans(ps[0], acl, sameAccount);
      KeyOnLocalEnd(ps[1..], acl, keyId, time, sameAccount);
    }
  }

  /** The role does not matter: the same relation seen from the other role writes the same ends. */
  lemma {:induction false} RoleDoesNotMatter(p: Profile, acl: Acl, keyId: int, time: nat, sameAccount: bool)
    ensures Written(p, Mirror(acl), keyId, time, sameAccount) == Written(p, acl, keyId, time, sameAccount)
  {
  }

  // ----- the cache -----

  datatype Key = Key(keyIndex: int, time: nat, bytes: seq<bv8>)

  datatype CacheItem = CacheItem(acl: Acl, key: Key, userLevel: bool)

  /** CompareByAllAcl, with the side flag its callers compute. */
  predicate SameRelation(a: Acl, b: Acl) {
    if a.isServer == b.isServer then a.source == b.source && a.sink == b.sink
    else a.source == b.sink && a.sink == b.source
  }

  /** CompareByAclDiffAccountWithUserLevel. */
  predicate SameUsers(a: Acl, b: Acl) {
    var (x, y) := if a.isServer == b.isServer then (b.source, b.sink) else (b.sink, b.source);
    a.source.udid == x.udid && a.sink.udid == y.udid && a.source.user == x.user && a.sink.user == y.user
  }

  /** CompareByAclDiffAccount. */
  predicate SameUsersAndTokens(a: Acl, b: Acl) {
    var (x, y) := if a.isServer == b.isServer then (b.source, b.sink) else (b.sink, b.source);
    SameUsers(a, b) && a.source.token == x.token && a.sink.token == y.token
  }

  /** CompareByAclSameAccount. */
  predicate SameAccountUsers(a: Acl, b: Acl) {
    var (x, y) := if a.isServer == b.isServer then (b.source, b.sink) else (b.sink, b.source);
    && b.source.account != DEFAULT_ACCOUNT_UID && b.sink.account != DEFAULT_ACCOUNT_UID
    && b.source.account == b.sink.account
    && SameUsers(a, b) && a.source.account == x.account && a.sink.account == y.account
  }

  datatype Lookup = SameAccount | DiffAccount | UserLevel

  /** The three GetUserKeyInfo functions. */
  predicate Answers(how: Lookup, asked: Acl, item: CacheItem) {
    match how
    case SameAccount => SameAccountUsers(asked, item.acl)
    case DiffAccount => SameUsersAndTokens(asked, item.acl)
    case UserLevel => item.userLevel && SameUsers(asked, item.acl)
  }

  function Find(items: seq<CacheItem>, how: Lookup, asked: Acl): Option<Key> {
    if items == [] then None
    else if Answers(how, asked, items[0]) then Some(items[0].key)
    else Find(items[1..], how, asked)
  }

  /** The form InsertUserKeyToUKCache stores: the local device is the source. */
  function Canonical(acl: Acl): Acl {
    if acl.isServer then acl else Mirror(acl)
  }

  /** AuthInsertUserKey: overwrites the key of the same relation, or puts a new item in front. */
  function Insert(items: seq<CacheItem>, acl: Acl, key: Key, userLevel: bool): seq<CacheItem> {
    var i := FirstOf(items, acl);
    if i < |items| then items[i := items[i].(key := key)] else [CacheItem(acl, key, userLevel)] + items
  }

  /** The index of the first item of the same relation, or the length of the list. */
  function FirstOf(items: seq<CacheItem>, acl: Acl): (i: nat)
    ensures i <= |items| && (i < |items| ==> SameRelation(acl, items[i].acl))
    ensures forall j :: 0 <= j < i ==> !SameRelation(acl, items[j].acl)
  {
    if items == [] || SameRelation(acl, items[0].acl) then 0 else 1 + FirstOf(items[1..], acl)
  }

  /** InsertUserKeyToUKCache; `stored` is the key the profile service has for the local user, if any. */
  function Remember(items: seq<CacheItem>, acl: Acl, keyId: int, time: nat, userLevel: bool,
                    stored: Option<seq<bv8>>): seq<CacheItem> {
    if stored.None? || |stored.value| > SESSION_KEY_LENGTH then items
    else Insert(items, Canonical(acl), Key(keyId, time, stored.value), userLevel)
  }

  /** The device DelUserKeyByNetworkId compares with. */
  function DeletedBy(acl: Acl): string {
    if acl.isServer then acl.sink.udid else acl.source.udid
  }

  /** DelUserKeyByNetworkId. */
  function Forget(items: seq<CacheItem>, peerUdid: string): seq<CacheItem> {
    if items == [] then []
    else if DeletedBy(items[0].acl) == peerUdid then Forget(items[1..], peerUdid)
    else [items[0]] + Forget(items[1..], peerUdid)
  }

  /** Every cached relation is in canonical form and cached once. */
  ghost predicate CacheInv(items: seq<CacheItem>) {
    && (forall i :: 0 <= i < |items| ==> items[i].acl.isServer)
    && (forall i, j :: 0 <= i < j < |items| ==> items[i].acl != items[j].acl)
  }

  lemma {:induction false} RememberKeeps(items: seq<CacheItem>, acl: Acl, keyId: int, time: nat, userLevel: bool,
                                        stored: Option<seq<bv8>>)
    requires CacheInv(items)
    ensures CacheInv(Remember(items, acl, keyId, time, userLevel, stored))
  {
  }

  /** Deleting by peer takes out every key for that peer, whichever side negotiated it, and no other. */
  lemma {:induction false} ForgetMeans(items: seq<CacheItem>, peerUdid: string)
    ensures forall x :: x in Forget(items, peerUdid) <==> x in items && Peer(x.acl).udid != peerUdid
  {
    if items != [] {
      ForgetMeans(items[1..], peerUdid);
    }
  }

  lemma {:induction false} ForgetKeeps(items: seq<CacheItem>, peerUdid: string)
    requires CacheInv(items)
    ensures CacheInv(Forget(items, peerUdid))
  {
    if items != [] {
      TailKeeps(items);
      ForgetKeeps(items[1..], peerUdid);
      ForgetMeans(items[1..], peerUdid);
      ConsKeeps(items, Forget(items[1..], peerUdid));
    }
  }

  lemma {:induction false} TailKeeps(items: seq<CacheItem>)
    requires CacheInv(items) && items != []
    ensures CacheInv(items[1..])
  {
  }

  lemma {:induction false} ConsKeeps(items: seq<CacheItem>, rest: seq<CacheItem>)
    requires CacheInv(items) && items != [] && CacheInv(rest) && forall x :: x in rest ==> x in items[1..]
    ensures CacheInv([items[0]] + rest)
  {
    var all := [items[0]] + rest;
    forall k | 0 < k < |all| ensures all[k].acl != items[0].acl {
      assert all[k] == rest[k - 1] && rest[k - 1] in items[1..];
    }
  }

  /** A key remembered is the one key of its relation, and the keys of all other relations stay. */
  lemma {:induction false} RememberMeans(items: seq<CacheItem>, acl: Acl, keyId: int, time: nat, userLevel: bool,
                                        bytes: seq<bv8>)
    requires CacheInv(items) && |bytes| <= SESSION_KEY_LENGTH
    ensures var after := Remember(items, acl, keyId, time, userLevel, Some(bytes));
            && (exists x :: x in after && x.acl == Canonical(acl) && x.key == Key(keyId, time, bytes))
            && (forall x :: x in after && x.acl == Canonical(acl) ==> x.key == Key(keyId, time, bytes))
            && (forall x: CacheItem :: x.acl != Canonical(acl) ==> (x in after <==> x in items))
  {
    var a, key := Canonical(acl), Key(keyId, time, bytes);
    var i := FirstOf(items, a);
    var after := Insert(items, a, key, userLevel);
    if i < |items| {
      assert items[i].acl == a && after[i] in after;
      forall x | x in items && x.acl != a ensures x in after {
        var k :| 0 <= k < |items| && items[k] == x;
        assert after[k] == x;
      }
    } else {
      assert after[0] in after;
    }
  }

  /** Remembering a key and forgetting its peer leaves what forgetting alone leaves. */
  lemma {:induction false} RememberThenForget(items: seq<CacheItem>, acl: Acl, keyId: int, time: nat,
                                        userLevel: bool, stored: Option<seq<bv8>>)
    requires CacheInv(items)
    ensures Forget(Remember(items, acl, keyId, time, userLevel, stored), Peer(acl).udid)
         == Forget(items, Peer(acl).udid)
  {
    if stored.Some? && |stored.value| <= SESSION_KEY_LENGTH {
      var a, key := Canonical(acl), Key(keyId, time, stored.value);
      var i := FirstOf(items, a);
      if i < |items| {
        ForgetIgnores(items, i, key);
      } else {
        assert ([CacheItem(a, key, userLevel)] + items)[1..] == items;
      }
    }
  }

  /** The key of an item does not decide whether it is forgotten. */
  lemma {:induction false} ForgetIgnores(items: seq<CacheItem>, i: nat, key: Key)
    requires i < |items|
    ensures var peer := DeletedBy(items[i].acl); Forget(items[i := items[i].(key := key)], peer) == Forget(items, peer)
  {
    var changed := items[i := items[i].(key := key)];
    if i == 0 {
      assert changed[1..] == items[1..];
    } else {
      ForgetIgnores(items[1..], i - 1, key);
      assert changed[1..] == items[1..][i - 1 := items[i].(key := key)];
    }
  }

  /** What a lookup and a cached item must agree in: the devices and users on either side always; both tokens when the
      accounts differ; both accounts, one and the same named one, when they do not; and the item's user level when it is
      asked for. */
  predicate Agrees(how: Lookup, asked: Acl, item: CacheItem) {
    var me, peer, mine, theirs := Local(asked), Peer(asked), Local(item.acl), Peer(item.acl);
    && me.udid == mine.udid && me.user == mine.user && peer.udid == theirs.udid && peer.user == theirs.user
    && match how
       case DiffAccount => me.token == mine.token && peer.token == theirs.token
       case SameAccount => me.account == mine.account == theirs.account == peer.account != DEFAULT_ACCOUNT_UID
       case UserLevel => item.userLevel
  }

  lemma {:induction false} AnswersAgrees(how: Lookup, asked: Acl, item: CacheItem)
    ensures Answers(how, asked, item) <==> Agrees(how, asked, item)
  {
  }

  /** Item i is the first that agrees with the lookup. */
  ghost predicate FirstAgrees(items: seq<CacheItem>, how: Lookup, asked: Acl, i: int) {
    0 <= i < |items| && Agrees(how, asked, items[i]) && forall j :: 0 <= j < i ==> !Agrees(how, asked, items[j])
  }

  /** A lookup gives the key of the first item that agrees, and nothing exactly when none does. */
  lemma {:induction false} LookupMeans(items: seq<CacheItem>, how: Lookup, asked: Acl)
    ensures forall i :: FirstAgrees(items, how, asked, i) ==> Find(items, how, asked) == Some(items[i].key)
    ensures Find(items, how, asked) == None <==> forall i :: 0 <= i < |items| ==> !Agrees(how, asked, items[i])
  {
    if items != [] {
      AnswersAgrees(how, asked, items[0]);
      LookupMeans(items[1..], how, asked);
      forall i | FirstAgrees(items, how, asked, i) ensures Find(items, how, asked) == Some(items[i].key) {
        if i > 0 {
          assert !Agrees(how, asked, items[0]);
          assert FirstAgrees(items[1..], how, asked, i - 1);
        }
      }
      assert forall i :: 1 <= i < |items| ==> items[i] == items[1..][i - 1];
      assert (forall i :: 0 <= i < |items[1..]| ==> !Agrees(how, asked, items[1..][i])) <==>
             forall i :: 1 <= i < |items| ==> !Agrees(how, asked, items[i]);
    }
  }

  /** Looking a key up gives the same answer in either role. */
  lemma {:induction false} LookupEitherRole(items: seq<CacheItem>, how: Lookup, asked: Acl)
    ensures Find(items, how, Mirror(asked)) == Find(items, how, asked)
  {
    if items != [] {
      LookupEitherRole(items[1..], how, asked);
    }
  }

  /** The relation's own entry, bound at this level, answers the lookup. */
  predicate AnswersItself(how: Lookup, acl: Acl, userLevel: bool) {
    match how
    case SameAccount => acl.source.account == acl.sink.account != DEFAULT_ACCOUNT_UID
    case DiffAccount => true
    case UserLevel => userLevel
  }

  lemma {:induction false} OwnEntryAnswers(how: Lookup, acl: Acl, item: CacheItem)
    requires item.acl == Canonical(acl)
    ensures Answers(how, acl, item) <==> AnswersItself(how, acl, item.userLevel)
  {
  }

  /** What a lookup finds, by position. */
  lemma {:induction false} FindsAt(items: seq<CacheItem>, how: Lookup, asked: Acl, p: nat, key: Key)
    requires p < |items| && items[p].key == key && forall j :: 0 <= j < |items| && j != p ==> items[j].key != key
    ensures Find(items, how, asked) == Some(key) <==>
            Answers(how, asked, items[p]) && forall j :: 0 <= j < p ==> !Answers(how, asked, items[j])
  {
    if p == 0 {
      NotFound(items[1..], how, asked, key);
    } else {
      FindsAt(items[1..], how, asked, p - 1, key);
    }
  }

  lemma {:induction false} NotFound(items: seq<CacheItem>, how: Lookup, asked: Acl, key: Key)
    requires forall j :: 0 <= j < |items| ==> items[j].key != key
    ensures Find(items, how, asked) != Some(key)
  {
    if items != [] {
      NotFound(items[1..], how, asked, key);
    }
  }

  /** A lookup for the relation a new key was remembered for finds that key exactly when the relation's own entry
      answers it - with the bind level it was first cached with - and no entry before it does; a relation that was not
      cached goes to the front. */
  lemma {:induction false} LookupFindsRemembered(items: seq<CacheItem>, how: Lookup, acl: Acl, keyId: int, time: nat,
                                                 userLevel: bool, bytes: seq<bv8>)
    requires CacheInv(items) && |bytes| <= SESSION_KEY_LENGTH
    requires forall j :: 0 <= j < |items| ==> items[j].key != Key(keyId, time, bytes)
    ensures var after := Remember(items, acl, keyId, time, userLevel, Some(bytes));
            var i := FirstOf(items, Canonical(acl));
            Find(after, how, acl) == Some(Key(keyId, time, bytes)) <==>
              if i == |items| then AnswersItself(how, acl, userLevel)
              else && AnswersItself(how, acl, items[i].userLevel)
                   && forall j :: 0 <= j < i ==> !Answers(how, acl, items[j])
  {
    var a, key := Canonical(acl), Key(keyId, time, bytes);
    var i := FirstOf(items, a);
    var after := Insert(items, a, key, userLevel);
    var p := if i < |items| then i else 0;
    assert after[p].acl == a && after[p].key == key;
    assert forall j :: 0 <= j < p ==> after[j] == items[j];
    assert forall j :: 0 <= j < p ==> Answers(how, acl, after[j]) == Answers(how, acl, items[j]);
    OwnEntryAnswers(how, acl, after[p]);
    FindsAt(after, how, acl, p, key);
  }

  /** So a key remembered at user level for a relation first cached below it is not found at user level. */
  lemma {:induction false} FirstLevelStays(acl: Acl, first: Key, keyId: int, time: nat, bytes: seq<bv8>)
    requires |bytes| <= SESSION_KEY_LENGTH
    ensures var cached := [CacheItem(Canonical(acl), first, false)];
            Find(Remember(cached, acl, keyId, time, true, Some(bytes)), UserLevel, acl) == None
  {
    var cached := [CacheItem(Canonical(acl), first, false)];
    assert FirstOf(cached, Canonical(acl)) == 0;
    assert Remember(cached, acl, keyId, time, true, Some(bytes))[1..] == [];
  }

  // ----- runs -----

  /** What happens to the cache: every insertion goes through InsertUserKeyToUKCache. */
  datatype Event =
    | Remembered(acl: Acl, keyId: int, time: nat, userLevel: bool, stored: Option<seq<bv8>>)
    | Forgotten(peerUdid: string)

  function Run(items: seq<CacheItem>, events: seq<Event>): seq<CacheItem>
    decreases |events|
  {
    if events == [] then items
    else
      var e := events[0];
      Run(match e
          case Remembered(acl, keyId, time, userLevel, stored) => Remember(items, acl, keyId, time, userLevel, stored)
          case Forgotten(peerUdid) => Forget(items, peerUdid),
          events[1..])
  }

  lemma {:induction false} RunKeeps(items: seq<CacheItem>, events: seq<Event>)
    requires CacheInv(items)
    ensures CacheInv(Run(items, events))
    decreases |events|
  {
    if events != [] {
      match events[0]
      case Remembered(acl, keyId, time, userLevel, stored) =>
        RememberKeeps(items, acl, keyId, time, userLevel, stored);
        RunKeeps(Remember(items, acl, keyId, time, userLevel, stored), events[1..]);
      case Forgotten(peerUdid) =>
        ForgetKeeps(items, peerUdid);
        RunKeeps(Forget(items, peerUdid), events[1..]);
    }
  }

  /** After every run each cached relation is in canonical form - server role, source local - and cached once. */
  lemma {:induction false} CacheStaysCanonical(events: seq<Event>)
    ensures CacheInv(Run([], events))
  {
    RunKeeps([], events);
  }

  // ----- the profile update as a whole -----

  /** The cache after UpdateDpAclByAuthAcl went through the profiles. */
  function Cached(items: seq<CacheItem>, ps: seq<Profile>, acl: Acl, keyId: int, time: nat, sameAccount: bool,
                  stored: Option<seq<bv8>>): seq<CacheItem>
    decreases |ps|
  {
    if ps == [] then items
    else
      var remembered := Remember(items, acl, keyId, time, ps[0].userLevel, stored);
      Cached(if Matches(ps[0], acl, sameAccount) then remembered else items, ps[1..], acl, keyId, time, sameAccount,
             stored)
  }

  /** What the profiles leave in the cache: nothing new if none belongs to the two parties or no key is stored; else the
      new key as the one key of their relation, and everything else as it was. */
  lemma {:induction false} CachedMeans(items: seq<CacheItem>, ps: seq<Profile>, acl: Acl, keyId: int, time: nat,
                                       sameAccount: bool, stored: Option<seq<bv8>>)
    requires CacheInv(items)
    ensures var after := Cached(items, ps, acl, keyId, time, sameAccount, stored);
            var matched := exists i :: 0 <= i < |ps| && Matches(ps[i], acl, sameAccount);
            && CacheInv(after)
            && (forall x: CacheItem :: x.acl != Canonical(acl) ==> (x in after <==> x in items))
            && (if !matched || stored.None? || |stored.value| > SESSION_KEY_LENGTH then after == items
                else HoldsKey(after, Canonical(acl), Key(keyId, time, stored.value)))
    decreases |ps|
  {
    if ps != [] {
      RememberKeeps(items, acl, keyId, time, ps[0].userLevel, stored);
      var next := if Matches(ps[0], acl, sameAccount) then Remember(items, acl, keyId, time, ps[0].userLevel, stored)
                  else items;
      CachedMeans(next, ps[1..], acl, keyId, time, sameAccount, stored);
      if stored.Some? && |stored.value| <= SESSION_KEY_LENGTH {
        RememberMeans(items, acl, keyId, time, ps[0].userLevel, stored.value);
      }
      assert forall i :: 1 <= i < |ps| ==> ps[i] == ps[1..][i - 1];
      assert (exists i :: 0 <= i < |ps| && Matches(ps[i], acl, sameAccount)) <==>
             || Matches(ps[0], acl, sameAccount)
             || exists i :: 0 <= i < |ps[1..]| && Matches(ps[1..][i], acl, sameAccount);
    }
  }

  /** The relation is cached, with this key. */
  ghost predicate HoldsKey(items: seq<CacheItem>, acl: Acl, key: Key) {
    (exists x :: x in items && x.acl == acl) && forall x :: x in items && x.acl == acl ==> x.key == key
  }
}
