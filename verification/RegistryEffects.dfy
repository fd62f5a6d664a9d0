/** What each operation on the registry does to which manager and which link, said of the two lists before and after. */
module RegistryEffects {
  import opened Common
  import opened Addresses
  import opened Registry
  import ConnIds

  /** The manager has a link of the address's type, to that address. */
  predicate ReachesAt(m: Manager, addr: Address) {
    At(m, TypeOf(addr)).info.Some? && Compare(At(m, TypeOf(addr)).info.value, addr)
  }

  /** Manager i is the first on the list with a link to the address. */
  ghost predicate FirstAt(list: seq<Manager>, addr: Address, i: int) {
    0 <= i < |list| && ReachesAt(list[i], addr) && forall j :: 0 <= j < i ==> !ReachesAt(list[j], addr)
  }

  /** Manager i is the first on the list with the id, and the first of the device. */
  ghost predicate FirstId(list: seq<Manager>, authId: int, i: int) {
    0 <= i < |list| && list[i].authId == authId && forall j :: 0 <= j < i ==> list[j].authId != authId
  }

  ghost predicate FirstOf(list: seq<Manager>, udid: string, i: int) {
    0 <= i < |list| && list[i].udid == udid && forall j :: 0 <= j < i ==> list[j].udid != udid
  }

  /** Between the lists one link of one manager changed, and became this. */
  ghost predicate OnlyLink(list: seq<Manager>, list1: seq<Manager>, i: int, t: LinkType, link: Slot) {
    && 0 <= i < |list| == |list1| && (forall k :: 0 <= k < |list| && k != i ==> list1[k] == list[k])
    && list1[i].authId == list[i].authId && list1[i].udid == list[i].udid && list1[i].isServer == list[i].isServer
    && At(list1[i], t) == link
    && forall k :: 0 <= k < LINK_MAX && k != LinkIndex(t) ==> list1[i].links[k] == list[i].links[k]
  }

  /** Between the lists one link of one manager was taken away, and with the last link the manager. */
  ghost predicate Cut(list: seq<Manager>, list1: seq<Manager>, i: int, t: LinkType) {
    && 0 <= i < |list|
    && if exists k :: 1 <= k < LINK_MAX && k != LinkIndex(t) && list[i].links[k].connId != 0
       then OnlyLink(list, list1, i, t, Slot(0, None, false))
       else && |list1| == |list| - 1 && (forall k :: 0 <= k < i ==> list1[k] == list[k])
            && forall k :: i < k < |list| ==> list1[k - 1] == list[k]
  }

  /** The same, if the link had a connection. */
  ghost predicate LinkGone(list: seq<Manager>, list1: seq<Manager>, i: int, t: LinkType) {
    0 <= i < |list| && if At(list[i], t).connId == 0 then list1 == list else Cut(list, list1, i, t)
  }

  /** One list is the other's side, untouched. */
  ghost predicate OtherSame(r: Lists, s: Lists, isServer: bool) {
    if isServer then s.clients == r.clients else s.servers == r.servers
  }

  lemma {:induction false} AddrFirst(list: seq<Manager>, addr: Address)
    ensures var i := First(list, ByAddr(addr), 0);
            && (i < |list| ==> FirstAt(list, addr, i))
            && (i == |list| ==> forall j :: 0 <= j < |list| ==> !ReachesAt(list[j], addr))
            && forall j :: FirstAt(list, addr, j) ==> j == i
  {
    var i := First(list, ByAddr(addr), 0);
    assert forall m :: ByAddr(addr)(m) == ReachesAt(m, addr);
    forall j | FirstAt(list, addr, j) ensures j == i {
      assert ByAddr(addr)(list[j]);
    }
  }

  lemma {:induction false} IdFirst(list: seq<Manager>, authId: int)
    ensures var i := First(list, ById(authId), 0);
            && (i < |list| ==> FirstId(list, authId, i))
            && (i == |list| ==> forall j :: 0 <= j < |list| ==> list[j].authId != authId)
            && forall j :: FirstId(list, authId, j) ==> j == i
  {
    var i := First(list, ById(authId), 0);
    assert forall m :: ById(authId)(m) == (m.authId == authId);
    forall j | FirstId(list, authId, j) ensures j == i {
      assert ById(authId)(list[j]);
    }
  }

  lemma {:induction false} UdidFirst(list: seq<Manager>, udid: string)
    ensures var i := First(list, ByUdid(udid), 0);
            && (i < |list| ==> FirstOf(list, udid, i))
            && (i == |list| ==> forall j :: 0 <= j < |list| ==> list[j].udid != udid)
            && forall j :: FirstOf(list, udid, j) ==> j == i
  {
    var i := First(list, ByUdid(udid), 0);
    assert forall m :: ByUdid(udid)(m) == (m.udid == udid);
    forall j | FirstOf(list, udid, j) ensures j == i {
      assert ByUdid(udid)(list[j]);
    }
  }

  lemma {:induction false} PutTouches(list: seq<Manager>, i: nat, t: LinkType, link: Slot)
    requires i < |list|
    ensures OnlyLink(list, list[i := Put(list[i], t, link)], i, t, link)
  {
  }

  /** Without this link the manager has another exactly when it had one. */
  lemma {:induction false} OtherLinks(m: Manager, t: LinkType)
    ensures HasLink(Put(m, t, NO_LINK))
            <==> exists k :: 1 <= k < LINK_MAX && k != LinkIndex(t) && m.links[k].connId != 0
  {
    var cut := Put(m, t, NO_LINK);
    assert forall k :: 1 <= k < LINK_MAX && k != LinkIndex(t) ==> cut.links[k] == m.links[k];
    assert cut.links[LinkIndex(t)].connId == 0;
  }

  lemma {:induction false} DeleteTouches(list: seq<Manager>, i: nat, t: LinkType)
    requires i < |list|
    ensures LinkGone(list, Delete(list, i, t), i, t)
  {
    OtherLinks(list[i], t);
    if HasLink(Put(list[i], t, NO_LINK)) {
      PutTouches(list, i, t, NO_LINK);
    } else {
      RemovedShifts(list, i);
    }
  }

  lemma {:induction false} RemovedShifts(list: seq<Manager>, i: nat)
    requires i < |list|
    ensures var list1 := Removed(list, i);
            && |list1| == |list| - 1 && (forall k :: 0 <= k < i ==> list1[k] == list[k])
            && forall k :: i < k < |list| ==> list1[k - 1] == list[k]
  {
  }

  // ----- by address -----

  /** Authentication passed: the first manager of that side at the address has its link passed, connection and info as
      they were. Without such a manager, or without an available key, nothing changes. */
  lemma {:induction false} PassedMeans(r: Lists, isServer: bool, addr: Address, available: bool)
    ensures var s := Next(r, SetAuthPassed(isServer, addr, available));
            var list, list1, t := SideOf(r, isServer), SideOf(s, isServer), TypeOf(addr);
            && OtherSame(r, s, isServer)
            && (forall i :: FirstAt(list, addr, i) && available ==>
                  OnlyLink(list, list1, i, t, At(list[i], t).(passed := true)))
            && (!available || (forall i :: !FirstAt(list, addr, i)) ==> s == r)
  {
    var list := SideOf(r, isServer);
    AddrFirst(list, addr);
    var i := First(list, ByAddr(addr), 0);
    if i < |list| {
      PutTouches(list, i, TypeOf(addr), At(list[i], TypeOf(addr)).(passed := true));
    }
  }

  /** Decrypted data: the first manager at the address, on the side the data did not come from, has its link passed and
      bound to the connection it came on. */
  lemma {:induction false} ReceivedMeans(r: Lists, addr: Address, fromServer: bool, connId: nat, decrypted: bool)
    ensures var s := Next(r, DataReceived(addr, fromServer, connId, decrypted));
            var list, list1, t := SideOf(r, !fromServer), SideOf(s, !fromServer), TypeOf(addr);
            && OtherSame(r, s, !fromServer)
            && (forall i :: FirstAt(list, addr, i) && decrypted ==>
                  OnlyLink(list, list1, i, t, Slot(connId, At(list[i], t).info, true)))
            && (!decrypted || (forall i :: !FirstAt(list, addr, i)) ==> s == r)
  {
    var list := SideOf(r, !fromServer);
    AddrFirst(list, addr);
    var i := First(list, ByAddr(addr), 0);
    if i < |list| {
      var t := TypeOf(addr);
      PutTouches(list, i, t, At(list[i], t).(passed := true));
      PutTouches(SetPassedAt(list, i, t), i, t, Slot(connId, At(list[i], t).info, true));
    }
  }

  /** A failed session: the first manager at the address loses its socket if it still is on the session's connection and
      that runs over a socket of its own; the link type stays in the connection id. */
  lemma {:induction false} SyncedMeans(r: Lists, isServer: bool, addr: Address, connId: ConnIds.Word64)
    ensures var s := Next(r, SyncConnId(isServer, addr, connId));
            var list, list1, t := SideOf(r, isServer), SideOf(s, isServer), TypeOf(addr);
            && OtherSame(r, s, isServer)
            && (forall i :: FirstAt(list, addr, i) ==>
                  if At(list[i], t).connId == connId && ConnIds.GetConnType(connId) in {1, 11}
                  then exists lost: ConnIds.Word64 ::
                         && ConnIds.GetConnType(lost) == ConnIds.GetConnType(connId) && ConnIds.GetFd(lost) == -1
                         && OnlyLink(list, list1, i, t, At(list[i], t).(connId := lost))
                  else s == r)
            && ((forall i :: !FirstAt(list, addr, i)) ==> s == r)
  {
    var list := SideOf(r, isServer);
    AddrFirst(list, addr);
    var i := First(list, ByAddr(addr), 0);
    if i < |list| {
      var t := TypeOf(addr);
      ConnIds.ConnIdRoundTrip(ConnIds.GetConnType(connId), ConnIds.INVALID_FD);
      PutTouches(list, i, t, At(list[i], t).(connId := NoSocket(connId)));
    }
  }

  /** Removal by address: the first manager there loses that link. */
  lemma {:induction false} RemovedAtMeans(r: Lists, isServer: bool, addr: Address)
    ensures var s := Next(r, RemoveByAddr(isServer, addr));
            var list, list1, t := SideOf(r, isServer), SideOf(s, isServer), TypeOf(addr);
            && OtherSame(r, s, isServer)
            && (forall i :: FirstAt(list, addr, i) ==> LinkGone(list, list1, i, t))
            && ((forall i :: !FirstAt(list, addr, i)) ==> s == r)
  {
    var list := SideOf(r, isServer);
    AddrFirst(list, addr);
    var i := First(list, ByAddr(addr), 0);
    if i < |list| {
      DeleteTouches(list, i, TypeOf(addr));
    }
  }

  // ----- by id -----

  /** Manager i of that side is the one an id stands for: clients before servers. */
  ghost predicate Meant(r: Lists, authId: int, isServer: bool, i: int) {
    && FirstId(SideOf(r, isServer), authId, i)
    && (isServer ==> forall j :: 0 <= j < |r.clients| ==> r.clients[j].authId != authId)
  }

  ghost predicate Unknown(r: Lists, authId: int) {
    && (forall j :: 0 <= j < |r.clients| ==> r.clients[j].authId != authId)
    && forall j :: 0 <= j < |r.servers| ==> r.servers[j].authId != authId
  }

  /** Rebinding by id. */
  lemma {:induction false} RebindMeans(r: Lists, authId: int, t: LinkType, connId: nat)
    ensures var s := Next(r, SetConnId(authId, t, connId));
            && (Unknown(r, authId) ==> s == r)
            && forall isServer, i :: Meant(r, authId, isServer, i) ==>
                 var list := SideOf(r, isServer);
                 && OtherSame(r, s, isServer)
                 && OnlyLink(list, SideOf(s, isServer), i, t, At(list[i], t).(connId := connId))
  {
    IdFirst(r.clients, authId);
    IdFirst(r.servers, authId);
    var i, j := First(r.clients, ById(authId), 0), First(r.servers, ById(authId), 0);
    if i < |r.clients| {
      PutTouches(r.clients, i, t, At(r.clients[i], t).(connId := connId));
    } else if j < |r.servers| {
      PutTouches(r.servers, j, t, At(r.servers[j], t).(connId := connId));
    }
  }

  /** Removal by id. */
  lemma {:induction false} RemovedMeans(r: Lists, authId: int, t: LinkType)
    ensures GoneById(r, Next(r, RemoveById(authId, t)), authId, t)
  {
    RemovalDrops(r, authId, t);
  }

  // ----- by connection -----

  /** The manager an id stands for lost its link, whatever its connection; or it did if it had one. */
  ghost predicate CutById(r: Lists, s: Lists, authId: int, t: LinkType) {
    && (Unknown(r, authId) ==> s == r)
    && forall isServer, i :: Meant(r, authId, isServer, i) ==>
         OtherSame(r, s, isServer) && Cut(SideOf(r, isServer), SideOf(s, isServer), i, t)
  }

  ghost predicate GoneById(r: Lists, s: Lists, authId: int, t: LinkType) {
    && (Unknown(r, authId) ==> s == r)
    && forall isServer, i :: Meant(r, authId, isServer, i) ==>
         OtherSame(r, s, isServer) && LinkGone(SideOf(r, isServer), SideOf(s, isServer), i, t)
  }

  /** What a lost connection does to the manager found on it: links that run over a socket go, an SLE link goes if it
      has a connection, the others stay. */
  ghost predicate Dropped(r: Lists, s: Lists, id: Option<int>, t: LinkType) {
    if id.None? then s == r
    else if t in {Wifi, P2p, EnhancedP2p, SessionKey, Usb} then CutById(r, s, id.value, t)
    else if t == Sle then GoneById(r, s, id.value, t)
    else s == r
  }

  lemma {:induction false} RebindThenCut(list: seq<Manager>, authId: int, i: nat, t: LinkType, dup: nat)
    requires dup != 0 && i < |list| && i == First(list, ById(authId), 0)
    ensures var list1 := SetConnIdAt(list, i, t, dup);
            First(list1, ById(authId), 0) == i && Cut(list, Delete(list1, i, t), i, t)
  {
    var list1 := SetConnIdAt(list, i, t, dup);
    PutTouches(list, i, t, At(list[i], t).(connId := dup));
    DeleteTouches(list1, i, t);
    IdFirst(list, authId);
    IdFirst(list1, authId);
    assert FirstId(list1, authId, i);
    assert forall k :: 1 <= k < LINK_MAX && k != LinkIndex(t) ==> list1[i].links[k] == list[i].links[k];
  }

  lemma {:induction false} SocketDrops(r: Lists, authId: int, t: LinkType, dup: nat)
    requires dup != 0
    ensures CutById(r, DeleteById(UpdateById(r, authId, t, dup), authId, t), authId, t)
  {
    IdFirst(r.clients, authId);
    IdFirst(r.servers, authId);
    var i, j := First(r.clients, ById(authId), 0), First(r.servers, ById(authId), 0);
    if i < |r.clients| {
      RebindThenCut(r.clients, authId, i, t, dup);
    } else if j < |r.servers| {
      RebindThenCut(r.servers, authId, j, t, dup);
    }
  }

  lemma {:induction false} RemovalDrops(r: Lists, authId: int, t: LinkType)
    ensures GoneById(r, DeleteById(r, authId, t), authId, t)
  {
    IdFirst(r.clients, authId);
    IdFirst(r.servers, authId);
    var i, j := First(r.clients, ById(authId), 0), First(r.servers, ById(authId), 0);
    if i < |r.clients| {
      DeleteTouches(r.clients, i, t);
    } else if j < |r.servers| {
      DeleteTouches(r.servers, j, t);
    }
  }

  lemma {:induction false} DisconnectDrops(r: Lists, id: Option<int>, t: LinkType, dup: nat)
    requires dup != 0
    ensures Dropped(r, DisconnectId(r, id, t, dup), id, t)
  {
    if id.None? {
    } else if DropsOnDisconnect(t) {
      SocketDrops(r, id.value, t, dup);
    } else if t == Sle {
      RemovalDrops(r, id.value, t);
    }
  }

  /** The id of the first manager on that connection. */
  lemma {:induction false} IdOfMeans(list: seq<Manager>, t: LinkType, connId: nat)
    ensures var id := IdOf(list, t, connId);
            if id.None? then forall j :: 0 <= j < |list| ==> At(list[j], t).connId != connId
            else exists i :: && 0 <= i < |list| && At(list[i], t).connId == connId && list[i].authId == id.value
                             && forall j :: 0 <= j < i ==> At(list[j], t).connId != connId
  {
    assert forall m :: ByConnId(t, connId)(m) == (At(m, t).connId == connId);
  }

  /** A lost connection: the client, then the server, found on it before anything changed. */
  lemma {:induction false} DisconnectedMeans(r: Lists, t: LinkType, connId: nat, dup: nat) returns (mid: Lists)
    requires dup != 0
    ensures Dropped(r, mid, IdOf(r.clients, t, connId), t)
    ensures Dropped(mid, Next(r, Disconnected(t, connId, dup)), IdOf(r.servers, t, connId), t)
  {
    mid := DisconnectId(r, IdOf(r.clients, t, connId), t, dup);
    DisconnectDrops(r, IdOf(r.clients, t, connId), t, dup);
    DisconnectDrops(mid, IdOf(r.servers, t, connId), t, dup);
  }

  // ----- by device -----

  /** The same managers in the same order, some left out. */
  ghost predicate Thinned(all: seq<Manager>, some: seq<Manager>) {
    if some == [] then true
    else if all == [] then false
    else if all[0] == some[0] then Thinned(all[1..], some[1..])
    else Thinned(all[1..], some)
  }

  lemma {:induction false} ThinnedLess(all: seq<Manager>, some: seq<Manager>)
    requires some != [] && Thinned(all, some)
    ensures Thinned(all, some[1..])
  {
    if all[0] != some[0] {
      ThinnedLess(all[1..], some);
    }
    ThinnedSkip(all, some[1..]);
  }

  lemma {:induction false} ThinnedSkip(all: seq<Manager>, some: seq<Manager>)
    requires all != [] && Thinned(all[1..], some)
    ensures Thinned(all, some)
  {
    if some != [] && all[0] == some[0] {
      ThinnedLess(all[1..], some);
    }
  }

  /** A device's managers that never passed: exactly those without a passed link go, the rest stay in order. */
  lemma {:induction false} NotPassedMeans(list: seq<Manager>, udid: string)
    ensures var rest := WithoutNotPassed(list, udid);
            && Thinned(list, rest)
            && forall m :: m in rest <==>
                 m in list && (m.udid != udid || exists i :: 1 <= i < LINK_MAX && m.links[i].passed)
  {
    if list != [] {
      NotPassedMeans(list[1..], udid);
      var rest := WithoutNotPassed(list[1..], udid);
      if HasPassed(list[0]) || list[0].udid != udid {
      } else {
        ThinnedSkip(list, rest);
      }
      assert forall m :: m in list <==> m == list[0] || m in list[1..];
    }
  }

  lemma {:induction false} RemoveNotPassedMeans(r: Lists, udid: string)
    ensures var s := Next(r, RemoveNotPassed(udid));
            && (forall isServer, m :: m in SideOf(s, isServer) <==>
                  && m in SideOf(r, isServer)
                  && (m.udid != udid || exists i :: 1 <= i < LINK_MAX && m.links[i].passed))
            && Thinned(r.clients, s.clients) && Thinned(r.servers, s.servers)
  {
    NotPassedMeans(r.clients, udid);
    NotPassedMeans(r.servers, udid);
  }

  /** Which manager a session gets: the first at its address, bound to its connection; else, if the peer normalises, the
      first of the device, with the session's address and connection; else a new one at the end. */
  lemma {:induction false} GetDevicePicks(list: seq<Manager>, authSeq: int, info: Info)
    ensures var (list1, i, isNew) := GetDevice(list, authSeq, info);
            var t := TypeOf(info.addr);
            var known := exists k :: FirstAt(list, info.addr, k);
            var merged := !known && info.normalized && exists k :: FirstOf(list, info.udid, k);
            && (isNew <==> !known)
            && (known ==> FirstAt(list, info.addr, i) && At(list1[i], t).info == At(list[i], t).info)
            && (merged ==> FirstOf(list, info.udid, i) && At(list1[i], t).info == Some(info.addr))
            && (known || merged ==>
                  OnlyLink(list, list1, i, t, At(list1[i], t)) && At(list1[i], t).connId == info.connId)
            && (!known && !merged ==>
                  && i == |list| && |list1| == |list| + 1 && (forall k :: 0 <= k < |list| ==> list1[k] == list[k])
                  && list1[i].authId == authSeq && list1[i].isServer == info.isServer && list1[i].udid == info.udid
                  && At(list1[i], t) == Slot(info.connId, Some(info.addr), false)
                  && forall k :: 0 <= k < LINK_MAX && k != LinkIndex(t) ==> list1[i].links[k].connId == 0)
  {
    AddrFirst(list, info.addr);
    UdidFirst(list, info.udid);
    var i, j, t := First(list, ByAddr(info.addr), 0), First(list, ByUdid(info.udid), 0), TypeOf(info.addr);
    var list1 := GetDevice(list, authSeq, info).0;
    if i < |list| {
      PutTouches(list, i, t, At(list1[i], t));
    } else if j < |list| && info.normalized {
      PutTouches(list, j, t, At(list1[j], t));
    }
  }

  /** Going online directly, and a BLE key saved without a connection: the session's manager has its link passed, all
      else as the look-up left it. */
  lemma {:induction false} OnlineMeans(list: seq<Manager>, e: Event)
    requires e.DirectOnline? || (e.SetSessionKey? && !e.isConnect && e.keyOk)
    ensures var after := if e.DirectOnline? then GoOnline(list, e) else SetKey(list, e);
            if TypeOf(e.info.addr) != Ble then after == list
            else var (list1, i, _) := GetDevice(list, e.authSeq, e.info);
                 OnlyLink(list1, after, i, Ble, At(list1[i], Ble).(passed := true))
  {
    if TypeOf(e.info.addr) == Ble {
      var (list1, i, _) := GetDevice(list, e.authSeq, e.info);
      PutTouches(list1, i, Ble, At(list1[i], Ble).(passed := true));
    }
  }

  /** A key saved on a connection leaves what the look-up left. One that cannot be stored undoes a look-up that made or
      merged the link, and leaves another; off a connection only BLE keys are saved. */
  lemma {:induction false} KeyMeans(list: seq<Manager>, e: Event)
    requires e.SetSessionKey? && (e.isConnect || !e.keyOk)
    ensures var (list1, i, isNew) := GetDevice(list, e.authSeq, e.info);
            if !e.isConnect && TypeOf(e.info.addr) != Ble then SetKey(list, e) == list
            else if e.keyOk || !isNew then SetKey(list, e) == list1
            else LinkGone(list1, SetKey(list, e), i, TypeOf(e.info.addr))
  {
    var (list1, i, isNew) := GetDevice(list, e.authSeq, e.info);
    DeleteTouches(list1, i, TypeOf(e.info.addr));
  }

  // ----- handles of direct links -----

  /** The manager has an authenticated direct link of this kind. */
  predicate PassedLink(m: Manager, t: LinkType) {
    var link := At(m, t);
    link.passed && link.info.Some? && TypeOf(link.info.value) == t
  }

  predicate HasDirect(m: Manager) {
    PassedLink(m, EnhancedP2p) || PassedLink(m, P2p)
  }

  /** The handle of the manager's direct link, the enhanced one if there is one. */
  predicate HandleOf(m: Manager, h: Handle) {
    HasDirect(m) && h.authId == m.authId && h.t == if PassedLink(m, EnhancedP2p) then EnhancedP2p else P2p
  }

  ghost predicate Belongs(list: seq<Manager>, h: Handle) {
    exists m :: m in list && HandleOf(m, h)
  }

  function DirectCount(list: seq<Manager>): nat {
    if list == [] then 0 else DirectCount(list[1..]) + if HasDirect(list[0]) then 1 else 0
  }

  lemma {:induction false} HandlesCount(list: seq<Manager>)
    ensures |DirectHandles(list)| == DirectCount(list)
  {
    if list != [] {
      HandlesCount(list[1..]);
    }
  }

  lemma {:induction false} HandleHasManager(list: seq<Manager>, k: nat) returns (m: Manager)
    requires k < |DirectHandles(list)|
    ensures m in list && HandleOf(m, DirectHandles(list)[k])
  {
    if !HasDirect(list[0]) {
      m := HandleHasManager(list[1..], k);
    } else if k == 0 {
      m := list[0];
    } else {
      m := HandleHasManager(list[1..], k - 1);
    }
  }

  lemma {:induction false} ManagerHasHandle(list: seq<Manager>, m: Manager) returns (k: nat)
    requires m in list && HasDirect(m)
    ensures k < |DirectHandles(list)| && HandleOf(m, DirectHandles(list)[k])
  {
    if m == list[0] {
      k := 0;
    } else {
      k := ManagerHasHandle(list[1..], m);
      if HasDirect(list[0]) {
        k := k + 1;
      }
    }
  }

  /** Every handle belongs to an authenticated direct link, and every manager with one has exactly one. */
  lemma {:induction false} HandlesMean(list: seq<Manager>)
    ensures var handles := DirectHandles(list);
            && |handles| == DirectCount(list)
            && (forall k :: 0 <= k < |handles| ==> Belongs(list, handles[k]))
            && forall m :: m in list && HasDirect(m) ==> exists k :: 0 <= k < |handles| && HandleOf(m, handles[k])
  {
    var handles := DirectHandles(list);
    HandlesCount(list);
    forall k | 0 <= k < |handles| ensures Belongs(list, handles[k]) {
      var m := HandleHasManager(list, k);
    }
    forall m | m in list && HasDirect(m) ensures exists k :: 0 <= k < |handles| && HandleOf(m, handles[k]) {
      var k := ManagerHasHandle(list, m);
    }
  }
}
