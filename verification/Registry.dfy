/** The registry of auth managers (auth_manager.c, auth_device.c): two lists of managers, one per side, each
    manager with one slot per link type, as functions on the lists' value. */
module Registry {
  import opened Common
  import opened Addresses
  import ConnIds

  const LINK_MAX := 12

  /** The index AuthLinkType gives a link type; index 0 is unused. */
  function LinkIndex(t: LinkType): (i: int)
    ensures 1 <= i < LINK_MAX
  {
    match t
    case Wifi => 1
    case Br => 2
    case Ble => 3
    case P2p => 4
    case EnhancedP2p => 5
    case RawEnhancedP2p => 6
    case NormalizedKey => 7
    case SessionChannel => 8
    case SessionKey => 9
    case Sle => 10
    case Usb => 11
  }

  /** connId, connInfo and hasAuthPassed of one link type; a zero connId means no link. */
  datatype Slot = Slot(connId: nat, info: Option<Address>, passed: bool)

  const NO_LINK := Slot(0, None, false)

  type Links = s: seq<Slot> | |s| == LINK_MAX witness seq(LINK_MAX, _ => NO_LINK)

  datatype Manager = Manager(authId: int, isServer: bool, udid: string, links: Links)

  datatype Lists = Lists(clients: seq<Manager>, servers: seq<Manager>)

  /** What a session tells the registry about itself. */
  datatype Info = Info(isServer: bool, addr: Address, connId: nat, udid: string, normalized: bool)

  function SideOf(r: Lists, isServer: bool): seq<Manager> {
    if isServer then r.servers else r.clients
  }

  function WithSide(r: Lists, isServer: bool, list: seq<Manager>): Lists {
    if isServer then r.(servers := list) else r.(clients := list)
  }

  function At(m: Manager, t: LinkType): Slot {
    m.links[LinkIndex(t)]
  }

  function Put(m: Manager, t: LinkType, s: Slot): Manager {
    m.(links := m.links[LinkIndex(t) := s])
  }

  // ----- searching -----

  /** The index of the first manager from i on with a property, or the length of the list. */
  function First(list: seq<Manager>, p: Manager -> bool, i: nat): (r: nat)
    requires i <= |list|
    ensures i <= r <= |list| && (r < |list| ==> p(list[r])) && forall j :: i <= j < r ==> !p(list[j])
    decreases |list| - i
  {
    if i == |list| then i else if p(list[i]) then i else First(list, p, i + 1)
  }

  function ByAddr(addr: Address): Manager -> bool {
    (m: Manager) => At(m, TypeOf(addr)).info.Some? && Compare(At(m, TypeOf(addr)).info.value, addr)
  }

  function ByUdid(udid: string): Manager -> bool {
    (m: Manager) => m.udid == udid
  }

  function ById(authId: int): Manager -> bool {
    (m: Manager) => m.authId == authId
  }

  function ByConnId(t: LinkType, connId: nat): Manager -> bool {
    (m: Manager) => At(m, t).connId == connId
  }

  // ----- one list -----

  /** NewAuthManager. */
  function New(authSeq: int, info: Info): Manager {
    Put(Manager(authSeq, info.isServer, info.udid, seq(LINK_MAX, _ => NO_LINK)),
        TypeOf(info.addr), Slot(info.connId, Some(info.addr), false))
  }

  predicate HasLink(m: Manager) {
    exists i :: 1 <= i < LINK_MAX && m.links[i].connId != 0
  }

  function Removed(list: seq<Manager>, i: nat): seq<Manager>
    requires i < |list|
  {
    list[..i] + list[i + 1..]
  }

  /** DelAuthManager for one link type. */
  function Delete(list: seq<Manager>, i: nat, t: LinkType): seq<Manager>
    requires i < |list|
  {
    if At(list[i], t).connId == 0 then list
    else
      var m := Put(list[i], t, NO_LINK);
      if HasLink(m) then list[i := m] else Removed(list, i)
  }

  /** GetDeviceAuthManager with GetExistAuthManager: the new list, the manager's index, whether it was created
      or merged. */
  function GetDevice(list: seq<Manager>, authSeq: int, info: Info): (r: (seq<Manager>, nat, bool))
    ensures r.1 < |r.0|
  {
    var t := TypeOf(info.addr);
    var i := First(list, ByAddr(info.addr), 0);
    if i < |list| then
      var s := At(list[i], t);
      var rebound := s.connId != info.connId && (t == Wifi || t == Usb);
      (list[i := Put(list[i], t, s.(connId := info.connId, passed := s.passed && !rebound))], i, false)
    else
      var j := First(list, ByUdid(info.udid), 0);
      if info.normalized && j < |list| then
        (list[j := Put(list[j], t, At(list[j], t).(connId := info.connId, info := Some(info.addr)))], j, true)
      else
        (list + [New(authSeq, info)], |list|, true)
  }

  function SetPassedAt(list: seq<Manager>, i: nat, t: LinkType): seq<Manager>
    requires i < |list|
  {
    list[i := Put(list[i], t, At(list[i], t).(passed := true))]
  }

  function SetConnIdAt(list: seq<Manager>, i: nat, t: LinkType, connId: nat): seq<Manager>
    requires i < |list|
  {
    list[i := Put(list[i], t, At(list[i], t).(connId := connId))]
  }

  // ----- both lists -----

  datatype Event =
    /** AuthManagerSetSessionKey. */
    | SetSessionKey(authSeq: int, info: Info, isConnect: bool, keyOk: bool)
    /** AuthManagerSetAuthPassed; `available` says the session key could be marked available. */
    | SetAuthPassed(isServer: bool, addr: Address, available: bool)
    /** AuthDirectOnlineCreateAuthManager. */
    | DirectOnline(authSeq: int, info: Info)
    /** HandleConnectionDataInner. */
    | DataReceived(addr: Address, fromServer: bool, connId: nat, decrypted: bool)
    /** UpdateAuthManagerByAuthId(SetAuthConnId). */
    | SetConnId(authId: int, t: LinkType, connId: nat)
    /** UpdateAuthConnIdSyncWithInfo. */
    | SyncConnId(isServer: bool, addr: Address, packed: ConnIds.Word64)
    /** RemoveAuthManagerByAuthId, and AuthHandleLeaveLNN when it gets to deleting. */
    | RemoveById(authId: int, t: LinkType)
    /** RemoveAuthManagerByConnInfo. */
    | RemoveByAddr(isServer: bool, addr: Address)
    /** HandleDisconnectedEvent; `dup` is what disconnecting leaves of the id. */
    | Disconnected(t: LinkType, connId: nat, dup: nat)
    /** RemoveNotPassedAuthManagerByUdid. */
    | RemoveNotPassed(udid: string)

  /** Something done to the manager found on one side. */
  function SetKey(list: seq<Manager>, e: Event): seq<Manager>
    requires e.SetSessionKey?
  {
    var t := TypeOf(e.info.addr);
    if !e.isConnect && t != Ble then list
    else
      var (list1, i, isNew) := GetDevice(list, e.authSeq, e.info);
      if !e.keyOk then (if isNew then Delete(list1, i, t) else list1)
      else if !e.isConnect then SetPassedAt(list1, i, t)
      else list1
  }

  function GoOnline(list: seq<Manager>, e: Event): seq<Manager>
    requires e.DirectOnline?
  {
    if TypeOf(e.info.addr) != Ble then list
    else
      var (list1, i, _) := GetDevice(list, e.authSeq, e.info);
      SetPassedAt(list1, i, Ble)
  }

  function PassAddr(list: seq<Manager>, addr: Address): seq<Manager> {
    var i := First(list, ByAddr(addr), 0);
    if i < |list| then SetPassedAt(list, i, TypeOf(addr)) else list
  }

  function ReceiveAt(list: seq<Manager>, addr: Address, connId: nat): seq<Manager> {
    var i := First(list, ByAddr(addr), 0);
    if i < |list| then SetConnIdAt(SetPassedAt(list, i, TypeOf(addr)), i, TypeOf(addr), connId) else list
  }

  /** The link type packed in the connection id is one that runs over a socket of its own. */
  predicate OverSocket(connId: ConnIds.Word64) {
    ConnIds.GetConnType(connId) == LinkIndex(Wifi) || ConnIds.GetConnType(connId) == LinkIndex(Usb)
  }

  /** The connection id with its socket invalidated. */
  function NoSocket(connId: ConnIds.Word64): ConnIds.Word64 {
    ConnIds.GenConnId(ConnIds.GetConnType(connId), ConnIds.INVALID_FD)
  }

  function SyncAt(list: seq<Manager>, addr: Address, connId: ConnIds.Word64): seq<Manager> {
    var t := TypeOf(addr);
    var i := First(list, ByAddr(addr), 0);
    if i < |list| && At(list[i], t).connId == connId && OverSocket(connId)
    then SetConnIdAt(list, i, t, NoSocket(connId)) else list
  }

  function DeleteAddr(list: seq<Manager>, addr: Address): seq<Manager> {
    var i := First(list, ByAddr(addr), 0);
    if i < |list| then Delete(list, i, TypeOf(addr)) else list
  }

  /** FindAuthManagerByAuthId looks at the clients first. */
  function UpdateById(r: Lists, authId: int, t: LinkType, connId: nat): Lists {
    var i, j := First(r.clients, ById(authId), 0), First(r.servers, ById(authId), 0);
    if i < |r.clients| then r.(clients := SetConnIdAt(r.clients, i, t, connId))
    else if j < |r.servers| then r.(servers := SetConnIdAt(r.servers, j, t, connId))
    else r
  }

  function DeleteById(r: Lists, authId: int, t: LinkType): Lists {
    var i, j := First(r.clients, ById(authId), 0), First(r.servers, ById(authId), 0);
    if i < |r.clients| then r.(clients := Delete(r.clients, i, t))
    else if j < |r.servers| then r.(servers := Delete(r.servers, j, t))
    else r
  }

  /** GetAuthIdByConnId. */
  function IdOf(list: seq<Manager>, t: LinkType, connId: nat): Option<int> {
    var i := First(list, ByConnId(t, connId), 0);
    if i < |list| then Some(list[i].authId) else None
  }

  predicate DropsOnDisconnect(t: LinkType) {
    t == Wifi || t == P2p || t == EnhancedP2p || t == SessionKey || t == Usb
  }

  /** One round of the loop in HandleDisconnectedEvent. */
  function DisconnectId(r: Lists, id: Option<int>, t: LinkType, dup: nat): Lists {
    if id.None? then r
    else if DropsOnDisconnect(t) then DeleteById(UpdateById(r, id.value, t, dup), id.value, t)
    else if t == Sle then DeleteById(r, id.value, t)
    else r
  }

  /** HandleDisconnectedEvent: client and server may use the same connection. */
  function DisconnectBoth(r: Lists, client: Option<int>, server: Option<int>, t: LinkType, dup: nat): Lists {
    DisconnectId(DisconnectId(r, client, t, dup), server, t, dup)
  }

  predicate HasPassed(m: Manager) {
    exists i :: 1 <= i < LINK_MAX && m.links[i].passed
  }

  function WithoutNotPassed(list: seq<Manager>, udid: string): seq<Manager> {
    if list == [] then []
    else if HasPassed(list[0]) || list[0].udid != udid then [list[0]] + WithoutNotPassed(list[1..], udid)
    else WithoutNotPassed(list[1..], udid)
  }

  function Next(r: Lists, e: Event): Lists {
    match e
    case SetSessionKey(_, info, _, _) => WithSide(r, info.isServer, SetKey(SideOf(r, info.isServer), e))
    case SetAuthPassed(isServer, addr, available) =>
      if available then WithSide(r, isServer, PassAddr(SideOf(r, isServer), addr)) else r
    case DirectOnline(_, info) => WithSide(r, info.isServer, GoOnline(SideOf(r, info.isServer), e))
    case DataReceived(addr, fromServer, connId, decrypted) =>
      if decrypted then WithSide(r, !fromServer, ReceiveAt(SideOf(r, !fromServer), addr, connId)) else r
    case SetConnId(authId, t, connId) => UpdateById(r, authId, t, connId)
    case SyncConnId(isServer, addr, connId) =>
      WithSide(r, isServer, SyncAt(SideOf(r, isServer), addr, connId))
    case RemoveById(authId, t) => DeleteById(r, authId, t)
    case RemoveByAddr(isServer, addr) => WithSide(r, isServer, DeleteAddr(SideOf(r, isServer), addr))
    case Disconnected(t, connId, dup) =>
      DisconnectBoth(r, IdOf(r.clients, t, connId), IdOf(r.servers, t, connId), t, dup)
    case RemoveNotPassed(udid) => Lists(WithoutNotPassed(r.clients, udid), WithoutNotPassed(r.servers, udid))
  }

  // ----- the invariant -----

  /** A passed link has connection info of its own type, and a link with connection info has a connection. */
  predicate SlotInv(s: Slot, i: int) {
    && (s.passed ==> s.info.Some?)
    && (s.info.Some? ==> LinkIndex(TypeOf(s.info.value)) == i && s.connId != 0)
  }

  predicate ManagerInv(m: Manager, isServer: bool) {
    && m.isServer == isServer
    && HasLink(m)
    && forall i :: 1 <= i < LINK_MAX ==> SlotInv(m.links[i], i)
  }

  predicate ListInv(list: seq<Manager>, isServer: bool) {
    forall k :: 0 <= k < |list| ==> ManagerInv(list[k], isServer)
  }

  predicate RegInv(r: Lists) {
    ListInv(r.clients, false) && ListInv(r.servers, true)
  }

  lemma {:induction false} PutKeeps(list: seq<Manager>, i: nat, t: LinkType, s: Slot, isServer: bool)
    requires ListInv(list, isServer) && i < |list| && SlotInv(s, LinkIndex(t)) && s.connId != 0
    ensures ListInv(list[i := Put(list[i], t, s)], isServer)
  {
    var m := Put(list[i], t, s);
    assert m.links[LinkIndex(t)].connId != 0;
  }

  lemma {:induction false} NewKeeps(list: seq<Manager>, authSeq: int, info: Info)
    requires ListInv(list, info.isServer) && info.connId != 0
    ensures ListInv(list + [New(authSeq, info)], info.isServer)
  {
    assert New(authSeq, info).links[LinkIndex(TypeOf(info.addr))].connId != 0;
  }

  lemma {:induction false} DeleteKeeps(list: seq<Manager>, i: nat, t: LinkType, isServer: bool)
    requires ListInv(list, isServer) && i < |list|
    ensures ListInv(Delete(list, i, t), isServer)
  {
  }

  /** A manager found by address has that link. */
  lemma {:induction false} FoundByAddr(m: Manager, addr: Address, isServer: bool)
    requires ManagerInv(m, isServer) && ByAddr(addr)(m)
    ensures At(m, TypeOf(addr)).info.Some? && At(m, TypeOf(addr)).connId != 0
    ensures SlotInv(At(m, TypeOf(addr)), LinkIndex(TypeOf(addr)))
  {
  }

  lemma {:induction false} GetDeviceKeeps(list: seq<Manager>, authSeq: int, info: Info)
    requires ListInv(list, info.isServer) && info.connId != 0
    ensures var (list1, i, _) := GetDevice(list, authSeq, info);
            ListInv(list1, info.isServer) && At(list1[i], TypeOf(info.addr)).info.Some?
  {
    var t := TypeOf(info.addr);
    var i, j := First(list, ByAddr(info.addr), 0), First(list, ByUdid(info.udid), 0);
    if i < |list| {
      FoundByAddr(list[i], info.addr, info.isServer);
      var s := At(list[i], t);
      var rebound := s.connId != info.connId && (t == Wifi || t == Usb);
      PutKeeps(list, i, t, s.(connId := info.connId, passed := s.passed && !rebound), info.isServer);
    } else if info.normalized && j < |list| {
      PutKeeps(list, j, t, At(list[j], t).(connId := info.connId, info := Some(info.addr)), info.isServer);
    } else {
      NewKeeps(list, authSeq, info);
    }
  }

  lemma {:induction false} SetPassedKeeps(list: seq<Manager>, i: nat, t: LinkType, isServer: bool)
    requires ListInv(list, isServer) && i < |list| && At(list[i], t).info.Some?
    ensures ListInv(SetPassedAt(list, i, t), isServer)
  {
    assert SlotInv(At(list[i], t), LinkIndex(t));
    PutKeeps(list, i, t, At(list[i], t).(passed := true), isServer);
  }

  lemma {:induction false} SetConnIdKeeps(list: seq<Manager>, i: nat, t: LinkType, connId: nat, isServer: bool)
    requires ListInv(list, isServer) && i < |list| && connId != 0
    ensures ListInv(SetConnIdAt(list, i, t, connId), isServer)
  {
    assert SlotInv(At(list[i], t), LinkIndex(t));
    PutKeeps(list, i, t, At(list[i], t).(connId := connId), isServer);
  }

  /** Connection ids handed to the registry are non-zero. */
  predicate NonZero(e: Event) {
    match e
    case SetSessionKey(_, info, _, _) => info.connId != 0
    case DirectOnline(_, info) => info.connId != 0
    case DataReceived(_, _, connId, _) => connId != 0
    case SetConnId(_, _, connId) => connId != 0
    case Disconnected(_, _, dup) => dup != 0
    case _ => true
  }

  lemma {:induction false} SetKeyKeeps(list: seq<Manager>, e: Event)
    requires e.SetSessionKey? && ListInv(list, e.info.isServer) && e.info.connId != 0
    ensures ListInv(SetKey(list, e), e.info.isServer)
  {
    var t := TypeOf(e.info.addr);
    GetDeviceKeeps(list, e.authSeq, e.info);
    var (list1, i, isNew) := GetDevice(list, e.authSeq, e.info);
    DeleteKeeps(list1, i, t, e.info.isServer);
    SetPassedKeeps(list1, i, t, e.info.isServer);
  }

  lemma {:induction false} GoOnlineKeeps(list: seq<Manager>, e: Event)
    requires e.DirectOnline? && ListInv(list, e.info.isServer) && e.info.connId != 0
    ensures ListInv(GoOnline(list, e), e.info.isServer)
  {
    GetDeviceKeeps(list, e.authSeq, e.info);
    var (list1, i, _) := GetDevice(list, e.authSeq, e.info);
    SetPassedKeeps(list1, i, TypeOf(e.info.addr), e.info.isServer);
  }

  lemma {:induction false} ByAddrKeeps(list: seq<Manager>, addr: Address, connId: nat, isServer: bool)
    requires ListInv(list, isServer)
    ensures ListInv(PassAddr(list, addr), isServer) && ListInv(DeleteAddr(list, addr), isServer)
    ensures connId != 0 ==> ListInv(ReceiveAt(list, addr, connId), isServer)
  {
    var t := TypeOf(addr);
    var i := First(list, ByAddr(addr), 0);
    if i < |list| {
      FoundByAddr(list[i], addr, isServer);
      SetPassedKeeps(list, i, t, isServer);
      DeleteKeeps(list, i, t, isServer);
      if connId != 0 {
        SetConnIdKeeps(SetPassedAt(list, i, t), i, t, connId, isServer);
      }
    }
  }

  lemma {:induction false} SyncKeeps(list: seq<Manager>, addr: Address, connId: ConnIds.Word64, isServer: bool)
    requires ListInv(list, isServer)
    ensures ListInv(SyncAt(list, addr, connId), isServer)
  {
    var i := First(list, ByAddr(addr), 0);
    if i < |list| && OverSocket(connId) {
      ConnIds.TypedIsNotZero(ConnIds.GetConnType(connId), ConnIds.INVALID_FD);
      SetConnIdKeeps(list, i, TypeOf(addr), NoSocket(connId), isServer);
    }
  }

  lemma {:induction false} ByIdKeeps(r: Lists, authId: int, t: LinkType, connId: nat)
    requires RegInv(r)
    ensures connId != 0 ==> RegInv(UpdateById(r, authId, t, connId))
    ensures RegInv(DeleteById(r, authId, t))
  {
    var i, j := First(r.clients, ById(authId), 0), First(r.servers, ById(authId), 0);
    if i < |r.clients| {
      DeleteKeeps(r.clients, i, t, false);
      if connId != 0 {
        SetConnIdKeeps(r.clients, i, t, connId, false);
      }
    } else if j < |r.servers| {
      DeleteKeeps(r.servers, j, t, true);
      if connId != 0 {
        SetConnIdKeeps(r.servers, j, t, connId, true);
      }
    }
  }

  lemma {:induction false} DisconnectIdKeeps(r: Lists, id: Option<int>, t: LinkType, dup: nat)
    requires RegInv(r) && dup != 0
    ensures RegInv(DisconnectId(r, id, t, dup))
  {
    if id.Some? {
      ByIdKeeps(r, id.value, t, dup);
      ByIdKeeps(UpdateById(r, id.value, t, dup), id.value, t, dup);
    }
  }

  lemma {:induction false} NotPassedKeeps(list: seq<Manager>, udid: string, isServer: bool)
    requires ListInv(list, isServer)
    ensures ListInv(WithoutNotPassed(list, udid), isServer)
  {
    if list != [] {
      NotPassedKeeps(list[1..], udid, isServer);
    }
  }

  lemma {:induction false} NextKeeps(r: Lists, e: Event)
    requires RegInv(r) && NonZero(e)
    ensures RegInv(Next(r, e))
  {
    match e
    case SetSessionKey(_, info, _, _) => SetKeyKeeps(SideOf(r, info.isServer), e);
    case SetAuthPassed(isServer, addr, _) => ByAddrKeeps(SideOf(r, isServer), addr, 0, isServer);
    case DirectOnline(_, info) => GoOnlineKeeps(SideOf(r, info.isServer), e);
    case DataReceived(addr, fromServer, connId, _) => ByAddrKeeps(SideOf(r, !fromServer), addr, connId, !fromServer);
    case SetConnId(authId, t, connId) => ByIdKeeps(r, authId, t, connId);
    case SyncConnId(isServer, addr, connId) => SyncKeeps(SideOf(r, isServer), addr, connId, isServer);
    case RemoveById(authId, t) => ByIdKeeps(r, authId, t, 0);
    case RemoveByAddr(isServer, addr) => ByAddrKeeps(SideOf(r, isServer), addr, 0, isServer);
    case Disconnected(t, connId, dup) =>
      var c, s := IdOf(r.clients, t, connId), IdOf(r.servers, t, connId);
      DisconnectIdKeeps(r, c, t, dup);
      DisconnectIdKeeps(DisconnectId(r, c, t, dup), s, t, dup);
    case RemoveNotPassed(udid) =>
      NotPassedKeeps(r.clients, udid, false);
      NotPassedKeeps(r.servers, udid, true);
  }

  // ----- runs -----

  function Run(r: Lists, events: seq<Event>): Lists
    decreases |events|
  {
    if events == [] then r else Run(Next(r, events[0]), events[1..])
  }

  lemma {:induction false} RunKeeps(r: Lists, events: seq<Event>)
    requires RegInv(r) && forall i :: 0 <= i < |events| ==> NonZero(events[i])
    ensures RegInv(Run(r, events))
    decreases |events|
  {
    if events != [] {
      NextKeeps(r, events[0]);
      RunKeeps(Next(r, events[0]), events[1..]);
    }
  }

  const EMPTY := Lists([], [])

  /** After every sequence of operations with non-zero connection ids each manager is only in the list of its
      own side, has at least one live link, and every link that passed has connection info of its own
      type and a connection. */
  lemma {:induction false} RegistryHolds(events: seq<Event>)
    requires forall i :: 0 <= i < |events| ==> NonZero(events[i])
    ensures RegInv(Run(EMPTY, events))
  {
    RunKeeps(EMPTY, events);
  }

  /** Deleting a link of a manager takes the manager off the list exactly when it was the last one, and touches
      no other manager and no other link. */
  lemma {:induction false} DeleteRemovesLast(list: seq<Manager>, i: nat, t: LinkType, isServer: bool)
    requires ListInv(list, isServer) && i < |list|
    ensures var live := At(list[i], t).connId != 0;
            var others := exists k :: 1 <= k < LINK_MAX && k != LinkIndex(t) && list[i].links[k].connId != 0;
            Delete(list, i, t) ==
              if !live then list
              else if others then list[i := Put(list[i], t, NO_LINK)]
              else list[..i] + list[i + 1..]
  {
    var m := Put(list[i], t, NO_LINK);
    if HasLink(m) {
      var k :| 1 <= k < LINK_MAX && m.links[k].connId != 0;
      assert list[i].links[k].connId != 0 && k != LinkIndex(t);
    }
    if exists k :: 1 <= k < LINK_MAX && k != LinkIndex(t) && list[i].links[k].connId != 0 {
      var k :| 1 <= k < LINK_MAX && k != LinkIndex(t) && list[i].links[k].connId != 0;
      assert m.links[k].connId != 0;
    }
  }

  // ----- one manager per device -----

  predicate OnePerUdid(list: seq<Manager>) {
    forall i, j :: 0 <= i < j < |list| ==> list[i].udid != list[j].udid
  }

  /** Sessions whose peer supports normalisation. */
  predicate Normalized(e: Event) {
    (e.SetSessionKey? || e.DirectOnline?) ==> e.info.normalized
  }

  lemma {:induction false} PutOne(list: seq<Manager>, i: nat, t: LinkType, s: Slot)
    requires OnePerUdid(list) && i < |list|
    ensures OnePerUdid(list[i := Put(list[i], t, s)])
  {
  }

  lemma {:induction false} DeleteOne(list: seq<Manager>, i: nat, t: LinkType)
    requires OnePerUdid(list) && i < |list|
    ensures OnePerUdid(Delete(list, i, t))
  {
    PutOne(list, i, t, NO_LINK);
  }

  lemma {:induction false} GetDeviceOne(list: seq<Manager>, authSeq: int, info: Info)
    requires OnePerUdid(list) && info.normalized
    ensures OnePerUdid(GetDevice(list, authSeq, info).0)
  {
  }

  lemma {:induction false} SetKeyOne(list: seq<Manager>, e: Event)
    requires e.SetSessionKey? && OnePerUdid(list) && e.info.normalized
    ensures OnePerUdid(SetKey(list, e))
  {
    GetDeviceOne(list, e.authSeq, e.info);
    var (list1, i, isNew) := GetDevice(list, e.authSeq, e.info);
    var t := TypeOf(e.info.addr);
    DeleteOne(list1, i, t);
    PutOne(list1, i, t, At(list1[i], t).(passed := true));
  }

  lemma {:induction false} GoOnlineOne(list: seq<Manager>, e: Event)
    requires e.DirectOnline? && OnePerUdid(list) && e.info.normalized
    ensures OnePerUdid(GoOnline(list, e))
  {
    GetDeviceOne(list, e.authSeq, e.info);
    var (list1, i, _) := GetDevice(list, e.authSeq, e.info);
    PutOne(list1, i, Ble, At(list1[i], Ble).(passed := true));
  }

  lemma {:induction false} ByAddrOne(list: seq<Manager>, addr: Address, connId: nat)
    requires OnePerUdid(list)
    ensures OnePerUdid(PassAddr(list, addr)) && OnePerUdid(DeleteAddr(list, addr))
    ensures OnePerUdid(ReceiveAt(list, addr, connId))
  {
    var t := TypeOf(addr);
    var i := First(list, ByAddr(addr), 0);
    if i < |list| {
      PutOne(list, i, t, At(list[i], t).(passed := true));
      var list1 := SetPassedAt(list, i, t);
      PutOne(list1, i, t, At(list1[i], t).(connId := connId));
      DeleteOne(list, i, t);
    }
  }

  predicate BothOne(r: Lists) {
    OnePerUdid(r.clients) && OnePerUdid(r.servers)
  }

  lemma {:induction false} ByIdOne(r: Lists, authId: int, t: LinkType, connId: nat)
    requires BothOne(r)
    ensures BothOne(UpdateById(r, authId, t, connId)) && BothOne(DeleteById(r, authId, t))
  {
    var i, j := First(r.clients, ById(authId), 0), First(r.servers, ById(authId), 0);
    if i < |r.clients| {
      PutOne(r.clients, i, t, At(r.clients[i], t).(connId := connId));
      DeleteOne(r.clients, i, t);
    } else if j < |r.servers| {
      PutOne(r.servers, j, t, At(r.servers[j], t).(connId := connId));
      DeleteOne(r.servers, j, t);
    }
  }

  lemma {:induction false} DisconnectOne(r: Lists, id: Option<int>, t: LinkType, dup: nat)
    requires BothOne(r)
    ensures BothOne(DisconnectId(r, id, t, dup))
  {
    if id.Some? {
      ByIdOne(r, id.value, t, dup);
      ByIdOne(UpdateById(r, id.value, t, dup), id.value, t, dup);
    }
  }

  lemma {:induction false} NotPassedOne(list: seq<Manager>, udid: string)
    requires OnePerUdid(list)
    ensures OnePerUdid(WithoutNotPassed(list, udid))
    ensures forall m :: m in WithoutNotPassed(list, udid) ==> m in list
  {
    if list != [] {
      NotPassedOne(list[1..], udid);
      var rest := WithoutNotPassed(list[1..], udid);
      forall k | 0 <= k < |rest| ensures rest[k].udid != list[0].udid {
        assert rest[k] in list[1..];
      }
    }
  }

  lemma {:induction false} SideOne(r: Lists, isServer: bool, list: seq<Manager>)
    requires BothOne(r)
    ensures OnePerUdid(SideOf(r, isServer))
    ensures OnePerUdid(list) ==> BothOne(WithSide(r, isServer, list))
  {
  }

  lemma {:induction false} OneSideOne(r: Lists, isServer: bool, list: seq<Manager>)
    requires BothOne(r) && OnePerUdid(list)
    ensures BothOne(WithSide(r, isServer, list))
  {
    SideOne(r, isServer, list);
  }

  lemma {:induction false} SessionOne(r: Lists, e: Event)
    requires BothOne(r) && Normalized(e) && (e.SetSessionKey? || e.DirectOnline?)
    ensures BothOne(Next(r, e))
  {
    var list := SideOf(r, e.info.isServer);
    SideOne(r, e.info.isServer, list);
    if e.SetSessionKey? {
      SetKeyOne(list, e);
      OneSideOne(r, e.info.isServer, SetKey(list, e));
    } else {
      GoOnlineOne(list, e);
      OneSideOne(r, e.info.isServer, GoOnline(list, e));
    }
  }

  lemma {:induction false} SetAuthPassedOne(r: Lists, e: Event)
    requires BothOne(r) && e.SetAuthPassed?
    ensures BothOne(Next(r, e))
  {
    var list := SideOf(r, e.isServer);
    ByAddrOne(list, e.addr, 0);
    OneSideOne(r, e.isServer, PassAddr(list, e.addr));
  }

  lemma {:induction false} DataReceivedOne(r: Lists, e: Event)
    requires BothOne(r) && e.DataReceived?
    ensures BothOne(Next(r, e))
  {
    var list := SideOf(r, !e.fromServer);
    ByAddrOne(list, e.addr, e.connId);
    OneSideOne(r, !e.fromServer, ReceiveAt(list, e.addr, e.connId));
  }

  lemma {:induction false} SyncConnIdOne(r: Lists, e: Event)
    requires BothOne(r) && e.SyncConnId?
    ensures BothOne(Next(r, e))
  {
    var list := SideOf(r, e.isServer);
    var i := First(list, ByAddr(e.addr), 0);
    if i < |list| {
      PutOne(list, i, TypeOf(e.addr), At(list[i], TypeOf(e.addr)).(connId := NoSocket(e.packed)));
    }
    OneSideOne(r, e.isServer, SyncAt(list, e.addr, e.packed));
  }

  lemma {:induction false} RemoveByAddrOne(r: Lists, e: Event)
    requires BothOne(r) && e.RemoveByAddr?
    ensures BothOne(Next(r, e))
  {
    var list := SideOf(r, e.isServer);
    ByAddrOne(list, e.addr, 0);
    OneSideOne(r, e.isServer, DeleteAddr(list, e.addr));
  }

  lemma {:induction false} BothDisconnectOne(r: Lists, c: Option<int>, s: Option<int>, t: LinkType, dup: nat)
    requires BothOne(r)
    ensures BothOne(DisconnectBoth(r, c, s, t, dup))
  {
    DisconnectOne(r, c, t, dup);
    DisconnectOne(DisconnectId(r, c, t, dup), s, t, dup);
  }

  lemma {:induction false} BothNotPassedOne(r: Lists, udid: string)
    requires BothOne(r)
    ensures BothOne(Next(r, RemoveNotPassed(udid)))
  {
    NotPassedOne(r.clients, udid);
    NotPassedOne(r.servers, udid);
  }

  lemma {:induction false} NextOne(r: Lists, e: Event)
    requires BothOne(r) && Normalized(e)
    ensures BothOne(Next(r, e))
  {
    match e
    case SetSessionKey(_, _, _, _) => SessionOne(r, e);
    case SetAuthPassed(_, _, _) => SetAuthPassedOne(r, e);
    case DirectOnline(_, _) => SessionOne(r, e);
    case DataReceived(_, _, _, _) => DataReceivedOne(r, e);
    case SetConnId(authId, t, connId) => ByIdOne(r, authId, t, connId);
    case SyncConnId(_, _, _) => SyncConnIdOne(r, e);
    case RemoveById(authId, t) => ByIdOne(r, authId, t, 0);
    case RemoveByAddr(_, _) => RemoveByAddrOne(r, e);
    case Disconnected(t, connId, dup) =>
      BothDisconnectOne(r, IdOf(r.clients, t, connId), IdOf(r.servers, t, connId), t, dup);
    case RemoveNotPassed(udid) => BothNotPassedOne(r, udid);
  }

  /** If every peer supports normalisation, neither side ever holds two managers for one udid. */
  lemma {:induction false} OneManagerPerDevice(r: Lists, events: seq<Event>)
    requires BothOne(r) && forall i :: 0 <= i < |events| ==> Normalized(events[i])
    ensures BothOne(Run(r, events))
    decreases |events|
  {
    if events != [] {
      NextOne(r, events[0]);
      OneManagerPerDevice(Next(r, events[0]), events[1..]);
    }
  }

  /** One call keeps it exactly when the peer supports normalisation, or the address is known, or the device
      is not. */
  lemma {:induction false} SecondManagerExactly(list: seq<Manager>, authSeq: int, info: Info)
    requires OnePerUdid(list)
    ensures OnePerUdid(GetDevice(list, authSeq, info).0) <==>
            info.normalized
            || (exists k :: 0 <= k < |list| && ByAddr(info.addr)(list[k]))
            || (forall k :: 0 <= k < |list| ==> list[k].udid != info.udid)
  {
    var i, j := First(list, ByAddr(info.addr), 0), First(list, ByUdid(info.udid), 0);
    if info.normalized {
      GetDeviceOne(list, authSeq, info);
    } else if i == |list| {
      var added := list + [New(authSeq, info)];
      assert GetDevice(list, authSeq, info).0 == added;
      if j < |list| {
        assert added[j].udid == added[|list|].udid;
      }
    }
  }

  predicate Known(list: seq<Manager>, addr: Address) {
    exists k :: 0 <= k < |list| && ByAddr(addr)(list[k])
  }

  /** A Wi-Fi or USB link gets another connection. */
  predicate Replaces(was: Slot, info: Info) {
    was.connId != info.connId && (TypeOf(info.addr) == Wifi || TypeOf(info.addr) == Usb)
  }

  /** What the manager's link was before; a manager that is created had none. */
  function Before(list: seq<Manager>, i: nat, t: LinkType): Slot {
    if i < |list| then At(list[i], t) else NO_LINK
  }

  /** Looking a device up touches one link of one manager: every other manager stays as it was, the manager keeps
      its id, device and other links, and its link carries the session's connection. The link is left passed exactly
      when it was, but for a Wi-Fi or USB link at a known address whose connection is replaced. */
  lemma {:induction false} GetDeviceTouchesOneLink(list: seq<Manager>, authSeq: int, info: Info)
    ensures var (list1, i, _) := GetDevice(list, authSeq, info);
            var t := TypeOf(info.addr);
            var was, link := Before(list, i, t), At(list1[i], t);
            && (forall k :: 0 <= k < |list| && k != i ==> list1[k] == list[k])
            && link.connId == info.connId && link.info.Some?
            && (if i < |list| then |list1| == |list| && list1[i] == Put(list[i], t, link)
                else list1 == list + [New(authSeq, info)])
            && (link.passed <==> was.passed && !(Known(list, info.addr) && Replaces(was, info)))
  {
  }

  /** So a link counts as passed for a connection or an address that was not authenticated exactly when it was passed
      before and either another kind of link at a known address gets a new connection, or the device is known by its
      udid only and is found at another address or connection. */
  lemma {:induction false} PassCarriesOver(list: seq<Manager>, authSeq: int, info: Info)
    ensures var (list1, i, _) := GetDevice(list, authSeq, info);
            var was, link := Before(list, i, TypeOf(info.addr)), At(list1[i], TypeOf(info.addr));
            link.passed && (link.connId, link.info) != (was.connId, was.info) <==>
              && was.passed
              && if Known(list, info.addr) then was.connId != info.connId && !Replaces(was, info)
                 else (was.connId, was.info) != (info.connId, Some(info.addr))
  {
  }

  /** It happens: a device passed at one address is looked up at another, with a new connection, and counts as passed
      there. */
  lemma {:induction false} PassCarriesOverHappens(udid: string, authSeq: int)
    ensures exists list, info: Info ::
              && ListInv(list, info.isServer) && info.connId != 0 && info.udid == udid && !Known(list, info.addr)
              && var (list1, i, _) := GetDevice(list, authSeq, info);
                 At(list1[i], TypeOf(info.addr)) == Slot(info.connId, Some(info.addr), true)
  {
    var there, here := WifiAddr("a", 1), WifiAddr("b", 1);
    var none: Links := seq(LINK_MAX, _ => NO_LINK);
    var m := Put(Manager(1, false, udid, none), Wifi, Slot(1, Some(there), true));
    assert m.links[1].connId != 0;
    var info := Info(false, here, 2, udid, true);
    var list := [m];
    assert !ByAddr(here)(m) && ByUdid(udid)(m);
    assert ListInv(list, info.isServer);
    assert First(list, ByAddr(here), 0) == 1 && First(list, ByUdid(udid), 0) == 0;
    var (list1, i, _) := GetDevice(list, authSeq, info);
    assert At(list1[i], TypeOf(info.addr)) == Slot(info.connId, Some(info.addr), true);
  }

  // ----- handles of direct links -----

  datatype Handle = Handle(authId: int, t: LinkType)

  predicate Usable(m: Manager, t: LinkType) {
    At(m, t).info.Some? && TypeOf(At(m, t).info.value) == t && At(m, t).passed
  }

  predicate Direct(m: Manager) {
    Usable(m, EnhancedP2p) || Usable(m, P2p)
  }

  /** One handle per manager with a direct link, the enhanced one first. */
  function DirectHandles(list: seq<Manager>): seq<Handle> {
    if list == [] then []
    else if Usable(list[0], EnhancedP2p) then [Handle(list[0].authId, EnhancedP2p)] + DirectHandles(list[1..])
    else if Usable(list[0], P2p) then [Handle(list[0].authId, P2p)] + DirectHandles(list[1..])
    else DirectHandles(list[1..])
  }
}
