/** The two global lists of auth managers, as auth_manager.c and auth_device.c change them in place. Every method is
    proved to turn the lists' value into what the function of Registry says. */
module AuthManagers {
  import opened Common
  import opened Addresses
  import opened Registry
  import ConnIds

  class AuthManagers {
    var clients: seq<Manager>
    var servers: seq<Manager>

    function View(): Lists
      reads this
    {
      Lists(clients, servers)
    }

    constructor ()
      ensures View() == EMPTY
    {
      clients, servers := [], [];
    }

    method Store(isServer: bool, list: seq<Manager>)
      modifies this
      ensures View() == WithSide(old(View()), isServer, list)
    {
      if isServer {
        servers := list;
      } else {
        clients := list;
      }
    }

    /** FindAuthManagerByConnInfo: the index of the manager, or the length of the list. */
    method FindByAddr(addr: Address, isServer: bool) returns (i: nat)
      ensures i == First(SideOf(View(), isServer), ByAddr(addr), 0)
    {
      var list := SideOf(View(), isServer);
      i := 0;
      while i < |list|
        invariant i <= |list| && First(list, ByAddr(addr), 0) == First(list, ByAddr(addr), i)
      {
        var slot := At(list[i], TypeOf(addr));
        if slot.info.Some? && Compare(slot.info.value, addr) {
          return;
        }
        i := i + 1;
      }
    }

    /** FindNormalizedKeyAuthManagerByUdid. */
    method FindByUdid(udid: string, isServer: bool) returns (i: nat)
      ensures i == First(SideOf(View(), isServer), ByUdid(udid), 0)
    {
      var list := SideOf(View(), isServer);
      i := 0;
      while i < |list|
        invariant i <= |list| && First(list, ByUdid(udid), 0) == First(list, ByUdid(udid), i)
      {
        if list[i].udid == udid {
          return;
        }
        i := i + 1;
      }
    }

    /** One of the two loops of FindAuthManagerByAuthId. */
    method FindById(list: seq<Manager>, authId: int) returns (i: nat)
      ensures i == First(list, ById(authId), 0)
    {
      i := 0;
      while i < |list|
        invariant i <= |list| && First(list, ById(authId), 0) == First(list, ById(authId), i)
      {
        if list[i].authId == authId {
          return;
        }
        i := i + 1;
      }
    }

    /** GetAuthIdByConnId. */
    method GetAuthIdByConnId(t: LinkType, connId: nat, isServer: bool) returns (id: Option<int>)
      ensures id == IdOf(SideOf(View(), isServer), t, connId)
    {
      var list := SideOf(View(), isServer);
      var i := 0;
      while i < |list|
        invariant i <= |list| && First(list, ByConnId(t, connId), 0) == First(list, ByConnId(t, connId), i)
      {
        if At(list[i], t).connId == connId {
          return Some(list[i].authId);
        }
        i := i + 1;
      }
      return None;
    }

    /** DelAuthManager for one link type: clears the link and looks for another before it removes the manager. */
    method DelAuthManager(isServer: bool, i: nat, t: LinkType)
      requires i < |SideOf(View(), isServer)|
      modifies this
      ensures View() == WithSide(old(View()), isServer, Delete(SideOf(old(View()), isServer), i, t))
    {
      var list := SideOf(View(), isServer);
      if At(list[i], t).connId == 0 {
        return;
      }
      var m := Put(list[i], t, NO_LINK);
      var k := 1;
      while k < LINK_MAX
        invariant 1 <= k <= LINK_MAX
        invariant forall j :: 1 <= j < k ==> m.links[j].connId == 0
      {
        if m.links[k].connId != 0 {
          Store(isServer, list[i := m]);
          return;
        }
        k := k + 1;
      }
      Store(isServer, list[..i] + list[i + 1..]);
    }

    /** GetDeviceAuthManager with GetExistAuthManager and NewAuthManager. */
    method GetDeviceAuthManager(authSeq: int, info: Info) returns (i: nat, isNewCreated: bool)
      modifies this
      ensures var (list, j, isNew) := GetDevice(SideOf(old(View()), info.isServer), authSeq, info);
              View() == WithSide(old(View()), info.isServer, list) && i == j && isNewCreated == isNew
    {
      var t := TypeOf(info.addr);
      var list := SideOf(View(), info.isServer);
      i := FindByAddr(info.addr, info.isServer);
      if i < |list| {
        isNewCreated := false;
        var slot := At(list[i], t);
        if slot.connId != info.connId && (t == Wifi || t == Usb) {
          slot := slot.(passed := false);
        }
        Store(info.isServer, list[i := Put(list[i], t, slot.(connId := info.connId))]);
        return;
      }
      isNewCreated := true;
      if info.normalized {
        i := FindByUdid(info.udid, info.isServer);
        if i < |list| {
          var link := At(list[i], t).(connId := info.connId, info := Some(info.addr));
          Store(info.isServer, list[i := Put(list[i], t, link)]);
          return;
        }
      }
      i := |list|;
      Store(info.isServer, list + [New(authSeq, info)]);
    }

    method SetPassed(isServer: bool, i: nat, t: LinkType)
      requires i < |SideOf(View(), isServer)|
      modifies this
      ensures View() == WithSide(old(View()), isServer, SetPassedAt(SideOf(old(View()), isServer), i, t))
    {
      var list := SideOf(View(), isServer);
      Store(isServer, list[i := Put(list[i], t, At(list[i], t).(passed := true))]);
    }

    method SetConn(isServer: bool, i: nat, t: LinkType, connId: nat)
      requires i < |SideOf(View(), isServer)|
      modifies this
      ensures View() == WithSide(old(View()), isServer, SetConnIdAt(SideOf(old(View()), isServer), i, t, connId))
    {
      var list := SideOf(View(), isServer);
      Store(isServer, list[i := Put(list[i], t, At(list[i], t).(connId := connId))]);
    }

    /** AuthManagerSetSessionKey. */
    method SetSessionKey(authSeq: int, info: Info, isConnect: bool, keyOk: bool)
      modifies this
      ensures View() == Next(old(View()), Event.SetSessionKey(authSeq, info, isConnect, keyOk))
    {
      var t := TypeOf(info.addr);
      if !isConnect && t != Ble {
        return;
      }
      var i, isNewCreated := GetDeviceAuthManager(authSeq, info);
      if !keyOk {
        if isNewCreated {
          DelAuthManager(info.isServer, i, t);
        }
        return;
      }
      if !isConnect {
        SetPassed(info.isServer, i, t);
      }
    }

    /** AuthManagerSetAuthPassed. */
    method SetAuthPassed(isServer: bool, addr: Address, available: bool)
      modifies this
      ensures View() == Next(old(View()), Event.SetAuthPassed(isServer, addr, available))
    {
      var i := FindByAddr(addr, isServer);
      if i < |SideOf(View(), isServer)| && available {
        SetPassed(isServer, i, TypeOf(addr));
      }
    }

    /** AuthDirectOnlineCreateAuthManager. */
    method DirectOnline(authSeq: int, info: Info)
      modifies this
      ensures View() == Next(old(View()), Event.DirectOnline(authSeq, info))
    {
      if TypeOf(info.addr) != Ble {
        return;
      }
      var i, _ := GetDeviceAuthManager(authSeq, info);
      SetPassed(info.isServer, i, Ble);
    }

    /** HandleConnectionDataInner. */
    method DataReceived(addr: Address, fromServer: bool, connId: nat, decrypted: bool)
      modifies this
      ensures View() == Next(old(View()), Event.DataReceived(addr, fromServer, connId, decrypted))
    {
      var i := FindByAddr(addr, !fromServer);
      if i < |SideOf(View(), !fromServer)| && decrypted {
        SetPassed(!fromServer, i, TypeOf(addr));
        SetConn(!fromServer, i, TypeOf(addr), connId);
      }
    }

    /** UpdateAuthConnIdSyncWithInfo. */
    method SyncConnId(isServer: bool, addr: Address, connId: ConnIds.Word64)
      modifies this
      ensures View() == Next(old(View()), Event.SyncConnId(isServer, addr, connId))
    {
      var t := TypeOf(addr);
      var i := FindByAddr(addr, isServer);
      var list := SideOf(View(), isServer);
      if i < |list| && At(list[i], t).connId == connId && OverSocket(connId) {
        var invalid := ConnIds.UpdateFd(connId, ConnIds.INVALID_FD);
        SetConn(isServer, i, t, invalid);
      }
    }

    /** RemoveAuthManagerByConnInfo. */
    method RemoveByAddr(isServer: bool, addr: Address)
      modifies this
      ensures View() == Next(old(View()), Event.RemoveByAddr(isServer, addr))
    {
      var i := FindByAddr(addr, isServer);
      if i < |SideOf(View(), isServer)| {
        DelAuthManager(isServer, i, TypeOf(addr));
      }
    }

    /** UpdateAuthManagerByAuthId(SetAuthConnId). */
    method SetConnId(authId: int, t: LinkType, connId: nat)
      modifies this
      ensures View() == UpdateById(old(View()), authId, t, connId)
    {
      var i := FindById(clients, authId);
      if i < |clients| {
        SetConn(false, i, t, connId);
        return;
      }
      var j := FindById(servers, authId);
      if j < |servers| {
        SetConn(true, j, t, connId);
      }
    }

    /** RemoveAuthManagerByAuthId. */
    method RemoveById(authId: int, t: LinkType)
      modifies this
      ensures View() == DeleteById(old(View()), authId, t)
    {
      var i := FindById(clients, authId);
      if i < |clients| {
        DelAuthManager(false, i, t);
        return;
      }
      var j := FindById(servers, authId);
      if j < |servers| {
        DelAuthManager(true, j, t);
      }
    }

    /** One round of the loop in HandleDisconnectedEvent. */
    method DisconnectOne(id: Option<int>, t: LinkType, dup: nat)
      modifies this
      ensures View() == DisconnectId(old(View()), id, t, dup)
    {
      if id.None? {
        return;
      }
      if DropsOnDisconnect(t) {
        SetConnId(id.value, t, dup);
        RemoveById(id.value, t);
      }
      if t == Sle {
        RemoveById(id.value, t);
      }
    }

    /** HandleDisconnectedEvent. */
    method Disconnected(t: LinkType, connId: nat, dup: nat)
      modifies this
      ensures var client, server := IdOf(old(clients), t, connId), IdOf(old(servers), t, connId);
              View() == DisconnectBoth(old(View()), client, server, t, dup)
    {
      var c := GetAuthIdByConnId(t, connId, false);
      var s := GetAuthIdByConnId(t, connId, true);
      DisconnectEach(c, s, t, dup);
    }

    method DisconnectEach(c: Option<int>, s: Option<int>, t: LinkType, dup: nat)
      modifies this
      ensures View() == DisconnectBoth(old(View()), c, s, t, dup)
    {
      DisconnectOne(c, t, dup);
      DisconnectOne(s, t, dup);
    }

    /** RemoveNotPassedAuthManagerByUdid. */
    method RemoveNotPassed(udid: string)
      modifies this
      ensures View() == Lists(WithoutNotPassed(old(clients), udid), WithoutNotPassed(old(servers), udid))
    {
      clients := Filter(clients, udid);
      servers := Filter(servers, udid);
    }

    method Filter(managers: seq<Manager>, udid: string) returns (list: seq<Manager>)
      ensures list == WithoutNotPassed(managers, udid)
    {
      list := managers;
      var i := 0;
      while i < |list|
        invariant 0 <= i <= |list|
        invariant WithoutNotPassed(managers, udid) == list[..i] + WithoutNotPassed(list[i..], udid)
        decreases |list| - i
      {
        assert list[i..][1..] == list[i + 1..];
        if HasPassed(list[i]) || list[i].udid != udid {
          assert list[..i + 1] == list[..i] + [list[i]];
          i := i + 1;
        } else {
          ghost var rest := list[i + 1..];
          list := list[..i] + list[i + 1..];
          assert list[i..] == rest;
        }
      }
    }

    // ----- handles of direct links -----

    /** One of the two loops of GetAllHmlOrP2pAuthHandleNum. */
    method CountDirect(list: seq<Manager>) returns (count: nat)
      ensures count == |DirectHandles(list)|
    {
      count := 0;
      var i := 0;
      while i < |list|
        invariant 0 <= i <= |list|
        invariant count + |DirectHandles(list[i..])| == |DirectHandles(list)|
      {
        assert list[i..][1..] == list[i + 1..];
        if Direct(list[i]) {
          count := count + 1;
        }
        i := i + 1;
      }
    }

    /** FillAuthHandleList. The caller's count covers this list, so no write is out of bounds. */
    method FillAuthHandleList(list: seq<Manager>, handle: array<Handle>, first: nat) returns (num: nat)
      requires first + |DirectHandles(list)| <= handle.Length
      modifies handle
      ensures num == first + |DirectHandles(list)|
      ensures handle[..num] == old(handle[..first]) + DirectHandles(list)
    {
      num := first;
      var i := 0;
      while i < |list|
        invariant 0 <= i <= |list|
        invariant first <= num && num + |DirectHandles(list[i..])| == first + |DirectHandles(list)|
        invariant handle[..num] + DirectHandles(list[i..]) == old(handle[..first]) + DirectHandles(list)
      {
        assert list[i..][1..] == list[i + 1..];
        if Usable(list[i], EnhancedP2p) {
          handle[num] := Handle(list[i].authId, EnhancedP2p);
          num := num + 1;
        } else if Usable(list[i], P2p) {
          handle[num] := Handle(list[i].authId, P2p);
          num := num + 1;
        }
        i := i + 1;
        if num == handle.Length {
          assert DirectHandles(list[i..]) == [];
          break;
        }
      }
    }

    /** GetHmlOrP2pAuthHandle; no array when there is nothing to report. */
    method GetHmlOrP2pAuthHandle() returns (handles: array?<Handle>)
      ensures handles == null <==> DirectHandles(servers) + DirectHandles(clients) == []
      ensures handles != null ==> fresh(handles) && handles[..] == DirectHandles(servers) + DirectHandles(clients)
    {
      var inServers := CountDirect(servers);
      var inClients := CountDirect(clients);
      var count := inServers + inClients;
      if count == 0 {
        return null;
      }
      handles := new Handle[count];
      var num := FillAuthHandleList(servers, handles, 0);
      num := FillAuthHandleList(clients, handles, num);
    }
  }
}
