/** Connection addresses and when two of them mean the same peer (auth_common.c). */
module Addresses {
  import opened Common

  /** SHA-256 of a udid. */
  type IdHash = h: seq<bv8> | |h| == 32 witness seq(32, _ => 0)

  const SHORT_HASH_LEN := 8

  /** AuthConnInfo: one constructor per link type, Unsupported for those CompareConnInfo does not know. */
  datatype Address =
    | WifiAddr(ip: string, port: int)
    | UsbAddr(ip: string, port: int)
    | SessionKeyAddr(ip: string, port: int)
    | P2pAddr(ip: string, port: int)
    | EnhancedP2pAddr(ip: string, port: int)
    | BrAddr(mac: string, connectionId: nat)
    | BleAddr(hash: IdHash, mac: string)
    | SleAddr(networkId: string, mac: string)
    | SessionAddr(connId: nat, udid: string)
    | Unsupported(link: LinkType)

  function TypeOf(a: Address): LinkType {
    match a
    case WifiAddr(_, _) => Wifi
    case UsbAddr(_, _) => Usb
    case SessionKeyAddr(_, _) => SessionKey
    case P2pAddr(_, _) => P2p
    case EnhancedP2pAddr(_, _) => EnhancedP2p
    case BrAddr(_, _) => Br
    case BleAddr(_, _) => Ble
    case SleAddr(_, _) => Sle
    case SessionAddr(_, _) => SessionChannel
    case Unsupported(link) => link
  }

  function UpperCase(c: char): char {
    if 'a' <= c <= 'z' then c - 32 as char else c
  }

  /** StrCmpIgnoreCase returned 0. */
  predicate EqualIgnoreCase(a: string, b: string) {
    |a| == |b| && forall i :: 0 <= i < |a| ==> UpperCase(a[i]) == UpperCase(b[i])
  }

  /** CompareConnInfo with short hashes. */
  predicate Compare(a: Address, b: Address) {
    match a
    case WifiAddr(ip, _) => b.WifiAddr? && ip == b.ip
    case UsbAddr(ip, _) => b.UsbAddr? && ip == b.ip
    case SessionKeyAddr(ip, _) => b.SessionKeyAddr? && ip == b.ip
    case P2pAddr(ip, port) => b.P2pAddr? && port == b.port && ip == b.ip
    case EnhancedP2pAddr(ip, port) => b.EnhancedP2pAddr? && port == b.port && ip == b.ip
    case BrAddr(mac, _) => b.BrAddr? && EqualIgnoreCase(mac, b.mac)
    case BleAddr(hash, mac) =>
      b.BleAddr? && (hash[..SHORT_HASH_LEN] == b.hash[..SHORT_HASH_LEN] || EqualIgnoreCase(mac, b.mac))
    case SleAddr(networkId, mac) =>
      b.SleAddr? && (EqualIgnoreCase(networkId, b.networkId) || EqualIgnoreCase(mac, b.mac))
    case SessionAddr(connId, udid) => b.SessionAddr? && connId == b.connId && udid == b.udid
    case Unsupported(_) => false
  }

  /** The link types whose comparison goes by one key. */
  predicate OneKey(a: Address) {
    !a.BleAddr? && !a.SleAddr? && !a.Unsupported?
  }

  function Upper(s: string): string {
    seq(|s|, i requires 0 <= i < |s| => UpperCase(s[i]))
  }

  lemma {:induction false} IgnoreCaseMeans(a: string, b: string)
    ensures EqualIgnoreCase(a, b) <==> Upper(a) == Upper(b)
  {
    if Upper(a) == Upper(b) {
      forall i | 0 <= i < |a| ensures UpperCase(a[i]) == UpperCase(b[i]) {
        assert Upper(a)[i] == Upper(b)[i];
      }
    }
  }

  /** The same peer, link type by link type: on IP links the same ip, and the same port where a connection has its own;
      on Bluetooth the same MAC in either case; on BLE and SLE the same short hash or network id will do as well; on a
      session the same connection to the same device. */
  predicate SamePeer(a: Address, b: Address) {
    || (a.WifiAddr? && b.WifiAddr? && a.ip == b.ip)
    || (a.UsbAddr? && b.UsbAddr? && a.ip == b.ip)
    || (a.SessionKeyAddr? && b.SessionKeyAddr? && a.ip == b.ip)
    || (a.P2pAddr? && b.P2pAddr? && (a.ip, a.port) == (b.ip, b.port))
    || (a.EnhancedP2pAddr? && b.EnhancedP2pAddr? && (a.ip, a.port) == (b.ip, b.port))
    || (a.BrAddr? && b.BrAddr? && Upper(a.mac) == Upper(b.mac))
    || (a.BleAddr? && b.BleAddr? && (Upper(a.mac) == Upper(b.mac) || forall i :: 0 <= i < 8 ==> a.hash[i] == b.hash[i]))
    || (a.SleAddr? && b.SleAddr? && (Upper(a.mac) == Upper(b.mac) || Upper(a.networkId) == Upper(b.networkId)))
    || (a.SessionAddr? && b.SessionAddr? && (a.connId, a.udid) == (b.connId, b.udid))
  }

  lemma {:induction false} ShortHashMeans(a: IdHash, b: IdHash)
    ensures a[..SHORT_HASH_LEN] == b[..SHORT_HASH_LEN] <==> forall i :: 0 <= i < 8 ==> a[i] == b[i]
  {
    if a[..SHORT_HASH_LEN] == b[..SHORT_HASH_LEN] {
      forall i | 0 <= i < 8 ensures a[i] == b[i] {
        assert a[..SHORT_HASH_LEN][i] == b[..SHORT_HASH_LEN][i];
      }
    }
  }

  lemma {:induction false} CompareMeans(a: Address, b: Address)
    ensures Compare(a, b) <==> SamePeer(a, b)
  {
    if a.BrAddr? && b.BrAddr? {
      IgnoreCaseMeans(a.mac, b.mac);
    } else if a.BleAddr? && b.BleAddr? {
      IgnoreCaseMeans(a.mac, b.mac);
      ShortHashMeans(a.hash, b.hash);
    } else if a.SleAddr? && b.SleAddr? {
      IgnoreCaseMeans(a.mac, b.mac);
      IgnoreCaseMeans(a.networkId, b.networkId);
    }
  }

  /** Comparison is symmetric on every link type, and reflexive exactly on the supported ones. */
  lemma {:induction false} CompareSymmetric(a: Address, b: Address)
    ensures Compare(a, b) <==> Compare(b, a)
    ensures Compare(a, a) <==> !a.Unsupported?
  {
  }

  /** Comparison is transitive for addresses with one key. */
  lemma {:induction false} CompareTransitive(a: Address, b: Address, c: Address)
    requires Compare(a, b) && Compare(b, c) && OneKey(b)
    ensures Compare(a, c)
  {
  }

  /** Two addresses that match by either key need not match each other: BLE and SLE are not transitive. */
  lemma {:induction false} TwoKeysNotTransitive()
    ensures exists a: Address, b, c :: a.BleAddr? && Compare(a, b) && Compare(b, c) && !Compare(a, c)
    ensures exists a: Address, b, c :: a.SleAddr? && Compare(a, b) && Compare(b, c) && !Compare(a, c)
  {
    var zeros: IdHash, ones: IdHash := seq(32, _ => 0), seq(32, _ => 1);
    var a, b, c := BleAddr(zeros, "A"), BleAddr(zeros, "B"), BleAddr(ones, "B");
    assert zeros[..SHORT_HASH_LEN][0] == 0 && ones[..SHORT_HASH_LEN][0] == 1;
    assert UpperCase("A"[0]) != UpperCase("B"[0]);
    assert Compare(a, b) && Compare(b, c) && !Compare(a, c);
    var d, e, f := SleAddr("N", "A"), SleAddr("N", "B"), SleAddr("M", "B");
    assert UpperCase("N"[0]) != UpperCase("M"[0]);
    assert Compare(d, e) && Compare(e, f) && !Compare(d, f);
  }
}
