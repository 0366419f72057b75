/** Names and addresses as text: the etcd keys of ms_framework/msf_etcd_driver.go, the service ids of
    ms_framework/msf_remote_mgr.go and the login values passed from ms_gate to push_service. */
module AddressText {
  import opened Options
  import opened MachineInts

  // ---- strings.Split ----

  function Split(s: string, sep: char): (parts: seq<string>)
    ensures |parts| >= 1
  {
    if s == [] then [[]]
    else
      var rest := Split(s[1..], sep);
      if s[0] == sep then [[]] + rest else [[s[0]] + rest[0]] + rest[1..]
  }

  /** Splitting takes nothing but separators away, and leaves none. */
  lemma {:induction false} PartsAreClean(s: string, sep: char)
    ensures forall i :: 0 <= i < |Split(s, sep)| ==> sep !in Split(s, sep)[i]
    ensures forall i, c :: 0 <= i < |Split(s, sep)| && c in Split(s, sep)[i] ==> c in s
  {
    if s == [] {
    } else {
      PartsAreClean(s[1..], sep);
      var rest, parts := Split(s[1..], sep), Split(s, sep);
      forall i | 0 <= i < |parts|
        ensures sep !in parts[i] && forall c :: c in parts[i] ==> c in s
      {
        assert s == [s[0]] + s[1..];
        if s[0] == sep {
          assert i > 0 ==> parts[i] == rest[i - 1];
        } else if i == 0 {
          assert parts[0] == [s[0]] + rest[0];
        } else {
          assert parts[i] == rest[i];
        }
      }
    }
  }

  lemma {:induction false} SplitNone(a: string, sep: char)
    requires sep !in a
    ensures Split(a, sep) == [a]
  {
    if a == [] {
    } else {
      SplitNone(a[1..], sep);
      assert [a[0]] + a[1..] == a;
    }
  }

  lemma {:induction false} SplitFirst(a: string, b: string, sep: char)
    requires sep !in a
    ensures Split(a + [sep] + b, sep) == [a] + Split(b, sep)
  {
    var s := a + [sep] + b;
    if a == [] {
      assert s[1..] == b;
    } else {
      SplitFirst(a[1..], b, sep);
      assert s[1..] == a[1..] + [sep] + b;
      assert [a[0]] + a[1..] == a;
    }
  }

  // ---- %d and strconv.Atoi ----

  function Digit(d: nat): char
    requires d < 10
  {
    (d + 48) as char
  }

  function PrintNat(n: nat): (s: string)
    ensures |s| > 0
  {
    if n < 10 then [Digit(n)] else PrintNat(n / 10) + [Digit(n % 10)]
  }

  function PrintInt(n: int): string {
    if n < 0 then ['-'] + PrintNat(-n) else PrintNat(n)
  }

  predicate AllDigits(s: string) {
    forall i :: 0 <= i < |s| ==> '0' <= s[i] <= '9'
  }

  function ParseNat(s: string): nat
    requires AllDigits(s)
  {
    if s == [] then 0 else ParseNat(s[..|s| - 1]) * 10 + (s[|s| - 1] as int - 48)
  }

  /** Atoi with its error ignored, as the source does: 0 for what is no number, and the nearest
      int for a number that is none. */
  function Atoi(s: string): int64 {
    var neg := s != [] && s[0] == '-';
    var ds := if s != [] && (s[0] == '-' || s[0] == '+') then s[1..] else s;
    if ds == [] || !AllDigits(ds) then 0 else Clamp(if neg then 0 - ParseNat(ds) else ParseNat(ds))
  }

  function Clamp(n: int): int64 {
    if n < -0x8000_0000_0000_0000 then -0x8000_0000_0000_0000
    else if n >= 0x8000_0000_0000_0000 then 0x8000_0000_0000_0000 - 1
    else n
  }

  lemma {:induction false} NatRoundTrip(n: nat)
    ensures AllDigits(PrintNat(n)) && ParseNat(PrintNat(n)) == n
  {
    if n >= 10 {
      NatRoundTrip(n / 10);
      assert PrintNat(n)[..|PrintNat(n)| - 1] == PrintNat(n / 10);
    } else {
      assert [Digit(n)][..0] == [];
    }
  }

  lemma IntRoundTrip(n: int64)
    ensures Atoi(PrintInt(n)) == n
    ensures forall c :: c in PrintInt(n) ==> c == '-' || '0' <= c <= '9'
  {
    var k: int := n;
    if k < 0 {
      NegativeRoundTrip(-k);
    } else {
      PositiveRoundTrip(k);
    }
  }

  lemma PositiveRoundTrip(n: nat)
    ensures Atoi(PrintNat(n)) == Clamp(n) && AllDigits(PrintNat(n))
  {
    NatRoundTrip(n);
    assert '0' <= PrintNat(n)[0] <= '9';
  }

  lemma NegativeRoundTrip(n: nat)
    ensures Atoi(['-'] + PrintNat(n)) == Clamp(0 - n) && AllDigits(PrintNat(n))
  {
    NatRoundTrip(n);
    assert (['-'] + PrintNat(n))[1..] == PrintNat(n);
  }

  // ---- Service keys ----

  datatype Key = Key(nameSpace: string, service: string, ip: string, port: uint32)

  function GenEtcdServiceKey(nameSpace: string, service: string, ip: string, port: int64): string {
    "/ms/" + nameSpace + "/" + service + "/" + ip + ":" + PrintInt(port)
  }

  /** How discovery and watch take a key apart; None is the index panic. */
  function SplitKey(key: string): Option<Key> {
    var info := Split(key, '/');
    if |info| < 5 then None
    else
      var addr := Split(info[4], ':');
      if |addr| < 2 then None
      else Some(Key(info[2], info[3], addr[0], Atoi(addr[1]) % 0x1_0000_0000))
  }

  lemma KeyParts(nameSpace: string, service: string, addr: string)
    requires '/' !in nameSpace && '/' !in service && '/' !in addr
    ensures Split("/ms/" + nameSpace + "/" + service + "/" + addr, '/') == ["", "ms", nameSpace, service, addr]
  {
    var s3 := service + ['/'] + addr;
    var s2 := nameSpace + ['/'] + s3;
    var s1 := "ms" + ['/'] + s2;
    assert "/ms/" + nameSpace + "/" + service + "/" + addr == "" + ['/'] + s1;
    SplitFirst("", s1, '/');
    SplitFirst("ms", s2, '/');
    SplitFirst(nameSpace, s3, '/');
    SplitFirst(service, addr, '/');
    SplitNone(addr, '/');
  }

  lemma AddrParts(ip: string, port: int64)
    requires ':' !in ip
    ensures Split(ip + ":" + PrintInt(port), ':') == [ip, PrintInt(port)]
    ensures '/' !in ip ==> '/' !in ip + ":" + PrintInt(port)
  {
    IntRoundTrip(port);
    SplitFirst(ip, PrintInt(port), ':');
    SplitNone(PrintInt(port), ':');
    assert [':'] == ":";
  }

  /** A printed key splits back into the names, the ip and the port (as uint32) exactly when the
      names have no '/' and the ip neither '/' nor ':'. */
  lemma KeyRoundTripIff(nameSpace: string, service: string, ip: string, port: int64)
    ensures SplitKey(GenEtcdServiceKey(nameSpace, service, ip, port)) == Some(Key(nameSpace, service, ip, port % 0x1_0000_0000))
            <==> '/' !in nameSpace && '/' !in service && '/' !in ip && ':' !in ip
  {
    var key := GenEtcdServiceKey(nameSpace, service, ip, port);
    var addr := ip + ":" + PrintInt(port);
    if '/' !in nameSpace && '/' !in service && '/' !in ip && ':' !in ip {
      AddrParts(ip, port);
      KeyParts(nameSpace, service, addr);
      assert key == "/ms/" + nameSpace + "/" + service + "/" + addr;
      IntRoundTrip(port);
    }
    if SplitKey(key) == Some(Key(nameSpace, service, ip, port % 0x1_0000_0000)) {
      var info := Split(key, '/');
      PartsAreClean(key, '/');
      PartsAreClean(info[4], ':');
      assert '/' !in info[2] && '/' !in info[3] && '/' !in info[4];
      assert ':' !in Split(info[4], ':')[0];
    }
  }

  /** An instance as it is configured; the port is an int. */
  datatype Instance = Instance(nameSpace: string, service: string, ip: string, port: int64)

  predicate Plain(a: Instance) {
    '/' !in a.nameSpace && '/' !in a.service && '/' !in a.ip && ':' !in a.ip
  }

  function KeyOf(a: Instance): string {
    GenEtcdServiceKey(a.nameSpace, a.service, a.ip, a.port)
  }

  lemma PartsOf(a: Instance)
    requires Plain(a)
    ensures Split(KeyOf(a), '/') == ["", "ms", a.nameSpace, a.service, a.ip + ":" + PrintInt(a.port)]
  {
    AddrParts(a.ip, a.port);
    KeyParts(a.nameSpace, a.service, a.ip + ":" + PrintInt(a.port));
    assert KeyOf(a) == "/ms/" + a.nameSpace + "/" + a.service + "/" + (a.ip + ":" + PrintInt(a.port));
  }

  /** Two instances with such names never share a key, whatever their ports: the text keeps what the
      conversion to uint32 drops. */
  lemma KeysInjective(a: Instance, b: Instance)
    requires Plain(a) && Plain(b) && KeyOf(a) == KeyOf(b)
    ensures a == b
  {
    PartsOf(a);
    PartsOf(b);
    var p, q := Split(KeyOf(a), '/'), Split(KeyOf(b), '/');
    assert p[2] == q[2] && p[3] == q[3] && p[4] == q[4];
    SameAddr(a.ip, a.port, b.ip, b.port);
  }

  lemma SameAddr(ip: string, port: int64, ip2: string, port2: int64)
    requires ':' !in ip && ':' !in ip2 && ip + ":" + PrintInt(port) == ip2 + ":" + PrintInt(port2)
    ensures ip == ip2 && port == port2
  {
    AddrParts(ip, port);
    AddrParts(ip2, port2);
    var p, q := Split(ip + ":" + PrintInt(port), ':'), Split(ip2 + ":" + PrintInt(port2), ':');
    assert p[0] == q[0] && p[1] == q[1];
    IntRoundTrip(port);
    IntRoundTrip(port2);
  }

  // ---- Service ids ----

  function GetRemoteID(nameSpace: string, service: string): string {
    nameSpace + ":" + service
  }

  /** The id of a service is the id of no other exactly when its names have no ':'. */
  lemma RemoteIDUniqueIff(nameSpace: string, service: string)
    ensures (forall n, s :: GetRemoteID(n, s) == GetRemoteID(nameSpace, service) ==> n == nameSpace && s == service)
            <==> ':' !in nameSpace && ':' !in service
  {
    var id := GetRemoteID(nameSpace, service);
    assert id == nameSpace + [':'] + service;
    if ':' !in nameSpace && ':' !in service {
      SplitFirst(nameSpace, service, ':');
      SplitNone(service, ':');
      assert Split(id, ':') == [nameSpace, service];
      forall n, s | GetRemoteID(n, s) == id ensures n == nameSpace && s == service {
        OneColon(n, s);
        assert [n, s] == [nameSpace, service];
        assert [n, s][0] == n && [n, s][1] == s;
      }
    } else if ':' in nameSpace {
      var i :| 0 <= i < |nameSpace| && nameSpace[i] == ':';
      var n, s := nameSpace[..i], nameSpace[i + 1..] + ":" + service;
      assert nameSpace == n + ":" + nameSpace[i + 1..];
      assert GetRemoteID(n, s) == id && n != nameSpace;
    } else {
      var i :| 0 <= i < |service| && service[i] == ':';
      var n, s := nameSpace + ":" + service[..i], service[i + 1..];
      assert service == service[..i] + ":" + s;
      assert GetRemoteID(n, s) == id && s != service;
    }
  }

  /** Text that splits in two at ':' was put together from its two parts. */
  lemma OneColon(n: string, s: string)
    requires |Split(n + ":" + s, ':')| == 2
    ensures Split(n + ":" + s, ':') == [n, s]
  {
    assert n + ":" + s == n + [':'] + s;
    SplitCounts(n, s, ':');
    NoSepIfOne(n, ':');
    NoSepIfOne(s, ':');
    SplitFirst(n, s, ':');
    SplitNone(s, ':');
  }

  lemma {:induction false} SplitCounts(a: string, b: string, sep: char)
    ensures |Split(a + [sep] + b, sep)| == |Split(a, sep)| + |Split(b, sep)|
  {
    var s := a + [sep] + b;
    if a == [] {
      assert s[1..] == b;
    } else {
      SplitCounts(a[1..], b, sep);
      assert s[1..] == a[1..] + [sep] + b;
    }
  }

  lemma {:induction false} NoSepIfOne(a: string, sep: char)
    ensures |Split(a, sep)| == 1 <==> sep !in a
  {
    if a == [] {
    } else {
      NoSepIfOne(a[1..], sep);
      assert a == [a[0]] + a[1..];
    }
  }

  // ---- Login values ----

  function LoginValue(gateAddr: string, connID: string): string {
    gateAddr + "/" + connID
  }

  lemma SplitLoginIff(value: string)
    ensures SplitLogin(value).None? <==> '/' !in value
  {
    NoSepIfOne(value, '/');
  }

  /** How PushToGate takes a login value apart; None is the index panic. */
  function SplitLogin(value: string): Option<(string, string)> {
    var v := Split(value, '/');
    if |v| < 2 then None else Some((v[0], v[1]))
  }

  /** A login value splits back exactly when neither part has a '/'. */
  lemma LoginRoundTripIff(gateAddr: string, connID: string)
    ensures SplitLogin(LoginValue(gateAddr, connID)) == Some((gateAddr, connID)) <==> '/' !in gateAddr && '/' !in connID
  {
    var value := LoginValue(gateAddr, connID);
    assert value == gateAddr + ['/'] + connID;
    PartsAreClean(value, '/');
    if '/' !in gateAddr && '/' !in connID {
      SplitFirst(gateAddr, connID, '/');
      SplitNone(connID, '/');
    }
  }
}
