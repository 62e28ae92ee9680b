/** The byte layout of the keys under which the CosmWasm contract stores its record, the refunded
    swap ids and the role table. */
module Keys {
  import opened Types

  type Bytes = seq<u8>

  // ---------- fixed-width big-endian numbers ----------

  function BigEndian(n: nat, width: nat): (b: Bytes)
    ensures |b| == width
    decreases width
  {
    if width == 0 then [] else BigEndian(n / 256, width - 1) + [n % 256]
  }

  function FromBigEndian(b: Bytes): nat {
    if b == [] then 0 else 256 * FromBigEndian(b[..|b| - 1]) + b[|b| - 1]
  }

  function Pow256(width: nat): nat {
    if width == 0 then 1 else 256 * Pow256(width - 1)
  }

  /** A number that fits the width is read back unchanged. */
  lemma {:induction false} BigEndianRoundTrip(n: nat, width: nat)
    requires n < Pow256(width)
    ensures FromBigEndian(BigEndian(n, width)) == n
    decreases width
  {
    if width > 0 {
      BigEndianRoundTrip(n / 256, width - 1);
      var b := BigEndian(n, width);
      assert b[..|b| - 1] == BigEndian(n / 256, width - 1);
    }
  }

  // ---------- key layout ----------

  const CONFIG_KEY: Bytes := [0, 6] + Ascii("config")
  const REFUNDS_KEY: string := "refunds"
  const ACCESS_CONTROL_KEY: string := "access_control"

  function Ascii(s: string): (b: Bytes)
    requires forall i :: 0 <= i < |s| ==> s[i] < 128 as char
    ensures |b| == |s| && forall i :: 0 <= i < |s| ==> b[i] == s[i] as int
  {
    seq(|s|, i requires 0 <= i < |s| => s[i] as int)
  }

  function RoleName(role: AccessRole): (s: string)
    ensures forall i :: 0 <= i < |s| ==> s[i] < 128 as char
  {
    match role
    case Admin => "ADMIN_ROLE"
    case Relayer => "RELAYER_ROLE"
    case Approver => "APPROVER_ROLE"
    case Monitor => "MONITOR_ROLE"
  }

  function RoleFromString(s: string): Option<AccessRole> {
    if s == "ADMIN_ROLE" then Some(Admin)
    else if s == "RELAYER_ROLE" then Some(Relayer)
    else if s == "APPROVER_ROLE" then Some(Approver)
    else if s == "MONITOR_ROLE" then Some(Monitor)
    else None
  }

  /** Parsing accepts exactly the printed names. */
  lemma RoleNameRoundTrip(s: string, role: AccessRole)
    ensures RoleFromString(s) == Some(role) <==> s == RoleName(role)
  {
    assert |"RELAYER_ROLE"| == 12 && "RELAYER_ROLE"[0] == 'R' && "MONITOR_ROLE"[0] == 'M';
  }

  function LengthPrefixed(namespace: Bytes): Bytes
    requires |namespace| <= NAMESPACE_MAX
  {
    BigEndian(|namespace|, 2) + namespace
  }

  function RefundsKey(id: u64): Bytes {
    LengthPrefixed(Ascii(REFUNDS_KEY)) + BigEndian(id, 8)
  }

  function RoleKey(a: Address, role: AccessRole): Bytes
    requires |a| <= NAMESPACE_MAX
  {
    LengthPrefixed(Ascii(ACCESS_CONTROL_KEY)) + LengthPrefixed(a) + Ascii(RoleName(role))
  }

  // ---------- no two entries share a key ----------

  lemma RefundsKeyInjective(id: u64, id': u64)
    requires RefundsKey(id) == RefundsKey(id')
    ensures id == id'
  {
    var n := |LengthPrefixed(Ascii(REFUNDS_KEY))|;
    assert RefundsKey(id)[n..] == BigEndian(id, 8);
    assert RefundsKey(id')[n..] == BigEndian(id', 8);
    BigEndianRoundTrip(id, 8);
    BigEndianRoundTrip(id', 8);
  }

  lemma RoleNameBytesInjective(role: AccessRole, role': AccessRole)
    requires Ascii(RoleName(role)) == Ascii(RoleName(role'))
    ensures role == role'
  {
    var b, b' := Ascii(RoleName(role)), Ascii(RoleName(role'));
    assert b[0] == b'[0] && |b| == |b'|;
    assert RoleName(role)[0] == RoleName(role')[0];
  }

  /** What follows the first namespace of a role key starts with the length of the address. */
  lemma RoleKeyTail(a: Address, role: AccessRole)
    requires |a| <= NAMESPACE_MAX
    ensures var n := |LengthPrefixed(Ascii(ACCESS_CONTROL_KEY))|; var k := RoleKey(a, role);
      && n + 2 + |a| <= |k|
      && FromBigEndian(k[n..n + 2]) == |a|
      && k[n + 2..n + 2 + |a|] == a
      && k[n + 2 + |a|..] == Ascii(RoleName(role))
  {
    var n, k := |LengthPrefixed(Ascii(ACCESS_CONTROL_KEY))|, RoleKey(a, role);
    assert k[n..n + 2] == BigEndian(|a|, 2);
    BigEndianRoundTrip(|a|, 2);
  }

  /** The two length prefixes make the pair recoverable, whatever bytes the address holds. */
  lemma RoleKeyInjective(a: Address, role: AccessRole, a': Address, role': AccessRole)
    requires |a| <= NAMESPACE_MAX && |a'| <= NAMESPACE_MAX
    requires RoleKey(a, role) == RoleKey(a', role')
    ensures a == a' && role == role'
  {
    RoleKeyTail(a, role);
    RoleKeyTail(a', role');
    RoleNameBytesInjective(role, role');
  }

  lemma PrefixBytes(namespace: Bytes, rest: Bytes)
    requires |namespace| < 256
    ensures (LengthPrefixed(namespace) + rest)[1] == |namespace|
  {
    assert BigEndian(|namespace|, 2) == BigEndian(|namespace| / 256, 1) + [|namespace| % 256];
  }

  lemma RefundsKeySecondByte(id: u64)
    ensures |RefundsKey(id)| >= 2 && RefundsKey(id)[1] == 7
  {
    PrefixBytes(Ascii(REFUNDS_KEY), BigEndian(id, 8));
  }

  lemma RoleKeySecondByte(a: Address, role: AccessRole)
    requires |a| <= NAMESPACE_MAX
    ensures |RoleKey(a, role)| >= 2 && RoleKey(a, role)[1] == 14
  {
    var rest := LengthPrefixed(a) + Ascii(RoleName(role));
    PrefixBytes(Ascii(ACCESS_CONTROL_KEY), rest);
    assert RoleKey(a, role) == LengthPrefixed(Ascii(ACCESS_CONTROL_KEY)) + rest;
  }

  /** The record, a refund and a role can never overwrite one another: their second bytes differ. */
  lemma KeysDisjoint(id: u64, a: Address, role: AccessRole)
    requires |a| <= NAMESPACE_MAX
    ensures RefundsKey(id) != CONFIG_KEY
    ensures RoleKey(a, role) != CONFIG_KEY
    ensures RefundsKey(id) != RoleKey(a, role)
  {
    RefundsKeySecondByte(id);
    RoleKeySecondByte(a, role);
    assert CONFIG_KEY[1] == 6;
  }
}
