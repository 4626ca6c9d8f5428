/** UUIDs as sixteen bytes with their canonical text form and byte order. */
module Uuids {
  import opened Collections
  import opened Keys

  type Uuid = u: seq<Byte> | |u| == 16 witness seq(16, i => 0)

  /** First character of byte k's hex pair in the canonical form: the hyphens at 8, 13, 18
      and 23 shift the later bytes. */
  function PairAt(k: nat): nat {
    2 * k + (if k < 4 then 0 else if k < 6 then 1 else if k < 8 then 2 else if k < 10 then 3 else 4)
  }

  const PAIR_AT: seq<nat> := Map(PairAt, Range(0, 16))

  function HexDigit(n: nat): (c: char)
    requires n < 16
    ensures HexValue(c) == Some(n)
    ensures c != ':' && c != '-' && c < 128 as char
  {
    if n < 10 then '0' + n as char else 'a' + (n - 10) as char
  }

  function HexValue(c: char): Option<nat> {
    if '0' <= c <= '9' then Some((c - '0') as nat)
    else if 'a' <= c <= 'f' then Some((c - 'a') as nat + 10)
    else if 'A' <= c <= 'F' then Some((c - 'A') as nat + 10)
    else None
  }

  function HyphensBefore(i: nat): nat {
    if i < 9 then 0 else if i < 14 then 1 else if i < 19 then 2 else if i < 24 then 3 else 4
  }

  function CharAt(u: Uuid): nat -> char {
    (i: nat) =>
      if i == 8 || i == 13 || i == 18 || i == 23 || i >= 36 then '-'
      else
        var j := i - HyphensBefore(i);
        if j % 2 == 0 then HexDigit(u[j / 2] / 16) else HexDigit(u[j / 2] % 16)
  }

  /** The canonical 8-4-4-4-12 form. */
  function ToString(u: Uuid): (s: string)
    ensures |s| == 36
  {
    Map(CharAt(u), Range(0, 36))
  }

  /** The byte written at position x as two hex digits. */
  function ByteAt(s: string, x: nat): Option<Byte>
    requires x + 1 < |s|
  {
    match (HexValue(s[x]), HexValue(s[x + 1]))
    case (Some(hi), Some(lo)) => if hi < 16 && lo < 16 then Some(16 * hi + lo) else None
    case _ => None
  }

  /** The bytes at the given positions, unless one of them is not a hex pair. */
  function BytesAt(s: string, at: seq<nat>): (r: Option<seq<Byte>>)
    requires forall k :: 0 <= k < |at| ==> at[k] + 1 < |s|
    ensures r.Some? ==> |r.value| == |at|
  {
    if at == [] then Some([])
    else
      var n := |at| - 1;
      match (BytesAt(s, at[..n]), ByteAt(s, at[n]))
      case (Some(front), Some(last)) => Some(front + [last])
      case _ => None
  }

  function Lower(c: char): char {
    if 'A' <= c <= 'Z' then c - 'A' + 'a' else c
  }

  /** Text to UUID: the canonical form, the same in braces or after urn:uuid:, or 32 digits. */
  function Parse(s: string): Option<Uuid> {
    if |s| == 36 then ParseHyphenated(s)
    else if |s| == 45 then
      if Map(Lower, s[..9]) == "urn:uuid:" then ParseHyphenated(s[9..]) else None
    else if |s| == 38 then ParseHyphenated(s[1..])
    else if |s| == 32 then
      match BytesAt(s, seq(16, i requires 0 <= i => 2 * i))
      case None => None
      case Some(bytes) => Some(bytes)
    else None
  }

  function ParseHyphenated(s: string): Option<Uuid>
    requires |s| >= 36
  {
    if s[8] != '-' || s[13] != '-' || s[18] != '-' || s[23] != '-' then None
    else match BytesAt(s, PAIR_AT)
      case None => None
      case Some(bytes) => Some(bytes)
  }

  lemma HexPairReads(b: Byte)
    ensures HexValue(HexDigit(b / 16)) == Some(b / 16) && HexValue(HexDigit(b % 16)) == Some(b % 16)
    ensures 16 * (b / 16) + b % 16 == b
  {
  }

  lemma PairPosition(k: nat)
    requires k < 16
    ensures var x := PairAt(k);
            && x + 1 < 36 && {8, 13, 18, 23} !! {x, x + 1}
            && x - HyphensBefore(x) == 2 * k && x + 1 - HyphensBefore(x + 1) == 2 * k + 1
  {
  }

  lemma PairsOfString(u: Uuid, k: nat)
    requires k < 16
    ensures PairAt(k) + 1 < 36
    ensures ToString(u)[PairAt(k)] == HexDigit(u[k] / 16) && ToString(u)[PairAt(k) + 1] == HexDigit(u[k] % 16)
  {
    PairPosition(k);
    var x := PairAt(k);
    assert 2 * k / 2 == k && (2 * k + 1) / 2 == k;
    assert ToString(u)[x] == CharAt(u)(x) && ToString(u)[x + 1] == CharAt(u)(x + 1);
  }

  lemma HyphensOfString(u: Uuid)
    ensures var s := ToString(u); s[8] == '-' && s[13] == '-' && s[18] == '-' && s[23] == '-'
  {
  }

  lemma ByteReads(u: Uuid, k: nat)
    requires k < 16
    ensures PAIR_AT[k] + 1 < 36 && ByteAt(ToString(u), PAIR_AT[k]) == Some(u[k])
  {
    PairsOfString(u, k);
    HexPairReads(u[k]);
  }

  lemma {:induction false} BytesAtDetermined(s: string, at: seq<nat>, bytes: seq<Byte>)
    requires |at| == |bytes|
    requires forall k :: 0 <= k < |at| ==> at[k] + 1 < |s| && ByteAt(s, at[k]) == Some(bytes[k])
    ensures BytesAt(s, at) == Some(bytes)
  {
    if at != [] {
      var n := |at| - 1;
      BytesAtDetermined(s, at[..n], bytes[..n]);
      assert bytes == bytes[..n] + [bytes[n]];
    }
  }

  /** Reading back what was written gives the same UUID. */
  lemma ParseToString(u: Uuid)
    ensures Parse(ToString(u)) == Some(u)
  {
    HyphensOfString(u);
    forall k: nat | k < 16 ensures PAIR_AT[k] + 1 < 36 && ByteAt(ToString(u), PAIR_AT[k]) == Some(u[k]) {
      ByteReads(u, k);
    }
    BytesAtDetermined(ToString(u), PAIR_AT, u);
  }

  /** Canonical forms are colon-free ASCII, and no two UUIDs share one. */
  lemma StringIsKeySafe(u: Uuid)
    ensures ColonFree(ToString(u))
    ensures forall c :: c in ToString(u) ==> c < 128 as char
  {
  }

  lemma ToStringInjective(u: Uuid, v: Uuid)
    requires ToString(u) == ToString(v)
    ensures u == v
  {
    ParseToString(u);
    ParseToString(v);
  }

  /** The UUID as a big-endian number: the database sorts ids byte by byte from the front,
      which is the order of these numbers. */
  function Value(bytes: seq<Byte>): nat {
    if bytes == [] then 0 else 256 * Value(bytes[..|bytes| - 1]) + bytes[|bytes| - 1]
  }

  lemma {:induction false} ValueInjective(u: seq<Byte>, v: seq<Byte>)
    requires |u| == |v| && Value(u) == Value(v)
    ensures u == v
  {
    if u != [] {
      var n := |u| - 1;
      assert u[n] == Value(u) % 256 && v[n] == Value(v) % 256;
      ValueInjective(u[..n], v[..n]);
      assert u == u[..n] + [u[n]] && v == v[..n] + [v[n]];
    }
  }
}
