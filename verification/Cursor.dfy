/** Base64 with the URL alphabet (sections 3.2 and 5 of RFC 4648): the unpadded form Go
    writes, the padded form Python writes, and both readers. */
module Base64Url {
  import opened Collections

  type Sextet = n: nat | n < 64

  function EncodeChar(n: Sextet): char {
    if n < 26 then 'A' + n as char
    else if n < 52 then 'a' + (n - 26) as char
    else if n < 62 then '0' + (n - 52) as char
    else if n == 62 then '-'
    else '_'
  }

  function DecodeChar(c: char): Option<Sextet> {
    if 'A' <= c <= 'Z' then Some((c - 'A') as nat)
    else if 'a' <= c <= 'z' then Some((c - 'a') as nat + 26)
    else if '0' <= c <= '9' then Some((c - '0') as nat + 52)
    else if c == '-' then Some(62)
    else if c == '_' then Some(63)
    else None
  }

  lemma CharRoundTrip(n: Sextet)
    ensures DecodeChar(EncodeChar(n)) == Some(n)
  {
  }

  function Sextets(b: seq<Byte>): (r: seq<Sextet>)
    ensures |r| == (4 * |b| + 2) / 3
  {
    if |b| == 0 then []
    else if |b| == 1 then [Top(b[0]), Half(b[0])]
    else if |b| == 2 then [Top(b[0]), Mid(b[0], b[1]), Low(b[1], 0)]
    else [Top(b[0]), Mid(b[0], b[1]), Low(b[1], b[2]), Last(b[2])] + Sextets(b[3..])
  }

  function Top(a: nat): nat { a / 4 }

  function Half(a: nat): nat { a % 4 * 16 }

  function Mid(a: nat, b: nat): nat { a % 4 * 16 + b / 16 }

  function Low(b: nat, c: nat): nat { b % 16 * 4 + c / 64 }

  function Last(c: nat): nat { c % 64 }

  /** Three bytes to four sextets and back. */
  lemma GroupRoundTrip(a: Byte, b: Byte, c: Byte)
    ensures Byte0(Top(a), Mid(a, b)) == a
    ensures Byte1(Mid(a, b), Low(b, c)) == b
    ensures Byte2(Low(b, c), Last(c)) == c
  {
  }

  function Byte0(a: nat, b: nat): nat { a * 4 + b / 16 }

  function Byte1(b: nat, c: nat): nat { b % 16 * 16 + c / 4 }

  function Byte2(c: nat, d: nat): nat { c % 4 * 64 + d }

  /** The bytes of a sextet stream; surplus low bits of a short last group are dropped, and a
      single left-over sextet is an error. */
  function FromSextets(s: seq<Sextet>): Option<seq<Byte>> {
    if |s| == 0 then Some([])
    else if |s| == 1 then None
    else if |s| == 2 then Some([Byte0(s[0], s[1])])
    else if |s| == 3 then Some([Byte0(s[0], s[1]), Byte1(s[1], s[2])])
    else
      match FromSextets(s[4..])
      case None => None
      case Some(rest) =>
        Some([Byte0(s[0], s[1]), Byte1(s[1], s[2]), Byte2(s[2], s[3])] + rest)
  }

  lemma FromSextetsGroup(a: Sextet, b: Sextet, c: Sextet, d: Sextet, s: seq<Sextet>, rest: seq<Byte>)
    requires FromSextets(s) == Some(rest)
    ensures FromSextets([a, b, c, d] + s) == Some([Byte0(a, b), Byte1(b, c), Byte2(c, d)] + rest)
  {
    assert ([a, b, c, d] + s)[4..] == s;
  }

  lemma FromSextetsPair(a: Sextet, b: Sextet)
    requires Byte0(a, b) < 256
    ensures FromSextets([a, b]) == Some([Byte0(a, b)])
  {
  }

  lemma FromSextetsTriple(a: Sextet, b: Sextet, c: Sextet)
    requires Byte0(a, b) < 256 && Byte1(b, c) < 256
    ensures FromSextets([a, b, c]) == Some([Byte0(a, b), Byte1(b, c)])
  {
  }

  lemma HalfRoundTrip(x: Byte)
    ensures Top(x) < 64 && Half(x) < 64 && Byte0(Top(x), Half(x)) == x
  {
  }

  lemma OneByteRoundTrip(x: Byte)
    ensures FromSextets([Top(x), Half(x)]) == Some([x])
  {
    HalfRoundTrip(x);
    FromSextetsPair(Top(x), Half(x));
  }

  lemma TwoByteRoundTrip(x: Byte, y: Byte)
    ensures FromSextets([Top(x), Mid(x, y), Low(y, 0)]) == Some([x, y])
  {
    GroupRoundTrip(x, y, 0);
    FromSextetsTriple(Top(x), Mid(x, y), Low(y, 0));
  }

  lemma {:induction false} SextetsRoundTrip(b: seq<Byte>)
    ensures FromSextets(Sextets(b)) == Some(b)
  {
    if |b| == 0 {
    } else if |b| == 1 {
      OneByteRoundTrip(b[0]);
      assert b == [b[0]];
    } else if |b| == 2 {
      TwoByteRoundTrip(b[0], b[1]);
      assert b == [b[0], b[1]];
    } else {
      var x, y, z := b[0], b[1], b[2];
      SextetsRoundTrip(b[3..]);
      FromSextetsGroup(Top(x), Mid(x, y), Low(y, z), Last(z), Sextets(b[3..]), b[3..]);
      GroupRoundTrip(x, y, z);
      assert b == [x, y, z] + b[3..];
    }
  }

  /** The unpadded encoding. */
  function EncodeRaw(b: seq<Byte>): string {
    Map(EncodeChar, Sextets(b))
  }

  /** The padded encoding: '=' up to a multiple of four characters. */
  function EncodePadded(b: seq<Byte>): string {
    var raw := EncodeRaw(b);
    raw + (if |raw| % 4 == 2 then "==" else if |raw| % 4 == 3 then "=" else "")
  }

  /** The values of the characters, if all of them are in the alphabet. */
  function Values(s: string): Option<seq<Sextet>> {
    if s == [] then Some([])
    else
      match (Values(s[..|s| - 1]), DecodeChar(s[|s| - 1]))
      case (Some(front), Some(n)) => Some(front + [n])
      case _ => None
  }

  predicate NotLineBreak(c: char) {
    c != '\r' && c != '\n'
  }

  /** Go's unpadded decoder: line breaks are ignored, anything else outside the alphabet,
      padding included, is an error. */
  function DecodeRaw(s: string): Option<seq<Byte>> {
    match Values(Filter(NotLineBreak, s))
    case None => None
    case Some(sextets) => FromSextets(sextets)
  }

  /** Python first maps '-' and '_' to '+' and '/', so it reads either pair. */
  function PyChar(c: char): Option<Sextet> {
    if c == '+' then Some(62) else if c == '/' then Some(63) else DecodeChar(c)
  }

  /** Python's lenient scan: characters outside the alphabet are skipped, enough padding ends
      the data, and without it the data must fill whole groups. */
  function PyScan(s: string, acc: seq<Sextet>, pads: nat): Option<seq<Byte>> {
    if s == [] then
      if |acc| % 4 == 0 then FromSextets(acc) else None
    else if s[0] == '=' then
      if |acc| % 4 < 2 then PyScan(s[1..], acc, pads)
      else if |acc| % 4 + pads + 1 >= 4 then FromSextets(acc)
      else PyScan(s[1..], acc, pads + 1)
    else match PyChar(s[0])
      case None => PyScan(s[1..], acc, pads)
      case Some(n) => PyScan(s[1..], acc + [n], 0)
  }

  function DecodePadded(s: string): Option<seq<Byte>> {
    PyScan(s, [], 0)
  }

  lemma {:induction false} ValuesOfEncoded(x: seq<Sextet>)
    ensures Values(Map(EncodeChar, x)) == Some(x)
  {
    var s := Map(EncodeChar, x);
    if x != [] {
      var front, last := x[..|x| - 1], x[|x| - 1];
      ValuesOfEncoded(front);
      CharRoundTrip(last);
      assert s[..|s| - 1] == Map(EncodeChar, front);
      assert x == front + [last];
    }
  }

  /** Go reads back what Go writes, for any bytes. */
  lemma RawRoundTrip(b: seq<Byte>)
    ensures DecodeRaw(EncodeRaw(b)) == Some(b)
  {
    var s := EncodeRaw(b);
    forall c | c in s ensures NotLineBreak(c) {
      var i :| 0 <= i < |s| && s[i] == c;
      CharRoundTrip(Sextets(b)[i]);
    }
    FilterAll(NotLineBreak, s);
    ValuesOfEncoded(Sextets(b));
    SextetsRoundTrip(b);
  }

  /** Scanning encoded data only collects its sextets. */
  lemma {:induction false} ScanData(x: seq<Sextet>, tail: string, acc: seq<Sextet>)
    ensures PyScan(Map(EncodeChar, x) + tail, acc, 0) == PyScan(tail, acc + x, 0)
    decreases |x|
  {
    var s := Map(EncodeChar, x) + tail;
    if x == [] {
      assert s == tail && acc + x == acc;
    } else {
      CharRoundTrip(x[0]);
      assert s[0] == EncodeChar(x[0]);
      assert s[1..] == Map(EncodeChar, x[1..]) + tail;
      ScanData(x[1..], tail, acc + [x[0]]);
      assert acc + [x[0]] + x[1..] == acc + x;
    }
  }

  lemma ScanPadding(acc: seq<Sextet>)
    requires |acc| % 4 != 1
    ensures PyScan(if |acc| % 4 == 2 then "==" else if |acc| % 4 == 3 then "=" else "", acc, 0) == FromSextets(acc)
  {
    if |acc| % 4 == 2 {
      assert "=="[1..] == "=";
      assert PyScan("==", acc, 0) == PyScan("=", acc, 1);
    }
  }

  /** Python reads back what Python writes, for any bytes. */
  lemma PaddedRoundTrip(b: seq<Byte>)
    ensures DecodePadded(EncodePadded(b)) == Some(b)
  {
    var x := Sextets(b);
    var tail := if |x| % 4 == 2 then "==" else if |x| % 4 == 3 then "=" else "";
    assert EncodePadded(b) == Map(EncodeChar, x) + tail;
    ScanData(x, tail, []);
    assert [] + x == x;
    ScanPadding(x);
    SextetsRoundTrip(b);
  }

  lemma {:induction false} ValuesRejects(s: string, i: nat)
    requires i < |s| && DecodeChar(s[i]).None?
    ensures Values(s).None?
  {
    if i < |s| - 1 {
      ValuesRejects(s[..|s| - 1], i);
    }
  }

  lemma RawReaderRejectsPadding(s: string)
    requires '=' in s
    ensures DecodeRaw(s).None?
  {
    var t := Filter(NotLineBreak, s);
    assert '=' in t;
    var i :| 0 <= i < |t| && t[i] == '=';
    ValuesRejects(t, i);
  }

  lemma GroupCount(n: nat)
    ensures (4 * n + 2) / 3 % 4 == 0 <==> n % 3 == 0
    ensures (4 * n + 2) / 3 % 4 != 1
  {
    var k, r := n / 3, n % 3;
    assert n == 3 * k + r;
    assert (4 * n + 2) / 3 == 4 * k + (4 * r + 2) / 3;
  }

  lemma PaddedReaderNeedsGroups(b: seq<Byte>)
    ensures DecodePadded(EncodeRaw(b)) == if |Sextets(b)| % 4 == 0 then Some(b) else None
  {
    var x := Sextets(b);
    assert EncodeRaw(b) == Map(EncodeChar, x) + "";
    ScanData(x, "", []);
    assert [] + x == x;
    SextetsRoundTrip(b);
  }

  /** The two forms coincide, and each reader accepts the other writer's output, exactly when
      the data fills whole three-byte groups. */
  lemma CrossReading(b: seq<Byte>)
    ensures EncodeRaw(b) == EncodePadded(b) <==> |b| % 3 == 0
    ensures DecodeRaw(EncodePadded(b)) == Some(b) <==> |b| % 3 == 0
    ensures DecodePadded(EncodeRaw(b)) == Some(b) <==> |b| % 3 == 0
  {
    GroupCount(|b|);
    PaddedReaderNeedsGroups(b);
    var raw, padded := EncodeRaw(b), EncodePadded(b);
    if |b| % 3 == 0 {
      RawRoundTrip(b);
      assert padded == raw;
    } else {
      assert |padded| > |raw| && padded[|padded| - 1] == '=';
      RawReaderRejectsPadding(padded);
    }
  }
}
