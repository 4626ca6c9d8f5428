/** Keyset pagination: the cursor codec of both languages, page requests and pages. */
module Pagination {
  import opened Collections
  import opened Uuids
  import opened Base64Url

  const DEFAULT_LIMIT: nat := 50
  const MAX_LIMIT: nat := 200

  /** Largest value of Go's int, as strconv.Atoi sees it. */
  const MAX_INT: int := 0x7FFF_FFFF_FFFF_FFFF

  datatype PageRequest = PageRequest(limit: nat, after: Option<Uuid>)

  datatype PageError = NoError | BadLimit | BadCursor

  datatype PageInfo = PageInfo(nextCursor: Option<string>, hasMore: bool)

  predicate IsDigit(c: char) {
    '0' <= c <= '9'
  }

  function Digits(s: string): nat
    requires forall c :: c in s ==> IsDigit(c)
  {
    if s == [] then 0
    else
      assert s[|s| - 1] in s;
      assert IsDigit(s[|s| - 1]);
      10 * Digits(s[..|s| - 1]) + (s[|s| - 1] - '0') as nat
  }

  /** Decimal text with an optional sign, within Go's int range. */
  function Atoi(s: string): Option<int> {
    var body := if s != "" && (s[0] == '+' || s[0] == '-') then s[1..] else s;
    if body == "" || exists c :: c in body && !IsDigit(c) then None
    else
      var n: int := if s[0] == '-' then 0 - Digits(body) else Digits(body);
      if -MAX_INT - 1 <= n <= MAX_INT then Some(n) else None
  }

  function CharByte(c: char): Byte {
    if c < 256 as char then c as nat else 255
  }

  function TextBytes(s: string): seq<Byte>
    requires forall c :: c in s ==> c < 128 as char
  {
    seq(|s|, i requires 0 <= i < |s| => CharByte(s[i]))
  }

  function ByteChar(b: Byte): char {
    b as char
  }

  function TextOf(bytes: seq<Byte>): string {
    Map(ByteChar, bytes)
  }

  lemma TextRoundTrip(s: string)
    requires forall c :: c in s ==> c < 128 as char
    ensures TextOf(TextBytes(s)) == s
  {
    forall i | 0 <= i < |s| ensures TextOf(TextBytes(s))[i] == s[i] {
      assert s[i] in s;
    }
  }

  /** Go: an opaque cursor from the last item's id. */
  function EncodeCursor(id: Uuid): string {
    StringIsKeySafe(id);
    EncodeRaw(TextBytes(ToString(id)))
  }

  /** Go: the id in a cursor. */
  function CursorId(cursor: string): Option<Uuid> {
    match DecodeRaw(cursor)
    case None => None
    case Some(raw) => Parse(TextOf(raw))
  }

  /** Go: an empty limit means the default, a large one the maximum. Fields are filled one by
      one and an error leaves the rest at their defaults. */
  method ParsePage(limitText: string, cursor: string) returns (pr: PageRequest, err: PageError)
    ensures err == BadLimit <==> limitText != "" && (Atoi(limitText).None? || Atoi(limitText).value < 1)
    ensures err == BadCursor <==> err != BadLimit && cursor != "" && CursorId(cursor).None?
    ensures 1 <= pr.limit <= MAX_LIMIT
    ensures err == NoError ==> pr.limit == if limitText == "" then DEFAULT_LIMIT
                                            else if Atoi(limitText).value > MAX_LIMIT then MAX_LIMIT
                                            else Atoi(limitText).value
    ensures err == NoError ==> pr.after == if cursor == "" then None else CursorId(cursor)
  {
    pr, err := PageRequest(DEFAULT_LIMIT, None), NoError;
    if limitText != "" {
      var n := Atoi(limitText);
      if n.None? || n.value < 1 {
        return pr, BadLimit;
      }
      pr := pr.(limit := if n.value > MAX_LIMIT then MAX_LIMIT else n.value);
    }
    if cursor != "" {
      var raw := DecodeRaw(cursor);
      if raw.None? {
        return pr, BadCursor;
      }
      var id := Parse(TextOf(raw.value));
      if id.None? {
        return pr, BadCursor;
      }
      pr := pr.(after := id);
    }
  }

  /** Go: trims a slice fetched with one item to spare. */
  function BuildPage<T>(items: seq<T>, limit: nat, idOf: T -> Uuid): (seq<T>, PageInfo)
    requires limit >= 1
  {
    if |items| > limit then
      (items[..limit], PageInfo(Some(EncodeCursor(idOf(items[limit - 1]))), true))
    else
      (items, PageInfo(None, false))
  }

  /** Python: base64 of the id text. */
  function PyEncodeCursor(id: string): string
    requires forall c :: c in id ==> c < 128 as char
  {
    EncodePadded(TextBytes(id))
  }

  predicate IsHex(c: char) {
    HexValue(c).Some?
  }

  predicate NotHyphen(c: char) {
    c != '-'
  }

  /** Python's UUID text check: thirty-two hex digits once the hyphens are gone. */
  predicate PyIsUuid(s: string) {
    var digits := Filter(NotHyphen, s);
    |digits| == 32 && forall c :: c in digits ==> IsHex(c)
  }

  /** Python: the text in a cursor, which must be a UUID; None is a CursorError. */
  function PyDecodeCursor(cursor: string): Option<string> {
    match DecodePadded(cursor)
    case None => None
    case Some(raw) =>
      if (exists b :: b in raw && b >= 128) || !PyIsUuid(TextOf(raw)) then None else Some(TextOf(raw))
  }

  /** Go reads back its own cursor for every UUID. */
  lemma CursorRoundTrip(id: Uuid)
    ensures CursorId(EncodeCursor(id)) == Some(id)
  {
    StringIsKeySafe(id);
    var text := ToString(id);
    RawRoundTrip(TextBytes(text));
    TextRoundTrip(text);
    ParseToString(id);
  }

  predicate HyphenPlace(i: nat) {
    i == 8 || i == 13 || i == 18 || i == 23
  }

  lemma CharKind(id: Uuid, i: nat)
    requires i < 36
    ensures ToString(id)[i] == '-' <==> HyphenPlace(i)
    ensures ToString(id)[i] != '-' ==> IsHex(ToString(id)[i])
  {
    assert ToString(id)[i] == CharAt(id)(i);
  }

  /** How many digits precede position k of a hyphenated form. */
  lemma {:induction false} DigitCount(s: string, k: nat)
    requires |s| == 36 && k <= 36
    requires forall i: nat :: i < 36 ==> (s[i] == '-' <==> HyphenPlace(i))
    ensures |Filter(NotHyphen, s[..k])| ==
            k - (if k <= 8 then 0 else if k <= 13 then 1 else if k <= 18 then 2 else if k <= 23 then 3 else 4)
  {
    if k > 0 {
      DigitCount(s, k - 1);
      assert s[..k] == s[..k - 1] + [s[k - 1]];
      FilterSnoc(NotHyphen, s[..k - 1], s[k - 1]);
      assert NotHyphen(s[k - 1]) <==> !HyphenPlace(k - 1);
    }
  }

  lemma CanonicalIsPyUuid(id: Uuid)
    ensures PyIsUuid(ToString(id))
  {
    var s := ToString(id);
    forall i: nat | i < 36 ensures s[i] == '-' <==> HyphenPlace(i) {
      CharKind(id, i);
    }
    assert s[..36] == s;
    DigitCount(s, 36);
    forall c | c in Filter(NotHyphen, s) ensures IsHex(c) {
      var i :| 0 <= i < |s| && s[i] == c;
      CharKind(id, i);
    }
  }

  /** Thirty-six characters fill whole base64 groups, so the two writers agree. */
  lemma WritersAgree(id: Uuid)
    ensures (forall c :: c in ToString(id) ==> c < 128 as char)
    ensures PyEncodeCursor(ToString(id)) == EncodeCursor(id)
  {
    StringIsKeySafe(id);
    CrossReading(TextBytes(ToString(id)));
  }

  /** Both languages write the same cursor for a UUID, and each reads the other's back to the
      same UUID: thirty-six characters fill whole base64 groups. */
  lemma CursorsInteroperate(id: Uuid)
    ensures (forall c :: c in ToString(id) ==> c < 128 as char)
    ensures PyEncodeCursor(ToString(id)) == EncodeCursor(id)
    ensures CursorId(PyEncodeCursor(ToString(id))) == Some(id)
    ensures PyDecodeCursor(EncodeCursor(id)) == Some(ToString(id))
  {
    WritersAgree(id);
    CursorRoundTrip(id);
    PyReads(id);
  }

  /** Python reads back the padded cursor of a canonical id. */
  lemma PyReads(id: Uuid)
    ensures (forall c :: c in ToString(id) ==> c < 128 as char)
    ensures PyDecodeCursor(PyEncodeCursor(ToString(id))) == Some(ToString(id))
  {
    StringIsKeySafe(id);
    var text := ToString(id);
    PaddedRoundTrip(TextBytes(text));
    TextRoundTrip(text);
    CanonicalIsPyUuid(id);
    forall b | b in TextBytes(text) ensures b < 128 {
      var i :| 0 <= i < |text| && TextBytes(text)[i] == b;
      assert text[i] in text;
    }
  }
}
