/** The binary page cursor: version, time and record id in 21 bytes, as 28 characters of base64url. */
module Cursor {
  import opened Wrappers
  import opened CpsKeys
  import opened Protocol

  const CURSOR_VERSION: Byte := 2
  const CURSOR_BYTE_LENGTH: nat := 21
  const CURSOR_ENCODED_LENGTH: nat := 28
  const CURSOR_GROUPS: nat := 7
  const TIMESTAMP_OFFSET: nat := 1
  const OBJECT_ID_OFFSET: nat := 9
  const MAX_SAFE_INTEGER: int := 0x1F_FFFF_FFFF_FFFF

  // ---------- big-endian integers ----------

  function Power256(k: nat): nat { if k == 0 then 1 else 256 * Power256(k - 1) }

  function BigEndian(n: nat, k: nat): (bytes: Bytes)
    ensures |bytes| == k
  {
    if k == 0 then [] else BigEndian(n / 256, k - 1) + [n % 256]
  }

  function Unsigned(bytes: Bytes): nat {
    if bytes == [] then 0 else Unsigned(bytes[..|bytes| - 1]) * 256 + bytes[|bytes| - 1]
  }

  lemma {:induction false} UnsignedOfBigEndian(n: nat, k: nat)
    requires n < Power256(k)
    ensures Unsigned(BigEndian(n, k)) == n
  {
    if k > 0 {
      UnsignedOfBigEndian(n / 256, k - 1);
      assert BigEndian(n, k)[..k - 1] == BigEndian(n / 256, k - 1);
    }
  }

  lemma {:induction false} BigEndianOfUnsigned(bytes: Bytes)
    ensures Unsigned(bytes) < Power256(|bytes|) && BigEndian(Unsigned(bytes), |bytes|) == bytes
  {
    if bytes != [] {
      var front, last := bytes[..|bytes| - 1], bytes[|bytes| - 1];
      BigEndianOfUnsigned(front);
      assert Unsigned(bytes) / 256 == Unsigned(front) && Unsigned(bytes) % 256 == last;
    }
  }

  lemma Power256Of8And12()
    ensures Power256(8) == 0x1_0000_0000_0000_0000 && Power256(12) == 0x1_0000_0000_0000_0000_0000_0000
  {
    assert Power256(4) == 0x1_0000_0000;
    assert Power256(8) == 256 * 256 * 256 * 256 * Power256(4);
    assert Power256(12) == 256 * 256 * 256 * 256 * Power256(8);
  }

  // ---------- base64url, section 5 of RFC 4648 ----------

  type Sextet = v: int | 0 <= v < 64

  function Symbol(v: Sextet): char {
    if v < 26 then 'A' + v as char
    else if v < 52 then 'a' + (v - 26) as char
    else if v < 62 then '0' + (v - 52) as char
    else if v == 62 then '-' else '_'
  }

  /** The pattern `[A-Za-z0-9_-]`. */
  predicate InAlphabet(c: char) {
    'A' <= c <= 'Z' || 'a' <= c <= 'z' || '0' <= c <= '9' || c == '_' || c == '-'
  }

  function SextetOf(c: char): Sextet
    requires InAlphabet(c)
  {
    if 'A' <= c <= 'Z' then c as int - 'A' as int
    else if 'a' <= c <= 'z' then c as int - 'a' as int + 26
    else if '0' <= c <= '9' then c as int - '0' as int + 52
    else if c == '-' then 62 else 63
  }

  predicate Alphabetic(text: string) {
    forall i :: 0 <= i < |text| ==> InAlphabet(text[i])
  }

  function SymbolsOf(sextets: seq<Sextet>): (text: string)
    ensures |text| == |sextets| && forall i :: 0 <= i < |text| ==> text[i] == Symbol(sextets[i])
  {
    seq(|sextets|, i requires 0 <= i < |sextets| => Symbol(sextets[i]))
  }

  function SextetsOf(text: string): (sextets: seq<Sextet>)
    requires Alphabetic(text)
    ensures |sextets| == |text| && forall i :: 0 <= i < |text| ==> sextets[i] == SextetOf(text[i])
  {
    seq(|text|, i requires 0 <= i < |text| => SextetOf(text[i]))
  }

  lemma SymbolsRoundTrip(sextets: seq<Sextet>)
    ensures Alphabetic(SymbolsOf(sextets)) && SextetsOf(SymbolsOf(sextets)) == sextets
  {
  }

  lemma SextetsRoundTrip(text: string)
    requires Alphabetic(text)
    ensures SymbolsOf(SextetsOf(text)) == text
  {
  }

  /** Three bytes as four sextets, and back. */
  function Split(a: Byte, b: Byte, c: Byte): seq<Sextet> {
    [a / 4, a % 4 * 16 + b / 16, b % 16 * 4 + c / 64, c % 64]
  }

  function Join(p: Sextet, q: Sextet, r: Sextet, s: Sextet): Bytes {
    [p * 4 + q / 16, q % 16 * 16 + r / 4, r % 4 * 64 + s]
  }

  /** The alphabet of RFC 4648, section 5: capital letters, small letters and digits, each in order, `-` and `_`. */
  lemma AlphabetInOrder(v: Sextet)
    ensures Symbol(0) == 'A' && Symbol(25) == 'Z' && Symbol(26) == 'a' && Symbol(51) == 'z'
    ensures Symbol(52) == '0' && Symbol(61) == '9' && Symbol(62) == '-' && Symbol(63) == '_'
    ensures v < 61 && v != 25 && v != 51 ==> Symbol(v + 1) as int == Symbol(v) as int + 1
  {
  }

  /** Four sextets are the 24 bits of three bytes, most significant first. */
  lemma SplitMeaning(a: Byte, b: Byte, c: Byte)
    ensures |Split(a, b, c)| == 4
    ensures
      var s := Split(a, b, c);
      var p: int, q: int, r: int, t: int := s[0], s[1], s[2], s[3];
      ((p * 64 + q) * 64 + r) * 64 + t == (a * 256 + b) * 256 + c
  {
  }

  /** The parts of a number over a base. */
  lemma Digits(hi: int, lo: int, base: int)
    requires base == 4 || base == 16 || base == 64
    requires 0 <= lo < base
    ensures (hi * base + lo) / base == hi && (hi * base + lo) % base == lo
  {
  }

  lemma SplitNumbers(a: Byte, b: Byte, c: Byte)
    ensures
      var q, r := a % 4 * 16 + b / 16, b % 16 * 4 + c / 64;
      a / 4 * 4 + q / 16 == a && q % 16 * 16 + r / 4 == b && r % 4 * 64 + c % 64 == c
  {
    Digits(a % 4, b / 16, 16);
    Digits(b % 16, c / 64, 4);
    assert a == a / 4 * 4 + a % 4 && b == b / 16 * 16 + b % 16 && c == c / 64 * 64 + c % 64;
  }

  lemma JoinOfSplit(a: Byte, b: Byte, c: Byte)
    ensures
      var t := Split(a, b, c);
      Join(t[0], t[1], t[2], t[3]) == [a, b, c]
  {
    var p: Sextet, q: Sextet, r: Sextet, s: Sextet := a / 4, a % 4 * 16 + b / 16, b % 16 * 4 + c / 64, c % 64;
    SplitNumbers(a, b, c);
    JoinIs(p, q, r, s, a, b, c);
  }

  lemma JoinIs(p: Sextet, q: Sextet, r: Sextet, s: Sextet, a: Byte, b: Byte, c: Byte)
    requires p * 4 + q / 16 == a && q % 16 * 16 + r / 4 == b && r % 4 * 64 + s == c
    ensures Join(p, q, r, s) == [a, b, c]
  {
  }

  lemma JoinNumbers(p: Sextet, q: Sextet, r: Sextet, s: Sextet)
    ensures
      var b0, b1, b2 := p * 4 + q / 16, q % 16 * 16 + r / 4, r % 4 * 64 + s;
      b0 / 4 == p && b0 % 4 * 16 + b1 / 16 == q && b1 % 16 * 4 + b2 / 64 == r && b2 % 64 == s
  {
    Digits(p, q / 16, 4);
    Digits(q % 16, r / 4, 16);
    Digits(r % 4, s, 64);
    assert q == q / 16 * 16 + q % 16 && r == r / 4 * 4 + r % 4;
  }

  lemma SplitOfJoin(p: Sextet, q: Sextet, r: Sextet, s: Sextet)
    ensures
      var g := Join(p, q, r, s);
      Split(g[0], g[1], g[2]) == [p, q, r, s]
  {
    JoinNumbers(p, q, r, s);
  }

  /** k groups of three bytes as k groups of four sextets. */
  function SplitAll(bytes: Bytes, k: nat): (sextets: seq<Sextet>)
    requires |bytes| == 3 * k
    ensures |sextets| == 4 * k
  {
    if k == 0 then []
    else
      var n := 3 * (k - 1);
      SplitAll(bytes[..n], k - 1) + Split(bytes[n], bytes[n + 1], bytes[n + 2])
  }

  function JoinAll(sextets: seq<Sextet>, k: nat): (bytes: Bytes)
    requires |sextets| == 4 * k
    ensures |bytes| == 3 * k
  {
    if k == 0 then []
    else
      var n := 4 * (k - 1);
      JoinAll(sextets[..n], k - 1) + Join(sextets[n], sextets[n + 1], sextets[n + 2], sextets[n + 3])
  }

  lemma JoinAllAppend(front: seq<Sextet>, group: seq<Sextet>, k: nat)
    requires |front| == 4 * k && |group| == 4
    ensures JoinAll(front + group, k + 1) == JoinAll(front, k) + Join(group[0], group[1], group[2], group[3])
  {
  }

  lemma SplitAllAppend(front: Bytes, group: Bytes, k: nat)
    requires |front| == 3 * k && |group| == 3
    ensures SplitAll(front + group, k + 1) == SplitAll(front, k) + Split(group[0], group[1], group[2])
  {
  }

  lemma LastThree<T>(s: seq<T>)
    requires |s| >= 3
    ensures
      var n := |s| - 3;
      s == s[..n] + [s[n], s[n + 1], s[n + 2]]
  {
  }

  lemma LastFour<T>(s: seq<T>)
    requires |s| >= 4
    ensures
      var n := |s| - 4;
      s == s[..n] + [s[n], s[n + 1], s[n + 2], s[n + 3]]
  {
  }

  lemma {:induction false} JoinAllUndoesSplitAll(bytes: Bytes, k: nat)
    requires |bytes| == 3 * k
    ensures JoinAll(SplitAll(bytes, k), k) == bytes
    decreases k
  {
    if k > 0 {
      var n := 3 * (k - 1);
      var a, b, c := bytes[n], bytes[n + 1], bytes[n + 2];
      JoinAllUndoesSplitAll(bytes[..n], k - 1);
      JoinOfSplit(a, b, c);
      JoinAllAppend(SplitAll(bytes[..n], k - 1), Split(a, b, c), k - 1);
      LastThree(bytes);
    }
  }

  lemma {:induction false} SplitAllUndoesJoinAll(sextets: seq<Sextet>, k: nat)
    requires |sextets| == 4 * k
    ensures SplitAll(JoinAll(sextets, k), k) == sextets
    decreases k
  {
    if k > 0 {
      var n := 4 * (k - 1);
      var p, q, r, s := sextets[n], sextets[n + 1], sextets[n + 2], sextets[n + 3];
      SplitAllUndoesJoinAll(sextets[..n], k - 1);
      SplitOfJoin(p, q, r, s);
      SplitAllAppend(JoinAll(sextets[..n], k - 1), Join(p, q, r, s), k - 1);
      LastFour(sextets);
    }
  }

  function Base64Url(bytes: Bytes, k: nat): (text: string)
    requires |bytes| == 3 * k
    ensures |text| == 4 * k
  {
    SymbolsOf(SplitAll(bytes, k))
  }

  function FromBase64Url(text: string, k: nat): (bytes: Bytes)
    requires |text| == 4 * k && Alphabetic(text)
    ensures |bytes| == 3 * k
  {
    JoinAll(SextetsOf(text), k)
  }

  lemma DecodeEncode(bytes: Bytes, k: nat)
    requires |bytes| == 3 * k
    ensures Alphabetic(Base64Url(bytes, k)) && FromBase64Url(Base64Url(bytes, k), k) == bytes
  {
    SymbolsRoundTrip(SplitAll(bytes, k));
    JoinAllUndoesSplitAll(bytes, k);
  }

  /** Every text of the alphabet, in whole groups, is what its bytes encode to: no text is accepted twice. */
  lemma EncodeDecode(text: string, k: nat)
    requires |text| == 4 * k && Alphabetic(text)
    ensures Base64Url(FromBase64Url(text, k), k) == text
  {
    SplitAllUndoesJoinAll(SextetsOf(text), k);
    SextetsRoundTrip(text);
  }

  // ---------- the cursor ----------

  /** A time in milliseconds and a 12-byte record id, read as a number so that order is byte order. */
  datatype CursorPosition = CursorPosition(recordedAt: int, recordId: nat)

  datatype InvalidCursor = InvalidCursor

  const OBJECT_ID_LIMIT: nat := 0x1_0000_0000_0000_0000_0000_0000

  predicate TimeAccepted(t: int) {
    0 <= t <= MAX_SAFE_INTEGER && t <= MAX_DATE_MILLISECONDS
  }

  function Payload(p: CursorPosition): (bytes: Bytes)
    requires p.recordedAt >= 0
    ensures |bytes| == CURSOR_BYTE_LENGTH
  {
    [CURSOR_VERSION] + BigEndian(p.recordedAt, 8) + BigEndian(p.recordId, 12)
  }

  /** Writes a number big-endian at an offset of the buffer. */
  method WriteBigEndian(buffer: array<Byte>, offset: nat, count: nat, n: nat)
    requires offset + count <= buffer.Length
    modifies buffer
    ensures buffer[..] == old(buffer[..offset]) + BigEndian(n, count) + old(buffer[offset + count..])
  {
    var k: nat, rest: nat := count, n;
    while k > 0
      invariant k <= count && BigEndian(n, count) == BigEndian(rest, k) + buffer[offset + k..offset + count]
      invariant buffer[..offset] == old(buffer[..offset]) && buffer[offset + count..] == old(buffer[offset + count..])
    {
      ghost var tail := buffer[offset + k..offset + count];
      buffer[offset + k - 1] := rest % 256;
      assert buffer[offset + k - 1..offset + count] == [rest % 256] + tail;
      assert BigEndian(rest, k) + tail == BigEndian(rest / 256, k - 1) + ([rest % 256] + tail);
      k, rest := k - 1, rest / 256;
    }
    assert buffer[..] == buffer[..offset] + buffer[offset..offset + count] + buffer[offset + count..];
  }

  function Encoded(p: CursorPosition): Result<string, InvalidCursor> {
    if TimeAccepted(p.recordedAt) then Ok(Base64Url(Payload(p), CURSOR_GROUPS)) else Err(InvalidCursor)
  }

  method EncodeConnectivityCursor(p: CursorPosition) returns (r: Result<string, InvalidCursor>)
    requires p.recordId < OBJECT_ID_LIMIT
    ensures r == Encoded(p)
  {
    if !(-MAX_SAFE_INTEGER <= p.recordedAt <= MAX_SAFE_INTEGER) || p.recordedAt < 0
      || p.recordedAt > MAX_DATE_MILLISECONDS
    {
      return Err(InvalidCursor);
    }
    var payload := new Byte[CURSOR_BYTE_LENGTH];
    payload[0] := CURSOR_VERSION;
    WriteBigEndian(payload, TIMESTAMP_OFFSET, 8, p.recordedAt);
    ghost var stamped := payload[..];
    WriteBigEndian(payload, OBJECT_ID_OFFSET, 12, p.recordId);
    assert stamped[..OBJECT_ID_OFFSET] == [CURSOR_VERSION] + BigEndian(p.recordedAt, 8);
    assert payload[..] == Payload(p);
    return Ok(Base64Url(payload[..], CURSOR_GROUPS));
  }

  /** A 64-bit two's complement number. */
  function Signed64(bytes: Bytes): int
    requires |bytes| == 8
  {
    var u := Unsigned(bytes);
    if u < 0x8000_0000_0000_0000 then u else u - 0x1_0000_0000_0000_0000
  }

  function DecodeConnectivityCursor(cursor: string): Result<CursorPosition, InvalidCursor> {
    if |cursor| != CURSOR_ENCODED_LENGTH || !Alphabetic(cursor) then Err(InvalidCursor)
    else
      var decoded := FromBase64Url(cursor, CURSOR_GROUPS);
      if |decoded| != CURSOR_BYTE_LENGTH || Base64Url(decoded, CURSOR_GROUPS) != cursor then Err(InvalidCursor)
      else if decoded[0] != CURSOR_VERSION then Err(InvalidCursor)
      else
        var timestamp := Signed64(decoded[TIMESTAMP_OFFSET..OBJECT_ID_OFFSET]);
        if !(-MAX_SAFE_INTEGER <= timestamp <= MAX_SAFE_INTEGER) then Err(InvalidCursor)
        else if timestamp < 0 || timestamp > MAX_DATE_MILLISECONDS then Err(InvalidCursor)
        else Ok(CursorPosition(timestamp, Unsigned(decoded[OBJECT_ID_OFFSET..])))
  }

  /** The time and the id can be read off the bytes. */
  lemma PartsOfPayload(p: CursorPosition)
    requires TimeAccepted(p.recordedAt) && p.recordId < OBJECT_ID_LIMIT
    ensures
      var bytes := Payload(p);
      && bytes[0] == CURSOR_VERSION && Unsigned(bytes[TIMESTAMP_OFFSET..OBJECT_ID_OFFSET]) == p.recordedAt
      && Unsigned(bytes[OBJECT_ID_OFFSET..]) == p.recordId
  {
    var bytes := Payload(p);
    Power256Of8And12();
    UnsignedOfBigEndian(p.recordedAt, 8);
    UnsignedOfBigEndian(p.recordId, 12);
    assert bytes[TIMESTAMP_OFFSET..OBJECT_ID_OFFSET] == BigEndian(p.recordedAt, 8);
    assert bytes[OBJECT_ID_OFFSET..] == BigEndian(p.recordId, 12);
  }

  /** Decoding what was encoded gives the position back. */
  lemma DecodeUndoesEncode(p: CursorPosition)
    requires TimeAccepted(p.recordedAt) && p.recordId < OBJECT_ID_LIMIT
    ensures Encoded(p).Ok? && DecodeConnectivityCursor(Encoded(p).value) == Ok(p)
  {
    DecodeEncode(Payload(p), CURSOR_GROUPS);
    PartsOfPayload(p);
    DecodesTo(Encoded(p).value, Payload(p));
  }

  lemma DecodesTo(cursor: string, bytes: Bytes)
    requires |bytes| == CURSOR_BYTE_LENGTH && bytes[0] == CURSOR_VERSION
    requires |cursor| == CURSOR_ENCODED_LENGTH && Alphabetic(cursor)
    requires FromBase64Url(cursor, CURSOR_GROUPS) == bytes && Base64Url(bytes, CURSOR_GROUPS) == cursor
    requires TimeAccepted(Unsigned(bytes[TIMESTAMP_OFFSET..OBJECT_ID_OFFSET]))
    ensures DecodeConnectivityCursor(cursor) ==
            Ok(CursorPosition(Unsigned(bytes[TIMESTAMP_OFFSET..OBJECT_ID_OFFSET]), Unsigned(bytes[OBJECT_ID_OFFSET..])))
  {
  }

  lemma PayloadOfItsParts(bytes: Bytes)
    requires |bytes| == CURSOR_BYTE_LENGTH && bytes[0] == CURSOR_VERSION
    requires Signed64(bytes[TIMESTAMP_OFFSET..OBJECT_ID_OFFSET]) >= 0
    ensures
      var p := CursorPosition(Signed64(bytes[TIMESTAMP_OFFSET..OBJECT_ID_OFFSET]), Unsigned(bytes[OBJECT_ID_OFFSET..]));
      p.recordId < OBJECT_ID_LIMIT && Payload(p) == bytes
  {
    var time, id := bytes[TIMESTAMP_OFFSET..OBJECT_ID_OFFSET], bytes[OBJECT_ID_OFFSET..];
    Power256Of8And12();
    BigEndianOfUnsigned(time);
    BigEndianOfUnsigned(id);
    assert bytes == [bytes[0]] + time + id;
  }

  /** Encoding what was decoded gives the text back, so different texts never stand for the same position. */
  lemma EncodeUndoesDecode(cursor: string)
    ensures
      match DecodeConnectivityCursor(cursor)
      case Err(_) => true
      case Ok(p) => p.recordId < OBJECT_ID_LIMIT && Encoded(p) == Ok(cursor)
  {
    if DecodeConnectivityCursor(cursor).Ok? {
      EncodeDecode(cursor, CURSOR_GROUPS);
      PayloadOfItsParts(FromBase64Url(cursor, CURSOR_GROUPS));
    }
  }

  /** Which texts are accepted: 28 characters of the alphabet with the version byte and a time in range. */
  lemma AcceptedCursors(cursor: string)
    ensures DecodeConnectivityCursor(cursor).Ok? <==>
      && |cursor| == CURSOR_ENCODED_LENGTH && Alphabetic(cursor)
      && FromBase64Url(cursor, CURSOR_GROUPS)[0] == CURSOR_VERSION
      && Unsigned(FromBase64Url(cursor, CURSOR_GROUPS)[TIMESTAMP_OFFSET..OBJECT_ID_OFFSET]) <= MAX_DATE_MILLISECONDS
  {
    if |cursor| == CURSOR_ENCODED_LENGTH && Alphabetic(cursor) {
      EncodeDecode(cursor, CURSOR_GROUPS);
      BigEndianOfUnsigned(FromBase64Url(cursor, CURSOR_GROUPS)[TIMESTAMP_OFFSET..OBJECT_ID_OFFSET]);
      Power256Of8And12();
    }
  }

  /** The bytes behind a cursor: the version 2, the time in eight bytes, the document id in twelve, both big-endian. */
  lemma CursorLayout(p: CursorPosition)
    requires p.recordId < OBJECT_ID_LIMIT
    ensures Encoded(p).Ok? <==> 0 <= p.recordedAt <= 8_640_000_000_000_000
    ensures Encoded(p).Ok? ==>
      var text := Encoded(p).value;
      && |text| == 28 && Alphabetic(text)
      && var bytes := FromBase64Url(text, 7);
         bytes[0] == 2 && Unsigned(bytes[1..9]) == p.recordedAt && Unsigned(bytes[9..21]) == p.recordId
  {
    if Encoded(p).Ok? {
      DecodeEncode(Payload(p), CURSOR_GROUPS);
      PartsOfPayload(p);
      assert Payload(p)[9..21] == Payload(p)[9..];
    }
  }
}
