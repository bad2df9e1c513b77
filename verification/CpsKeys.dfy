/** Canonical CPS node ids and the deterministic keys built from them. */
module CpsKeys {
  import opened Wrappers

  type Byte = x: int | 0 <= x < 256
  type Bytes = seq<Byte>

  const MAX_CPS_NODE_ID: nat := 0xFFFF_FFFF_FFFF_FFFF
  const MAX_CPS_CHAIN_PAYLOAD_BYTES: nat := 8 * 1024

  datatype KeyError = NotCanonical | ExceedsUint64 | InvalidCid | EmptyPayload | PayloadTooLarge

  /** A node id as the callers hold it: a bigint, or text that should already be canonical. */
  datatype NodeIdInput = Numeric(value: int) | Text(text: string)

  /** A hexadecimal SHA-256 digest. */
  type Digest = s: string | |s| == 64 && forall i :: 0 <= i < |s| ==> IsHexDigit(s[i])
    witness seq(64, _ => '0')

  predicate IsDigit(c: char) { '0' <= c <= '9' }

  predicate IsHexDigit(c: char) { IsDigit(c) || 'a' <= c <= 'f' }

  predicate AllDigits(s: string) { forall i :: 0 <= i < |s| ==> IsDigit(s[i]) }

  /** The pattern `^(0|[1-9]\d*)$`. */
  predicate IsCanonical(s: string) {
    |s| > 0 && AllDigits(s) && (|s| == 1 || s[0] != '0')
  }

  function Digit(d: nat): char
    requires d < 10
  {
    '0' + d as char
  }

  /** Decimal rendering of a natural number. */
  function Decimal(n: nat): string {
    if n < 10 then [Digit(n)] else Decimal(n / 10) + [Digit(n % 10)]
  }

  function Parse(s: string): nat
    requires AllDigits(s)
  {
    if s == [] then 0 else Parse(s[..|s| - 1]) * 10 + (s[|s| - 1] as int - '0' as int)
  }

  lemma {:induction false} ParseDecimal(n: nat)
    ensures IsCanonical(Decimal(n)) && Parse(Decimal(n)) == n
    ensures Decimal(n)[0] == '0' <==> n == 0
  {
    if n < 10 {
      ParseAppend([], Digit(n));
    } else {
      ParseDecimal(n / 10);
      ParseAppend(Decimal(n / 10), Digit(n % 10));
    }
  }

  lemma ParseAppend(s: string, c: char)
    requires AllDigits(s) && IsDigit(c)
    ensures AllDigits(s + [c]) && Parse(s + [c]) == Parse(s) * 10 + (c as int - '0' as int)
  {
  }

  lemma {:induction false} CanonicalNonZero(s: string)
    requires IsCanonical(s) && s[0] != '0'
    ensures Parse(s) > 0
  {
    if |s| == 1 {
      assert s[..0] == [];
    } else {
      CanonicalNonZero(s[..|s| - 1]);
    }
  }

  lemma {:induction false} DecimalParse(s: string)
    requires IsCanonical(s)
    ensures Decimal(Parse(s)) == s
  {
    var front, last := s[..|s| - 1], s[|s| - 1];
    assert s == front + [last];
    if |s| > 1 {
      CanonicalNonZero(front);
      DecimalParse(front);
      assert Parse(s) / 10 == Parse(front) && Parse(s) % 10 == last as int - '0' as int;
    } else {
      assert front == [];
    }
  }

  function IntToString(n: int): string {
    if n < 0 then "-" + Decimal(-n) else Decimal(n)
  }

  /** The number an input denotes, when it denotes one. */
  ghost predicate Denotes(input: NodeIdInput, n: nat) {
    match input
    case Numeric(value) => value == n
    case Text(text) => IsCanonical(text) && Parse(text) == n
  }

  function NormalizeCpsNodeId(input: NodeIdInput): (r: Result<string, KeyError>)
    ensures r.Ok? <==> exists n: nat :: n <= MAX_CPS_NODE_ID && Denotes(input, n)
    ensures r.Ok? ==> IsCanonical(r.value) && Denotes(input, Parse(r.value)) && Parse(r.value) <= MAX_CPS_NODE_ID
    ensures r.Ok? && input.Text? ==> r.value == input.text
  {
    var normalized := match input case Numeric(value) => IntToString(value) case Text(text) => text;
    assert input.Numeric? && input.value >= 0 ==> IsCanonical(normalized) && Parse(normalized) == input.value by {
      if input.Numeric? && input.value >= 0 { ParseDecimal(input.value); }
    }
    if !IsCanonical(normalized) then Err(NotCanonical)
    else if Parse(normalized) > MAX_CPS_NODE_ID then Err(ExceedsUint64)
    else assert Denotes(input, Parse(normalized)); Ok(normalized)
  }

  /** Two inputs normalise to the same text exactly when they denote the same number. */
  lemma NormalizeInjective(a: NodeIdInput, b: NodeIdInput)
    requires NormalizeCpsNodeId(a).Ok? && NormalizeCpsNodeId(b).Ok?
    ensures NormalizeCpsNodeId(a) == NormalizeCpsNodeId(b) <==> exists n: nat :: Denotes(a, n) && Denotes(b, n)
  {
    var x, y := NormalizeCpsNodeId(a).value, NormalizeCpsNodeId(b).value;
    DecimalParse(x);
    DecimalParse(y);
  }

  predicate IsBase58(c: char) {
    '1' <= c <= '9' || ('A' <= c <= 'Z' && c != 'I' && c != 'O') || ('a' <= c <= 'z' && c != 'l')
  }

  predicate IsBase32(c: char) {
    'a' <= c <= 'z' || 'A' <= c <= 'Z' || '2' <= c <= '7'
  }

  predicate IsIpfsCid(s: string) {
    || (|s| == 46 && s[0] == 'Q' && s[1] == 'm' && forall i :: 2 <= i < |s| ==> IsBase58(s[i]))
    || (|s| >= 59 && (s[0] == 'b' || s[0] == 'B') && forall i :: 1 <= i < |s| ==> IsBase32(s[i]))
  }

  /** What a CPS node's payload refers to. */
  datatype PayloadRef = Ipfs(cid: string) | Chain(payload: Bytes)

  function CreateCpsAnchorSourceKey(nodeId: NodeIdInput, cid: string): Result<string, KeyError> {
    var node :- NormalizeCpsNodeId(nodeId);
    if !IsIpfsCid(cid) then Err(InvalidCid) else Ok("cps:" + node + ":" + cid)
  }

  function CreateCpsChainPayloadSourceKey(nodeId: NodeIdInput, payload: Bytes, sha256: Bytes -> Digest)
    : Result<string, KeyError>
  {
    if |payload| == 0 then Err(EmptyPayload)
    else if |payload| > MAX_CPS_CHAIN_PAYLOAD_BYTES then Err(PayloadTooLarge)
    else
      var node :- NormalizeCpsNodeId(nodeId);
      Ok("cps:" + node + ":chain:" + sha256(payload))
  }

  function SourceKey(nodeId: NodeIdInput, ref: PayloadRef, sha256: Bytes -> Digest): Result<string, KeyError> {
    match ref
    case Ipfs(cid) => CreateCpsAnchorSourceKey(nodeId, cid)
    case Chain(payload) => CreateCpsChainPayloadSourceKey(nodeId, payload, sha256)
  }

  /** A key is made for a node id in range, and a CID or a chain payload of an allowed length; the length of a payload
      is looked at before the node, a CID after it. */
  lemma SourceKeyAccepts(nodeId: NodeIdInput, ref: PayloadRef, sha256: Bytes -> Digest)
    ensures SourceKey(nodeId, ref, sha256).Ok? <==>
      && (exists n: nat :: n <= MAX_CPS_NODE_ID && Denotes(nodeId, n))
      && if ref.Ipfs? then IsIpfsCid(ref.cid) else 0 < |ref.payload| <= MAX_CPS_CHAIN_PAYLOAD_BYTES
    ensures ref.Chain? ==>
      && (SourceKey(nodeId, ref, sha256) == Err(EmptyPayload) <==> ref.payload == [])
      && (SourceKey(nodeId, ref, sha256) == Err(PayloadTooLarge) <==> |ref.payload| > MAX_CPS_CHAIN_PAYLOAD_BYTES)
    ensures ref.Ipfs? ==>
              (SourceKey(nodeId, ref, sha256) == Err(InvalidCid) <==>
                NormalizeCpsNodeId(nodeId).Ok? && !IsIpfsCid(ref.cid))
  {
  }

  function RecordKey(sourceKey: string, index: nat): string {
    sourceKey + ":" + Decimal(index)
  }

  lemma ColonInside(a: string, x: string, b: string, y: string)
    requires a + ":" + x == b + ":" + y && |a| < |b|
    ensures ':' in b && ':' in x
  {
    var s := a + ":" + x;
    assert s[|a|] == b[|a|];
    assert s[|b|] == x[|b| - |a| - 1];
  }

  /** A text is determined by what stands around a colon, when no colon comes before it or none after it. */
  lemma SplitAtColon(a: string, x: string, b: string, y: string)
    requires a + ":" + x == b + ":" + y
    requires (':' !in a && ':' !in b) || (':' !in x && ':' !in y)
    ensures a == b && x == y
  {
    if |a| < |b| {
      ColonInside(a, x, b, y);
    } else if |b| < |a| {
      ColonInside(b, y, a, x);
    } else {
      var s, t := a + ":" + x, b + ":" + y;
      assert a == s[..|a|] && x == s[|a| + 1..];
      assert b == t[..|a|] && y == t[|a| + 1..];
    }
  }

  /** Records of different sources, or of different envelopes of one source, never share a key. */
  lemma RecordKeyInjective(s: string, i: nat, t: string, j: nat)
    ensures RecordKey(s, i) == RecordKey(t, j) <==> s == t && i == j
  {
    ParseDecimal(i);
    ParseDecimal(j);
    if RecordKey(s, i) == RecordKey(t, j) {
      SplitAtColon(s, Decimal(i), t, Decimal(j));
    }
  }

  /** The part of a source key after the node id. */
  function RefText(ref: PayloadRef, sha256: Bytes -> Digest): string {
    match ref case Ipfs(cid) => cid case Chain(payload) => "chain:" + sha256(payload)
  }

  lemma Rejoined(a: string, x: string)
    ensures "cps:" + a + ":" + x == "cps" + ":" + (a + ":" + x)
  {
  }

  lemma SourceKeyParts(n: NodeIdInput, p: PayloadRef, sha256: Bytes -> Digest)
    requires SourceKey(n, p, sha256).Ok?
    ensures NormalizeCpsNodeId(n).Ok?
    ensures SourceKey(n, p, sha256).value == "cps" + ":" + (NormalizeCpsNodeId(n).value + ":" + RefText(p, sha256))
    ensures p.Ipfs? ==> IsIpfsCid(p.cid)
  {
    var a := NormalizeCpsNodeId(n).value;
    Rejoined(a, RefText(p, sha256));
    if p.Chain? { ChainTag(a, sha256(p.payload)); }
  }

  lemma ChainTag(a: string, d: string)
    ensures "cps:" + a + ":chain:" + d == "cps:" + a + ":" + ("chain:" + d)
  {
  }

  lemma RefTextInjective(p: PayloadRef, q: PayloadRef, sha256: Bytes -> Digest)
    requires RefText(p, sha256) == RefText(q, sha256)
    requires p.Ipfs? ==> IsIpfsCid(p.cid)
    requires q.Ipfs? ==> IsIpfsCid(q.cid)
    ensures SameContent(p, q, sha256)
  {
    var x, y := RefText(p, sha256), RefText(q, sha256);
    assert p.Chain? ==> x[5] == ':' && sha256(p.payload) == x[6..];
    assert q.Chain? ==> y[5] == ':' && sha256(q.payload) == y[6..];
  }

  ghost predicate SameContent(p: PayloadRef, q: PayloadRef, sha256: Bytes -> Digest) {
    (p.Ipfs? && q.Ipfs? && p.cid == q.cid) || (p.Chain? && q.Chain? && sha256(p.payload) == sha256(q.payload))
  }

  /** Two source keys agree exactly when the node is the same and the content address is the same. */
  lemma SourceKeyInjective(n: NodeIdInput, p: PayloadRef, m: NodeIdInput, q: PayloadRef, sha256: Bytes -> Digest)
    requires SourceKey(n, p, sha256).Ok? && SourceKey(m, q, sha256).Ok?
    ensures SourceKey(n, p, sha256) == SourceKey(m, q, sha256) <==>
      NormalizeCpsNodeId(n) == NormalizeCpsNodeId(m) && SameContent(p, q, sha256)
  {
    SourceKeyParts(n, p, sha256);
    SourceKeyParts(m, q, sha256);
    var a, b := NormalizeCpsNodeId(n).value, NormalizeCpsNodeId(m).value;
    var x, y := RefText(p, sha256), RefText(q, sha256);
    if SourceKey(n, p, sha256) == SourceKey(m, q, sha256) {
      SplitAtColon("cps", a + ":" + x, "cps", b + ":" + y);
      SplitAtColon(a, x, b, y);
      RefTextInjective(p, q, sha256);
    }
  }
}
