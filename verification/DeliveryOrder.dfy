/**
 * Ordered delivery ids: a fixed-layout UUIDv8 (section 5.8 of RFC 9562) whose
 * last forty bits are a capture ordinal.
 */
module DeliveryOrder {
  import opened Values

  const MAX_CAPTURE_ORDINAL: nat := 0xff_ffff_ffff
  const PRODUCER_LENGTH: nat := 26
  const ID_LENGTH: nat := 36

  // ---------------------------------------------------------------- hexadecimal

  predicate IsHex(c: char) {
    '0' <= c <= '9' || 'a' <= c <= 'f' || 'A' <= c <= 'F'
  }

  predicate IsLowerHex(c: char) {
    '0' <= c <= '9' || 'a' <= c <= 'f'
  }

  function HexValue(c: char): (v: nat)
    requires IsHex(c)
    ensures v < 16
  {
    if '0' <= c <= '9' then c as int - '0' as int
    else if 'a' <= c <= 'f' then c as int - 'a' as int + 10
    else c as int - 'A' as int + 10
  }

  function HexDigit(v: nat): (c: char)
    requires v < 16
    ensures IsLowerHex(c) && HexValue(c) == v
  {
    if v < 10 then (v + '0' as int) as char else (v - 10 + 'a' as int) as char
  }

  predicate LowerHex(s: string) {
    forall i | 0 <= i < |s| :: IsLowerHex(s[i])
  }

  /** `Number.parseInt(s, 16)` of a string of hexadecimal digits. */
  function ParseHex(s: string): nat
    requires forall i | 0 <= i < |s| :: IsHex(s[i])
  {
    if s == "" then 0 else ParseHex(s[..|s| - 1]) * 16 + HexValue(s[|s| - 1])
  }

  /** `n.toString(16)`. */
  function ToHex(n: nat): (s: string)
    ensures s != "" && LowerHex(s)
    ensures ParseHex(s) == n
  {
    if n < 16 then [HexDigit(n)] else ToHex(n / 16) + [HexDigit(n % 16)]
  }

  function Zeros(n: nat): string {
    seq(n, _ => '0')
  }

  function PadStart(s: string, width: nat): string {
    if |s| >= width then s else Zeros(width - |s|) + s
  }

  function Pow16(n: nat): nat {
    if n == 0 then 1 else 16 * Pow16(n - 1)
  }

  lemma {:induction false} ToHexLength(n: nat, width: nat)
    requires 0 < width && n < Pow16(width)
    ensures |ToHex(n)| <= width
  {
    if n >= 16 {
      ToHexLength(n / 16, width - 1);
    }
  }

  lemma {:induction false} ZeroPrefixKeepsValue(k: nat, s: string)
    requires forall i | 0 <= i < |s| :: IsHex(s[i])
    ensures ParseHex(Zeros(k) + s) == ParseHex(s)
    decreases k + |s|
  {
    var whole := Zeros(k) + s;
    if s != "" {
      assert whole[..|whole| - 1] == Zeros(k) + s[..|s| - 1];
      ZeroPrefixKeepsValue(k, s[..|s| - 1]);
    } else if k > 0 {
      assert whole[..|whole| - 1] == Zeros(k - 1) + s;
      ZeroPrefixKeepsValue(k - 1, s);
    }
  }

  // ---------------------------------------------------------------- layout

  predicate Fits(position: nat, c: char) {
    if position in {8, 13, 18, 23} then c == '-'
    else if position == 14 then c == '8'
    else if position == 19 then c in {'8', '9', 'a', 'b', 'A', 'B'}
    else if position == 24 then c in {'e', 'E'}
    else if position == 25 then c in {'d', 'D'}
    else IsHex(c)
  }

  predicate Ordered(id: string) {
    |id| == ID_LENGTH && forall i | 0 <= i < ID_LENGTH :: Fits(i, id[i])
  }

  /** The shape of a version 4 UUID as `randomUUID` prints it. */
  predicate IsRandomUuid(nonce: string) {
    && |nonce| == ID_LENGTH
    && forall i | 0 <= i < ID_LENGTH ::
         if i in {8, 13, 18, 23} then nonce[i] == '-'
         else if i == 14 then nonce[i] == '4'
         else if i == 19 then nonce[i] in {'8', '9', 'a', 'b'}
         else IsLowerHex(nonce[i])
  }

  /** RFC 9562 section 5.8: version nibble 8, variant bits 10. */
  predicate IsUuidV8(id: string) {
    && |id| == ID_LENGTH
    && (forall i | 0 <= i < ID_LENGTH :: if i in {8, 13, 18, 23} then id[i] == '-' else IsHex(id[i]))
    && HexValue(id[14]) == 8
    && 8 <= HexValue(id[19]) < 12
  }

  function ProducerOf(nonce: string): string
    requires IsRandomUuid(nonce)
  {
    nonce[..14] + "8" + nonce[15..24] + "ed"
  }

  function OrderedId(nonce: string, ordinal: nat): string
    requires IsRandomUuid(nonce)
  {
    ProducerOf(nonce) + PadStart(ToHex(ordinal), 10)
  }

  /** The opaque producer key; ids in any other layout have none. */
  function Producer(id: string): Option<string> {
    if Ordered(id) then Some(Lower(id[..PRODUCER_LENGTH])) else None
  }

  function Ordinal(id: string): nat
    requires Ordered(id)
  {
    ParseHex(OrdinalDigits(id))
  }

  function OrdinalDigits(id: string): (s: string)
    requires Ordered(id)
    ensures |s| == 10 && forall i | 0 <= i < |s| :: IsHex(s[i])
  {
    assert forall i | PRODUCER_LENGTH <= i < ID_LENGTH :: Fits(i, id[i]);
    id[PRODUCER_LENGTH..]
  }

  function Sign(n: int): int {
    if n < 0 then -1 else if n > 0 then 1 else 0
  }

  function Compare(left: string, right: string): Option<int> {
    if Producer(left).None? || Producer(right) != Producer(left) then None
    else Some(Sign(Ordinal(left) - Ordinal(right)))
  }

  predicate IsLater(candidate: string, predecessor: string) {
    Compare(candidate, predecessor) == Some(1)
  }

  // ---------------------------------------------------------------- generator

  /** One generator per extension instance: a fixed nonce and a counter that never wraps. */
  class IdGenerator {
    const nonce: string
    var ordinal: nat

    ghost predicate Valid()
      reads this
    {
      IsRandomUuid(nonce) && ordinal <= MAX_CAPTURE_ORDINAL + 1
    }

    constructor (nonce: string)
      requires IsRandomUuid(nonce)
      ensures Valid() && this.nonce == nonce && ordinal == 0
    {
      this.nonce := nonce;
      ordinal := 0;
    }

    /** `None` is the thrown exhaustion error. */
    method Next() returns (id: Option<string>)
      requires Valid()
      modifies this
      ensures Valid()
      ensures old(ordinal) > MAX_CAPTURE_ORDINAL ==> id == None && ordinal == old(ordinal)
      ensures old(ordinal) <= MAX_CAPTURE_ORDINAL ==>
                id == Some(OrderedId(nonce, old(ordinal))) && ordinal == old(ordinal) + 1
    {
      if ordinal > MAX_CAPTURE_ORDINAL {
        return None;
      }
      var suffix := ToHex(ordinal);
      var padded := PadStart(suffix, 10);
      id := Some(ProducerOf(nonce) + padded);
      ordinal := ordinal + 1;
    }
  }

  // ---------------------------------------------------------------- properties

  lemma PaddedDigits(ordinal: nat)
    requires ordinal <= MAX_CAPTURE_ORDINAL
    ensures var s := PadStart(ToHex(ordinal), 10); |s| == 10 && LowerHex(s) && ParseHex(s) == ordinal
  {
    assert Pow16(10) == MAX_CAPTURE_ORDINAL + 1;
    ToHexLength(ordinal, 10);
    ZeroPrefixKeepsValue(10 - |ToHex(ordinal)|, ToHex(ordinal));
  }

  lemma ProducerText(nonce: string)
    requires IsRandomUuid(nonce)
    ensures var p := ProducerOf(nonce);
            && |p| == PRODUCER_LENGTH
            && (forall i | 0 <= i < PRODUCER_LENGTH :: Fits(i, p[i]) && LowerChar(p[i]) == p[i])
            && p[14] == '8' && p[19] in {'8', '9', 'a', 'b'}
  {
    var p := ProducerOf(nonce);
    assert forall i | 0 <= i < PRODUCER_LENGTH ::
      p[i] == if i == 14 then '8' else if i == 24 then 'e' else if i == 25 then 'd' else nonce[i];
  }

  /** Every id of a generator is a UUIDv8 and parses back to its producer and ordinal. */
  lemma OrderedIdParses(nonce: string, ordinal: nat)
    requires IsRandomUuid(nonce) && ordinal <= MAX_CAPTURE_ORDINAL
    ensures var id := OrderedId(nonce, ordinal);
            && IsUuidV8(id) && Ordered(id)
            && Producer(id) == Some(ProducerOf(nonce))
            && Ordinal(id) == ordinal
  {
    var id, producer, padded := OrderedId(nonce, ordinal), ProducerOf(nonce), PadStart(ToHex(ordinal), 10);
    PaddedDigits(ordinal);
    ProducerText(nonce);
    assert id == producer + padded && |id| == ID_LENGTH;
    forall i | 0 <= i < ID_LENGTH
      ensures Fits(i, id[i])
    {
      assert id[i] == if i < PRODUCER_LENGTH then producer[i] else padded[i - PRODUCER_LENGTH];
    }
    assert id[14] == '8' && id[19] == producer[19];
    assert id[..PRODUCER_LENGTH] == producer && id[PRODUCER_LENGTH..] == padded;
    assert Lower(producer) == producer;
  }

  /** Lexicographic order by character code. */
  ghost predicate LexBefore(a: string, b: string) {
    exists k: nat :: FirstDifference(a, b, k) && (k == |a| || a[k] < b[k])
  }

  ghost predicate FirstDifference(a: string, b: string, k: nat) {
    k <= |a| && k < |b| && a[..k] == b[..k]
  }

  lemma {:induction false} EqualHexIsEqualText(a: string, b: string)
    requires |a| == |b|
    requires LowerHex(a) && LowerHex(b)
    requires ParseHex(a) == ParseHex(b)
    ensures a == b
  {
    if a != "" {
      var n := |a| - 1;
      var x, y := HexValue(a[n]), HexValue(b[n]);
      assert ParseHex(a) == ParseHex(a[..n]) * 16 + x && ParseHex(b) == ParseHex(b[..n]) * 16 + y;
      EqualHexIsEqualText(a[..n], b[..n]);
      assert a == a[..n] + [a[n]] && b == b[..n] + [b[n]];
    }
  }

  lemma {:induction false} HexOrderIsNumericOrder(a: string, b: string)
    requires |a| == |b|
    requires LowerHex(a) && LowerHex(b)
    requires ParseHex(a) < ParseHex(b)
    ensures exists k :: 0 <= k < |a| && FirstDifference(a, b, k) && a[k] < b[k]
  {
    if a != "" {
      var n := |a| - 1;
      if ParseHex(a[..n]) < ParseHex(b[..n]) {
        HexOrderIsNumericOrder(a[..n], b[..n]);
        var k :| 0 <= k < n && FirstDifference(a[..n], b[..n], k) && a[..n][k] < b[..n][k];
        assert a[..n][..k] == a[..k] && b[..n][..k] == b[..k];
        assert FirstDifference(a, b, k);
      } else {
        EqualHexIsEqualText(a[..n], b[..n]);
        assert FirstDifference(a, b, n);
      }
    }
  }

  lemma CommonPrefix(prefix: string, x: string, y: string)
    requires |x| == |y| && exists k | 0 <= k < |x| :: FirstDifference(x, y, k) && x[k] < y[k]
    ensures LexBefore(prefix + x, prefix + y)
  {
    var k :| 0 <= k < |x| && FirstDifference(x, y, k) && x[k] < y[k];
    var a, b, at := prefix + x, prefix + y, |prefix| + k;
    assert a[..at] == prefix + x[..k] && b[..at] == prefix + y[..k];
    assert FirstDifference(a, b, at) && a[at] < b[at];
  }

  lemma TextOrder(nonce: string, i: nat, j: nat)
    requires IsRandomUuid(nonce) && i < j <= MAX_CAPTURE_ORDINAL
    ensures LexBefore(OrderedId(nonce, i), OrderedId(nonce, j))
  {
    var producer := ProducerOf(nonce);
    var x, y := PadStart(ToHex(i), 10), PadStart(ToHex(j), 10);
    PaddedDigits(i);
    PaddedDigits(j);
    HexOrderIsNumericOrder(x, y);
    CommonPrefix(producer, x, y);
  }

  /**
   * For any two ids of one generator, over the whole range of ordinals, the
   * comparison is the sign of the ordinal difference and the text order agrees.
   */
  lemma GeneratorOrder(nonce: string, i: nat, j: nat)
    requires IsRandomUuid(nonce) && i <= MAX_CAPTURE_ORDINAL && j <= MAX_CAPTURE_ORDINAL
    ensures Compare(OrderedId(nonce, i), OrderedId(nonce, j)) == Some(Sign(i - j))
    ensures i < j ==> LexBefore(OrderedId(nonce, i), OrderedId(nonce, j))
    ensures IsLater(OrderedId(nonce, j), OrderedId(nonce, i)) <==> i < j
    ensures OrderedId(nonce, i) == OrderedId(nonce, j) <==> i == j
  {
    OrderedIdParses(nonce, i);
    OrderedIdParses(nonce, j);
    if i < j {
      TextOrder(nonce, i, j);
    }
  }

  /** Ids of different producers are never ordered against each other. */
  lemma ForeignProducersAreUnordered(a: string, b: string)
    ensures Compare(a, b).None? <==> Producer(a).None? || Producer(b).None? || Producer(a) != Producer(b)
    ensures Compare(a, b).Some? ==> Compare(b, a) == Some(-Compare(a, b).value)
  {
  }
}
