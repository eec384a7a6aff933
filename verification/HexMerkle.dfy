/**
 * The SDK's local verification works on hex strings: it lower-cases both sides and
 * compares them as JavaScript strings. This module proves that it always reaches the
 * verdict of the on-chain fold over 32-byte words.
 */
module HexMerkle {
  import opened ByteStrings
  import opened Merkle

  predicate IsHexDigit(c: char) {
    '0' <= c <= '9' || 'a' <= c <= 'f' || 'A' <= c <= 'F'
  }

  type HexDigits = s: string | forall i :: 0 <= i < |s| ==> IsHexDigit(s[i])

  /** A viem `Hex` holding 32 bytes: "0x" and 64 digits of either case. */
  predicate IsHexWord(s: string) {
    |s| == 66 && s[0] == '0' && s[1] == 'x' && forall i :: 2 <= i < 66 ==> IsHexDigit(s[i])
  }

  function DigitValue(c: char): (v: int)
    requires IsHexDigit(c)
    ensures 0 <= v < 16
  {
    if c <= '9' then c as int - '0' as int
    else if c <= 'F' then c as int - 'A' as int + 10
    else c as int - 'a' as int + 10
  }

  function DigitChar(v: int): (c: char)
    requires 0 <= v < 16
    ensures IsHexDigit(c) && DigitValue(c) == v
  {
    if v < 10 then ('0' as int + v) as char else ('a' as int + v - 10) as char
  }

  function LowerChar(c: char): char {
    if 'A' <= c <= 'Z' then (c as int + 32) as char else c
  }

  function ToLowerCase(s: string): (t: string)
    ensures |t| == |s|
  {
    if |s| == 0 then "" else [LowerChar(s[0])] + ToLowerCase(s[1..])
  }

  /** JavaScript's `a <= b` on strings. */
  predicate StringLeq(a: string, b: string) {
    |a| == 0 || (|b| > 0 && (a[0] < b[0] || (a[0] == b[0] && StringLeq(a[1..], b[1..]))))
  }

  function Decode(s: HexDigits): (b: Bytes)
    requires |s| % 2 == 0
    ensures |b| == |s| / 2
  {
    if |s| == 0 then [] else [16 * DigitValue(s[0]) + DigitValue(s[1])] + Decode(s[2..])
  }

  function Encode(b: Bytes): (s: HexDigits)
    ensures |s| == 2 * |b|
  {
    if |b| == 0 then "" else [DigitChar(b[0] / 16), DigitChar(b[0] % 16)] + Encode(b[1..])
  }

  lemma {:induction false} DecodeEncode(b: Bytes)
    ensures Decode(Encode(b)) == b
  {
    if |b| > 0 {
      DecodeEncode(b[1..]);
      assert Encode(b)[2..] == Encode(b[1..]);
      assert b == [b[0]] + b[1..];
    }
  }

  function Word(s: string): Bytes32
    requires IsHexWord(s)
  {
    Decode(s[2..])
  }

  function WordHex(w: Bytes32): (s: string)
    ensures IsHexWord(s)
  {
    "0x" + Encode(w)
  }

  lemma WordOfWordHex(w: Bytes32)
    ensures Word(WordHex(w)) == w
  {
    assert WordHex(w)[2..] == Encode(w);
    DecodeEncode(w);
  }

  lemma DigitOrder(c: char, d: char)
    requires IsHexDigit(c) && IsHexDigit(d)
    ensures LowerChar(c) < LowerChar(d) <==> DigitValue(c) < DigitValue(d)
    ensures LowerChar(c) == LowerChar(d) <==> DigitValue(c) == DigitValue(d)
  {
  }

  /** Lower-cased hex strings compare as the bytes they spell. */
  lemma {:induction false} HexOrderIsByteOrder(a: HexDigits, b: HexDigits)
    requires |a| == |b| && |a| % 2 == 0
    ensures StringLeq(ToLowerCase(a), ToLowerCase(b)) <==> LexLeq(Decode(a), Decode(b))
    ensures ToLowerCase(a) == ToLowerCase(b) <==> Decode(a) == Decode(b)
  {
    if |a| > 0 {
      DigitOrder(a[0], b[0]);
      DigitOrder(a[1], b[1]);
      HexOrderIsByteOrder(a[2..], b[2..]);
      LowerTwo(a);
      LowerTwo(b);
      TwoChars(ToLowerCase(a), ToLowerCase(b));
      assert Decode(a)[1..] == Decode(a[2..]) && Decode(b)[1..] == Decode(b[2..]);
      assert Decode(a) == [Decode(a)[0]] + Decode(a[2..]);
      assert Decode(b) == [Decode(b)[0]] + Decode(b[2..]);
    }
  }

  lemma LowerTwo(s: string)
    requires |s| >= 2
    ensures ToLowerCase(s) == [LowerChar(s[0]), LowerChar(s[1])] + ToLowerCase(s[2..])
  {
    assert s[1..][1..] == s[2..];
  }

  lemma TwoChars(a: string, b: string)
    requires |a| == |b| >= 2
    ensures StringLeq(a, b) <==>
            a[0] < b[0] || (a[0] == b[0] && (a[1] < b[1] || (a[1] == b[1] && StringLeq(a[2..], b[2..]))))
    ensures a == b <==> a[0] == b[0] && a[1] == b[1] && a[2..] == b[2..]
  {
    assert a[1..][1..] == a[2..] && b[1..][1..] == b[2..];
    assert a == [a[0], a[1]] + a[2..] && b == [b[0], b[1]] + b[2..];
  }

  /** The "0x" prefix changes neither comparison. */
  lemma HexWordOrder(s: string, t: string)
    requires IsHexWord(s) && IsHexWord(t)
    ensures StringLeq(ToLowerCase(s), ToLowerCase(t)) <==> BigEndian(Word(s)) <= BigEndian(Word(t))
    ensures ToLowerCase(s) == ToLowerCase(t) <==> Word(s) == Word(t)
  {
    LowerTwo(s);
    LowerTwo(t);
    TwoChars(ToLowerCase(s), ToLowerCase(t));
    HexOrderIsByteOrder(s[2..], t[2..]);
    LexIsNumeric(Word(s), Word(t));
  }

  function Words(ss: seq<string>): (ws: seq<Bytes32>)
    requires forall i :: 0 <= i < |ss| ==> IsHexWord(ss[i])
    ensures |ws| == |ss|
  {
    seq(|ss|, i requires 0 <= i < |ss| => Word(ss[i]))
  }

  /** One iteration on hex strings. */
  function HexStep(h: Hash, computed: string, p: string): string
    requires IsHexWord(computed) && IsHexWord(p)
  {
    WordHex(if StringLeq(ToLowerCase(computed), ToLowerCase(p))
            then h(Word(computed) + Word(p))
            else h(Word(p) + Word(computed)))
  }

  lemma HexStepIsFoldStep(h: Hash, computed: string, p: string)
    requires IsHexWord(computed) && IsHexWord(p)
    ensures IsHexWord(HexStep(h, computed, p))
    ensures Word(HexStep(h, computed, p)) == FoldStep(h, Word(computed), Word(p))
  {
    HexWordOrder(computed, p);
    WordOfWordHex(FoldStep(h, Word(computed), Word(p)));
  }

  /** verifyLocally's loop over hex strings gives the verdict of the on-chain fold. */
  method VerifyLocally(h: Hash, root: string, leaf: string, proof: seq<string>) returns (ok: bool)
    requires IsHexWord(root) && IsHexWord(leaf)
    requires forall i :: 0 <= i < |proof| ==> IsHexWord(proof[i])
    ensures ok <==> Fold(h, Word(leaf), Words(proof)) == Word(root)
  {
    var computed := leaf;
    ghost var words := Words(proof);
    for i := 0 to |proof|
      invariant IsHexWord(computed)
      invariant Word(computed) == Fold(h, Word(leaf), words[..i])
    {
      HexStepIsFoldStep(h, computed, proof[i]);
      FoldExtend(h, Word(leaf), words, i);
      computed := HexStep(h, computed, proof[i]);
    }
    assert words[..|proof|] == words;
    HexWordOrder(computed, root);
    ok := ToLowerCase(computed) == ToLowerCase(root);
  }
}
