/**
 * Log sequence numbers "X/Y": two hexadecimal halves, high and low 32 bits of a 64-bit
 * position (package lsn). The unsigned arithmetic of the source is written out: shifts
 * wrap at 64 bits and `|` works bit by bit.
 */
module Lsn {
  import opened Base

  const TWO32 := 0x1_0000_0000
  const TWO64 := 0x1_0000_0000_0000_0000

  // ---- hexadecimal digits

  function Digit(c: char): Option<nat> {
    if '0' <= c <= '9' then Some((c - '0') as nat)
    else if 'a' <= c <= 'f' then Some((c - 'a') as nat + 10)
    else if 'A' <= c <= 'F' then Some((c - 'A') as nat + 10)
    else None
  }

  /** The digits, and no others. */
  lemma DigitsExactly(c: char)
    ensures Digit(c).Some? <==> c in "0123456789abcdefABCDEF"
    ensures Digit(c).Some? ==> Digit(c).value < 16
  {
    if Digit(c).Some? {
      DigitIsListed(c);
    }
    if c in "0123456789abcdefABCDEF" {
      var k: nat :| k < 22 && "0123456789abcdefABCDEF"[k] == c;
      ListedDigits(k);
    }
  }

  lemma DigitIsListed(c: char)
    requires Digit(c).Some?
    ensures c in "0123456789abcdefABCDEF"
  {
    var all := "0123456789abcdefABCDEF";
    var k := if '0' <= c <= '9' then (c - '0') as nat
             else if 'a' <= c <= 'f' then 10 + (c - 'a') as nat else 16 + (c - 'A') as nat;
    assert all[k] == c;
  }

  /** The values of the 22 digits, in full. */
  lemma ListedDigits(k: nat)
    requires k < 22
    ensures Digit("0123456789abcdefABCDEF"[k]) == Some(if k < 16 then k else k - 6)
  {
  }

  predicate AllHex(s: string) { forall i :: 0 <= i < |s| ==> Digit(s[i]).Some? }

  /** The number a string of hexadecimal digits stands for. */
  function HexValue(s: string): nat
    requires AllHex(s)
  {
    if s == "" then 0 else 16 * HexValue(s[..|s| - 1]) + Digit(s[|s| - 1]).value
  }

  /** One left-to-right scan of strconv.ParseUint(s, 16, 32): gives up at a bad digit or past 32 bits. */
  function Scan(s: string, acc: nat): Option<nat> {
    if s == "" then Some(acc)
    else if Digit(s[0]).None? then None
    else if 16 * acc + Digit(s[0]).value >= TWO32 then None
    else Scan(s[1..], 16 * acc + Digit(s[0]).value)
  }

  function ParseUint32(s: string): Option<nat> {
    if s == "" then None else Scan(s, 0)
  }

  lemma {:induction false} HexValueGrows(p: string, s: string)
    requires AllHex(p + s)
    ensures AllHex(p) && HexValue(p) <= HexValue(p + s)
  {
    assert forall i :: 0 <= i < |p| ==> p[i] == (p + s)[i];
    if s == "" {
      assert p + s == p;
    } else {
      var q := p + s[..|s| - 1];
      assert (p + s)[..|p + s| - 1] == q;
      HexValueGrows(p, s[..|s| - 1]);
    }
  }

  lemma {:induction false} ScanExactly(p: string, s: string)
    requires AllHex(p) && HexValue(p) < TWO32
    ensures Scan(s, HexValue(p)).Some? <==> AllHex(p + s) && HexValue(p + s) < TWO32
    ensures Scan(s, HexValue(p)).Some? ==> Scan(s, HexValue(p)).value == HexValue(p + s)
    decreases s
  {
    if s == "" {
      assert p + s == p;
    } else {
      var q := p + [s[0]];
      assert q + s[1..] == p + s;
      assert q[..|q| - 1] == p;
      if Digit(s[0]).None? {
        assert (p + s)[|p|] == s[0];
      } else {
        assert HexValue(q) == 16 * HexValue(p) + Digit(s[0]).value;
        if HexValue(q) < TWO32 {
          ScanExactly(q, s[1..]);
        } else if AllHex(p + s) {
          HexValueGrows(q, s[1..]);
        }
      }
    }
  }

  /** ParseUint(s, 16, 32) accepts exactly the non-empty hexadecimal strings below 2^32, with their value. */
  lemma ParseUint32Exactly(s: string)
    ensures ParseUint32(s).Some? <==> s != "" && AllHex(s) && HexValue(s) < TWO32
    ensures ParseUint32(s).Some? ==> ParseUint32(s).value == HexValue(s)
  {
    ScanExactly("", s);
    assert "" + s == s;
  }

  // ---- 64-bit words

  function Pow2(k: nat): (p: nat)
    ensures p >= 1
  {
    if k == 0 then 1 else 2 * Pow2(k - 1)
  }

  /** Shift left in a 64-bit word: bits beyond the word are lost. */
  function Shl64(x: nat, k: nat): nat { (x * Pow2(k)) % TWO64 }

  /** Bitwise or, bit by bit. */
  function BitOr(a: nat, b: nat): nat
    decreases a + b
  {
    if a == 0 && b == 0 then 0
    else 2 * BitOr(a / 2, b / 2) + (if a % 2 == 1 || b % 2 == 1 then 1 else 0)
  }

  lemma {:induction false} BitOrZero(a: nat)
    ensures BitOr(a, 0) == a
  {
    if a != 0 { BitOrZero(a / 2); }
  }

  /** Oring a number into vacant low bits adds it. */
  lemma {:induction false} OrOfDisjointIsSum(h: nat, l: nat, k: nat)
    requires l < Pow2(k)
    ensures BitOr(h * Pow2(k), l) == h * Pow2(k) + l
  {
    if k == 0 {
      BitOrZero(h);
    } else {
      var a := h * Pow2(k);
      var half := h * Pow2(k - 1);
      assert a == 2 * half by {
        assert Pow2(k) == 2 * Pow2(k - 1);
        assert h * (2 * Pow2(k - 1)) == 2 * (h * Pow2(k - 1));
      }
      OrOfDisjointIsSum(h, l / 2, k - 1);
      if a == 0 && l == 0 {
      } else {
        assert a / 2 == half && a % 2 == 0;
        assert BitOr(a, l) == 2 * BitOr(half, l / 2) + l % 2;
      }
    }
  }

  lemma Pow32()
    ensures Pow2(32) == TWO32
  {
    assert Pow2(8) == 256;
    assert Pow2(16) == 256 * Pow2(8) by { assert Pow2(12) == 16 * Pow2(8); assert Pow2(16) == 16 * Pow2(12); }
    assert Pow2(24) == 256 * Pow2(16) by { assert Pow2(20) == 16 * Pow2(16); assert Pow2(24) == 16 * Pow2(20); }
    assert Pow2(32) == 256 * Pow2(24) by { assert Pow2(28) == 16 * Pow2(24); assert Pow2(32) == 16 * Pow2(28); }
  }

  function Glue(h: nat, l: nat): nat { BitOr(Shl64(h, 32), l) }

  /** The source's `(h << 32) | l` glues two 32-bit halves together. */
  lemma ShiftOrGlues(h: nat, l: nat)
    requires h < TWO32 && l < TWO32
    ensures Glue(h, l) == h * TWO32 + l < TWO64
  {
    Pow32();
    assert h * TWO32 <= (TWO32 - 1) * TWO32 < TWO64;
    OrOfDisjointIsSum(h, l, 32);
  }

  // ---- Parse and AtLeast

  function Slash(s: string): (i: nat)
    ensures i <= |s|
    ensures i < |s| ==> s[i] == '/'
    ensures '/' !in s[..i]
  {
    if s == "" || s[0] == '/' then 0
    else
      var i := 1 + Slash(s[1..]);
      assert s[..i] == [s[0]] + s[1..][..i - 1];
      i
  }

  function Parse(s: string): Option<nat> {
    var i := Slash(s);
    if i == |s| then None
    else
      var (hi, lo) := (s[..i], s[i + 1..]);
      if hi == "" || lo == "" then None
      else
        match (ParseUint32(hi), ParseUint32(lo))
        case (Some(h), Some(l)) => Some(Glue(h, l))
        case _ => None
  }

  /** A well-formed half: what may stand on either side of the slash. */
  predicate IsHalf(s: string) { s != "" && AllHex(s) && HexValue(s) < TWO32 }

  lemma SlashSplits(hi: string, lo: string)
    requires '/' !in hi
    ensures Slash(hi + "/" + lo) == |hi|
  {
    var s := hi + "/" + lo;
    var i := Slash(s);
    assert s[|hi|] == '/';
    assert forall k :: 0 <= k < |hi| ==> s[k] == hi[k];
    assert forall k :: 0 <= k < i ==> s[k] in s[..i];
  }

  /** The position of two halves. */
  function Halved(hi: string, lo: string): Option<nat> {
    match (ParseUint32(hi), ParseUint32(lo))
    case (Some(h), Some(l)) => Some(Glue(h, l))
    case _ => None
  }

  /** What Parse does with two strings around the first slash. */
  lemma ParseSplits(hi: string, lo: string)
    requires '/' !in hi
    ensures Parse(hi + "/" + lo) == Halved(hi, lo)
  {
    var s := hi + "/" + lo;
    SlashSplits(hi, lo);
    assert s[..|hi|] == hi && s[|hi| + 1..] == lo;
  }

  lemma HalvedExactly(hi: string, lo: string)
    ensures Halved(hi, lo).Some? <==> IsHalf(hi) && IsHalf(lo)
    ensures IsHalf(hi) && IsHalf(lo) ==> Halved(hi, lo) == Some(Glue(HexValue(hi), HexValue(lo)))
  {
    ParseUint32Exactly(hi);
    ParseUint32Exactly(lo);
  }

  /** Parsing succeeds exactly on two halves around a slash. */
  lemma ParseAccepts(hi: string, lo: string)
    requires '/' !in hi
    ensures Parse(hi + "/" + lo).Some? <==> IsHalf(hi) && IsHalf(lo)
  {
    ParseSplits(hi, lo);
    HalvedExactly(hi, lo);
  }

  /** And yields high * 2^32 + low. */
  lemma ParseValue(hi: string, lo: string)
    requires '/' !in hi && IsHalf(hi) && IsHalf(lo)
    ensures Parse(hi + "/" + lo) == Some(HexValue(hi) * TWO32 + HexValue(lo))
    ensures HexValue(hi) * TWO32 + HexValue(lo) < TWO64
  {
    ParseSplits(hi, lo);
    HalvedExactly(hi, lo);
    ShiftOrGlues(HexValue(hi), HexValue(lo));
  }

  /** Every accepted string has that shape, so the previous lemma covers all inputs. */
  lemma ParseExactly(s: string)
    ensures Parse(s).Some? <==>
      exists i | 0 <= i < |s| :: s[i] == '/' && IsHalf(s[..i]) && IsHalf(s[i + 1..])
    ensures Parse(s).Some? ==> Parse(s).value < TWO64
  {
    if Parse(s).Some? {
      AcceptedHasHalves(s);
    }
    if i: nat :| i < |s| && s[i] == '/' && IsHalf(s[..i]) && IsHalf(s[i + 1..]) {
      HalvesAreAccepted(s, i);
    }
  }

  lemma AcceptedHasHalves(s: string)
    requires Parse(s).Some?
    ensures exists i | 0 <= i < |s| :: s[i] == '/' && IsHalf(s[..i]) && IsHalf(s[i + 1..])
    ensures Parse(s).value < TWO64
  {
    var i := Slash(s);
    var (hi, lo) := (s[..i], s[i + 1..]);
    assert s == hi + "/" + lo;
    ParseAccepts(hi, lo);
    ParseValue(hi, lo);
  }

  lemma HalvesAreAccepted(s: string, i: nat)
    requires i < |s| && s[i] == '/' && IsHalf(s[..i]) && IsHalf(s[i + 1..])
    ensures Parse(s).Some?
  {
    assert s == s[..i] + "/" + s[i + 1..];
    assert '/' !in s[..i] by {
      assert Digit('/').None?;
    }
    ParseAccepts(s[..i], s[i + 1..]);
  }

  /** Only hexadecimal digits in either case, and one slash, are ever accepted. */
  lemma OnlyHexIsAccepted(s: string)
    requires Parse(s).Some?
    ensures exists i: nat | i < |s| :: OneSlashAt(s, i)
  {
    AcceptedHasHalves(s);
    var i: nat :| i < |s| && s[i] == '/' && IsHalf(s[..i]) && IsHalf(s[i + 1..]);
    HalfIsHex(s[..i]);
    HalfIsHex(s[i + 1..]);
    forall k | 0 <= k < |s| && k != i ensures s[k] in "0123456789abcdefABCDEF" {
      if k < i {
        assert s[k] == s[..i][k];
      } else {
        assert s[k] == s[i + 1..][k - i - 1];
      }
    }
    assert OneSlashAt(s, i);
  }

  ghost predicate OneSlashAt(s: string, i: nat)
    requires i < |s|
  {
    0 < i < |s| - 1 && s[i] == '/' && forall k | 0 <= k < |s| && k != i :: s[k] in "0123456789abcdefABCDEF"
  }

  lemma HalfIsHex(s: string)
    requires IsHalf(s)
    ensures forall k | 0 <= k < |s| :: s[k] in "0123456789abcdefABCDEF"
  {
    forall k | 0 <= k < |s| ensures s[k] in "0123456789abcdefABCDEF" { DigitsExactly(s[k]); }
  }

  /** Every two halves of one to eight hexadecimal digits are accepted: that is all of 32 bits. */
  lemma EightDigitsAreAccepted(hi: string, lo: string)
    requires 0 < |hi| <= 8 && forall k | 0 <= k < |hi| :: hi[k] in "0123456789abcdefABCDEF"
    requires 0 < |lo| <= 8 && forall k | 0 <= k < |lo| :: lo[k] in "0123456789abcdefABCDEF"
    ensures Parse(hi + "/" + lo).Some?
  {
    ShortIsHalf(hi);
    ShortIsHalf(lo);
    forall k | 0 <= k < |hi| ensures hi[k] != '/' { assert hi[k] in "0123456789abcdefABCDEF"; }
    ParseAccepts(hi, lo);
  }

  lemma ShortIsHalf(s: string)
    requires 0 < |s| <= 8 && forall k | 0 <= k < |s| :: s[k] in "0123456789abcdefABCDEF"
    ensures IsHalf(s)
  {
    forall k | 0 <= k < |s| ensures Digit(s[k]).Some? { DigitsExactly(s[k]); }
    HexValueBelow(s);
    assert Power16(8) == TWO32 by { Power16Of8(); }
    Power16Grows(|s|, 8);
  }

  function Power16(n: nat): nat { if n == 0 then 1 else 16 * Power16(n - 1) }

  lemma Power16Of8()
    ensures Power16(8) == TWO32
  {
    assert Power16(4) == 0x1_0000;
    assert Power16(8) == 0x1_0000 * Power16(4);
  }

  lemma {:induction false} Power16Grows(m: nat, n: nat)
    requires m <= n
    ensures Power16(m) <= Power16(n)
    decreases n
  {
    if m < n {
      Power16Grows(m, n - 1);
    }
  }

  lemma {:induction false} HexValueBelow(s: string)
    requires AllHex(s)
    ensures HexValue(s) < Power16(|s|)
  {
    if s != "" {
      HexValueBelow(s[..|s| - 1]);
      DigitsExactly(s[|s| - 1]);
    }
  }

  // ---- upper and lower case

  /** The same digit, in whatever case. */
  predicate SameDigit(c: char, d: char) {
    c == d || exists k: nat | k < 6 :: {c, d} == {"abcdef"[k], "ABCDEF"[k]}
  }

  predicate SameButCase(s: string, t: string) { |s| == |t| && forall k | 0 <= k < |s| :: SameDigit(s[k], t[k]) }

  lemma SameDigitSameValue(c: char, d: char)
    requires SameDigit(c, d)
    ensures Digit(c) == Digit(d) && (c == '/' <==> d == '/')
  {
    if c != d {
      var k: nat :| k < 6 && {c, d} == {"abcdef"[k], "ABCDEF"[k]};
      LettersAlike(k);
      assert c in {"abcdef"[k], "ABCDEF"[k]} && d in {"abcdef"[k], "ABCDEF"[k]};
    }
  }

  lemma LettersAlike(k: nat)
    requires k < 6
    ensures Digit("abcdef"[k]) == Digit("ABCDEF"[k]) == Some(10 + k) && "abcdef"[k] != '/' && "ABCDEF"[k] != '/'
  {
  }

  lemma {:induction false} CaseKeepsScan(s: string, t: string, acc: nat)
    requires SameButCase(s, t)
    ensures Scan(s, acc) == Scan(t, acc)
    decreases |s|
  {
    if s != "" {
      SameDigitSameValue(s[0], t[0]);
      if Digit(s[0]).Some? {
        CaseKeepsScan(s[1..], t[1..], 16 * acc + Digit(s[0]).value);
      }
    }
  }

  lemma {:induction false} CaseKeepsSlash(s: string, t: string)
    requires SameButCase(s, t)
    ensures Slash(s) == Slash(t)
    decreases |s|
  {
    if s != "" {
      SameDigitSameValue(s[0], t[0]);
      CaseKeepsSlash(s[1..], t[1..]);
    }
  }

  /** Lower and upper case parse to the same position. */
  lemma CaseDoesNotMatter(s: string, t: string)
    requires SameButCase(s, t)
    ensures Parse(s) == Parse(t)
  {
    CaseKeepsSlash(s, t);
    var i := Slash(s);
    CaseKeepsScan(s[..i], t[..i], 0);
    if i < |s| {
      CaseKeepsScan(s[i + 1..], t[i + 1..], 0);
    }
  }

  /** AtLeast(a, b): a >= b, or an error when either does not parse. */
  function AtLeast(a: string, b: string): Result<bool> {
    match (Parse(a), Parse(b))
    case (Some(x), Some(y)) => Ok(x >= y)
    case _ => Err(Malformed)
  }

  lemma HalvesOrder(xh: nat, xl: nat, yh: nat, yl: nat)
    requires xl < TWO32 && yl < TWO32
    ensures xh * TWO32 + xl >= yh * TWO32 + yl <==> xh > yh || (xh == yh && xl >= yl)
  {
  }

  /** The two halves of a position, high half first. */
  ghost predicate IsPosition(s: string, h: nat, l: nat) {
    exists hi, lo :: Halves(s, hi, lo) && h == HexValue(hi) && l == HexValue(lo)
  }

  ghost predicate Halves(s: string, hi: string, lo: string) {
    '/' !in hi && IsHalf(hi) && IsHalf(lo) && s == hi + "/" + lo
  }

  lemma ParsePosition(s: string, h: nat, l: nat)
    requires IsPosition(s, h, l)
    ensures Parse(s) == Some(h * TWO32 + l) && l < TWO32
  {
    var hi, lo :| Halves(s, hi, lo) && h == HexValue(hi) && l == HexValue(lo);
    ParseHalves(s, hi, lo);
  }

  lemma ParseHalves(s: string, hi: string, lo: string)
    requires Halves(s, hi, lo)
    ensures Parse(s) == Some(HexValue(hi) * TWO32 + HexValue(lo)) && HexValue(lo) < TWO32
  {
    ParseValue(hi, lo);
  }

  /** On well-formed positions AtLeast is the lexicographic order of the two halves. */
  lemma AtLeastIsLexicographic(a: string, ah: nat, al: nat, b: string, bh: nat, bl: nat)
    requires IsPosition(a, ah, al) && IsPosition(b, bh, bl)
    ensures AtLeast(a, b) == Ok(ah > bh || (ah == bh && al >= bl))
  {
    ParsePosition(a, ah, al);
    ParsePosition(b, bh, bl);
    HalvesOrder(ah, al, bh, bl);
  }

  // ---- the canonical form

  function HexDigit(d: nat): (c: char)
    requires d < 16
    ensures Digit(c) == Some(d)
  {
    if d < 10 then '0' + d as char else 'A' + (d - 10) as char
  }

  /** Upper-case hexadecimal without leading zeros, "0" for zero. */
  function Hex(n: nat): string {
    if n < 16 then [HexDigit(n)] else Hex(n / 16) + [HexDigit(n % 16)]
  }

  function Format(v: nat): string { Hex(v / TWO32) + "/" + Hex(v % TWO32) }

  lemma {:induction false} HexRoundTrip(n: nat)
    ensures Hex(n) != "" && AllHex(Hex(n)) && HexValue(Hex(n)) == n && '/' !in Hex(n)
  {
    if n < 16 {
      assert Hex(n)[..0] == "";
    } else {
      HexRoundTrip(n / 16);
      var h := Hex(n);
      assert h[..|h| - 1] == Hex(n / 16);
      assert h[|h| - 1] == HexDigit(n % 16);
      assert forall i :: 0 <= i < |h| - 1 ==> h[i] == Hex(n / 16)[i];
    }
    assert Digit('/').None?;
  }

  /** Parsing the canonical form of any 64-bit position gives the position back. */
  lemma FormatRoundTrip(v: nat)
    requires v < TWO64
    ensures Parse(Format(v)) == Some(v)
  {
    HexRoundTrip(v / TWO32);
    HexRoundTrip(v % TWO32);
    assert v / TWO32 < TWO32;
    ParseValue(Hex(v / TWO32), Hex(v % TWO32));
  }
}
