/**
 * The two pieces of JavaScript text handling the core relies on: printing an
 * integer in a template literal (`${n}`) and reading it back with
 * `parseInt(s)`, plus the concatenation of text pieces that a `+=` loop
 * performs.
 */
module Text {
  import opened Wrappers

  predicate IsDigit(c: char) {
    '0' <= c <= '9'
  }

  predicate AllDigits(s: string) {
    forall i :: 0 <= i < |s| ==> IsDigit(s[i])
  }

  function DigitChar(d: nat): (c: char)
    requires d < 10
    ensures IsDigit(c) && c as int - '0' as int == d
  {
    "0123456789"[d]
  }

  function DigitValue(c: char): (d: nat)
    requires IsDigit(c)
    ensures d < 10
  {
    c as int - '0' as int
  }

  /** Decimal digits of `n`, most significant first, without leading zeros. */
  function NatToString(n: nat): (s: string)
    ensures |s| > 0 && AllDigits(s)
    ensures n >= 10 ==> s[0] != '0'
    decreases n
  {
    if n < 10 then [DigitChar(n)] else NatToString(n / 10) + [DigitChar(n % 10)]
  }

  /** The text JavaScript produces for an integer in `${n}`. */
  function IntToString(n: int): (s: string)
    ensures |s| > 0
    ensures n < 0 <==> s[0] == '-'
  {
    if n < 0 then "-" + NatToString(-n) else NatToString(n)
  }

  /** The number a run of decimal digits denotes. */
  function DigitsValue(s: string): nat
    requires AllDigits(s)
  {
    if s == [] then 0 else DigitsValue(s[..|s| - 1]) * 10 + DigitValue(s[|s| - 1])
  }

  /** Length of the longest prefix of `s` made of digits. */
  function DigitRun(s: string): (k: nat)
    ensures k <= |s| && AllDigits(s[..k])
    ensures k < |s| ==> !IsDigit(s[k])
  {
    if s == [] || !IsDigit(s[0]) then 0 else 1 + DigitRun(s[1..])
  }

  /**
   * `parseInt(s, 10)` on text without leading blanks: an optional sign, then
   * the longest run of digits; anything after the run is ignored, and text
   * with no digit after the sign is NaN (`None`).
   */
  function ParseInt(s: string): (r: Option<int>)
    ensures r.None? <==> DigitRun(if |s| > 0 && (s[0] == '-' || s[0] == '+') then s[1..] else s) == 0
  {
    var signed := |s| > 0 && (s[0] == '-' || s[0] == '+');
    var body := if signed then s[1..] else s;
    var k := DigitRun(body);
    var magnitude: int := if k == 0 then 0 else DigitsValue(body[..k]);
    if k == 0 then None
    else if s[0] == '-' then Some(-magnitude)
    else Some(magnitude)
  }

  /** A run of digits followed by a non-digit (or by nothing) is read up to that non-digit. */
  lemma {:induction false} DigitRunOfDigits(s: string, rest: string)
    requires AllDigits(s)
    requires rest == [] || !IsDigit(rest[0])
    ensures DigitRun(s + rest) == |s|
    ensures (s + rest)[..|s|] == s
  {
    if s != [] {
      assert (s + rest)[1..] == s[1..] + rest;
      DigitRunOfDigits(s[1..], rest);
    }
  }

  lemma {:induction false} DigitsValueOfNatToString(n: nat)
    ensures DigitsValue(NatToString(n)) == n
    decreases n
  {
    var s := NatToString(n);
    if n >= 10 {
      var prefix := NatToString(n / 10);
      assert s[..|s| - 1] == prefix;
      DigitsValueOfNatToString(n / 10);
    }
  }

  /**
   * Reading back what `${n}` printed gives `n` again, also when the number is
   * followed by text that does not start with a digit.
   */
  lemma {:induction false} ParseIntOfIntToString(n: int, rest: string)
    requires rest == [] || !IsDigit(rest[0])
    ensures ParseInt(IntToString(n) + rest) == Some(n)
  {
    var m: nat := if n < 0 then -n else n;
    var digits := NatToString(m);
    DigitRunOfDigits(digits, rest);
    DigitsValueOfNatToString(m);
    if n < 0 {
      var s := "-" + digits + rest;
      assert s[1..] == digits + rest;
    } else {
      assert (digits + rest)[0] == digits[0];
    }
  }

  /** Distinct integers print differently. */
  lemma IntToStringInjective(m: int, n: int)
    requires IntToString(m) == IntToString(n)
    ensures m == n
  {
    ParseIntOfIntToString(m, "");
    ParseIntOfIntToString(n, "");
    assert IntToString(m) + "" == IntToString(m);
    assert IntToString(n) + "" == IntToString(n);
  }

  /** The text a loop of `acc += parts[i]` builds, starting from "". */
  function Concat(parts: seq<string>): string {
    if parts == [] then "" else Concat(parts[..|parts| - 1]) + parts[|parts| - 1]
  }

  lemma {:induction false} ConcatAppend(a: seq<string>, b: seq<string>)
    ensures Concat(a + b) == Concat(a) + Concat(b)
    decreases |b|
  {
    if b == [] {
      assert a + b == a;
    } else {
      var last := |b| - 1;
      var ab := a + b;
      assert ab[..|ab| - 1] == a + b[..last];
      assert ab[|ab| - 1] == b[last];
      ConcatAppend(a, b[..last]);
      calc {
        Concat(ab);
        Concat(a + b[..last]) + b[last];
        (Concat(a) + Concat(b[..last])) + b[last];
        Concat(a) + (Concat(b[..last]) + b[last]);
        Concat(a) + Concat(b);
      }
    }
  }

  /**
   * Part `k` of a concatenation sits right after the parts before it: the
   * pieces appear whole and in order.
   */
  lemma ConcatAt(parts: seq<string>, k: nat)
    requires k < |parts|
    ensures Concat(parts) == Concat(parts[..k]) + parts[k] + Concat(parts[k + 1..])
    ensures |Concat(parts[..k])| + |parts[k]| <= |Concat(parts)|
    ensures Concat(parts)[|Concat(parts[..k])|..|Concat(parts[..k])| + |parts[k]|] == parts[k]
  {
    assert parts == parts[..k] + [parts[k]] + parts[k + 1..];
    ConcatAppend(parts[..k] + [parts[k]], parts[k + 1..]);
    ConcatAppend(parts[..k], [parts[k]]);
    assert Concat([parts[k]]) == parts[k] by {
      assert [parts[k]][..0] == [];
    }
  }

  /** One more turn of a `text += parts[k]` loop that started from `prefix` appends the next part. */
  lemma ConcatSnoc(prefix: string, parts: seq<string>, k: nat)
    requires k < |parts|
    ensures prefix + Concat(parts[..k]) + parts[k] == prefix + Concat(parts[..k + 1])
  {
    assert parts[..k + 1][..k] == parts[..k];
  }

  /** After a fixed prefix, part `k` of a concatenation sits right after the parts before it. */
  lemma PartAfterPrefix(prefix: string, parts: seq<string>, k: nat)
    requires k < |parts|
    ensures var at := |prefix| + |Concat(parts[..k])|;
            at + |parts[k]| <= |prefix + Concat(parts)| && (prefix + Concat(parts))[at..at + |parts[k]|] == parts[k]
  {
    ConcatAt(parts, k);
    var before := |Concat(parts[..k])|;
    assert (prefix + Concat(parts))[|prefix| + before..|prefix| + before + |parts[k]|] ==
           Concat(parts)[before..before + |parts[k]|];
  }

  /**
   * In `before + tag + ${n} + after + tail`, with `after` starting with a
   * non-digit, the tag ends where the number starts and the number reads
   * back from there.
   */
  lemma NumberAfterLabel(before: string, tag: string, n: int, after: string, tail: string)
    requires |after| > 0 && !IsDigit(after[0])
    ensures var text := ((before + tag) + (IntToString(n) + after)) + tail;
            var at := |before + tag|;
            && |tag| <= at <= |text|
            && text[at - |tag|..at] == tag
            && ParseInt(text[at..]) == Some(n)
  {
    var text := ((before + tag) + (IntToString(n) + after)) + tail;
    var at := |before + tag|;
    assert text[at..] == IntToString(n) + (after + tail);
    assert (after + tail)[0] == after[0];
    ParseIntOfIntToString(n, after + tail);
    assert text[at - |tag|..at] == tag;
  }

  /** In `before + middle + after`, `middle` sits right after `before`. */
  lemma Between(before: string, middle: string, after: string)
    ensures |before| + |middle| <= |before + middle + after|
    ensures (before + middle + after)[|before|..|before| + |middle|] == middle
  {
  }

  /** A piece found at `p` in a text carries its own sub-piece at `q` to `p + q`. */
  lemma WithinPiece(text: string, piece: string, p: nat, q: nat, len: nat)
    requires p + |piece| <= |text| && text[p..p + |piece|] == piece
    requires q + len <= |piece|
    ensures p + q + len <= |text| && text[p + q..p + q + len] == piece[q..q + len]
  {
    var found := text[p + q..p + q + len];
    var wanted := piece[q..q + len];
    forall i | 0 <= i < len
      ensures found[i] == wanted[i]
    {
      assert text[p..p + |piece|][q + i] == text[p + q + i];
    }
  }

  /**
   * A piece found at `q` in `c` sits at `|a| + |b| + q` in
   * `(a + (b + c)) + d`, the shape of a label, a number and the text after
   * it, followed by a tail.
   */
  lemma PieceOfMiddle(a: string, b: string, c: string, d: string, q: nat, piece: string)
    requires q + |piece| <= |c| && c[q..q + |piece|] == piece
    ensures var text := (a + (b + c)) + d;
            var at := |a| + |b| + q;
            at + |piece| <= |text| && text[at..at + |piece|] == piece
  {
    var text := (a + (b + c)) + d;
    var at := |a| + |b| + q;
    var found := text[at..at + |piece|];
    forall i | 0 <= i < |piece|
      ensures found[i] == piece[i]
    {
      assert text[at + i] == c[q + i];
      assert c[q..q + |piece|][i] == c[q + i];
    }
  }

  /**
   * In `(a + (b + ((tag + piece) + rest))) + d`, the shape of a number
   * followed by a tagged piece, the piece sits right after the tag.
   */
  lemma LabelledPiece(a: string, b: string, tag: string, piece: string, rest: string, d: string)
    ensures var text := (a + (b + ((tag + piece) + rest))) + d;
            var at := |a| + |b| + |tag|;
            at + |piece| <= |text| && text[at..at + |piece|] == piece
  {
    Between(tag, piece, rest);
    PieceOfMiddle(a, b, (tag + piece) + rest, d, |tag|, piece);
  }
}
