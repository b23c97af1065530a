/** String helpers standing in for the Python built-ins the configuration
    code uses: `str.lower`, `str.split(sep)[0]`, `str.split()`, `str.zfill`
    and `str(int)`. Characters are treated as ASCII. */
module Strings {

  /** Index of the last occurrence of `c` in `s`, or -1 (Python's `str.rfind`). */
  function LastIndexOf(s: string, c: char): (r: int)
    ensures -1 <= r < |s|
    ensures r >= 0 ==> s[r] == c
    ensures forall j :: r < j < |s| ==> s[j] != c
  {
    if s == [] then -1
    else if s[|s| - 1] == c then |s| - 1
    else LastIndexOf(s[..|s| - 1], c)
  }

  /** True when `sep` occurs in `s` starting at position `i`. */
  predicate OccursAt(s: string, sep: string, i: int)
  {
    0 <= i && i + |sep| <= |s| && s[i..i + |sep|] == sep
  }

  /** Index of the first occurrence of `sep` in `s` at or after `from`, or -1
      (Python's `str.find`). */
  function FindFrom(s: string, sep: string, from: nat): (r: int)
    requires sep != []
    ensures r == -1 || (from <= r && OccursAt(s, sep, r))
    ensures forall j :: from <= j && (r == -1 || j < r) ==> !OccursAt(s, sep, j)
    decreases |s| - from
  {
    if from + |sep| > |s| then -1
    else if s[from..from + |sep|] == sep then from
    else FindFrom(s, sep, from + 1)
  }

  /** `s.split(sep)[0]`: the part of `s` before the first occurrence of `sep`,
      or all of `s` when `sep` does not occur. */
  function PrefixBefore(s: string, sep: string): (r: string)
    requires sep != []
    ensures r <= s
    ensures forall j :: 0 <= j < |r| ==> !OccursAt(s, sep, j)
    ensures forall j :: 0 <= j ==> !OccursAt(r, sep, j)
    ensures |r| < |s| ==> OccursAt(s, sep, |r|)
    ensures |r| == |s| ==> forall j :: 0 <= j ==> !OccursAt(s, sep, j)
  {
    var i := FindFrom(s, sep, 0);
    var r := if i == -1 then s else s[..i];
    assert forall j :: 0 <= j && OccursAt(r, sep, j) ==> OccursAt(s, sep, j) by {
      forall j | 0 <= j && OccursAt(r, sep, j) ensures OccursAt(s, sep, j) {
        assert s[j..j + |sep|] == r[j..j + |sep|];
      }
    }
    r
  }

  function LowerChar(c: char): char
  {
    if 'A' <= c <= 'Z' then (c as int + 32) as char else c
  }

  /** `str.lower()` on ASCII letters. */
  function Lower(s: string): (r: string)
    ensures |r| == |s|
    ensures forall i :: 0 <= i < |s| ==> r[i] == LowerChar(s[i])
  {
    seq(|s|, i requires 0 <= i < |s| => LowerChar(s[i]))
  }

  /** Text without capital letters is its own lower case. */
  lemma LowerOfLowercase(s: string)
    requires forall i :: 0 <= i < |s| ==> !('A' <= s[i] <= 'Z')
    ensures Lower(s) == s
  {
  }

  predicate IsDigit(c: char)
  {
    '0' <= c <= '9'
  }

  predicate AllDigits(s: string)
  {
    forall i :: 0 <= i < |s| ==> IsDigit(s[i])
  }

  function DigitChar(d: nat): char
    requires d < 10
  {
    ('0' as int + d) as char
  }

  /** Decimal rendering of a natural number without leading zeros, as `str(n)`. */
  function NatToString(n: nat): (r: string)
    ensures r != [] && AllDigits(r)
    ensures n > 0 ==> r[0] != '0'
  {
    if n < 10 then [DigitChar(n)]
    else NatToString(n / 10) + [DigitChar(n % 10)]
  }

  /** Decimal rendering of an integer, with a leading '-' when negative. */
  function IntToString(i: int): (r: string)
    ensures r != []
    ensures i >= 0 ==> AllDigits(r)
    ensures i < 0 ==> r[0] == '-' && AllDigits(r[1..])
  {
    if i < 0 then "-" + NatToString(-i) else NatToString(i)
  }

  /** The value of a string of decimal digits (leading zeros allowed). */
  function ParseNat(s: string): nat
    requires AllDigits(s)
  {
    if s == [] then 0
    else ParseNat(s[..|s| - 1]) * 10 + (s[|s| - 1] as int - '0' as int)
  }

  lemma {:induction false} ParseNatToString(n: nat)
    ensures ParseNat(NatToString(n)) == n
  {
    if n >= 10 {
      var s := NatToString(n);
      assert s[..|s| - 1] == NatToString(n / 10);
      ParseNatToString(n / 10);
    }
  }

  function Power10(d: nat): (r: nat)
    ensures r >= 1
  {
    if d == 0 then 1 else 10 * Power10(d - 1)
  }

  /** The rendering of `n` has at most `d` digits exactly when `n < 10^d`. */
  lemma {:induction false} NatToStringLength(n: nat, d: nat)
    requires d >= 1
    ensures |NatToString(n)| <= d <==> n < Power10(d)
  {
    if n >= 10 && d > 1 {
      NatToStringLength(n / 10, d - 1);
    } else if n >= 10 {
      assert |NatToString(n)| >= 2 by { assert NatToString(n) == NatToString(n / 10) + [DigitChar(n % 10)]; }
    }
  }

  function Zeros(k: nat): (r: string)
    ensures |r| == k && AllDigits(r)
    ensures forall i :: 0 <= i < k ==> r[i] == '0'
  {
    seq(k, _ => '0')
  }

  lemma {:induction false} ParseNatLeadingZeros(k: nat, s: string)
    requires AllDigits(s)
    ensures ParseNat(Zeros(k) + s) == ParseNat(s)
    decreases |s|
  {
    if s == [] {
      ParseZeros(k);
      assert Zeros(k) + s == Zeros(k);
    } else {
      var t := Zeros(k) + s;
      assert t[..|t| - 1] == Zeros(k) + s[..|s| - 1];
      ParseNatLeadingZeros(k, s[..|s| - 1]);
    }
  }

  lemma {:induction false} ParseZeros(k: nat)
    ensures ParseNat(Zeros(k)) == 0
  {
    if k > 0 {
      assert Zeros(k)[..k - 1] == Zeros(k - 1);
      ParseZeros(k - 1);
    }
  }

  /** Python's `str.zfill(width)`: pad with '0' on the left up to `width`,
      keeping a leading sign in front of the padding. */
  function ZFill(s: string, width: nat): (r: string)
    ensures |r| == if |s| >= width then |s| else width
    ensures |s| >= width ==> r == s
    ensures |s| < width && (s == [] || (s[0] != '+' && s[0] != '-')) ==> r == Zeros(width - |s|) + s
    ensures |s| < width && s != [] && (s[0] == '+' || s[0] == '-') ==> r == [s[0]] + Zeros(width - |s|) + s[1..]
  {
    if |s| >= width then s
    else if s != [] && (s[0] == '+' || s[0] == '-') then [s[0]] + Zeros(width - |s|) + s[1..]
    else Zeros(width - |s|) + s
  }

  /** Any natural number, zero-filled to any width, is all digits and reads
      back as the same number: the padding never truncates. */
  lemma ZFillNatReadsBack(n: nat, width: nat)
    ensures AllDigits(ZFill(NatToString(n), width))
    ensures ParseNat(ZFill(NatToString(n), width)) == n
  {
    var s := NatToString(n);
    if |s| < width {
      ParseNatLeadingZeros(width - |s|, s);
    }
    ParseNatToString(n);
  }

  /** A natural number below `10^width`, zero-filled to `width`, has exactly
      `width` characters and reads back as the same number. */
  lemma ZFillNatRoundTrip(n: nat, width: nat)
    requires width >= 1 && n < Power10(width)
    ensures |ZFill(NatToString(n), width)| == width
    ensures AllDigits(ZFill(NatToString(n), width))
    ensures ParseNat(ZFill(NatToString(n), width)) == n
  {
    NatToStringLength(n, width);
    ZFillNatReadsBack(n, width);
  }

  /** The characters `str.split()` separates on: the ASCII controls 9-13
      and 28-31, the space, and the Unicode spaces Python counts as
      whitespace. */
  predicate IsSpace(c: char)
  {
    var k := c as int;
    || 9 <= k <= 13 || 28 <= k <= 32 || k == 0x85 || k == 0xA0 || k == 0x1680
    || 0x2000 <= k <= 0x200A || k == 0x2028 || k == 0x2029 || k == 0x202F
    || k == 0x205F || k == 0x3000
  }

  predicate IsWord(w: string)
  {
    w != [] && forall i :: 0 <= i < |w| ==> !IsSpace(w[i])
  }

  /** The characters of `s` that are not whitespace, in order. */
  function NonSpace(s: string): string
  {
    if s == [] then [] else (if IsSpace(s[0]) then [] else [s[0]]) + NonSpace(s[1..])
  }

  /** The words laid end to end. */
  function Concat(ws: seq<string>): string
  {
    if ws == [] then [] else ws[0] + Concat(ws[1..])
  }

  /** `" ".join(ws)`. */
  function Unwords(ws: seq<string>): string
  {
    if ws == [] then [] else if |ws| == 1 then ws[0] else ws[0] + " " + Unwords(ws[1..])
  }

  /** Python's argument-less `str.split()`: the maximal runs of non-space
      characters, in order. Every field is a word, together they hold every
      non-space character of `s` in order, and `Words` undoes `Unwords`
      (`WordsUnwords`). */
  function Words(s: string): (r: seq<string>)
    ensures forall k :: 0 <= k < |r| ==> IsWord(r[k])
    ensures Concat(r) == NonSpace(s)
  {
    WordsFrom(s, [])
  }

  /** Splits `s` into words, `cur` being the word read so far. */
  function WordsFrom(s: string, cur: string): (r: seq<string>)
    requires forall i :: 0 <= i < |cur| ==> !IsSpace(cur[i])
    ensures forall k :: 0 <= k < |r| ==> IsWord(r[k])
    ensures Concat(r) == cur + NonSpace(s)
    decreases |s|
  {
    if s == [] then (if cur == [] then [] else [cur])
    else if IsSpace(s[0]) then
      (if cur == [] then WordsFrom(s[1..], [])
       else
         var rest := WordsFrom(s[1..], []);
         assert ([cur] + rest)[1..] == rest;
         [cur] + rest)
    else
      assert cur + [s[0]] + NonSpace(s[1..]) == cur + NonSpace(s);
      WordsFrom(s[1..], cur + [s[0]])
  }

  /** A run of non-space characters joins the word being read. */
  lemma {:induction false} WordsFromRun(w: string, t: string, cur: string)
    requires forall i :: 0 <= i < |cur| ==> !IsSpace(cur[i])
    requires forall i :: 0 <= i < |w| ==> !IsSpace(w[i])
    ensures WordsFrom(w + t, cur) == WordsFrom(t, cur + w)
    decreases |w|
  {
    if w == [] {
      assert w + t == t && cur + w == cur;
    } else {
      assert (w + t)[0] == w[0] && (w + t)[1..] == w[1..] + t;
      WordsFromRun(w[1..], t, cur + [w[0]]);
      assert cur + [w[0]] + w[1..] == cur + w;
    }
  }

  /** Leading whitespace is dropped. */
  lemma WordsSkipsSpace(c: char, s: string)
    requires IsSpace(c)
    ensures Words([c] + s) == Words(s)
  {
    assert ([c] + s)[1..] == s;
  }

  /** A word on its own is one field. */
  lemma WordsOfWord(w: string)
    requires IsWord(w)
    ensures Words(w) == [w]
  {
    WordsFromRun(w, [], []);
    assert w + [] == w && [] + w == w;
  }

  /** A field ends at the first whitespace after it: a word followed by a
      space character is the first field, and the rest is split on its own.
      With `WordsSkipsSpace`, `WordsOfWord` and `Words([]) == []` this fixes
      the fields of every string. */
  lemma WordsSplitsAtSpace(w: string, c: char, s: string)
    requires IsWord(w) && IsSpace(c)
    ensures Words(w + [c] + s) == [w] + Words(s)
  {
    WordsFromRun(w, [c] + s, []);
    assert w + [c] + s == w + ([c] + s) && [] + w == w;
    assert ([c] + s)[0] == c && ([c] + s)[1..] == s;
  }

  /** Splitting words joined by single spaces gives the words back. */
  lemma {:induction false} WordsUnwords(ws: seq<string>)
    requires forall k :: 0 <= k < |ws| ==> IsWord(ws[k])
    ensures Words(Unwords(ws)) == ws
  {
    if |ws| == 1 {
      WordsFromRun(ws[0], [], []);
      assert ws[0] + [] == ws[0] && [] + ws[0] == ws[0];
    } else if |ws| > 1 {
      var rest := Unwords(ws[1..]);
      WordsFromRun(ws[0], " " + rest, []);
      assert ws[0] + " " + rest == ws[0] + (" " + rest);
      assert [] + ws[0] == ws[0];
      assert (" " + rest)[0] == ' ' && (" " + rest)[1..] == rest;
      WordsUnwords(ws[1..]);
      assert [ws[0]] + ws[1..] == ws;
    }
  }
}
