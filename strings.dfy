/** The string helpers the frontend and backend lean on: lower-casing and
    substring search for the ticket search box, whitespace stripping for the
    agent name returned by the completion provider and for the sender name,
    and decimal rendering of ticket ids inside reply subjects. */
module Strings {

  // ---------------------------------------------------------------------------
  // Lower-casing (`String.prototype.toLowerCase`, ASCII letters only)
  // ---------------------------------------------------------------------------

  function LowerChar(c: char): (r: char)
    ensures 'A' <= c <= 'Z' ==> 'a' <= r <= 'z' && r as int == c as int + 32
    ensures !('A' <= c <= 'Z') ==> r == c
    ensures !('A' <= r <= 'Z')
  {
    if 'A' <= c <= 'Z' then (c as int + 32) as char else c
  }

  /** Character-wise lower-casing: same length, each character mapped alone. */
  function Lower(s: string): (r: string)
    ensures |r| == |s|
    ensures forall i :: 0 <= i < |s| ==> r[i] == LowerChar(s[i])
  {
    seq(|s|, i requires 0 <= i < |s| => LowerChar(s[i]))
  }

  /** Lower-casing a lower-cased string changes nothing. */
  lemma LowerIdempotent(s: string)
    ensures Lower(Lower(s)) == Lower(s)
  {
    var once := Lower(s);
    forall i | 0 <= i < |s|
      ensures Lower(once)[i] == once[i]
    {
      assert !('A' <= once[i] <= 'Z');
    }
  }

  // ---------------------------------------------------------------------------
  // Substring search (`String.prototype.includes`, Python's `in` on str)
  // ---------------------------------------------------------------------------

  predicate IsPrefix(p: string, s: string) {
    |p| <= |s| && s[..|p|] == p
  }

  /** `needle` occurs in `hay` starting at index `i`. */
  ghost predicate OccursAt(hay: string, needle: string, i: int) {
    0 <= i && i + |needle| <= |hay| && hay[i..i + |needle|] == needle
  }

  /** Executable substring test: try every start position from the left. A
      needle found is never longer than the haystack, and one at the front is
      always found. */
  function Contains(hay: string, needle: string): (b: bool)
    ensures b ==> |needle| <= |hay|
    ensures IsPrefix(needle, hay) ==> b
    decreases |hay|
  {
    IsPrefix(needle, hay) || (|hay| > 0 && Contains(hay[1..], needle))
  }

  /** The scan agrees with the declarative meaning of "is a substring of". */
  lemma {:induction false} ContainsIff(hay: string, needle: string)
    ensures Contains(hay, needle) <==> exists i :: OccursAt(hay, needle, i)
    decreases |hay|
  {
    if IsPrefix(needle, hay) {
      assert OccursAt(hay, needle, 0);
    } else if |hay| == 0 {
      assert |needle| > 0;
      forall i ensures !OccursAt(hay, needle, i) { }
    } else {
      var tail := hay[1..];
      ContainsIff(tail, needle);
      if Contains(tail, needle) {
        var j :| OccursAt(tail, needle, j);
        OccursInTail(hay, needle, j);
      } else {
        forall i | OccursAt(hay, needle, i)
          ensures false
        {
          OccursPastHead(hay, needle, i);
        }
      }
    }
  }

  /** An occurrence in the tail is one position further in the whole. */
  lemma OccursInTail(hay: string, needle: string, j: int)
    requires |hay| > 0 && OccursAt(hay[1..], needle, j)
    ensures OccursAt(hay, needle, j + 1)
  {
    assert hay[j + 1..j + 1 + |needle|] == hay[1..][j..j + |needle|];
  }

  /** An occurrence that is not a prefix lies in the tail, one position
      earlier. */
  lemma OccursPastHead(hay: string, needle: string, i: int)
    requires OccursAt(hay, needle, i) && !IsPrefix(needle, hay)
    ensures i > 0 && OccursAt(hay[1..], needle, i - 1)
  {
    assert hay[1..][i - 1..i - 1 + |needle|] == hay[i..i + |needle|];
  }

  // ---------------------------------------------------------------------------
  // Whitespace stripping (`String.prototype.trim` and Python's `str.strip()`)
  // ---------------------------------------------------------------------------

  /** The two runtimes disagree slightly about what counts as white space. */
  datatype Dialect = JavaScript | Python

  /** Spaces both runtimes strip: the ASCII controls TAB..CR, SPACE, NO-BREAK
      SPACE, the Zs category and the line/paragraph separators. */
  predicate SharedSpace(n: int) {
    (9 <= n <= 13) || n == 0x20 || n == 0xA0 || n == 0x1680
    || (0x2000 <= n <= 0x200A) || n == 0x2028 || n == 0x2029
    || n == 0x202F || n == 0x205F || n == 0x3000
  }

  /** JavaScript also strips the BOM; Python also strips the information
      separators U+001C..U+001F and NEXT LINE. */
  predicate IsSpace(d: Dialect, c: char) {
    var n := c as int;
    SharedSpace(n)
    || (d == JavaScript && n == 0xFEFF)
    || (d == Python && ((0x1C <= n <= 0x1F) || n == 0x85))
  }

  predicate AllSpace(d: Dialect, s: string) {
    forall i :: 0 <= i < |s| ==> IsSpace(d, s[i])
  }

  /** Drop leading white space: the result is a suffix of `s`, everything
      dropped is white space, and the result does not start with any. */
  function TrimStart(d: Dialect, s: string): (r: string)
    ensures |r| <= |s| && r == s[|s| - |r|..]
    ensures AllSpace(d, s[..|s| - |r|])
    ensures |r| > 0 ==> !IsSpace(d, r[0])
    decreases |s|
  {
    if |s| > 0 && IsSpace(d, s[0]) then TrimStart(d, s[1..]) else s
  }

  /** Drop trailing white space: the result is a prefix of `s`, everything
      dropped is white space, and the result does not end with any. */
  function TrimEnd(d: Dialect, s: string): (r: string)
    ensures |r| <= |s| && r == s[..|r|]
    ensures AllSpace(d, s[|r|..])
    ensures |r| > 0 ==> !IsSpace(d, r[|r| - 1])
    decreases |s|
  {
    if |s| > 0 && IsSpace(d, s[|s| - 1]) then TrimEnd(d, s[..|s| - 1]) else s
  }

  /** `r` is `s[k..k + |r|]` with only white space around it. */
  predicate PaddedWindow(d: Dialect, s: string, r: string, k: nat) {
    k + |r| <= |s| && r == s[k..k + |r|] && AllSpace(d, s[..k]) && AllSpace(d, s[k + |r|..])
  }

  /** Both ends stripped: the result is a window of `s` with only white space
      before and after it, and it neither starts nor ends with white space. */
  function Strip(d: Dialect, s: string): (r: string)
    ensures |r| <= |s|
    ensures exists k: nat :: PaddedWindow(d, s, r, k)
    ensures |r| > 0 ==> !IsSpace(d, r[0]) && !IsSpace(d, r[|r| - 1])
  {
    StripWindow(d, s);
    TrimEnd(d, TrimStart(d, s))
  }

  lemma StripWindow(d: Dialect, s: string)
    ensures exists k: nat :: PaddedWindow(d, s, TrimEnd(d, TrimStart(d, s)), k)
  {
    var t := TrimStart(d, s);
    var r := TrimEnd(d, t);
    TrimmedWindow(d, s, t, r);
    assert PaddedWindow(d, s, r, |s| - |t|);
  }

  /** A prefix kept from a suffix kept, each with only white space dropped,
      is a window with only white space around it. */
  lemma TrimmedWindow(d: Dialect, s: string, t: string, r: string)
    requires |t| <= |s| && t == s[|s| - |t|..] && AllSpace(d, s[..|s| - |t|])
    requires |r| <= |t| && r == t[..|r|] && AllSpace(d, t[|r|..])
    ensures PaddedWindow(d, s, r, |s| - |t|)
  {
    var k := |s| - |t|;
    assert t == s[k..];
    assert r == t[..|r|] == s[k..k + |r|];
    var after := s[k + |r|..];
    assert after == t[|r|..];
    assert AllSpace(d, t[|r|..]);
    assert AllSpace(d, after);
  }

  lemma {:induction false} TrimStartPadded(d: Dialect, pre: string, s: string)
    requires AllSpace(d, pre)
    requires |s| > 0 ==> !IsSpace(d, s[0])
    ensures TrimStart(d, pre + s) == s
    decreases |pre|
  {
    if |pre| == 0 {
      assert pre + s == s;
    } else {
      assert (pre + s)[1..] == pre[1..] + s;
      TrimStartPadded(d, pre[1..], s);
    }
  }

  lemma {:induction false} TrimEndPadded(d: Dialect, s: string, post: string)
    requires AllSpace(d, post)
    requires |s| > 0 ==> !IsSpace(d, s[|s| - 1])
    ensures TrimEnd(d, s + post) == s
    decreases |post|
  {
    if |post| == 0 {
      assert s + post == s;
    } else {
      var shorter := post[..|post| - 1];
      assert (s + post)[..|s + post| - 1] == s + shorter;
      TrimEndPadded(d, s, shorter);
    }
  }

  /** Stripping recovers a core that has no white space at its ends, whatever
      white space surrounds it. */
  lemma StripPadded(d: Dialect, pre: string, core: string, post: string)
    requires AllSpace(d, pre) && AllSpace(d, post)
    requires |core| > 0 ==> !IsSpace(d, core[0]) && !IsSpace(d, core[|core| - 1])
    ensures Strip(d, pre + core + post) == core
  {
    if |core| > 0 {
      assert (core + post)[0] == core[0];
    } else {
      assert core + post == post;
      assert AllSpace(d, core + post);
    }
    assert pre + core + post == pre + (core + post);
    if |core| > 0 {
      TrimStartPadded(d, pre, core + post);
    } else {
      TrimStartPadded(d, pre + post, []);
      assert pre + core + post == (pre + post) + [];
    }
    TrimEndPadded(d, core, post);
  }

  /** On a string without characters the dialects classify differently, the
      two strips agree. */
  lemma {:induction false} StripDialectsAgree(s: string)
    requires forall i :: 0 <= i < |s| ==> IsSpace(JavaScript, s[i]) == IsSpace(Python, s[i])
    ensures Strip(JavaScript, s) == Strip(Python, s)
  {
    TrimStartDialectsAgree(s);
    var t := TrimStart(JavaScript, s);
    TrimEndDialectsAgree(t);
  }

  lemma {:induction false} TrimStartDialectsAgree(s: string)
    requires forall i :: 0 <= i < |s| ==> IsSpace(JavaScript, s[i]) == IsSpace(Python, s[i])
    ensures TrimStart(JavaScript, s) == TrimStart(Python, s)
    decreases |s|
  {
    if |s| > 0 {
      TrimStartDialectsAgree(s[1..]);
    }
  }

  lemma {:induction false} TrimEndDialectsAgree(s: string)
    requires forall i :: 0 <= i < |s| ==> IsSpace(JavaScript, s[i]) == IsSpace(Python, s[i])
    ensures TrimEnd(JavaScript, s) == TrimEnd(Python, s)
    ensures forall i :: 0 <= i < |TrimEnd(JavaScript, s)| ==>
              IsSpace(JavaScript, TrimEnd(JavaScript, s)[i]) == IsSpace(Python, TrimEnd(JavaScript, s)[i])
    decreases |s|
  {
    if |s| > 0 {
      TrimEndDialectsAgree(s[..|s| - 1]);
    }
  }

  // ---------------------------------------------------------------------------
  // Decimal rendering of integers (template literals and f-strings)
  // ---------------------------------------------------------------------------

  predicate IsDigit(c: char) {
    '0' <= c <= '9'
  }

  predicate AllDigits(s: string) {
    forall i :: 0 <= i < |s| ==> IsDigit(s[i])
  }

  function DigitChar(d: nat): (c: char)
    requires d < 10
    ensures IsDigit(c) && c as int - '0' as int == d
  {
    ('0' as int + d) as char
  }

  function NatToDecimal(n: nat): (s: string)
    ensures |s| > 0 && AllDigits(s)
    ensures s[0] == '0' ==> n == 0
    decreases n
  {
    if n < 10 then [DigitChar(n)] else NatToDecimal(n / 10) + [DigitChar(n % 10)]
  }

  /** `${n}` for an integer id. */
  function IntToDecimal(n: int): (s: string)
    ensures |s| > 0 && (s[0] == '-' <==> n < 0)
    ensures n >= 0 ==> s == NatToDecimal(n)
    ensures n < 0 ==> s == "-" + NatToDecimal(-n)
  {
    if n < 0 then "-" + NatToDecimal(-n) else NatToDecimal(n)
  }

  /** The value a string of decimal digits denotes. */
  function DecimalValue(s: string): nat
    requires AllDigits(s)
  {
    if s == [] then 0 else DecimalValue(s[..|s| - 1]) * 10 + (s[|s| - 1] as int - '0' as int)
  }

  /** Reading the rendered digits back gives the number. */
  lemma {:induction false} DecimalRoundTrip(n: nat)
    ensures DecimalValue(NatToDecimal(n)) == n
    decreases n
  {
    if n >= 10 {
      var s := NatToDecimal(n);
      DecimalRoundTrip(n / 10);
      assert s[..|s| - 1] == NatToDecimal(n / 10);
    }
  }

  /** Different ids render differently. */
  lemma IntToDecimalInjective(m: int, n: int)
    requires IntToDecimal(m) == IntToDecimal(n)
    ensures m == n
  {
    assert (m < 0) == (n < 0);
    if m >= 0 {
      DecimalRoundTrip(m);
      DecimalRoundTrip(n);
    } else {
      assert NatToDecimal(-m) == IntToDecimal(m)[1..];
      assert NatToDecimal(-n) == IntToDecimal(n)[1..];
      DecimalRoundTrip(-m);
      DecimalRoundTrip(-n);
    }
  }
}
