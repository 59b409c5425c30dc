/**
 * Character-string helpers shared by the extension lookups, the
 * WLR_BACKENDS tokeniser and the output naming: splitting on a separator
 * the way strtok_r and the extension scanners do (empty pieces dropped),
 * decimal rendering of a counter, and base-10 strtol.
 *
 * Strings are the characters of a C string before its terminator.
 */
module Text {
  import opened CInt

  // ---------------------------------------------------------------------
  // Tokens

  /** strcspn(s, sep) for a one-character reject set: the length of the run before the first separator. */
  function TokenLen(s: string, sep: char): (n: nat)
    ensures n <= |s|
    ensures forall k :: 0 <= k < n ==> s[k] != sep
    ensures n < |s| ==> s[n] == sep
  {
    if s == [] || s[0] == sep then 0 else 1 + TokenLen(s[1..], sep)
  }

  /**
   * The non-empty maximal runs of `s` that contain no `sep`, in order:
   * what strtok_r returns call after call, and the words that
   * check_egl_ext and check_gl_ext compare against.
   */
  function Tokens(s: string, sep: char): (ts: seq<string>)
    ensures forall t :: t in ts ==> |t| > 0 && sep !in t
    decreases |s|
  {
    if s == [] then []
    else if s[0] == sep then Tokens(s[1..], sep)
    else
      var n := TokenLen(s, sep);
      [s[..n]] + Tokens(s[n..], sep)
  }

  /** The inverse direction: words put back together with one separator between them. */
  function Join(ts: seq<string>, sep: char): string
  {
    if ts == [] then []
    else if |ts| == 1 then ts[0]
    else ts[0] + [sep] + Join(ts[1..], sep)
  }

  /** `w` stands in `s` at `i` with a separator or an end of string on both sides. */
  ghost predicate BoundedAt(s: string, sep: char, w: string, i: int)
  {
    0 <= i && i + |w| <= |s| && s[i..i + |w|] == w &&
    (i == 0 || s[i - 1] == sep) &&
    (i + |w| == |s| || s[i + |w|] == sep)
  }

  lemma {:induction false} TokenLenOfWord(w: string, rest: string, sep: char)
    requires sep !in w
    requires rest == [] || rest[0] == sep
    ensures TokenLen(w + rest, sep) == |w|
    decreases |w|
  {
    if w != [] {
      assert (w + rest)[1..] == w[1..] + rest;
      TokenLenOfWord(w[1..], rest, sep);
    } else {
      assert w + rest == rest;
    }
  }

  /** A word free of separators is its own single token. */
  lemma SingleToken(w: string, sep: char)
    requires |w| > 0 && sep !in w
    ensures Tokens(w, sep) == [w]
  {
    TokenLenOfWord(w, [], sep);
    assert w + [] == w;
    assert w[|w|..] == [];
  }

  /** A leading word is split off as the first token. */
  lemma TokensOfWordThen(w: string, rest: string, sep: char)
    requires |w| > 0 && sep !in w
    requires rest == [] || rest[0] == sep
    ensures Tokens(w + rest, sep) == [w] + Tokens(rest, sep)
  {
    var s := w + rest;
    assert s[0] == w[0] && w[0] in w;
    TokenLenOfWord(w, rest, sep);
    assert s[..|w|] == w;
    assert s[|w|..] == rest;
  }

  /**
   * Splitting undoes joining: words that are non-empty and free of the
   * separator come back unchanged, in order.
   */
  lemma {:induction false} TokensOfJoin(ts: seq<string>, sep: char)
    requires forall t :: t in ts ==> |t| > 0 && sep !in t
    ensures Tokens(Join(ts, sep), sep) == ts
    decreases |ts|
  {
    if ts == [] {
    } else if |ts| == 1 {
      SingleToken(ts[0], sep);
    } else {
      var rest := [sep] + Join(ts[1..], sep);
      assert Join(ts, sep) == ts[0] + rest;
      TokensOfWordThen(ts[0], rest, sep);
      assert rest[1..] == Join(ts[1..], sep);
      TokensOfJoin(ts[1..], sep);
      assert ts == [ts[0]] + ts[1..];
    }
  }

  lemma BoundedInSuffix(s: string, sep: char, w: string, n: nat, i: int)
    requires n <= |s| && BoundedAt(s[n..], sep, w, i)
    requires i > 0 || n == 0 || s[n - 1] == sep
    ensures BoundedAt(s, sep, w, n + i)
  {
    assert s[n..][i..i + |w|] == s[n + i..n + i + |w|];
  }

  lemma BoundedInSuffixBack(s: string, sep: char, w: string, n: nat, i: int)
    requires n <= i && BoundedAt(s, sep, w, i)
    ensures BoundedAt(s[n..], sep, w, i - n)
  {
    assert s[n..][i - n..i - n + |w|] == s[i..i + |w|];
  }

  /** Every token occurs in `s` with a separator or an end of the string on both sides. */
  lemma {:induction false} TokenIsBounded(s: string, sep: char, w: string)
    requires w in Tokens(s, sep)
    ensures exists i :: BoundedAt(s, sep, w, i)
    decreases |s|
  {
    assert |w| > 0 && sep !in w;
    assert w[0] in w;
    if s[0] == sep {
      TokenIsBounded(s[1..], sep, w);
      var i' :| BoundedAt(s[1..], sep, w, i');
      BoundedInSuffix(s, sep, w, 1, i');
    } else {
      var n := TokenLen(s, sep);
      assert Tokens(s, sep) == [s[..n]] + Tokens(s[n..], sep);
      if w == s[..n] {
        assert BoundedAt(s, sep, w, 0);
      } else {
        assert w in Tokens(s[n..], sep);
        TokenIsBounded(s[n..], sep, w);
        var i' :| BoundedAt(s[n..], sep, w, i');
        assert n < |s| ==> s[n..][0] == sep;
        assert w[0] != sep;
        BoundedInSuffix(s, sep, w, n, i');
      }
    }
  }

  /** A non-empty, separator-free word delimited on both sides is one of the tokens. */
  lemma {:induction false} BoundedIsToken(s: string, sep: char, w: string, i: int)
    requires |w| > 0 && sep !in w
    requires BoundedAt(s, sep, w, i)
    ensures w in Tokens(s, sep)
    decreases |s|
  {
    assert w[0] in w;
    if s[0] == sep {
      assert w[0] != sep;
      BoundedInSuffixBack(s, sep, w, 1, i);
      BoundedIsToken(s[1..], sep, w, i - 1);
    } else {
      var n := TokenLen(s, sep);
      assert Tokens(s, sep) == [s[..n]] + Tokens(s[n..], sep);
      if i == 0 {
        assert s[..|w|] == w;
        TokenLenOfWord(w, s[|w|..], sep);
        assert w + s[|w|..] == s;
      } else {
        assert s[i - 1] == sep;
        BoundedInSuffixBack(s, sep, w, n, i);
        BoundedIsToken(s[n..], sep, w, i - n);
      }
    }
  }

  /**
   * Whole-word matching: a separator-free, non-empty word is one of the
   * tokens of `s` exactly when it occurs in `s` delimited on both sides by
   * a separator or an end of the string. A prefix or suffix of a longer
   * word therefore never matches.
   */
  lemma TokenIffBounded(s: string, sep: char, w: string)
    requires |w| > 0 && sep !in w
    ensures w in Tokens(s, sep) <==> exists i :: BoundedAt(s, sep, w, i)
  {
    if w in Tokens(s, sep) {
      TokenIsBounded(s, sep, w);
    }
    if exists i :: BoundedAt(s, sep, w, i) {
      var i :| BoundedAt(s, sep, w, i);
      BoundedIsToken(s, sep, w, i);
    }
  }

  // ---------------------------------------------------------------------
  // Decimal numbers

  predicate IsDigit(c: char) { '0' <= c <= '9' }

  predicate AllDigits(s: string) { forall k :: 0 <= k < |s| ==> IsDigit(s[k]) }

  function DigitChar(d: nat): (c: char)
    requires d < 10
    ensures IsDigit(c)
  {
    (('0' as int) + d) as char
  }

  function DigitValue(c: char): (d: nat)
    requires IsDigit(c)
    ensures d < 10
  {
    (c as int) - ('0' as int)
  }

  /** `%zu`/`%zd` rendering of a natural number: the shortest decimal numeral. */
  function Decimal(n: nat): (s: string)
    ensures |s| >= 1 && AllDigits(s)
    decreases n
  {
    if n < 10 then [DigitChar(n)] else Decimal(n / 10) + [DigitChar(n % 10)]
  }

  /** The value of a string of decimal digits, most significant first. */
  function DigitsValue(s: string): nat
    requires AllDigits(s)
  {
    if s == [] then 0 else DigitsValue(s[..|s| - 1]) * 10 + DigitValue(s[|s| - 1])
  }

  /** Reading a rendered numeral gives the number back. */
  lemma {:induction false} DecimalRoundTrip(n: nat)
    ensures DigitsValue(Decimal(n)) == n
    decreases n
  {
    var s := Decimal(n);
    if n >= 10 {
      DecimalRoundTrip(n / 10);
      assert s[..|s| - 1] == Decimal(n / 10);
    }
  }

  /** Distinct numbers have distinct numerals. */
  lemma DecimalInjective(n: nat, m: nat)
    requires Decimal(n) == Decimal(m)
    ensures n == m
  {
    DecimalRoundTrip(n);
    DecimalRoundTrip(m);
  }

  function Pow10(k: nat): (p: nat)
    ensures p >= 1
  {
    if k == 0 then 1 else 10 * Pow10(k - 1)
  }

  /** A number below 10^k takes at most k digits. */
  lemma {:induction false} DecimalLength(n: nat, k: nat)
    requires k >= 1 && n < Pow10(k)
    ensures |Decimal(n)| <= k
    decreases k
  {
    if n >= 10 {
      assert Pow10(1) == 10;
      DecimalLength(n / 10, k - 1);
    }
  }

  // ---------------------------------------------------------------------
  // strtol(s, &end, 10)

  /** isspace in the C locale. */
  predicate IsSpace(c: char)
  {
    c == ' ' || c == '\t' || c == '\n' || c == '\r' || c as int == 11 || c as int == 12
  }

  /** The first index at or after `i` that is not white space. */
  function SkipSpaces(s: string, i: nat): (j: nat)
    requires i <= |s|
    ensures i <= j <= |s|
    ensures forall k :: i <= k < j ==> IsSpace(s[k])
    ensures j < |s| ==> !IsSpace(s[j])
    decreases |s| - i
  {
    if i < |s| && IsSpace(s[i]) then SkipSpaces(s, i + 1) else i
  }

  /** The first index at or after `i` that is not a decimal digit. */
  function DigitRunEnd(s: string, i: nat): (j: nat)
    requires i <= |s|
    ensures i <= j <= |s|
    ensures AllDigits(s[i..j])
    ensures j < |s| ==> !IsDigit(s[j])
    decreases |s| - i
  {
    if i < |s| && IsDigit(s[i]) then
      var j := DigitRunEnd(s, i + 1);
      assert s[i..j] == [s[i]] + s[i + 1..j];
      j
    else i
  }

  /** What strtol returns, and the index its end pointer is left at. */
  datatype Conversion = Conversion(value: int, end: nat)

  /**
   * Base-10 strtol: optional white space, an optional sign, then the
   * longest run of digits. With no digits the value is 0 and the end
   * pointer stays at the start of the string; a magnitude out of range
   * saturates at LONG_MAX or LONG_MIN.
   */
  function Strtol(s: string): (r: Conversion)
    ensures r.end <= |s|
    ensures LONG_MIN <= r.value <= LONG_MAX
  {
    var i := SkipSpaces(s, 0);
    var neg := i < |s| && s[i] == '-';
    var j := if i < |s| && (s[i] == '-' || s[i] == '+') then i + 1 else i;
    var k := DigitRunEnd(s, j);
    if k == j then Conversion(0, 0)
    else
      var mag: int := DigitsValue(s[j..k]);
      var v := if neg then (if -mag < LONG_MIN then LONG_MIN else -mag)
               else (if mag > LONG_MAX then LONG_MAX else mag);
      Conversion(v, k)
  }

  /** A bare numeral is read completely, to its own value (saturated at LONG_MAX). */
  lemma StrtolOfDecimal(n: nat)
    ensures Strtol(Decimal(n)) == Conversion(if n > LONG_MAX then LONG_MAX else n, |Decimal(n)|)
  {
    var s := Decimal(n);
    assert !IsSpace(s[0]) && s[0] != '-' && s[0] != '+';
    assert SkipSpaces(s, 0) == 0;
    DigitRunAll(s, 0);
    assert s[0..|s|] == s;
    DecimalRoundTrip(n);
  }

  lemma {:induction false} DigitRunAll(s: string, i: nat)
    requires i <= |s| && AllDigits(s)
    ensures DigitRunEnd(s, i) == |s|
    decreases |s| - i
  {
    if i < |s| {
      DigitRunAll(s, i + 1);
    }
  }
}
