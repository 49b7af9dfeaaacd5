/**
 * The pieces of Python's string handling that the processors and streams rely on:
 * `str.split()` (whitespace tokenisation), `str.split(sep)` for a one-character
 * separator, and `int()` applied to a string, in base 10.
 */
module Text {
  import opened Wrappers

  /** Python's notion of whitespace (`str.isspace`), the separators of `str.split()`. */
  predicate IsSpace(c: char) {
    || ('\t' <= c <= '\r')
    || ('\U{1C}' <= c <= ' ')
    || c == '\U{85}' || c == '\U{A0}' || c == '\U{1680}'
    || ('\U{2000}' <= c <= '\U{200A}')
    || c == '\U{2028}' || c == '\U{2029}' || c == '\U{202F}' || c == '\U{205F}' || c == '\U{3000}'
  }

  /** A token of `str.split()`: non-empty and free of whitespace. */
  predicate IsWord(w: string) {
    |w| > 0 && forall k :: 0 <= k < |w| ==> !IsSpace(w[k])
  }

  // ---------------------------------------------------------------------------
  // Whitespace tokenisation: str.split()
  // ---------------------------------------------------------------------------

  /** Length of the run of non-whitespace characters at the start of `s`. */
  function RunLength(s: string): (n: nat)
    ensures n <= |s|
    ensures forall k :: 0 <= k < n ==> !IsSpace(s[k])
    ensures n == |s| || IsSpace(s[n])
  {
    if s == [] || IsSpace(s[0]) then 0 else 1 + RunLength(s[1..])
  }

  /** `s.split()`: the maximal runs of non-whitespace characters of `s`, in order. */
  function Words(s: string): (ws: seq<string>)
    ensures forall k :: 0 <= k < |ws| ==> IsWord(ws[k])
    decreases |s|
  {
    if s == [] then []
    else if IsSpace(s[0]) then Words(s[1..])
    else
      var n := RunLength(s);
      [s[..n]] + Words(s[n..])
  }

  /** Position `i` of `s` is where a maximal non-whitespace run begins. */
  predicate RunStartsAt(s: string, i: nat)
    requires i < |s|
  {
    !IsSpace(s[i]) && (i == 0 || IsSpace(s[i - 1]))
  }

  /** Number of run starts at positions `i`, `i + 1`, ... of `s`. */
  function RunsFrom(s: string, i: nat): nat
    requires i <= |s|
    decreases |s| - i
  {
    if i == |s| then 0 else (if RunStartsAt(s, i) then 1 else 0) + RunsFrom(s, i + 1)
  }

  /** Number of maximal non-whitespace runs of `s`, counted position by position. */
  function RunCount(s: string): nat {
    RunsFrom(s, 0)
  }

  /** Positions strictly inside a run are not run starts. */
  lemma {:induction false} NoRunStartsInside(s: string, j: nat, e: nat)
    requires 1 <= j <= e <= |s|
    requires forall k :: j - 1 <= k < e ==> !IsSpace(s[k])
    ensures RunsFrom(s, j) == RunsFrom(s, e)
    decreases e - j
  {
    if j < e {
      assert !RunStartsAt(s, j);
      NoRunStartsInside(s, j + 1, e);
    }
  }

  /** Tokenising the suffix from a position outside any run counts the runs from there on. */
  lemma {:induction false} WordsOfSuffix(s: string, i: nat)
    requires i <= |s|
    requires i == 0 || i == |s| || IsSpace(s[i - 1]) || IsSpace(s[i])
    ensures |Words(s[i..])| == RunsFrom(s, i)
    decreases |s| - i
  {
    if i == |s| {
      assert s[i..] == [];
    } else if IsSpace(s[i]) {
      assert s[i..][1..] == s[i + 1..];
      WordsOfSuffix(s, i + 1);
    } else {
      var t := s[i..];
      var n := RunLength(t);
      assert t[n..] == s[i + n..];
      forall k | i <= k < i + n ensures !IsSpace(s[k]) {
        assert s[k] == t[k - i];
      }
      NoRunStartsInside(s, i + 1, i + n);
      WordsOfSuffix(s, i + n);
    }
  }

  /** `s.split()` yields exactly as many tokens as `s` has maximal non-whitespace runs. */
  lemma WordCountIsRunCount(s: string)
    ensures |Words(s)| == RunCount(s)
  {
    assert s[0..] == s;
    WordsOfSuffix(s, 0);
  }

  /** A string made only of whitespace has no tokens. */
  lemma {:induction false} WordsOfBlank(s: string)
    requires forall k :: 0 <= k < |s| ==> IsSpace(s[k])
    ensures Words(s) == []
    decreases |s|
  {
    if s != [] {
      WordsOfBlank(s[1..]);
    }
  }

  /** A string with a non-whitespace character has at least one token. */
  lemma {:induction false} WordsOfNonBlank(s: string, k: nat)
    requires k < |s| && !IsSpace(s[k])
    ensures Words(s) != []
    decreases |s|
  {
    if IsSpace(s[0]) {
      WordsOfNonBlank(s[1..], k - 1);
    }
  }

  // ---------------------------------------------------------------------------
  // Joining and splitting on a one-character separator
  // ---------------------------------------------------------------------------

  /** The pieces joined with `sep` between neighbours (`sep.join(pieces)`). */
  function Join(pieces: seq<string>, sep: char): (s: string)
    ensures |pieces| > 0 ==> |s| >= |pieces[0]|
  {
    if |pieces| == 0 then ""
    else if |pieces| == 1 then pieces[0]
    else pieces[0] + [sep] + Join(pieces[1..], sep)
  }

  /** Joining one more piece appends the separator and that piece. */
  lemma {:induction false} JoinSnoc(pieces: seq<string>, last: string, sep: char)
    requires |pieces| > 0
    ensures Join(pieces + [last], sep) == Join(pieces, sep) + [sep] + last
  {
    if |pieces| > 1 {
      assert (pieces + [last])[1..] == pieces[1..] + [last];
      JoinSnoc(pieces[1..], last, sep);
    }
  }

  /** A token is its own and only token. */
  lemma WordsOfWord(w: string)
    requires IsWord(w)
    ensures Words(w) == [w]
  {
    RunLengthOfWord(w, "");
    assert w + "" == w;
    assert w[|w|..] == [];
  }

  /** A run of non-whitespace followed by anything else extends exactly over the run. */
  lemma {:induction false} RunLengthOfWord(w: string, rest: string)
    requires forall k :: 0 <= k < |w| ==> !IsSpace(w[k])
    requires rest == [] || IsSpace(rest[0])
    ensures RunLength(w + rest) == |w|
    decreases |w|
  {
    if w == [] {
      assert w + rest == rest;
    } else {
      assert (w + rest)[1..] == w[1..] + rest;
      RunLengthOfWord(w[1..], rest);
    }
  }

  /** Tokenising tokens joined by single spaces gives the tokens back. */
  lemma {:induction false} WordsOfJoin(ws: seq<string>)
    requires forall k :: 0 <= k < |ws| ==> IsWord(ws[k])
    ensures Words(Join(ws, ' ')) == ws
  {
    if |ws| == 1 {
      WordsOfWord(ws[0]);
    } else if |ws| > 1 {
      var w, rest := ws[0], Join(ws[1..], ' ');
      var s := w + (" " + rest);
      assert Join(ws, ' ') == s;
      RunLengthOfWord(w, " " + rest);
      assert s[..|w|] == w;
      assert s[|w|..] == " " + rest;
      assert (" " + rest)[1..] == rest;
      WordsOfJoin(ws[1..]);
    }
  }

  /** `s.split(sep)`: the pieces of `s` between occurrences of `sep`; there is always at least one. */
  function Split(s: string, sep: char): (parts: seq<string>)
    ensures |parts| >= 1
    ensures forall k :: 0 <= k < |parts| ==> sep !in parts[k]
  {
    if s == [] then [""]
    else
      var rest := Split(s[1..], sep);
      if s[0] == sep then [""] + rest else [[s[0]] + rest[0]] + rest[1..]
  }

  /** Splitting on a separator and joining with it gives the string back. */
  lemma {:induction false} JoinSplit(s: string, sep: char)
    ensures Join(Split(s, sep), sep) == s
  {
    if s != [] {
      var rest := Split(s[1..], sep);
      JoinSplit(s[1..], sep);
      if s[0] == sep {
        assert ([""] + rest)[1..] == rest;
      } else if |rest| > 1 {
        assert ([[s[0]] + rest[0]] + rest[1..])[1..] == rest[1..];
      }
    }
  }

  /** The first piece of `s.split(sep)` is the text before the first `sep`, or all of `s`. */
  lemma {:induction false} SplitFirst(s: string, sep: char)
    ensures Split(s, sep)[0] <= s
    ensures |Split(s, sep)[0]| < |s| ==> s[|Split(s, sep)[0]|] == sep
  {
    if s != [] {
      var rest := Split(s[1..], sep);
      SplitFirst(s[1..], sep);
      if s[0] != sep {
        assert [s[0]] + s[1..] == s;
        if |rest[0]| < |s[1..]| {
          assert s[1..][|rest[0]|] == s[|rest[0]| + 1];
        }
      }
    }
  }

  /** A string without the separator splits into itself alone. */
  lemma {:induction false} SplitWithoutSep(s: string, sep: char)
    requires sep !in s
    ensures Split(s, sep) == [s]
  {
    if s != [] {
      assert sep !in s[1..] by {
        forall k | 0 <= k < |s[1..]| ensures s[1..][k] != sep {
          assert s[1..][k] == s[k + 1];
        }
      }
      SplitWithoutSep(s[1..], sep);
      assert s[0] != sep;
      assert [s[0]] + s[1..] == s;
    }
  }

  /** The pieces around the first separator: splitting `a + [sep] + b` with `sep` not in `a`. */
  lemma {:induction false} SplitAtFirst(a: string, b: string, sep: char)
    requires sep !in a
    ensures Split(a + [sep] + b, sep) == [a] + Split(b, sep)
    decreases |a|
  {
    if a == [] {
      assert a + [sep] + b == [sep] + b;
      assert ([sep] + b)[1..] == b;
    } else {
      assert (a + [sep] + b)[1..] == a[1..] + [sep] + b;
      assert sep !in a[1..] by {
        forall k | 0 <= k < |a[1..]| ensures a[1..][k] != sep {
          assert a[1..][k] == a[k + 1];
        }
      }
      SplitAtFirst(a[1..], b, sep);
      assert [a[0]] + a[1..] == a;
    }
  }

  // ---------------------------------------------------------------------------
  // Integers: int() on a string, and decimal formatting
  // ---------------------------------------------------------------------------

  predicate IsDigit(c: char) {
    '0' <= c <= '9'
  }

  function DigitValue(c: char): nat
    requires IsDigit(c)
  {
    c as int - '0' as int
  }

  function DigitChar(d: nat): (c: char)
    requires d < 10
    ensures IsDigit(c) && DigitValue(c) == d
  {
    (d + '0' as int) as char
  }

  /**
   * The whitespace `int()` strips around a literal. Non-ASCII whitespace is first
   * turned into a space, and then only ASCII space and '\t' to '\r' are stripped,
   * so the four ASCII separator controls U+001C to U+001F, which `str.split()`
   * splits on, are not stripped.
   */
  predicate IsIntSpace(c: char) {
    IsSpace(c) && !('\U{1C}' <= c <= '\U{1F}')
  }

  /** Number of `int()` whitespace characters at the start of `s`. */
  function LeadingSpaces(s: string): (n: nat)
    ensures n <= |s|
    ensures forall k :: 0 <= k < n ==> IsIntSpace(s[k])
    ensures n == |s| || !IsIntSpace(s[n])
  {
    if s != [] && IsIntSpace(s[0]) then 1 + LeadingSpaces(s[1..]) else 0
  }

  /** Number of `int()` whitespace characters at the end of `s`. */
  function TrailingSpaces(s: string): (n: nat)
    ensures n <= |s|
    ensures forall k :: |s| - n <= k < |s| ==> IsIntSpace(s[k])
    ensures n == |s| || !IsIntSpace(s[|s| - n - 1])
  {
    if s != [] && IsIntSpace(s[|s| - 1]) then 1 + TrailingSpaces(s[..|s| - 1]) else 0
  }

  /** What `int()` parses: `s` without its leading and trailing `int()` whitespace. */
  function Strip(s: string): string {
    var u := s[LeadingSpaces(s)..];
    u[..|u| - TrailingSpaces(u)]
  }

  /**
   * Stripping keeps the middle of `s` in place, shifted by the leading whitespace,
   * and that middle holds every character that is not `int()` whitespace.
   */
  lemma StripKeeps(s: string, k: nat)
    requires k < |s| && !IsIntSpace(s[k])
    ensures forall j :: LeadingSpaces(s) <= j < LeadingSpaces(s) + |Strip(s)| ==> Strip(s)[j - LeadingSpaces(s)] == s[j]
    ensures LeadingSpaces(s) <= k < LeadingSpaces(s) + |Strip(s)|
    ensures Strip(s)[k - LeadingSpaces(s)] == s[k]
  {
    var a := LeadingSpaces(s);
    var u := s[a..];
    assert u[k - a] == s[k];
  }

  /**
   * The digits of a base-10 integer literal as `int()` accepts them: ASCII
   * digits, where single underscores may separate two digits.
   */
  predicate IsDigitGroup(d: string) {
    && |d| > 0 && IsDigit(d[0]) && IsDigit(d[|d| - 1])
    && (forall k :: 0 <= k < |d| ==> IsDigit(d[k]) || d[k] == '_')
    && (forall k :: 0 <= k < |d| - 1 ==> d[k] == '_' ==> d[k + 1] != '_')
  }

  /** The number the digits of `d` spell, underscores ignored. */
  function DigitsValue(d: string): nat {
    if d == [] then 0
    else if IsDigit(d[|d| - 1]) then 10 * DigitsValue(d[..|d| - 1]) + DigitValue(d[|d| - 1])
    else DigitsValue(d[..|d| - 1])
  }

  /** A base-10 integer literal: an optional sign, then a digit group. */
  predicate IsIntLiteral(t: string) {
    || IsDigitGroup(t)
    || (|t| > 0 && (t[0] == '+' || t[0] == '-') && IsDigitGroup(t[1..]))
  }

  /**
   * `int(s)` in base 10: the integer it denotes, or None where Python raises
   * ValueError. It succeeds exactly on literals once `int()` whitespace is
   * stripped, and gives a negative number only after a minus sign.
   */
  function ParseInt(s: string): (r: Option<int>)
    ensures r.Some? <==> IsIntLiteral(Strip(s))
    ensures r.Some? && r.value < 0 ==> Strip(s)[0] == '-'
  {
    var t := Strip(s);
    if |t| > 0 && (t[0] == '+' || t[0] == '-') then
      if IsDigitGroup(t[1..]) then
        var v: int := DigitsValue(t[1..]);
        Some(if t[0] == '-' then -v else v)
      else None
    else if IsDigitGroup(t) then Some(DigitsValue(t))
    else None
  }

  /** The decimal digits of `n`, most significant first, without leading zeros. */
  function ShowNat(n: nat): (s: string)
    ensures |s| > 0 && forall k :: 0 <= k < |s| ==> IsDigit(s[k])
  {
    if n < 10 then [DigitChar(n)] else ShowNat(n / 10) + [DigitChar(n % 10)]
  }

  /** `str(n)` for an integer: a minus sign for negative numbers, then the digits. */
  function ShowInt(n: int): string {
    if n < 0 then "-" + ShowNat(-n) else ShowNat(n)
  }

  lemma {:induction false} DigitsValueOfShowNat(n: nat)
    ensures DigitsValue(ShowNat(n)) == n
  {
    if n >= 10 {
      var s := ShowNat(n);
      assert s[..|s| - 1] == ShowNat(n / 10);
      DigitsValueOfShowNat(n / 10);
    }
  }

  /** A string that starts and ends with a non-whitespace character is its own strip. */
  lemma StripUnspaced(s: string)
    requires |s| > 0 && !IsIntSpace(s[0]) && !IsIntSpace(s[|s| - 1])
    ensures Strip(s) == s
  {
    assert s[0..] == s;
    assert s[..|s|] == s;
  }

  /** Leading `int()` whitespace adds to the count of leading whitespace. */
  lemma {:induction false} LeadingSpacesAppend(a: string, u: string)
    requires forall k :: 0 <= k < |a| ==> IsIntSpace(a[k])
    ensures LeadingSpaces(a + u) == |a| + LeadingSpaces(u)
  {
    if a != [] {
      assert (a + u)[1..] == a[1..] + u;
      LeadingSpacesAppend(a[1..], u);
    } else {
      assert a + u == u;
    }
  }

  /** Trailing `int()` whitespace adds to the count of trailing whitespace. */
  lemma {:induction false} TrailingSpacesAppend(u: string, b: string)
    requires forall k :: 0 <= k < |b| ==> IsIntSpace(b[k])
    ensures TrailingSpaces(u + b) == |b| + TrailingSpaces(u)
    decreases |b|
  {
    if b != [] {
      assert (u + b)[..|u + b| - 1] == u + b[..|b| - 1];
      TrailingSpacesAppend(u, b[..|b| - 1]);
    } else {
      assert u + b == u;
    }
  }

  /** Whitespace around a literal does not change what `int()` reads. */
  lemma ParseIntSpaced(a: string, t: string, b: string)
    requires forall k :: 0 <= k < |a| ==> IsIntSpace(a[k])
    requires forall k :: 0 <= k < |b| ==> IsIntSpace(b[k])
    requires |t| > 0 && !IsIntSpace(t[0]) && !IsIntSpace(t[|t| - 1])
    ensures ParseInt(a + t + b) == ParseInt(t)
  {
    var s := a + t + b;
    LeadingSpacesAppend(a, t + b);
    assert s == a + (t + b);
    assert LeadingSpaces(t + b) == 0 by {
      assert (t + b)[0] == t[0];
    }
    assert s[|a|..] == t + b;
    TrailingSpacesAppend(t, b);
    assert TrailingSpaces(t) == 0;
    assert (t + b)[..|t|] == t;
    assert Strip(s) == t;
    StripUnspaced(t);
  }

  /** An underscore between digits does not change their value. */
  lemma {:induction false} DigitsValueUnderscore(x: string, y: string)
    ensures DigitsValue(x + "_" + y) == DigitsValue(x + y)
    decreases |y|
  {
    if y == [] {
      assert (x + "_" + y)[..|x|] == x;
      assert x + y == x;
    } else {
      var init := y[..|y| - 1];
      assert (x + "_" + y)[..|x + "_" + y| - 1] == x + "_" + init;
      assert (x + y)[..|x + y| - 1] == x + init;
      DigitsValueUnderscore(x, init);
    }
  }

  /** A leading zero does not change the value of a digit string. */
  lemma {:induction false} DigitsValueLeadingZero(d: string)
    ensures DigitsValue("0" + d) == DigitsValue(d)
    decreases |d|
  {
    if d == [] {
      assert ("0" + d)[..0] == [];
    } else {
      var init := d[..|d| - 1];
      assert ("0" + d)[..|"0" + d| - 1] == "0" + init;
      DigitsValueLeadingZero(init);
    }
  }

  /**
   * The value of a literal: a digit group reads as the number its digits spell,
   * with a plus sign as the same number and with a minus sign as its negation.
   */
  lemma ParseLiteral(d: string)
    requires IsDigitGroup(d)
    ensures ParseInt(d) == Some(DigitsValue(d))
    ensures ParseInt("+" + d) == Some(DigitsValue(d))
    ensures ParseInt("-" + d) == Some(-(DigitsValue(d) as int))
  {
    StripUnspaced(d);
    assert !(d[0] == '+' || d[0] == '-');
    SignedLiteral('+', d);
    SignedLiteral('-', d);
    assert "+" + d == ['+'] + d;
    assert "-" + d == ['-'] + d;
  }

  lemma SignedLiteral(sign: char, d: string)
    requires IsDigitGroup(d) && (sign == '+' || sign == '-')
    ensures sign == '+' ==> ParseInt([sign] + d) == Some(DigitsValue(d))
    ensures sign == '-' ==> ParseInt([sign] + d) == Some(-(DigitsValue(d) as int))
  {
    var s := [sign] + d;
    assert s[|s| - 1] == d[|d| - 1];
    StripUnspaced(s);
    assert s[1..] == d;
  }

  /** `int(str(n)) == n`: reading back the decimal form of an integer gives the integer. */
  lemma ParseShowInt(n: int)
    ensures ParseInt(ShowInt(n)) == Some(n)
  {
    var s := ShowInt(n);
    var d := ShowNat(if n < 0 then -n else n);
    DigitsValueOfShowNat(if n < 0 then -n else n);
    assert IsDigitGroup(d);
    StripUnspaced(s);
    if n < 0 {
      assert s[1..] == d;
    }
  }

  /** `int(s)` fails on any string with a character that cannot occur in an integer literal. */
  lemma ParseIntRejectsForeign(s: string, k: nat)
    requires k < |s|
    requires !IsIntSpace(s[k]) && !IsDigit(s[k]) && s[k] != '_' && s[k] != '+' && s[k] != '-'
    ensures ParseInt(s) == None
  {
    var t := Strip(s);
    var i := k - LeadingSpaces(s);
    StripKeeps(s, k);
    if |t| > 0 && (t[0] == '+' || t[0] == '-') {
      assert i > 0;
      assert t[1..][i - 1] == s[k];
    }
  }

  /**
   * The separator controls U+001C to U+001F are whitespace to `str.split()` but
   * not to `int()`: a literal preceded by one splits as the literal alone, yet
   * does not parse.
   */
  lemma SeparatorControls(c: char, d: string)
    requires '\U{1C}' <= c <= '\U{1F}'
    ensures Words([c] + d) == Words(d)
    ensures ParseInt([c] + d) == None
  {
    assert ([c] + d)[1..] == d;
    ParseIntRejectsForeign([c] + d, 0);
  }
}
