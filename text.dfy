/** String primitives the modelled Rust code relies on: `str::find`, `str::rfind`,
    `str::trim`, and decimal formatting of unsigned integers (`format!("{}", n)`
    and `format!("{:02}", n)`).

    Strings are sequences of Unicode scalar values. Every pattern searched for in
    this model is ASCII, so a byte offset in the Rust code and a character offset
    here always delimit the same substring. */
module Text {
  import opened Wrappers

  // ---------------------------------------------------------------------------
  // Searching

  /** `pat` occurs in `s` starting at index `i`. */
  predicate IsAt(s: string, pat: string, i: nat) {
    i + |pat| <= |s| && s[i..i + |pat|] == pat
  }

  /** `pat` occurs somewhere in `s`. */
  predicate Contains(s: string, pat: string) {
    exists i: nat :: i <= |s| && IsAt(s, pat, i)
  }

  /** `str::find`: the first index at which `pat` occurs, if any (that it is the
      first is `FindFirst`). */
  function Find(s: string, pat: string): (r: Option<nat>)
    ensures r.Some? ==> IsAt(s, pat, r.value)
  {
    FindFrom(s, pat, 0)
  }

  /** The first index at or after `from` at which `pat` occurs. */
  function FindFrom(s: string, pat: string, from: nat): (r: Option<nat>)
    requires from <= |s|
    decreases |s| - from
    ensures r.Some? ==> from <= r.value && IsAt(s, pat, r.value)
  {
    if IsAt(s, pat, from) then Some(from)
    else if from == |s| then None
    else FindFrom(s, pat, from + 1)
  }

  /** `FindFrom` skips no occurrence: none lies between `from` and the index it
      returns, and none lies at or after `from` when it returns `None`. */
  lemma {:induction false} FindFromFirst(s: string, pat: string, from: nat)
    requires from <= |s|
    decreases |s| - from
    ensures var r := FindFrom(s, pat, from);
      && (r.Some? ==> forall j: nat :: from <= j < r.value ==> !IsAt(s, pat, j))
      && (r.None? ==> forall j: nat :: from <= j ==> !IsAt(s, pat, j))
  {
    if !IsAt(s, pat, from) && from < |s| {
      FindFromFirst(s, pat, from + 1);
    }
  }

  /** `Find` returns the first occurrence, and `None` only when there is none. */
  lemma FindFirst(s: string, pat: string)
    ensures Find(s, pat).Some? ==> forall j: nat :: j < Find(s, pat).value ==> !IsAt(s, pat, j)
    ensures Find(s, pat).None? ==> forall j: nat :: !IsAt(s, pat, j)
  {
    FindFromFirst(s, pat, 0);
  }

  /** `i` is the first index at which `pat` occurs in `s`. */
  predicate FirstAt(s: string, pat: string, i: nat) {
    IsAt(s, pat, i) && forall j: nat :: j < i ==> !IsAt(s, pat, j)
  }

  /** `Find` returns the first occurrence: its result is determined by it. */
  lemma FindFirstAt(s: string, pat: string, i: nat)
    requires FirstAt(s, pat, i)
    ensures Find(s, pat) == Some(i)
  {
    FindFirst(s, pat);
  }

  /** A pattern that starts `rest` occurs first right after a prefix that lacks
      the pattern's first character. */
  lemma FirstAtAfter(pre: string, pat: string, rest: string)
    requires |pat| > 0 && pat[0] !in pre && pat <= rest
    ensures FirstAt(pre + rest, pat, |pre|)
  {
    var s := pre + rest;
    assert s[|pre|..|pre| + |pat|] == rest[..|pat|];
    forall j: nat | j < |pre| ensures !IsAt(s, pat, j) {
      if j + |pat| <= |s| {
        assert s[j..j + |pat|][0] == pre[j];
      }
    }
  }

  /** A pattern occurs where it is placed. */
  lemma ContainsMiddle(a: string, pat: string, b: string)
    ensures Contains(a + pat + b, pat)
  {
    assert (a + pat + b)[|a|..|a| + |pat|] == pat;
    assert IsAt(a + pat + b, pat, |a|);
  }

  /** A pattern whose first character does not occur does not occur. */
  lemma AbsentHead(s: string, pat: string)
    requires |pat| > 0 && pat[0] !in s
    ensures forall j: nat :: !IsAt(s, pat, j)
  {
    forall j: nat ensures !IsAt(s, pat, j) {
      if j + |pat| <= |s| {
        assert s[j..j + |pat|][0] == s[j];
      }
    }
  }

  /** A one-character pattern occurs exactly where that character stands. */
  lemma IsAtChar(s: string, c: char, i: nat)
    ensures IsAt(s, [c], i) <==> i < |s| && s[i] == c
  {
    if i < |s| {
      assert s[i..i + 1] == [s[i]];
    }
  }

  /** `str::rfind` for a character: the last index holding `c`, if any (that it
      is the last is `RFindCharLast`). */
  function RFindChar(s: string, c: char): (r: Option<nat>)
    ensures r.Some? ==> r.value < |s| && s[r.value] == c
  {
    if |s| == 0 then None
    else if s[|s| - 1] == c then Some(|s| - 1)
    else RFindChar(s[..|s| - 1], c)
  }

  /** No `c` follows the index `RFindChar` returns, and none occurs at all when it
      returns `None`. */
  lemma {:induction false} RFindCharLast(s: string, c: char)
    ensures RFindChar(s, c).Some? ==> forall j :: RFindChar(s, c).value < j < |s| ==> s[j] != c
    ensures RFindChar(s, c).None? ==> forall j :: 0 <= j < |s| ==> s[j] != c
  {
    if |s| > 0 && s[|s| - 1] != c {
      var init := s[..|s| - 1];
      RFindCharLast(init, c);
      assert forall j :: 0 <= j < |init| ==> init[j] == s[j];
    }
  }

  /** `RFindChar` returns an index holding `c` with no `c` after it. */
  lemma RFindCharAt(s: string, c: char, i: nat)
    requires i < |s| && s[i] == c && forall j :: i < j < |s| ==> s[j] != c
    ensures RFindChar(s, c) == Some(i)
  {
    RFindCharLast(s, c);
  }

  // ---------------------------------------------------------------------------
  // Trimming

  /** Rust's `char::is_whitespace`: the Unicode White_Space property. */
  predicate IsWhitespace(c: char) {
    || ('\t' <= c <= '\r')
    || c == ' '
    || c == '\U{85}'
    || c == '\U{A0}'
    || c == '\U{1680}'
    || ('\U{2000}' <= c <= '\U{200A}')
    || c == '\U{2028}'
    || c == '\U{2029}'
    || c == '\U{202F}'
    || c == '\U{205F}'
    || c == '\U{3000}'
  }

  /** Every character of `s` is white space (vacuously true of ""). */
  predicate IsBlank(s: string) {
    forall i :: 0 <= i < |s| ==> IsWhitespace(s[i])
  }

  /** `str::trim_start`: the suffix of `s` left once the white space at its
      start is removed; it does not start with white space (that only white
      space was removed is `TrimStartRemovesWhitespace`). */
  function TrimStart(s: string): (r: string)
    ensures |r| <= |s|
    ensures r != [] ==> !IsWhitespace(r[0])
  {
    if |s| > 0 && IsWhitespace(s[0]) then TrimStart(s[1..]) else s
  }

  /** `str::trim_end`: the prefix of `s` left once the white space at its end is
      removed; it does not end with white space. */
  function TrimEnd(s: string): (r: string)
    ensures |r| <= |s|
    ensures r != [] ==> !IsWhitespace(r[|r| - 1])
  {
    if |s| > 0 && IsWhitespace(s[|s| - 1]) then TrimEnd(s[..|s| - 1]) else s
  }

  /** `TrimStart` keeps a suffix and removes only white space. */
  lemma {:induction false} TrimStartRemovesWhitespace(s: string)
    ensures TrimStart(s) == s[|s| - |TrimStart(s)|..]
    ensures forall i :: 0 <= i < |s| - |TrimStart(s)| ==> IsWhitespace(s[i])
  {
    if |s| > 0 && IsWhitespace(s[0]) {
      var tail := s[1..];
      TrimStartRemovesWhitespace(tail);
      assert tail[|tail| - |TrimStart(tail)|..] == s[|s| - |TrimStart(tail)|..];
      assert forall i :: 1 <= i < |s| ==> tail[i - 1] == s[i];
    }
  }

  /** `TrimEnd` keeps a prefix and removes only white space. */
  lemma {:induction false} TrimEndRemovesWhitespace(s: string)
    ensures TrimEnd(s) == s[..|TrimEnd(s)|]
    ensures forall i :: |TrimEnd(s)| <= i < |s| ==> IsWhitespace(s[i])
  {
    if |s| > 0 && IsWhitespace(s[|s| - 1]) {
      var init := s[..|s| - 1];
      TrimEndRemovesWhitespace(init);
      assert init[..|TrimEnd(init)|] == s[..|TrimEnd(init)|];
      assert forall i :: 0 <= i < |init| ==> init[i] == s[i];
    }
  }

  /** `str::trim`: white space removed from both ends; what is left neither
      starts nor ends with white space. */
  function Trim(s: string): (r: string)
    ensures |r| <= |s|
    ensures r != [] ==> !IsWhitespace(r[0]) && !IsWhitespace(r[|r| - 1])
  {
    TrimEndRemovesWhitespace(TrimStart(s));
    TrimEnd(TrimStart(s))
  }

  /** Trimming leaves nothing exactly when the text is all white space. */
  lemma TrimEmptyIffBlank(s: string)
    ensures Trim(s) == [] <==> IsBlank(s)
  {
    var t := TrimStart(s);
    TrimStartRemovesWhitespace(s);
    TrimEndRemovesWhitespace(t);
    if t != [] {
      assert t[0] == s[|s| - |t|];
      assert !IsBlank(s);
      assert !IsWhitespace(t[0]);
    }
  }

  /** Text that starts and ends with a non-white-space character trims to itself. */
  lemma TrimKeepsSolidText(s: string)
    requires |s| > 0 && !IsWhitespace(s[0]) && !IsWhitespace(s[|s| - 1])
    ensures Trim(s) == s
  {
  }

  // ---------------------------------------------------------------------------
  // Decimal numbers

  predicate IsDigit(c: char) {
    '0' <= c <= '9'
  }

  predicate AllDigits(s: string) {
    forall i :: 0 <= i < |s| ==> IsDigit(s[i])
  }

  function DigitChar(d: nat): (c: char)
    requires d < 10
    ensures IsDigit(c)
  {
    (48 + d) as char
  }

  function DigitValue(c: char): (d: nat)
    requires IsDigit(c)
    ensures d < 10
  {
    (c as int) - 48
  }

  /** `format!("{}", n)` for an unsigned integer: its decimal digits, most
      significant first, without leading zeros. */
  function NatToString(n: nat): (r: string)
    ensures |r| >= 1 && AllDigits(r)
    ensures |r| > 1 ==> r[0] != '0'
    ensures n < 10 <==> |r| == 1
  {
    if n < 10 then [DigitChar(n)] else NatToString(n / 10) + [DigitChar(n % 10)]
  }

  /** Reads a string of decimal digits, most significant first. */
  function ParseDecimal(s: string): nat
    requires AllDigits(s)
  {
    if |s| == 0 then 0 else ParseDecimal(s[..|s| - 1]) * 10 + DigitValue(s[|s| - 1])
  }

  /** Reading back the decimal text of `n` yields `n`. */
  lemma {:induction false} ParseNatToString(n: nat)
    ensures ParseDecimal(NatToString(n)) == n
  {
    if n >= 10 {
      var s := NatToString(n);
      assert s[..|s| - 1] == NatToString(n / 10);
      ParseNatToString(n / 10);
    }
  }

  /** Different numbers have different decimal texts. */
  lemma NatToStringInjective(m: nat, n: nat)
    requires NatToString(m) == NatToString(n)
    ensures m == n
  {
    ParseNatToString(m);
    ParseNatToString(n);
  }

  /** `format!("{:02}", n)`: the decimal text of `n`, left-padded with `0` to at
      least two characters. */
  function ZeroPad2(n: nat): (r: string)
    ensures AllDigits(r)
    ensures |r| == if n < 10 then 2 else |NatToString(n)|
  {
    var d := NatToString(n);
    if |d| < 2 then "0" + d else d
  }

  /** Reading back the padded text yields `n`, so the padding loses nothing. */
  lemma ParseZeroPad2(n: nat)
    ensures ParseDecimal(ZeroPad2(n)) == n
  {
    ParseNatToString(n);
    var d := NatToString(n);
    if |d| < 2 {
      var p := "0" + d;
      assert p[..|p| - 1] == "0";
      assert ParseDecimal("0") == 0 by {
        assert ("0")[..0] == [];
      }
    }
  }
}
