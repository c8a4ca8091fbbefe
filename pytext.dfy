/**
 * The pieces of Python's own behaviour that the routing code relies on:
 * `str.lower()` restricted to ASCII, `os.path.splitext` for POSIX paths
 * (separator `/`, extension separator `.`), and `int()` applied to a string.
 */
module PyText {
  import opened Wrappers

  // ---------------------------------------------------------------------
  // ASCII lower-casing
  // ---------------------------------------------------------------------

  function LowerChar(c: char): char {
    if 'A' <= c <= 'Z' then (c as int + 32) as char else c
  }

  /** `s.lower()` for ASCII letters; every other character is kept. */
  function Lower(s: string): (r: string)
    ensures |r| == |s|
    ensures forall i :: 0 <= i < |s| ==> r[i] == LowerChar(s[i])
  {
    seq(|s|, i requires 0 <= i < |s| => LowerChar(s[i]))
  }

  /** Lower-casing never creates or removes a `.` or a `/`. */
  lemma LowerCharKeepsSeparators(c: char)
    ensures LowerChar(c) == '.' <==> c == '.'
    ensures LowerChar(c) == '/' <==> c == '/'
  {
  }

  lemma LowerOfConcat(a: string, b: string)
    ensures Lower(a + b) == Lower(a) + Lower(b)
  {
    assert forall i :: 0 <= i < |a + b| ==> Lower(a + b)[i] == (Lower(a) + Lower(b))[i];
  }

  // ---------------------------------------------------------------------
  // str.rfind for one character
  // ---------------------------------------------------------------------

  /** `s.rfind(c)`: the index of the last `c` in `s`, or -1 when there is none. */
  function LastIndexOf(s: string, c: char): (k: int)
    ensures -1 <= k < |s|
    ensures k >= 0 ==> s[k] == c
    ensures forall j :: k < j < |s| ==> s[j] != c
  {
    if |s| == 0 then -1
    else if s[|s| - 1] == c then |s| - 1
    else LastIndexOf(s[..|s| - 1], c)
  }

  /** The contract of LastIndexOf determines its value. */
  lemma LastIndexOfIs(s: string, c: char, k: int)
    requires -1 <= k < |s|
    requires k >= 0 ==> s[k] == c
    requires forall j :: k < j < |s| ==> s[j] != c
    ensures LastIndexOf(s, c) == k
  {
  }

  lemma LastIndexOfLower(s: string, c: char)
    requires c == '.' || c == '/'
    ensures LastIndexOf(Lower(s), c) == LastIndexOf(s, c)
  {
    var k := LastIndexOf(s, c);
    forall j | k < j < |s|
      ensures Lower(s)[j] != c
    {
      LowerCharKeepsSeparators(s[j]);
    }
    LastIndexOfIs(Lower(s), c, k);
  }

  // ---------------------------------------------------------------------
  // os.path.splitext (POSIX)
  // ---------------------------------------------------------------------

  /**
   * `os.path.splitext(p)` with separator `/`: the split is at the last `.`
   * after the last `/`, and only when the final path component has some
   * character other than `.` before that dot (so leading dots of a
   * dot-file do not start an extension).
   */
  function SplitExt(p: string): (r: (string, string))
    ensures r.0 + r.1 == p
    ensures r.1 == [] || (r.1[0] == '.' && '.' !in r.1[1..] && '/' !in r.1)
  {
    var sepIndex := LastIndexOf(p, '/');
    var dotIndex := LastIndexOf(p, '.');
    if dotIndex > sepIndex && exists i :: sepIndex < i < dotIndex && p[i] != '.' then
      (p[..dotIndex], p[dotIndex..])
    else
      (p, [])
  }

  /** `os.path.splitext(p)[1]`. */
  function Extension(p: string): string {
    SplitExt(p).1
  }

  /** The final path component of `p` has a character other than `.`. */
  predicate BaseHasNonDot(p: string) {
    exists i :: LastIndexOf(p, '/') < i < |p| && p[i] != '.'
  }

  /** Only the final extension counts: `stem + "." + name` has extension `"." + name`. */
  lemma ExtensionIsFinalSuffix(stem: string, name: string)
    requires BaseHasNonDot(stem)
    requires '.' !in name && '/' !in name
    ensures Extension(stem + "." + name) == "." + name
  {
    var p := stem + "." + name;
    var sep := LastIndexOf(stem, '/');
    forall j | sep < j < |p|
      ensures p[j] != '/'
    {
      if j < |stem| {
        assert p[j] == stem[j];
      } else if j > |stem| {
        assert p[j] == name[j - |stem| - 1];
      }
    }
    LastIndexOfIs(p, '/', sep);
    forall j | |stem| < j < |p|
      ensures p[j] != '.'
    {
      assert p[j] == name[j - |stem| - 1];
    }
    LastIndexOfIs(p, '.', |stem|);
    var i :| sep < i < |stem| && stem[i] != '.';
    assert p[i] == stem[i];
    assert p[|stem|..] == "." + name;
  }

  /**
   * A dot-file has no extension: a final component made of one or more dots
   * followed by a name without dots (".txt", "dir/..md") splits off nothing.
   */
  lemma DotFileHasNoExtension(dir: string, dots: string, name: string)
    requires dir == [] || dir[|dir| - 1] == '/'
    requires |dots| > 0 && forall i :: 0 <= i < |dots| ==> dots[i] == '.'
    requires '.' !in name && '/' !in name
    ensures Extension(dir + dots + name) == []
  {
    var p := dir + dots + name;
    var sep := |dir| - 1;
    var dot := |dir| + |dots| - 1;
    forall j | sep < j < |p|
      ensures p[j] != '/'
    {
      if j < |dir| + |dots| {
        assert p[j] == dots[j - |dir|];
      } else {
        assert p[j] == name[j - |dir| - |dots|];
      }
    }
    LastIndexOfIs(p, '/', sep);
    assert p[dot] == dots[|dots| - 1];
    forall j | dot < j < |p|
      ensures p[j] != '.'
    {
      assert p[j] == name[j - |dir| - |dots|];
    }
    LastIndexOfIs(p, '.', dot);
    forall i | sep < i < dot
      ensures p[i] == '.'
    {
      assert p[i] == dots[i - |dir|];
    }
  }

  /** A final path component without any dot has no extension. */
  lemma NoDotInBaseMeansNoExtension(p: string)
    requires forall i :: LastIndexOf(p, '/') < i < |p| ==> p[i] != '.'
    ensures Extension(p) == []
  {
  }

  /** Extension-taking commutes with ASCII lower-casing. */
  lemma ExtensionOfLower(p: string)
    ensures Extension(Lower(p)) == Lower(Extension(p))
  {
    var q := Lower(p);
    LastIndexOfLower(p, '/');
    LastIndexOfLower(p, '.');
    forall i | 0 <= i < |p|
      ensures (q[i] != '.') == (p[i] != '.')
    {
      LowerCharKeepsSeparators(p[i]);
    }
    var dot := LastIndexOf(p, '.');
    if dot >= 0 {
      assert q[dot..] == Lower(p[dot..]);
    }
  }

  // ---------------------------------------------------------------------
  // int() of a string, base 10
  // ---------------------------------------------------------------------

  /**
   * The ASCII characters Python's `int()` strips around an ASCII argument:
   * tab, line feed, vertical tab, form feed, carriage return and space.
   * The separators 0x1C-0x1F count as space for `str.isspace()` but not here.
   */
  predicate IsAsciiSpace(c: char) {
    var n := c as int;
    n == 32 || 9 <= n <= 13
  }

  predicate IsDigit(c: char) {
    '0' <= c <= '9'
  }

  predicate AllDigits(s: string) {
    forall i :: 0 <= i < |s| ==> IsDigit(s[i])
  }

  /** `s` with its leading whitespace removed. */
  function StripLeading(s: string): string {
    if |s| > 0 && IsAsciiSpace(s[0]) then StripLeading(s[1..]) else s
  }

  /** `s` with its trailing whitespace removed. */
  function StripTrailing(s: string): string {
    if |s| > 0 && IsAsciiSpace(s[|s| - 1]) then StripTrailing(s[..|s| - 1]) else s
  }

  function Strip(s: string): string {
    StripTrailing(StripLeading(s))
  }

  /** The value of a string of decimal digits, most significant first. */
  function DigitsValue(s: string): nat
    requires AllDigits(s)
  {
    if |s| == 0 then 0
    else DigitsValue(s[..|s| - 1]) * 10 + (s[|s| - 1] as int - '0' as int)
  }

  /** `int(s)`: None where Python raises ValueError. */
  function ParseInt(s: string): Option<int> {
    ParseStripped(Strip(s))
  }

  /** `int()` of an argument whose surrounding whitespace is already gone. */
  function ParseStripped(t: string): Option<int> {
    if |t| > 1 && (t[0] == '+' || t[0] == '-') && AllDigits(t[1..]) then
      Some(if t[0] == '-' then -(DigitsValue(t[1..]) as int) else DigitsValue(t[1..]))
    else if |t| > 0 && AllDigits(t) then
      Some(DigitsValue(t))
    else
      None
  }

  function DigitChar(d: nat): (c: char)
    requires d < 10
    ensures IsDigit(c) && c as int - '0' as int == d
  {
    ('0' as int + d) as char
  }

  /** The decimal spelling of `n`, as `str(n)` writes it. */
  function Decimal(n: nat): (s: string)
    ensures |s| > 0 && AllDigits(s)
  {
    if n < 10 then [DigitChar(n)] else Decimal(n / 10) + [DigitChar(n % 10)]
  }

  lemma {:induction false} DecimalValue(n: nat)
    ensures DigitsValue(Decimal(n)) == n
  {
    if n >= 10 {
      DecimalValue(n / 10);
      var s := Decimal(n);
      assert s[..|s| - 1] == Decimal(n / 10);
    }
  }

  /** Leading whitespace is removed up to the first non-space character. */
  lemma {:induction false} StripLeadingPadded(pre: string, x: string)
    requires forall i :: 0 <= i < |pre| ==> IsAsciiSpace(pre[i])
    requires |x| > 0 && !IsAsciiSpace(x[0])
    ensures StripLeading(pre + x) == x
  {
    if |pre| == 0 {
      assert pre + x == x;
    } else {
      assert (pre + x)[0] == pre[0];
      assert (pre + x)[1..] == pre[1..] + x;
      StripLeadingPadded(pre[1..], x);
    }
  }

  /** Trailing whitespace is removed back to the last non-space character. */
  lemma {:induction false} StripTrailingPadded(x: string, post: string)
    requires forall i :: 0 <= i < |post| ==> IsAsciiSpace(post[i])
    requires |x| > 0 && !IsAsciiSpace(x[|x| - 1])
    ensures StripTrailing(x + post) == x
  {
    var s := x + post;
    if |post| == 0 {
      assert s == x;
    } else {
      assert s[|s| - 1] == post[|post| - 1];
      assert s[..|s| - 1] == x + post[..|post| - 1];
      StripTrailingPadded(x, post[..|post| - 1]);
    }
  }

  /** Stripping removes exactly the padding around a word that neither starts nor ends with whitespace. */
  lemma StripPadded(pre: string, w: string, post: string)
    requires forall i :: 0 <= i < |pre| ==> IsAsciiSpace(pre[i])
    requires forall i :: 0 <= i < |post| ==> IsAsciiSpace(post[i])
    requires |w| > 0 && !IsAsciiSpace(w[0]) && !IsAsciiSpace(w[|w| - 1])
    ensures Strip(pre + w + post) == w
  {
    assert pre + w + post == pre + (w + post);
    assert (w + post)[0] == w[0];
    StripLeadingPadded(pre, w + post);
    StripTrailingPadded(w, post);
  }

  /** `int()` reads back what `str()` writes, surrounded by any whitespace. */
  lemma ParseIntOfDecimal(n: nat, pre: string, post: string)
    requires forall i :: 0 <= i < |pre| ==> IsAsciiSpace(pre[i])
    requires forall i :: 0 <= i < |post| ==> IsAsciiSpace(post[i])
    ensures ParseInt(pre + Decimal(n) + post) == Some(n)
  {
    var d := Decimal(n);
    DecimalValue(n);
    StripPadded(pre, d, post);
    assert d[0] != '+' && d[0] != '-';
  }

  /** A minus sign followed by digits reads as the negated digits' value. */
  lemma ParseStrippedNegative(d: string)
    requires |d| > 0 && AllDigits(d)
    ensures ParseStripped("-" + d) == Some(-(DigitsValue(d) as int))
  {
    assert ("-" + d)[1..] == d;
  }

  /** A minus sign and digits, surrounded by whitespace, read as the negated digits' value. */
  lemma ParseIntOfPaddedNegative(pre: string, d: string, post: string)
    requires forall i :: 0 <= i < |pre| ==> IsAsciiSpace(pre[i])
    requires forall i :: 0 <= i < |post| ==> IsAsciiSpace(post[i])
    requires |d| > 0 && AllDigits(d)
    ensures ParseInt(pre + ("-" + d) + post) == Some(-(DigitsValue(d) as int))
  {
    var m := "-" + d;
    assert m[0] == '-' && m[|m| - 1] == d[|d| - 1];
    StripPadded(pre, m, post);
    ParseStrippedNegative(d);
    assert ParseInt(pre + m + post) == ParseStripped(m);
  }

  /** `int()` reads back a minus sign followed by what `str()` writes, surrounded by any whitespace. */
  lemma ParseIntOfNegatedDecimal(n: nat, pre: string, post: string)
    requires forall i :: 0 <= i < |pre| ==> IsAsciiSpace(pre[i])
    requires forall i :: 0 <= i < |post| ==> IsAsciiSpace(post[i])
    ensures ParseInt(pre + ("-" + Decimal(n)) + post) == Some(-(n as int))
  {
    DecimalValue(n);
    ParseIntOfPaddedNegative(pre, Decimal(n), post);
  }

  /** `int()` does not strip an information separator: "\x1c5" and "5\x1f" are rejected. */
  lemma SeparatorIsNotStripped()
    ensures ParseInt("\U{1C}5") == None
    ensures ParseInt("5\U{1F}") == None
  {
    var s := "\U{1C}5";
    assert !IsAsciiSpace(s[0]) && !IsAsciiSpace(s[1]);
    assert Strip(s) == s;
    assert !IsDigit(s[0]);
    var t := "5\U{1F}";
    assert !IsAsciiSpace(t[0]) && !IsAsciiSpace(t[1]);
    assert Strip(t) == t;
    assert !IsDigit(t[1]);
  }
}
