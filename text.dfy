/**
 * The few Python string operations the pipeline relies on: lower-casing,
 * prefix and suffix tests, whitespace stripping, joining, splitting on a
 * separator, path suffixes, and the decimal rendering and parsing of
 * natural numbers.
 */
module Text {

  /** str.lower on the ASCII range. */
  function LowerChar(c: char): char
  {
    if 'A' <= c <= 'Z' then (c as int + 32) as char else c
  }

  function Lower(s: string): string
  {
    seq(|s|, i requires 0 <= i < |s| => LowerChar(s[i]))
  }

  predicate StartsWith(s: string, prefix: string)
  {
    |prefix| <= |s| && s[..|prefix|] == prefix
  }

  predicate EndsWith(s: string, suffix: string)
  {
    |suffix| <= |s| && s[|s| - |suffix|..] == suffix
  }

  /** The characters for which str.isspace holds (the ones str.strip removes). */
  predicate IsSpace(c: char)
  {
    c == ' ' || '\t' <= c <= '\r' || '\U{1c}' <= c <= '\U{1f}' || c == '\U{85}' || c == '\U{a0}'
    || c == '\U{1680}' || '\U{2000}' <= c <= '\U{200a}' || c == '\U{2028}' || c == '\U{2029}'
    || c == '\U{202f}' || c == '\U{205f}' || c == '\U{3000}'
  }

  function TrimStart(s: string): string
  {
    if |s| > 0 && IsSpace(s[0]) then TrimStart(s[1..]) else s
  }

  function TrimEnd(s: string): string
  {
    if |s| > 0 && IsSpace(s[|s| - 1]) then TrimEnd(s[..|s| - 1]) else s
  }

  /** str.strip() with no argument. */
  function Strip(s: string): string
  {
    TrimEnd(TrimStart(s))
  }

  /** sep.join(parts). */
  function Join(parts: seq<string>, sep: string): string
  {
    if |parts| == 0 then ""
    else if |parts| == 1 then parts[0]
    else parts[0] + sep + Join(parts[1..], sep)
  }

  /** Joining parts that are all non-empty gives "" only when there are no parts. */
  lemma JoinEmpty(parts: seq<string>, sep: string)
    requires forall i :: 0 <= i < |parts| ==> parts[i] != ""
    ensures Join(parts, sep) == "" <==> parts == []
  {
    if |parts| >= 2 {
      assert Join(parts, sep) == parts[0] + sep + Join(parts[1..], sep);
    }
  }

  /** The index of the last occurrence of c in s, or -1 (str.rfind). */
  function RFind(s: string, c: char): (r: int)
    ensures -1 <= r < |s|
    ensures r >= 0 ==> s[r] == c
    ensures forall j :: r < j < |s| ==> s[j] != c
  {
    if |s| == 0 then -1
    else if s[|s| - 1] == c then |s| - 1
    else RFind(s[..|s| - 1], c)
  }

  /** RFind is the last position holding c: any such position is the one it returns. */
  lemma {:induction false} RFindIsLast(s: string, c: char, k: nat)
    requires k < |s| && s[k] == c
    requires forall j :: k < j < |s| ==> s[j] != c
    ensures RFind(s, c) == k
  {
    if k < |s| - 1 {
      var t := s[..|s| - 1];
      assert forall j :: k < j < |t| ==> t[j] == s[j];
      RFindIsLast(t, c, k);
    }
  }

  /** Without an occurrence of c, RFind answers -1. */
  lemma {:induction false} RFindAbsent(s: string, c: char)
    requires c !in s
    ensures RFind(s, c) == -1
  {
    if |s| > 0 {
      var t := s[..|s| - 1];
      assert forall x :: x in t ==> x in s;
      RFindAbsent(t, c);
    }
  }

  /** A name without slashes whose only dot starts `ext` has `ext` as its suffix. */
  lemma PathSuffixOfPlainName(base: string, ext: string)
    requires |base| > 0 && '/' !in base && '.' !in base
    requires |ext| >= 2 && ext[0] == '.' && '/' !in ext && '.' !in ext[1..]
    ensures PathSuffix(base + ext) == ext
  {
    NoSlashInPlainName(base, ext);
    LastDotOfPlainName(base, ext);
    var s := base + ext;
    forall j | 0 <= j < |s| ensures s[j] != '/' {
      if j < |base| { assert s[j] == base[j]; } else { assert s[j] == ext[j - |base|]; }
    }
    NoSlashUntrimmed(s);
    assert s[|base|..] == ext;
  }

  lemma NoSlashInPlainName(base: string, ext: string)
    requires '/' !in base && '/' !in ext
    ensures AfterLast(base + ext, '/') == base + ext
  {
    var s := base + ext;
    assert forall j :: 0 <= j < |s| ==> s[j] != '/';
    RFindAbsent(s, '/');
  }

  lemma LastDotOfPlainName(base: string, ext: string)
    requires |ext| >= 1 && ext[0] == '.' && '.' !in ext[1..]
    ensures RFind(base + ext, '.') == |base|
  {
    var s := base + ext;
    assert forall j :: |base| < j < |s| ==> s[j] == ext[1..][j - |base| - 1];
    RFindIsLast(s, '.', |base|);
  }

  /** s.split(c)[-1]: the text after the last c, or all of s. */
  function AfterLast(s: string, c: char): (r: string)
    ensures EndsWith(s, r)
    ensures c !in r
  {
    s[RFind(s, c) + 1..]
  }

  /**
   * The path without the trailing "/" and "/." components PurePosixPath
   * drops: what is removed is slashes and dots only, and what is left ends
   * in neither.
   */
  function TrimTrailing(p: string): (r: string)
    ensures StartsWith(p, r)
    ensures forall k :: |r| <= k < |p| ==> p[k] == '/' || p[k] == '.'
    ensures |r| > 0 ==> r[|r| - 1] != '/'
    ensures |r| >= 2 ==> !(r[|r| - 2] == '/' && r[|r| - 1] == '.')
    decreases |p|
  {
    if |p| > 0 && p[|p| - 1] == '/' then TrimTrailing(p[..|p| - 1])
    else if |p| >= 2 && p[|p| - 2] == '/' && p[|p| - 1] == '.' then TrimTrailing(p[..|p| - 2])
    else p
  }

  /** A path that ends in neither "/" nor "/." is left as it is. */
  lemma TrimTrailingPlain(p: string)
    requires |p| > 0 ==> p[|p| - 1] != '/'
    requires |p| >= 2 ==> !(p[|p| - 2] == '/' && p[|p| - 1] == '.')
    ensures TrimTrailing(p) == p
  {
  }

  /**
   * PurePosixPath(p).suffix: the final component's text from its last dot,
   * provided that dot is neither its first nor its last character. The
   * final component is taken after trailing "/" and "/." are dropped.
   */
  function PathSuffix(p: string): string
  {
    var name := AfterLast(TrimTrailing(p), '/');
    var i := RFind(name, '.');
    if 0 < i < |name| - 1 then name[i..] else ""
  }

  /** A path without any '/' has nothing to trim. */
  lemma NoSlashUntrimmed(s: string)
    requires forall j :: 0 <= j < |s| ==> s[j] != '/'
    ensures TrimTrailing(s) == s
  {
    TrimTrailingPlain(s);
  }

  /** A trailing "/" or "/." does not change the suffix. */
  lemma PathSuffixIgnoresTrailing(p: string)
    ensures PathSuffix(p + "/") == PathSuffix(p)
    ensures PathSuffix(p + "/.") == PathSuffix(p)
  {
    TrimSlash(p);
    TrimSlashDot(p);
  }

  lemma TrimSlash(p: string)
    ensures TrimTrailing(p + "/") == TrimTrailing(p)
  {
    var q := p + "/";
    assert q[|q| - 1] == '/';
    assert q[..|q| - 1] == p;
  }

  lemma TrimSlashDot(p: string)
    ensures TrimTrailing(p + "/.") == TrimTrailing(p)
  {
    var q := p + "/.";
    assert q[|q| - 1] == '.' && q[|q| - 2] == '/';
    assert q[..|q| - 2] == p;
  }

  /**
   * os.path.splitext(p)[1] on POSIX: from the last dot of the final
   * component, unless everything before that dot in the component is dots.
   */
  function SplitExtension(p: string): string
  {
    var sep := RFind(p, '/');
    var dot := RFind(p, '.');
    if dot > sep && exists k :: sep + 1 <= k < dot && p[k] != '.' then p[dot..] else ""
  }

  predicate IsDigit(c: char)
  {
    '0' <= c <= '9'
  }

  /** str.isdigit on ASCII: non-empty and every character a digit. */
  predicate IsDigits(s: string)
  {
    |s| > 0 && forall i :: 0 <= i < |s| ==> IsDigit(s[i])
  }

  function DigitChar(d: nat): char
    requires d < 10
  {
    ('0' as int + d) as char
  }

  /** str(n) for a natural number. */
  function NatToString(n: nat): string
  {
    if n < 10 then [DigitChar(n)] else NatToString(n / 10) + [DigitChar(n % 10)]
  }

  /** The value of a string of decimal digits. */
  function DigitsValue(s: string): nat
    requires forall i :: 0 <= i < |s| ==> IsDigit(s[i])
  {
    if |s| == 0 then 0
    else
      assert IsDigit(s[|s| - 1]);
      DigitsValue(s[..|s| - 1]) * 10 + (s[|s| - 1] as int - '0' as int)
  }

  /** Rendering a number and reading it back gives the number again. */
  lemma {:induction false} DigitsRoundTrip(n: nat)
    ensures IsDigits(NatToString(n))
    ensures DigitsValue(NatToString(n)) == n
  {
    if n >= 10 {
      DigitsRoundTrip(n / 10);
      var s := NatToString(n);
      assert s[..|s| - 1] == NatToString(n / 10);
    }
  }

  /** A space-free first and last character means stripping changes nothing. */
  lemma StripUnpadded(s: string)
    requires |s| > 0 && !IsSpace(s[0]) && !IsSpace(s[|s| - 1])
    ensures Strip(s) == s
  {
  }

  /** Lower-casing twice is lower-casing once. */
  lemma LowerIdempotent(s: string)
    ensures Lower(Lower(s)) == Lower(s)
  {
  }

  /** If s ends with a suffix free of c, so does the text after its last c. */
  lemma AfterLastKeepsSuffix(s: string, c: char, suffix: string)
    requires EndsWith(s, suffix) && c !in suffix
    ensures EndsWith(AfterLast(s, c), suffix)
  {
    var k := RFind(s, c);
    var start := |s| - |suffix|;
    forall j | start <= j < |s| ensures s[j] != c {
      assert s[j] == s[start..][j - start];
    }
    assert k + 1 <= start;
    DropDrop(s, k + 1, start - (k + 1));
  }

  lemma DropDrop<T>(s: seq<T>, a: nat, b: nat)
    requires a + b <= |s|
    ensures s[a..][b..] == s[a + b..]
  {
  }

  /** One mismatching character among the last |suffix| rules the suffix out. */
  lemma NotEndsWith(s: string, suffix: string, i: nat)
    requires i < |suffix| <= |s| && s[|s| - |suffix| + i] != suffix[i]
    ensures !EndsWith(s, suffix)
  {
    assert s[|s| - |suffix|..][i] == s[|s| - |suffix| + i];
  }

  /** Lower-casing keeps the length and lower-cases each character. */
  lemma LowerSuffix(s: string, suffix: string)
    requires EndsWith(s, suffix)
    ensures EndsWith(Lower(s), Lower(suffix))
  {
    assert Lower(s)[|s| - |suffix|..] == Lower(suffix);
  }
}
