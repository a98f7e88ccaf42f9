/**
 * The pieces of Python's string formatting and `os.path` (POSIX flavour) that the
 * pipeline relies on: decimal rendering (`str(n)`, `f"{n}"`), zero padding
 * (`f"{n:03d}"`), single-character `str.replace`, `posixpath.join`,
 * `posixpath.basename` and `posixpath.splitext`.
 */
module Text {

  predicate IsDigit(c: char) {
    '0' <= c <= '9'
  }

  predicate AllDigits(s: string) {
    forall i :: 0 <= i < |s| ==> IsDigit(s[i])
  }

  function DigitChar(d: nat): (c: char)
    requires d < 10
    ensures IsDigit(c) && c as int - '0' as int == d
  {
    ('0' as int + d) as char
  }

  function DigitValue(c: char): nat
    requires IsDigit(c)
  {
    c as int - '0' as int
  }

  /** Decimal rendering of a non-negative integer, as `str(n)` gives it. */
  function Decimal(n: nat): (s: string)
    ensures |s| >= 1 && AllDigits(s)
    ensures s[0] == '0' ==> n == 0 && s == "0"
    decreases n
  {
    if n < 10 then [DigitChar(n)] else Decimal(n / 10) + [DigitChar(n % 10)]
  }

  /** The value of a string of decimal digits (what `int(s)` gives for such a string). */
  function DecimalValue(s: string): nat
    requires AllDigits(s)
    decreases |s|
  {
    if s == [] then 0 else DecimalValue(s[..|s| - 1]) * 10 + DigitValue(s[|s| - 1])
  }

  /** Reading back a rendered number gives the number. */
  lemma {:induction false} DecimalRoundTrip(n: nat)
    ensures DecimalValue(Decimal(n)) == n
    decreases n
  {
    if n >= 10 {
      var s := Decimal(n);
      assert s[..|s| - 1] == Decimal(n / 10);
      DecimalRoundTrip(n / 10);
    }
  }

  /** Different numbers render differently. */
  lemma DecimalInjective(a: nat, b: nat)
    requires Decimal(a) == Decimal(b)
    ensures a == b
  {
    DecimalRoundTrip(a);
    DecimalRoundTrip(b);
  }

  /** Two digit strings followed by texts that start with a non-digit: equal wholes have equal digit parts. */
  lemma DigitsPrefixEqual(a: string, b: string, s: string, t: string)
    requires AllDigits(a) && AllDigits(b)
    requires |s| > 0 && !IsDigit(s[0]) && |t| > 0 && !IsDigit(t[0])
    requires a + s == b + t
    ensures a == b
  {
    var k := if |a| < |b| then |a| else |b|;
    assert (a + s)[k] == (b + t)[k];
    assert |a| == |b|;
    assert a == (a + s)[..|a|] == (b + t)[..|b|] == b;
  }

  function Repeat(c: char, k: nat): (s: string)
    ensures |s| == k && forall i :: 0 <= i < k ==> s[i] == c
  {
    if k == 0 then "" else Repeat(c, k - 1) + [c]
  }

  /** Leading zeros do not change the value of a digit string. */
  lemma {:induction false} LeadingZerosValue(k: nat, s: string)
    requires AllDigits(s)
    ensures AllDigits(Repeat('0', k) + s)
    ensures DecimalValue(Repeat('0', k) + s) == DecimalValue(s)
    decreases |s|
  {
    var z := Repeat('0', k);
    if s == [] {
      assert z + s == z;
      ZerosValue(k);
    } else {
      var t := z + s;
      assert t[..|t| - 1] == z + s[..|s| - 1];
      LeadingZerosValue(k, s[..|s| - 1]);
    }
  }

  lemma {:induction false} ZerosValue(k: nat)
    ensures AllDigits(Repeat('0', k)) && DecimalValue(Repeat('0', k)) == 0
    decreases k
  {
    if k > 0 {
      var z := Repeat('0', k);
      assert z[..k - 1] == Repeat('0', k - 1);
      ZerosValue(k - 1);
    }
  }

  /**
   * `f"{n:03d}"` for a non-negative `n`: the decimal digits, left-padded with `'0'`
   * to at least three characters.
   */
  function Format03d(n: nat): (s: string)
    ensures AllDigits(s)
    ensures |s| == if |Decimal(n)| >= 3 then |Decimal(n)| else 3
    ensures DecimalValue(s) == n
    ensures |Decimal(n)| >= 3 ==> s == Decimal(n)
  {
    var d := Decimal(n);
    DecimalRoundTrip(n);
    if |d| >= 3 then d
    else
      LeadingZerosValue(3 - |d|, d);
      Repeat('0', 3 - |d|) + d
  }

  /** `s.replace(a, b)` for one-character `a` and `b`. */
  function ReplaceChar(s: string, a: char, b: char): (r: string)
    ensures |r| == |s|
    ensures forall i :: 0 <= i < |s| ==> r[i] == (if s[i] == a then b else s[i])
    ensures a != b ==> a !in r
    decreases |s|
  {
    if s == [] then "" else ReplaceChar(s[..|s| - 1], a, b) + [if s[|s| - 1] == a then b else s[|s| - 1]]
  }

  /** One step of `posixpath.join`: an absolute part restarts the path. */
  function JoinStep(path: string, part: string): string {
    if |part| > 0 && part[0] == '/' then part
    else if path == [] || path[|path| - 1] == '/' then path + part
    else path + "/" + part
  }

  /** `posixpath.join(first, *parts)`. */
  function PosixJoin(first: string, parts: seq<string>): (r: string)
    ensures parts != [] ==> |r| >= |parts[|parts| - 1]| && r[|r| - |parts[|parts| - 1]|..] == parts[|parts| - 1]
    ensures parts != [] && |parts[|parts| - 1]| > 0 && parts[|parts| - 1][0] == '/' ==> r == parts[|parts| - 1]
    decreases |parts|
  {
    if parts == [] then first
    else JoinStep(PosixJoin(first, parts[..|parts| - 1]), parts[|parts| - 1])
  }

  /** The parts glued together with one `'/'` between neighbours. */
  function Slashed(first: string, parts: seq<string>): string
    decreases |parts|
  {
    if parts == [] then first
    else Slashed(first, parts[..|parts| - 1]) + "/" + parts[|parts| - 1]
  }

  /** A non-empty path segment that neither starts nor ends with a separator. */
  predicate PlainSegment(s: string) {
    |s| > 0 && s[0] != '/' && s[|s| - 1] != '/'
  }

  /**
   * When the first part does not end in a separator, every middle part is a plain
   * segment and the last part is not absolute, `posixpath.join` puts exactly one
   * `'/'` between neighbouring parts.
   */
  lemma {:induction false} PosixJoinSlashed(first: string, parts: seq<string>)
    requires |first| > 0 && first[|first| - 1] != '/'
    requires forall i :: 0 <= i < |parts| - 1 ==> PlainSegment(parts[i])
    requires |parts| > 0 ==> parts[|parts| - 1] == [] || parts[|parts| - 1][0] != '/'
    ensures PosixJoin(first, parts) == Slashed(first, parts)
    decreases |parts|
  {
    if parts != [] {
      var init := parts[..|parts| - 1];
      PosixJoinSlashed(first, init);
      var p := Slashed(first, init);
      assert |p| > 0 && p[|p| - 1] != '/' by {
        if init != [] {
          assert PlainSegment(init[|init| - 1]);
        }
      }
    }
  }

  /**
   * The index of the last occurrence of `c` in `s`, or -1 (`str.rfind`).
   */
  function LastIndex(s: string, c: char): (k: int)
    ensures -1 <= k < |s|
    ensures k >= 0 ==> s[k] == c
    ensures forall j :: k < j < |s| ==> s[j] != c
    decreases |s|
  {
    if s == [] then -1
    else if s[|s| - 1] == c then |s| - 1
    else LastIndex(s[..|s| - 1], c)
  }

  /** `posixpath.basename`: everything after the last `'/'`. */
  function Basename(p: string): (b: string)
    ensures '/' !in b
    ensures |b| <= |p| && p[|p| - |b|..] == b
    ensures |b| < |p| ==> p[|p| - |b| - 1] == '/'
  {
    p[LastIndex(p, '/') + 1..]
  }

  /** Some character of `p[lo..hi]` is not a dot. */
  predicate HasNonDot(p: string, lo: int, hi: int)
    requires 0 <= lo <= hi <= |p|
  {
    exists i :: lo <= i < hi && p[i] != '.'
  }

  /**
   * `posixpath.splitext`: the extension starts at the last dot of the last path
   * component, unless every character before that dot in the component is a dot
   * (a leading dot, as in `.bashrc`, does not start an extension).
   */
  function SplitExt(p: string): (r: (string, string))
    ensures r.0 + r.1 == p
    ensures r.1 == [] || (r.1[0] == '.' && '/' !in r.1 && '.' !in r.1[1..])
    ensures r.1 != [] ==> HasNonDot(p, LastIndex(p, '/') + 1, |r.0|)
    ensures (exists i, j :: LastIndex(p, '/') < i < j < |p| && p[i] != '.' && p[j] == '.') ==> r.1 != []
  {
    var sep := LastIndex(p, '/');
    var dot := LastIndex(p, '.');
    if dot > sep && HasNonDot(p, sep + 1, dot) then (p[..dot], p[dot..]) else (p, "")
  }

  /** The base name of `dir + "/" + name` is `name` when `name` holds no separator. */
  lemma BasenameAfterSlash(dir: string, name: string)
    requires '/' !in name
    ensures Basename(dir + "/" + name) == name
  {
    var s := dir + "/" + name;
    var b := Basename(s);
    assert s[|s| - |name| - 1] == '/';
    assert forall j :: |s| - |name| <= j < |s| ==> s[j] == name[j - (|s| - |name|)];
    assert |b| == |name|;
    assert b == s[|s| - |name|..] == name;
  }

  /** A root directory ready to have a relative name appended: a separator is added unless it is empty or ends in one. */
  function DirPrefix(root: string): string {
    if root == [] || root[|root| - 1] == '/' then root else root + "/"
  }

  /** `posixpath.join(root, dir, name)` for a plain directory name and a relative file name. */
  lemma JoinUnderRoot(root: string, dir: string, name: string)
    requires PlainSegment(dir)
    requires name == [] || name[0] != '/'
    ensures PosixJoin(root, [dir, name]) == DirPrefix(root) + dir + "/" + name
  {
    assert [dir, name][..1] == [dir];
    assert [dir][..0] == [];
    var p := DirPrefix(root) + dir;
    assert JoinStep(root, dir) == p;
    assert p[|p| - 1] == dir[|dir| - 1];
    assert PosixJoin(root, [dir]) == p;
    assert PosixJoin(root, [dir, name]) == JoinStep(p, name);
  }
}
