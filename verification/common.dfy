/** Small failure-carrying wrappers used throughout the model. */
module Wrappers {

  datatype Option<+T> = None | Some(value: T) {
    function GetOr(default: T): T {
      match this
      case Some(v) => v
      case None => default
    }
  }

  datatype Result<+R, +E> = Success(value: R) | Failure(error: E)
}

/**
 * The parts of Python's `str` behaviour that the pipeline relies on:
 * `strip`, `splitlines`, `split`, `upper`, `isspace`, `int(...)` and the
 * ASCII digit class of the regular expressions.
 */
module PyText {
  import opened Wrappers

  /** `str.isspace` for one character (the full set Python treats as white space). */
  predicate IsSpace(c: char) {
    var n := c as int;
    (9 <= n <= 13) || (28 <= n <= 32) || n == 0x85 || n == 0xA0 || n == 0x1680
    || (0x2000 <= n <= 0x200A) || n == 0x2028 || n == 0x2029 || n == 0x202F
    || n == 0x205F || n == 0x3000
  }

  /** The characters at which `str.splitlines` ends a line. */
  predicate IsLineBreak(c: char) {
    var n := c as int;
    (10 <= n <= 13) || (28 <= n <= 30) || n == 0x85 || n == 0x2028 || n == 0x2029
  }

  /** `not s or s.isspace()`: the text is empty or white space only. */
  predicate IsBlank(s: string) {
    forall i :: 0 <= i < |s| ==> IsSpace(s[i])
  }

  /** `s.lstrip()`: drops the leading white space. */
  function TrimStart(s: string): string {
    if s != [] && IsSpace(s[0]) then TrimStart(s[1..]) else s
  }

  /** `s.rstrip()`: drops the trailing white space. */
  function TrimEnd(s: string): string {
    if s != [] && IsSpace(s[|s| - 1]) then TrimEnd(s[..|s| - 1]) else s
  }

  /** `s.strip()`. */
  function Strip(s: string): string {
    TrimEnd(TrimStart(s))
  }

  /** `lstrip` keeps a suffix, drops only white space, and stops at the first other character. */
  lemma {:induction false} TrimStartSpec(s: string)
    ensures var r := TrimStart(s);
      |r| <= |s| && r == s[|s| - |r|..] && IsBlank(s[..|s| - |r|]) && (r == [] || !IsSpace(r[0]))
  {
    if s != [] && IsSpace(s[0]) {
      TrimStartSpec(s[1..]);
      var r := TrimStart(s);
      assert s[1..][..|s| - 1 - |r|] == s[1..|s| - |r|];
    }
  }

  /** `rstrip` keeps a prefix, drops only white space, and stops at the last other character. */
  lemma {:induction false} TrimEndSpec(s: string)
    ensures var r := TrimEnd(s);
      r <= s && IsBlank(s[|r|..]) && (r == [] || !IsSpace(r[|r| - 1]))
  {
    if s != [] && IsSpace(s[|s| - 1]) {
      TrimEndSpec(s[..|s| - 1]);
      var r := TrimEnd(s);
      assert s[|r|..] == s[..|s| - 1][|r|..] + [s[|s| - 1]];
    }
  }

  /**
   * `strip` keeps a contiguous middle part: what it drops on either side is
   * white space, and the part kept neither starts nor ends with white space.
   */
  lemma StripSpec(s: string)
    ensures var r := Strip(s);
      exists lo :: 0 <= lo <= |s| - |r| && r == s[lo..lo + |r|]
        && IsBlank(s[..lo]) && IsBlank(s[lo + |r|..])
        && (r == [] || (!IsSpace(r[0]) && !IsSpace(r[|r| - 1])))
  {
    var t := TrimStart(s);
    TrimStartSpec(s);
    TrimEndSpec(t);
    var r := TrimEnd(t);
    var lo := |s| - |t|;
    assert t == s[lo..];
    assert r == t[..|r|];
    assert r == s[lo..lo + |r|];
    assert s[lo + |r|..] == t[|r|..];
    assert IsBlank(s[..lo]) && IsBlank(s[lo + |r|..]);
    assert r == [] || (!IsSpace(r[0]) && !IsSpace(r[|r| - 1])) by {
      if r != [] {
        assert r[0] == t[0];
      }
    }
  }

  /** `s.split(sep)` for a one-character separator: never empty, pieces free of `sep`. */
  function Split(s: string, sep: char): (parts: seq<string>)
    ensures |parts| >= 1
    ensures forall k :: 0 <= k < |parts| ==> sep !in parts[k]
  {
    if s == [] then [""]
    else
      var rest := Split(s[1..], sep);
      if s[0] == sep then [""] + rest
      else [[s[0]] + rest[0]] + rest[1..]
  }

  /** A piece without the separator is split off whole, and the rest is split on. */
  lemma {:induction false} SplitAfter(x: string, sep: char, y: string)
    requires sep !in x
    ensures Split(x + [sep] + y, sep) == [x] + Split(y, sep)
  {
    if x == [] {
      assert (x + [sep] + y)[1..] == y;
    } else {
      assert (x + [sep] + y)[1..] == x[1..] + [sep] + y;
      SplitAfter(x[1..], sep, y);
      assert [x[0]] + x[1..] == x;
    }
  }

  /** A text without the separator is a single piece. */
  lemma {:induction false} SplitWhole(x: string, sep: char)
    requires sep !in x
    ensures Split(x, sep) == [x]
  {
    if x != [] {
      SplitWhole(x[1..], sep);
      assert [x[0]] + x[1..] == x;
    }
  }

  /** `sep.join(parts)`. */
  function Join(parts: seq<string>, sep: char): string
    decreases |parts|
  {
    if parts == [] then ""
    else if |parts| == 1 then parts[0]
    else parts[0] + [sep] + Join(parts[1..], sep)
  }

  /** Joining the pieces of a split gives the text back. */
  lemma {:induction false} JoinSplit(s: string, sep: char)
    ensures Join(Split(s, sep), sep) == s
  {
    if s != [] {
      JoinSplit(s[1..], sep);
      var rest := Split(s[1..], sep);
      if s[0] == sep {
        assert ([""] + rest)[1..] == rest;
        assert s == [sep] + s[1..];
      } else {
        var parts := [[s[0]] + rest[0]] + rest[1..];
        assert parts[1..] == rest[1..];
        if |rest| == 1 {
          assert s == [s[0]] + s[1..];
        } else {
          assert Join(rest, sep) == rest[0] + [sep] + Join(rest[1..], sep);
          assert s == [s[0]] + s[1..];
        }
      }
    }
  }

  /**
   * `text.splitlines()`, as far as the callers can tell: every line-break
   * character ends a line. Python takes "\r\n" as one break and drops a
   * final empty line; both only add empty lines here, which every caller skips.
   */
  function SplitLines(s: string): (lines: seq<string>)
    ensures |lines| >= 1
    ensures forall k :: 0 <= k < |lines| ==> forall i :: 0 <= i < |lines[k]| ==> !IsLineBreak(lines[k][i])
  {
    if s == [] then [""]
    else
      var rest := SplitLines(s[1..]);
      if IsLineBreak(s[0]) then [""] + rest
      else [[s[0]] + rest[0]] + rest[1..]
  }

  function UpperChar(c: char): char {
    if 'a' <= c <= 'z' then (c as int - 'a' as int + 'A' as int) as char else c
  }

  /** `s.upper()` on ASCII letters. */
  function Upper(s: string): string {
    if s == [] then [] else [UpperChar(s[0])] + Upper(s[1..])
  }

  /** Upper-casing maps each character on its own and keeps the length. */
  lemma {:induction false} UpperAt(s: string)
    ensures |Upper(s)| == |s|
    ensures forall i :: 0 <= i < |s| ==> Upper(s)[i] == UpperChar(s[i])
  {
    if s != [] {
      UpperAt(s[1..]);
    }
  }

  /** Upper-casing twice is upper-casing once. */
  lemma {:induction false} UpperIdempotent(s: string)
    ensures Upper(Upper(s)) == Upper(s)
  {
    if s != [] {
      UpperIdempotent(s[1..]);
    }
  }

  /** `\d` of the patterns, read as the ASCII digits. */
  predicate IsDigit(c: char) {
    '0' <= c <= '9'
  }

  predicate AllDigits(s: string) {
    forall i :: 0 <= i < |s| ==> IsDigit(s[i])
  }

  /** `\d{lo,hi}`: between `lo` and `hi` digits and nothing else. */
  predicate DigitRun(s: string, lo: nat, hi: nat) {
    lo <= |s| <= hi && AllDigits(s)
  }

  /** The decimal value of a digit string, as `int(s)` computes it. */
  function DigitsValue(s: string): (v: nat)
    requires AllDigits(s)
    ensures v < Pow10(|s|)
  {
    if s == [] then 0
    else DigitsValue(s[..|s| - 1]) * 10 + (s[|s| - 1] as int - '0' as int)
  }

  function Pow10(n: nat): (p: nat)
    ensures p >= 1
  {
    if n == 0 then 1 else 10 * Pow10(n - 1)
  }

  /** Every character is an ASCII digit or an underscore. */
  predicate DigitsOrUnderscores(s: string) {
    forall i :: 0 <= i < |s| ==> IsDigit(s[i]) || s[i] == '_'
  }

  /**
   * The digit part `int` accepts: ASCII digits, where a single underscore
   * may stand between two digits.
   */
  predicate IntLiteral(s: string) {
    s != [] && IsDigit(s[0]) && IsDigit(s[|s| - 1]) && DigitsOrUnderscores(s)
    && forall i :: 0 <= i < |s| - 1 && s[i] == '_' ==> s[i + 1] != '_'
  }

  /** The literal with its underscores dropped. */
  function DropUnderscores(s: string): (r: string)
    ensures |r| <= |s|
    ensures DigitsOrUnderscores(s) ==> AllDigits(r)
  {
    if s == [] then [] else (if s[0] == '_' then [] else [s[0]]) + DropUnderscores(s[1..])
  }

  /**
   * `int(s)` on a text: surrounding white space, an optional sign, then a
   * literal of digits and single inner underscores; anything else is a
   * `ValueError`, here `None`.
   */
  function ParseInt(s: string): Option<int> {
    var t := Strip(s);
    var signed := t != [] && (t[0] == '+' || t[0] == '-');
    var literal := if signed then t[1..] else t;
    if IntLiteral(literal) then
      var v := DigitsValue(DropUnderscores(literal));
      Some(if signed && t[0] == '-' then 0 - v else v)
    else None
  }

  /** A plain digit string has nothing to drop. */
  lemma {:induction false} DropUnderscoresDigits(s: string)
    requires AllDigits(s)
    ensures DropUnderscores(s) == s
  {
    if s != [] {
      assert IsDigit(s[0]);
      DropUnderscoresDigits(s[1..]);
      assert [s[0]] + s[1..] == s;
    }
  }

  /** A plain digit string has no surrounding white space. */
  lemma StripDigits(s: string)
    requires s != [] && AllDigits(s)
    ensures Strip(s) == s
  {
    assert !IsSpace(s[0]) && !IsSpace(s[|s| - 1]);
    assert TrimStart(s) == s;
  }

  /** A plain digit string reads as its decimal value. */
  lemma ParseIntDigits(s: string)
    requires s != [] && AllDigits(s)
    ensures ParseInt(s) == Some(DigitsValue(s))
  {
    StripDigits(s);
    assert IsDigit(s[0]);
    assert IntLiteral(s) by {
      forall i | 0 <= i < |s| - 1 ensures s[i] != '_' {
        assert IsDigit(s[i]);
      }
    }
    DropUnderscoresDigits(s);
  }

  /** An underscore between digits is accepted and ignored. */
  lemma ParseIntUnderscores()
    ensures ParseInt("8_080") == Some(8080)
  {
    var s := "8_080";
    assert TrimStart(s) == s && TrimEnd(s) == s;
    assert DropUnderscores(s) == "8080";
    assert DigitsValue("8080") == 8080 by {
      assert "8080"[..3] == "808" && "808"[..2] == "80" && "80"[..1] == "8" && "8"[..0] == "";
    }
  }

  /** A leading, trailing or doubled underscore makes the text no number. */
  lemma ParseIntMisplacedUnderscores()
    ensures ParseInt("_8080") == None && ParseInt("8080_") == None && ParseInt("8__080") == None
  {
    assert TrimStart("_8080") == "_8080" && TrimEnd("_8080") == "_8080";
    assert TrimStart("8080_") == "8080_" && TrimEnd("8080_") == "8080_";
    var d := "8__080";
    assert TrimStart(d) == d && TrimEnd(d) == d;
    assert d[1] == '_' && d[2] == '_';
  }
}

/** Python slice prefixes, order-preserving subsequences and the stable sort of `list.sort`. */
module Seqs {

  /** `s[:k]` in Python: a negative `k` counts from the end. */
  function Prefix<T>(s: seq<T>, k: int): (r: seq<T>)
    ensures r <= s
    ensures k >= 0 ==> |r| == if k <= |s| then k else |s|
    ensures k < 0 ==> |r| == if |s| + k >= 0 then |s| + k else 0
  {
    if k >= 0 then (if k <= |s| then s[..k] else s)
    else if |s| + k >= 0 then s[..|s| + k]
    else []
  }

  /** `a` is `b` with some elements left out, the rest in the same order. */
  predicate IsSubseq<T(==)>(a: seq<T>, b: seq<T>)
    decreases |b|
  {
    a == [] || (b != [] && ((a[0] == b[0] && IsSubseq(a[1..], b[1..])) || IsSubseq(a, b[1..])))
  }

  /** A shared first element extends a subsequence. */
  lemma SubseqCons<T>(x: T, a: seq<T>, b: seq<T>)
    requires IsSubseq(a, b)
    ensures IsSubseq([x] + a, [x] + b)
  {
    assert ([x] + a)[1..] == a && ([x] + b)[1..] == b;
  }

  /** An element in front of the longer sequence can be skipped. */
  lemma SubseqSkip<T>(x: T, a: seq<T>, b: seq<T>)
    requires IsSubseq(a, b)
    ensures IsSubseq(a, [x] + b)
  {
    assert ([x] + b)[1..] == b;
  }

  lemma {:induction false} SubseqLength<T>(a: seq<T>, b: seq<T>)
    requires IsSubseq(a, b)
    ensures |a| <= |b|
    ensures forall x :: x in a ==> x in b
    decreases |b|
  {
    if a != [] {
      if a[0] == b[0] && IsSubseq(a[1..], b[1..]) {
        SubseqLength(a[1..], b[1..]);
        assert a == [a[0]] + a[1..];
        assert b == [b[0]] + b[1..];
      } else {
        SubseqLength(a, b[1..]);
      }
    }
  }

  lemma {:induction false} SubseqOfPrefix<T>(a: seq<T>, b: seq<T>)
    requires a <= b
    ensures IsSubseq(a, b)
    decreases |b|
  {
    if a != [] {
      SubseqOfPrefix(a[1..], b[1..]);
    }
  }

  lemma {:induction false} SubseqTrans<T>(a: seq<T>, b: seq<T>, c: seq<T>)
    requires IsSubseq(a, b) && IsSubseq(b, c)
    ensures IsSubseq(a, c)
    decreases |c|
  {
    if a != [] {
      assert b != [] && c != [];
      if b[0] == c[0] && IsSubseq(b[1..], c[1..]) {
        if a[0] == b[0] && IsSubseq(a[1..], b[1..]) {
          SubseqTrans(a[1..], b[1..], c[1..]);
        } else {
          SubseqTrans(a, b[1..], c[1..]);
        }
      } else {
        SubseqTrans(a, b, c[1..]);
      }
    }
  }

  /** The sort key of `list.sort(key=...)`: a number, or `float('inf')` for a missing value. */
  datatype SortKey = Finite(value: real) | Infinite

  predicate KeyLe(a: SortKey, b: SortKey) {
    b.Infinite? || (a.Finite? && a.value <= b.value)
  }

  /** Inserts `x` in front of the first element whose key is not smaller. */
  function Insert<T>(x: T, s: seq<T>, key: T -> SortKey): seq<T> {
    if s == [] || KeyLe(key(x), key(s[0])) then [x] + s
    else [s[0]] + Insert(x, s[1..], key)
  }

  /** Python's stable `sorted(s, key=key)`. */
  function SortBy<T>(s: seq<T>, key: T -> SortKey): seq<T> {
    if s == [] then []
    else Insert(s[0], SortBy(s[1..], key), key)
  }

  lemma {:induction false} InsertPerm<T>(x: T, s: seq<T>, key: T -> SortKey)
    ensures multiset(Insert(x, s, key)) == multiset(s) + multiset{x}
    ensures |Insert(x, s, key)| == |s| + 1
  {
    if s != [] && !KeyLe(key(x), key(s[0])) {
      InsertPerm(x, s[1..], key);
      assert s == [s[0]] + s[1..];
    }
  }

  /** Sorting rearranges the list: the same elements, as often each. */
  lemma {:induction false} SortByPerm<T>(s: seq<T>, key: T -> SortKey)
    ensures multiset(SortBy(s, key)) == multiset(s)
    ensures |SortBy(s, key)| == |s|
  {
    if s != [] {
      SortByPerm(s[1..], key);
      InsertPerm(s[0], SortBy(s[1..], key), key);
      assert s == [s[0]] + s[1..];
    }
  }

  predicate SortedBy<T>(s: seq<T>, key: T -> SortKey) {
    forall i, j :: 0 <= i < j < |s| ==> KeyLe(key(s[i]), key(s[j]))
  }

  /** The elements whose key is `k`, in order. */
  function WithKey<T>(s: seq<T>, key: T -> SortKey, k: SortKey): seq<T> {
    if s == [] then []
    else (if key(s[0]) == k then [s[0]] else []) + WithKey(s[1..], key, k)
  }

  lemma {:induction false} InsertSorted<T>(x: T, s: seq<T>, key: T -> SortKey)
    requires SortedBy(s, key)
    ensures SortedBy(Insert(x, s, key), key)
  {
    if s != [] && !KeyLe(key(x), key(s[0])) {
      InsertSorted(x, s[1..], key);
      InsertPerm(x, s[1..], key);
      var r := Insert(x, s, key);
      var t := Insert(x, s[1..], key);
      assert r == [s[0]] + t;
      forall j | 0 < j < |r|
        ensures KeyLe(key(r[0]), key(r[j]))
      {
        assert r[j] in multiset(t);
        if r[j] == x {
        } else {
          assert r[j] in multiset(s[1..]);
          var m :| 0 <= m < |s[1..]| && s[1..][m] == r[j];
          assert s[m + 1] == r[j];
        }
      }
    }
  }

  /** The result of `SortBy` is in non-decreasing key order. */
  lemma {:induction false} SortBySorted<T>(s: seq<T>, key: T -> SortKey)
    ensures SortedBy(SortBy(s, key), key)
  {
    if s != [] {
      SortBySorted(s[1..], key);
      InsertSorted(s[0], SortBy(s[1..], key), key);
    }
  }

  lemma {:induction false} InsertWithKey<T>(x: T, s: seq<T>, key: T -> SortKey, k: SortKey)
    ensures WithKey(Insert(x, s, key), key, k) == (if key(x) == k then [x] else []) + WithKey(s, key, k)
  {
    if s != [] && !KeyLe(key(x), key(s[0])) {
      InsertWithKey(x, s[1..], key, k);
      assert key(s[0]) != key(x);
      assert ([s[0]] + Insert(x, s[1..], key))[1..] == Insert(x, s[1..], key);
    } else {
      assert ([x] + s)[1..] == s;
    }
  }

  /** Stability: the elements sharing one key keep their original relative order. */
  lemma {:induction false} SortByStable<T>(s: seq<T>, key: T -> SortKey, k: SortKey)
    ensures WithKey(SortBy(s, key), key, k) == WithKey(s, key, k)
  {
    if s != [] {
      SortByStable(s[1..], key, k);
      InsertWithKey(s[0], SortBy(s[1..], key), key, k);
    }
  }

  /** No element occurs twice. */
  predicate Distinct<T(==)>(s: seq<T>) {
    forall i, j :: 0 <= i < j < |s| ==> s[i] != s[j]
  }

  lemma {:induction false} DistinctCount<T>(s: seq<T>, x: T)
    requires Distinct(s)
    ensures multiset(s)[x] <= 1
  {
    if s != [] {
      assert Distinct(s[1..]) by {
        forall i, j | 0 <= i < j < |s[1..]| ensures s[1..][i] != s[1..][j] {
          assert s[1..][i] == s[i + 1] && s[1..][j] == s[j + 1];
        }
      }
      DistinctCount(s[1..], x);
      assert s == [s[0]] + s[1..];
      if x == s[0] {
        assert x !in s[1..] by {
          forall j | 0 <= j < |s[1..]| ensures s[1..][j] != x {
            assert s[1..][j] == s[j + 1];
          }
        }
      }
    }
  }

  lemma TwoCopies<T>(s: seq<T>, i: nat, j: nat)
    requires i < j < |s| && s[i] == s[j]
    ensures multiset(s)[s[i]] >= 2
  {
    assert s == s[..j] + s[j..];
    assert s[i] in s[..j] && s[j] in s[j..];
  }

  /** A rearrangement of a list without repeats has no repeats. */
  lemma DistinctPerm<T>(s: seq<T>, t: seq<T>)
    requires Distinct(s) && multiset(t) == multiset(s)
    ensures Distinct(t)
  {
    forall i, j | 0 <= i < j < |t| ensures t[i] != t[j] {
      if t[i] == t[j] {
        TwoCopies(t, i, j);
        DistinctCount(s, t[i]);
        assert false;
      }
    }
  }

  /** Sorting a list already in order leaves it as it is. */
  lemma {:induction false} SortByOrdered<T>(s: seq<T>, key: T -> SortKey)
    requires SortedBy(s, key)
    ensures SortBy(s, key) == s
  {
    if s != [] {
      assert SortedBy(s[1..], key) by {
        forall i, j | 0 <= i < j < |s[1..]| ensures KeyLe(key(s[1..][i]), key(s[1..][j])) {
          assert s[1..][i] == s[i + 1] && s[1..][j] == s[j + 1];
        }
      }
      SortByOrdered(s[1..], key);
      assert s == [s[0]] + s[1..];
    }
  }

  /** An order-preserving subsequence of a list in order is in order. */
  lemma {:induction false} SubseqSorted<T>(a: seq<T>, b: seq<T>, key: T -> SortKey)
    requires IsSubseq(a, b) && SortedBy(b, key)
    ensures SortedBy(a, key)
    decreases |b|
  {
    if a != [] {
      assert SortedBy(b[1..], key) by {
        forall i, j | 0 <= i < j < |b[1..]| ensures KeyLe(key(b[1..][i]), key(b[1..][j])) {
          assert b[1..][i] == b[i + 1] && b[1..][j] == b[j + 1];
        }
      }
      if a[0] == b[0] && IsSubseq(a[1..], b[1..]) {
        SubseqSorted(a[1..], b[1..], key);
        SubseqLength(a[1..], b[1..]);
        forall j | 0 < j < |a| ensures KeyLe(key(a[0]), key(a[j])) {
          assert a[j] == a[1..][j - 1] && a[j] in b[1..];
          var m :| 0 <= m < |b[1..]| && b[1..][m] == a[j];
          assert b[m + 1] == a[j];
        }
        forall i, j | 0 < i < j < |a| ensures KeyLe(key(a[i]), key(a[j])) {
          assert a[i] == a[1..][i - 1] && a[j] == a[1..][j - 1];
        }
      } else {
        SubseqSorted(a, b[1..], key);
      }
    }
  }

  /** The elements with one key form an order-preserving subsequence. */
  lemma {:induction false} WithKeySubseq<T>(s: seq<T>, key: T -> SortKey, k: SortKey)
    ensures IsSubseq(WithKey(s, key, k), s)
  {
    if s != [] {
      WithKeySubseq(s[1..], key, k);
      var w := WithKey(s, key, k);
      var w' := WithKey(s[1..], key, k);
      if key(s[0]) == k {
        assert w == [s[0]] + w' && w[1..] == w';
      } else {
        assert w == w';
        if w != [] {
          assert IsSubseq(w, s[1..]);
        }
      }
    }
  }

  /** A leading part keeps the order, the absence of repeats, and draws on the whole. */
  lemma PrefixKeeps<T>(s: seq<T>, k: int, key: T -> SortKey)
    ensures SortedBy(s, key) ==> SortedBy(Prefix(s, k), key)
    ensures Distinct(s) ==> Distinct(Prefix(s, k))
    ensures multiset(Prefix(s, k)) <= multiset(s)
  {
    var r := Prefix(s, k);
    assert s == r + s[|r|..];
  }
}
