/**
 * The pieces of Python's string behaviour that the modelled code relies on:
 * `str(i)` of a non-negative int (inside the f-strings that name CSV columns),
 * `str.split(sep)` with negative indexing of the parts, and `os.path.join` as
 * the Windows path module does it for a relative second part.
 */
module PyText {
  import opened Wrappers

  // ---------------------------------------------------------------------
  // str(n) for n >= 0

  predicate IsDigit(c: char) { '0' <= c <= '9' }

  predicate AllDigits(s: string) { forall i :: 0 <= i < |s| ==> IsDigit(s[i]) }

  function DigitChar(d: nat): (c: char)
    requires d < 10
    ensures IsDigit(c)
  {
    ('0' as int + d) as char
  }

  function DigitValue(c: char): (d: nat)
    requires IsDigit(c)
    ensures d < 10
  {
    c as int - '0' as int
  }

  /** The decimal text Python's `str` gives a non-negative int: at least one
      digit and no leading zero. */
  function NatToString(n: nat): (s: string)
    ensures |s| >= 1 && AllDigits(s)
    ensures |s| > 1 ==> s[0] != '0'
    decreases n
  {
    if n < 10 then [DigitChar(n)] else NatToString(n / 10) + [DigitChar(n % 10)]
  }

  /** Reads back a non-empty string of decimal digits. */
  function ParseDecimal(s: string): nat
    requires |s| >= 1 && AllDigits(s)
    decreases |s|
  {
    if |s| == 1 then DigitValue(s[0])
    else 10 * ParseDecimal(s[..|s| - 1]) + DigitValue(s[|s| - 1])
  }

  lemma {:induction false} ParseNatToString(n: nat)
    ensures ParseDecimal(NatToString(n)) == n
    decreases n
  {
    if n >= 10 {
      ParseNatToString(n / 10);
      var s := NatToString(n);
      assert s[..|s| - 1] == NatToString(n / 10);
      assert DigitValue(DigitChar(n % 10)) == n % 10;
    } else {
      assert DigitValue(DigitChar(n)) == n;
    }
  }

  /** Distinct numbers print differently, so column names built from distinct
      indices are distinct. */
  lemma NatToStringInjective(a: nat, b: nat)
    requires NatToString(a) == NatToString(b)
    ensures a == b
  {
    ParseNatToString(a);
    ParseNatToString(b);
  }

  /** Two names with the same prefix are equal only if their suffixes are. */
  lemma PrefixedEqual(p: string, a: string, b: string)
    requires p + a == p + b
    ensures a == b
  {
    assert a == (p + a)[|p|..];
    assert b == (p + b)[|p|..];
  }

  // ---------------------------------------------------------------------
  // str.split(sep) and indexing from the end

  /** Python's `s.split(sep)` for a one-character separator: the pieces
      between separators, always at least one. */
  function Split(s: string, sep: char): (parts: seq<string>)
    ensures |parts| >= 1
    ensures forall i :: 0 <= i < |parts| ==> sep !in parts[i]
    decreases |s|
  {
    if s == [] then [""]
    else
      var rest := Split(s[1..], sep);
      if s[0] == sep then [""] + rest
      else [[s[0]] + rest[0]] + rest[1..]
  }

  /** `sep.join(parts)`. */
  function Join(parts: seq<string>, sep: char): string
    requires |parts| >= 1
    decreases |parts|
  {
    if |parts| == 1 then parts[0] else parts[0] + [sep] + Join(parts[1..], sep)
  }

  /** The number of occurrences of `c` in `s`. */
  function Occurrences(s: string, c: char): nat
    decreases |s|
  {
    if s == [] then 0 else (if s[0] == c then 1 else 0) + Occurrences(s[1..], c)
  }

  lemma {:induction false} SplitWithoutSeparator(s: string, sep: char)
    requires sep !in s
    ensures Split(s, sep) == [s]
    decreases |s|
  {
    if s != [] {
      assert sep !in s[1..];
      SplitWithoutSeparator(s[1..], sep);
      assert [s[0]] + s[1..] == s;
    }
  }

  /** Splitting at one separator splits the two sides independently. */
  lemma {:induction false} SplitAround(a: string, sep: char, b: string)
    ensures Split(a + [sep] + b, sep) == Split(a, sep) + Split(b, sep)
    decreases |a|
  {
    var s := a + [sep] + b;
    if a == [] {
      assert s[1..] == b;
    } else {
      assert s[1..] == a[1..] + [sep] + b;
      SplitAround(a[1..], sep, b);
    }
  }

  /** Splitting undoes joining, when no part holds the separator. */
  lemma {:induction false} SplitJoin(parts: seq<string>, sep: char)
    requires |parts| >= 1
    requires forall i :: 0 <= i < |parts| ==> sep !in parts[i]
    ensures Split(Join(parts, sep), sep) == parts
    decreases |parts|
  {
    SplitWithoutSeparator(parts[0], sep);
    if |parts| > 1 {
      SplitJoin(parts[1..], sep);
      SplitAround(parts[0], sep, Join(parts[1..], sep));
      assert [parts[0]] + parts[1..] == parts;
    }
  }

  /** Joining undoes splitting. */
  lemma {:induction false} JoinSplit(s: string, sep: char)
    ensures Join(Split(s, sep), sep) == s
    decreases |s|
  {
    if s != [] {
      JoinSplit(s[1..], sep);
      var rest := Split(s[1..], sep);
      if s[0] == sep {
        assert ([""] + rest)[1..] == rest;
      } else {
        var parts := [[s[0]] + rest[0]] + rest[1..];
        if |rest| == 1 {
          assert parts == [[s[0]] + rest[0]];
        } else {
          assert parts[1..] == rest[1..];
          assert Join(rest, sep) == rest[0] + [sep] + Join(rest[1..], sep);
        }
      }
    }
  }

  /** `s.split(sep)` has one part more than `s` has separators. */
  lemma {:induction false} SplitCount(s: string, sep: char)
    ensures |Split(s, sep)| == Occurrences(s, sep) + 1
    decreases |s|
  {
    if s != [] {
      SplitCount(s[1..], sep);
    }
  }

  /** Python's `parts[-k]` for k >= 1. */
  function FromEnd(parts: seq<string>, k: nat): (r: Result<string>)
    requires k >= 1
    ensures r.Ok? <==> k <= |parts|
    ensures r.Ok? ==> r.value == parts[|parts| - k]
    ensures r.Err? ==> r.error == IndexError(ListIndexOutOfRange)
  {
    if k <= |parts| then Ok(parts[|parts| - k]) else Err(IndexError(ListIndexOutOfRange))
  }

  // ---------------------------------------------------------------------
  // os.path.join on Windows, for a relative second part without a drive

  /** A bare drive such as `C:`, after which `ntpath.join` adds no separator. */
  predicate IsDrive(directory: string)
  {
    |directory| == 2 && directory[1] == ':'
  }

  /** Whether `ntpath.join` puts a backslash between `directory` and a
      relative second part. */
  predicate NeedsSeparator(directory: string)
  {
    directory != [] && directory[|directory| - 1] !in "\\/" && !IsDrive(directory)
  }

  /** `ntpath.join(directory, relative)` when `relative` has no drive and no
      root: `directory`, then a backslash where one is missing, then `relative`. */
  function JoinPath(directory: string, relative: string): (p: string)
    ensures |directory| + |relative| <= |p| <= |directory| + |relative| + 1
    ensures p[..|directory|] == directory && p[|p| - |relative|..] == relative
    ensures |p| > |directory| + |relative| <==> NeedsSeparator(directory)
    ensures NeedsSeparator(directory) ==> p[|directory|] == '\\'
  {
    if NeedsSeparator(directory) then directory + "\\" + relative else directory + relative
  }

  /** Joining with a backslash adds one path component boundary: the parts of
      the joined path are the parts of each side. */
  lemma JoinPathSplit(directory: string, relative: string)
    requires NeedsSeparator(directory)
    ensures Split(JoinPath(directory, relative), '\\') == Split(directory, '\\') + Split(relative, '\\')
  {
    SplitAround(directory, '\\', relative);
  }
}
