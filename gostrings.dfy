/**
 * The few pieces of Go's `strings`, `strconv`, `fmt` and `path` packages that the
 * core relies on, over Dafny strings (one character stands for one byte of a Go
 * string).
 */
module GoStrings {

  import opened Wrappers

  predicate IsDigit(c: char) {
    '0' <= c <= '9'
  }

  predicate AllDigits(s: string) {
    forall i | 0 <= i < |s| :: IsDigit(s[i])
  }

  function DigitValue(c: char): (v: nat)
    requires IsDigit(c)
    ensures v < 10
  {
    c as int - '0' as int
  }

  function DigitChar(d: nat): (c: char)
    requires d < 10
    ensures IsDigit(c) && DigitValue(c) == d
  {
    ('0' as int + d) as char
  }

  /** The value of a string of decimal digits, most significant first. */
  function DecimalValue(s: string): nat
    requires AllDigits(s)
  {
    if |s| == 0 then 0 else DecimalValue(s[..|s| - 1]) * 10 + DigitValue(s[|s| - 1])
  }

  /** `strconv.Itoa` / `fmt.Sprintf("%d", n)` for a non-negative `n`. */
  function Itoa(n: nat): (s: string)
    ensures |s| > 0 && AllDigits(s)
    ensures DecimalValue(s) == n
  {
    if n < 10 then [DigitChar(n)]
    else
      var s := Itoa(n / 10) + [DigitChar(n % 10)];
      assert s[..|s| - 1] == Itoa(n / 10);
      s
  }

  lemma ItoaInjective(a: nat, b: nat)
    requires Itoa(a) == Itoa(b)
    ensures a == b
  {
    assert DecimalValue(Itoa(a)) == a;
  }

  /**
   * `strings.Split(s, string(sep))`: the pieces between the separators, so that
   * there is always one more piece than separators.
   */
  function Split(s: string, sep: char): (parts: seq<string>)
    ensures |parts| >= 1
    ensures forall k | 0 <= k < |parts| :: sep !in parts[k]
  {
    if |s| == 0 then [""]
    else if s[0] == sep then [""] + Split(s[1..], sep)
    else
      var rest := Split(s[1..], sep);
      [[s[0]] + rest[0]] + rest[1..]
  }

  function Count(s: string, c: char): nat
  {
    if |s| == 0 then 0 else (if s[0] == c then 1 else 0) + Count(s[1..], c)
  }

  /** `strings.Join(parts, string(sep))`, the inverse of `Split`. */
  function JoinWith(parts: seq<string>, sep: char): string
    requires |parts| >= 1
  {
    if |parts| == 1 then parts[0] else parts[0] + [sep] + JoinWith(parts[1..], sep)
  }

  lemma {:induction false} SplitCount(s: string, sep: char)
    ensures |Split(s, sep)| == Count(s, sep) + 1
  {
    if |s| > 0 {
      SplitCount(s[1..], sep);
    }
  }

  lemma {:induction false} JoinSplit(s: string, sep: char)
    ensures JoinWith(Split(s, sep), sep) == s
  {
    if |s| > 0 {
      JoinSplit(s[1..], sep);
      var rest := Split(s[1..], sep);
      if s[0] == sep {
        assert Split(s, sep)[1..] == rest;
      } else {
        var parts := Split(s, sep);
        assert parts[1..] == rest[1..];
        if |rest| == 1 {
          assert JoinWith(parts, sep) == [s[0]] + rest[0];
        } else {
          assert JoinWith(parts, sep) == [s[0]] + rest[0] + [sep] + JoinWith(rest[1..], sep);
          assert JoinWith(rest, sep) == rest[0] + [sep] + JoinWith(rest[1..], sep);
        }
        assert s == [s[0]] + s[1..];
      }
    }
  }

  /** Splitting after a separator-free prefix yields that prefix as the first piece. */
  lemma {:induction false} SplitAfterPiece(head: string, sep: char, tail: string)
    requires sep !in head
    ensures Split(head + [sep] + tail, sep) == [head] + Split(tail, sep)
  {
    if |head| == 0 {
      assert head + [sep] + tail == [sep] + tail;
      assert ([sep] + tail)[1..] == tail;
    } else {
      var s := head + [sep] + tail;
      assert s[0] == head[0];
      assert s[1..] == head[1..] + [sep] + tail;
      SplitAfterPiece(head[1..], sep, tail);
      assert [head[0]] + head[1..] == head;
    }
  }

  /** Splitting a separator-free string yields it unchanged. */
  lemma {:induction false} SplitSingle(s: string, sep: char)
    requires sep !in s
    ensures Split(s, sep) == [s]
  {
    if |s| > 0 {
      SplitSingle(s[1..], sep);
      assert [s[0]] + s[1..] == s;
    }
  }

  /** `Split` undoes `JoinWith` when no piece holds the separator. */
  lemma {:induction false} SplitJoin(pieces: seq<string>, sep: char)
    requires |pieces| >= 1
    requires forall k | 0 <= k < |pieces| :: sep !in pieces[k]
    ensures Split(JoinWith(pieces, sep), sep) == pieces
  {
    if |pieces| == 1 {
      SplitSingle(pieces[0], sep);
    } else {
      SplitJoin(pieces[1..], sep);
      SplitAfterPiece(pieces[0], sep, JoinWith(pieces[1..], sep));
    }
  }

  lemma DigitsHaveNo(s: string, c: char)
    requires AllDigits(s) && !IsDigit(c)
    ensures c !in s
  {
  }

  /**
   * `SplitAt(s, c)`: the text before the first `c` and the text after it, or
   * `None` when `c` does not occur (`strings.Cut`).
   */
  function SplitAt(s: string, c: char): (r: Option<(string, string)>)
    ensures r.Some? ==> c !in r.value.0 && s == r.value.0 + [c] + r.value.1
    ensures r.None? <==> c !in s
  {
    if |s| == 0 then None
    else if s[0] == c then Some(([], s[1..]))
    else match SplitAt(s[1..], c)
      case None => None
      case Some((before, after)) =>
        assert s == [s[0]] + s[1..];
        Some(([s[0]] + before, after))
  }

  lemma {:induction false} SplitAtConcat(a: string, c: char, b: string)
    requires c !in a
    ensures SplitAt(a + [c] + b, c) == Some((a, b))
  {
    if |a| == 0 {
      assert a + [c] + b == [c] + b;
      assert ([c] + b)[1..] == b;
    } else {
      var s := a + [c] + b;
      assert s[1..] == a[1..] + [c] + b;
      SplitAtConcat(a[1..], c, b);
      assert [a[0]] + a[1..] == a;
    }
  }

  /**
   * `path.Join(a, b)` for the shapes the core uses: clean components, where the
   * only cleaning needed is not to double a trailing `/`; empty elements are
   * skipped, as `path.Join` does.
   */
  function Join(a: string, b: string): string
  {
    if a == "" then b
    else if b == "" then a
    else if a[|a| - 1] == '/' then a + b
    else a + "/" + b
  }

  /** `path.Join(parts...)`, folded left to right. */
  function JoinAll(parts: seq<string>): string
  {
    if |parts| == 0 then "" else Join(JoinAll(parts[..|parts| - 1]), parts[|parts| - 1])
  }

  /** Four plain levels below a directory, joined one slash apart. */
  lemma JoinFourSegments(a: string, b: string, c: string, d: string)
    requires Directory(a) && Segment(b) && Segment(c) && Segment(d)
    ensures JoinAll([a, b, c, d]) == a + "/" + b + "/" + c + "/" + d
    ensures Directory(JoinAll([a, b, c, d]))
  {
    assert [a, b, c, d][..3] == [a, b, c];
    assert [a, b, c][..2] == [a, b];
    assert [a, b][..1] == [a];
    assert [a][..0] == [];
    assert JoinAll([a]) == a;
    JoinSegment(a, b);
    assert JoinAll([a, b]) == a + "/" + b;
    JoinSegment(a + "/" + b, c);
    assert JoinAll([a, b, c]) == a + "/" + b + "/" + c;
    JoinSegment(a + "/" + b + "/" + c, d);
  }

  /** A plain path component: non-empty, no `/`, and neither `.` nor `..`. */
  predicate Segment(s: string) {
    s != "" && '/' !in s && s != "." && s != ".."
  }

  /** A path that `path.Clean` leaves alone and that does not end in `/`. */
  predicate Directory(d: string) {
    d != "" && d[|d| - 1] != '/'
  }

  /** Joining a plain component onto a directory puts one `/` between them. */
  lemma JoinSegment(d: string, b: string)
    requires Directory(d) && Segment(b)
    ensures Join(d, b) == d + "/" + b
    ensures Directory(Join(d, b))
  {
  }

  /** Prefixing `/` commutes with joining onto a non-empty path. */
  lemma RootedJoin(j: string, b: string)
    requires j != ""
    ensures Join("/" + j, b) == "/" + Join(j, b)
  {
    if b != "" {
      assert ("/" + j)[|"/" + j| - 1] == j[|j| - 1];
    }
  }

  /** A non-empty last element makes the joined path non-empty. */
  lemma JoinAllNonEmpty(parts: seq<string>)
    requires |parts| > 0 && parts[|parts| - 1] != ""
    ensures JoinAll(parts) != ""
  {
  }

  /**
   * The text before the last `c` and the text after it, or `None` when `c`
   * does not occur.
   */
  function SplitLast(s: string, c: char): (r: Option<(string, string)>)
    ensures r.Some? ==> c !in r.value.1 && s == r.value.0 + [c] + r.value.1
    ensures r.None? <==> c !in s
  {
    if |s| == 0 then None
    else if s[|s| - 1] == c then
      assert s == s[..|s| - 1] + [c] + "";
      Some((s[..|s| - 1], ""))
    else match SplitLast(s[..|s| - 1], c)
      case None => None
      case Some((before, after)) =>
        assert s == s[..|s| - 1] + [s[|s| - 1]];
        Some((before, after + [s[|s| - 1]]))
  }

  lemma {:induction false} SplitLastConcat(a: string, c: char, b: string)
    requires c !in b
    ensures SplitLast(a + [c] + b, c) == Some((a, b))
  {
    var s := a + [c] + b;
    if |b| == 0 {
      assert s[..|s| - 1] == a;
    } else {
      assert s[..|s| - 1] == a + [c] + b[..|b| - 1];
      SplitLastConcat(a, c, b[..|b| - 1]);
      assert b[..|b| - 1] + [b[|b| - 1]] == b;
    }
  }

  /** `filepath.Dir` of an absolute path: everything before the last `/`, or `/`. */
  function Dir(p: string): (d: string)
  {
    match SplitLast(p, '/')
    case None => "."
    case Some((before, _)) => if before == "" then "/" else before
  }

  /** `filepath.Base`: everything after the last `/`. */
  function Base(p: string): (b: string)
  {
    match SplitLast(p, '/')
    case None => p
    case Some((_, after)) => after
  }

  /** A directory and a plain name come apart again under `Dir` and `Base`. */
  lemma DirBase(d: string, name: string)
    requires Directory(d) && d[0] == '/' && Segment(name)
    ensures Dir(Join(d, name)) == d && Base(Join(d, name)) == name
  {
    JoinSegment(d, name);
    SplitLastConcat(d, '/', name);
  }

  /** A path written out as directory, slash and name splits back into them. */
  lemma SplitPath(p: string, d: string, name: string)
    requires Directory(d) && d[0] == '/' && Segment(name) && p == d + "/" + name
    ensures Dir(p) == d && Base(p) == name
  {
    JoinSegment(d, name);
    DirBase(d, name);
  }
}
