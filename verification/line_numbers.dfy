/** The line-number annotation shown beside each editor pane: for a pane whose
    text splits into N segments at '\n', the string "1\n2\n...N\n". */
module LineNumbers {

  /** Number of '\n' characters in s. */
  function CountNewlines(s: string): nat
  {
    if s == [] then 0 else (if s[0] == '\n' then 1 else 0) + CountNewlines(s[1..])
  }

  /** JavaScript's s.split('\n'): the maximal '\n'-free segments of s, in order,
      including an empty segment before a leading and after a trailing '\n'. */
  function Split(s: string): (parts: seq<string>)
    ensures |parts| >= 1
    ensures forall k :: 0 <= k < |parts| ==> '\n' !in parts[k]
  {
    if s == [] then [""]
    else
      var rest := Split(s[1..]);
      if s[0] == '\n' then [""] + rest
      else [[s[0]] + rest[0]] + rest[1..]
  }

  /** parts.join('\n'); JoinSplit and SplitJoin prove it the inverse of Split. */
  function Join(parts: seq<string>): string
    requires |parts| >= 1
  {
    if |parts| == 1 then parts[0] else parts[0] + "\n" + Join(parts[1..])
  }

  /** Splitting loses nothing: joining the segments gives the text back. */
  lemma {:induction false} JoinSplit(s: string)
    ensures Join(Split(s)) == s
  {
    if s != [] {
      var rest := Split(s[1..]);
      JoinSplit(s[1..]);
      if s[0] == '\n' {
        assert Split(s)[1..] == rest;
      } else if |rest| > 1 {
        assert Split(s)[1..] == rest[1..];
        assert Join(rest) == rest[0] + "\n" + Join(rest[1..]);
      }
    }
  }

  /** Conversely, '\n'-free segments joined with '\n' split back into the
      same segments: Split is the only way to cut a text at its '\n's. */
  lemma {:induction false} SplitJoin(parts: seq<string>)
    requires |parts| >= 1
    requires forall k :: 0 <= k < |parts| ==> '\n' !in parts[k]
    ensures Split(Join(parts)) == parts
  {
    SplitSingle(parts[0]);
    if |parts| > 1 {
      var head, rest := parts[0], parts[1..];
      var tail := "\n" + Join(rest);
      SplitJoin(rest);
      SplitNewline(Join(rest));
      assert Join(parts) == head + tail;
      SplitAppend(head, tail);
      GlueSingle(head, rest);
      assert parts == [head] + rest;
    }
  }

  /** A leading '\n' opens an empty first segment. */
  lemma SplitNewline(t: string)
    ensures Split("\n" + t) == [""] + Split(t)
  {
    assert ("\n" + t)[1..] == t;
  }

  /** Gluing a single segment to segments that start with an empty one. */
  lemma GlueSingle(head: string, rest: seq<string>)
    ensures Glue([head], [""] + rest) == [head] + rest
  {
    assert head + "" == head;
  }

  /** The number of segments, and so of annotated lines, is one more than the
      number of '\n' characters: an empty pane has one line, and a trailing
      '\n' opens one more, empty, line. */
  lemma {:induction false} LineCount(s: string)
    ensures |Split(s)| == CountNewlines(s) + 1
  {
    if s != [] {
      LineCount(s[1..]);
    }
  }

  /** A text without '\n' is a single segment. */
  lemma {:induction false} SplitSingle(s: string)
    requires '\n' !in s
    ensures Split(s) == [s]
  {
    if s != [] {
      assert '\n' !in s[1..] by {
        forall c | c in s[1..] ensures c in s { }
      }
      SplitSingle(s[1..]);
      assert [s[0]] + s[1..] == s;
    }
  }

  /** The segments of a followed by those of b, the last of a and the first of
      b glued into one. */
  function Glue(p: seq<string>, q: seq<string>): seq<string>
    requires |p| >= 1 && |q| >= 1
  {
    p[..|p| - 1] + [p[|p| - 1] + q[0]] + q[1..]
  }

  /** Splitting a concatenation glues the last segment of a to the first of b. */
  lemma {:induction false} SplitAppend(a: string, b: string)
    ensures Split(a + b) == Glue(Split(a), Split(b))
  {
    if a == [] {
      var B := Split(b);
      assert a + b == b && Split(a) == [""];
      assert "" + B[0] == B[0];
      assert Glue([""], B) == [B[0]] + B[1..] == B;
    } else {
      var c, A, B := a[0], Split(a[1..]), Split(b);
      assert (a + b)[0] == c && (a + b)[1..] == a[1..] + b;
      SplitAppend(a[1..], b);
      var R := Split(a[1..] + b);
      assert R == Glue(A, B);
      if c == '\n' {
        SplitAppendNewline(A, B);
      } else {
        SplitAppendChar(c, A, B);
      }
    }
  }

  /** SplitAppend's inductive step when a starts with '\n'. */
  lemma SplitAppendNewline(A: seq<string>, B: seq<string>)
    requires |A| >= 1 && |B| >= 1
    ensures [""] + Glue(A, B) == Glue([""] + A, B)
  {

  }

  /** SplitAppend's inductive step when a starts with any other character. */
  lemma SplitAppendChar(c: char, A: seq<string>, B: seq<string>)
    requires |A| >= 1 && |B| >= 1
    ensures var R := Glue(A, B); [[c] + R[0]] + R[1..] == Glue([[c] + A[0]] + A[1..], B)
  {
    var S := [[c] + A[0]] + A[1..];
    if |A| == 1 {
      assert S == [[c] + A[0]];
      assert [c] + (A[0] + B[0]) == ([c] + A[0]) + B[0];
    } else {
      assert S[..|S| - 1] == [[c] + A[0]] + A[1..|A| - 1];
      assert S[|S| - 1] == A[|A| - 1];
    }
  }

  predicate IsDigit(c: char)
  {
    '0' <= c <= '9'
  }

  predicate AllDigits(s: string)
  {
    forall k :: 0 <= k < |s| ==> IsDigit(s[k])
  }

  function DigitChar(d: nat): (c: char)
    requires d < 10
  {
    ('0' as int + d) as char
  }

  /** The decimal text JavaScript produces when a line number is added to a
      string (`i + '\n'`): at least one digit, no leading zero. */
  function Decimal(n: nat): (s: string)
    ensures |s| >= 1 && AllDigits(s)
    ensures s[0] == '0' ==> n == 0
    decreases n
  {
    if n < 10 then [DigitChar(n)] else Decimal(n / 10) + [DigitChar(n % 10)]
  }

  /** Reading a string of decimal digits back as a number. */
  function ValueOf(s: string): nat
    requires AllDigits(s)
  {
    if s == [] then 0 else 10 * ValueOf(s[..|s| - 1]) + (s[|s| - 1] as int - '0' as int)
  }

  /** Decimal text reads back as the number it was made from. */
  lemma {:induction false} DecimalRoundTrip(n: nat)
    ensures ValueOf(Decimal(n)) == n
    decreases n
  {
    if n >= 10 {
      var s := Decimal(n);
      assert s[..|s| - 1] == Decimal(n / 10);
      DecimalRoundTrip(n / 10);
    }
  }

  /** "1\n2\n...n\n": each of the numbers 1..n followed by '\n'. */
  function Numbered(n: nat): string
  {
    if n == 0 then "" else Numbered(n - 1) + Decimal(n) + "\n"
  }

  /** The annotation updateLineNumbers attaches to a pane holding text. */
  function LineAnnotation(text: string): string
  {
    Numbered(|Split(text)|)
  }

  /** A number followed by '\n' splits into the number and an empty segment. */
  lemma DecimalLine(n: nat)
    ensures Split(Decimal(n) + "\n") == [Decimal(n), ""]
  {
    var d := Decimal(n);
    assert '\n' !in d by {
      forall k | 0 <= k < |d| ensures d[k] != '\n' { assert IsDigit(d[k]); }
    }
    SplitSingle(d);
    assert "\n"[1..] == "";
    assert Split("\n") == ["", ""];
    SplitAppend(d, "\n");
    assert d + "" == d;
    assert Glue([d], ["", ""]) == [d, ""];
  }

  /** Read line by line, Numbered(n) holds the numbers 1..n in ascending
      order, and the last number is followed by '\n' too (the final segment is
      empty). */
  lemma {:induction false} NumberedLines(n: nat)
    ensures |Split(Numbered(n))| == n + 1
    ensures forall k :: 0 <= k < n ==> Split(Numbered(n))[k] == Decimal(k + 1)
    ensures Split(Numbered(n))[n] == ""
  {
    if n > 0 {
      NumberedLines(n - 1);
      var d := Decimal(n);
      var P := Split(Numbered(n - 1));
      DecimalLine(n);
      assert Numbered(n) == Numbered(n - 1) + (d + "\n");
      SplitAppend(Numbered(n - 1), d + "\n");
      assert Split(Numbered(n)) == P[..n - 1] + [P[n - 1] + d] + [""];
      assert P[n - 1] + d == d;
    }
  }

  /** The annotation of a pane lists 1, 2, ..., N with N = (number of '\n') + 1,
      ascending, every number including the last followed by '\n'. */
  lemma AnnotationReadsBack(text: string)
    ensures CountNewlines(LineAnnotation(text)) == CountNewlines(text) + 1
    ensures |Split(LineAnnotation(text))| == CountNewlines(text) + 2
    ensures forall k :: 0 <= k <= CountNewlines(text) ==>
      AllDigits(Split(LineAnnotation(text))[k]) && ValueOf(Split(LineAnnotation(text))[k]) == k + 1
    ensures Split(LineAnnotation(text))[CountNewlines(text) + 1] == ""
  {
    var n := |Split(text)|;
    LineCount(text);
    NumberedLines(n);
    LineCount(Numbered(n));
    forall k | 0 <= k < n
      ensures AllDigits(Split(LineAnnotation(text))[k]) && ValueOf(Split(LineAnnotation(text))[k]) == k + 1
    {
      DecimalRoundTrip(k + 1);
    }
  }

  /** Empty text is annotated "1\n", not "1"; "a\n" gets "1\n2\n". */
  lemma AnnotationExamples()
    ensures LineAnnotation("") == "1\n"
    ensures LineAnnotation("a\n") == "1\n2\n"
    ensures LineAnnotation("a\nb") == "1\n2\n"
  {

  }

  /** updateLineNumbers: count the segments, then append "i\n" for i = 1..lines. */
  method UpdateLineNumbers(text: string) returns (numbers: string)
    ensures numbers == Numbered(CountNewlines(text) + 1)
    ensures numbers == LineAnnotation(text)
  {
    var lines := |Split(text)|;
    LineCount(text);
    numbers := "";
    var i := 1;
    while i <= lines
      invariant 1 <= i <= lines + 1
      invariant numbers == Numbered(i - 1)
    {
      numbers := numbers + Decimal(i) + "\n";
      i := i + 1;
    }
  }
}
