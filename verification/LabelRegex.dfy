/**
 Names that may be put into an upstream path. The check is one regular
 expression; its meaning here is a formal semantics of such expressions, and the
 theorem is that it accepts exactly the labels of section 2.1 of RFC 1123.
 */
module LabelRegex {

  /** Begin and End are whole-text anchors, as Go's `^` and `$` are without the `m` flag. */
  datatype Regex =
    | Begin
    | End
    | Class(ranges: seq<(char, char)>)
    | Cat(first: Regex, second: Regex)
    | Repeat(body: Regex, low: nat, high: nat)

  function Less(n: nat): nat { if n == 0 then 0 else n - 1 }

  predicate In(c: char, ranges: seq<(char, char)>)
  {
    exists r <- ranges :: r.0 <= c <= r.1
  }

  /** r matches s[i..j] where it stands in s. */
  predicate Matches(r: Regex, s: string, i: nat, j: nat)
    requires i <= j <= |s|
    decreases r, 0, 0
  {
    match r
    case Begin => i == j == 0
    case End => i == j == |s|
    case Class(ranges) => j == i + 1 && In(s[i], ranges)
    case Cat(a, b) => exists k :: i <= k <= j && Matches(a, s, i, k) && Matches(b, s, k, j)
    case Repeat(body, low, high) => Repeats(body, low, high, s, i, j)
  }

  /** Between low and high copies of r, one after the other. */
  predicate Repeats(r: Regex, low: nat, high: nat, s: string, i: nat, j: nat)
    requires i <= j <= |s|
    decreases r, 1, high
  {
    || (low == 0 && i == j)
    || (high > 0 && exists k :: i <= k <= j && Matches(r, s, i, k)
                                && Repeats(r, Less(low), Less(high), s, k, j))
  }

  /** MatchString: somewhere in s. */
  predicate MatchString(r: Regex, s: string)
  {
    exists i, j :: 0 <= i <= j <= |s| && Matches(r, s, i, j)
  }

  const ALNUM := Class([('a', 'z'), ('0', '9')])

  const ALNUM_DASH := Class([('a', 'z'), ('0', '9'), ('-', '-')])

  /** [a-z0-9-]{0,61}[a-z0-9] */
  const INNER := Cat(Repeat(ALNUM_DASH, 0, 61), ALNUM)

  /** ^[a-z0-9]([a-z0-9-]{0,61}[a-z0-9])?$ */
  const K8S_NAME_PATTERN := Cat(Begin, Cat(ALNUM, Cat(Repeat(INNER, 0, 1), End)))

  predicate ValidK8sName(s: string)
  {
    MatchString(K8S_NAME_PATTERN, s)
  }

  // ----- Labels -----

  predicate LetterOrDigit(c: char)
  {
    'a' <= c <= 'z' || '0' <= c <= '9'
  }

  predicate Label(s: string)
  {
    && 1 <= |s| <= 63
    && (forall i :: 0 <= i < |s| ==> LetterOrDigit(s[i]) || s[i] == '-')
    && s[0] != '-' && s[|s| - 1] != '-'
  }

  lemma ClassesAreRanges(c: char)
    ensures In(c, ALNUM.ranges) <==> LetterOrDigit(c)
    ensures In(c, ALNUM_DASH.ranges) <==> LetterOrDigit(c) || c == '-'
  {
    var r := [('a', 'z'), ('0', '9'), ('-', '-')];
    assert r[0] in r && r[1] in r && r[2] in r;
    assert r[..2][0] in r[..2] && r[..2][1] in r[..2];
    assert r[..2] == ALNUM.ranges;
  }

  ghost predicate AllIn(s: string, i: nat, j: nat, ranges: seq<(char, char)>)
    requires i <= j <= |s|
  {
    forall k :: i <= k < j ==> In(s[k], ranges)
  }

  lemma ClassThen(ranges: seq<(char, char)>, r: Regex, s: string, i: nat, j: nat)
    requires i <= j <= |s|
    ensures Matches(Cat(Class(ranges), r), s, i, j) <==> i < j && In(s[i], ranges) && Matches(r, s, i + 1, j)
  {
    if i < j {
      assert Matches(Class(ranges), s, i, i + 1) <==> In(s[i], ranges);
    }
  }

  lemma ThenClass(ranges: seq<(char, char)>, r: Regex, s: string, i: nat, j: nat)
    requires i <= j <= |s|
    ensures Matches(Cat(r, Class(ranges)), s, i, j) <==> i < j && Matches(r, s, i, j - 1) && In(s[j - 1], ranges)
  {
    if i < j {
      assert Matches(Class(ranges), s, j - 1, j) <==> In(s[j - 1], ranges);
    }
  }

  lemma BeginThen(r: Regex, s: string, i: nat, j: nat)
    requires i <= j <= |s|
    ensures Matches(Cat(Begin, r), s, i, j) <==> i == 0 && Matches(r, s, 0, j)
  {
    assert Matches(Begin, s, i, i) <==> i == 0;
  }

  lemma ThenEnd(r: Regex, s: string, i: nat, j: nat)
    requires i <= j <= |s|
    ensures Matches(Cat(r, End), s, i, j) <==> j == |s| && Matches(r, s, i, j)
  {
    assert Matches(End, s, j, j) <==> j == |s|;
  }

  lemma FirstCopy(r: Regex, low: nat, high: nat, s: string, i: nat, j: nat) returns (k: nat)
    requires i < j <= |s| && Repeats(r, low, high, s, i, j)
    ensures high > 0 && i <= k <= j && Matches(r, s, i, k) && Repeats(r, Less(low), Less(high), s, k, j)
  {
    k :| i <= k <= j && Matches(r, s, i, k) && Repeats(r, Less(low), Less(high), s, k, j);
  }

  lemma Optional(r: Regex, s: string, i: nat, j: nat)
    requires i <= j <= |s|
    ensures Matches(Repeat(r, 0, 1), s, i, j) <==> i == j || Matches(r, s, i, j)
  {
    assert Matches(Repeat(r, 0, 1), s, i, j) == Repeats(r, 0, 1, s, i, j);
    if Matches(r, s, i, j) {
      assert Repeats(r, Less(0), Less(1), s, j, j);
    }
    if Repeats(r, 0, 1, s, i, j) && i < j {
      var k := FirstCopy(r, 0, 1, s, i, j);
    }
  }

  /** Up to `high` characters of a class. */
  lemma {:induction false} RepeatedClass(ranges: seq<(char, char)>, high: nat, s: string, i: nat, j: nat)
    requires i <= j <= |s|
    ensures Repeats(Class(ranges), 0, high, s, i, j) <==> j - i <= high && AllIn(s, i, j, ranges)
    decreases high
  {
    if high > 0 && i < j {
      RepeatedClass(ranges, high - 1, s, i + 1, j);
      assert Matches(Class(ranges), s, i, i + 1) <==> In(s[i], ranges);
      assert AllIn(s, i, j, ranges) <==> In(s[i], ranges) && AllIn(s, i + 1, j, ranges);
    }
  }

  lemma RunThenClass(run: seq<(char, char)>, high: nat, last: seq<(char, char)>, s: string, i: nat, j: nat)
    requires i <= j <= |s|
    ensures Matches(Cat(Repeat(Class(run), 0, high), Class(last)), s, i, j) <==>
            i < j <= i + high + 1 && AllIn(s, i, j - 1, run) && In(s[j - 1], last)
  {
    ThenClass(last, Repeat(Class(run), 0, high), s, i, j);
    if i < j {
      RepeatedClass(run, high, s, i, j - 1);
    }
  }

  lemma InnerMatches(s: string, i: nat, j: nat)
    requires i <= j <= |s|
    ensures Matches(INNER, s, i, j) <==>
            i < j <= i + 62 && AllIn(s, i, j - 1, ALNUM_DASH.ranges)
            && In(s[j - 1], ALNUM.ranges)
  {
    RunThenClass(ALNUM_DASH.ranges, 61, ALNUM.ranges, s, i, j);
  }

  lemma PatternMatches(s: string, i: nat, j: nat)
    requires i <= j <= |s|
    ensures Matches(K8S_NAME_PATTERN, s, i, j) <==>
            i == 0 < j == |s| && In(s[0], ALNUM.ranges) && (j == 1 || Matches(INNER, s, 1, j))
  {
    var tail := Cat(Repeat(INNER, 0, 1), End);
    BeginThen(Cat(ALNUM, tail), s, i, j);
    ClassThen(ALNUM.ranges, tail, s, 0, j);
    if 0 < j {
      ThenEnd(Repeat(INNER, 0, 1), s, 1, j);
      Optional(INNER, s, 1, j);
    }
  }

  /** What a whole-text match says, character by character. */
  predicate Accepted(s: string)
  {
    && 0 < |s| && In(s[0], ALNUM.ranges)
    && (|s| == 1 || (|s| <= 63 && (forall k :: 1 <= k < |s| - 1 ==> In(s[k], ALNUM_DASH.ranges))
      && In(s[|s| - 1], ALNUM.ranges)))
  }

  lemma WholeMatch(s: string, i: nat, j: nat)
    requires i <= j <= |s|
    ensures Matches(K8S_NAME_PATTERN, s, i, j) <==> i == 0 && j == |s| && Accepted(s)
  {
    PatternMatches(s, i, j);
    if 0 < j {
      InnerMatches(s, 1, j);
    }
  }

  lemma MatchIsAccepted(s: string)
    ensures ValidK8sName(s) <==> Accepted(s)
  {
    if ValidK8sName(s) {
      var i, j :| 0 <= i <= j <= |s| && Matches(K8S_NAME_PATTERN, s, i, j);
      WholeMatch(s, i, j);
    }
    WholeMatch(s, 0, |s|);
  }

  /** The expression accepts exactly the labels: every string, both directions. */
  lemma ValidNamesAreLabels(s: string)
    ensures ValidK8sName(s) <==> Label(s)
  {
    MatchIsAccepted(s);
    forall i | 0 <= i < |s|
      ensures In(s[i], ALNUM.ranges) <==> LetterOrDigit(s[i])
      ensures In(s[i], ALNUM_DASH.ranges) <==> LetterOrDigit(s[i]) || s[i] == '-'
    {
      ClassesAreRanges(s[i]);
    }
  }
}
