/** Splitting text at a separator, as paths and queries are read. */
module Text {
  import opened Wrappers

  function Split(s: string, sep: char): (r: seq<string>)
    ensures |r| >= 1
  {
    if s == "" then [""]
    else
      var rest := Split(s[1..], sep);
      if s[0] == sep then [""] + rest else Prefix(s[0], rest)
  }

  /** One more character in front of the first part. */
  function Prefix(c: char, parts: seq<string>): seq<string>
    requires |parts| >= 1
  {
    [[c] + parts[0]] + parts[1..]
  }

  lemma PrefixOfJoined(c: char, p: seq<string>, q: seq<string>)
    requires |p| >= 1
    ensures Prefix(c, p + q) == Prefix(c, p) + q
  {
    assert (p + q)[1..] == p[1..] + q;
  }

  lemma {:induction false} SplitWhole(s: string, sep: char)
    requires sep !in s
    ensures Split(s, sep) == [s]
  {
    if s != "" {
      SplitWhole(s[1..], sep);
      assert s == [s[0]] + s[1..];
    }
  }

  lemma {:induction false} SplitAt(a: string, b: string, sep: char)
    ensures Split(a + [sep] + b, sep) == Split(a, sep) + Split(b, sep)
  {
    if a == "" {
      assert (a + [sep] + b)[1..] == b;
    } else {
      SplitAt(a[1..], b, sep);
      var head, tail := Split(a[1..], sep), Split(b, sep);
      assert (a + [sep] + b)[1..] == a[1..] + [sep] + b;
      if a[0] == sep {
        assert [""] + (head + tail) == ([""] + head) + tail;
      } else {
        PrefixOfJoined(a[0], head, tail);
      }
    }
  }

  /** What precedes the first separator, and what follows it if there is one. */
  function Cut(s: string, sep: char): (string, Option<string>)
  {
    if s == "" then ("", None)
    else if s[0] == sep then ("", Some(s[1..]))
    else
      var (before, after) := Cut(s[1..], sep);
      ([s[0]] + before, after)
  }

  lemma {:induction false} CutAt(a: string, b: string, sep: char)
    requires sep !in a
    ensures Cut(a + [sep] + b, sep) == (a, Some(b))
  {
    if a == "" {
      assert (a + [sep] + b)[1..] == b;
    } else {
      CutAt(a[1..], b, sep);
      assert a == [a[0]] + a[1..];
      assert (a + [sep] + b)[1..] == a[1..] + [sep] + b;
    }
  }

  lemma {:induction false} CutNowhere(s: string, sep: char)
    requires sep !in s
    ensures Cut(s, sep) == (s, None)
  {
    if s != "" {
      CutNowhere(s[1..], sep);
      assert s == [s[0]] + s[1..];
    }
  }
}
