// Cutting strings at separators.

module Strings {

  // The parts before and after the first occurrence of the separator.
  datatype Parts = Whole | Cut(before: string, after: string)

  predicate StartsWith(s: string, prefix: string) {
    |prefix| <= |s| && s[..|prefix|] == prefix
  }

  function CutAt(s: string, sep: string): Parts
    decreases |s|
  {
    if StartsWith(s, sep) then Cut("", s[|sep|..])
    else if s == "" then Whole
    else
      var rest := CutAt(s[1..], sep);
      if rest.Whole? then Whole else Cut([s[0]] + rest.before, rest.after)
  }

  // The first occurrence is found: nothing before it can begin the separator.
  lemma {:induction false} CutFinds(a: string, sep: string, x: string)
    requires sep != "" && sep[0] !in a
    ensures CutAt(a + sep + x, sep) == Cut(a, x)
    decreases |a|
  {
    var s := a + sep + x;
    if a == "" {
      assert s[..|sep|] == sep && s[|sep|..] == x;
    } else {
      assert s[0] == a[0];
      assert s[1..] == a[1..] + sep + x;
      CutFinds(a[1..], sep, x);
      assert [a[0]] + a[1..] == a;
    }
  }

  lemma JoinMore(s: string, before: string, sep: string, after: string)
    requires s != "" && before + sep + after == s[1..]
    ensures [s[0]] + before + sep + after == s
  {
    assert [s[0]] + before + sep + after == [s[0]] + (before + sep + after);
  }

  lemma JoinFirst(s: string, sep: string)
    requires StartsWith(s, sep)
    ensures "" + sep + s[|sep|..] == s
  {
  }

  // What a cut returns puts the string together again.
  lemma {:induction false} CutJoins(s: string, sep: string)
    ensures CutAt(s, sep).Cut? ==> CutAt(s, sep).before + sep + CutAt(s, sep).after == s
    decreases |s|
  {
    if StartsWith(s, sep) {
      JoinFirst(s, sep);
    } else if s != "" {
      CutJoins(s[1..], sep);
      var rest := CutAt(s[1..], sep);
      if rest.Cut? {
        JoinMore(s, rest.before, sep, rest.after);
      }
    }
  }

  // A cut at a single character is at its first occurrence.
  lemma {:induction false} CutIsFirst(s: string, mark: char)
    ensures CutAt(s, [mark]).Cut? ==> mark !in CutAt(s, [mark]).before
    decreases |s|
  {
    if s != "" {
      CutIsFirst(s[1..], mark);
    }
  }

  // Two texts up to a mark that neither contains are equal when they continue equally.
  lemma CutAtMark(mark: char, a: string, b: string, x: string, y: string)
    requires mark !in a && mark !in b && a + [mark] + x == b + [mark] + y
    ensures a == b && x == y
  {
    CutFinds(a, [mark], x);
    CutFinds(b, [mark], y);
  }

  lemma SamePrefix(a: string, x: string, y: string)
    requires a + x == a + y
    ensures x == y
  {
    assert x == (a + x)[|a|..] && y == (a + y)[|a|..];
  }
}
