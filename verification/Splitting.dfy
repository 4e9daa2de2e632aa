/**
 Splitting a sequence at a separator and joining it again, as `strings.Split`, `bytes.Split`
 and `strings.Join` do with a one-element separator.
 */
module Splitting {

  /** The segments of `s` between separators; there is always at least one. */
  function Split<T(==)>(s: seq<T>, sep: T): (r: seq<seq<T>>)
    ensures |r| >= 1
  {
    if s == [] then [[]]
    else
      var r := Split(s[1..], sep);
      if s[0] == sep then [[]] + r else [[s[0]] + r[0]] + r[1..]
  }

  function Join<T>(parts: seq<seq<T>>, sep: T): (r: seq<T>)
  {
    if |parts| == 0 then []
    else if |parts| == 1 then parts[0]
    else parts[0] + [sep] + Join(parts[1..], sep)
  }

  /** The segment after the last separator. */
  function Tail<T(==)>(s: seq<T>, sep: T): (r: seq<T>)
  {
    var parts := Split(s, sep);
    parts[|parts| - 1]
  }

  function NonEmpty<T(==)>(parts: seq<seq<T>>): (r: seq<seq<T>>)
  {
    if parts == [] then []
    else if parts[0] == [] then NonEmpty(parts[1..])
    else [parts[0]] + NonEmpty(parts[1..])
  }

  lemma {:induction false} SplitFree<T>(s: seq<T>, sep: T)
    ensures forall i :: 0 <= i < |Split(s, sep)| ==> sep !in Split(s, sep)[i]
    ensures |Split(s, sep)| == 1 <==> sep !in s
    ensures sep !in s ==> Split(s, sep) == [s]
  {
    if s != [] {
      SplitFree(s[1..], sep);
      assert s == [s[0]] + s[1..];
    }
  }

  /** Splitting loses nothing. */
  lemma {:induction false} JoinSplit<T>(s: seq<T>, sep: T)
    ensures Join(Split(s, sep), sep) == s
  {
    if s != [] {
      JoinSplit(s[1..], sep);
      var r := Split(s[1..], sep);
      var q := Split(s, sep);
      if s[0] == sep {
        assert q[1..] == r;
      } else {
        assert q[1..] == r[1..];
        if |r| > 1 {
          assert Join(r, sep) == r[0] + [sep] + Join(r[1..], sep);
        }
      }
      assert s == [s[0]] + s[1..];
    }
  }

  /** Segments `p` followed by segments `q`, with the last of `p` glued to the first of `q`. */
  function Glue<T>(p: seq<seq<T>>, q: seq<seq<T>>): (r: seq<seq<T>>)
    requires |p| >= 1 && |q| >= 1
  {
    p[..|p| - 1] + [p[|p| - 1] + q[0]] + q[1..]
  }

  /** Splitting a concatenation glues the last segment of one to the first segment of the other. */
  lemma {:induction false} SplitConcat<T>(a: seq<T>, b: seq<T>, sep: T)
    ensures Split(a + b, sep) == Glue(Split(a, sep), Split(b, sep))
  {
    var q := Split(b, sep);
    if a == [] {
      assert a + b == b;
      assert [] + q[0] == q[0];
    } else {
      assert (a + b)[1..] == a[1..] + b;
      SplitConcat(a[1..], b, sep);
      GlueCons(a[0], Split(a[1..], sep), q);
    }
  }

  lemma GlueCons<T>(x: T, p: seq<seq<T>>, q: seq<seq<T>>)
    requires |p| >= 1 && |q| >= 1
    ensures Glue([[]] + p, q) == [[]] + Glue(p, q)
    ensures Glue([[x] + p[0]] + p[1..], q) == [[x] + Glue(p, q)[0]] + Glue(p, q)[1..]
  {
    assert ([[]] + p)[..|p|] == [[]] + p[..|p| - 1];
    var p' := [[x] + p[0]] + p[1..];
    if |p| == 1 {
      assert p' == [[x] + p[0]];
      assert ([x] + p[0]) + q[0] == [x] + (p[0] + q[0]);
    } else {
      assert p'[..|p| - 1] == [[x] + p[0]] + p[1..|p| - 1];
      assert Glue(p, q)[1..] == p[1..|p| - 1] + [p[|p| - 1] + q[0]] + q[1..];
    }
  }

  /** A separator-free head is the first segment. */
  lemma SplitHead<T>(head: seq<T>, rest: seq<T>, sep: T)
    requires sep !in head
    ensures Split(head + [sep] + rest, sep) == [head] + Split(rest, sep)
  {
    SplitFree(head, sep);
    SplitConcat(head, [sep] + rest, sep);
    assert head + [sep] + rest == head + ([sep] + rest);
    assert ([sep] + rest)[1..] == rest;
    assert head + [] == head;
  }

  /** The converse of JoinSplit: separator-free parts come back unchanged. */
  lemma {:induction false} SplitJoin<T>(parts: seq<seq<T>>, sep: T)
    requires |parts| >= 1
    requires forall i :: 0 <= i < |parts| ==> sep !in parts[i]
    ensures Split(Join(parts, sep), sep) == parts
  {
    if |parts| == 1 {
      SplitFree(parts[0], sep);
      assert parts == [parts[0]];
    } else {
      SplitJoin(parts[1..], sep);
      SplitHead(parts[0], Join(parts[1..], sep), sep);
    }
  }

  lemma {:induction false} NonEmptyConcat<T>(a: seq<seq<T>>, b: seq<seq<T>>)
    ensures NonEmpty(a + b) == NonEmpty(a) + NonEmpty(b)
  {
    if a == [] {
      assert a + b == b;
    } else {
      assert (a + b)[1..] == a[1..] + b;
      NonEmptyConcat(a[1..], b);
    }
  }
}
