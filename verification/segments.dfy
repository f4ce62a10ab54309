/**
 * Splitting a path on '/' and joining segments back with '/'.
 * A server reads a request path as the list of its '/'-separated segments;
 * these two functions are that reading and its inverse.
 */
module Segments {

  /** The pieces of `s` between consecutive '/' characters (like a split on '/'). */
  function Split(s: string): (parts: seq<string>)
    ensures |parts| >= 1
    ensures forall i :: 0 <= i < |parts| ==> '/' !in parts[i]
    decreases |s|
  {
    if s == [] then [""]
    else
      var rest := Split(s[1..]);
      if s[0] == '/' then [""] + rest
      else [[s[0]] + rest[0]] + rest[1..]
  }

  /** The parts joined with a '/' between each pair of neighbours. */
  function Join(parts: seq<string>): string
    requires |parts| >= 1
    decreases |parts|
  {
    if |parts| == 1 then parts[0] else parts[0] + "/" + Join(parts[1..])
  }

  ghost predicate NoSlashIn(parts: seq<string>) {
    forall i :: 0 <= i < |parts| ==> '/' !in parts[i]
  }

  /** Splitting a string that starts with a slash-free prefix `a`. */
  lemma {:induction false} SplitPrefix(a: string, s: string)
    requires '/' !in a
    ensures Split(a + s) == [a + Split(s)[0]] + Split(s)[1..]
    decreases |a|
  {
    if a != [] {
      assert (a + s)[1..] == a[1..] + s;
      assert a[0] in a;
      SplitPrefix(a[1..], s);
      assert [a[0]] + (a[1..] + Split(s)[0]) == a + Split(s)[0];
    } else {
      assert a + s == s && a + Split(s)[0] == Split(s)[0];
    }
  }

  /** Splitting undoes joining, as long as no part holds a '/'. */
  lemma {:induction false} SplitJoin(parts: seq<string>)
    requires |parts| >= 1 && NoSlashIn(parts)
    ensures Split(Join(parts)) == parts
    decreases |parts|
  {
    assert '/' !in parts[0];
    if |parts| == 1 {
      SplitPrefix(parts[0], "");
      assert parts[0] + "" == parts[0];
    } else {
      var tail := parts[1..];
      assert NoSlashIn(tail) by {
        forall i | 0 <= i < |tail| ensures '/' !in tail[i] { assert tail[i] == parts[i + 1]; }
      }
      SplitJoin(tail);
      var j := Join(tail);
      assert Join(parts) == parts[0] + ("/" + j);
      SplitPrefix(parts[0], "/" + j);
      assert ("/" + j)[1..] == j;
      assert Split("/" + j) == [""] + tail;
      assert parts[0] + "" == parts[0];
      assert [parts[0]] + tail == parts;
    }
  }

  /** Joining undoes splitting: every string is the join of its pieces. */
  lemma {:induction false} JoinSplit(s: string)
    ensures Join(Split(s)) == s
    decreases |s|
  {
    if s != [] {
      var rest := Split(s[1..]);
      JoinSplit(s[1..]);
      if s[0] == '/' {
        assert Split(s) == [""] + rest;
        assert ([""] + rest)[1..] == rest;
        assert s == [s[0]] + s[1..];
      } else {
        var parts := Split(s);
        assert parts == [[s[0]] + rest[0]] + rest[1..];
        if |rest| == 1 {
          assert s == [s[0]] + rest[0];
        } else {
          assert parts[1..] == rest[1..];
          assert Join(rest) == rest[0] + "/" + Join(rest[1..]);
          assert s == [s[0]] + s[1..];
        }
      }
    }
  }

  // Joins of a few parts written out, for unfolding small joins in one step.

  lemma Join2(a: string, b: string)
    ensures Join([a, b]) == a + "/" + b
  {
    assert [a, b][1..] == [b];
  }

  lemma Join3(a: string, b: string, c: string)
    ensures Join([a, b, c]) == a + "/" + b + "/" + c
  {
    assert [a, b, c][1..] == [b, c];
    Join2(b, c);
  }

  lemma Join4(a: string, b: string, c: string, d: string)
    ensures Join([a, b, c, d]) == a + "/" + b + "/" + c + "/" + d
  {
    assert [a, b, c, d][1..] == [b, c, d];
    Join3(b, c, d);
  }

  lemma Join5(a: string, b: string, c: string, d: string, e: string)
    ensures Join([a, b, c, d, e]) == a + "/" + b + "/" + c + "/" + d + "/" + e
  {
    assert [a, b, c, d, e][1..] == [b, c, d, e];
    Join4(b, c, d, e);
  }

  lemma Join6(a: string, b: string, c: string, d: string, e: string, f: string)
    ensures Join([a, b, c, d, e, f]) == a + "/" + b + "/" + c + "/" + d + "/" + e + "/" + f
  {
    assert [a, b, c, d, e, f][1..] == [b, c, d, e, f];
    Join5(b, c, d, e, f);
  }

  lemma Join7(a: string, b: string, c: string, d: string, e: string, f: string, g: string)
    ensures Join([a, b, c, d, e, f, g]) == a + "/" + b + "/" + c + "/" + d + "/" + e + "/" + f + "/" + g
  {
    assert [a, b, c, d, e, f, g][1..] == [b, c, d, e, f, g];
    Join6(b, c, d, e, f, g);
  }
}
