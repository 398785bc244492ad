/**
 * URL paths as sequences of segments.  A path such as "/v2/orgs/o1/keys" is
 * the segments ["", "v2", "orgs", "o1", "keys"] joined with '/'.  Splitting
 * and joining are inverse to each other, so a path built by the client can be
 * read back segment by segment.
 */
module Paths {

  /** No '/' occurs in `s`, so `s` is a single path segment. */
  predicate NoSlash(s: string) {
    forall i :: 0 <= i < |s| ==> s[i] != '/'
  }

  /** Every element of `parts` is a single path segment. */
  predicate AllSegments(parts: seq<string>) {
    forall i :: 0 <= i < |parts| ==> NoSlash(parts[i])
  }

  /** `parts` joined with '/' between neighbours. */
  function Join(parts: seq<string>): string
    requires |parts| >= 1
  {
    if |parts| == 1 then parts[0] else parts[0] + "/" + Join(parts[1..])
  }

  /** `s` cut at every '/': the pieces between the slashes, in order. */
  function Split(s: string): (parts: seq<string>)
    ensures |parts| >= 1
    ensures AllSegments(parts)
  {
    if s == [] then [""]
    else
      var rest := Split(s[1..]);
      if s[0] == '/' then [""] + rest
      else [[s[0]] + rest[0]] + rest[1..]
  }

  /** The absolute path whose segments after the leading '/' are `segs`. */
  function Absolute(segs: seq<string>): string
    requires |segs| >= 1
  {
    Join([""] + segs)
  }

  /** Joining and splitting: splitting a joined path gives back its segments. */
  lemma {:induction false} SplitJoin(parts: seq<string>)
    requires |parts| >= 1 && AllSegments(parts)
    ensures Split(Join(parts)) == parts
  {
    if |parts| == 1 {
      SplitSegment(parts[0]);
    } else {
      SplitJoin(parts[1..]);
      SplitCons(parts[0], Join(parts[1..]));
      assert parts == [parts[0]] + parts[1..];
    }
  }

  /** Splitting and joining: joining the pieces of a split gives back the string. */
  lemma {:induction false} JoinSplit(s: string)
    ensures Join(Split(s)) == s
  {
    if s != [] {
      var rest := Split(s[1..]);
      JoinSplit(s[1..]);
      if s[0] == '/' {
        assert ([""] + rest)[1..] == rest;
      } else {
        var parts := [[s[0]] + rest[0]] + rest[1..];
        assert parts[1..] == rest[1..];
        if |rest| > 1 {
          assert Join(rest) == rest[0] + "/" + Join(rest[1..]);
        }
        assert s == [s[0]] + s[1..];
      }
    }
  }

  /** Two paths with the same segments are the same string, and conversely. */
  lemma SplitInjective(s: string, t: string)
    ensures Split(s) == Split(t) <==> s == t
  {
    JoinSplit(s);
    JoinSplit(t);
  }

  /** A single segment splits to itself. */
  lemma {:induction false} SplitSegment(a: string)
    requires NoSlash(a)
    ensures Split(a) == [a]
  {
    if a != [] {
      SplitSegment(a[1..]);
      assert a == [a[0]] + a[1..];
    }
  }

  /** Splitting a segment followed by '/' peels that segment off. */
  lemma {:induction false} SplitCons(a: string, rest: string)
    requires NoSlash(a)
    ensures Split(a + "/" + rest) == [a] + Split(rest)
  {
    var s := a + "/" + rest;
    if a == [] {
      assert s[1..] == rest;
    } else {
      assert s[1..] == a[1..] + "/" + rest;
      SplitCons(a[1..], rest);
      assert a == [a[0]] + a[1..];
    }
  }

  /** Appending one segment to a joined path adds "/" and that segment. */
  lemma {:induction false} JoinSnoc(parts: seq<string>, x: string)
    requires |parts| >= 1
    ensures Join(parts + [x]) == Join(parts) + "/" + x
  {
    if |parts| == 1 {
      assert (parts + [x])[1..] == [x];
    } else {
      assert (parts + [x])[1..] == parts[1..] + [x];
      JoinSnoc(parts[1..], x);
    }
  }

  /** Appending one segment to an absolute path. */
  lemma AbsoluteSnoc(segs: seq<string>, x: string)
    requires |segs| >= 1
    ensures Absolute(segs + [x]) == Absolute(segs) + "/" + x
  {
    assert [""] + (segs + [x]) == ([""] + segs) + [x];
    JoinSnoc([""] + segs, x);
  }

  /** The path of one segment. */
  lemma AbsoluteSingle(x: string)
    ensures Absolute([x]) == "/" + x
  {
    var parts := [""] + [x];
    assert parts[1..] == [x];
    assert Join(parts) == "" + "/" + Join([x]);
  }

  /** An absolute path of segments splits back to those segments after the leading "". */
  lemma AbsoluteSplit(segs: seq<string>)
    requires |segs| >= 1 && AllSegments(segs)
    ensures Split(Absolute(segs)) == [""] + segs
  {
    assert AllSegments([""] + segs) by {
      forall i | 0 <= i < |[""] + segs| ensures NoSlash(([""] + segs)[i]) {
        if i > 0 { assert ([""] + segs)[i] == segs[i - 1]; }
      }
    }
    SplitJoin([""] + segs);
  }

  /** The path of two segments. */
  lemma AbsolutePair(v: string, x: string)
    ensures Absolute([v, x]) == "/" + v + "/" + x
  {
    AbsoluteSingle(v);
    AbsoluteSnoc([v], x);
    assert [v] + [x] == [v, x];
  }

  /** Appending two segments to an absolute path. */
  lemma AbsoluteSnoc2(segs: seq<string>, x: string, y: string)
    requires |segs| >= 1
    ensures Absolute(segs + [x, y]) == Absolute(segs) + "/" + x + "/" + y
  {
    AbsoluteSnoc(segs, x);
    AbsoluteSnoc(segs + [x], y);
    assert segs + [x] + [y] == segs + [x, y];
  }

  /** `/{v}/{name}/{id}`. */
  lemma IdPath(v: string, name: string, id: string)
    ensures Absolute([v, name, id]) == "/" + v + "/" + name + "/" + id
  {
    AbsolutePair(v, name);
    AbsoluteSnoc([v, name], id);
    assert [v, name] + [id] == [v, name, id];
  }

  /** `/{v}/{name}/{id}/{sub}`. */
  lemma IdSubPath(v: string, name: string, id: string, sub: string)
    ensures Absolute([v, name, id, sub]) == "/" + v + "/" + name + "/" + id + "/" + sub
  {
    IdPath(v, name, id);
    AbsoluteSnoc([v, name, id], sub);
    assert [v, name, id] + [sub] == [v, name, id, sub];
  }

  /** `/{v}/{name}/{id}/{sub}/{id2}`. */
  lemma IdSubIdPath(v: string, name: string, id: string, sub: string, id2: string)
    ensures Absolute([v, name, id, sub, id2]) == "/" + v + "/" + name + "/" + id + "/" + sub + "/" + id2
  {
    IdSubPath(v, name, id, sub);
    AbsoluteSnoc([v, name, id, sub], id2);
    assert [v, name, id, sub] + [id2] == [v, name, id, sub, id2];
  }
}
