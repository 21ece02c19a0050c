/**
 * Text helpers shared by the path builder and the code generator: joining
 * pieces with a separator (JavaScript's `Array.prototype.join` and the
 * template strings built from it) and the splitting that reads such text back.
 */
module Text {

  /** The pieces with `sep` between neighbours; the empty list gives "". */
  function Join(parts: seq<string>, sep: string): (r: string)
    ensures |parts| == 0 ==> r == ""
    ensures |parts| >= 1 ==> |r| >= |parts[0]| && r[..|parts[0]|] == parts[0]
  {
    if |parts| == 0 then ""
    else if |parts| == 1 then parts[0]
    else parts[0] + sep + Join(parts[1..], sep)
  }

  /** A piece in front of a non-empty list joins as that piece, the separator and the rest. */
  lemma JoinCons(x: string, rest: seq<string>, sep: string)
    requires |rest| >= 1
    ensures Join([x] + rest, sep) == x + sep + Join(rest, sep)
  {
    assert ([x] + rest)[1..] == rest;
  }

  /** Cuts `s` at every occurrence of `c`; the pieces never contain `c`. */
  function Split(s: string, c: char): (r: seq<string>)
    ensures |r| >= 1
    ensures c !in s ==> r == [s]
    ensures forall i :: 0 <= i < |r| ==> c !in r[i]
  {
    if |s| == 0 then [""]
    else
      var rest := Split(s[1..], c);
      assert s == [s[0]] + s[1..];
      if s[0] == c then [""] + rest
      else [[s[0]] + rest[0]] + rest[1..]
  }

  /** Every piece after the first, prefixed by `tail`. */
  function PrefixEach(tail: string, parts: seq<string>): (r: seq<string>)
  {
    seq(|parts|, i requires 0 <= i < |parts| => tail + parts[i])
  }

  /** A leading piece without `c` is split off at the first `c`. */
  lemma {:induction false} SplitAtFirst(p: string, t: string, c: char)
    requires c !in p
    ensures Split(p + [c] + t, c) == [p] + Split(t, c)
  {
    if |p| == 0 {
      assert p + [c] + t == [c] + t;
      assert ([c] + t)[1..] == t;
    } else {
      assert (p + [c] + t)[1..] == p[1..] + [c] + t;
      SplitAtFirst(p[1..], t, c);
      assert [p[0]] + p[1..] == p;
    }
  }

  /** Three pieces without `c`, joined by `c`, split back into those pieces. */
  lemma SplitThree(a: string, b: string, d: string, c: char)
    requires c !in a && c !in b && c !in d
    ensures Split(a + [c] + (b + [c] + d), c) == [a, b, d]
  {
    SplitAtFirst(a, b + [c] + d, c);
    SplitAtFirst(b, d, c);
  }

  /**
   * Joining with a separator that starts with `c` and splitting at `c` gives
   * the pieces back, each after the first carrying the rest of the separator.
   */
  lemma {:induction false} SplitJoinFrom(x: string, parts: seq<string>, c: char, tail: string)
    requires |parts| >= 1
    requires c !in x && c !in tail
    requires forall i :: 0 <= i < |parts| ==> c !in parts[i]
    ensures Split(x + Join(parts, [c] + tail), c) == [x + parts[0]] + PrefixEach(tail, parts[1..])
    decreases |parts|
  {
    var sep := [c] + tail;
    if |parts| == 1 {
      assert c !in x + parts[0];
    } else {
      var rest := Join(parts[1..], sep);
      assert x + Join(parts, sep) == (x + parts[0]) + [c] + (tail + rest);
      assert c !in x + parts[0];
      SplitAtFirst(x + parts[0], tail + rest, c);
      SplitJoinFrom(tail, parts[1..], c, tail);
      assert PrefixEach(tail, parts[1..]) == [tail + parts[1]] + PrefixEach(tail, parts[2..]);
    }
  }

  /** Joining with a one-character separator and splitting at it is the identity. */
  lemma {:induction false} SplitJoin(parts: seq<string>, c: char)
    requires |parts| >= 1
    requires forall i :: 0 <= i < |parts| ==> c !in parts[i]
    ensures Split(Join(parts, [c]), c) == parts
  {
    var sep: string := [c] + "";
    assert sep == [c];
    var joined := Join(parts, sep);
    SplitJoinFrom("", parts, c, "");
    var ps := PrefixEach("", parts[1..]);
    assert Split("" + joined, c) == ["" + parts[0]] + ps;
    assert "" + joined == joined;
    assert "" + parts[0] == parts[0];
    assert Split(joined, c) == [parts[0]] + ps;
    assert forall i :: 0 <= i < |ps| ==> ps[i] == parts[1..][i];
    assert ps == parts[1..];
    assert [parts[0]] + parts[1..] == parts;
  }

  /**
   * How the pieces of two texts combine when the texts are concatenated: the
   * last piece of the first and the first piece of the second fuse.
   */
  function Glue(xs: seq<string>, ys: seq<string>): seq<string>
    requires |xs| >= 1 && |ys| >= 1
  {
    xs[..|xs| - 1] + [xs[|xs| - 1] + ys[0]] + ys[1..]
  }

  /** An empty leading piece stays in front when gluing. */
  lemma GlueEmptyFront(xs: seq<string>, ys: seq<string>)
    requires |xs| >= 1 && |ys| >= 1
    ensures Glue([""] + xs, ys) == [""] + Glue(xs, ys)
  {
  }

  /** A character put in front of the first piece stays in front when gluing. */
  lemma GlueCharFront(h: char, xs: seq<string>, ys: seq<string>)
    requires |xs| >= 1 && |ys| >= 1
    ensures var g := Glue(xs, ys);
      Glue([[h] + xs[0]] + xs[1..], ys) == [[h] + g[0]] + g[1..]
  {
    var g := Glue(xs, ys);
    var zs := [[h] + xs[0]] + xs[1..];
    if |xs| == 1 {
      assert zs == [[h] + xs[0]];
      assert Glue(zs, ys) == [[h] + xs[0] + ys[0]] + ys[1..];
      assert g == [xs[0] + ys[0]] + ys[1..];
      assert g[0] == xs[0] + ys[0] && g[1..] == ys[1..];
      assert [h] + xs[0] + ys[0] == [h] + (xs[0] + ys[0]);
    } else {
      assert zs[..|zs| - 1] == [[h] + xs[0]] + xs[1..|xs| - 1];
      assert zs[|zs| - 1] == xs[|xs| - 1];
      assert xs[..|xs| - 1] == [xs[0]] + xs[1..|xs| - 1];
      assert g == [xs[0]] + (xs[1..|xs| - 1] + [xs[|xs| - 1] + ys[0]] + ys[1..]);
    }
  }

  /** Splitting a concatenation is gluing the splits of its halves. */
  lemma {:induction false} SplitConcat(a: string, b: string, c: char)
    ensures Split(a + b, c) == Glue(Split(a, c), Split(b, c))
    decreases |a|
  {
    var ys := Split(b, c);
    if |a| == 0 {
      assert a + b == b;
      assert "" + ys[0] == ys[0];
      assert [ys[0]] + ys[1..] == ys;
      assert Glue([""], ys) == [] + [ys[0]] + ys[1..];
    } else {
      var xs := Split(a[1..], c);
      SplitConcat(a[1..], b, c);
      assert (a + b)[1..] == a[1..] + b;
      assert (a + b)[0] == a[0];
      if a[0] == c {
        GlueEmptyFront(xs, ys);
      } else {
        GlueCharFront(a[0], xs, ys);
      }
    }
  }
}
