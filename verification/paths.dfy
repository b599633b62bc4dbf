/** Splitting a logical path such as `sessions/abc/cart` into its segments,
    exactly as `path.split('/')` does: empty segments are kept and the empty
    string yields one empty segment. `Join` is the inverse direction. */
module Paths {

  const Sep: char := '/'

  /** Number of separators in `s`. */
  function Separators(s: string): nat
  {
    if |s| == 0 then 0
    else (if s[0] == Sep then 1 else 0) + Separators(s[1..])
  }

  /** `s.split('/')`. */
  function Split(s: string): (segs: seq<string>)
    ensures |segs| == Separators(s) + 1
    ensures forall i :: 0 <= i < |segs| ==> Sep !in segs[i]
    decreases |s|
  {
    if |s| == 0 then [""]
    else
      var rest := Split(s[1..]);
      if s[0] == Sep then [""] + rest
      else [[s[0]] + rest[0]] + rest[1..]
  }

  /** `segs.join('/')`. */
  function Join(segs: seq<string>): string
    requires |segs| >= 1
  {
    if |segs| == 1 then segs[0] else segs[0] + [Sep] + Join(segs[1..])
  }

  /** Segments free of separators. */
  predicate Clean(segs: seq<string>)
  {
    forall i :: 0 <= i < |segs| ==> Sep !in segs[i]
  }

  /** Splitting then joining gives back the original path, whatever it is. */
  lemma {:induction false} JoinSplit(s: string)
    ensures Join(Split(s)) == s
    decreases |s|
  {
    if |s| == 0 {
    } else {
      var rest := Split(s[1..]);
      JoinSplit(s[1..]);
      if s[0] == Sep {
        assert Split(s) == [""] + rest;
        assert ([""] + rest)[1..] == rest;
      } else {
        var segs := [[s[0]] + rest[0]] + rest[1..];
        assert Split(s) == segs;
        if |rest| == 1 {
          assert Join(segs) == [s[0]] + rest[0];
        } else {
          assert segs[1..] == rest[1..];
          assert Join(rest) == rest[0] + [Sep] + Join(rest[1..]);
          assert Join(segs) == ([s[0]] + rest[0]) + [Sep] + Join(rest[1..]);
        }
        assert s == [s[0]] + s[1..];
      }
    }
  }

  /** A string without separators splits into itself. */
  lemma {:induction false} SplitSingle(a: string)
    requires Sep !in a
    ensures Split(a) == [a]
    decreases |a|
  {
    if |a| > 0 {
      SplitSingle(a[1..]);
      assert [a[0]] + a[1..] == a;
    }
  }

  /** A separator-free head followed by a separator splits off as one segment. */
  lemma {:induction false} SplitCons(a: string, t: string)
    requires Sep !in a
    ensures Split(a + [Sep] + t) == [a] + Split(t)
    decreases |a|
  {
    if |a| == 0 {
      assert a + [Sep] + t == [Sep] + t;
      assert ([Sep] + t)[1..] == t;
    } else {
      var s := a + [Sep] + t;
      assert s[1..] == a[1..] + [Sep] + t;
      SplitCons(a[1..], t);
      var rest := Split(s[1..]);
      assert rest == [a[1..]] + Split(t);
      assert [s[0]] + rest[0] == a;
    }
  }

  /** Joining separator-free segments then splitting gives the segments back. */
  lemma {:induction false} SplitJoin(segs: seq<string>)
    requires |segs| >= 1 && Clean(segs)
    ensures Split(Join(segs)) == segs
    decreases |segs|
  {
    if |segs| == 1 {
      SplitSingle(segs[0]);
    } else {
      SplitCons(segs[0], Join(segs[1..]));
      SplitJoin(segs[1..]);
      assert [segs[0]] + segs[1..] == segs;
    }
  }

  /** Joining with one more segment appends `/` and that segment. */
  lemma {:induction false} JoinSnoc(segs: seq<string>, x: string)
    requires |segs| >= 1
    ensures Join(segs + [x]) == Join(segs) + [Sep] + x
    decreases |segs|
  {
    if |segs| == 1 {
      assert (segs + [x])[1..] == [x];
    } else {
      assert (segs + [x])[1..] == segs[1..] + [x];
      JoinSnoc(segs[1..], x);
    }
  }

  /** Appending `/x` to any path, for a separator-free `x`, appends exactly
      one segment `x` to its split. */
  lemma SplitAppend(p: string, x: string)
    requires Sep !in x
    ensures Split(p + [Sep] + x) == Split(p) + [x]
  {
    var segs := Split(p);
    JoinSplit(p);
    JoinSnoc(segs, x);
    SplitJoin(segs + [x]);
  }
}
