/**
 * Node's POSIX `path.join` and `path.normalize`, at the level of '/'-separated segments.
 * `join` glues its non-empty arguments with '/', answers "." when nothing is left, and
 * normalises: empty and "." segments vanish, ".." removes the segment before it (or stays,
 * in a relative path with nothing left to remove), and the leading '/' and a trailing '/'
 * survive.
 */
module NodePath {
  import opened Text

  predicate NotSlash(c: char) { c != '/' }

  /** `p.split('/')`: the text between separators, so "a//b/" gives ["a", "", "b", ""]. */
  function Split(p: string): (r: seq<string>)
    ensures |r| >= 1
    ensures forall i :: 0 <= i < |r| ==> '/' !in r[i]
    decreases |p|
  {
    var i := SpanEnd(p, 0, NotSlash);
    assert forall c :: c in p[..i] ==> NotSlash(c);
    if i == |p| then [p] else [p[..i]] + Split(p[i + 1..])
  }

  /** `segs.join('/')`. */
  function JoinSlash(segs: seq<string>): (r: string)
    ensures (forall i :: 0 <= i < |segs| ==> segs[i] != "") ==> (segs == [] <==> r == "")
  {
    if segs == [] then ""
    else if |segs| == 1 then segs[0]
    else segs[0] + "/" + JoinSlash(segs[1..])
  }

  /** One segment of the normalisation walk over the segments kept so far. */
  function Step(kept: seq<string>, seg: string, allowAboveRoot: bool): seq<string> {
    if seg == "" || seg == "." then kept
    else if seg == ".." then
      if |kept| > 0 && kept[|kept| - 1] != ".." then kept[..|kept| - 1]
      else if allowAboveRoot then kept + [".."]
      else kept
    else kept + [seg]
  }

  function ResolveFrom(segs: seq<string>, allowAboveRoot: bool, kept: seq<string>): seq<string>
    decreases |segs|
  {
    if segs == [] then kept
    else ResolveFrom(segs[1..], allowAboveRoot, Step(kept, segs[0], allowAboveRoot))
  }

  /** The segments that survive normalisation; ".." may only survive in a relative path. */
  function Resolve(segs: seq<string>, allowAboveRoot: bool): seq<string> {
    ResolveFrom(segs, allowAboveRoot, [])
  }

  /** A kept segment is never empty and never "."; in an absolute path never "..". */
  predicate Clean(kept: seq<string>, allowAboveRoot: bool) {
    forall i :: 0 <= i < |kept| ==>
      kept[i] != "" && kept[i] != "." && (!allowAboveRoot ==> kept[i] != "..")
  }

  lemma {:induction false} ResolveFromClean(segs: seq<string>, allowAboveRoot: bool, kept: seq<string>)
    requires Clean(kept, allowAboveRoot)
    ensures Clean(ResolveFrom(segs, allowAboveRoot, kept), allowAboveRoot)
    decreases |segs|
  {
    if segs != [] {
      var next := Step(kept, segs[0], allowAboveRoot);
      assert Clean(next, allowAboveRoot);
      ResolveFromClean(segs[1..], allowAboveRoot, next);
    }
  }

  /** `path.normalize(p)`. */
  function Normalize(p: string): (r: string)
    ensures r != ""
  {
    if p == "" then "."
    else
      var isAbsolute := p[0] == '/';
      var trailingSeparator := p[|p| - 1] == '/';
      var body := JoinSlash(Resolve(Split(p), !isAbsolute));
      if body == "" then
        if isAbsolute then "/" else if trailingSeparator then "./" else "."
      else
        (if isAbsolute then "/" else "") + body + (if trailingSeparator then "/" else "")
  }

  /** `path.join(a, b)`: never empty, so a caller's `|| fallback` after it never applies. */
  function Join(a: string, b: string): (r: string)
    ensures r != ""
    ensures a == "" && b == "" ==> r == "."
  {
    var joined := if a == "" then b else if b == "" then a else a + "/" + b;
    if joined == "" then "." else Normalize(joined)
  }

  /** Normalisation keeps no empty or "." segment, and in an absolute path no "..". */
  lemma NormalizeClean(p: string)
    requires p != ""
    ensures Clean(Resolve(Split(p), p[0] != '/'), p[0] != '/')
  {
    ResolveFromClean(Split(p), p[0] != '/', []);
  }

  /** `path.basename(p, ext)`: the last segment, with `ext` cut off its end unless that would
      leave nothing. */
  function Basename(p: string, ext: string): (r: string)
    ensures '/' !in r
    ensures |r| <= |Split(p)[|Split(p)| - 1]|
    ensures var last := Split(p)[|Split(p)| - 1];
      r == last || (0 < |r| && r + ext == last)
    ensures var last := Split(p)[|Split(p)| - 1];
      r != last <==> 0 < |ext| < |last| && last[|last| - |ext|..] == ext
  {
    var segs := Split(p);
    var base := segs[|segs| - 1];
    assert '/' !in base;
    if 0 < |ext| < |base| && base[|base| - |ext|..] == ext then
      assert forall c :: c in base[..|base| - |ext|] ==> c in base;
      base[..|base| - |ext|]
    else base
  }

  /** Text without a '/' is a single segment. */
  lemma SplitNoSlash(a: string)
    requires '/' !in a
    ensures Split(a) == [a]
  {
    SpanEndAt(a, |a|);
  }

  /** A '/' after slash-free text ends the first segment. */
  lemma SplitFirst(a: string, rest: string)
    requires '/' !in a
    ensures Split(a + "/" + rest) == [a] + Split(rest)
  {
    var p := a + "/" + rest;
    SpanEndAt(p, |a|);
    assert p[..|a|] == a && p[|a| + 1..] == rest;
  }

  /** The first separator of `p` is at `j`. */
  lemma SpanEndAt(p: string, j: nat)
    requires j <= |p|
    requires forall k :: 0 <= k < j ==> p[k] != '/'
    requires j < |p| ==> p[j] == '/'
    ensures SpanEnd(p, 0, NotSlash) == j
  {
  }

  /** A segment that normalisation keeps as it is. */
  predicate PlainSegment(a: string) {
    '/' !in a && a != "" && a != "." && a != ".."
  }

  /** A leading '/' opens an empty first segment. */
  lemma SplitLeading(rest: string)
    ensures Split("/" + rest) == [""] + Split(rest)
  {
    SpanEndAt("/" + rest, 0);
    assert ("/" + rest)[1..] == rest;
  }

  /** "/a//b" splits around its three separators. */
  lemma SplitDoubled(a: string, b: string)
    requires '/' !in a && '/' !in b
    ensures Split(("/" + a) + "/" + ("/" + b)) == [""] + ([a] + ([""] + [b]))
  {
    var tail := "/" + b;
    var rest := a + "/" + tail;
    assert ("/" + a) + "/" + ("/" + b) == "/" + rest;
    SplitLeading(rest);
    SplitFirst(a, tail);
    SplitLeading(b);
    SplitNoSlash(b);
  }

  /** The walk takes the first segment, then goes on with the rest. */
  lemma ResolveFirst(seg: string, rest: seq<string>, allowAboveRoot: bool, kept: seq<string>)
    ensures ResolveFrom([seg] + rest, allowAboveRoot, kept) ==
            ResolveFrom(rest, allowAboveRoot, Step(kept, seg, allowAboveRoot))
  {
    assert ([seg] + rest)[1..] == rest;
  }

  /** The empty segments vanish and the plain ones stay, in order. */
  lemma ResolveDoubled(a: string, b: string)
    requires PlainSegment(a) && PlainSegment(b)
    ensures Resolve([""] + ([a] + ([""] + [b])), false) == [a, b]
  {
    ResolveFirst("", [a] + ([""] + [b]), false, []);
    ResolveFirst(a, [""] + [b], false, []);
    assert Step([], a, false) == [a];
    ResolveFirst("", [b], false, [a]);
    assert ResolveFrom([b], false, [a]) == [a, b] by {
      assert [b][1..] == [];
    }
  }

  /** A controller base path and a route argument, each with its own leading '/', join to
      "/base/route": the doubled separator between them collapses. */
  lemma JoinSegments(a: string, b: string)
    requires PlainSegment(a) && PlainSegment(b)
    ensures Join("/" + a, "/" + b) == "/" + a + "/" + b
  {
    var joined := ("/" + a) + "/" + ("/" + b);
    SplitDoubled(a, b);
    ResolveDoubled(a, b);
    assert JoinSlash([a, b]) == a + "/" + b by {
      assert [a, b][1..] == [b];
    }
    var body := JoinSlash(Resolve(Split(joined), false));
    assert body == a + "/" + b;
    assert joined[0] == '/';
    assert joined[|joined| - 1] == b[|b| - 1] != '/';
    assert Normalize(joined) == "/" + body + "";
  }

  /** Two empty arguments join to ".", never to "/". */
  lemma JoinEmpty()
    ensures Join("", "") == "."
    ensures Join("", "/") == "/"
  {
    assert Split("/") == ["", ""] by {
      assert SpanEnd("/", 0, NotSlash) == 0;
    }
  }
}
