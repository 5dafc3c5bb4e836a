/** The parts of Node's POSIX `path` module that the replay compiler calls, for absolute inputs. */
module NodePath {
  import opened Common

  predicate IsAbsolute(p: string) { p != "" && p[0] == '/' }

  predicate StartsWith(s: string, prefix: string) { |prefix| <= |s| && s[..|prefix|] == prefix }

  /** `String.prototype.includes`. */
  predicate Includes(s: string, part: string)
  {
    StartsWith(s, part) || (s != "" && Includes(s[1..], part))
  }

  function Split(s: string): (r: seq<string>)
    ensures r != []
    ensures forall seg :: seg in r ==> '/' !in seg
  {
    if s == "" then [""]
    else
      var rest := Split(s[1..]);
      if s[0] == '/' then [""] + rest else [[s[0]] + rest[0]] + rest[1..]
  }

  function Join(segments: seq<string>): string
  {
    if segments == [] then ""
    else if |segments| == 1 then segments[0]
    else segments[0] + "/" + Join(segments[1..])
  }

  /** A component that normalization leaves alone. */
  predicate Plain(segment: string)
  {
    segment != "" && segment != "." && segment != ".." && '/' !in segment
  }

  predicate AllPlain(segments: seq<string>)
  {
    forall i :: 0 <= i < |segments| ==> Plain(segments[i])
  }

  /** Dot segments disappear; a parent segment removes the component before it. */
  function Normal(stack: seq<string>, segments: seq<string>): (r: seq<string>)
    requires AllPlain(stack)
    requires forall seg :: seg in segments ==> '/' !in seg
    ensures AllPlain(r)
    decreases |segments|
  {
    if segments == [] then stack
    else
      var head := segments[0];
      var next :=
        if head == "" || head == "." then stack
        else if head == ".." then if stack == [] then stack else stack[..|stack| - 1]
        else stack + [head];
      Normal(next, segments[1..])
  }

  /** The components of an absolute path, resolved. */
  function Resolved(p: string): (r: seq<string>)
    ensures AllPlain(r)
  {
    Normal([], Split(p))
  }

  function CommonPrefix(a: seq<string>, b: seq<string>): (n: nat)
    ensures n <= |a| && n <= |b|
    ensures a[..n] == b[..n]
    ensures n < |a| && n < |b| ==> a[n] != b[n]
  {
    if a == [] || b == [] || a[0] != b[0] then 0 else 1 + CommonPrefix(a[1..], b[1..])
  }

  /** `path.relative`. */
  function Relative(from: string, to: string): string
  {
    var a, b := Resolved(from), Resolved(to);
    var n := CommonPrefix(a, b);
    Join(seq(|a| - n, _ => "..") + b[n..])
  }

  /** `isPathInside`. */
  predicate IsPathInside(root: string, candidate: string)
  {
    var relative := Relative(root, candidate);
    relative != "" && !StartsWith(relative, "../") && relative != ".." && !IsAbsolute(relative)
  }

  /** `path.join` of an absolute directory and further parts. */
  function PathJoin(directory: string, parts: seq<string>): string
  {
    var joined := Join([directory] + parts);
    var segments := Resolved(joined);
    "/" + Join(segments) + (if segments != [] && joined[|joined| - 1..] == "/" then "/" else "")
  }

  // ---- properties ----

  lemma {:induction false} SplitConcat(a: string, b: string)
    ensures Split(a + "/" + b) == Split(a) + Split(b)
  {
    var s := a + "/" + b;
    if a == "" {
      assert s[1..] == b;
    } else {
      assert s[0] == a[0] && s[1..] == a[1..] + "/" + b;
      SplitConcat(a[1..], b);
    }
  }

  lemma {:induction false} SplitOne(segment: string)
    requires '/' !in segment
    ensures Split(segment) == [segment]
  {
    if segment != "" {
      SplitOne(segment[1..]);
      assert segment == [segment[0]] + segment[1..];
    }
  }

  lemma {:induction false} SplitJoin(segments: seq<string>)
    requires segments != []
    requires forall i :: 0 <= i < |segments| ==> '/' !in segments[i]
    ensures Split(Join(segments)) == segments
  {
    SplitOne(segments[0]);
    if |segments| > 1 {
      SplitJoin(segments[1..]);
      SplitConcat(segments[0], Join(segments[1..]));
      assert segments == [segments[0]] + segments[1..];
    }
  }

  lemma {:induction false} JoinSplit(s: string)
    ensures Join(Split(s)) == s
  {
    if s != "" {
      JoinSplit(s[1..]);
      var rest := Split(s[1..]);
      assert s == [s[0]] + s[1..];
      if s[0] == '/' {
        assert ([""] + rest)[1..] == rest;
      } else {
        var r := [[s[0]] + rest[0]] + rest[1..];
        assert r[1..] == rest[1..];
      }
    }
  }

  lemma {:induction false} NormalConcat(stack: seq<string>, a: seq<string>, b: seq<string>)
    requires AllPlain(stack)
    requires forall seg :: seg in a ==> '/' !in seg
    requires forall seg :: seg in b ==> '/' !in seg
    ensures Normal(stack, a + b) == Normal(Normal(stack, a), b)
    decreases |a|
  {
    if a == [] {
      assert a + b == b;
    } else {
      assert (a + b)[0] == a[0] && (a + b)[1..] == a[1..] + b;
      var head := a[0];
      var next :=
        if head == "" || head == "." then stack
        else if head == ".." then if stack == [] then stack else stack[..|stack| - 1]
        else stack + [head];
      NormalConcat(next, a[1..], b);
    }
  }

  lemma {:induction false} NormalPlain(stack: seq<string>, segments: seq<string>)
    requires AllPlain(stack) && AllPlain(segments)
    ensures Normal(stack, segments) == stack + segments
    decreases |segments|
  {
    if segments == [] {
      assert stack + segments == stack;
    } else {
      NormalPlain(stack + [segments[0]], segments[1..]);
      assert stack + [segments[0]] + segments[1..] == stack + segments;
    }
  }

  /** Appending plain components to an absolute path appends them to its resolution. */
  lemma ResolvedBelow(root: string, tail: seq<string>)
    requires tail != [] && AllPlain(tail)
    ensures Resolved(root + "/" + Join(tail)) == Resolved(root) + tail
  {
    SplitJoin(tail);
    SplitConcat(root, Join(tail));
    NormalConcat([], Split(root), tail);
    NormalPlain(Resolved(root), tail);
  }

  lemma JoinHead(segments: seq<string>)
    requires |segments| > 0
    ensures |segments| == 1 ==> Join(segments) == segments[0]
    ensures |segments| > 1 ==> StartsWith(Join(segments), segments[0] + "/")
  {
    if |segments| > 1 {
      assert (segments[0] + "/" + Join(segments[1..]))[..|segments[0]| + 1] == segments[0] + "/";
    }
  }

  lemma ParentHead(s: string)
    ensures s == ".." || StartsWith(s, "../") ==> Split(s)[0] == ".."
  {
    SplitOne("..");
    if StartsWith(s, "../") {
      assert s == ".." + "/" + s[3..];
      SplitConcat("..", s[3..]);
    }
  }

  /** What the source's textual test on the relative path decides: containment of the components. */
  lemma InsideMeansBelow(root: string, candidate: string)
    ensures IsPathInside(root, candidate) <==>
            |Resolved(root)| < |Resolved(candidate)| && Resolved(candidate)[..|Resolved(root)|] == Resolved(root)
    ensures IsPathInside(root, candidate) ==> Relative(root, candidate) == Join(Resolved(candidate)[|Resolved(root)|..])
  {
    var a, b := Resolved(root), Resolved(candidate);
    var n := CommonPrefix(a, b);
    var segments := seq(|a| - n, _ => "..") + b[n..];
    assert |a| <= |b| ==> forall i :: 0 <= i < |a| ==> b[..|a|][i] == b[i];
    if n < |a| {
      assert segments[0] == "..";
      JoinHead(segments);
    } else {
      assert a[..n] == a && b[..n] == a;
      assert segments == b[n..];
      if n < |b| {
        var first := b[n];
        assert Plain(first);
        JoinHead(segments);
        var joined := Join(segments);
        assert joined[0] == first[0] && first[0] in first && first[0] != '/';
        SplitJoin(segments);
        ParentHead(joined);
      }
    }
  }
}
