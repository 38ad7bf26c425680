// Path containment of src/git/boundary.js on POSIX paths. A path is the list of its components; it is written with
// a slash before each of them.
module Boundary {
  import opened Text

  type Path = seq<string>

  predicate Component(c: string) {
    c != "" && '/' !in c
  }

  predicate ValidPath(p: Path) {
    forall c :: c in p ==> Component(c)
  }

  // The text of an absolute path.
  function Render(p: Path): string {
    if p == [] then "/" else if |p| == 1 then "/" + p[0] else "/" + p[0] + Render(p[1..])
  }

  predicate EndsWithSeparator(s: string) {
    s != "" && s[|s| - 1] == '/'
  }

  // boundary.js:36-40, after canonicalisation
  function Normalize(p: Path): string {
    if EndsWithSeparator(Render(p)) then Render(p) else Render(p) + "/"
  }

  // ---- The prefix test ----

  // A slash before the first component and after every one.
  function Terminated(p: Path): string {
    if p == [] then "/" else "/" + p[0] + Terminated(p[1..])
  }

  lemma {:induction false} RenderEnd(p: Path)
    requires ValidPath(p)
    ensures EndsWithSeparator(Render(p)) <==> p == []
    ensures p != [] ==> Render(p) + "/" == Terminated(p)
  {
    if |p| == 1 {
      assert Component(p[0]);
      assert Render(p)[|Render(p)| - 1] == p[0][|p[0]| - 1];
      assert p[1..] == [];
    } else if p != [] {
      RenderEnd(p[1..]);
      assert Render(p) + "/" == "/" + p[0] + (Render(p[1..]) + "/");
      assert Render(p)[|Render(p)| - 1] == Render(p[1..])[|Render(p[1..])| - 1];
    }
  }

  lemma {:induction false} NormalizeTerminates(p: Path)
    requires ValidPath(p)
    ensures Normalize(p) == Terminated(p)
  {
    RenderEnd(p);
  }

  lemma {:induction false} TerminatedStarts(p: Path)
    ensures Terminated(p) != "" && Terminated(p)[0] == '/'
  {
  }

  // Two texts that agree up to the first slash after distinct slash-free heads have the same head.
  lemma {:induction false} HeadsAgree(a: string, b: string, s: string, t: string)
    requires '/' !in a && '/' !in b && s != "" && s[0] == '/' && t != "" && t[0] == '/'
    requires b + t <= a + s
    ensures a == b && t <= s
  {
    SlashesAlign(a, b, s, t);
    assert a == (a + s)[..|a|] && b == (b + t)[..|b|];
    assert a == b;
    assert s == (a + s)[|a|..] && t == (b + t)[|b|..];
  }

  lemma {:induction false} SlashesAlign(a: string, b: string, s: string, t: string)
    requires '/' !in a && '/' !in b && s != "" && s[0] == '/' && t != "" && t[0] == '/'
    requires b + t <= a + s
    ensures |a| == |b|
  {
    assert (a + s)[|a|] == '/' && (b + t)[|b|] == '/';
    assert forall i :: 0 <= i < |a| ==> (a + s)[i] in a;
    assert forall i :: 0 <= i < |b| ==> (b + t)[i] in b;
  }

  lemma {:induction false} PrefixOfTerminated(child: Path, parent: Path)
    requires ValidPath(child) && ValidPath(parent)
    ensures Terminated(parent) <= Terminated(child) <==> parent <= child
  {
    TerminatedStarts(child);
    if parent != [] && child != [] {
      var a, b := child[0], parent[0];
      assert Component(a) && Component(b);
      var s, t := Terminated(child[1..]), Terminated(parent[1..]);
      TerminatedStarts(child[1..]);
      TerminatedStarts(parent[1..]);
      PrefixOfTerminated(child[1..], parent[1..]);
      assert Terminated(child) == "/" + (a + s) && Terminated(parent) == "/" + (b + t);
      if Terminated(parent) <= Terminated(child) {
        assert b + t <= a + s by {
          assert forall i :: 0 <= i < |b + t| ==> (b + t)[i] == Terminated(parent)[i + 1] == (a + s)[i];
        }
        HeadsAgree(a, b, s, t);
        assert child == [a] + child[1..] && parent == [b] + parent[1..];
      }
      if parent <= child {
        assert a == b && parent[1..] <= child[1..];
        assert b + t <= a + s;
      }
    } else if parent != [] {
      assert |Terminated(parent)| > 1;
    }
  }

  // The separator-terminated string test is exactly the test on component lists, so it is a partial order.
  lemma {:induction false} StringPrefixIsComponentPrefix(child: Path, parent: Path)
    requires ValidPath(child) && ValidPath(parent)
    ensures (Normalize(child) == Normalize(parent) || StartsWith(Normalize(child), Normalize(parent)))
            <==> parent <= child
  {
    NormalizeTerminates(child);
    NormalizeTerminates(parent);
    PrefixOfTerminated(child, parent);
  }

  lemma {:induction false} RenderStarts(p: Path, name: string, more: string)
    requires name != ""
    ensures Render(p + [name]) <= Render(p + [name + more])
  {
    if p != [] {
      RenderStarts(p[1..], name, more);
      assert (p + [name])[1..] == p[1..] + [name] && (p + [name + more])[1..] == p[1..] + [name + more];
    }
  }

  // A sibling that only continues the name of the root is outside, although its text begins with the root's.
  lemma {:induction false} SiblingIsOutside(p: Path, name: string, more: string)
    requires ValidPath(p) && Component(name) && Component(name + more) && more != ""
    ensures StartsWith(Render(p + [name + more]), Render(p + [name]))
    ensures !StartsWith(Normalize(p + [name + more]), Normalize(p + [name]))
  {
    RenderStarts(p, name, more);
    StringPrefixIsComponentPrefix(p + [name + more], p + [name]);
    assert (p + [name + more])[|p|] != (p + [name])[|p|];
  }

  // ---- Canonicalisation ----

  // What realpath answers for a path; None when it throws.
  type FileSystem = Path -> Option<Path>

  // The longest prefix of p, of length at most n, that realpath accepts.
  predicate DeepestExisting(fs: FileSystem, p: Path, k: nat) {
    k <= |p| && fs(p[..k]).Some? && forall m :: k < m <= |p| ==> fs(p[..m]).None?
  }

  predicate NothingExists(fs: FileSystem, p: Path) {
    forall k :: 0 <= k <= |p| ==> fs(p[..k]).None?
  }

  function Reverse(xs: seq<string>): seq<string> {
    if xs == [] then [] else Reverse(xs[1..]) + [xs[0]]
  }

  lemma {:induction false} ReverseAppend(xs: seq<string>, x: string)
    ensures Reverse(xs + [x]) == [x] + Reverse(xs)
  {
    if xs == [] {
      assert [x][1..] == [];
    } else {
      ReverseAppend(xs[1..], x);
      assert (xs + [x])[1..] == xs[1..] + [x];
    }
  }

  // resolveThroughExisting: climbs until realpath accepts an ancestor, and joins the missing components to it in
  // their order; the path itself when not even the root is accepted.
  method ResolveThroughExisting(fs: FileSystem, resolved: Path) returns (r: Path)
    ensures forall k: nat :: DeepestExisting(fs, resolved, k) ==> r == fs(resolved[..k]).value + resolved[k..]
    ensures NothingExists(fs, resolved) ==> r == resolved
    ensures NothingExists(fs, resolved) || exists k: nat :: DeepestExisting(fs, resolved, k)
    ensures r == Canonical(fs, resolved)
  {
    var missing: seq<string> := [];
    var current := resolved;
    while true
      invariant current == resolved[..|current|] && |current| <= |resolved|
      invariant Reverse(missing) == resolved[|current|..]
      invariant forall m :: |current| < m <= |resolved| ==> fs(resolved[..m]).None?
      decreases |current|
    {
      var found := fs(current);
      if found.Some? {
        assert DeepestExisting(fs, resolved, |current|);
        return if missing != [] then found.value + Reverse(missing) else found.value;
      }
      if current == [] { return resolved; }
      var base := current[|current| - 1];
      ReverseAppend(missing, base);
      missing := missing + [base];
      current := current[..|current| - 1];
    }
  }

  function Canonical(fs: FileSystem, p: Path): (r: Path)
    ensures fs(p).Some? ==> r == fs(p).value
    ensures forall k: nat :: DeepestExisting(fs, p, k) ==> r == fs(p[..k]).value + p[k..]
    ensures NothingExists(fs, p) ==> r == p
  {
    assert p[..|p|] == p;
    CanonicalFrom(fs, p, |p|)
  }

  function CanonicalFrom(fs: FileSystem, p: Path, n: nat): (r: Path)
    requires n <= |p| && forall m :: n < m <= |p| ==> fs(p[..m]).None?
    ensures forall k: nat :: DeepestExisting(fs, p, k) ==> r == fs(p[..k]).value + p[k..]
    ensures NothingExists(fs, p) ==> r == p
    decreases n
  {
    if fs(p[..n]).Some? then fs(p[..n]).value + p[n..]
    else if n == 0 then p
    else CanonicalFrom(fs, p, n - 1)
  }

  // path.resolve of an absolute path that has no ".." segment.
  function Resolve(segments: seq<string>): Path {
    if segments == [] then []
    else (if segments[0] == "" || segments[0] == "." then [] else [segments[0]]) + Resolve(segments[1..])
  }

  // The components of a path are what stands between its slashes, in order, without the empty texts and the dots:
  // joining paths joins their components.
  lemma {:induction false} ResolveJoins(a: seq<string>, b: seq<string>)
    ensures Resolve(a + b) == Resolve(a) + Resolve(b)
  {
    if a == [] {
      assert a + b == b;
    } else {
      ResolveJoins(a[1..], b);
      assert (a + b)[1..] == a[1..] + b && (a + b)[0] == a[0];
      Associates(if a[0] == "" || a[0] == "." then [] else [a[0]], Resolve(a[1..]), Resolve(b));
    }
  }

  lemma {:induction false} ResolveKeepsNames(segments: seq<string>)
    ensures forall s :: s in Resolve(segments) <==> s in segments && s != "" && s != "."
    ensures |segments| == 1 ==> |Resolve(segments)| <= 1
  {
    if segments != [] {
      ResolveKeepsNames(segments[1..]);
      assert segments == [segments[0]] + segments[1..];
    }
  }

  predicate KeepsComponents(fs: FileSystem, p: Path) {
    ValidPath(Canonical(fs, p))
  }

  // isInsideRoot (boundary.js:42-48); segments are what stands between the slashes of the given text.
  predicate IsInsideRoot(fs: FileSystem, target: seq<string>, root: seq<string>) {
    && ".." !in target
    && var child := Normalize(Canonical(fs, Resolve(target)));
       var parent := Normalize(Canonical(fs, Resolve(root)));
       child == parent || StartsWith(child, parent)
  }

  // A target is inside exactly when it climbs nowhere and its canonical components begin with the root's.
  lemma {:induction false} InsideIffBelow(fs: FileSystem, target: seq<string>, root: seq<string>)
    requires KeepsComponents(fs, Resolve(target)) && KeepsComponents(fs, Resolve(root))
    ensures IsInsideRoot(fs, target, root)
            <==> ".." !in target && Canonical(fs, Resolve(root)) <= Canonical(fs, Resolve(target))
  {
    StringPrefixIsComponentPrefix(Canonical(fs, Resolve(target)), Canonical(fs, Resolve(root)));
  }
}
