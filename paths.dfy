/** String helpers the staging code relies on: `str.replace("\\", "/")`, the
    remote workspace prefix, `os.path.dirname`, `" ".join` and, as the partner
    of the latter, Python's `str.split(" ")`. */
module Paths {

  /** The remote workspace root every staged path lives under. */
  const Root: string := "scons-compute"

  /** A path with every backslash replaced by a forward slash. */
  function Normalise(p: string): (r: string)
    ensures |r| == |p|
    ensures forall i :: 0 <= i < |p| ==> r[i] == if p[i] == '\\' then '/' else p[i]
  {
    seq(|p|, i requires 0 <= i < |p| => if p[i] == '\\' then '/' else p[i])
  }

  /** A normalised path holds no backslash, and normalising it again changes nothing. */
  lemma NormaliseClean(p: string)
    ensures '\\' !in Normalise(p)
    ensures Normalise(Normalise(p)) == Normalise(p)
  {
  }

  /** Normalisation only merges paths that differ in the choice of separator. */
  lemma NormaliseMerges(p: string, q: string)
    requires |p| == |q|
    requires forall i :: 0 <= i < |p| ==> p[i] == q[i] || (p[i] in "/\\" && q[i] in "/\\")
    ensures Normalise(p) == Normalise(q)
  {
  }

  /** `'scons-compute/' + p`. */
  function ToRemote(p: string): string
  {
    Root + "/" + p
  }

  /** The remote mapping is injective. */
  lemma ToRemoteInjective(p: string, q: string)
    ensures ToRemote(p) == ToRemote(q) <==> p == q
  {
    if ToRemote(p) == ToRemote(q) {
      assert p == ToRemote(p)[|Root| + 1..];
      assert q == ToRemote(q)[|Root| + 1..];
    }
  }

  /** `p[:p.rfind('/') + 1]`: the text up to and including the last '/', or ""
      when there is none. */
  function UpToLastSlash(p: string): (h: string)
    ensures |h| <= |p| && h == p[..|h|]
    ensures h == [] <==> '/' !in p
    ensures h != [] ==> h[|h| - 1] == '/' && '/' !in p[|h|..]
    decreases |p|
  {
    if p == [] then []
    else if p[|p| - 1] == '/' then p
    else
      var h := UpToLastSlash(p[..|p| - 1]);
      assert p[..|p| - 1][..|h|] == p[..|h|];
      assert p[|h|..] == p[..|p| - 1][|h|..] + [p[|p| - 1]];
      h
  }

  /** `h.rstrip('/')`. */
  function StripSlashes(h: string): (t: string)
    ensures |t| <= |h| && t == h[..|t|]
    ensures t == [] || t[|t| - 1] != '/'
    ensures forall i :: |t| <= i < |h| ==> h[i] == '/'
    decreases |h|
  {
    if h != [] && h[|h| - 1] == '/' then StripSlashes(h[..|h| - 1]) else h
  }

  /** The text is made of separators only (or is empty). */
  predicate Slashes(t: string)
  {
    forall i :: 0 <= i < |t| ==> t[i] == '/'
  }

  /** `os.path.dirname` as posixpath defines it: the text up to the last '/',
      with its trailing separators removed unless it holds nothing else. */
  function Dirname(p: string): (r: string)
    ensures |r| <= |p| && r == p[..|r|]
    ensures r == [] <==> '/' !in p
  {
    var h := UpToLastSlash(p);
    var t := StripSlashes(h);
    if t == [] then h else t
  }

  /** For a path whose last '/' stands at `i` and is not doubled, the parent is
      the text before it, and "/" when that text is empty. */
  lemma DirnameAt(p: string, i: nat)
    requires i < |p| && p[i] == '/' && '/' !in p[i + 1..] && (i == 0 || p[i - 1] != '/')
    ensures Dirname(p) == if i == 0 then "/" else p[..i]
  {
    LastSlashAt(p, i);
    assert StripSlashes(p[..i + 1]) == StripSlashes(p[..i]);
    if i == 0 {
      assert p[..1] == "/";
    }
  }

  lemma LastSlashAt(p: string, i: nat)
    requires i < |p| && p[i] == '/' && '/' !in p[i + 1..]
    ensures UpToLastSlash(p) == p[..i + 1]
  {
  }

  /** Instances of posixpath's rules: a leading separator is kept, a path
      without one has "" as its parent. */
  lemma DirnameExamples()
    ensures Dirname("/data") == "/"
    ensures Dirname("a/b") == "a"
    ensures Dirname("x") == ""
  {
    DirnameAt("/data", 0);
    DirnameAt("a/b", 1);
  }

  /** Doubled separators before the last part are dropped. */
  lemma DirnameDoubled()
    ensures Dirname("a//b") == "a"
  {
    LastSlashAt("a//b", 2);
    assert "a//b"[..3] == "a//";
    assert "a//"[..2] == "a/" && "a/"[..1] == "a";
  }

  /** A parent made of separators only is kept whole. */
  lemma DirnameOnlySlashes()
    ensures Dirname("//x") == "//"
  {
    LastSlashAt("//x", 1);
    assert "//x"[..2] == "//";
    assert "//"[..1] == "/" && "/"[..0] == "";
  }

  /** The parent of a remote path is the root when the local parent is made of
      separators only (or the local path has no '/'), and otherwise the remote of
      the local parent. */
  lemma DirnameOfRemote(s: string)
    ensures Dirname(ToRemote(s)) == if Slashes(Dirname(s)) then Root else ToRemote(Dirname(s))
  {
    var a := Root + "/";
    assert ToRemote(s) == a + s;
    var h := UpToLastSlash(s);
    PrefixUpToLastSlash(a, s);
    StripPrefixed(a, h);
    var t := StripSlashes(h);
    StripSlashesEmpty(h);
    assert StripSlashes(a) == Root by {
      assert a[..|a| - 1] == Root;
    }
  }

  /** The last '/' of `a + b`, where `a` ends with one, is that of `b` if it has one. */
  lemma {:induction false} PrefixUpToLastSlash(a: string, b: string)
    requires a != [] && a[|a| - 1] == '/'
    ensures UpToLastSlash(a + b) == a + UpToLastSlash(b)
    decreases |b|
  {
    if b == [] {
      assert a + b == a;
    } else {
      assert (a + b)[..|a + b| - 1] == a + b[..|b| - 1];
      if b[|b| - 1] != '/' {
        PrefixUpToLastSlash(a, b[..|b| - 1]);
      }
    }
  }

  /** Stripping `a + h` strips `h`, and `a` too once `h` is all separators. */
  lemma {:induction false} StripPrefixed(a: string, h: string)
    ensures StripSlashes(a + h) == if StripSlashes(h) == [] then StripSlashes(a) else a + StripSlashes(h)
    decreases |h|
  {
    if h == [] {
      assert a + h == a;
    } else if h[|h| - 1] == '/' {
      assert (a + h)[..|a + h| - 1] == a + h[..|h| - 1];
      StripPrefixed(a, h[..|h| - 1]);
    }
  }

  /** Stripping empties the text exactly when it is all separators. */
  lemma StripSlashesEmpty(h: string)
    ensures StripSlashes(h) == [] <==> Slashes(h)
    ensures StripSlashes(h) != [] ==> !Slashes(StripSlashes(h))
  {
    var t := StripSlashes(h);
    if t != [] {
      assert t[|t| - 1] != '/';
    }
  }

  /** No remote path has the empty string as its parent. */
  lemma RemoteParentNotEmpty(s: string)
    ensures Dirname(ToRemote(s)) != ""
    ensures Dirname(ToRemote(s)) == Root <==> Slashes(Dirname(s))
  {
    DirnameOfRemote(s);
    if !Slashes(Dirname(s)) {
      assert |ToRemote(Dirname(s))| > |Root|;
    }
  }

  /** `" ".join(words)`. */
  function JoinSpace(words: seq<string>): string
  {
    if words == [] then ""
    else if |words| == 1 then words[0]
    else words[0] + " " + JoinSpace(words[1..])
  }

  /** Python's `s.split(" ")`: the pieces between single spaces, at least one. */
  function Split(s: string): (pieces: seq<string>)
    ensures |pieces| >= 1
  {
    if s == [] then [""]
    else
      var rest := Split(s[1..]);
      if s[0] == ' ' then [""] + rest else [[s[0]] + rest[0]] + rest[1..]
  }

  /** What `Split` gives back for `JoinSpace(words)`: an empty list joins to "",
      which splits into one empty piece. */
  function Fields(words: seq<string>): seq<string>
  {
    if words == [] then [""] else words
  }

  predicate SpaceFree(words: seq<string>)
  {
    forall i :: 0 <= i < |words| ==> ' ' !in words[i]
  }

  lemma {:induction false} SplitWord(w: string)
    requires ' ' !in w
    ensures Split(w) == [w]
    decreases |w|
  {
    if w != [] {
      SplitWord(w[1..]);
      assert w == [w[0]] + w[1..];
    }
  }

  lemma {:induction false} SplitAtSpace(a: string, b: string)
    ensures Split(a + " " + b) == Split(a) + Split(b)
    decreases |a|
  {
    if a == [] {
      assert a + " " + b == " " + b;
      assert (" " + b)[1..] == b;
    } else {
      assert (a + " " + b)[1..] == a[1..] + " " + b;
      SplitAtSpace(a[1..], b);
    }
  }

  /** Splitting undoes joining words that hold no space. */
  lemma {:induction false} SplitJoinSpace(words: seq<string>)
    requires SpaceFree(words)
    ensures Split(JoinSpace(words)) == Fields(words)
    decreases |words|
  {
    if words == [] {
    } else if |words| == 1 {
      SplitWord(words[0]);
    } else {
      SplitAtSpace(words[0], JoinSpace(words[1..]));
      SplitWord(words[0]);
      SplitJoinSpace(words[1..]);
    }
  }
}
