/** The two schema rules on a scratch volume's mountPath, as substring tests, and what
    they mean for the path's components. */
module MountPath {
  import opened Text

  predicate ContainsAt(s: string, sub: string, i: nat) { i + |sub| <= |s| && s[i..i + |sub|] == sub }

  predicate Contains(s: string, sub: string) { exists i :: 0 <= i <= |s| && ContainsAt(s, sub, i) }

  predicate StartsWith(s: string, p: string) { p <= s }

  predicate EndsWith(s: string, p: string) { |p| <= |s| && s[|s| - |p|..] == p }

  const RESERVED := ["/proc/", "/sys/", "/dev/", "/etc/", "/var/run/secrets/", "/run/secrets/"]

  predicate NotReserved(s: string) {
    s != "/" && !exists k :: 0 <= k < |RESERVED| && StartsWith(s + "/", RESERVED[k])
  }

  predicate CleanRule(s: string) {
    && !Contains(s, "//") && !Contains(s, "/../") && !EndsWith(s, "/..")
    && !Contains(s, "/./") && !EndsWith(s, "/.") && (s == "/" || !EndsWith(s, "/"))
  }

  predicate Absolute(s: string) { |s| > 0 && s[0] == '/' }

  /** The schema accepts s: the pattern ^/ and both rules. */
  predicate Accepted(s: string) { Absolute(s) && NotReserved(s) && CleanRule(s) }

  /* Components. */

  function HeadLength(t: string): (n: nat)
    ensures n <= |t| && '/' !in t[..n] && (n < |t| ==> t[n] == '/')
  {
    if t == "" || t[0] == '/' then 0 else 1 + HeadLength(t[1..])
  }

  /** Splitting at every slash. */
  function Split(t: string): (r: seq<string>)
    ensures |r| >= 1
    decreases |t|
  {
    var n := HeadLength(t);
    if n == |t| then [t] else [t[..n]] + Split(t[n + 1..])
  }

  function Components(s: string): seq<string>
    requires Absolute(s)
  {
    Split(s[1..])
  }

  const RESERVED_TREES: seq<seq<string>> :=
    [["proc"], ["sys"], ["dev"], ["etc"], ["var", "run", "secrets"], ["run", "secrets"]]

  predicate Plain(c: string) { c != "" && c != "." && c != ".." }

  /** The location a path names: dots and empty components dropped, dot-dot pops. */
  function Resolve(cs: seq<string>): seq<string> {
    if cs == [] then []
    else
      var (init, last) := (Resolve(cs[..|cs| - 1]), cs[|cs| - 1]);
      if last == "" || last == "." then init
      else if last == ".." then (if init == [] then [] else init[..|init| - 1])
      else init + [last]
  }

  function Location(s: string): seq<string>
    requires Absolute(s)
  {
    Resolve(Components(s))
  }

  /** The components with a slash before, between and after. */
  function Tree(cs: seq<string>): string {
    if cs == [] then "/" else "/" + cs[0] + Tree(cs[1..])
  }

  lemma {:induction false} TreeCons(c: string, cs: seq<string>)
    ensures Tree([c] + cs) == "/" + c + Tree(cs)
  {
    assert ([c] + cs)[1..] == cs;
  }

  /** Splitting peels the text before the first slash. */
  lemma SplitStep(t: string) returns (head: string, rest: string)
    requires HeadLength(t) < |t|
    ensures '/' !in head && t == head + "/" + rest && Split(t) == [head] + Split(rest) && |rest| < |t|
  {
    var n := HeadLength(t);
    head, rest := t[..n], t[n + 1..];
  }

  lemma {:induction false} NoSlashLeft(t: string)
    requires HeadLength(t) == |t|
    ensures '/' !in t && Split(t) == [t]
  {
    assert t[..|t|] == t;
  }

  lemma Slashed(a: string, b: string)
    ensures "/" + a + ("/" + b + "/") == "/" + (a + "/" + b) + "/"
  {
  }

  /** Splitting loses nothing. */
  lemma {:induction false} TreeOfSplit(t: string)
    ensures Tree(Split(t)) == "/" + t + "/"
    decreases |t|
  {
    if HeadLength(t) == |t| {
      NoSlashLeft(t);
      TreeCons(t, []);
      assert [t] + [] == [t];
    } else {
      var head, rest := SplitStep(t);
      TreeOfSplit(rest);
      TreeCons(head, Split(rest));
      Slashed(head, rest);
    }
  }

  lemma AtStart(head: string, after: string, x: string)
    requires '/' !in head && '/' !in x
    ensures ContainsAt("/" + head + "/" + after, "/" + x + "/", 0) <==> x == head
  {
    var u, w := "/" + head + "/" + after, "/" + x + "/";
    assert u[1..] == head + "/" + after;
    if ContainsAt(u, w, 0) {
      var more := u[|w|..];
      assert u == w + more;
      assert u[1..] == x + "/" + more;
      SlashSplits(head, x, after, more);
    }
    if x == head {
      assert u[..|w|] == w;
    }
  }

  /** Past the head, an occurrence starts at the next slash or later. */
  lemma OccursLater(head: string, tail: string, x: string)
    requires '/' !in head && '/' !in x && |tail| > 0 && tail[0] == '/'
    ensures Contains("/" + head + tail, "/" + x + "/") <==> x == head || Contains(tail, "/" + x + "/")
  {
    var u, w, n := "/" + head + tail, "/" + x + "/", |head| + 1;
    assert tail == "/" + tail[1..];
    assert u == "/" + head + "/" + tail[1..];
    AtStart(head, tail[1..], x);
    assert u[n..] == tail;
    if i :| 0 <= i <= |tail| && ContainsAt(tail, w, i) {
      ContainsShifted("/" + head, tail, w, i);
    }
    if i :| 0 <= i <= |u| && ContainsAt(u, w, i) && i != 0 {
      assert u[i] == w[0] == '/';
      PastHead(head, tail, i);
      ContainsShifted("/" + head, tail, w, i - n);
    }
  }

  lemma PastHead(head: string, tail: string, i: nat)
    requires '/' !in head && 0 < i <= |head| + |tail| && ("/" + head + tail)[i] == '/'
    ensures i > |head|
  {
    var u := "/" + head + tail;
    forall k | 1 <= k <= |head| ensures u[k] == head[k - 1] {
    }
  }

  lemma ContainsShifted(a: string, b: string, w: string, i: nat)
    ensures ContainsAt(a + b, w, |a| + i) <==> ContainsAt(b, w, i)
  {
    if i + |w| <= |b| {
      assert (a + b)[|a| + i..|a| + i + |w|] == b[i..i + |w|];
    }
  }

  /** A slash-free word is a component exactly when it occurs between two slashes. */
  lemma {:induction false} ComponentOccurs(t: string, x: string)
    requires '/' !in x
    ensures x in Split(t) <==> Contains("/" + t + "/", "/" + x + "/")
    decreases |t|
  {
    if HeadLength(t) == |t| {
      NoSlashLeft(t);
      OccursLater(t, "/", x);
      assert |"/" + x + "/"| >= 2;
    } else {
      var head, rest := SplitStep(t);
      ComponentOccurs(rest, x);
      OccursLater(head, "/" + rest + "/", x);
      Slashed(head, rest);
    }
  }

  predicate SlashFree(cs: seq<string>) {
    forall i :: 0 <= i < |cs| ==> '/' !in cs[i]
  }

  /** Comparing prefixes one component at a time. */
  lemma PrefixStep(p: string, more: string, head: string, tail: string)
    requires '/' !in p && '/' !in head && |more| > 0 && more[0] == '/' && |tail| > 0 && tail[0] == '/'
    ensures "/" + p + more <= "/" + head + tail <==> p == head && more <= tail
  {
    var a, u := "/" + p + more, "/" + head + tail;
    assert more == "/" + more[1..] && tail == "/" + tail[1..];
    if a <= u {
      var after := u[|a|..];
      assert u == a + after;
      assert u[1..] == head + "/" + tail[1..] == p + "/" + (more[1..] + after);
      SlashSplits(head, p, tail[1..], more[1..] + after);
      assert tail == more + after;
    }
    if p == head && more <= tail {
      assert tail == more + tail[|more|..];
      assert u == a + tail[|more|..];
    }
  }

  lemma {:induction false} TreeStarts(cs: seq<string>)
    ensures |Tree(cs)| > 0 && Tree(cs)[0] == '/'
    ensures Tree(cs) <= "/" <==> cs == []
  {
    if cs != [] {
      assert |Tree(cs[1..])| > 0;
    }
  }

  /** Prefixes of the slashed text are prefixes of the component list. */
  lemma {:induction false} TreePrefix(t: string, ps: seq<string>)
    requires SlashFree(ps)
    ensures Tree(ps) <= "/" + t + "/" <==> ps <= Split(t)
    decreases |t|
  {
    if ps != [] {
      var p, qs := ps[0], ps[1..];
      assert ps == [p] + qs;
      TreeStarts(qs);
      if HeadLength(t) == |t| {
        NoSlashLeft(t);
        PrefixStep(p, Tree(qs), t, "/");
      } else {
        var head, rest := SplitStep(t);
        TreePrefix(rest, qs);
        PrefixStep(p, Tree(qs), head, "/" + rest + "/");
        Slashed(head, rest);
        assert [p] + qs <= [head] + Split(rest) <==> p == head && qs <= Split(rest) by {
          if [p] + qs <= [head] + Split(rest) {
            assert ([p] + qs)[1..] == qs && ([head] + Split(rest))[1..] == Split(rest);
            assert ([p] + qs)[0] == ([head] + Split(rest))[0];
          }
        }
      }
    }
  }

  lemma StartOfSlashed(s: string, w: string, i: nat)
    requires i + |w| <= |s|
    ensures ContainsAt(s + "/", w, i) <==> ContainsAt(s, w, i)
  {
    assert (s + "/")[i..i + |w|] == s[i..i + |w|];
  }

  lemma EndOfSlashed(s: string, w: string, i: nat)
    requires |w| >= 1 && w[|w| - 1] == '/' && i + |w| == |s| + 1
    ensures ContainsAt(s + "/", w, i) <==> EndsWith(s, w[..|w| - 1])
  {
    var u, v := s + "/", w[..|w| - 1];
    assert u[i..i + |w|] == s[i..] + "/";
    assert w == v + "/";
    if s[i..] + "/" == v + "/" {
      assert s[i..] == (s[i..] + "/")[..|v|] == (v + "/")[..|v|] == v;
    }
  }

  lemma ContainsBound(s: string, w: string, i: nat)
    requires ContainsAt(s, w, i)
    ensures i + |w| <= |s|
  {
  }

  /** Appending a slash turns the end-of-string tests into occurrences. */
  lemma SlashedContains(s: string, w: string)
    requires |w| >= 2 && w[|w| - 1] == '/'
    ensures Contains(s + "/", w) <==> Contains(s, w) || EndsWith(s, w[..|w| - 1])
  {
    hide ContainsAt;
    var u := s + "/";
    if i :| 0 <= i <= |s| && ContainsAt(s, w, i) {
      ContainsBound(s, w, i);
      StartOfSlashed(s, w, i);
    }
    if EndsWith(s, w[..|w| - 1]) {
      EndOfSlashed(s, w, |s| + 1 - |w|);
    }
    if i :| 0 <= i <= |u| && ContainsAt(u, w, i) {
      ContainsBound(u, w, i);
      if i + |w| <= |s| {
        StartOfSlashed(s, w, i);
      } else {
        EndOfSlashed(s, w, i);
      }
    }
  }

  lemma SlashWords()
    ensures "/" + "" + "/" == "//" && "/" + "." + "/" == "/./" && "/" + ".." + "/" == "/../"
    ensures "/" + "" == "/" && "/" + "." == "/." && "/" + ".." == "/.."
  {
  }

  /** A slash-free word is a component of s exactly when s holds it between slashes or ends in it. */
  lemma WordOccurs(s: string, x: string)
    requires Absolute(s) && '/' !in x
    ensures x in Components(s) <==> Contains(s, "/" + x + "/") || EndsWith(s, "/" + x)
  {
    hide Contains, EndsWith, Split;
    assert s + "/" == "/" + s[1..] + "/";
    ComponentOccurs(s[1..], x);
    var w := "/" + x + "/";
    SlashedContains(s, w);
    assert w[..|w| - 1] == "/" + x;
  }

  /** The cleanliness rule rejects exactly empty, dot and dot-dot components. */
  lemma CleanExact(s: string)
    requires Absolute(s) && s != "/"
    ensures CleanRule(s) <==> "" !in Components(s) && "." !in Components(s) && ".." !in Components(s)
  {
    hide Contains, EndsWith, Split, Components;
    WordOccurs(s, "");
    WordOccurs(s, ".");
    WordOccurs(s, "..");
    SlashWords();
    EndsInSlash(s);
  }

  lemma EndsInSlash(s: string)
    ensures EndsWith(s, "/") ==> s != ""
  {
  }

  /** The reservation rule rejects exactly the reserved trees, component by component. */
  lemma ReservedExact(s: string)
    requires Absolute(s) && s != "/"
    ensures NotReserved(s) <==> forall k :: 0 <= k < |RESERVED_TREES| ==> !(RESERVED_TREES[k] <= Components(s))
  {
    hide Split, Tree;
    assert s == "/" + s[1..];
    ReservedTrees();
    forall k | 0 <= k < |RESERVED| ensures StartsWith(s + "/", RESERVED[k]) <==> RESERVED_TREES[k] <= Components(s) {
      TreePrefix(s[1..], RESERVED_TREES[k]);
    }
  }

  lemma ReservedTrees()
    ensures |RESERVED| == |RESERVED_TREES|
    ensures forall k :: 0 <= k < |RESERVED| ==> SlashFree(RESERVED_TREES[k]) && Tree(RESERVED_TREES[k]) == RESERVED[k]
  {
    hide Tree;
    TreeOne("proc");
    TreeOne("sys");
    TreeOne("dev");
    TreeOne("etc");
    TreeOne("secrets");
    TreeCons("run", ["secrets"]);
    TreeCons("var", ["run", "secrets"]);
    assert ["run"] + ["secrets"] == ["run", "secrets"] && ["var"] + ["run", "secrets"] == ["var", "run", "secrets"];
  }

  lemma TreeOne(c: string)
    ensures Tree([c]) == "/" + c + "/"
  {
    TreeCons(c, []);
    assert [c] + [] == [c];
  }

  /** The substring tests accept an absolute path exactly when every component is an
      ordinary name and no reserved tree is a component-wise prefix. */
  lemma AcceptedExact(s: string)
    requires Absolute(s) && s != "/"
    ensures Accepted(s) <==>
      && (forall i :: 0 <= i < |Components(s)| ==> Plain(Components(s)[i]))
      && (forall k :: 0 <= k < |RESERVED_TREES| ==> !(RESERVED_TREES[k] <= Components(s)))
  {
    hide CleanRule, NotReserved, Split;
    CleanExact(s);
    ReservedExact(s);
    var cs := Components(s);
    assert forall i :: 0 <= i < |cs| ==> cs[i] in cs;
  }

  lemma {:induction false} PlainResolves(cs: seq<string>)
    requires forall i :: 0 <= i < |cs| ==> Plain(cs[i])
    ensures Resolve(cs) == cs
  {
    if cs != [] {
      PlainResolves(cs[..|cs| - 1]);
    }
  }

  lemma NotRoot(s: string)
    requires NotReserved(s)
    ensures s != "/"
  {
  }

  /** Between accepted paths, string equality is location equality. */
  lemma EqualityIsLocation(a: string, b: string)
    requires Accepted(a) && Accepted(b)
    ensures a == b <==> Location(a) == Location(b)
  {
    hide Split, Tree, CleanRule, NotReserved;
    NotRoot(a);
    NotRoot(b);
    AcceptedExact(a);
    AcceptedExact(b);
    PlainResolves(Components(a));
    PlainResolves(Components(b));
    if Location(a) == Location(b) {
      TreeOfSplit(a[1..]);
      TreeOfSplit(b[1..]);
      var x, y := "/" + a[1..] + "/", "/" + b[1..] + "/";
      assert x == y && a == x[..|x| - 1] && b == y[..|y| - 1];
    }
  }
}
