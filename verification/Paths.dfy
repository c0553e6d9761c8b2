/** File paths as strings, and the walk from a file to the root. */
module Paths {

  predicate IsAbsolute(path: string) {
    path != "" && path[0] == '/'
  }

  /** Without the slashes at the end. */
  function TrimSlashes(path: string): (r: string)
    ensures |r| <= |path| && r == path[..|r|]
    ensures r != "" ==> r[|r| - 1] != '/'
  {
    if path != "" && path[|path| - 1] == '/' then TrimSlashes(path[..|path| - 1]) else path
  }

  /** Without the name at the end. */
  function CutName(path: string): (r: string)
    ensures |r| <= |path| && r == path[..|r|]
    ensures r != "" ==> r[|r| - 1] == '/'
  {
    if path != "" && path[|path| - 1] != '/' then CutName(path[..|path| - 1]) else path
  }

  /** `deletingLastPathComponent` */
  function Parent(path: string): string {
    var parent := TrimSlashes(CutName(TrimSlashes(path)));
    if parent == "" && IsAbsolute(path) then "/" else parent
  }

  /** The walk up stays absolute and gets shorter until it reaches the root. */
  lemma ParentIsShorter(path: string)
    requires IsAbsolute(path)
    ensures IsAbsolute(Parent(path))
    ensures path != "/" ==> |Parent(path)| < |path|
    ensures path == "/" ==> Parent(path) == "/"
  {
  }

  /** The `k`th directory above a path. */
  function Up(path: string, k: nat): string
    decreases k
  {
    if k == 0 then path else Up(Parent(path), k - 1)
  }

  lemma {:induction false} RootIsTop(k: nat)
    ensures Up("/", k) == "/"
  {
    ParentIsShorter("/");
    if k > 0 {
      RootIsTop(k - 1);
    }
  }

  predicate IsName(name: string) {
    name != "" && forall i :: 0 <= i < |name| ==> name[i] != '/'
  }

  predicate AreNames(names: seq<string>) {
    forall i :: 0 <= i < |names| ==> IsName(names[i])
  }

  function Joined(names: seq<string>): string {
    if names == [] then "" else Joined(names[..|names| - 1]) + "/" + names[|names| - 1]
  }

  /** The absolute path with these components. */
  function PathOf(names: seq<string>): string {
    if names == [] then "/" else Joined(names)
  }

  lemma {:induction false} CutNameOf(prefix: string, name: string)
    requires IsName(name) || name == ""
    requires prefix != "" && prefix[|prefix| - 1] == '/'
    ensures CutName(prefix + name) == prefix
  {
    if name == "" {
      assert prefix + name == prefix;
    } else {
      assert (prefix + name)[..|prefix + name| - 1] == prefix + name[..|name| - 1];
      CutNameOf(prefix, name[..|name| - 1]);
    }
  }

  lemma JoinedIsTrimmed(names: seq<string>)
    requires AreNames(names)
    ensures TrimSlashes(Joined(names) + "/") == Joined(names) == TrimSlashes(Joined(names))
  {
    var joined := Joined(names);
    assert (joined + "/")[..|joined|] == joined;
    if names != [] {
      var name := names[|names| - 1];
      assert joined[|joined| - 1] == name[|name| - 1];
    }
  }

  /** The parent of a path drops its last component. */
  lemma ParentOfPath(names: seq<string>)
    requires AreNames(names) && names != []
    ensures Parent(PathOf(names)) == PathOf(names[..|names| - 1])
  {
    var front, name := names[..|names| - 1], names[|names| - 1];
    JoinedIsTrimmed(names);
    CutNameOf(Joined(front) + "/", name);
    JoinedIsTrimmed(front);
    JoinedIsAbsolute(names);
    if front != [] {
      JoinedIsAbsolute(front);
    }
  }

  lemma {:induction false} JoinedIsAbsolute(names: seq<string>)
    requires names != []
    ensures IsAbsolute(Joined(names))
  {
    if |names| > 1 {
      JoinedIsAbsolute(names[..|names| - 1]);
    }
  }

  lemma UpStep(path: string, parent: string, k: nat)
    requires k > 0 && Parent(path) == parent
    ensures Up(path, k) == Up(parent, k - 1)
  {
  }

  lemma TakeTwice<T>(s: seq<T>, n: nat, m: nat)
    requires m <= n <= |s|
    ensures s[..n][..m] == s[..m] && s[..|s|] == s
  {
  }

  /** The directories above a path are the paths of the shorter component lists, down to the root. */
  lemma {:induction false} UpOfPath(names: seq<string>, k: nat)
    requires AreNames(names) && k <= |names|
    ensures Up(PathOf(names), k) == PathOf(names[..|names| - k])
    decreases k
  {
    if k == 0 {
      TakeTwice(names, |names|, |names|);
    } else {
      var front := names[..|names| - 1];
      ParentOfPath(names);
      UpStep(PathOf(names), PathOf(front), k);
      UpOfPath(front, k - 1);
      TakeTwice(names, |names| - 1, |names| - k);
    }
  }

  lemma {:induction false} UpTwice(path: string, j: nat, k: nat)
    ensures Up(path, j + k) == Up(Up(path, j), k)
    decreases j
  {
    if j > 0 {
      UpTwice(Parent(path), j - 1, k);
    }
  }

  /** Beyond the root the walk stays at the root. */
  lemma UpBeyond(names: seq<string>, k: nat)
    requires AreNames(names) && k >= |names|
    ensures Up(PathOf(names), k) == "/"
  {
    UpOfPath(names, |names|);
    assert names[..0] == [];
    UpTwice(PathOf(names), |names|, k - |names|);
    RootIsTop(k - |names|);
  }

  // ---------------------------------------------------------------------------------------------
  // A rule for every directory above a file.
  // ---------------------------------------------------------------------------------------------

  type Rule = string -> bool

  /** Every directory above the file satisfies the rule, up to and including the root. */
  ghost predicate AllAbove(rule: Rule, file: string) {
    forall k :: k >= 1 ==> rule(Up(file, k))
  }

  /** Both walks of the sources: test a directory, stop at the root, go to the parent. */
  method WalkUp(rule: Rule, file: string) returns (ok: bool)
    requires IsAbsolute(file)
    ensures ok <==> AllAbove(rule, file)
  {
    var directory := Parent(file);
    ghost var steps: nat := 1;
    ParentIsShorter(file);
    while true
      invariant IsAbsolute(directory) && steps >= 1 && directory == Up(file, steps)
      invariant forall k :: 1 <= k < steps ==> rule(Up(file, k))
      decreases |directory|
    {
      if !rule(directory) {
        return false;
      }
      if directory == "/" {
        AboveRoot(rule, file, steps);
        return true;
      }
      ParentIsShorter(directory);
      UpTwice(file, steps, 1);
      directory := Parent(directory);
      steps := steps + 1;
    }
  }

  lemma AboveRoot(rule: Rule, file: string, steps: nat)
    requires steps >= 1 && Up(file, steps) == "/" && forall k :: 1 <= k <= steps ==> rule(Up(file, k))
    ensures AllAbove(rule, file)
  {
    forall k: nat | k >= 1 ensures rule(Up(file, k)) {
      if k > steps {
        UpTwice(file, steps, k - steps);
        RootIsTop(k - steps);
      }
    }
  }

  predicate AllPrefixes(rule: Rule, names: seq<string>) {
    forall n :: 0 <= n < |names| ==> rule(PathOf(names[..n]))
  }

  lemma PrefixAbove(rule: Rule, names: seq<string>, k: nat)
    requires AreNames(names) && names != [] && AllPrefixes(rule, names) && k >= 1
    ensures rule(Up(PathOf(names), k))
  {
    if k < |names| {
      UpOfPath(names, k);
    } else {
      UpBeyond(names, k);
      assert names[..0] == [];
    }
  }

  /** On a path given by its components the directories above are the paths of its proper prefixes. */
  lemma AboveIsPrefixes(rule: Rule, names: seq<string>)
    requires AreNames(names) && names != []
    ensures AllAbove(rule, PathOf(names)) <==> AllPrefixes(rule, names)
  {
    if AllAbove(rule, PathOf(names)) {
      forall n | 0 <= n < |names| ensures rule(PathOf(names[..n])) {
        UpOfPath(names, |names| - n);
      }
    }
    if AllPrefixes(rule, names) {
      forall k: nat | k >= 1 ensures rule(Up(PathOf(names), k)) {
        PrefixAbove(rule, names, k);
      }
    }
  }

  // ---------------------------------------------------------------------------------------------
  // Splitting.
  // ---------------------------------------------------------------------------------------------

  /** The parts between slashes, empty ones included. */
  function Split(path: string): (parts: seq<string>)
    ensures parts != []
  {
    var cut := CutName(path);
    if cut == "" then [path] else Split(cut[..|cut| - 1]) + [path[|cut|..]]
  }

  /** Joining the parts gives the path back, under the root. */
  lemma {:induction false} SplitJoins(path: string)
    ensures PathOf(Split(path)) == Joined(Split(path)) == "/" + path
  {
    var cut := CutName(path);
    if cut == "" {
      assert [path][..0] == [];
    } else {
      var front := cut[..|cut| - 1];
      SplitJoins(front);
      var parts := Split(path);
      assert parts[..|parts| - 1] == Split(front);
      assert "/" + path == ("/" + front) + "/" + path[|cut|..];
    }
  }
}
