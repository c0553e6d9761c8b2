/** The search for a trusted Node executable. */
module NodeRuntime {
  import opened Prelude
  import opened Paths

  datatype FileType = Regular | SymbolicLink | Directory | OtherType

  /** The twelve permission bits of a mode. */
  type Bits = bv12

  const SPECIAL_OR_OTHER_WRITE: Bits := 0xE02
  const SPECIAL_OR_SHARED_WRITE: Bits := 0xE12
  const GROUP_WRITE: Bits := 0x010
  const ADMIN_WRITABLE: Bits := 0x1FD
  const ANY_EXECUTE: Bits := 0x049

  datatype Metadata = Metadata(kind: FileType, bits: Bits, owner: nat, group: nat, linkCount: nat)

  /** The file system as `lstat` and the resolution of symbolic links show it, and the current user. */
  datatype System = System(
    metadata: string -> Option<Metadata>, resolve: string -> string, currentUser: nat, adminGroup: Option<nat>)

  predicate IsAdminWritable(directory: string) {
    || directory == "/opt/homebrew/bin" || directory == "/opt/homebrew/Cellar"
    || directory == "/usr/local/bin" || directory == "/usr/local/Cellar"
  }

  predicate TrustedOwner(system: System, m: Metadata) {
    m.owner == 0 || m.owner == system.currentUser
  }

  /** Group write is excused for the known directories of the admin group, with exactly mode 0775. */
  predicate TrustedDirectory(system: System, directory: string) {
    match system.metadata(directory)
    case None => false
    case Some(m) =>
      && m.kind == Directory && TrustedOwner(system, m) && m.bits & SPECIAL_OR_OTHER_WRITE == 0
      && (m.bits & GROUP_WRITE != 0 ==>
            IsAdminWritable(directory) && m.bits == ADMIN_WRITABLE && system.adminGroup == Some(m.group))
  }

  function DirectoryRule(system: System): Rule {
    (directory: string) => TrustedDirectory(system, directory)
  }

  /** Every directory above the file, up to and including the root, is trusted. */
  ghost predicate TrustedAbove(system: System, file: string) {
    AllAbove(DirectoryRule(system), file)
  }

  /** `trustedParents` ends on every absolute path. */
  method TrustedParents(system: System, file: string) returns (trusted: bool)
    requires IsAbsolute(file)
    ensures trusted <==> TrustedAbove(system, file)
  {
    trusted := WalkUp(DirectoryRule(system), file);
  }

  /** On a path given by its components the ancestors are the paths of all its proper prefixes. */
  lemma TrustedAboveComponents(system: System, names: seq<string>)
    requires AreNames(names) && names != []
    ensures TrustedAbove(system, PathOf(names)) <==>
              forall n :: 0 <= n < |names| ==> TrustedDirectory(system, PathOf(names[..n]))
  {
    AboveIsPrefixes(DirectoryRule(system), names);
    assert forall d :: DirectoryRule(system)(d) == TrustedDirectory(system, d);
  }

  // ---------------------------------------------------------------------------------------------
  // The candidates.
  // ---------------------------------------------------------------------------------------------

  predicate IsPresent(system: System, candidate: string) {
    IsAbsolute(candidate) && system.metadata(candidate).Some?
  }

  predicate Under(path: string, root: string) {
    |root| < |path| && path[..|root|] == root && path[|root|] == '/'
  }

  predicate IsTrustedLink(system: System, m: Metadata) {
    (m.kind == Regular || m.kind == SymbolicLink) && TrustedOwner(system, m) && m.linkCount == 1
  }

  predicate IsTrustedProgram(system: System, m: Metadata) {
    && m.kind == Regular && TrustedOwner(system, m) && m.linkCount == 1
    && m.bits & SPECIAL_OR_SHARED_WRITE == 0 && m.bits & ANY_EXECUTE != 0
  }

  /** All that is required of the files themselves. */
  predicate HasTrustedFiles(system: System, candidate: string, roots: seq<string>) {
    && IsPresent(system, candidate) && IsTrustedLink(system, system.metadata(candidate).value)
    && (var resolved := system.resolve(candidate);
        && IsAbsolute(resolved) && (exists i :: 0 <= i < |roots| && Under(resolved, roots[i]))
        && system.metadata(resolved).Some? && IsTrustedProgram(system, system.metadata(resolved).value))
  }

  ghost predicate IsValid(system: System, candidate: string, roots: seq<string>) {
    && HasTrustedFiles(system, candidate, roots)
    && TrustedAbove(system, candidate) && TrustedAbove(system, system.resolve(candidate))
  }

  datatype Result = Found(path: string) | MissingNode | UnsafeNode

  ghost predicate NoneValid(system: System, candidates: seq<string>, roots: seq<string>) {
    forall j :: 0 <= j < |candidates| ==> !IsValid(system, candidates[j], roots)
  }

  ghost predicate IsFirstValid(system: System, candidates: seq<string>, roots: seq<string>, k: nat) {
    k < |candidates| && IsValid(system, candidates[k], roots) && NoneValid(system, candidates[..k], roots)
  }

  /** The first fully valid candidate; it is missing only if no candidate is there at all. */
  method ValidatedNode(system: System, candidates: seq<string>, roots: seq<string>) returns (result: Result)
    ensures result.Found? <==> exists k: nat :: IsFirstValid(system, candidates, roots, k)
    ensures result.Found? ==>
              exists k: nat ::
                IsFirstValid(system, candidates, roots, k) && result.path == system.resolve(candidates[k])
    ensures result == MissingNode <==> forall j :: 0 <= j < |candidates| ==> !IsPresent(system, candidates[j])
  {
    var rejectedPresentRuntime := false;
    for k := 0 to |candidates|
      invariant NoneValid(system, candidates[..k], roots)
      invariant rejectedPresentRuntime <==> exists j :: 0 <= j < k && IsPresent(system, candidates[j])
    {
      var candidate := candidates[k];
      NextCandidate(system, candidates, roots, k);
      if !IsPresent(system, candidate) {
        continue;
      }
      rejectedPresentRuntime := true;
      if !HasTrustedFiles(system, candidate, roots) {
        continue;
      }
      var resolved := system.resolve(candidate);
      var trusted := TrustedParents(system, candidate);
      if !trusted {
        continue;
      }
      trusted := TrustedParents(system, resolved);
      if !trusted {
        continue;
      }
      assert IsFirstValid(system, candidates, roots, k);
      return Found(resolved);
    }
    assert candidates[..|candidates|] == candidates;
    return if rejectedPresentRuntime then UnsafeNode else MissingNode;
  }

  lemma NextCandidate(system: System, candidates: seq<string>, roots: seq<string>, k: nat)
    requires k < |candidates| && NoneValid(system, candidates[..k], roots)
    ensures !IsValid(system, candidates[k], roots) ==> NoneValid(system, candidates[..k + 1], roots)
  {
    assert forall j :: 0 <= j < k ==> candidates[..k + 1][j] == candidates[..k][j];
  }

  // ---------------------------------------------------------------------------------------------
  // Permissions, bit by bit.
  // ---------------------------------------------------------------------------------------------

  /** The permission at this place of a mode: 0 to 8 are execute, write, read of others, group and owner. */
  predicate Grants(m: Metadata, place: nat)
    requires place < 12
  {
    (m.bits >> place) & 1 == 1
  }

  predicate HasSpecialBits(m: Metadata) {
    Grants(m, 9) || Grants(m, 10) || Grants(m, 11)
  }

  predicate IsOwned(system: System, m: Metadata) {
    m.owner in {0, system.currentUser}
  }

  /** `rwxrwxr-x` */
  predicate IsSharedMode(m: Metadata) {
    && Grants(m, 8) && Grants(m, 7) && Grants(m, 6) && Grants(m, 5) && Grants(m, 4) && Grants(m, 3)
    && Grants(m, 2) && !Grants(m, 1) && Grants(m, 0) && !HasSpecialBits(m)
  }

  lemma BitsOfDirectory(m: Metadata)
    ensures m.bits & SPECIAL_OR_OTHER_WRITE == 0 <==> !HasSpecialBits(m) && !Grants(m, 1)
    ensures m.bits & GROUP_WRITE != 0 <==> Grants(m, 4)
    ensures m.bits == ADMIN_WRITABLE <==> IsSharedMode(m)
  {
  }

  /** A trusted directory: of the system or the user, and writable by them only, but for the shared four. */
  lemma TrustedDirectoryMeans(system: System, directory: string)
    ensures TrustedDirectory(system, directory) <==>
              match system.metadata(directory)
              case None => false
              case Some(m) =>
                && m.kind == Directory && IsOwned(system, m) && !HasSpecialBits(m) && !Grants(m, 1)
                && (Grants(m, 4) ==>
                      && directory in {"/opt/homebrew/bin", "/opt/homebrew/Cellar", "/usr/local/bin",
                                       "/usr/local/Cellar"}
                      && IsSharedMode(m) && system.adminGroup == Some(m.group))
  {
    if system.metadata(directory).Some? {
      BitsOfDirectory(system.metadata(directory).value);
    }
  }

  /** A trusted program: also not writable by the group, and executable by someone. */
  lemma TrustedProgramMeans(system: System, m: Metadata)
    ensures IsTrustedProgram(system, m) <==>
              && m.kind == Regular && IsOwned(system, m) && m.linkCount == 1
              && !HasSpecialBits(m) && !Grants(m, 4) && !Grants(m, 1)
              && (Grants(m, 0) || Grants(m, 3) || Grants(m, 6))
  {
  }

  /** A valid candidate: an owned file or link with one name, leading to a program below a trusted root. */
  lemma ValidCandidateMeans(system: System, candidate: string, roots: seq<string>)
    ensures IsValid(system, candidate, roots) <==>
              && (match system.metadata(candidate)
                  case None => false
                  case Some(m) => m.kind in {Regular, SymbolicLink} && IsOwned(system, m) && m.linkCount == 1)
              && (match system.metadata(system.resolve(candidate))
                  case None => false
                  case Some(m) => IsTrustedProgram(system, m))
              && "/" <= candidate && "/" <= system.resolve(candidate)
              && (exists i :: 0 <= i < |roots| && roots[i] + "/" <= system.resolve(candidate))
              && TrustedAbove(system, candidate) && TrustedAbove(system, system.resolve(candidate))
  {
    var resolved := system.resolve(candidate);
    forall i | 0 <= i < |roots| ensures Under(resolved, roots[i]) <==> roots[i] + "/" <= resolved {
      BelowRoot(resolved, roots[i]);
    }
    assert IsAbsolute(candidate) <==> "/" <= candidate;
    assert IsAbsolute(resolved) <==> "/" <= resolved;
  }

  lemma BelowRoot(path: string, root: string)
    ensures Under(path, root) <==> root + "/" <= path
  {
    if Under(path, root) {
      assert path[..|root| + 1] == root + "/";
    }
  }

  // ---------------------------------------------------------------------------------------------
  // A system with a valid runtime.
  // ---------------------------------------------------------------------------------------------

  /** `/usr/bin/node`, owned by the system like everything above it, with mode 0755. */
  function PlainSystem(user: nat): System {
    System(path => if path == "/usr/bin/node" then Some(Metadata(Regular, 0x1ED, 0, 0, 1))
                   else if path in {"/", "/usr", "/usr/bin"} then Some(Metadata(Directory, 0x1ED, 0, 0, 2))
                   else None,
           path => path, user, None)
  }

  lemma PlainAncestors(user: nat)
    ensures TrustedAbove(PlainSystem(user), "/usr/bin/node")
  {
    var names := ["usr", "bin", "node"];
    PlainPaths();
    TrustedAboveComponents(PlainSystem(user), names);
  }

  lemma PlainPaths()
    ensures AreNames(["usr", "bin", "node"])
    ensures PathOf([]) == "/" && PathOf(["usr", "bin", "node"][..1]) == "/usr"
    ensures PathOf(["usr", "bin", "node"][..2]) == "/usr/bin" && PathOf(["usr", "bin", "node"]) == "/usr/bin/node"
  {
    var names := ["usr", "bin", "node"];
    assert names[..1] == ["usr"] && names[..2] == ["usr", "bin"];
    assert ["usr"][..0] == [] && ["usr", "bin"][..1] == ["usr"];
    assert Joined(["usr"]) == "/usr" && Joined(["usr", "bin"]) == "/usr/bin";
  }

  /** It is found, whoever the user is. */
  lemma PlainNodeIsValid(user: nat)
    ensures IsFirstValid(PlainSystem(user), ["/usr/bin/node"], ["/usr/bin"], 0)
  {
    PlainAncestors(user);
    assert Under("/usr/bin/node", "/usr/bin");
    assert ["/usr/bin/node"][..0] == [];
    assert ["/usr/bin"][0] == "/usr/bin";
  }
}
