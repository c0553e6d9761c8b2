/** The hashed stream determines the accepted files, and depends on nothing else. */
module DistributionEncoding {
  import opened Prelude
  import opened Text
  import opened Utf8
  import opened Distribution

  // ---------------------------------------------------------------------------------------------
  // Decoding: a header, a path, a header, contents, and so on.
  // ---------------------------------------------------------------------------------------------

  predicate IsAscii(s: string) {
    forall i :: 0 <= i < |s| ==> s[i] as int < 0x80
  }

  lemma {:induction false} EncodeAscii(s: string)
    requires IsAscii(s)
    ensures |Encode(s)| == |s| && forall i :: 0 <= i < |s| ==> Encode(s)[i] == s[i] as int
  {
    if s != [] {
      EncodeAscii(s[1..]);
    }
  }

  lemma HeaderShape(n: nat)
    ensures |Header(n)| == |Numeral(n)| + 1 && Header(n)[|Numeral(n)|] == ':' as int
    ensures forall i :: 0 <= i < |Numeral(n)| ==> Header(n)[i] != ':' as int
  {
    EncodeAscii(Numeral(n) + ":");
  }

  lemma NumeralsNoLonger(n: nat, m: nat, x: Bytes, y: Bytes)
    requires Header(n) + x == Header(m) + y
    ensures |Numeral(m)| <= |Numeral(n)|
  {
    HeaderShape(n);
    HeaderShape(m);
    var k := |Numeral(n)|;
    assert (Header(n) + x)[k] == ':' as int;
    assert forall i :: 0 <= i < |Numeral(m)| ==> (Header(m) + y)[i] != ':' as int;
  }

  lemma SplitEqual<T>(a: seq<T>, x: seq<T>, b: seq<T>, y: seq<T>)
    requires a + x == b + y && |a| == |b|
    ensures a == b && x == y
  {
    assert a == (a + x)[..|a|] == (b + y)[..|b|] == b;
    assert x == (a + x)[|a|..] == (b + y)[|b|..] == y;
  }

  lemma HeaderUnique(n: nat, m: nat, x: Bytes, y: Bytes)
    requires Header(n) + x == Header(m) + y
    ensures n == m && x == y
  {
    NumeralsNoLonger(n, m, x, y);
    NumeralsNoLonger(m, n, y, x);
    HeaderShape(n);
    HeaderShape(m);
    SplitEqual(Header(n), x, Header(m), y);
    EncodeInjective(Numeral(n) + ":", Numeral(m) + ":");
    SplitEqual(Numeral(n), ":", Numeral(m), ":");
    NumeralRoundTrip(n);
    NumeralRoundTrip(m);
  }

  lemma FrameThen(a: Item, x: Bytes)
    ensures Frame(a) + x
         == Header(|Encode(a.path)|) + (Encode(a.path) + (Header(|a.contents|) + (a.contents + x)))
  {
    var h, p, q, c := Header(|Encode(a.path)|), Encode(a.path), Header(|a.contents|), a.contents;
    Assoc(h, p + (q + c), x);
    Assoc(p, q + c, x);
    Assoc(q, c, x);
  }

  /** A frame is decoded in one way, whatever follows it. */
  lemma FrameUnique(a: Item, b: Item, x: Bytes, y: Bytes)
    requires Frame(a) + x == Frame(b) + y
    ensures a == b && x == y
  {
    var p, q := Encode(a.path), Encode(b.path);
    var s, t := Header(|a.contents|) + (a.contents + x), Header(|b.contents|) + (b.contents + y);
    FrameThen(a, x);
    FrameThen(b, y);
    HeaderUnique(|p|, |q|, p + s, q + t);
    SplitEqual(p, s, q, t);
    EncodeInjective(a.path, b.path);
    HeaderUnique(|a.contents|, |b.contents|, a.contents + x, b.contents + y);
    SplitEqual(a.contents, x, b.contents, y);
  }

  lemma {:induction false} StreamCons(items: seq<Item>)
    requires items != []
    ensures Stream(items) == Frame(items[0]) + Stream(items[1..])
    decreases |items|
  {
    var n := |items| - 1;
    if n == 0 {
      assert items[..0] == [] && items[1..] == [];
    } else {
      var front, tail := items[..n], items[1..];
      StreamCons(front);
      assert front[1..] == tail[..n - 1] && front[0] == items[0] && tail[n - 1] == items[n];
      assert Stream(tail) == Stream(front[1..]) + Frame(items[n]);
      Assoc(Frame(items[0]), Stream(front[1..]), Frame(items[n]));
    }
  }

  lemma FrameIsLong(a: Item)
    ensures Frame(a) != []
  {
    HeaderShape(|Encode(a.path)|);
  }

  /** The stream is uniquely decodable. */
  lemma {:induction false} StreamInjective(a: seq<Item>, b: seq<Item>)
    requires Stream(a) == Stream(b)
    ensures a == b
  {
    if a != [] {
      StreamCons(a);
      FrameIsLong(a[0]);
    }
    if b != [] {
      StreamCons(b);
      FrameIsLong(b[0]);
    }
    if a != [] && b != [] {
      FrameUnique(a[0], b[0], Stream(a[1..]), Stream(b[1..]));
      StreamInjective(a[1..], b[1..]);
      HeadTail(a);
      HeadTail(b);
    }
  }

  // ---------------------------------------------------------------------------------------------
  // The order is strict and total on case-folded paths.
  // ---------------------------------------------------------------------------------------------

  lemma {:induction false} LessAsymmetric(s: string, t: string)
    requires TextLess(s, t)
    ensures !TextLess(t, s) && s != t
  {
    if s != [] && s[0] == t[0] {
      LessAsymmetric(s[1..], t[1..]);
    }
  }

  lemma {:induction false} LessTransitive(s: string, t: string, u: string)
    requires TextLess(s, t) && TextLess(t, u)
    ensures TextLess(s, u)
  {
    if s != [] && s[0] == t[0] == u[0] {
      LessTransitive(s[1..], t[1..], u[1..]);
    }
  }

  lemma {:induction false} LessTotal(s: string, t: string)
    requires s != t
    ensures TextLess(s, t) || TextLess(t, s)
  {
    if s != [] && t != [] && s[0] == t[0] {
      HeadTail(s);
      HeadTail(t);
      LessTotal(s[1..], t[1..]);
    }
  }

  predicate DistinctKeys(items: seq<Item>) {
    forall i, j :: 0 <= i < j < |items| ==> Lower(items[i].path) != Lower(items[j].path)
  }

  predicate StrictlySorted(items: seq<Item>) {
    forall i, j :: 0 <= i < j < |items| ==> Less(items[i], items[j])
  }

  ghost predicate SameItems(a: seq<Item>, b: seq<Item>) {
    forall x :: x in a <==> x in b
  }

  lemma {:induction false} InsertSorts(x: Item, s: seq<Item>)
    requires StrictlySorted(s) && forall y :: y in s ==> Lower(y.path) != Lower(x.path)
    ensures StrictlySorted(Insert(x, s))
    ensures forall y :: y in Insert(x, s) <==> y == x || y in s
  {
    if s == [] {
    } else if !Less(s[0], x) {
      LessTotal(Lower(s[0].path), Lower(x.path));
      forall i | 0 < i < |s| ensures Less(x, s[i]) {
        LessTransitive(Lower(x.path), Lower(s[0].path), Lower(s[i].path));
      }
    } else {
      InsertSorts(x, s[1..]);
      var rest := Insert(x, s[1..]);
      forall i | 0 <= i < |rest| ensures Less(s[0], rest[i]) {
        assert rest[i] in rest;
        if rest[i] != x {
          var j :| 0 <= j < |s[1..]| && s[1..][j] == rest[i];
        }
      }
      ConsSorted(s[0], rest);
    }
  }

  lemma ConsSorted(x: Item, s: seq<Item>)
    requires StrictlySorted(s) && forall i :: 0 <= i < |s| ==> Less(x, s[i])
    ensures StrictlySorted([x] + s)
  {
  }

  lemma {:induction false} SortedSorts(items: seq<Item>)
    requires DistinctKeys(items)
    ensures StrictlySorted(Sorted(items)) && SameItems(Sorted(items), items)
  {
    if items != [] {
      SortedSorts(items[1..]);
      forall y | y in Sorted(items[1..]) ensures Lower(y.path) != Lower(items[0].path) {
        var j :| 0 <= j < |items[1..]| && items[1..][j] == y;
      }
      InsertSorts(items[0], Sorted(items[1..]));
    }
  }

  lemma HeadIsLeast(s: seq<Item>, x: Item)
    requires StrictlySorted(s) && x in s
    ensures x == s[0] || Less(s[0], x)
  {
  }

  lemma TailHas(s: seq<Item>, x: Item)
    requires s != [] && StrictlySorted(s)
    ensures x in s[1..] <==> x in s && x != s[0]
  {
    forall i | 0 < i < |s| ensures s[i] != s[0] {
      LessAsymmetric(Lower(s[0].path), Lower(s[i].path));
    }
  }

  lemma BothEmpty(a: seq<Item>, b: seq<Item>)
    requires SameItems(a, b)
    ensures a == [] <==> b == []
  {
    if a != [] {
      assert a[0] in a;
    }
    if b != [] {
      assert b[0] in b;
    }
  }

  /** A strictly sorted list is determined by its members. */
  lemma {:induction false} SortedUnique(a: seq<Item>, b: seq<Item>)
    requires StrictlySorted(a) && StrictlySorted(b) && SameItems(a, b)
    ensures a == b
  {
    BothEmpty(a, b);
    if a != [] {
      assert a[0] in a && b[0] in b;
      HeadIsLeast(a, b[0]);
      HeadIsLeast(b, a[0]);
      if a[0] != b[0] {
        LessAsymmetric(Lower(a[0].path), Lower(b[0].path));
        assert false;
      }
      forall x ensures x in a[1..] <==> x in b[1..] {
        TailHas(a, x);
        TailHas(b, x);
      }
      SortedUnique(a[1..], b[1..]);
      HeadTail(a);
      HeadTail(b);
    }
  }

  // ---------------------------------------------------------------------------------------------
  // The paths of an accepted tree, folded, are still distinct.
  // ---------------------------------------------------------------------------------------------

  /** The text before the first slash. */
  function Top(path: string): string {
    if path == [] || path[0] == '/' then [] else [path[0]] + Top(path[1..])
  }

  lemma {:induction false} TopOfJoin(name: string, rest: string)
    requires '/' !in name
    ensures Top(name + "/" + rest) == name && Top(name) == name
  {
    if name == [] {
      assert (name + "/" + rest)[0] == '/';
    } else {
      assert (name + "/" + rest)[1..] == name[1..] + "/" + rest;
      TopOfJoin(name[1..], rest);
      HeadTail(name);
    }
  }

  predicate IsUpper(c: char) {
    'A' <= c <= 'Z'
  }

  predicate NoUpper(s: string) {
    forall i :: 0 <= i < |s| ==> !IsUpper(s[i])
  }

  lemma LowerOfFolded(s: string)
    requires NoUpper(s)
    ensures Lower(s) == s
  {
  }

  /** A member name holds no uppercase letter and no slash, with or without a final terminator. */
  lemma MemberIsFolded(directory: string, member: string)
    requires IsMember(directory, member)
    ensures NoUpper(member)
  {
    var core := Core(member);
    assert core <= member;
    forall i | 0 <= i < |core| ensures !IsUpper(core[i]) {
      if directory == "src" && IsModuleName(core) && i >= |core| - 4 {
        assert core[i] == core[|core| - 4..][i - (|core| - 4)];
      }
    }
    assert forall i :: |core| <= i < |member| ==> !IsUpper(member[i]);
  }

  /** The member names that the expression spells out. */
  predicate IsIntendedMember(directory: string, member: string) {
    (directory == "src" && IsModuleName(member)) || (directory == "bin" && member in PROGRAMS)
  }

  lemma IntendedIsNotTerminated(directory: string, member: string)
    requires IsIntendedMember(directory, member)
    ensures member != [] && !IsTerminated(member)
  {
    if directory == "src" {
      assert member[|member| - 4..][3] == 's';
    }
  }

  /**
   The `$` of the member expression stops before a final line terminator, so an accepted member name is
   an intended one exactly when it does not end in one.
   */
  lemma AcceptedMemberNames(directory: string, member: string)
    requires IsMember(directory, member)
    ensures IsIntendedMember(directory, member) <==> !IsTerminated(member)
  {
    if IsIntendedMember(directory, member) {
      IntendedIsNotTerminated(directory, member);
    }
  }

  lemma TerminatedNameIsAccepted(directory: string, member: string, end: string)
    requires IsIntendedMember(directory, member) && IsLineEnd(end)
    ensures IsMember(directory, member + end) && !IsIntendedMember(directory, member + end)
  {
    IntendedIsNotTerminated(directory, member);
    CoreOfTerminated(member, end);
    AcceptedMemberNames(directory, member + end);
  }

  /** The paths that an entry of the root contributes. */
  predicate IsPathOf(name: string, path: string) {
    Top(path) == name && (path == "LICENSE" || NoUpper(path))
  }

  lemma FileItemsPaths(name: string, prefix: string, entries: seq<Entry>)
    requires AreSafeFiles(entries) && NoUpper(prefix)
    requires forall e :: e in entries ==> NoUpper(e.name)
    requires '/' !in name && |name| < |prefix| && prefix[..|name| + 1] == name + "/"
    ensures forall item :: item in FileItems(prefix, entries) ==> IsPathOf(name, item.path)
  {
    forall i | 0 <= i < |entries| ensures IsPathOf(name, FileItems(prefix, entries)[i].path) {
      var rest := prefix[|name| + 1..];
      assert prefix + entries[i].name == name + "/" + (rest + entries[i].name);
      TopOfJoin(name, rest + entries[i].name);
    }
  }

  lemma FileItemsDistinct(prefix: string, entries: seq<Entry>)
    requires AreSafeFiles(entries) && DistinctNames(entries)
    ensures DistinctPaths(FileItems(prefix, entries))
  {
    forall i, j | 0 <= i < j < |entries| ensures prefix + entries[i].name != prefix + entries[j].name {
      if prefix + entries[i].name == prefix + entries[j].name {
        SplitEqual(prefix, entries[i].name, prefix, entries[j].name);
      }
    }
  }

  predicate DistinctPaths(items: seq<Item>) {
    forall i, j :: 0 <= i < j < |items| ==> items[i].path != items[j].path
  }

  lemma MlxNamesAreFolded(entries: seq<Entry>)
    requires NameSet(entries) == MLX_FILES
    ensures forall e :: e in entries ==> NoUpper(e.name)
  {
    forall e | e in entries ensures NoUpper(e.name) {
      assert e.name in NameSet(entries);
    }
  }

  lemma MemberPaths(e: Entry)
    requires e.name == "bin" || e.name == "src"
    requires IsSafeEntry(e) && DistinctNames(e.node.entries)
    ensures forall item :: item in ItemsOf(e) ==> IsPathOf(e.name, item.path)
    ensures DistinctPaths(ItemsOf(e))
  {
    forall m | m in e.node.entries ensures NoUpper(m.name) {
      MemberIsFolded(e.name, m.name);
    }
    FileItemsPaths(e.name, e.name + "/", e.node.entries);
    FileItemsDistinct(e.name + "/", e.node.entries);
  }

  lemma RuntimePaths(entries: seq<Entry>)
    requires AreSafeFiles(entries) && NameSet(entries) == MLX_FILES && DistinctNames(entries)
    ensures forall item :: item in FileItems("runtime/mlx/", entries) ==> IsPathOf("runtime", item.path)
    ensures DistinctPaths(FileItems("runtime/mlx/", entries))
  {
    MlxNamesAreFolded(entries);
    assert "runtime/mlx/"[..|"runtime"| + 1] == "runtime" + "/";
    FileItemsPaths("runtime", "runtime/mlx/", entries);
    FileItemsDistinct("runtime/mlx/", entries);
  }

  predicate IsFileName(name: string) {
    name in {"LICENSE", "lmstudio-picker.config.json", "package.json", "release-manifest.json"}
  }

  predicate IsFolded(name: string) {
    forall i :: 0 <= i < |name| ==> name[i] != '/' && !IsUpper(name[i])
  }

  lemma FileNamesAreFolded()
    ensures IsFolded("lmstudio-picker.config.json")
    ensures IsFolded("package.json") && IsFolded("release-manifest.json")
    ensures '/' !in "LICENSE"
  {
  }

  lemma FileNamePath(name: string)
    requires IsFileName(name)
    ensures IsPathOf(name, name)
  {
    FileNamesAreFolded();
    if name != "LICENSE" {
      assert IsFolded(name);
    }
    TopOfJoin(name, "");
  }

  lemma EntryPaths(e: Entry)
    requires IsSafeEntry(e) && e.name in ALLOWED && IsListing(e.node)
    ensures forall item :: item in ItemsOf(e) ==> IsPathOf(e.name, item.path)
    ensures DistinctPaths(ItemsOf(e))
  {
    if e.name == "bin" || e.name == "src" {
      MemberPaths(e);
    } else if e.name == "runtime" {
      assert AreListings(e.node.entries) && e.node.entries[0] in e.node.entries;
      assert AreListings(e.node.entries[0].node.entries);
      RuntimePaths(e.node.entries[0].node.entries);
    } else {
      FileNamePath(e.name);
    }
  }

  predicate IsNamed(path: string, root: seq<Entry>) {
    exists e :: e in root && IsPathOf(e.name, path)
  }

  lemma {:induction false} InventoryPaths(root: seq<Entry>)
    requires AreSafe(root) && NameSet(root) <= ALLOWED && AreListings(root)
    ensures forall item :: item in Inventory(root) ==> IsNamed(item.path, root)
    ensures DistinctPaths(Inventory(root))
    decreases |root|
  {
    if root != [] {
      var n := |root| - 1;
      var before, e := root[..n], root[n];
      assert forall f :: f in before ==> f in root && f.name in NameSet(root);
      assert e in root && e.name in NameSet(root);
      InventoryPaths(before);
      EntryPaths(e);
      forall x, y | x in Inventory(before) && y in ItemsOf(e) ensures x.path != y.path {
        var f :| f in before && IsPathOf(f.name, x.path);
        var i :| 0 <= i < n && before[i] == f;
        assert root[i].name != root[n].name;
      }
      DistinctAppend(Inventory(before), ItemsOf(e));
      forall item | item in Inventory(root) ensures IsNamed(item.path, root) {
        if item in Inventory(before) {
          var f :| f in before && IsPathOf(f.name, item.path);
          assert f in root;
        }
      }
    }
  }

  lemma DistinctAppend(a: seq<Item>, b: seq<Item>)
    requires DistinctPaths(a) && DistinctPaths(b)
    requires forall x, y :: x in a && y in b ==> x.path != y.path
    ensures DistinctPaths(a + b)
  {
    forall i, j | 0 <= i < j < |a + b| ensures (a + b)[i].path != (a + b)[j].path {
      if i < |a| <= j {
        assert a[i] in a && b[j - |a|] in b;
      }
    }
  }

  /** Folding merges no two paths: `LICENSE` is the only one with uppercase letters. */
  lemma FoldingIsInjective(root: seq<Entry>, p: string, q: string)
    requires NameSet(root) <= ALLOWED && IsNamed(p, root) && IsNamed(q, root) && Lower(p) == Lower(q)
    ensures p == q
  {
    var e :| e in root && IsPathOf(e.name, p);
    var f :| f in root && IsPathOf(f.name, q);
    assert e.name in NameSet(root) && f.name in NameSet(root);
    if NoUpper(p) && NoUpper(q) {
      LowerOfFolded(p);
      LowerOfFolded(q);
    } else if p != q {
      LicenseIsAlone(if NoUpper(p) then p else q);
      assert false;
    }
  }

  /** No accepted path without uppercase letters is `license`. */
  lemma LicenseIsAlone(p: string)
    requires NoUpper(p) && Top(p) in ALLOWED
    ensures Lower(p) != Lower("LICENSE")
  {
    LowerOfFolded(p);
    FoldedLicense();
    TopOfJoin("license", "");
    LicenseIsNotAllowed();
  }

  lemma FoldedLicense()
    ensures Lower("LICENSE") == "license"
  {
  }

  lemma LicenseIsNotAllowed()
    ensures "license" !in ALLOWED
  {
    assert "LICENSE"[0] != "license"[0];
  }

  // ---------------------------------------------------------------------------------------------
  // The main result.
  // ---------------------------------------------------------------------------------------------

  /** The accepted tree as a map from paths to contents. */
  function Files(root: seq<Entry>): map<string, Bytes>
    requires AreSafe(root)
  {
    map item | item in Inventory(root) :: item.path := ContentsAt(Inventory(root), item.path)
  }

  function ContentsAt(items: seq<Item>, path: string): Bytes
    requires exists item :: item in items && item.path == path
  {
    if items[0].path == path then items[0].contents
    else
      assert items == [items[0]] + items[1..];
      ContentsAt(items[1..], path)
  }

  lemma {:induction false} ContentsOf(items: seq<Item>, item: Item)
    requires DistinctPaths(items) && item in items
    ensures ContentsAt(items, item.path) == item.contents
  {
    if items[0] != item {
      var i :| 0 <= i < |items| && items[i] == item;
      assert items[1..][i - 1] == item;
      ContentsOf(items[1..], item);
    }
  }

  lemma FilesHold(root: seq<Entry>, item: Item)
    requires Accepted(root) && AreListings(root)
    ensures item in Inventory(root) <==> item.path in Files(root) && Files(root)[item.path] == item.contents
  {
    InventoryPaths(root);
    if item in Inventory(root) {
      ContentsOf(Inventory(root), item);
    }
    if item.path in Files(root) {
      var other :| other in Inventory(root) && other.path == item.path;
      ContentsOf(Inventory(root), other);
    }
  }

  lemma InventorySorts(root: seq<Entry>)
    requires Accepted(root) && AreListings(root)
    ensures StrictlySorted(Sorted(Inventory(root))) && SameItems(Sorted(Inventory(root)), Inventory(root))
  {
    InventoryPaths(root);
    var items := Inventory(root);
    forall i, j | 0 <= i < j < |items| ensures Lower(items[i].path) != Lower(items[j].path) {
      assert items[i] in items && items[j] in items;
      if Lower(items[i].path) == Lower(items[j].path) {
        FoldingIsInjective(root, items[i].path, items[j].path);
      }
    }
    SortedSorts(items);
  }

  /**
   Two accepted trees are hashed as the same bytes exactly when they hold the same files, in whatever
   order their directories are enumerated.
   */
  lemma SameStreamIffSameFiles(a: seq<Entry>, b: seq<Entry>)
    requires Accepted(a) && AreListings(a) && Accepted(b) && AreListings(b)
    ensures Stream(Sorted(Inventory(a))) == Stream(Sorted(Inventory(b))) <==> Files(a) == Files(b)
  {
    var s, t := Sorted(Inventory(a)), Sorted(Inventory(b));
    InventorySorts(a);
    InventorySorts(b);
    if Stream(s) == Stream(t) {
      StreamInjective(s, t);
      SameMaps(a, b);
    }
    if Files(a) == Files(b) {
      forall item ensures item in s <==> item in t {
        FilesHold(a, item);
        FilesHold(b, item);
      }
      SortedUnique(s, t);
    }
  }

  lemma SameMaps(a: seq<Entry>, b: seq<Entry>)
    requires Accepted(a) && AreListings(a) && Accepted(b) && AreListings(b)
    requires SameItems(Inventory(a), Inventory(b))
    ensures Files(a) == Files(b)
  {
    forall p ensures p in Files(a) <==> p in Files(b) {
    }
    forall p | p in Files(a) ensures Files(a)[p] == Files(b)[p] {
      var item :| item in Inventory(a) && item.path == p;
      FilesHold(a, item);
      FilesHold(b, item);
    }
  }
}
