/** The order and the form of the hashed stream, on characters and bytes, and one tree spelled out. */
module DistributionOrder {
  import opened Prelude
  import opened Text
  import opened Utf8
  import opened Distribution
  import opened DistributionEncoding

  // ---------------------------------------------------------------------------------------------
  // Ascending order.
  // ---------------------------------------------------------------------------------------------

  /** Code points, with the capital letters of ASCII moved to their small ones. */
  function Folded(c: char): int {
    if 0x41 <= c as int <= 0x5A then c as int + 0x20 else c as int
  }

  /** The texts agree before position `k`, apart from case. */
  predicate AgreeBefore(s: string, t: string, k: nat) {
    k <= |s| && k <= |t| && forall i :: 0 <= i < k ==> Folded(s[i]) == Folded(t[i])
  }

  /** `s` ends where `t` goes on, or it has the smaller character at the first difference. */
  predicate ComesBefore(s: string, t: string) {
    exists k :: 0 <= k <= |s| && AgreeBefore(s, t, k) && k < |t| && (k == |s| || Folded(s[k]) < Folded(t[k]))
  }

  lemma FoldedIsLower(s: string)
    ensures forall i :: 0 <= i < |s| ==> Lower(s)[i] as int == Folded(s[i])
  {
  }

  /** The first difference of two folded texts. */
  lemma {:induction false} LessAt(s: string, t: string) returns (k: nat)
    requires TextLess(s, t)
    ensures k <= |s| && k < |t| && s[..k] == t[..k] && (k == |s| || s[k] < t[k])
  {
    if s == [] || s[0] != t[0] {
      k := 0;
    } else {
      k := LessAt(s[1..], t[1..]);
      k := k + 1;
      HeadTail(s);
      HeadTail(t);
      assert s[..k] == [s[0]] + s[1..][..k - 1] && t[..k] == [t[0]] + t[1..][..k - 1];
    }
  }

  lemma LessComesBefore(s: string, t: string)
    requires TextLess(Lower(s), Lower(t))
    ensures ComesBefore(s, t)
  {
    var k := LessAt(Lower(s), Lower(t));
    FoldedIsLower(s);
    FoldedIsLower(t);
    forall i | 0 <= i < k ensures Folded(s[i]) == Folded(t[i]) {
      assert Lower(s)[..k][i] == Lower(t)[..k][i];
    }
    assert AgreeBefore(s, t, k);
  }

  /** The files of an accepted tree are hashed in ascending order of their folded paths. */
  lemma HashedInOrder(root: seq<Entry>, i: nat, j: nat)
    requires Accepted(root) && AreListings(root) && i < j < |Sorted(Inventory(root))|
    ensures ComesBefore(Sorted(Inventory(root))[i].path, Sorted(Inventory(root))[j].path)
  {
    InventorySorts(root);
    LessComesBefore(Sorted(Inventory(root))[i].path, Sorted(Inventory(root))[j].path);
  }

  // ---------------------------------------------------------------------------------------------
  // Every file of the tree, under its path.
  // ---------------------------------------------------------------------------------------------

  /** A file directly below the root. */
  predicate RootFile(d: Entry, path: string, contents: Bytes) {
    d.node.File? && path == d.name && contents == d.node.contents
  }

  /** A file of a directory. */
  predicate FileBelow(prefix: string, entries: seq<Entry>, path: string, contents: Bytes) {
    exists m :: m in entries && m.node.File? && path == prefix + "/" + m.name && contents == m.node.contents
  }

  predicate FileTwoBelow(d: Entry, path: string, contents: Bytes) {
    && d.node.Directory?
    && exists e :: e in d.node.entries && InDirectory(d.name + "/" + e.name, e.node, path, contents)
  }

  predicate InDirectory(prefix: string, n: Node, path: string, contents: Bytes) {
    n.Directory? && FileBelow(prefix, n.entries, path, contents)
  }

  /** The file at this path, at most two directories down, has these contents. */
  predicate IsFileOf(root: seq<Entry>, path: string, contents: Bytes) {
    exists d :: d in root && IsFileIn(d, path, contents)
  }

  predicate IsFileIn(d: Entry, path: string, contents: Bytes) {
    || RootFile(d, path, contents)
    || (d.node.Directory? && FileBelow(d.name, d.node.entries, path, contents))
    || FileTwoBelow(d, path, contents)
  }

  lemma ItemsOfFiles(prefix: string, entries: seq<Entry>, item: Item)
    requires AreSafeFiles(entries)
    ensures item in FileItems(prefix + "/", entries) <==> FileBelow(prefix, entries, item.path, item.contents)
  {
    var items := FileItems(prefix + "/", entries);
    if item in items {
      var i :| 0 <= i < |items| && items[i] == item;
      assert entries[i] in entries;
    }
    if m :| m in entries && m.node.File? && item.path == prefix + "/" + m.name && item.contents == m.node.contents {
      var i :| 0 <= i < |entries| && entries[i] == m;
      assert items[i] == item;
    }
  }

  lemma ItemsAreFiles(d: Entry, item: Item)
    requires IsSafeEntry(d)
    ensures item in ItemsOf(d) <==> IsFileIn(d, item.path, item.contents)
  {
    if d.name == "bin" || d.name == "src" {
      ItemsOfFiles(d.name, d.node.entries, item);
    } else if d.name == "runtime" {
      var mlx := d.node.entries[0];
      assert "runtime" + "/" + "mlx" + "/" == "runtime/mlx/";
      ItemsOfFiles("runtime" + "/" + "mlx", mlx.node.entries, item);
      assert d.node.entries == [mlx];
    }
  }

  lemma {:induction false} InventoryIsFiles(root: seq<Entry>, item: Item)
    requires AreSafe(root)
    ensures item in Inventory(root) <==> IsFileOf(root, item.path, item.contents)
    decreases |root|
  {
    if root != [] {
      var front, last := root[..|root| - 1], root[|root| - 1];
      InventoryIsFiles(front, item);
      ItemsAreFiles(last, item);
      assert root == front + [last];
    }
  }

  /** What is hashed are exactly the files of the tree, each under its path. */
  lemma HashedFiles(root: seq<Entry>, item: Item)
    requires Accepted(root) && AreListings(root)
    ensures item in Sorted(Inventory(root)) <==> IsFileOf(root, item.path, item.contents)
  {
    InventorySorts(root);
    InventoryIsFiles(root, item);
  }

  // ---------------------------------------------------------------------------------------------
  // The bytes.
  // ---------------------------------------------------------------------------------------------

  /** Length and path, length and contents; lengths count bytes, in decimal, and end in a colon. */
  function Rendered(items: seq<Item>): Bytes {
    if items == [] then []
    else
      var path, contents := items[0].path, items[0].contents;
      Encode(Numeral(|Encode(path)|) + ":" + path + Numeral(|contents|) + ":") + contents + Rendered(items[1..])
  }

  lemma FrameForm(item: Item)
    ensures Frame(item)
         == Encode(Numeral(|Encode(item.path)|) + ":" + item.path + Numeral(|item.contents|) + ":") + item.contents
  {
    var first, second := Numeral(|Encode(item.path)|) + ":", Numeral(|item.contents|) + ":";
    EncodeAppend(first, item.path);
    EncodeAppend(first + item.path, second);
    Assoc(first + item.path, Numeral(|item.contents|), ":");
    Assoc(Encode(first), Encode(item.path), Encode(second) + item.contents);
    Assoc(Encode(first) + Encode(item.path), Encode(second), item.contents);
  }

  /** The hashed bytes are the files one after the other. */
  lemma {:induction false} StreamIsRendered(items: seq<Item>)
    ensures Stream(items) == Rendered(items)
  {
    if items != [] {
      StreamCons(items);
      FrameForm(items[0]);
      StreamIsRendered(items[1..]);
    }
  }

  // ---------------------------------------------------------------------------------------------
  // Accepted trees.
  // ---------------------------------------------------------------------------------------------

  /** A file of the user alone, of at most four mebibytes. */
  predicate IsSmallFile(n: Node) {
    match n
    case File(contents, isPrivate) => isPrivate && |contents| <= 4194304
    case _ => false
  }

  predicate IsPrivateDirectory(n: Node) {
    match n
    case Directory(_, isOwned, isClosed) => isOwned && isClosed
    case _ => false
  }

  /** Up to 512 members of the release grammar. */
  predicate HoldsMembers(e: Entry) {
    && IsPrivateDirectory(e.node) && 1 <= |e.node.entries| <= 512
    && forall m :: m in e.node.entries ==> IsMember(e.name, m.name) && IsSmallFile(m.node)
  }

  /** The four files of the model runtime, in a directory of their own. */
  predicate HoldsRuntime(e: Entry) {
    && IsPrivateDirectory(e.node) && |e.node.entries| == 1 && e.node.entries[0].name == "mlx"
    && var mlx := e.node.entries[0].node;
       && IsPrivateDirectory(mlx) && (forall m :: m in mlx.entries ==> IsSmallFile(m.node))
       && (forall m :: m in mlx.entries ==> m.name in {"kolibri.py", "manage.py", "model_store.py", "server.py"})
       && forall name :: name in {"kolibri.py", "manage.py", "model_store.py", "server.py"} ==> Holds(mlx.entries, name)
  }

  predicate Holds(entries: seq<Entry>, name: string) {
    exists e :: e in entries && e.name == name
  }

  predicate IsReleaseEntry(e: Entry) {
    if e.name == "bin" || e.name == "src" then HoldsMembers(e)
    else if e.name == "runtime" then HoldsRuntime(e)
    else
      && e.name in {"LICENSE", "package.json", "lmstudio-picker.config.json", "release-manifest.json"}
      && IsSmallFile(e.node)
  }

  lemma NamesHold(entries: seq<Entry>, names: set<string>)
    ensures NameSet(entries) == names
            <==> (forall m :: m in entries ==> m.name in names) && forall name :: name in names ==> Holds(entries, name)
  {
    forall m | m in entries ensures m.name in NameSet(entries) {
    }
  }

  lemma ReleaseEntryMeans(e: Entry)
    requires e.name in ALLOWED
    ensures IsSafeEntry(e) <==> IsReleaseEntry(e)
  {
    if e.name == "runtime" && e.node.Directory? && |e.node.entries| == 1 && e.node.entries[0].node.Directory? {
      NamesHold(e.node.entries[0].node.entries, MLX_FILES);
    }
  }

  /** The bytes of all files below. */
  function TreeBytes(entries: seq<Entry>): nat {
    if entries == [] then 0 else NodeBytes(entries[0].node) + TreeBytes(entries[1..])
  }

  function NodeBytes(n: Node): nat {
    match n
    case File(contents, _) => |contents|
    case Directory(entries, _, _) => TreeBytes(entries)
    case Special => 0
  }

  lemma TotalNext(items: seq<Item>, item: Item)
    ensures TotalBytes(items + [item]) == TotalBytes(items) + |item.contents|
  {
    assert (items + [item])[..|items|] == items;
  }

  lemma {:induction false} TotalAppend(a: seq<Item>, b: seq<Item>)
    ensures TotalBytes(a + b) == TotalBytes(a) + TotalBytes(b)
    decreases |b|
  {
    if b == [] {
      assert a + b == a;
    } else {
      var front, last := b[..|b| - 1], b[|b| - 1];
      TotalAppend(a, front);
      TotalNext(a + front, last);
      assert a + b == a + front + [last];
    }
  }

  lemma {:induction false} TotalOfInsert(x: Item, s: seq<Item>)
    ensures TotalBytes(Insert(x, s)) == |x.contents| + TotalBytes(s)
  {
    TotalNext([], x);
    assert [] + [x] == [x];
    TotalAppend([x], s);
    if s != [] && Less(s[0], x) {
      TotalOfInsert(x, s[1..]);
      TotalAppend([s[0]], Insert(x, s[1..]));
      TotalAppend([s[0]], s[1..]);
      HeadTail(s);
    }
  }

  lemma {:induction false} TotalOfSorted(items: seq<Item>)
    ensures TotalBytes(Sorted(items)) == TotalBytes(items)
  {
    if items != [] {
      TotalOfSorted(items[1..]);
      TotalOfInsert(items[0], Sorted(items[1..]));
      TotalNext([], items[0]);
      assert [] + [items[0]] == [items[0]];
      TotalAppend([items[0]], items[1..]);
      HeadTail(items);
    }
  }

  lemma {:induction false} TreeAppend(entries: seq<Entry>, e: Entry)
    ensures TreeBytes(entries + [e]) == TreeBytes(entries) + NodeBytes(e.node)
  {
    if entries == [] {
      assert entries + [e] == [e] && [e][1..] == [];
    } else {
      assert (entries + [e])[1..] == entries[1..] + [e];
      TreeAppend(entries[1..], e);
    }
  }

  lemma {:induction false} TotalOfFiles(prefix: string, entries: seq<Entry>)
    requires AreSafeFiles(entries)
    ensures TotalBytes(FileItems(prefix, entries)) == TreeBytes(entries)
    decreases |entries|
  {
    if entries != [] {
      var front, last := entries[..|entries| - 1], entries[|entries| - 1];
      TotalOfFiles(prefix, front);
      TreeAppend(front, last);
      assert entries == front + [last];
      assert FileItems(prefix, entries)[..|front|] == FileItems(prefix, front);
    }
  }

  lemma TotalOfEntry(e: Entry)
    requires IsSafeEntry(e)
    ensures TotalBytes(ItemsOf(e)) == NodeBytes(e.node)
  {
    if e.name == "bin" || e.name == "src" {
      TotalOfFiles(e.name + "/", e.node.entries);
    } else if e.name == "runtime" {
      TotalOfFiles("runtime/mlx/", e.node.entries[0].node.entries);
      assert e.node.entries[1..] == [] && TreeBytes([]) == 0;
      assert TreeBytes(e.node.entries) == NodeBytes(e.node.entries[0].node);
    } else {
      TotalNext([], ItemsOf(e)[0]);
      assert [] + ItemsOf(e) == ItemsOf(e);
    }
  }

  lemma {:induction false} TotalOfTree(root: seq<Entry>)
    requires AreSafe(root)
    ensures TotalBytes(Inventory(root)) == TreeBytes(root)
    decreases |root|
  {
    if root != [] {
      var front, last := root[..|root| - 1], root[|root| - 1];
      TotalOfTree(front);
      TotalOfEntry(last);
      TotalAppend(Inventory(front), ItemsOf(last));
      TreeAppend(front, last);
      assert root == front + [last];
    }
  }

  lemma RequiredNames(root: seq<Entry>)
    ensures REQUIRED <= NameSet(root) <==>
              && Holds(root, "LICENSE") && Holds(root, "bin") && Holds(root, "src")
              && Holds(root, "package.json") && Holds(root, "lmstudio-picker.config.json")
  {
    forall name ensures name in NameSet(root) <==> Holds(root, name) {
    }
  }

  /**
   A tree is accepted exactly when it holds the five required entries, nothing that is not allowed, and
   no more than 32 mebibytes.
   */
  lemma AcceptedMeans(root: seq<Entry>)
    ensures Accepted(root) <==>
              && Holds(root, "LICENSE") && Holds(root, "bin") && Holds(root, "src")
              && Holds(root, "package.json") && Holds(root, "lmstudio-picker.config.json")
              && (forall e :: e in root ==> IsReleaseEntry(e))
              && TreeBytes(root) <= 33554432
  {
    RequiredNames(root);
    if NameSet(root) <= ALLOWED {
      forall e | e in root ensures IsSafeEntry(e) <==> IsReleaseEntry(e) {
        assert e.name in NameSet(root);
        ReleaseEntryMeans(e);
      }
      if AreSafe(root) {
        TotalOfTree(root);
        TotalOfSorted(Inventory(root));
      }
    } else {
      var name :| name in NameSet(root) && name !in ALLOWED;
      var e :| e in root && e.name == name;
      assert !IsReleaseEntry(e);
    }
  }

  // ---------------------------------------------------------------------------------------------
  // One tree, spelled out.
  // ---------------------------------------------------------------------------------------------

  function Private(contents: Bytes): Node {
    File(contents, true)
  }

  function Closed(entries: seq<Entry>): Node {
    Directory(entries, true, true)
  }

  /** A smallest distribution, listed in no order. */
  function Smallest(license: Bytes): seq<Entry> {
    [Entry("src", Closed([Entry("a.mjs", Private([]))])), Entry("package.json", Private([])),
     Entry("bin", Closed([Entry("pickermux.mjs", Private([]))])), Entry("LICENSE", Private(license)),
     Entry("lmstudio-picker.config.json", Private([]))]
  }

  function InOrder(license: Bytes): seq<Item> {
    [Item("bin/pickermux.mjs", []), Item("LICENSE", license), Item("lmstudio-picker.config.json", []),
     Item("package.json", []), Item("src/a.mjs", [])]
  }

  lemma SmallestIsListing(license: Bytes)
    ensures AreListings(Smallest(license))
  {
    var names := ["src", "package.json", "bin", "LICENSE", "lmstudio-picker.config.json"];
    assert forall i :: 0 <= i < 5 ==> Smallest(license)[i].name == names[i];
    assert names[0][0] == 's' && names[1][0] == 'p' && names[2][0] == 'b' && names[3][0] == 'L' && names[4][0] == 'l';
  }

  predicate HoldsOne(e: Entry, item: Item) {
    IsSafeEntry(e) && ItemsOf(e) == [item]
  }

  lemma OneMemberIsSafe(directory: string, member: string, path: string)
    requires path == directory + "/" + member
    requires (directory == "bin" && member == "pickermux.mjs") || (directory == "src" && member == "a.mjs")
    ensures HoldsOne(Entry(directory, Closed([Entry(member, Private([]))])), Item(path, []))
  {
    assert Core(member) == member;
    assert "a.mjs"[1..] == ".mjs";
    assert IsMember(directory, member);
  }

  lemma OneFileIsSafe(name: string, contents: Bytes)
    requires IsFileName(name) && |contents| <= FILE_LIMIT
    ensures HoldsOne(Entry(name, Private(contents)), Item(name, contents))
  {
    FileNamesAreFolded();
  }

  lemma InventoryAppend(root: seq<Entry>, items: seq<Item>, e: Entry, item: Item)
    requires AreSafe(root) && Inventory(root) == items && HoldsOne(e, item)
    ensures AreSafe(root + [e]) && Inventory(root + [e]) == items + [item]
  {
    assert (root + [e])[..|root|] == root;
  }

  /** Entries with one file each. */
  lemma {:induction false} OneFileEach(e: seq<Entry>, items: seq<Item>)
    requires |e| == |items| && forall i :: 0 <= i < |e| ==> HoldsOne(e[i], items[i])
    ensures AreSafe(e) && Inventory(e) == items
  {
    if e != [] {
      var n := |e| - 1;
      OneFileEach(e[..n], items[..n]);
      InventoryAppend(e[..n], items[..n], e[n], items[n]);
      assert e == e[..n] + [e[n]] && items == items[..n] + [items[n]];
    }
  }

  function Listed(license: Bytes): seq<Item> {
    [Item("src/a.mjs", []), Item("package.json", []), Item("bin/pickermux.mjs", []), Item("LICENSE", license),
     Item("lmstudio-picker.config.json", [])]
  }

  lemma TwoPaths()
    ensures "src/a.mjs" == "src" + "/" + "a.mjs" && "bin/pickermux.mjs" == "bin" + "/" + "pickermux.mjs"
  {
  }

  lemma DirectoriesHoldOne()
    ensures HoldsOne(Entry("src", Closed([Entry("a.mjs", Private([]))])), Item("src/a.mjs", []))
    ensures HoldsOne(Entry("bin", Closed([Entry("pickermux.mjs", Private([]))])), Item("bin/pickermux.mjs", []))
  {
    TwoPaths();
    OneMemberIsSafe("src", "a.mjs", "src/a.mjs");
    OneMemberIsSafe("bin", "pickermux.mjs", "bin/pickermux.mjs");
  }

  lemma SmallestHolds(license: Bytes, i: nat)
    requires |license| <= FILE_LIMIT && i < 5
    ensures HoldsOne(Smallest(license)[i], Listed(license)[i])
  {
    match i {
      case 0 => DirectoriesHoldOne();
      case 1 => OneFileIsSafe("package.json", []);
      case 2 => DirectoriesHoldOne();
      case 3 => OneFileIsSafe("LICENSE", license);
      case _ => OneFileIsSafe("lmstudio-picker.config.json", []);
    }
  }

  /** The inventory follows the listing. */
  lemma SmallestInventory(license: Bytes)
    requires |license| <= FILE_LIMIT
    ensures AreSafe(Smallest(license)) && Inventory(Smallest(license)) == Listed(license)
  {
    forall i | 0 <= i < 5 ensures HoldsOne(Smallest(license)[i], Listed(license)[i]) {
      SmallestHolds(license, i);
    }
    OneFileEach(Smallest(license), Listed(license));
  }

  lemma LessByInitial(a: Item, b: Item)
    requires a.path != "" && b.path != "" && LowerChar(a.path[0]) < LowerChar(b.path[0])
    ensures Less(a, b)
  {
  }

  lemma LicenseFirst(a: Item, b: Item)
    requires a.path == "LICENSE" && b.path == "lmstudio-picker.config.json"
    ensures Less(a, b)
  {
    assert Lower(a.path)[1..][0] == 'i' && Lower(b.path)[1..][0] == 'm';
  }

  lemma InOrderIsSorted(license: Bytes)
    ensures StrictlySorted(InOrder(license)) && SameItems(InOrder(license), Listed(license))
  {
    var items := InOrder(license);
    var initials := "bllps";
    assert items[0].path[0] == 'b' && items[1].path[0] == 'L' && items[2].path[0] == 'l';
    assert items[3].path[0] == 'p' && items[4].path[0] == 's';
    forall i, j | 0 <= i < j < 5 ensures Less(items[i], items[j]) {
      if i == 1 && j == 2 {
        LicenseFirst(items[1], items[2]);
      } else {
        assert LowerChar(items[i].path[0]) == initials[i] && LowerChar(items[j].path[0]) == initials[j];
        LessByInitial(items[i], items[j]);
      }
    }
  }

  lemma SmallestIsSorted(license: Bytes)
    requires |license| <= FILE_LIMIT
    ensures AreSafe(Smallest(license)) && Sorted(Inventory(Smallest(license))) == InOrder(license)
  {
    SmallestInventory(license);
    InOrderIsSorted(license);
    ListedKeys(license);
    SortedSorts(Listed(license));
    SortedUnique(Sorted(Listed(license)), InOrder(license));
  }

  lemma ListedKeys(license: Bytes)
    ensures DistinctKeys(Listed(license))
  {
    var items := Listed(license);
    forall i, j | 0 <= i < j < 5 ensures Lower(items[i].path) != Lower(items[j].path) {
      assert |items[0].path| == 9 && |items[1].path| == 12 && |items[2].path| == 17;
      assert |items[3].path| == 7 && |items[4].path| == 27;
    }
  }

  lemma SmallestNames(license: Bytes)
    ensures NameSet(Smallest(license)) == {"src", "package.json", "bin", "LICENSE", "lmstudio-picker.config.json"}
  {
    var root := Smallest(license);
    assert forall e :: e in root ==> e == root[0] || e == root[1] || e == root[2] || e == root[3] || e == root[4];
    assert root[0] in root && root[1] in root && root[2] in root && root[3] in root && root[4] in root;
  }

  /** The smallest distribution is accepted. */
  lemma SmallestIsAccepted(license: Bytes)
    requires |license| <= FILE_LIMIT
    ensures Accepted(Smallest(license)) && AreListings(Smallest(license))
  {
    SmallestIsListing(license);
    SmallestIsSorted(license);
    SmallestNames(license);
    SmallestTotal(license);
  }

  lemma SmallestTotal(license: Bytes)
    ensures TotalBytes(InOrder(license)) == |license|
  {
    var items := InOrder(license);
    TotalNext(items[..4], items[4]);
    TotalNext(items[..3], items[3]);
    TotalNext(items[..2], items[2]);
    TotalNext(items[..1], items[1]);
    TotalNext([], items[0]);
    assert items == items[..4] + [items[4]] && items[..4] == items[..3] + [items[3]];
    assert items[..3] == items[..2] + [items[2]] && items[..2] == items[..1] + [items[1]];
    assert items[..1] == [] + [items[0]];
  }
}
