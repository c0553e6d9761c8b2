/**
 The inventory of an installed distribution and the byte stream that its digest hashes: the stream is a
 canonical and uniquely decodable encoding of the paths and contents.
 */
module Distribution {
  import opened Prelude
  import opened Text
  import opened Utf8

  const FILE_LIMIT := 4 * 1024 * 1024
  const TOTAL_LIMIT := 32 * 1024 * 1024
  const MEMBER_LIMIT := 512

  const REQUIRED := {"LICENSE", "bin", "lmstudio-picker.config.json", "package.json", "src"}
  const ALLOWED := REQUIRED + {"release-manifest.json", "runtime"}
  const MLX_FILES := {"kolibri.py", "manage.py", "model_store.py", "server.py"}
  const PROGRAMS := {"pickermux.mjs", "lmstudio-picker.mjs"}

  /**
   `isPrivate`: a regular file of the user, with one link and no access for others, unchanged while it
   is read. `isOwned`: a directory of the user that others cannot write. `isClosed`: no access for others.
   */
  datatype Node =
    | File(contents: Bytes, isPrivate: bool)
    | Directory(entries: seq<Entry>, isOwned: bool, isClosed: bool)
    | Special

  datatype Entry = Entry(name: string, node: Node)

  datatype Item = Item(path: string, contents: Bytes)

  datatype Fault = MissingLauncher | UnsafeLauncher

  datatype Outcome<+T> = Ok(value: T) | Failed(fault: Fault)

  function NameSet(entries: seq<Entry>): set<string> {
    set e | e in entries :: e.name
  }

  /** A directory lists each name once, in any order. */
  predicate DistinctNames(entries: seq<Entry>) {
    forall i, j :: 0 <= i < j < |entries| ==> entries[i].name != entries[j].name
  }

  predicate IsListing(n: Node)
    decreases n, 1
  {
    n.Directory? ==> AreListings(n.entries)
  }

  predicate AreListings(entries: seq<Entry>)
    decreases entries, 0
  {
    DistinctNames(entries) && forall e :: e in entries ==> IsListing(e.node)
  }

  // ---------------------------------------------------------------------------------------------
  // Names.
  // ---------------------------------------------------------------------------------------------

  predicate IsTerminator(c: char) {
    var p := c as int;
    0x0A <= p <= 0x0D || p == 0x85 || p == 0x2028 || p == 0x2029
  }

  /** The `$` of the path expression also matches before one final line terminator. */
  function Core(s: string): string {
    if |s| >= 2 && s[|s| - 2] == '\r' && s[|s| - 1] == '\n' then s[..|s| - 2]
    else if |s| >= 1 && IsTerminator(s[|s| - 1]) then s[..|s| - 1]
    else s
  }

  /** A final line terminator; carriage return and line feed together are one. */
  predicate IsLineEnd(s: string) {
    s == "\r\n" || (|s| == 1 && IsTerminator(s[0]))
  }

  predicate IsTerminated(s: string) {
    s != [] && IsTerminator(s[|s| - 1])
  }

  lemma CoreOfTerminated(s: string, end: string)
    requires !IsTerminated(s) && IsLineEnd(end)
    ensures Core(s + end) == s && IsTerminated(s + end)
  {
    assert (s + end)[..|s|] == s;
  }

  predicate StemChar(c: char) {
    'a' <= c <= 'z' || '0' <= c <= '9' || c == '-'
  }

  predicate IsModuleName(s: string) {
    |s| > 4 && s[|s| - 4..] == ".mjs" && forall i :: 0 <= i < |s| - 4 ==> StemChar(s[i])
  }

  predicate IsMember(directory: string, member: string) {
    || (directory == "src" && IsModuleName(Core(member)))
    || (directory == "bin" && Core(member) in PROGRAMS)
  }

  // ---------------------------------------------------------------------------------------------
  // What is accepted.
  // ---------------------------------------------------------------------------------------------

  predicate IsSafeFile(n: Node) {
    n.File? && n.isPrivate && |n.contents| <= FILE_LIMIT
  }

  predicate IsClosedDirectory(n: Node) {
    n.Directory? && n.isOwned && n.isClosed
  }

  predicate AreSafeMembers(directory: string, entries: seq<Entry>) {
    forall e :: e in entries ==> IsMember(directory, e.name) && IsSafeFile(e.node)
  }

  predicate AreSafeFiles(entries: seq<Entry>) {
    forall e :: e in entries ==> IsSafeFile(e.node)
  }

  /** `runtime` holds `mlx` only, and `mlx` holds its four files only. */
  predicate IsSafeRuntime(n: Node) {
    && IsClosedDirectory(n) && |n.entries| == 1 && n.entries[0].name == "mlx"
    && IsClosedDirectory(n.entries[0].node)
    && NameSet(n.entries[0].node.entries) == MLX_FILES && AreSafeFiles(n.entries[0].node.entries)
  }

  predicate IsSafeEntry(e: Entry) {
    if e.name == "bin" || e.name == "src" then
      && IsClosedDirectory(e.node) && 1 <= |e.node.entries| <= MEMBER_LIMIT
      && AreSafeMembers(e.name, e.node.entries)
    else if e.name == "runtime" then IsSafeRuntime(e.node)
    else IsSafeFile(e.node)
  }

  function FileItems(prefix: string, entries: seq<Entry>): (items: seq<Item>)
    requires AreSafeFiles(entries)
    ensures |items| == |entries|
  {
    seq(|entries|, i requires 0 <= i < |entries| => Item(prefix + entries[i].name, entries[i].node.contents))
  }

  function ItemsOf(e: Entry): seq<Item>
    requires IsSafeEntry(e)
  {
    if e.name == "bin" || e.name == "src" then FileItems(e.name + "/", e.node.entries)
    else if e.name == "runtime" then FileItems("runtime/mlx/", e.node.entries[0].node.entries)
    else [Item(e.name, e.node.contents)]
  }

  predicate AreSafe(root: seq<Entry>) {
    forall i :: 0 <= i < |root| ==> IsSafeEntry(root[i])
  }

  /** Every file, in the order in which the directories list them. */
  function Inventory(root: seq<Entry>): seq<Item>
    requires AreSafe(root)
  {
    if root == [] then [] else Inventory(root[..|root| - 1]) + ItemsOf(root[|root| - 1])
  }

  function TotalBytes(items: seq<Item>): nat {
    if items == [] then 0 else TotalBytes(items[..|items| - 1]) + |items[|items| - 1].contents|
  }

  predicate Accepted(root: seq<Entry>) {
    && REQUIRED <= NameSet(root) <= ALLOWED && AreSafe(root)
    && TotalBytes(Sorted(Inventory(root))) <= TOTAL_LIMIT
  }

  // ---------------------------------------------------------------------------------------------
  // Order.
  // ---------------------------------------------------------------------------------------------

  function LowerChar(c: char): char {
    if 'A' <= c <= 'Z' then (c as int + 32) as char else c
  }

  function Lower(s: string): (r: string)
    ensures |r| == |s|
  {
    seq(|s|, i requires 0 <= i < |s| => LowerChar(s[i]))
  }

  predicate TextLess(s: string, t: string) {
    if s == [] || t == [] then s == [] && t != []
    else if s[0] != t[0] then s[0] < t[0]
    else TextLess(s[1..], t[1..])
  }

  predicate Less(a: Item, b: Item) {
    TextLess(Lower(a.path), Lower(b.path))
  }

  function Insert(x: Item, s: seq<Item>): seq<Item> {
    if s == [] || !Less(s[0], x) then [x] + s else [s[0]] + Insert(x, s[1..])
  }

  function Sorted(items: seq<Item>): seq<Item> {
    if items == [] then [] else Insert(items[0], Sorted(items[1..]))
  }

  // ---------------------------------------------------------------------------------------------
  // The hashed stream.
  // ---------------------------------------------------------------------------------------------

  /** A decimal length and a colon. */
  function Header(n: nat): Bytes {
    Encode(Numeral(n) + ":")
  }

  function Frame(item: Item): Bytes {
    Header(|Encode(item.path)|) + (Encode(item.path) + (Header(|item.contents|) + item.contents))
  }

  function Stream(items: seq<Item>): Bytes {
    if items == [] then [] else Stream(items[..|items| - 1]) + Frame(items[|items| - 1])
  }

  // ---------------------------------------------------------------------------------------------
  // The loops.
  // ---------------------------------------------------------------------------------------------

  method ReadFile(n: Node) returns (r: Outcome<Bytes>)
    ensures r.Ok? <==> IsSafeFile(n)
    ensures r.Ok? ==> r.value == n.contents
    ensures r.Failed? ==> r.fault == UnsafeLauncher
  {
    if !n.File? || !n.isPrivate || |n.contents| > FILE_LIMIT {
      return Failed(UnsafeLauncher);
    }
    return Ok(n.contents);
  }

  method CollectMembers(name: string, n: Node) returns (r: Outcome<seq<Item>>)
    requires name == "bin" || name == "src"
    ensures r.Ok? <==> IsSafeEntry(Entry(name, n))
    ensures r.Ok? ==> r.value == ItemsOf(Entry(name, n))
    ensures r.Failed? ==> r.fault == UnsafeLauncher
  {
    if !IsClosedDirectory(n) || n.entries == [] || |n.entries| > MEMBER_LIMIT {
      return Failed(UnsafeLauncher);
    }
    var files: seq<Item> := [];
    for k := 0 to |n.entries|
      invariant forall i :: 0 <= i < k ==> IsMember(name, n.entries[i].name) && IsSafeFile(n.entries[i].node)
      invariant |files| == k
      invariant forall i :: 0 <= i < k ==> files[i] == Item(name + "/" + n.entries[i].name, n.entries[i].node.contents)
    {
      if !IsMember(name, n.entries[k].name) {
        return Failed(UnsafeLauncher);
      }
      var contents := ReadFile(n.entries[k].node);
      if contents.Failed? {
        return Failed(contents.fault);
      }
      files := files + [Item(name + "/" + n.entries[k].name, contents.value)];
    }
    return Ok(files);
  }

  method CollectFiles(entries: seq<Entry>) returns (r: Outcome<seq<Item>>)
    ensures r.Ok? <==> AreSafeFiles(entries)
    ensures r.Ok? ==> r.value == FileItems("runtime/mlx/", entries)
    ensures r.Failed? ==> r.fault == UnsafeLauncher
  {
    var files: seq<Item> := [];
    for k := 0 to |entries|
      invariant forall i :: 0 <= i < k ==> IsSafeFile(entries[i].node)
      invariant |files| == k
      invariant forall i :: 0 <= i < k ==> files[i] == Item("runtime/mlx/" + entries[i].name, entries[i].node.contents)
    {
      var contents := ReadFile(entries[k].node);
      if contents.Failed? {
        return Failed(contents.fault);
      }
      files := files + [Item("runtime/mlx/" + entries[k].name, contents.value)];
    }
    return Ok(files);
  }

  /** The position of a name in a listing. */
  function Position(entries: seq<Entry>, name: string): (i: nat)
    ensures i <= |entries|
    ensures i < |entries| ==> entries[i].name == name
    ensures i == |entries| <==> name !in NameSet(entries)
  {
    if entries == [] then 0
    else if entries[0].name == name then 0
    else
      assert NameSet(entries) == {entries[0].name} + NameSet(entries[1..]) by {
        NamesSplit(entries);
      }
      1 + Position(entries[1..], name)
  }

  lemma NamesSplit(entries: seq<Entry>)
    requires entries != []
    ensures NameSet(entries) == {entries[0].name} + NameSet(entries[1..])
  {
    assert forall e :: e in entries <==> e == entries[0] || e in entries[1..];
  }

  lemma OnlyName(entries: seq<Entry>, name: string)
    requires DistinctNames(entries)
    ensures NameSet(entries) == {name} <==> |entries| == 1 && entries[0].name == name
  {
    if NameSet(entries) == {name} {
      assert name in NameSet(entries);
      var last := |entries| - 1;
      assert entries[0].name in NameSet(entries) && entries[last].name in NameSet(entries);
    } else if |entries| == 1 {
      assert entries == [entries[0]];
    }
  }

  method CollectRuntime(n: Node) returns (r: Outcome<seq<Item>>)
    requires IsListing(n)
    ensures r.Ok? <==> IsSafeRuntime(n)
    ensures r.Ok? ==> r.value == FileItems("runtime/mlx/", n.entries[0].node.entries)
    ensures r == Failed(MissingLauncher) <==> n.Directory? && n.isOwned && "mlx" !in NameSet(n.entries)
  {
    if !n.Directory? || !n.isOwned {
      return Failed(UnsafeLauncher);
    }
    OnlyName(n.entries, "mlx");
    var i := Position(n.entries, "mlx");
    if i == |n.entries| {
      return Failed(MissingLauncher);
    }
    var mlx := n.entries[i].node;
    if !mlx.Directory? || !mlx.isOwned || !n.isClosed || !mlx.isClosed {
      return Failed(UnsafeLauncher);
    }
    if NameSet(n.entries) != {"mlx"} || NameSet(mlx.entries) != MLX_FILES {
      return Failed(UnsafeLauncher);
    }
    r := CollectFiles(mlx.entries);
  }

  method CollectEntry(e: Entry) returns (r: Outcome<seq<Item>>)
    requires IsListing(e.node)
    ensures r.Ok? <==> IsSafeEntry(e)
    ensures r.Ok? ==> r.value == ItemsOf(e)
    ensures r == Failed(MissingLauncher) ==>
              e.name == "runtime" && e.node.Directory? && "mlx" !in NameSet(e.node.entries)
  {
    if e.name == "bin" || e.name == "src" {
      r := CollectMembers(e.name, e.node);
    } else if e.name == "runtime" {
      r := CollectRuntime(e.node);
    } else {
      var contents := ReadFile(e.node);
      match contents {
        case Ok(bytes) => return Ok([Item(e.name, bytes)]);
        case Failed(fault) => return Failed(fault);
      }
    }
  }

  /** `distributionDigest` up to the hash function: the bytes that are fed to it. */
  method HashedStream(root: seq<Entry>) returns (r: Outcome<Bytes>)
    requires AreListings(root)
    ensures r.Ok? <==> Accepted(root)
    ensures r.Ok? ==> r.value == Stream(Sorted(Inventory(root)))
    ensures r == Failed(MissingLauncher) ==> LacksMlx(root)
  {
    if !(REQUIRED <= NameSet(root)) || !(NameSet(root) <= ALLOWED) {
      return Failed(UnsafeLauncher);
    }
    var files := CollectRoot(root);
    match files {
      case Ok(items) => r := FeedAll(Sorted(items));
      case Failed(fault) => return Failed(fault);
    }
  }

  predicate LacksMlx(root: seq<Entry>) {
    exists e :: e in root && e.name == "runtime" && e.node.Directory? && "mlx" !in NameSet(e.node.entries)
  }

  lemma InventoryNext(root: seq<Entry>, k: nat)
    requires k < |root| && AreSafe(root[..k]) && IsSafeEntry(root[k])
    ensures AreSafe(root[..k + 1])
    ensures Inventory(root[..k + 1]) == Inventory(root[..k]) + ItemsOf(root[k])
  {
    assert root[..k + 1][..k] == root[..k];
  }

  /** The first loop, over the listing of the root. */
  method CollectRoot(root: seq<Entry>) returns (r: Outcome<seq<Item>>)
    requires AreListings(root)
    ensures r.Ok? <==> AreSafe(root)
    ensures r.Ok? ==> r.value == Inventory(root)
    ensures r == Failed(MissingLauncher) ==> LacksMlx(root)
  {
    var files: seq<Item> := [];
    for k := 0 to |root|
      invariant AreSafe(root[..k]) && files == Inventory(root[..k])
    {
      assert root[k] in root;
      var items := CollectEntry(root[k]);
      if items.Failed? {
        return Failed(items.fault);
      }
      InventoryNext(root, k);
      files := files + items.value;
    }
    assert root[..|root|] == root;
    return Ok(files);
  }

  /** The second loop: the running total and the running hash. */
  method FeedAll(items: seq<Item>) returns (r: Outcome<Bytes>)
    ensures r.Ok? <==> TotalBytes(items) <= TOTAL_LIMIT
    ensures r.Ok? ==> r.value == Stream(items)
    ensures r.Failed? ==> r.fault == UnsafeLauncher
  {
    var total := 0;
    var hashed: Bytes := [];
    for k := 0 to |items|
      invariant total == TotalBytes(items[..k]) <= TOTAL_LIMIT
      invariant hashed == Stream(items[..k])
    {
      assert items[..k + 1][..k] == items[..k];
      total := total + |items[k].contents|;
      if total > TOTAL_LIMIT {
        TotalGrows(items, k + 1);
        return Failed(UnsafeLauncher);
      }
      hashed := hashed + Frame(items[k]);
    }
    assert items[..|items|] == items;
    return Ok(hashed);
  }

  lemma {:induction false} TotalGrows(items: seq<Item>, k: nat)
    requires k <= |items|
    ensures TotalBytes(items[..k]) <= TotalBytes(items)
    decreases |items|
  {
    if k == |items| {
      assert items[..k] == items;
    } else {
      TotalGrows(items[..|items| - 1], k);
      assert items[..|items| - 1][..k] == items[..k];
    }
  }
}
