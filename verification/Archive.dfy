/** Backup archives: create, validate and stage (appliance/lib/backup_archive.py).  A tree is a map
    from paths, as component lists whose first component is the logical root, to nodes.  Digests
    are taken to be collision-free, so a manifest digest is written as the bytes it stands for. */
module Archive {
  import opened Utilities
  import L = LinkGraph

  type Path = L.Path
  datatype Bytes = Bytes(text: string)
  datatype Attr = Attr(mode: nat, mtime: int, uid: nat, gid: nat)
  datatype Kind = Directory | File(bytes: Bytes) | Symlink(text: string) | Special
  datatype Node = Node(kind: Kind, attr: Attr)
  type Tree = map<Path, Node>

  // One entry of the tar stream or of the manifest.
  datatype Entry = Entry(path: Path, node: Node)
  datatype Archive = Archive(members: seq<Entry>, manifest: seq<Entry>, roots: set<string>)

  const ROOTS := {"foundry", "elderbrain", "mindflayer", "traefik", "firmware", "service-config",
                  "ssh-root", "ssh-admin", "ssh-server", "admin-ca", "browser", "keypad-installations"}
  const BROWSER_RUNTIME := {"SingletonCookie", "SingletonLock", "SingletonSocket"}
  const SYSTEM_LINK: Path := ["ssh-server", "ssh_config.d", "20-systemd-ssh-proxy.conf"]
  const SYSTEM_TARGET := "/usr/lib/systemd/ssh_config.d/20-systemd-ssh-proxy.conf"
  const MAX_MODE: nat := 0xFFF       // octal 7777
  const SYMLINK_MODE: nat := 0x1FF   // octal 777, always

  /* -------------------------------------------------------- names and links */

  predicate SafeName(p: Path) {
    p != [] && p[0] in ROOTS && forall i | 0 <= i < |p| :: p[i] !in {"", ".", ".."} && '/' !in p[i] && '\0' !in p[i]
  }

  // PurePosixPath(text).parts of a relative text: empty and "." components vanish.
  function Parts(text: string, pending: string): seq<L.Part> {
    if text == [] then PartOf(pending)
    else if text[0] == '/' then PartOf(pending) + Parts(text[1..], "")
    else Parts(text[1..], pending + [text[0]])
  }

  function PartOf(component: string): seq<L.Part> {
    if component == "" || component == "." then [] else if component == ".." then [L.Up] else [L.Name(component)]
  }

  predicate IsSystemLink(p: Path, text: string) { p == SYSTEM_LINK && text == SYSTEM_TARGET }

  function TargetOf(p: Path, text: string): L.Target {
    if IsSystemLink(p, text) then L.SystemFile else L.Relative(Parts(text, ""))
  }

  predicate SafeTarget(p: Path, text: string) {
    || IsSystemLink(p, text)
    || (text != "" && text[0] != '/' && '\0' !in text && p != [] && L.Lexical(|p| - 1, Parts(text, "")))
  }

  predicate SetId(mode: nat) { mode / 1024 % 4 != 0 }

  function LinksIn(t: Tree): L.Links {
    map p | p in t && t[p].kind.Symlink? :: TargetOf(p, t[p].kind.text)
  }

  predicate NodeOk(p: Path, n: Node) {
    && SafeName(p) && n.attr.mode <= MAX_MODE && !SetId(n.attr.mode) && !n.kind.Special?
    && (n.kind.Symlink? ==> SafeTarget(p, n.kind.text))
  }

  predicate ParentOk(t: Tree, p: Path) {
    if |p| <= 1 then p in t && t[p].kind.Directory? else L.Parent(p) in t && t[L.Parent(p)].kind.Directory?
  }

  predicate EntryOk(t: Tree, p: Path)
    requires p in t
  {
    NodeOk(p, t[p]) && ParentOk(t, p)
  }

  predicate LinkOk(t: Tree, p: Path)
    requires p in LinksIn(t)
  {
    L.Accepted(LinksIn(t), p)
  }

  // What validation asks of the tree an archive holds.
  ghost predicate TreeOk(t: Tree) {
    && t != map[]
    && (forall p {:trigger EntryOk(t, p)} | p in t :: EntryOk(t, p))
    && (forall p {:trigger LinkOk(t, p)} | p in LinksIn(t) :: LinkOk(t, p))
  }

  /* ---------------------------------------------------------- as sequences */

  predicate Distinct(es: seq<Entry>) { forall i, j | 0 <= i < j < |es| :: es[i].path != es[j].path }

  function TreeOf(es: seq<Entry>): Tree {
    if es == [] then map[] else TreeOf(es[..|es| - 1])[es[|es| - 1].path := es[|es| - 1].node]
  }

  predicate Lists(es: seq<Entry>, p: Path) { exists i | 0 <= i < |es| :: es[i].path == p }

  lemma {:induction false} TreeOfAt(es: seq<Entry>)
    requires Distinct(es)
    ensures forall i | 0 <= i < |es| :: es[i].path in TreeOf(es) && TreeOf(es)[es[i].path] == es[i].node
    ensures forall p :: p in TreeOf(es) <==> Lists(es, p)
  {
    if es != [] {
      var init, last := es[..|es| - 1], es[|es| - 1];
      TreeOfAt(init);
      forall p ensures p in TreeOf(es) <==> Lists(es, p) {
        if Lists(init, p) {
          var i :| 0 <= i < |init| && init[i].path == p;
          assert es[i].path == p;
        }
        if Lists(es, p) && p != last.path {
          var i :| 0 <= i < |es| && es[i].path == p;
          assert init[i].path == p;
        }
        assert es[|es| - 1].path == last.path;
      }
      forall i | 0 <= i < |es| ensures es[i].path in TreeOf(es) && TreeOf(es)[es[i].path] == es[i].node {
        assert i < |es| - 1 ==> init[i] == es[i];
      }
    }
  }

  function RootsOf(t: Tree): set<string> { set p | p in t && p != [] :: p[0] }

  ghost predicate ValidArchive(a: Archive) {
    && Distinct(a.members) && a.manifest == a.members
    && TreeOk(TreeOf(a.members)) && a.roots == RootsOf(TreeOf(a.members))
  }

  method Validate(a: Archive) returns (ok: bool)
    ensures ok <==> ValidArchive(a)
  {
    var seen;
    ok, seen := ScanMembers(a);
    if !ok { return; }
    assert forall p | p in seen :: p[0] in RootsOf(seen);
    if a.manifest != a.members || a.roots == {} || a.roots != RootsOf(seen) { return false; }
    if exists p | p in seen :: !ParentOk(seen, p) {
      assert exists p | p in seen :: !EntryOk(seen, p);
      return false;
    }
    ok := L.ValidateLinkGraph(LinksIn(seen));
    TreeAccepted(seen, ok);
  }

  lemma TreeAccepted(t: Tree, linksOk: bool)
    requires t != map[] && forall p | p in t :: NodeOk(p, t[p]) && ParentOk(t, p)
    requires linksOk <==> forall p | p in LinksIn(t) :: L.Accepted(LinksIn(t), p)
    ensures linksOk <==> TreeOk(t)
  {
    if !linksOk {
      var p :| p in LinksIn(t) && !L.Accepted(LinksIn(t), p);
      assert !LinkOk(t, p);
    }
    assert forall p | p in t :: EntryOk(t, p);
    assert linksOk ==> forall p | p in LinksIn(t) :: LinkOk(t, p);
  }

  // The stream pass: every member is acceptable and no path comes twice.
  method ScanMembers(a: Archive) returns (ok: bool, seen: Tree)
    ensures ok ==> Distinct(a.members) && seen == TreeOf(a.members) && forall p | p in seen :: NodeOk(p, seen[p])
    ensures !ok ==> !ValidArchive(a)
  {
    seen := map[];
    var i := 0;
    while i < |a.members|
      invariant i <= |a.members| && Distinct(a.members[..i]) && seen == TreeOf(a.members[..i])
      invariant forall p | p in seen :: NodeOk(p, seen[p])
    {
      var e := a.members[i];
      if !NodeOk(e.path, e.node) {
        BadMember(a, i);
        return false, map[];
      }
      ScanNext(a.members, i);
      if e.path in seen { return false, map[]; }
      seen := seen[e.path := e.node];
      i := i + 1;
    }
    assert a.members[..i] == a.members;
    ok := true;
  }

  lemma ScanNext(es: seq<Entry>, i: nat)
    requires i < |es| && Distinct(es[..i])
    ensures es[i].path in TreeOf(es[..i]) ==> !Distinct(es)
    ensures es[i].path !in TreeOf(es[..i]) ==> Distinct(es[..i + 1])
    ensures TreeOf(es[..i + 1]) == TreeOf(es[..i])[es[i].path := es[i].node]
  {
    TreeOfAt(es[..i]);
    assert es[..i + 1][..i] == es[..i];
    if es[i].path in TreeOf(es[..i]) {
      assert Lists(es[..i], es[i].path);
      var j :| 0 <= j < i && es[..i][j].path == es[i].path;
      assert es[j].path == es[i].path;
    } else {
      var next := es[..i + 1];
      forall j | 0 <= j < i ensures next[j].path != es[i].path {
        assert es[..i][j] == next[j];
      }
    }
  }

  lemma BadMember(a: Archive, i: nat)
    requires i < |a.members| && !NodeOk(a.members[i].path, a.members[i].node)
    ensures !ValidArchive(a)
  {
    if Distinct(a.members) {
      TreeOfAt(a.members);
      assert !EntryOk(TreeOf(a.members), a.members[i].path);
    }
  }

  /* ---------------------------------------------------------------- staging */

  // Exclusive creation needs a free name below real directories; no component may be a link.
  predicate RealParents(out: Tree, p: Path) { forall k | 1 <= k < |p| :: p[..k] in out && out[p[..k]].kind.Directory? }

  function Put(out: Tree, p: Path, n: Node): Tree
    requires p !in out && RealParents(out, p)
  {
    out[p := n]
  }

  lemma {:induction false} AncestorsAreDirectories(t: Tree, p: Path, k: nat)
    requires TreeOk(t) && p in t && 1 <= k < |p|
    ensures p[..k] in t && t[p[..k]].kind.Directory?
    decreases |p|
  {
    assert EntryOk(t, p);
    var parent := L.Parent(p);
    if k < |parent| {
      AncestorsAreDirectories(t, parent, k);
      assert parent[..k] == p[..k];
    } else {
      assert parent == p[..k];
    }
  }

  function InsertByDepth(e: Entry, es: seq<Entry>): (r: seq<Entry>)
    ensures multiset(r) == multiset(es) + multiset{e}
  {
    if es == [] then [e]
    else if |e.path| <= |es[0].path| then [e] + es
    else
      assert es == [es[0]] + es[1..];
      [es[0]] + InsertByDepth(e, es[1..])
  }

  function ByDepth(es: seq<Entry>): (r: seq<Entry>)
    ensures multiset(r) == multiset(es)
  {
    if es == [] then []
    else
      assert es == [es[0]] + es[1..];
      InsertByDepth(es[0], ByDepth(es[1..]))
  }

  predicate Deepening(es: seq<Entry>) { forall i, j | 0 <= i < j < |es| :: |es[i].path| <= |es[j].path| }

  lemma {:induction false} InsertKeepsDeepening(e: Entry, es: seq<Entry>)
    requires Deepening(es)
    ensures Deepening(InsertByDepth(e, es))
  {
    if es != [] && |e.path| > |es[0].path| {
      InsertKeepsDeepening(e, es[1..]);
      var rest := InsertByDepth(e, es[1..]);
      forall x | x in rest ensures |es[0].path| <= |x.path| {
        assert x in multiset(rest);
        assert x in multiset(es[1..]) || x == e;
      }
    }
  }

  lemma {:induction false} ByDepthDeepens(es: seq<Entry>)
    ensures Deepening(ByDepth(es))
  {
    if es != [] {
      ByDepthDeepens(es[1..]);
      InsertKeepsDeepening(es[0], ByDepth(es[1..]));
    }
  }

  // A reordering lists the same entries, still each path once.
  lemma SameEntries(es: seq<Entry>, order: seq<Entry>)
    requires multiset(es) == multiset(order) && Distinct(es)
    ensures forall e :: e in es <==> e in order
    ensures Distinct(order)
  {
    assert Utilities.Distinct(es);
    Reordered(es, order);
    forall i, j | 0 <= i < j < |order| ensures order[i].path != order[j].path {
      assert order[i] in es && order[j] in es && order[i] != order[j];
    }
  }

  datatype Pass = Directories | Files | Links

  predicate Picks(pass: Pass, k: Kind) {
    match pass
    case Directories => k.Directory?
    case Files => k.File?
    case Links => k.Symlink?
  }

  // A node as created: its owner, times and mode are set at the very end.
  function Bare(k: Kind): Node {
    Node(k, Attr(if k.Directory? then 0x1C0 else if k.File? then 0x180 else SYMLINK_MODE, 0, 0, 0))
  }

  // Symbolic links have no mode of their own.
  function Finished(n: Node): Node { if n.kind.Symlink? then n.(attr := n.attr.(mode := SYMLINK_MODE)) else n }

  function StagedTree(t: Tree): Tree { map p | p in t :: Finished(t[p]) }

  ghost predicate ListsPath(t: Tree, order: seq<Entry>, p: Path) { p in t <==> Lists(order, p) }

  ghost predicate ListsNode(t: Tree, order: seq<Entry>, i: nat)
    requires i < |order|
  {
    order[i].path in t && order[i].node == t[order[i].path]
  }

  // `order` lists the tree, each path once.
  ghost predicate Orders(t: Tree, order: seq<Entry>) {
    && Distinct(order)
    && (forall p: Path {:trigger ListsPath(t, order, p)} :: ListsPath(t, order, p))
    && forall i: nat {:trigger ListsNode(t, order, i)} | i < |order| :: ListsNode(t, order, i)
  }

  // Whether the passes before this one, or the first n steps of this one, made path p.
  ghost predicate Made(t: Tree, pass: Pass, order: seq<Entry>, n: nat, p: Path)
    requires n <= |order|
  {
    p in t && (
      || (pass != Directories && t[p].kind.Directory?)
      || (pass == Links && t[p].kind.File?)
      || (Picks(pass, t[p].kind) && Lists(order[..n], p)))
  }

  ghost predicate PathOnDisk(t: Tree, out: Tree, pass: Pass, order: seq<Entry>, n: nat, p: Path)
    requires n <= |order|
  {
    (p in out <==> Made(t, pass, order, n, p)) && (p in out ==> out[p] == Bare(t[p].kind))
  }

  ghost predicate OnDisk(t: Tree, out: Tree, pass: Pass, order: seq<Entry>, n: nat)
    requires n <= |order|
  {
    forall p: Path {:trigger PathOnDisk(t, out, pass, order, n, p)} :: PathOnDisk(t, out, pass, order, n, p)
  }

  lemma NotListedYet(order: seq<Entry>, n: nat)
    requires Distinct(order) && n < |order|
    ensures !Lists(order[..n], order[n].path)
  {
    forall i | 0 <= i < n ensures order[..n][i].path != order[n].path {
    }
  }

  // Every parent is there in time: directories are made by depth, before anything else.
  lemma ParentsExist(t: Tree, out: Tree, pass: Pass, order: seq<Entry>, n: nat)
    requires TreeOk(t) && Orders(t, order) && n < |order| && OnDisk(t, out, pass, order, n)
    requires pass == Directories ==> Deepening(order)
    requires Picks(pass, order[n].node.kind)
    ensures order[n].path !in out && RealParents(out, order[n].path)
  {
    var p := order[n].path;
    NotListedYet(order, n);
    assert ListsNode(t, order, n) && PathOnDisk(t, out, pass, order, n, p);
    forall k | 1 <= k < |p| ensures p[..k] in out && out[p[..k]].kind.Directory? {
      AncestorThere(t, out, pass, order, n, k);
    }
  }

  lemma AncestorThere(t: Tree, out: Tree, pass: Pass, order: seq<Entry>, n: nat, k: nat)
    requires TreeOk(t) && Orders(t, order) && n < |order| && OnDisk(t, out, pass, order, n)
    requires pass == Directories ==> Deepening(order)
    requires 1 <= k < |order[n].path|
    ensures order[n].path[..k] in out && out[order[n].path[..k]].kind.Directory?
  {
    var q := order[n].path[..k];
    assert ListsNode(t, order, n);
    AncestorsAreDirectories(t, order[n].path, k);
    if pass == Directories { ListedBefore(t, order, n, q); }
    assert PathOnDisk(t, out, pass, order, n, q);
  }

  lemma ListedBefore(t: Tree, order: seq<Entry>, n: nat, q: Path)
    requires Orders(t, order) && Deepening(order) && n < |order| && q in t && |q| < |order[n].path|
    ensures Lists(order[..n], q)
  {
    assert ListsPath(t, order, q);
    var j :| 0 <= j < |order| && order[j].path == q;
    assert j < n;
    assert order[..n][j].path == q;
  }

  method MakeAll(ghost t: Tree, order: seq<Entry>, was: Tree, pass: Pass) returns (out: Tree)
    requires TreeOk(t) && Orders(t, order) && OnDisk(t, was, pass, order, 0)
    requires pass == Directories ==> Deepening(order)
    ensures OnDisk(t, out, pass, order, |order|)
  {
    out := was;
    var i := 0;
    while i < |order|
      invariant i <= |order| && OnDisk(t, out, pass, order, i)
    {
      out := MakeOne(t, order, out, pass, i);
      i := i + 1;
    }
  }

  method MakeOne(ghost t: Tree, order: seq<Entry>, was: Tree, pass: Pass, i: nat) returns (out: Tree)
    requires TreeOk(t) && Orders(t, order) && i < |order| && OnDisk(t, was, pass, order, i)
    requires pass == Directories ==> Deepening(order)
    ensures OnDisk(t, out, pass, order, i + 1)
  {
    out := was;
    MakeStep(t, out, pass, order, i);
    if Picks(pass, order[i].node.kind) {
      ParentsExist(t, out, pass, order, i);
      out := Put(out, order[i].path, Bare(order[i].node.kind));
    }
  }

  lemma MakeStep(t: Tree, out: Tree, pass: Pass, order: seq<Entry>, i: nat)
    requires Orders(t, order) && i < |order| && OnDisk(t, out, pass, order, i)
    ensures OnDisk(t, if Picks(pass, order[i].node.kind) then out[order[i].path := Bare(order[i].node.kind)] else out,
                   pass, order, i + 1)
  {
    var e := order[i];
    var out' := if Picks(pass, e.node.kind) then out[e.path := Bare(e.node.kind)] else out;
    var next := i + 1;
    assert ListsNode(t, order, i);
    ListsNext(order, i);
    forall p: Path ensures PathOnDisk(t, out', pass, order, next, p) {
      assert PathOnDisk(t, out, pass, order, i, p);
    }
  }

  lemma ListsNext(order: seq<Entry>, i: nat)
    requires i < |order|
    ensures forall p :: Lists(order[..i + 1], p) <==> Lists(order[..i], p) || p == order[i].path
  {
    forall p ensures Lists(order[..i + 1], p) <==> Lists(order[..i], p) || p == order[i].path {
      if Lists(order[..i], p) {
        var j :| 0 <= j < i && order[..i][j].path == p;
        assert order[..i + 1][j].path == p;
      }
      if Lists(order[..i + 1], p) && p != order[i].path {
        var j :| 0 <= j < i + 1 && order[..i + 1][j].path == p;
        assert order[..i][j].path == p;
      }
      assert order[..i + 1][i].path == order[i].path;
    }
  }

  ghost predicate PathFinished(t: Tree, out: Tree, order: seq<Entry>, i: nat, p: Path)
    requires i <= |order|
  {
    p in t ==> p in out && out[p] == if Lists(order[..i], p) then Bare(t[p].kind) else Finished(t[p])
  }

  ghost predicate FinishedFrom(t: Tree, out: Tree, order: seq<Entry>, i: nat)
    requires i <= |order|
  {
    out.Keys == t.Keys && forall p: Path {:trigger PathFinished(t, out, order, i, p)} :: PathFinished(t, out, order, i, p)
  }

  // Modes, owners and times, deepest entries first.
  method FinishAll(ghost t: Tree, order: seq<Entry>, was: Tree) returns (out: Tree)
    requires Orders(t, order) && FinishedFrom(t, was, order, |order|)
    ensures out == StagedTree(t)
  {
    out := was;
    var i := |order|;
    while i > 0
      invariant 0 <= i <= |order| && FinishedFrom(t, out, order, i)
    {
      i := i - 1;
      FinishStep(t, out, order, i);
      var e := order[i];
      var attr := if e.node.kind.Symlink? then e.node.attr.(mode := SYMLINK_MODE) else e.node.attr;
      out := out[e.path := out[e.path].(attr := attr)];
    }
    forall p | p in t ensures out[p] == Finished(t[p]) {
      assert PathFinished(t, out, order, 0, p);
    }
  }

  lemma FinishStep(t: Tree, out: Tree, order: seq<Entry>, i: nat)
    requires Orders(t, order) && i < |order| && FinishedFrom(t, out, order, i + 1)
    ensures order[i].path in out && out[order[i].path] == Bare(order[i].node.kind)
    ensures FinishedFrom(t, out[order[i].path := Finished(order[i].node)], order, i)
  {
    var e := order[i];
    ListsNext(order, i);
    NotListedYet(order, i);
    assert ListsNode(t, order, i);
    assert PathFinished(t, out, order, i + 1, e.path);
    var out' := out[e.path := Finished(e.node)];
    forall p: Path ensures PathFinished(t, out', order, i, p) {
      assert PathFinished(t, out, order, i + 1, p);
    }
  }

  // stage(): nothing is extracted unless the whole archive is valid; then the staging directory
  // holds exactly its tree.  No creation can fail and none passes through a link.
  method Stage(a: Archive) returns (staged: Option<Tree>)
    ensures staged.Some? <==> ValidArchive(a)
    ensures staged.Some? ==> staged.value == StagedTree(TreeOf(a.members))
  {
    var ok := Validate(a);
    if !ok { return None; }
    ghost var t := TreeOf(a.members);
    var deepening := ByDepth(a.members);
    ByDepthDeepens(a.members);
    SameEntries(a.members, deepening);
    OrdersBoth(a.members, deepening);
    staged := Fill(a.members, deepening, t);
  }

  lemma OrdersBoth(es: seq<Entry>, order: seq<Entry>)
    requires Distinct(es) && Distinct(order) && forall e :: e in es <==> e in order
    ensures Orders(TreeOf(es), es) && Orders(TreeOf(es), order)
  {
    TreeOfAt(es);
    forall p: Path ensures ListsPath(TreeOf(es), es, p) && ListsPath(TreeOf(es), order, p) {
      if Lists(es, p) {
        var i :| 0 <= i < |es| && es[i].path == p;
        assert es[i] in order;
      }
      if Lists(order, p) {
        var i :| 0 <= i < |order| && order[i].path == p;
        assert order[i] in es;
      }
    }
    forall i: nat | i < |order| ensures ListsNode(TreeOf(es), order, i) {
      assert order[i] in es;
    }
    forall i: nat | i < |es| ensures ListsNode(TreeOf(es), es, i) {
    }
  }

  method Fill(members: seq<Entry>, deepening: seq<Entry>, ghost t: Tree) returns (staged: Option<Tree>)
    requires TreeOk(t) && Orders(t, members) && Orders(t, deepening) && Deepening(deepening)
    ensures staged == Some(StagedTree(t))
  {
    forall p: Path ensures PathOnDisk(t, map[], Directories, deepening, 0, p) {
    }
    var out := MakeAll(t, deepening, map[], Directories);
    NextPass(t, out, Directories, deepening, Files, members);
    out := MakeAll(t, members, out, Files);
    NextPass(t, out, Files, members, Links, members);
    out := MakeAll(t, members, out, Links);
    AllMade(t, out, members, deepening);
    out := FinishAll(t, deepening, out);
    staged := Some(out);
  }

  lemma NextPass(t: Tree, out: Tree, pass: Pass, order: seq<Entry>, next: Pass, nextOrder: seq<Entry>)
    requires Orders(t, order) && OnDisk(t, out, pass, order, |order|)
    requires (pass == Directories && next == Files) || (pass == Files && next == Links)
    ensures OnDisk(t, out, next, nextOrder, 0)
  {
    assert order[..|order|] == order;
    forall p: Path ensures PathOnDisk(t, out, next, nextOrder, 0, p) {
      assert ListsPath(t, order, p);
      assert PathOnDisk(t, out, pass, order, |order|, p);
    }
  }

  lemma AllMade(t: Tree, out: Tree, order: seq<Entry>, deepening: seq<Entry>)
    requires TreeOk(t) && Orders(t, order) && Orders(t, deepening) && OnDisk(t, out, Links, order, |order|)
    ensures FinishedFrom(t, out, deepening, |deepening|)
  {
    assert order[..|order|] == order && deepening[..|deepening|] == deepening;
    forall p: Path ensures (p in out <==> p in t) && PathFinished(t, out, deepening, |deepening|, p) {
      assert PathOnDisk(t, out, Links, order, |order|, p) && ListsPath(t, order, p) && ListsPath(t, deepening, p);
      if p in t { assert EntryOk(t, p); }
    }
  }

  /* ---------------------------------------------------------------- creation */

  // Chromium's process markers are left out of the browser root.
  predicate Skipped(p: Path) { |p| > 1 && p[0] == "browser" && p[|p| - 1] in BROWSER_RUNTIME }

  function Expected(source: Tree): Tree { map p | p in source && !Skipped(p) :: source[p] }

  // Facts of any file system holding the sources under their logical roots.
  predicate PathOk(roots: set<string>, source: Tree, p: Path)
    requires p in source
  {
    && p != [] && p[0] in roots && source[p].attr.mode <= MAX_MODE
    && (|p| > 1 ==> L.Parent(p) in source && source[L.Parent(p)].kind.Directory?)
    && (source[p].kind.Symlink? ==> source[p].attr.mode == SYMLINK_MODE)
  }

  ghost predicate OnFilesystem(roots: set<string>, source: Tree) {
    forall p {:trigger PathOk(roots, source, p)} | p in source :: PathOk(roots, source, p)
  }

  lemma PathsBelowRoots(roots: set<string>, source: Tree)
    requires OnFilesystem(roots, source)
    ensures forall p | p in source :: p != [] && p[0] in roots
  {
    forall p | p in source ensures p != [] && p[0] in roots {
      assert PathOk(roots, source, p);
    }
  }

  predicate RootsExist(roots: set<string>, source: Tree) {
    forall r | r in roots :: [r] in source && source[[r]].kind.Directory?
  }

  // `reread` holds files whose bytes had changed when they were read again for the archive.
  function Reread(p: Path, n: Node, reread: map<Path, Bytes>): Node {
    if n.kind.File? && p in reread then n.(kind := File(reread[p])) else n
  }

  predicate Unchanged(source: Tree, reread: map<Path, Bytes>) {
    forall p | p in source && !Skipped(p) :: Reread(p, source[p], reread) == source[p]
  }

  // create(): an archive if and only if every kept entry is acceptable and no file changed in
  // between; it then is valid and holds exactly the kept tree.
  method Create(roots: set<string>, source: Tree, reread: map<Path, Bytes>) returns (r: Option<Archive>)
    requires OnFilesystem(roots, source)
    ensures r.Some? <==> roots != {} && roots <= ROOTS && RootsExist(roots, source)
                         && TreeOk(Expected(source)) && Unchanged(source, reread)
    ensures r.Some? ==> ValidArchive(r.value) && TreeOf(r.value.members) == Expected(source)
  {
    if roots == {} || !(roots <= ROOTS) || !RootsExist(roots, source) { return None; }
    var members, manifest := [], [];
    var todo := Expected(source).Keys;
    while todo != {}
      invariant todo <= Expected(source).Keys
      invariant Collected(source, reread, todo, members, manifest)
    {
      var p :| p in todo;
      if !NodeOk(p, source[p]) {
        assert p in Expected(source) && !EntryOk(Expected(source), p);
        return None;
      }
      CollectOne(source, reread, todo, members, manifest, p);
      members := members + [Entry(p, Reread(p, source[p], reread))];
      manifest := manifest + [Entry(p, source[p])];
      todo := todo - {p};
    }
    r := Publish(roots, source, reread, members, manifest);
  }

  ghost predicate Collected(source: Tree, reread: map<Path, Bytes>, todo: set<Path>, members: seq<Entry>, manifest: seq<Entry>) {
    && |members| == |manifest| && Distinct(manifest)
    && (forall i | 0 <= i < |manifest| ::
          && manifest[i].path in source && !Skipped(manifest[i].path) && manifest[i].path !in todo
          && manifest[i] == Entry(manifest[i].path, source[manifest[i].path])
          && members[i] == Entry(manifest[i].path, Reread(manifest[i].path, source[manifest[i].path], reread)))
    && (forall p | p in source && !Skipped(p) && p !in todo :: Lists(manifest, p))
  }

  lemma CollectOne(source: Tree, reread: map<Path, Bytes>, todo: set<Path>, members: seq<Entry>, manifest: seq<Entry>, p: Path)
    requires Collected(source, reread, todo, members, manifest) && p in todo && p in source && !Skipped(p)
    ensures Collected(source, reread, todo - {p}, members + [Entry(p, Reread(p, source[p], reread))],
                      manifest + [Entry(p, source[p])])
  {
    var all := manifest + [Entry(p, source[p])];
    assert all[|manifest|].path == p;
    forall q | q in source && !Skipped(q) && q !in todo - {p} ensures Lists(all, q) {
      if q != p {
        var i :| 0 <= i < |manifest| && manifest[i].path == q;
        assert all[i].path == q;
      }
    }
  }

  method Publish(roots: set<string>, source: Tree, reread: map<Path, Bytes>, members: seq<Entry>, manifest: seq<Entry>)
    returns (r: Option<Archive>)
    requires OnFilesystem(roots, source) && roots != {} && RootsExist(roots, source)
    requires Collected(source, reread, {}, members, manifest)
    ensures r.Some? <==> TreeOk(Expected(source)) && Unchanged(source, reread)
    ensures r.Some? ==> ValidArchive(r.value) && TreeOf(r.value.members) == Expected(source)
  {
    ManifestHoldsExpected(source, reread, members, manifest);
    PathsBelowRoots(roots, source);
    var ok := L.ValidateLinkGraph(LinksIn(Expected(source)));
    if !ok {
      assert exists p | p in LinksIn(Expected(source)) :: !LinkOk(Expected(source), p);
      return None;
    }
    var a := Archive(members, manifest, roots);
    ok := Validate(a);
    RootsListed(roots, source);
    r := if ok then Some(a) else None;
  }

  lemma ManifestHoldsExpected(source: Tree, reread: map<Path, Bytes>, members: seq<Entry>, manifest: seq<Entry>)
    requires Collected(source, reread, {}, members, manifest)
    ensures TreeOf(manifest) == Expected(source)
    ensures Unchanged(source, reread) <==> members == manifest
  {
    TreeOfAt(manifest);
    if members == manifest {
      forall p | p in source && !Skipped(p) ensures Reread(p, source[p], reread) == source[p] {
        assert Lists(manifest, p);
        var i :| 0 <= i < |manifest| && manifest[i].path == p;
        assert members[i] == manifest[i];
      }
    }
  }

  lemma RootsListed(roots: set<string>, source: Tree)
    requires OnFilesystem(roots, source) && RootsExist(roots, source)
    ensures RootsOf(Expected(source)) == roots
  {
    PathsBelowRoots(roots, source);
    forall x | x in roots ensures x in RootsOf(Expected(source)) {
      assert [x] in Expected(source) && [x][0] == x;
    }
  }

  // The round trip: what a successful backup stages is exactly the source tree, with its types,
  // contents, modes, owners, times and link targets, without the skipped browser markers.
  method BackUpAndStage(roots: set<string>, source: Tree, reread: map<Path, Bytes>) returns (staged: Option<Tree>)
    requires OnFilesystem(roots, source)
    ensures staged.Some? <==> roots != {} && roots <= ROOTS && RootsExist(roots, source)
                              && TreeOk(Expected(source)) && Unchanged(source, reread)
    ensures staged.Some? ==> staged.value == Expected(source)
  {
    var archive := Create(roots, source, reread);
    if archive.None? { return None; }
    staged := Stage(archive.value);
    StagingKeepsSources(roots, source);
  }

  lemma StagingKeepsSources(roots: set<string>, source: Tree)
    requires OnFilesystem(roots, source)
    ensures StagedTree(Expected(source)) == Expected(source)
  {
    forall p | p in Expected(source) ensures Finished(source[p]) == source[p] {
      assert PathOk(roots, source, p);
    }
  }

  // A browser directory with a marker's name cannot be backed up unless it is empty: its entries
  // would lose their parent.
  lemma SkippedDirectoryBlocks(roots: set<string>, source: Tree, p: Path, child: string)
    requires OnFilesystem(roots, source) && p in source && Skipped(p)
    requires p + [child] in source && !Skipped(p + [child])
    ensures !TreeOk(Expected(source))
  {
    assert L.Parent(p + [child]) == p;
    assert !EntryOk(Expected(source), p + [child]);
  }
}
