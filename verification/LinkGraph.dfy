/** Symbolic links in a backup archive (appliance/lib/backup_archive.py, safe_link and
    validate_link_graph) against pathname resolution as POSIX defines it (IEEE Std 1003.1-2017,
    Base Definitions, section 4.13). */
module LinkGraph {
  type Path = seq<string>

  // What pathlib splits a link target into.
  datatype Part = Up | Dot | Name(name: string)

  // SystemFile: the fixed OS-managed file link this very path is allowed to be.
  datatype Target = Relative(parts: seq<Part>) | SystemFile

  type Links = map<Path, Target>

  const MAX_EXPANSIONS: nat := 40

  datatype Outcome =
    | Resolved(dir: Path, left: nat)
    | AtSystemFile(path: Path)
    | Escapes
    | ThroughSystemFile
    | TooDeep

  predicate Fine(r: Outcome) { r.Resolved? || r.AtSystemFile? }

  function Parent(name: Path): Path
    requires name != []
  {
    name[..|name| - 1]
  }

  // The check's loop, as a function of its three variables.
  function Walk(links: Links, dir: Path, pending: seq<Part>, budget: nat): Outcome
    decreases budget, |pending|
  {
    if pending == [] then Resolved(dir, budget)
    else
      match pending[0]
      case Dot => Walk(links, dir, pending[1..], budget)
      case Up => if |dir| <= 1 then Escapes else Walk(links, Parent(dir), pending[1..], budget)
      case Name(n) =>
        if dir + [n] !in links then Walk(links, dir + [n], pending[1..], budget)
        else
          match links[dir + [n]]
          case SystemFile => if |pending| == 1 then AtSystemFile(dir + [n]) else ThroughSystemFile
          case Relative(t) => if budget == 0 then TooDeep else Walk(links, dir, t + pending[1..], budget - 1)
  }

  // The same resolution read compositionally: a link is resolved on its own, then the rest.
  function Resolve(links: Links, dir: Path, parts: seq<Part>, budget: nat): (r: Outcome)
    ensures r.Resolved? ==> r.left <= budget
    ensures r.Resolved? && dir != [] ==> r.dir != [] && r.dir[0] == dir[0]
    ensures r.AtSystemFile? ==> r.path in links && links[r.path] == SystemFile
    ensures r.AtSystemFile? && dir != [] ==> r.path != [] && r.path[0] == dir[0]
    decreases budget, |parts|
  {
    if parts == [] then Resolved(dir, budget)
    else
      match parts[0]
      case Dot => Resolve(links, dir, parts[1..], budget)
      case Up => if |dir| <= 1 then Escapes else Resolve(links, Parent(dir), parts[1..], budget)
      case Name(n) =>
        if dir + [n] !in links then Resolve(links, dir + [n], parts[1..], budget)
        else
          match links[dir + [n]]
          case SystemFile => if |parts| == 1 then AtSystemFile(dir + [n]) else ThroughSystemFile
          case Relative(t) =>
            if budget == 0 then TooDeep
            else Continue(links, Resolve(links, dir, t, budget - 1), parts, budget)
  }

  function Continue(links: Links, inner: Outcome, parts: seq<Part>, budget: nat): (r: Outcome)
    requires parts != [] && budget > 0
    requires inner.Resolved? ==> inner.left < budget
    requires inner.AtSystemFile? ==> inner.path in links && links[inner.path] == SystemFile
    ensures r.Resolved? ==> r.left < budget
    ensures r.Resolved? ==> inner.Resolved?
    ensures r.Resolved? && inner.dir != [] ==> r.dir != [] && r.dir[0] == inner.dir[0]
    ensures r.AtSystemFile? ==> r.path in links && links[r.path] == SystemFile && (inner.AtSystemFile? || inner.Resolved?)
    ensures r.AtSystemFile? && inner.AtSystemFile? ==> r == inner
    ensures r.AtSystemFile? && inner.Resolved? && inner.dir != [] ==> r.path != [] && r.path[0] == inner.dir[0]
    decreases budget, 0
  {
    match inner
    case Resolved(d, left) => Resolve(links, d, parts[1..], left)
    case AtSystemFile(_) => if |parts| == 1 then inner else ThroughSystemFile
    case _ => inner
  }

  function AndThen(links: Links, r: Outcome, rest: seq<Part>): Outcome {
    match r
    case Resolved(d, left) => Walk(links, d, rest, left)
    case AtSystemFile(_) => if rest == [] then r else ThroughSystemFile
    case _ => r
  }

  // The loop computes the compositional resolution.
  lemma {:induction false} WalkComposes(links: Links, dir: Path, parts: seq<Part>, rest: seq<Part>, budget: nat)
    ensures Walk(links, dir, parts + rest, budget) == AndThen(links, Resolve(links, dir, parts, budget), rest)
    decreases budget, |parts|
  {
    var all := parts + rest;
    if parts == [] {
      assert all == rest;
    } else {
      assert all[0] == parts[0] && all[1..] == parts[1..] + rest;
      match parts[0]
      case Dot => WalkComposes(links, dir, parts[1..], rest, budget);
      case Up => if |dir| > 1 { WalkComposes(links, Parent(dir), parts[1..], rest, budget); }
      case Name(n) =>
        if dir + [n] !in links {
          WalkComposes(links, dir + [n], parts[1..], rest, budget);
        } else if links[dir + [n]].Relative? && budget > 0 {
          var inner := Resolve(links, dir, links[dir + [n]].parts, budget - 1);
          WalkComposes(links, dir, links[dir + [n]].parts, all[1..], budget - 1);
          if inner.Resolved? {
            WalkComposes(links, inner.dir, parts[1..], rest, inner.left);
          }
        }
    }
  }

  /* ------------------------------------------------------- the two checks */

  predicate Accepted(links: Links, name: Path)
    requires name in links
  {
    name != [] && (links[name].SystemFile? || Fine(Resolve(links, Parent(name), links[name].parts, MAX_EXPANSIONS)))
  }

  // validate_link_graph: the measure is the number of expansions left, then what is pending.
  method ValidateLinkGraph(links: Links) returns (ok: bool)
    requires forall name | name in links :: name != []
    ensures ok <==> forall name | name in links :: Accepted(links, name)
  {
    var todo := links.Keys;
    while todo != {}
      invariant todo <= links.Keys
      invariant forall name | name in links && name !in todo :: Accepted(links, name)
    {
      var name :| name in todo;
      todo := todo - {name};
      if links[name].Relative? {
        ok := CheckLink(links, name);
        if !ok { return; }
      }
    }
    ok := true;
  }

  method CheckLink(links: Links, name: Path) returns (ok: bool)
    requires name in links && name != [] && links[name].Relative?
    ensures ok <==> Accepted(links, name)
  {
    var resolved := Parent(name);
    var pending := links[name].parts;
    var expansions := 0;
    WalkComposes(links, resolved, pending, [], MAX_EXPANSIONS);
    assert pending + [] == pending;
    ghost var verdict := Walk(links, resolved, pending, MAX_EXPANSIONS);
    assert Accepted(links, name) <==> Fine(verdict);
    while pending != []
      invariant expansions <= MAX_EXPANSIONS
      invariant Walk(links, resolved, pending, MAX_EXPANSIONS - expansions) == verdict
      decreases MAX_EXPANSIONS - expansions, |pending|
    {
      var part := pending[0];
      pending := pending[1..];
      match part
      case Up =>
        if |resolved| <= 1 { return false; }
        resolved := Parent(resolved);
      case Dot =>
      case Name(n) =>
        var candidate := resolved + [n];
        if candidate in links {
          if links[candidate].SystemFile? { return pending == []; }
          expansions := expansions + 1;
          if expansions > MAX_EXPANSIONS { return false; }
          pending := links[candidate].parts + pending;
        } else {
          resolved := candidate;
        }
    }
    ok := true;
  }

  // safe_link looks at one link alone, counting how deep below its root it stays.
  method SafeLink(depth: nat, parts: seq<Part>) returns (ok: bool)
    ensures forall dir: Path | |dir| == depth :: ok <==> Resolve(map[], dir, parts, 0).Resolved?
  {
    var d, i := depth, 0;
    ghost var verdict := Lexical(depth, parts);
    while i < |parts|
      invariant i <= |parts| && Lexical(d, parts[i..]) == verdict
    {
      assert parts[i..][1..] == parts[i + 1..];
      if parts[i].Up? {
        if d <= 1 {
          ok := false;
          LexicalIsLinkFree(depth, parts);
          return;
        }
        d := d - 1;
      } else if parts[i].Name? {
        d := d + 1;
      }
      i := i + 1;
    }
    ok := true;
    LexicalIsLinkFree(depth, parts);
  }

  predicate Lexical(depth: nat, parts: seq<Part>)
    decreases parts
  {
    parts == [] || (match parts[0]
                    case Dot => Lexical(depth, parts[1..])
                    case Up => depth > 1 && Lexical(depth - 1, parts[1..])
                    case Name(_) => Lexical(depth + 1, parts[1..]))
  }

  // Without other links, staying lexically below the root is exactly resolving.
  lemma {:induction false} LexicalIsLinkFree(depth: nat, parts: seq<Part>)
    ensures forall dir: Path | |dir| == depth :: Lexical(depth, parts) <==> Resolve(map[], dir, parts, 0).Resolved?
    decreases parts
  {
    forall dir: Path | |dir| == depth ensures Lexical(depth, parts) <==> Resolve(map[], dir, parts, 0).Resolved? {
      if parts != [] {
        match parts[0]
        case Dot => LexicalIsLinkFree(depth, parts[1..]);
        case Up => if depth > 1 { LexicalIsLinkFree(depth - 1, parts[1..]); assert |Parent(dir)| == depth - 1; }
        case Name(n) => LexicalIsLinkFree(depth + 1, parts[1..]); assert |dir + [n]| == depth + 1;
      }
    }
  }

  /* ------------------------------------------------------- POSIX resolution */

  datatype Node = Directory | File | Link(target: Target)

  type Tree = map<Path, Node>

  function LinksOf(tree: Tree): Links {
    map p | p in tree && tree[p].Link? :: tree[p].target
  }

  // Outside: above the logical root.  `limit` is the system's own symbolic link limit.
  datatype Lookup =
    | Found(path: Path) | External(path: Path) | Absent | NotDirectory | LinkLimit
    | Outside | ThroughExternal

  predicate Failed(l: Lookup) { l == Absent || l == NotDirectory || l == LinkLimit }

  // Every component is looked up in a directory; a link's contents replace it in front of what
  // remains of the pathname.
  function Find(tree: Tree, dir: Path, parts: seq<Part>, limit: nat): Lookup
    decreases limit, |parts|
  {
    if parts == [] then Found(dir)
    else if dir !in tree || tree[dir] != Directory then NotDirectory
    else
      match parts[0]
      case Dot => Find(tree, dir, parts[1..], limit)
      case Up => if |dir| <= 1 then Outside else Find(tree, Parent(dir), parts[1..], limit)
      case Name(n) =>
        if dir + [n] !in tree then Absent
        else
          match tree[dir + [n]]
          case Link(SystemFile) => if |parts| == 1 then External(dir + [n]) else ThroughExternal
          case Link(Relative(t)) => if limit == 0 then LinkLimit else Find(tree, dir, t + parts[1..], limit - 1)
          case _ => Find(tree, dir + [n], parts[1..], limit)
  }

  // Where the check resolves a prefix, the system either fails on the way or arrives there too,
  // whatever its own limit is.
  lemma {:induction false} FindFollows(tree: Tree, dir: Path, parts: seq<Part>, rest: seq<Part>, budget: nat, limit: nat)
    returns (left: nat)
    ensures left <= limit
    ensures var r := Resolve(LinksOf(tree), dir, parts, budget);
            var l := Find(tree, dir, parts + rest, limit);
            && (r.Resolved? ==> Failed(l) || l == Find(tree, r.dir, rest, left))
            && (r.AtSystemFile? ==> Failed(l) || l == if rest == [] then External(r.path) else ThroughExternal)
    decreases budget, |parts|
  {
    var links, all := LinksOf(tree), parts + rest;
    left := limit;
    if parts == [] {
      assert all == rest;
      return;
    }
    assert all[0] == parts[0] && all[1..] == parts[1..] + rest;
    if dir !in tree || tree[dir] != Directory { return; }
    match parts[0]
    case Dot => left := FindFollows(tree, dir, parts[1..], rest, budget, limit);
    case Up => if |dir| > 1 { left := FindFollows(tree, Parent(dir), parts[1..], rest, budget, limit); }
    case Name(n) =>
      if dir + [n] in tree {
        if dir + [n] !in links {
          left := FindFollows(tree, dir + [n], parts[1..], rest, budget, limit);
        } else if links[dir + [n]].Relative? && budget > 0 && limit > 0 {
          var t := links[dir + [n]].parts;
          var inner := Resolve(links, dir, t, budget - 1);
          left := FindFollows(tree, dir, t, all[1..], budget - 1, limit - 1);
          if inner.Resolved? {
            left := FindFollows(tree, inner.dir, parts[1..], rest, inner.left, left);
          }
        }
      }
  }

  // Following any accepted link, through any chain of archived links and under any system limit,
  // ends below the link's own logical root or exactly at an allowed system file link, or fails.
  lemma LinkConfined(tree: Tree, name: Path, limit: nat)
    requires name in LinksOf(tree) && |name| >= 2 && LinksOf(tree)[name].Relative?
    requires Accepted(LinksOf(tree), name)
    ensures var l := Find(tree, Parent(name), LinksOf(tree)[name].parts, limit);
            || Failed(l)
            || (l.Found? && l.path != [] && l.path[0] == name[0])
            || (l.External? && l.path in tree && tree[l.path] == Link(SystemFile) && l.path != [] && l.path[0] == name[0])
  {
    var parts := LinksOf(tree)[name].parts;
    var left := FindFollows(tree, Parent(name), parts, [], MAX_EXPANSIONS, limit);
    assert parts + [] == parts;
  }

  // A pathname of plain names, from anywhere in an accepted archive, never leaves its root.
  lemma {:induction false} NamesConfined(tree: Tree, dir: Path, parts: seq<Part>, limit: nat)
    requires dir != [] && forall i | 0 <= i < |parts| :: parts[i].Name?
    requires forall name | name in LinksOf(tree) :: |name| >= 2 && Accepted(LinksOf(tree), name)
    ensures var l := Find(tree, dir, parts, limit);
            l != Outside && (l.Found? ==> l.path != [] && l.path[0] == dir[0])
    decreases |parts|
  {
    if parts == [] || dir !in tree || tree[dir] != Directory { return; }
    var here, links := dir + [parts[0].name], LinksOf(tree);
    if here !in tree {
    } else if !tree[here].Link? {
      NamesConfined(tree, here, parts[1..], limit);
    } else if tree[here].target.Relative? && limit > 0 {
      var t := tree[here].target.parts;
      assert here in links && Parent(here) == dir && Accepted(links, here);
      var left := FindFollows(tree, dir, t, parts[1..], MAX_EXPANSIONS, limit - 1);
      var r := Resolve(links, dir, t, MAX_EXPANSIONS);
      if r.Resolved? { NamesConfined(tree, r.dir, parts[1..], left); }
    }
  }
}
