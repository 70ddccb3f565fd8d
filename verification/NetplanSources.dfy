/** Writing an edited interface back into Netplan's source files (appliance/lib/network_sources.py).
    Netplan reads one file per name, from the highest layer that has it, in name order, and merges
    the definitions it finds.  What merging two definitions means is a parameter here. */
module NetplanSources {
  import opened Utilities
  import N = Netplan

  // File names are numbered in their sort order.
  type Base = nat
  datatype Layer = Lib | Etc | Run
  datatype File = File(layer: Layer, base: Base)
  type Sources = map<File, N.Document>

  function Rank(l: Layer): nat {
    match l case Lib => 0 case Etc => 1 case Run => 2
  }

  /* ------------------------------------------------------ effective sources */

  predicate Effective(sources: Sources, f: File) {
    f in sources && forall g | g in sources && g.base == f.base :: Rank(g.layer) <= Rank(f.layer)
  }

  predicate InNameOrder(order: seq<File>) { forall i, j | 0 <= i < j < |order| :: order[i].base < order[j].base }

  // The effective files in name order; there is exactly one such sequence.
  ghost predicate IsOrder(sources: Sources, order: seq<File>) {
    InNameOrder(order) && forall f :: f in order <==> Effective(sources, f)
  }

  // effective_sources(): one pass choosing the highest layer of each name, then the sort.
  method EffectiveSources(sources: Sources) returns (order: seq<File>)
    ensures IsOrder(sources, order)
  {
    var selected: map<Base, File> := map[];
    var todo := sources.Keys;
    while todo != {}
      invariant todo <= sources.Keys
      invariant forall f | f in sources && f !in todo :: f.base in selected
      invariant forall b | b in selected :: selected[b] in sources && selected[b] !in todo && selected[b].base == b
      invariant forall f | f in sources && f !in todo :: Rank(f.layer) <= Rank(selected[f.base].layer)
    {
      var f :| f in todo;
      if f.base !in selected || Rank(f.layer) > Rank(selected[f.base].layer) {
        selected := selected[f.base := f];
      }
      todo := todo - {f};
    }
    order := SortNames(selected);
    forall f ensures f in order <==> Effective(sources, f) {
      if Effective(sources, f) {
        assert f.base in selected && Rank(selected[f.base].layer) == Rank(f.layer);
        assert selected[f.base] == f;
      }
    }
  }

  method SortNames(selected: map<Base, File>) returns (order: seq<File>)
    requires forall b | b in selected :: selected[b].base == b
    ensures InNameOrder(order) && forall f :: f in order <==> f.base in selected && selected[f.base] == f
  {
    order := [];
    var todo := selected.Keys;
    while todo != {}
      invariant todo <= selected.Keys && InNameOrder(order)
      invariant forall f :: f in order <==> f.base in selected && f.base !in todo && selected[f.base] == f
      invariant forall f, b | f in order && b in todo :: f.base < b
    {
      var b := Least(todo);
      order := order + [selected[b]];
      todo := todo - {b};
    }
  }

  method Least(s: set<Base>) returns (m: Base)
    requires s != {}
    ensures m in s && forall b | b in s :: m <= b
  {
    m :| m in s;
    var todo := s - {m};
    while todo != {}
      invariant todo <= s && m in s && forall b | b in s && b !in todo :: m <= b
    {
      var b :| b in todo;
      if b < m { m := b; }
      todo := todo - {b};
    }
  }

  lemma {:induction false} OrderIsUnique(a: seq<File>, b: seq<File>)
    requires InNameOrder(a) && InNameOrder(b) && forall f :: f in a <==> f in b
    ensures a == b
  {
    assert b == [] || b[0] in b;
    if a != [] {
      assert a[0] in b && b[0] in a;
      forall f ensures f in a[1..] <==> f in b[1..] {
        assert f in a[1..] ==> f in a && f != a[0];
        assert f in b[1..] ==> f in b && f != b[0];
      }
      OrderIsUnique(a[1..], b[1..]);
    }
  }

  /* ---------------------------------------------------------------- merging */

  // The pieces of one definition, in the order Netplan meets them.
  function Fragments(order: seq<File>, sources: Sources, key: N.Key): seq<N.Def>
    requires forall f | f in order :: f in sources
  {
    if order == [] then []
    else (if key in sources[order[0]].defs then [sources[order[0]].defs[key]] else []) + Fragments(order[1..], sources, key)
  }

  function Fold(merge: (N.Def, N.Def) -> N.Def, first: N.Def, rest: seq<N.Def>): N.Def
    decreases |rest|
  {
    if rest == [] then first else Fold(merge, merge(first, rest[0]), rest[1..])
  }

  // The definition Netplan ends up with, for whatever merging means.
  function Merged(merge: (N.Def, N.Def) -> N.Def, order: seq<File>, sources: Sources, key: N.Key): Option<N.Def>
    requires forall f | f in order :: f in sources
  {
    var pieces := Fragments(order, sources, key);
    if pieces == [] then None else Some(Fold(merge, pieces[0], pieces[1..]))
  }

  // Everything in the files besides definitions, in order: global settings.
  function Globals(order: seq<File>, sources: Sources): seq<(Option<string>, N.Rest)>
    requires forall f | f in order :: f in sources
  {
    if order == [] then []
    else [(sources[order[0]].renderer, sources[order[0]].rest)] + Globals(order[1..], sources)
  }

  /* ---------------------------------------------------------------- rewrite */

  // A file without the definition, or with its complete new form.
  function Without(doc: N.Document, key: N.Key): N.Document { doc.(defs := doc.defs - {key}) }

  function With(doc: N.Document, key: N.Key, def: N.Def): N.Document { doc.(defs := doc.defs[key := def]) }

  // The files that change: every effective origin of the definition, in order.
  function Origins(order: seq<File>, sources: Sources, key: N.Key): seq<File>
    requires forall f | f in order :: f in sources
    ensures forall f :: f in Origins(order, sources, key) <==> f in order && key in sources[f].defs
  {
    if order == [] then []
    else (if key in sources[order[0]].defs then [order[0]] else []) + Origins(order[1..], sources, key)
  }

  datatype Rewritten = Rewritten(files: Sources, configuration: N.Document)

  // rewrite(): None stands for every error.  `merge` is whatever Netplan does with two pieces.
  method Rewrite(sources: Sources, merged: N.Document, s: N.Settings, mac: Option<string>,
                 ghost merge: (N.Def, N.Def) -> N.Def)
    returns (r: Option<Rewritten>, ghost order: seq<File>)
    ensures IsOrder(sources, order)
    ensures r.Some? ==> r.value.files.Keys <= sources.Keys
    ensures r.Some? ==> forall f | f in r.value.files :: f.layer == Etc && Effective(sources, f)
    ensures r.Some? ==> N.EditSpec(merged, s, mac) == Some(r.value.configuration)
    ensures r.Some? ==> var key := N.Resolve(merged, s.interface, mac).value;
              && (forall k | k != key :: Fragments(order, sources + r.value.files, k) == Fragments(order, sources, k))
              && Fragments(order, sources + r.value.files, key) == [r.value.configuration.defs[key]]
              && Globals(order, sources + r.value.files) == Globals(order, sources)
              && Replaces(sources, r.value.files, Origins(order, sources, key), key, r.value.configuration.defs[key])
    // What Netplan makes of the files afterwards: the selected definition's new form, all others as before.
    ensures r.Some? ==> IsOrder(sources + r.value.files, order)
    ensures r.Some? ==> var key := N.Resolve(merged, s.interface, mac).value;
              forall k :: Merged(merge, order, sources + r.value.files, k) ==
                if k == key then Some(r.value.configuration.defs[key]) else Merged(merge, order, sources, k)
    ensures r.None? <==>
              || N.EditSpec(merged, s, mac).None?
              || var origins := Origins(order, sources, N.Resolve(merged, s.interface, mac).value);
                 origins == [] || exists f | f in origins :: f.layer != Etc
  {
    var files := EffectiveSources(sources);
    order := files;
    var prepared := N.Edit(merged, s, mac);
    if prepared.None? { return None, order; }
    var key := N.Resolve(merged, s.interface, mac).value;
    var origins := CollectOrigins(files, sources, key);
    if origins == [] || exists f | f in origins :: f.layer != Etc { return None, order; }
    var def := prepared.value.defs[key];
    var result := RewriteOrigins(sources, origins, key, def);
    RewriteMerges(files, sources, result, origins, key, def);
    forall k
      ensures Merged(merge, order, sources + result, k) == if k == key then Some(def) else Merged(merge, order, sources, k)
    {
      RewriteKeepsMeaning(merge, order, sources, result, key, def, k);
    }
    OrderKept(order, sources, result, origins, key, def);
    r := Some(Rewritten(result, prepared.value));
  }

  method CollectOrigins(order: seq<File>, sources: Sources, key: N.Key) returns (origins: seq<File>)
    requires forall f | f in order :: f in sources
    ensures origins == Origins(order, sources, key)
  {
    origins := [];
    var i := 0;
    while i < |order|
      invariant i <= |order| && origins + Origins(order[i..], sources, key) == Origins(order, sources, key)
    {
      assert order[i..][0] == order[i] && order[i..][1..] == order[i + 1..];
      if key in sources[order[i]].defs { origins := origins + [order[i]]; }
      i := i + 1;
    }
  }

  // What each origin becomes.
  ghost predicate Replaces(sources: Sources, result: Sources, origins: seq<File>, key: N.Key, def: N.Def) {
    && origins != [] && (forall f | f in origins :: f in sources) && (forall f :: f in result <==> f in origins)
    && forall f | f in origins ::
         result[f] == if f == origins[|origins| - 1] then With(sources[f], key, def) else Without(sources[f], key)
  }

  method RewriteOrigins(sources: Sources, origins: seq<File>, key: N.Key, def: N.Def) returns (result: Sources)
    requires origins != [] && forall f | f in origins :: f in sources && key in sources[f].defs
    ensures Replaces(sources, result, origins, key, def)
  {
    result := map[];
    var i := 0;
    while i < |origins|
      invariant i <= |origins| && forall f :: f in result <==> f in origins[..i]
      invariant forall f | f in result ::
                  && f in sources
                  && result[f] == if f == origins[|origins| - 1] then With(sources[f], key, def) else Without(sources[f], key)
    {
      var f := origins[i];
      var document := Without(sources[f], key);
      if f == origins[|origins| - 1] { document := With(document, key, def); }
      assert With(Without(sources[f], key), key, def) == With(sources[f], key, def);
      result := result[f := document];
      i := i + 1;
    }
    assert origins[..|origins|] == origins;
  }

  // The heart of it, file by file.
  lemma {:induction false} RewriteMerges(order: seq<File>, sources: Sources, result: Sources, origins: seq<File>,
                                         key: N.Key, def: N.Def)
    requires InNameOrder(order) && forall f | f in order :: f in sources
    requires Replaces(sources, result, origins, key, def)
    requires forall f | f in order :: f in origins <==> key in sources[f].defs
    ensures forall f | f in order :: f in sources + result
    ensures forall k | k != key :: Fragments(order, sources + result, k) == Fragments(order, sources, k)
    ensures Fragments(order, sources + result, key) == if origins[|origins| - 1] in order then [def] else []
    ensures Globals(order, sources + result) == Globals(order, sources)
  {
    if order != [] {
      RewriteMerges(order[1..], sources, result, origins, key, def);
      var f := order[0];
      assert f !in order[1..] by {
        forall i | 0 <= i < |order[1..]| ensures order[1..][i] != f { assert order[i + 1].base > f.base; }
      }
      assert forall g | g in order :: g == f || g in order[1..];
    }
  }

  lemma OrderKept(order: seq<File>, sources: Sources, result: Sources, origins: seq<File>, key: N.Key, def: N.Def)
    requires IsOrder(sources, order) && Replaces(sources, result, origins, key, def)
    ensures IsOrder(sources + result, order)
  {
    assert (sources + result).Keys == sources.Keys;
    forall f ensures f in order <==> Effective(sources + result, f) {
      assert Effective(sources, f) <==> Effective(sources + result, f);
    }
  }

  // Rewriting preserves meaning: under any merge, every definition Netplan ends up with is the
  // same as before, except the selected one, which is exactly its complete new form; and the
  // files themselves keep their order and their global settings.
  lemma RewriteKeepsMeaning(merge: (N.Def, N.Def) -> N.Def, order: seq<File>, sources: Sources, result: Sources,
                            key: N.Key, def: N.Def, k: N.Key)
    requires IsOrder(sources, order)
    requires Origins(order, sources, key) != [] && Replaces(sources, result, Origins(order, sources, key), key, def)
    ensures IsOrder(sources + result, order)
    ensures Merged(merge, order, sources + result, k) == if k == key then Some(def) else Merged(merge, order, sources, k)
    ensures Globals(order, sources + result) == Globals(order, sources)
  {
    var origins := Origins(order, sources, key);
    OrderKept(order, sources, result, origins, key, def);
    RewriteMerges(order, sources, result, origins, key, def);
    assert origins[|origins| - 1] in origins;
  }
}
