/** Editing one interface's IPv4 settings in a Netplan document (appliance/lib/network_config.py)
    and carrying the edit back into the source files (appliance/lib/network_sources.py).
    Documents are parsed YAML: mappings are maps, sequences keep their order. */
module Netplan {
  import opened Utilities

  type Kind = string
  type Name = string
  type Key = (Kind, Name)
  type Rest = map<string, string>  // settings the edit never looks at

  // An address, with its prefix and options where Netplan has them.
  datatype Ip = Ip(v6: bool, text: string)
  datatype Route = Route(dest: string, via: Option<Ip>, table: Option<int>, rest: Rest)
  datatype NameServers = NameServers(addresses: Option<seq<Ip>>, rest: Rest)
  datatype Overrides = Overrides(useDns: Option<bool>, rest: Rest)
  datatype Match = Match(name: Option<string>, mac: Option<string>, rest: Rest)

  // An empty `match` or `set-name` counts as absent.
  datatype Def = Def(
    match_: Option<Match>, setName: Option<string>, renderer: Option<string>,
    dhcp4: Option<bool>, dhcp6: Option<bool>, addresses: Option<seq<Ip>>, routes: Option<seq<Route>>,
    gateway4: Option<string>, nameservers: Option<NameServers>,
    overrides4: Option<Overrides>, overrides6: Option<Overrides>, rest: Rest)

  datatype Document = Document(defs: map<Key, Def>, renderer: Option<string>, rest: Rest)

  const KINDS: set<Kind> := {"ethernets", "wifis", "bridges", "bonds", "vlans", "tunnels", "dummy-devices"}
  const MAIN_TABLE := 254

  // The validated request; `cidr` is the address with its prefix, as Netplan writes it.
  datatype Settings =
    | Dhcp(interface: string, dns: seq<string>)
    | Static(interface: string, dns: seq<string>, cidr: string, gateway: Option<string>)

  /* ------------------------------------------------------------- resolving */

  function Lower(s: string): string {
    if s == [] then []
    else [if 'A' <= s[0] <= 'Z' then s[0] - 'A' + 'a' else s[0]] + Lower(s[1..])
  }

  predicate Describes(key: Key, d: Def, interface: string, mac: Option<string>) {
    || d.setName == Some(interface)
    || (d.match_.None? && key.1 == interface)
    || (mac.Some? && d.match_.Some? && d.match_.value.mac.Some? && d.setName.None?
        && Lower(d.match_.value.mac.value) == Lower(mac.value))
    || (d.match_.Some? && d.match_.value.name == Some(interface) && '*' !in interface && '?' !in interface && '[' !in interface)
  }

  function Describing(doc: Document, interface: string, mac: Option<string>): set<Key> {
    set key | key in doc.defs && key.0 in KINDS && Describes(key, doc.defs[key], interface, mac)
  }

  // resolve(): None when no or several definitions describe the interface.
  function Resolve(doc: Document, interface: string, mac: Option<string>): (r: Option<Key>)
    ensures r.Some? ==> r.value in doc.defs && Describing(doc, interface, mac) == {r.value}
    ensures r.None? ==> forall key :: Describing(doc, interface, mac) != {key}
  {
    var found := Describing(doc, interface, mac);
    if exists key | key in found :: found == {key} then
      var key :| key in found && found == {key};
      Some(key)
    else
      assert forall key :: found == {key} ==> key in found;
      None
  }

  /* --------------------------------------------------------------- editing */

  function OrEmpty<T>(s: Option<seq<T>>): seq<T> { if s.Some? then s.value else [] }

  function OrAbsent<T(==)>(s: seq<T>): Option<seq<T>> { if s == [] then None else Some(s) }

  // main_ipv4_default: None when the route's family is ambiguous.
  function MainDefault(r: Route): Option<bool> {
    if r.table.Some? && r.table.value != MAIN_TABLE then Some(false)
    else if r.dest == "0.0.0.0/0" then Some(true)
    else if r.dest == "default" then (if r.via.None? then None else Some(!r.via.value.v6))
    else Some(false)
  }

  predicate IsDefault(r: Route) { MainDefault(r) == Some(true) }

  // The addresses of one family, and the routes that are or are not main-table IPv4 defaults.
  function Family(s: seq<Ip>, v6: bool): seq<Ip> {
    if s == [] then [] else (if s[0].v6 == v6 then [s[0]] else []) + Family(s[1..], v6)
  }

  function Defaults(s: seq<Route>, wanted: bool): seq<Route> {
    if s == [] then [] else (if IsDefault(s[0]) == wanted then [s[0]] else []) + Defaults(s[1..], wanted)
  }

  function Plain(addresses: seq<string>): seq<Ip> {
    if addresses == [] then [] else [Ip(false, addresses[0])] + Plain(addresses[1..])
  }

  predicate Editable(d: Def) {
    var routes := OrEmpty(d.routes);
    (forall r | r in routes :: MainDefault(r).Some?) && |Defaults(routes, true)| <= 1
  }

  function EditedAddresses(d: Def, s: Settings): seq<Ip> {
    Family(OrEmpty(d.addresses), true) + (if s.Static? then [Ip(false, s.cidr)] else [])
  }

  function NewRoutes(d: Def, s: Settings): seq<Route> {
    if s.Static? && s.gateway.Some? then
      var defaults := Defaults(OrEmpty(d.routes), true);
      [(if defaults != [] then defaults[0] else Route("default", None, None, map[])).(via := Some(Ip(false, s.gateway.value)))]
    else []
  }

  function EditedRoutes(d: Def, s: Settings): seq<Route> { Defaults(OrEmpty(d.routes), false) + NewRoutes(d, s) }

  function EditedServers(d: Def, s: Settings): Option<NameServers> {
    var before := if d.nameservers.Some? then d.nameservers.value else NameServers(None, map[]);
    var servers := Family(OrEmpty(before.addresses), true) + Plain(s.dns);
    var new_ := before.(addresses := OrAbsent(servers));
    if new_ == NameServers(None, map[]) then None else Some(new_)
  }

  function UseDns(o: Option<Overrides>, use: bool): Option<Overrides> {
    Some((if o.Some? then o.value else Overrides(None, map[])).(useDns := Some(use)))
  }

  function Renderer(doc: Document, d: Def): string {
    if d.renderer.Some? then d.renderer.value else if doc.renderer.Some? then doc.renderer.value else "networkd"
  }

  // The definition edit() leaves, as one expression.
  function Edited(doc: Document, d: Def, s: Settings): Def {
    d.(dhcp4 := Some(s.Dhcp?), addresses := OrAbsent(EditedAddresses(d, s)), routes := OrAbsent(EditedRoutes(d, s)),
       gateway4 := None, nameservers := EditedServers(d, s),
       overrides4 := if s.Dhcp? then UseDns(d.overrides4, s.dns == []) else d.overrides4,
       overrides6 := if s.Dhcp? && d.dhcp6 == Some(true) && Renderer(doc, d) == "networkd"
                     then UseDns(d.overrides6, s.dns == []) else d.overrides6)
  }

  function EditSpec(doc: Document, s: Settings, mac: Option<string>): Option<Document> {
    var key := Resolve(doc, s.interface, mac);
    if key.None? || !Editable(doc.defs[key.value]) then None
    else Some(doc.(defs := doc.defs[key.value := Edited(doc, doc.defs[key.value], s)]))
  }

  // What the user asked for: the IPv4 part of the definition is exactly that.
  ghost predicate AsAsked(d: Def, e: Def, s: Settings) {
    var before, now := OrEmpty(d.routes), OrEmpty(e.routes);
    && e.dhcp4 == Some(s.Dhcp?) && e.gateway4.None?
    && Family(OrEmpty(e.addresses), false) == (if s.Static? then [Ip(false, s.cidr)] else [])
    && (s.Static? && s.gateway.Some? ==>
          |Defaults(now, true)| == 1 && Defaults(now, true)[0].via == Some(Ip(false, s.gateway.value))
          && (Defaults(before, true) != [] ==> Defaults(now, true)[0] == Defaults(before, true)[0].(via := Defaults(now, true)[0].via)))
    && (s.Dhcp? || s.gateway.None? ==> Defaults(now, true) == [])
    && Family(Servers(e), false) == Plain(s.dns)
    && (s.Dhcp? ==> e.overrides4.Some? && e.overrides4.value.useDns == Some(s.dns == []))
  }

  // What the user did not ask about: everything else stays, in its order.
  ghost predicate Kept(doc: Document, d: Def, e: Def, s: Settings) {
    && Family(OrEmpty(e.addresses), true) == Family(OrEmpty(d.addresses), true)
    && Defaults(OrEmpty(e.routes), false) == Defaults(OrEmpty(d.routes), false)
    && Family(Servers(e), true) == Family(Servers(d), true)
    && (d.nameservers.Some? && d.nameservers.value.rest != map[] ==>
          e.nameservers.Some? && e.nameservers.value.rest == d.nameservers.value.rest)
    && e == d.(dhcp4 := e.dhcp4, addresses := e.addresses, routes := e.routes, gateway4 := None,
               nameservers := e.nameservers, overrides4 := e.overrides4, overrides6 := e.overrides6)
    && (s.Static? ==> e.overrides4 == d.overrides4)
    && (d.overrides4.Some? ==> e.overrides4.Some? && e.overrides4.value.rest == d.overrides4.value.rest)
    && (if s.Dhcp? && d.dhcp6 == Some(true) && Renderer(doc, d) == "networkd"
        then e.overrides6.Some? && e.overrides6.value.useDns == Some(s.dns == [])
             && (d.overrides6.Some? ==> e.overrides6.value.rest == d.overrides6.value.rest)
        else e.overrides6 == d.overrides6)
  }

  // The statements of edit() on its copy of the definition, in their order.
  method EditTarget(doc: Document, d: Def, s: Settings) returns (r: Option<Def>)
    ensures r.Some? <==> Editable(d)
    ensures r.Some? ==> AsAsked(d, r.value, s) && Kept(doc, d, r.value, s)
    ensures r.Some? ==> r.value == Edited(doc, d, s)
  {
    var addresses := EditAddresses(d, s);
    var ok, routes := EditRoutes(d, s);
    if !ok { return None; }
    var nameservers := EditServers(d, s);
    var overrides4, overrides6 := EditOverrides(doc, d, s);
    r := Some(d.(dhcp4 := Some(s.Dhcp?), addresses := addresses, routes := routes, gateway4 := None,
                 nameservers := nameservers, overrides4 := overrides4, overrides6 := overrides6));
    EditMeaning(doc, d, s);
  }

  method EditAddresses(d: Def, s: Settings) returns (r: Option<seq<Ip>>)
    ensures r == OrAbsent(EditedAddresses(d, s))
  {
    var addresses := Family(OrEmpty(d.addresses), true);
    if s.Static? { addresses := addresses + [Ip(false, s.cidr)]; }
    assert addresses == EditedAddresses(d, s);
    r := if addresses != [] then Some(addresses) else None;
  }

  method EditRoutes(d: Def, s: Settings) returns (ok: bool, r: Option<seq<Route>>)
    ensures ok <==> Editable(d)
    ensures ok ==> r == OrAbsent(EditedRoutes(d, s))
  {
    var routes := OrEmpty(d.routes);
    if exists x | x in routes :: MainDefault(x).None? { return false, None; }
    var defaults := Defaults(routes, true);
    if |defaults| > 1 { return false, None; }
    var kept := Defaults(routes, false);
    if s.Static? && s.gateway.Some? {
      var route := if defaults != [] then defaults[0] else Route("default", None, None, map[]);
      route := route.(via := Some(Ip(false, s.gateway.value)));
      kept := kept + [route];
    }
    assert kept == EditedRoutes(d, s);
    ok, r := true, if kept != [] then Some(kept) else None;
  }

  method EditServers(d: Def, s: Settings) returns (r: Option<NameServers>)
    ensures r == EditedServers(d, s)
  {
    var nameservers := if d.nameservers.Some? then d.nameservers.value else NameServers(None, map[]);
    var servers := Family(OrEmpty(nameservers.addresses), true) + Plain(s.dns);
    nameservers := nameservers.(addresses := if servers == [] then None else Some(servers));
    r := if nameservers == NameServers(None, map[]) then None else Some(nameservers);
  }

  method EditOverrides(doc: Document, d: Def, s: Settings) returns (four: Option<Overrides>, six: Option<Overrides>)
    ensures four == Edited(doc, d, s).overrides4 && six == Edited(doc, d, s).overrides6
  {
    four, six := d.overrides4, d.overrides6;
    if s.Dhcp? {
      four := UseDns(four, s.dns == []);
      if d.dhcp6 == Some(true) && Renderer(doc, d) == "networkd" {
        six := UseDns(six, s.dns == []);
      }
    }
  }

  // edit(): the whole document with that one definition replaced, or an error.
  method Edit(doc: Document, s: Settings, mac: Option<string>) returns (r: Option<Document>)
    ensures r.Some? <==> exists key :: Describing(doc, s.interface, mac) == {key} && key in doc.defs && Editable(doc.defs[key])
    ensures r.Some? ==> forall key | Describing(doc, s.interface, mac) == {key} ::
              && key in doc.defs && key in r.value.defs
              && AsAsked(doc.defs[key], r.value.defs[key], s) && Kept(doc, doc.defs[key], r.value.defs[key], s)
              && r.value == doc.(defs := doc.defs[key := r.value.defs[key]])
    ensures r == EditSpec(doc, s, mac)
  {
    var key := Resolve(doc, s.interface, mac);
    if key.None? { return None; }
    var target := EditTarget(doc, doc.defs[key.value], s);
    r := if target.Some? then Some(doc.(defs := doc.defs[key.value := target.value])) else None;
  }

  lemma {:induction false} FamilyAppend(a: seq<Ip>, b: seq<Ip>, v6: bool)
    ensures Family(a + b, v6) == Family(a, v6) + Family(b, v6)
  {
    if a == [] {
      assert a + b == b;
    } else {
      FamilyAppend(a[1..], b, v6);
      assert (a + b)[1..] == a[1..] + b && (a + b)[0] == a[0];
      var first, x, y := if a[0].v6 == v6 then [a[0]] else [], Family(a[1..], v6), Family(b, v6);
      assert (first + x) + y == first + (x + y);
    }
  }

  lemma {:induction false} FamilyTwice(a: seq<Ip>, f: bool, g: bool)
    ensures Family(Family(a, f), g) == if f == g then Family(a, f) else []
  {
    if a != [] {
      FamilyTwice(a[1..], f, g);
      FamilyAppend(if a[0].v6 == f then [a[0]] else [], Family(a[1..], f), g);
    }
  }

  lemma {:induction false} DefaultsAppend(a: seq<Route>, b: seq<Route>, wanted: bool)
    ensures Defaults(a + b, wanted) == Defaults(a, wanted) + Defaults(b, wanted)
  {
    if a == [] {
      assert a + b == b;
    } else {
      DefaultsAppend(a[1..], b, wanted);
      assert (a + b)[1..] == a[1..] + b && (a + b)[0] == a[0];
      var first, x, y := if IsDefault(a[0]) == wanted then [a[0]] else [], Defaults(a[1..], wanted), Defaults(b, wanted);
      assert (first + x) + y == first + (x + y);
    }
  }

  lemma {:induction false} DefaultsTwice(a: seq<Route>, f: bool, g: bool)
    ensures Defaults(Defaults(a, f), g) == if f == g then Defaults(a, f) else []
    ensures forall r | r in Defaults(a, f) :: r in a && IsDefault(r) == f
  {
    if a != [] {
      DefaultsTwice(a[1..], f, g);
      DefaultsAppend(if IsDefault(a[0]) == f then [a[0]] else [], Defaults(a[1..], f), g);
    }
  }

  lemma {:induction false} PlainIsV4(addresses: seq<string>)
    ensures Family(Plain(addresses), true) == [] && Family(Plain(addresses), false) == Plain(addresses)
    ensures |Plain(addresses)| == |addresses|
  {
    if addresses != [] { PlainIsV4(addresses[1..]); }
  }

  // The new IPv4 part, appended to what was kept.
  function NewAddresses(s: Settings): seq<Ip> { if s.Static? then [Ip(false, s.cidr)] else [] }

  lemma AddressesEdited(d: Def, s: Settings)
    ensures Family(EditedAddresses(d, s), true) == Family(OrEmpty(d.addresses), true)
    ensures Family(EditedAddresses(d, s), false) == NewAddresses(s)
  {
    var kept := Family(OrEmpty(d.addresses), true);
    FamilyTwice(OrEmpty(d.addresses), true, true);
    FamilyTwice(OrEmpty(d.addresses), true, false);
    FamilyAppend(kept, NewAddresses(s), true);
    FamilyAppend(kept, NewAddresses(s), false);
  }

  lemma RoutesEdited(d: Def, s: Settings)
    requires Editable(d)
    ensures Defaults(EditedRoutes(d, s), false) == Defaults(OrEmpty(d.routes), false)
    ensures Defaults(EditedRoutes(d, s), true) == NewRoutes(d, s)
    ensures forall r | r in EditedRoutes(d, s) :: MainDefault(r).Some?
  {
    var routes := OrEmpty(d.routes);
    DefaultsTwice(routes, false, false);
    DefaultsTwice(routes, false, true);
    DefaultsTwice(routes, true, true);
    DefaultsAppend(Defaults(routes, false), NewRoutes(d, s), true);
    DefaultsAppend(Defaults(routes, false), NewRoutes(d, s), false);
    var defaults := Defaults(routes, true);
    if defaults != [] { assert defaults[0] in defaults; }
  }

  function Servers(d: Def): seq<Ip> { if d.nameservers.Some? then OrEmpty(d.nameservers.value.addresses) else [] }

  lemma ServersEdited(doc: Document, d: Def, s: Settings)
    ensures Servers(Edited(doc, d, s)) == Family(Servers(d), true) + Plain(s.dns)
    ensures Family(Servers(Edited(doc, d, s)), true) == Family(Servers(d), true)
    ensures Family(Servers(Edited(doc, d, s)), false) == Plain(s.dns)
  {
    FamilyTwice(Servers(d), true, true);
    FamilyTwice(Servers(d), true, false);
    FamilyAppend(Family(Servers(d), true), Plain(s.dns), true);
    FamilyAppend(Family(Servers(d), true), Plain(s.dns), false);
    PlainIsV4(s.dns);
  }

  // The edit, by what it means: the IPv4 part of the definition is exactly what was asked for,
  // and everything else stays, in its order.
  lemma EditMeaning(doc: Document, d: Def, s: Settings)
    requires Editable(d)
    ensures AsAsked(d, Edited(doc, d, s), s) && Kept(doc, d, Edited(doc, d, s), s)
  {
    AddressesEdited(d, s);
    RoutesEdited(d, s);
    ServersEdited(doc, d, s);
  }

  lemma EditedStaysEditable(doc: Document, d: Def, s: Settings)
    requires Editable(d)
    ensures Editable(Edited(doc, d, s))
    ensures Edited(doc, Edited(doc, d, s), s) == Edited(doc, d, s)
  {
    var e := Edited(doc, d, s);
    AddressesEdited(d, s);
    RoutesEdited(d, s);
    ServersEdited(doc, d, s);
    assert OrEmpty(e.addresses) == EditedAddresses(d, s) && OrEmpty(e.routes) == EditedRoutes(d, s);
    assert EditedAddresses(e, s) == EditedAddresses(d, s);
    assert EditedRoutes(e, s) == EditedRoutes(d, s);
    assert EditedServers(e, s) == EditedServers(d, s);
  }

  // Editing again with the same settings changes nothing.
  lemma EditIdempotent(doc: Document, s: Settings, mac: Option<string>)
    requires EditSpec(doc, s, mac).Some?
    ensures EditSpec(EditSpec(doc, s, mac).value, s, mac) == EditSpec(doc, s, mac)
  {
    var key := Resolve(doc, s.interface, mac).value;
    var once := EditSpec(doc, s, mac).value;
    EditedStaysEditable(doc, doc.defs[key], s);
    assert Describing(once, s.interface, mac) == Describing(doc, s.interface, mac);
    assert once.defs[key] == Edited(doc, doc.defs[key], s);
    assert Edited(once, once.defs[key], s) == Edited(doc, once.defs[key], s);
    assert once.defs[key := once.defs[key]] == once.defs;
  }

  // The edit touches the one definition the interface resolves to, and nothing else.
  lemma EditTouchesOne(doc: Document, s: Settings, mac: Option<string>)
    requires EditSpec(doc, s, mac).Some?
    ensures var r := EditSpec(doc, s, mac).value;
            && r.renderer == doc.renderer && r.rest == doc.rest && r.defs.Keys == doc.defs.Keys
            && forall key | key in doc.defs && key !in Describing(doc, s.interface, mac) :: r.defs[key] == doc.defs[key]
    ensures Describing(EditSpec(doc, s, mac).value, s.interface, mac) == Describing(doc, s.interface, mac)
  {
    var r := EditSpec(doc, s, mac).value;
    forall key | key in doc.defs
      ensures Describes(key, r.defs[key], s.interface, mac) == Describes(key, doc.defs[key], s.interface, mac)
    {
    }
  }
}
