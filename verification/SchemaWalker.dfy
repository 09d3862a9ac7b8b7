/** The schema walk as it runs (internal/provider/gemini_schema.go: geminiSchemaWalk): a budget, a definition table
    and a set of dropped keywords changed on the way, and maps read in whatever order they come. Each method leaves
    the state and the node that GeminiSchema's functions say, so the order never shows. */
module SchemaWalker {
  import opened Basics
  import opened JsonDoc
  import KeyOrder
  import opened GeminiSchema

  // ---- Loops that change no state ----

  method ResolveType(members: map<string, Json>) returns (typ: string, nullable: bool)
    ensures Typing(typ, nullable) == NodeType(members)
  {
    typ, nullable := "", false;
    if "type" !in members {
      return;
    }
    var s := AsString(members["type"]);
    if s.Some? {
      if s.value == "null" {
        return "string", true;
      }
      return s.value, false;
    }
    var decoded := AsStrings(members["type"]);
    if decoded.None? {
      return;
    }
    var list := decoded.value;
    for i := 0 to |list|
      invariant FirstReal(list) == if typ != "" then typ else FirstReal(list[i..])
      invariant nullable <==> "null" in list[..i]
    {
      assert list[i..][1..] == list[i + 1..] && list[..i + 1] == list[..i] + [list[i]];
      if list[i] == "null" {
        nullable := true;
      } else if typ == "" {
        typ := list[i];
      }
    }
    assert list[..|list|] == list;
  }

  /** The second map over the first, as far as its members are not still to come. */
  ghost predicate Overlaid<V>(r: map<string, V>, props: map<string, V>, more: map<string, V>, todo: set<string>) {
    && (forall p :: p in r <==> p in props || (p in more && p !in todo))
    && (forall p :: p in more && p !in todo && p in r ==> r[p] == more[p])
    && (forall p :: p in props && (p !in more || p in todo) && p in r ==> r[p] == props[p])
  }

  lemma AllOverlaid<V>(r: map<string, V>, props: map<string, V>, more: map<string, V>)
    requires Overlaid(r, props, more, {})
    ensures r == props + more
  {
    assert r.Keys == (props + more).Keys;
  }

  /** One map over another, its members taken in any order. */
  method OverlayProps<V>(props: map<string, V>, more: map<string, V>) returns (r: map<string, V>)
    ensures r == props + more
  {
    r := props;
    var todo := more.Keys;
    while todo != {}
      invariant todo <= more.Keys && Overlaid(r, props, more, todo)
      decreases |todo|
    {
      var p :| p in todo;
      r := r[p := more[p]];
      todo := todo - {p};
    }
    AllOverlaid(r, props, more);
  }

  method AppendNew(names: seq<string>, seen: set<string>, more: seq<string>) returns (r: seq<string>, seen': set<string>)
    requires seen == set x | x in names
    ensures r == AddNames(names, more) && seen' == set x | x in r
  {
    r, seen' := names, seen;
    for i := 0 to |more|
      invariant AddNames(names, more) == AddNames(r, more[i..])
      invariant seen' == set x | x in r
    {
      assert more[i..][0] == more[i] && more[i..][1..] == more[i + 1..];
      if more[i] !in seen' {
        seen' := seen' + {more[i]};
        r := r + [more[i]];
      }
    }
  }

  method Fold(n: Node, nodes: seq<Node>) returns (r: Node)
    requires AllObjects(nodes)
    ensures r == Merged(n, nodes)
  {
    var props, required := PropsIn(n), RequiredIn(n);
    var seen := set x | x in required;
    for i := 0 to |nodes|
      invariant AddProps(PropsIn(n), nodes) == AddProps(props, nodes[i..])
      invariant AddRequired(RequiredIn(n), nodes) == AddRequired(required, nodes[i..])
      invariant seen == set x | x in required
    {
      assert nodes[i..][0] == nodes[i] && nodes[i..][1..] == nodes[i + 1..];
      props := OverlayProps(props, PropsIn(nodes[i]));
      required, seen := AppendNew(required, seen, RequiredIn(nodes[i]));
    }
    r := n[Type := Text("object")][Properties := Props(props)];
    if required != [] {
      r := r[Required := Texts(required)];
    }
  }

  // ---- The walk ----

  /** The definitions of these names are filed over the table, the rest of it untouched. */
  ghost predicate FiledOver(start: map<string, Json>, declared: map<string, Json>, names: set<string>, base: string, r: map<string, Json>)
    requires names <= declared.Keys
  {
    && (forall p :: p in r <==> p in start || exists name :: name in names && p == Child(base, name))
    && (forall name :: name in names ==> Child(base, name) in r && r[Child(base, name)] == declared[name])
    && (forall p :: p in start && (forall name :: name in names ==> p != Child(base, name)) ==> p in r && r[p] == start[p])
  }

  lemma FiledIs(start: map<string, Json>, declared: map<string, Json>, base: string, r: map<string, Json>)
    requires FiledOver(start, declared, declared.Keys, base, r)
    ensures r == start + Filed(declared, base)
  {
    var f := Filed(declared, base);
    forall name | name in declared ensures Child(base, name) in f && f[Child(base, name)] == declared[name] {
      FiledAt(declared, base, name);
    }
    assert r.Keys == (start + f).Keys;
  }

  lemma FileOne(start: map<string, Json>, declared: map<string, Json>, names: set<string>, base: string, r: map<string, Json>, name: string)
    requires names <= declared.Keys && name in declared && name !in names && FiledOver(start, declared, names, base, r)
    ensures FiledOver(start, declared, names + {name}, base, r[Child(base, name) := declared[name]])
  {
    forall other | other in names ensures Child(base, other) != Child(base, name) {
      if Child(base, other) == Child(base, name) {
        ChildInjective(base, base, other, name);
      }
    }
  }

  lemma ViaObject(sub: Sub, w: Walk, raw: Json, depth: nat, site: Site)
    requires w.budget > 0 && raw.JObj?
    ensures NodeVia(sub, w, raw, depth, site) ==
      Rewrite(sub, Collect(Expand(w, raw, depth, site), raw.members, site.path), raw.members, depth, site)
  {
  }

  lemma NextProp(sub: Sub, w: Walk, props: map<string, Json>, names: seq<string>, i: nat, site: Site, done: map<string, Node>, r: Out)
    requires i < |names| && forall name :: name in names ==> name in props
    requires r == sub(w, props[names[i]], At(site, names[i]))
    ensures PropsOf(sub, w, props, names[i..], site, done) == PropsOf(sub, r.w, props, names[i + 1..], site, done[names[i] := r.node])
  {
    assert names[i..][0] == names[i] && names[i..][1..] == names[i + 1..];
  }

  lemma NextKeyword(sub: Sub, acc: Acc, members: map<string, Json>, keys: seq<string>, i: nat, site: Site, nullable: bool, r: Acc)
    requires i < |keys| && forall k :: k in keys ==> k in members
    requires r == Keyword(sub, acc, KeyOf(keys[i]), keys[i], members[keys[i]], site, nullable)
    ensures Keywords(sub, acc, members, keys[i..], site, nullable) == Keywords(sub, r, members, keys[i + 1..], site, nullable)
  {
    assert keys[i..][0] == keys[i] && keys[i..][1..] == keys[i + 1..];
  }

  class Walker {
    var budget: nat
    var defs: map<string, Json>
    var dropped: set<string>
    ghost var log: seq<Visit>

    ghost function State(): Walk
      reads this
    {
      Walk(budget, defs, dropped, log)
    }

    constructor ()
      ensures State() == Walk(MAX_NODES, map[], {}, [])
    {
      budget, defs, dropped, log := MAX_NODES, map[], {}, [];
    }

    method Drop(keyword: string)
      modifies this
      ensures State() == GeminiSchema.Drop(old(State()), keyword)
    {
      dropped := dropped + {keyword};
    }

    /** Definitions are filed in any order: no two share a pointer. */
    method FileDefs(declared: map<string, Json>, base: string)
      modifies this
      ensures State() == old(State()).(defs := old(defs) + Filed(declared, base))
    {
      var todo := declared.Keys;
      while todo != {}
        invariant todo <= declared.Keys && State() == old(State()).(defs := defs)
        invariant FiledOver(old(defs), declared, declared.Keys - todo, base, defs)
        decreases |todo|
      {
        var name :| name in todo;
        FileOne(old(defs), declared, declared.Keys - todo, base, defs, name);
        assert declared.Keys - (todo - {name}) == declared.Keys - todo + {name};
        defs := defs[Child(base, name) := declared[name]];
        todo := todo - {name};
      }
      assert declared.Keys - todo == declared.Keys;
      FiledIs(old(defs), declared, base, defs);
    }

    method CollectDefs(members: map<string, Json>, path: string)
      modifies this
      ensures State() == Collect(old(State()), members, path)
    {
      FileDefs(Declared(members, "$defs"), Child(path, "$defs"));
      FileDefs(Declared(members, "definitions"), Child(path, "definitions"));
    }

    /** The keywords that hold no schema. */
    method PlainKeyword(node: Node, typ: string, k: Key, name: string, v: Json, nullable: bool)
      returns (node': Node, typ': string)
      modifies this
      ensures Acc(State(), node', typ') == Plain(Acc(old(State()), node, typ), k, name, v, nullable)
    {
      node', typ' := node, typ;
      match k
      case Type | Defs | Definitions | AllOf | Format =>
      case Required =>
        var list := AsStrings(v);
        if list.None? {
          Drop(name);
        } else if list.value != [] {
          node' := node[Required := Texts(list.value)];
        }
      case Const =>
        if v.JStr? {
          node' := node[Enum := Texts([v.s])];
        } else if !v.JNull? && typ == "" {
          typ' := ConstType(v);
          node' := node[Type := Text(typ')];
        } else {
          Drop(name);
        }
      case ExclusiveMinimum => node' := Keep(node, name, Minimum, v);
      case ExclusiveMaximum => node' := Keep(node, name, Maximum, v);
      case _ =>
        if k != Nullable || !nullable {
          node' := Keep(node, name, k, v);
        }
    }

    method Keep(node: Node, name: string, k: Key, v: Json) returns (node': Node)
      modifies this
      ensures forall typ :: Acc(State(), node', typ) == Kept(Acc(old(State()), node, typ), name, k, v)
    {
      node' := node;
      var value := Scalar(k, v);
      if value.None? {
        Drop(name);
      } else {
        node' := node[k := value.value];
      }
    }

    method Close(node: Node, typ: string, members: map<string, Json>) returns (out: Node)
      modifies this
      ensures Out(State(), out) == Finish(Acc(old(State()), node, typ), members)
    {
      out := node;
      if "format" in members {
        var f := AsString(members["format"]);
        if f.Some? && f.value in Formats(typ) {
          out := out[Format := Text(f.value)];
        } else {
          Drop("format");
        }
      }
      if Enum in out {
        if AnyOf in out {
          out := out - {Enum};
          Drop("enum");
        } else if Type !in out {
          out := out[Type := Text("string")];
        } else if out[Type] != Text("string") {
          out := out - {Enum};
          Drop("enum");
        }
      }
      if out == map[] {
        out := map[Type := Text("object")];
      }
      if Type !in out && AnyOf !in out {
        out := out[Type := Text(InferType(out))];
      }
    }

    method Node(ghost f: Sub, raw: Json, depth: nat, site: Site) returns (out: Node)
      requires Level(f, depth)
      modifies this
      ensures Out(State(), out) == f(old(State()), raw, site)
      decreases MAX_DEPTH + 1 - depth, 4
    {
      assert Asked(f, State(), raw, site);
      if depth > MAX_DEPTH {
        out := Stub(ELIDED);
      } else {
        ghost var sub :| Level(sub, depth + 1) && Steps(f, sub, depth);
        out := NodeWithin(sub, raw, depth, site);
      }
    }

    method TakeNode(raw: Json, depth: nat, site: Site)
      requires budget > 0
      modifies this
      ensures State() == Expand(old(State()), raw, depth, site)
    {
      budget := budget - 1;
      log := log + [Visit(depth, site.chain, site.path, raw)];
    }

    method NodeWithin(ghost sub: Sub, raw: Json, depth: nat, site: Site) returns (out: Node)
      requires depth <= MAX_DEPTH && Level(sub, depth + 1)
      modifies this
      ensures Out(State(), out) == NodeVia(sub, old(State()), raw, depth, site)
      decreases MAX_DEPTH + 1 - depth, 3
    {
      if budget == 0 {
        Drop("(truncated)");
        out := Stub(TRUNCATED);
      } else {
        TakeNode(raw, depth, site);
        if raw.JObj? {
          CollectDefs(raw.members, site.path);
          ViaObject(sub, old(State()), raw, depth, site);
          out := RewriteObject(sub, raw.members, depth, site);
        } else {
          out := map[Type := Text("object")];
        }
      }
    }

    method RewriteObject(ghost sub: Sub, members: map<string, Json>, depth: nat, site: Site) returns (out: Node)
      requires depth <= MAX_DEPTH && Level(sub, depth + 1)
      modifies this
      ensures Out(State(), out) == Rewrite(sub, old(State()), members, depth, site)
      decreases MAX_DEPTH + 1 - depth, 2
    {
      if "$ref" in members {
        out := Inline(sub, members["$ref"], depth, site);
        return;
      }
      var typ, nullable := ResolveType(members);
      var node := map[];
      if typ != "" {
        node := node[Type := Text(typ)];
      }
      if nullable {
        node := node[Nullable := Flag(true)];
      }
      assert node == Start(NodeType(members));
      var keys := KeyOrder.SortedKeys(members.Keys);
      node, typ := EachKeyword(sub, node, typ, members, keys, depth, site, nullable);
      node := MergeBranches(sub, node, typ, members, depth, site);
      out := Close(node, typ, members);
    }

    method Inline(ghost sub: Sub, ref: Json, depth: nat, site: Site) returns (out: Node)
      requires depth <= MAX_DEPTH && Level(sub, depth + 1)
      modifies this
      ensures Out(State(), out) == InlineRef(sub, old(State()), ref, depth, site)
      decreases MAX_DEPTH + 1 - depth, 0
    {
      var p := AsString(ref);
      if p.None? {
        out := Stub(ELIDED);
      } else if p.value !in defs {
        out := Stub(UNRESOLVED);
      } else if p.value in site.chain || depth >= MAX_DEPTH {
        out := Stub(ELIDED);
      } else {
        out := Node(sub, defs[p.value], depth + 1, Site(site.chain + [p.value], p.value));
      }
    }

    method EachKeyword(ghost sub: Sub, node0: Node, typ0: string, members: map<string, Json>, keys: seq<string>, depth: nat,
                       site: Site, nullable: bool)
      returns (node: Node, typ: string)
      requires depth <= MAX_DEPTH && Level(sub, depth + 1) && forall k :: k in keys ==> k in members
      modifies this
      ensures Acc(State(), node, typ) ==
        Keywords(sub, Acc(old(State()), node0, typ0), members, keys, site, nullable)
      decreases MAX_DEPTH + 1 - depth, 1
    {
      node, typ := node0, typ0;
      ghost var goal := Keywords(sub, Acc(State(), node, typ), members, keys, site, nullable);
      assert keys[0..] == keys && keys[|keys|..] == [];
      for i := 0 to |keys|
        invariant goal == Keywords(sub, Acc(State(), node, typ), members, keys[i..], site, nullable)
      {
        var name := keys[i];
        ghost var acc := Acc(State(), node, typ);
        node, typ := OneKeyword(sub, node, typ, KeyOf(name), name, members[name], depth, site, nullable);
        NextKeyword(sub, acc, members, keys, i, site, nullable, Acc(State(), node, typ));
      }
    }

    method OneKeyword(ghost sub: Sub, node: Node, typ: string, k: Key, name: string, v: Json, depth: nat, site: Site, nullable: bool)
      returns (node': Node, typ': string)
      requires depth <= MAX_DEPTH && Level(sub, depth + 1)
      modifies this
      ensures Acc(State(), node', typ') ==
        Keyword(sub, Acc(old(State()), node, typ), k, name, v, site, nullable)
      decreases MAX_DEPTH + 1 - depth, 0, 2
    {
      node', typ' := node, typ;
      if k.Items? {
        var n := Node(sub, v, depth + 1, At(site, name));
        node' := node[Items := One(n)];
      } else if k.Properties? {
        var props := AsMap(v);
        if props.None? {
          Drop(name);
        } else {
          var cleaned := EachProperty(sub, props.value, depth, At(site, name));
          if cleaned != map[] {
            node' := node[Properties := Props(cleaned)];
          }
        }
      } else if k.AnyOf? || k.OneOf? {
        var list := AsList(v);
        if list.None? || list.value == [] {
          Drop(name);
        } else {
          var nodes := EachBranch(sub, list.value, depth, At(site, name));
          node' := node[AnyOf := Many(nodes)];
        }
      } else {
        node', typ' := PlainKeyword(node, typ, k, name, v, nullable);
      }
    }

    method EachProperty(ghost sub: Sub, props: map<string, Json>, depth: nat, site: Site) returns (cleaned: map<string, Node>)
      requires depth <= MAX_DEPTH && Level(sub, depth + 1)
      modifies this
      ensures Named(State(), cleaned) ==
        PropsOf(sub, old(State()), props, KeyOrder.Sorted(props.Keys), site, map[])
      decreases MAX_DEPTH + 1 - depth, 0, 1
    {
      cleaned := map[];
      var names := KeyOrder.SortedKeys(props.Keys);
      ghost var goal := PropsOf(sub, State(), props, names, site, cleaned);
      for i := 0 to |names|
        invariant goal == PropsOf(sub, State(), props, names[i..], site, cleaned)
      {
        ghost var w := State();
        var n := Node(sub, props[names[i]], depth + 1, At(site, names[i]));
        NextProp(sub, w, props, names, i, site, cleaned, Out(State(), n));
        cleaned := cleaned[names[i] := n];
      }
    }

    method EachBranch(ghost sub: Sub, list: seq<Json>, depth: nat, site: Site) returns (nodes: seq<Node>)
      requires depth <= MAX_DEPTH && Level(sub, depth + 1)
      modifies this
      ensures Listed(State(), nodes) == Branches(sub, old(State()), list, 0, site, [])
      decreases MAX_DEPTH + 1 - depth, 0, 1
    {
      nodes := [];
      ghost var goal := Branches(sub, State(), list, 0, site, nodes);
      for i := 0 to |list|
        invariant goal == Branches(sub, State(), list, i, site, nodes)
      {
        var n := Node(sub, list[i], depth + 1, At(site, Itoa(i)));
        nodes := nodes + [n];
      }
    }

    method MergeBranches(ghost sub: Sub, node: Node, typ: string, members: map<string, Json>, depth: nat, site: Site) returns (node': Node)
      requires depth <= MAX_DEPTH && Level(sub, depth + 1)
      modifies this
      ensures Acc(State(), node', typ) == MergeAllOf(sub, Acc(old(State()), node, typ), members, site)
      decreases MAX_DEPTH + 1 - depth, 1
    {
      node' := node;
      if "allOf" !in members {
        return;
      }
      var list := AsList(members["allOf"]);
      if list.None? || list.value == [] {
        Drop("allOf");
        return;
      }
      var nodes := EachBranch(sub, list.value, depth, At(site, "allOf"));
      if AllObjects(nodes) {
        node' := Fold(node, nodes);
      } else {
        node' := node[AnyOf := Many(nodes)];
      }
    }
  }

  /** One document, one result, whatever order any of its maps is read in. */
  method Sanitise(raw: Json) returns (out: Node, dropped: set<string>)
    ensures forall w, depth, site :: Fresh(w, depth, site) ==>
      out == NodeOf(w, raw, depth, site).node && dropped == NodeOf(w, raw, depth, site).w.dropped
  {
    var walker := new Walker();
    ghost var depth := 0;
    ghost var f: Sub := (w, raw, site) => NodeOf(w, raw, depth, site);
    WalkIsLevel(f, depth);
    out := walker.Node(f, raw, 0, Site([], "#"));
    dropped := walker.dropped;
  }
}
