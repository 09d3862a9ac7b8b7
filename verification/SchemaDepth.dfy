/** What is left of a schema at the depth bound (internal/provider/gemini_schema.go: geminiElidedNode): everything the
    walk emits nine levels down is one and the same stub. An allOf that is folded into its node, and a reference that
    is inlined, only move nodes up. */
module SchemaDepth {
  import opened Basics
  import opened JsonDoc
  import KeyOrder
  import opened GeminiSchema

  /** The tree ends after this many levels, and what is down there is this node. */
  ghost predicate Capped(n: Node, levels: nat, bottom: Node)
    decreases levels, 1, n
  {
    (levels == 0 ==> n == bottom) && forall k :: k in n ==> ValueCapped(n[k], levels, bottom)
  }

  ghost predicate ValueCapped(v: Value, levels: nat, bottom: Node)
    decreases levels, 0, v
  {
    match v
    case One(node) => levels > 0 && Capped(node, levels - 1, bottom)
    case Props(props) => levels > 0 && forall p :: p in props ==> Capped(props[p], levels - 1, bottom)
    case Many(nodes) => levels > 0 && forall i :: 0 <= i < |nodes| ==> Capped(nodes[i], levels - 1, bottom)
    case _ => true
  }

  ghost predicate PropsCapped(props: map<string, Node>, levels: nat, bottom: Node)
  {
    forall p :: p in props ==> Capped(props[p], levels, bottom)
  }

  ghost predicate AllCapped(nodes: seq<Node>, levels: nat, bottom: Node)
  {
    forall i :: 0 <= i < |nodes| ==> Capped(nodes[i], levels, bottom)
  }

  /** The node holds no schema. */
  predicate Flat(n: Node) {
    forall k :: k in n ==> !n[k].One? && !n[k].Props? && !n[k].Many?
  }

  ghost predicate FieldsCapped(n: Node, levels: nat, bottom: Node) {
    forall k :: k in n ==> ValueCapped(n[k], levels, bottom)
  }

  lemma {:induction false} CappedMono(n: Node, a: nat, b: nat, bottom: Node)
    requires Capped(n, a, bottom) && a <= b && Flat(bottom)
    ensures Capped(n, b, bottom)
    decreases a
  {
    forall k | k in n ensures ValueCapped(n[k], b, bottom) {
      ValueMono(n[k], a, b, bottom);
    }
  }

  lemma {:induction false} ValueMono(v: Value, a: nat, b: nat, bottom: Node)
    requires ValueCapped(v, a, bottom) && a <= b && Flat(bottom)
    ensures ValueCapped(v, b, bottom)
    decreases a, 0
  {
    if v.One? {
      CappedMono(v.node, a - 1, b - 1, bottom);
    } else if v.Props? {
      forall p | p in v.props ensures Capped(v.props[p], b - 1, bottom) {
        CappedMono(v.props[p], a - 1, b - 1, bottom);
      }
    } else if v.Many? {
      forall i | 0 <= i < |v.nodes| ensures Capped(v.nodes[i], b - 1, bottom) {
        CappedMono(v.nodes[i], a - 1, b - 1, bottom);
      }
    }
  }

  // ---- One level ----

  ghost predicate SubCapped(sub: Sub, levels: nat, bottom: Node) {
    forall w, raw, site :: Capped(sub(w, raw, site).node, levels, bottom)
  }

  lemma PutCapped(n: Node, k: Key, v: Value, levels: nat, bottom: Node)
    requires FieldsCapped(n, levels, bottom) && ValueCapped(v, levels, bottom)
    ensures FieldsCapped(n[k := v], levels, bottom)
  {
  }

  lemma {:induction false} PropsOfCapped(sub: Sub, w: Walk, props: map<string, Json>, names: seq<string>, site: Site,
                                         done: map<string, Node>, levels: nat, bottom: Node)
    requires SubCapped(sub, levels, bottom) && PropsCapped(done, levels, bottom) && forall name :: name in names ==> name in props
    ensures PropsCapped(PropsOf(sub, w, props, names, site, done).props, levels, bottom)
    decreases |names|
  {
    if names != [] {
      var r := sub(w, props[names[0]], At(site, names[0]));
      PropsOfCapped(sub, r.w, props, names[1..], site, done[names[0] := r.node], levels, bottom);
    }
  }

  lemma {:induction false} BranchesCapped(sub: Sub, w: Walk, list: seq<Json>, i: nat, site: Site, done: seq<Node>, levels: nat,
                                          bottom: Node)
    requires SubCapped(sub, levels, bottom) && i <= |list| && AllCapped(done, levels, bottom)
    ensures AllCapped(Branches(sub, w, list, i, site, done).nodes, levels, bottom)
    decreases |list| - i
  {
    if i < |list| {
      var r := sub(w, list[i], At(site, Itoa(i)));
      BranchesCapped(sub, r.w, list, i + 1, site, done + [r.node], levels, bottom);
    }
  }

  /** A keyword that holds no schema puts none. */
  lemma PlainCapped(acc: Acc, k: Key, name: string, v: Json, nullable: bool, levels: nat, bottom: Node)
    requires FieldsCapped(acc.node, levels, bottom)
    ensures FieldsCapped(Plain(acc, k, name, v, nullable).node, levels, bottom)
  {
  }

  lemma ObjectCapped(sub: Sub, acc: Acc, name: string, v: Json, site: Site, levels: nat, bottom: Node)
    requires SubCapped(sub, levels, bottom) && FieldsCapped(acc.node, levels + 1, bottom)
    ensures FieldsCapped(Object(sub, acc, name, v, site).node, levels + 1, bottom)
  {
    if AsMap(v).Some? {
      var props, names := AsMap(v).value, KeyOrder.Sorted(AsMap(v).value.Keys);
      PropsOfCapped(sub, acc.w, props, names, site, map[], levels, bottom);
      PutCapped(acc.node, Properties, Props(PropsOf(sub, acc.w, props, names, site, map[]).props), levels + 1, bottom);
    }
  }

  lemma UnionCapped(sub: Sub, acc: Acc, name: string, v: Json, site: Site, levels: nat, bottom: Node)
    requires SubCapped(sub, levels, bottom) && FieldsCapped(acc.node, levels + 1, bottom)
    ensures FieldsCapped(Union(sub, acc, name, v, site).node, levels + 1, bottom)
  {
    if AsList(v).Some? {
      BranchesCapped(sub, acc.w, AsList(v).value, 0, site, [], levels, bottom);
      PutCapped(acc.node, AnyOf, Many(Branches(sub, acc.w, AsList(v).value, 0, site, []).nodes), levels + 1, bottom);
    }
  }

  lemma KeywordCapped(sub: Sub, acc: Acc, k: Key, name: string, v: Json, site: Site, nullable: bool, levels: nat, bottom: Node)
    requires SubCapped(sub, levels, bottom) && FieldsCapped(acc.node, levels + 1, bottom)
    ensures FieldsCapped(Keyword(sub, acc, k, name, v, site, nullable).node, levels + 1, bottom)
  {
    if k.Items? {
      PutCapped(acc.node, Items, One(sub(acc.w, v, At(site, name)).node), levels + 1, bottom);
    } else if k.Properties? {
      ObjectCapped(sub, acc, name, v, At(site, name), levels, bottom);
    } else if k.AnyOf? || k.OneOf? {
      UnionCapped(sub, acc, name, v, At(site, name), levels, bottom);
    } else {
      PlainCapped(acc, k, name, v, nullable, levels + 1, bottom);
    }
  }

  lemma {:induction false} KeywordsCapped(sub: Sub, acc: Acc, members: map<string, Json>, keys: seq<string>, site: Site,
                                          nullable: bool, levels: nat, bottom: Node)
    requires forall k :: k in keys ==> k in members
    requires SubCapped(sub, levels, bottom) && FieldsCapped(acc.node, levels + 1, bottom)
    ensures FieldsCapped(Keywords(sub, acc, members, keys, site, nullable).node, levels + 1, bottom)
    decreases |keys|
  {
    if keys != [] {
      var k, name, v := KeyOf(keys[0]), keys[0], members[keys[0]];
      KeywordCapped(sub, acc, k, name, v, site, nullable, levels, bottom);
      KeywordsCapped(sub, Keyword(sub, acc, k, name, v, site, nullable), members, keys[1..], site, nullable, levels, bottom);
    }
  }

  /** Folding lifts the branches' properties a level. */
  lemma {:induction false} AddPropsCapped(props: map<string, Node>, nodes: seq<Node>, levels: nat, bottom: Node)
    requires PropsCapped(props, levels, bottom) && AllCapped(nodes, levels, bottom) && Flat(bottom)
    ensures PropsCapped(AddProps(props, nodes), levels, bottom)
    decreases |nodes|
  {
    if nodes != [] {
      LiftedCapped(nodes[0], levels, bottom);
      AddPropsCapped(props + PropsIn(nodes[0]), nodes[1..], levels, bottom);
    }
  }

  lemma LiftedCapped(n: Node, levels: nat, bottom: Node)
    requires Capped(n, levels, bottom) && Flat(bottom)
    ensures PropsCapped(PropsIn(n), levels, bottom)
  {
    if Properties in n && n[Properties].Props? {
      var v := n[Properties];
      assert ValueCapped(v, levels, bottom);
      forall p | p in v.props ensures Capped(v.props[p], levels, bottom) {
        CappedMono(v.props[p], levels - 1, levels, bottom);
      }
    }
  }

  lemma MergedCapped(n: Node, nodes: seq<Node>, levels: nat, bottom: Node)
    requires FieldsCapped(n, levels + 1, bottom) && AllCapped(nodes, levels, bottom) && Flat(bottom)
    ensures FieldsCapped(Merged(n, nodes), levels + 1, bottom)
  {
    assert Properties in n ==> ValueCapped(n[Properties], levels + 1, bottom);
    AddPropsCapped(PropsIn(n), nodes, levels, bottom);
    var props := Props(AddProps(PropsIn(n), nodes));
    PutCapped(n, AnyOf, Many(nodes), levels + 1, bottom);
    PutCapped(n, Type, Text("object"), levels + 1, bottom);
    PutCapped(n[Type := Text("object")], Properties, props, levels + 1, bottom);
  }

  lemma FinishCapped(acc: Acc, members: map<string, Json>, levels: nat, bottom: Node)
    requires FieldsCapped(acc.node, levels, bottom)
    ensures FieldsCapped(Finish(acc, members).node, levels, bottom)
  {
    var formatted := AddFormat(acc, members).node;
    assert FieldsCapped(formatted, levels, bottom);
    assert FieldsCapped(SettleEnum(AddFormat(acc, members)).node, levels, bottom);
  }

  lemma StubCapped(description: string, levels: nat, bottom: Node)
    requires levels > 0
    ensures Capped(Stub(description), levels, bottom)
  {
  }

  lemma InlineRefCapped(sub: Sub, w: Walk, ref: Json, depth: nat, site: Site, levels: nat, bottom: Node)
    requires SubCapped(sub, levels, bottom) && Flat(bottom)
    ensures Capped(InlineRef(sub, w, ref, depth, site).node, levels + 1, bottom)
  {
    StubCapped(ELIDED, levels + 1, bottom);
    StubCapped(UNRESOLVED, levels + 1, bottom);
    if AsString(ref).Some? && AsString(ref).value in w.defs {
      var p := AsString(ref).value;
      CappedMono(sub(w, w.defs[p], Site(site.chain + [p], p)).node, levels, levels + 1, bottom);
    }
  }

  lemma RewriteCapped(sub: Sub, w: Walk, members: map<string, Json>, depth: nat, site: Site, levels: nat, bottom: Node)
    requires SubCapped(sub, levels, bottom) && Flat(bottom)
    ensures Capped(Rewrite(sub, w, members, depth, site).node, levels + 1, bottom)
  {
    if "$ref" in members {
      InlineRefCapped(sub, w, members["$ref"], depth, site, levels, bottom);
    } else {
      var t := NodeType(members);
      var keys := KeyOrder.Sorted(members.Keys);
      var start := Acc(w, Start(t), t.typ);
      KeywordsCapped(sub, start, members, keys, site, t.nullable, levels, bottom);
      var acc := Keywords(sub, start, members, keys, site, t.nullable);
      MergeAllOfCapped(sub, acc, members, site, levels, bottom);
      FinishCapped(MergeAllOf(sub, acc, members, site), members, levels + 1, bottom);
    }
  }

  lemma MergeAllOfCapped(sub: Sub, acc: Acc, members: map<string, Json>, site: Site, levels: nat, bottom: Node)
    requires SubCapped(sub, levels, bottom) && FieldsCapped(acc.node, levels + 1, bottom) && Flat(bottom)
    ensures FieldsCapped(MergeAllOf(sub, acc, members, site).node, levels + 1, bottom)
  {
    if "allOf" in members && AsList(members["allOf"]).Some? {
      var list := AsList(members["allOf"]).value;
      BranchesCapped(sub, acc.w, list, 0, At(site, "allOf"), [], levels, bottom);
      MergedCapped(acc.node, Branches(sub, acc.w, list, 0, At(site, "allOf"), []).nodes, levels, bottom);
    }
  }

  lemma NodeViaCapped(sub: Sub, w: Walk, raw: Json, depth: nat, site: Site, levels: nat, bottom: Node)
    requires SubCapped(sub, levels, bottom) && Flat(bottom)
    ensures Capped(NodeVia(sub, w, raw, depth, site).node, levels + 1, bottom)
  {
    StubCapped(TRUNCATED, levels + 1, bottom);
    if w.budget > 0 && raw.JObj? {
      RewriteCapped(sub, Collect(Expand(w, raw, depth, site), raw.members, site.path), raw.members, depth, site, levels, bottom);
    }
  }

  // ---- The whole walk ----

  lemma BottomCapped(levels: nat, bottom: Node)
    requires Flat(bottom)
    ensures Capped(bottom, levels, bottom)
  {
  }

  lemma StopCapped(f: Sub, levels: nat, bottom: Node)
    requires Stops(f) && bottom == Stub(ELIDED)
    ensures Flat(bottom) && SubCapped(f, levels, bottom)
  {
    BottomCapped(levels, bottom);
    forall w, raw, site ensures Capped(f(w, raw, site).node, levels, bottom) {
      assert Asked(f, w, raw, site);
    }
  }

  lemma StepCapped(f: Sub, sub: Sub, depth: nat, levels: nat, bottom: Node)
    requires Steps(f, sub, depth) && SubCapped(sub, levels, bottom) && Flat(bottom)
    ensures SubCapped(f, levels + 1, bottom)
  {
    forall w, raw, site ensures Capped(f(w, raw, site).node, levels + 1, bottom) {
      assert Asked(f, w, raw, site);
      NodeViaCapped(sub, w, raw, depth, site, levels, bottom);
    }
  }

  lemma {:induction false} LevelCapped(f: Sub, depth: nat, levels: nat, bottom: Node)
    requires depth + levels == MAX_DEPTH + 1 && Level(f, depth) && bottom == Stub(ELIDED)
    ensures Flat(bottom) && SubCapped(f, levels, bottom)
    decreases levels
  {
    if levels == 0 {
      StopCapped(f, levels, bottom);
    } else {
      var sub :| Level(sub, depth + 1) && Steps(f, sub, depth);
      LevelCapped(sub, depth + 1, levels - 1, bottom);
      StepCapped(f, sub, depth, levels - 1, bottom);
    }
  }

  /** Nine levels below the root there is nothing but the stub of an elided schema. */
  lemma NodeCapped(w: Walk, raw: Json, depth: nat, site: Site, levels: nat)
    requires depth + levels == MAX_DEPTH + 1
    ensures Capped(NodeOf(w, raw, depth, site).node, levels, Stub(ELIDED))
  {
    var f: Sub := (w, raw, site) => NodeOf(w, raw, depth, site);
    WalkIsLevel(f, depth);
    LevelCapped(f, depth, levels, Stub(ELIDED));
    assert f(w, raw, site) == NodeOf(w, raw, depth, site);
  }
}
