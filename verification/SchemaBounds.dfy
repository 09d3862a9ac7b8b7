/** What every run of the schema walk keeps (internal/provider/gemini_schema.go): the node budget, the
    depth bound, no reference inlined twice on a branch, and references answered only from their own site. */
module SchemaBounds {
  import opened Basics
  import opened JsonDoc
  import KeyOrder
  import opened GeminiSchema

  ghost predicate Distinct(chain: seq<string>) {
    forall i, j :: 0 <= i < j < |chain| ==> chain[i] != chain[j]
  }

  /** The schema is what the document holds at the site's pointer, and no reference led there twice. */
  ghost predicate SiteOk(root: Json, raw: Json, depth: nat, site: Site) {
    |site.chain| <= depth && Distinct(site.chain) && Located(root, site.path, raw)
  }

  ghost predicate VisitOk(root: Json, v: Visit) {
    v.depth <= MAX_DEPTH && SiteOk(root, v.raw, v.depth, Site(v.chain, v.path))
  }

  /** Every definition is filed under its own pointer. */
  ghost predicate DefsOk(root: Json, defs: map<string, Json>) {
    forall p :: p in defs ==> Located(root, p, defs[p])
  }

  ghost predicate WalkOk(root: Json, w: Walk) {
    && w.budget + |w.log| == MAX_NODES
    && (forall i :: 0 <= i < |w.log| ==> VisitOk(root, w.log[i]))
    && DefsOk(root, w.defs)
  }

  /** Nothing recorded is lost or changed: no definition ever takes another's place. */
  ghost predicate Grows(w: Walk, w': Walk) {
    && w.log <= w'.log && w.dropped <= w'.dropped
    && forall p :: p in w.defs ==> p in w'.defs && w'.defs[p] == w.defs[p]
  }

  ghost predicate Goes(root: Json, w: Walk, w': Walk) {
    WalkOk(root, w') && Grows(w, w')
  }

  lemma GoesOn(root: Json, w: Walk, w': Walk, w'': Walk)
    requires Goes(root, w, w') && Goes(root, w', w'')
    ensures Goes(root, w, w'')
  {
  }

  ghost predicate SubSound(root: Json, sub: Sub, depth: nat) {
    forall w, raw, site ::
      WalkOk(root, w) && SiteOk(root, raw, depth, site) ==> Goes(root, w, sub(w, raw, site).w)
  }

  // ---- Definitions ----

  lemma FiledLocated(root: Json, path: string, members: map<string, Json>, key: string)
    requires Located(root, path, JObj(members))
    ensures DefsOk(root, Filed(Declared(members, key), Child(path, key)))
  {
    var defs, base := Declared(members, key), Child(path, key);
    forall p | p in Filed(defs, base) ensures Located(root, p, Filed(defs, base)[p]) {
      var name :| name in defs && p == Child(base, name);
      FiledAt(defs, base, name);
      LocatedStep(root, path, JObj(members), key, members[key]);
      LocatedStep(root, base, members[key], name, defs[name]);
    }
  }

  lemma DefsAgree(root: Json, a: map<string, Json>, b: map<string, Json>)
    requires DefsOk(root, a) && DefsOk(root, b)
    ensures DefsOk(root, a + b)
    ensures forall p :: p in a ==> (a + b)[p] == a[p]
  {
    forall p | p in a && p in b ensures a[p] == b[p] {
      LocatedUnique(root, p, a[p], b[p]);
    }
  }

  lemma Collect1Sound(root: Json, w: Walk, members: map<string, Json>, key: string, path: string)
    requires WalkOk(root, w) && Located(root, path, JObj(members))
    ensures Goes(root, w, Collect1(w, members, key, path))
  {
    FiledLocated(root, path, members, key);
    DefsAgree(root, w.defs, Filed(Declared(members, key), Child(path, key)));
  }

  lemma CollectSound(root: Json, w: Walk, members: map<string, Json>, path: string)
    requires WalkOk(root, w) && Located(root, path, JObj(members))
    ensures Goes(root, w, Collect(w, members, path))
  {
    var w' := Collect1(w, members, "$defs", path);
    Collect1Sound(root, w, members, "$defs", path);
    Collect1Sound(root, w', members, "definitions", path);
    GoesOn(root, w, w', Collect(w, members, path));
  }

  lemma ExpandSound(root: Json, w: Walk, raw: Json, depth: nat, site: Site)
    requires WalkOk(root, w) && w.budget > 0 && depth <= MAX_DEPTH && SiteOk(root, raw, depth, site)
    ensures Goes(root, w, Expand(w, raw, depth, site))
  {
    assert VisitOk(root, Visit(depth, site.chain, site.path, raw));
  }

  // ---- One level ----

  lemma {:induction false} PropsSound(root: Json, sub: Sub, depth: nat, w: Walk, props: map<string, Json>, names: seq<string>,
                                      site: Site, done: map<string, Node>)
    requires SubSound(root, sub, depth + 1) && WalkOk(root, w) && forall name :: name in names ==> name in props
    requires SiteOk(root, JObj(props), depth, site)
    ensures Goes(root, w, PropsOf(sub, w, props, names, site, done).w)
    decreases |names|
  {
    if names != [] {
      var name := names[0];
      LocatedStep(root, site.path, JObj(props), name, props[name]);
      var r := sub(w, props[name], At(site, name));
      assert Goes(root, w, r.w);
      PropsSound(root, sub, depth, r.w, props, names[1..], site, done[name := r.node]);
      GoesOn(root, w, r.w, PropsOf(sub, w, props, names, site, done).w);
    }
  }

  lemma {:induction false} BranchesSound(root: Json, sub: Sub, depth: nat, w: Walk, list: seq<Json>, i: nat,
                                         site: Site, done: seq<Node>)
    requires SubSound(root, sub, depth + 1) && WalkOk(root, w) && i <= |list|
    requires SiteOk(root, JArr(list), depth, site)
    ensures Goes(root, w, Branches(sub, w, list, i, site, done).w)
    decreases |list| - i
  {
    if i < |list| {
      LocatedItem(root, site.path, list, i);
      var r := sub(w, list[i], At(site, Itoa(i)));
      assert Goes(root, w, r.w);
      BranchesSound(root, sub, depth, r.w, list, i + 1, site, done + [r.node]);
      GoesOn(root, w, r.w, Branches(sub, w, list, i, site, done).w);
    }
  }

  lemma PlainSound(root: Json, acc: Acc, k: Key, name: string, v: Json, nullable: bool)
    requires WalkOk(root, acc.w)
    ensures Goes(root, acc.w, Plain(acc, k, name, v, nullable).w)
  {
    var w' := Plain(acc, k, name, v, nullable).w;
    assert w' == acc.w || w' == Drop(acc.w, name);
  }

  lemma ObjectSound(root: Json, sub: Sub, depth: nat, acc: Acc, name: string, v: Json, site: Site)
    requires SubSound(root, sub, depth + 1) && WalkOk(root, acc.w) && SiteOk(root, v, depth, site)
    ensures Goes(root, acc.w, Object(sub, acc, name, v, site).w)
  {
    if v.JObj? {
      PropsSound(root, sub, depth, acc.w, v.members, KeyOrder.Sorted(v.members.Keys), site, map[]);
    }
  }

  lemma UnionSound(root: Json, sub: Sub, depth: nat, acc: Acc, name: string, v: Json, site: Site)
    requires SubSound(root, sub, depth + 1) && WalkOk(root, acc.w) && SiteOk(root, v, depth, site)
    ensures Goes(root, acc.w, Union(sub, acc, name, v, site).w)
  {
    if v.JArr? {
      BranchesSound(root, sub, depth, acc.w, v.items, 0, site, []);
    }
  }

  lemma KeywordSound(root: Json, sub: Sub, depth: nat, acc: Acc, k: Key, name: string, v: Json, site: Site, nullable: bool)
    requires SubSound(root, sub, depth + 1) && WalkOk(root, acc.w)
    requires SiteOk(root, v, depth, At(site, name))
    ensures Goes(root, acc.w, Keyword(sub, acc, k, name, v, site, nullable).w)
  {
    if k.Items? {
      assert SiteOk(root, v, depth + 1, At(site, name));
    } else if k.Properties? {
      ObjectSound(root, sub, depth, acc, name, v, At(site, name));
    } else if k.AnyOf? || k.OneOf? {
      UnionSound(root, sub, depth, acc, name, v, At(site, name));
    } else {
      PlainSound(root, acc, k, name, v, nullable);
    }
  }

  lemma {:induction false} KeywordsSound(root: Json, sub: Sub, depth: nat, acc: Acc, members: map<string, Json>,
                                         keys: seq<string>, site: Site, nullable: bool)
    requires forall k :: k in keys ==> k in members
    requires SubSound(root, sub, depth + 1) && WalkOk(root, acc.w) && SiteOk(root, JObj(members), depth, site)
    ensures Goes(root, acc.w, Keywords(sub, acc, members, keys, site, nullable).w)
    decreases |keys|
  {
    if keys != [] {
      var name := keys[0];
      LocatedStep(root, site.path, JObj(members), name, members[name]);
      KeywordSound(root, sub, depth, acc, KeyOf(name), name, members[name], site, nullable);
      var acc' := Keyword(sub, acc, KeyOf(name), name, members[name], site, nullable);
      KeywordsSound(root, sub, depth, acc', members, keys[1..], site, nullable);
      GoesOn(root, acc.w, acc'.w, Keywords(sub, acc, members, keys, site, nullable).w);
    }
  }

  lemma MergeAllOfSound(root: Json, sub: Sub, depth: nat, acc: Acc, members: map<string, Json>, site: Site)
    requires SubSound(root, sub, depth + 1) && WalkOk(root, acc.w) && SiteOk(root, JObj(members), depth, site)
    ensures Goes(root, acc.w, MergeAllOf(sub, acc, members, site).w)
  {
    if "allOf" in members && members["allOf"].JArr? {
      LocatedStep(root, site.path, JObj(members), "allOf", members["allOf"]);
      BranchesSound(root, sub, depth, acc.w, members["allOf"].items, 0, At(site, "allOf"), []);
    }
  }

  lemma FinishSound(root: Json, acc: Acc, members: map<string, Json>)
    requires WalkOk(root, acc.w)
    ensures Goes(root, acc.w, Finish(acc, members).w)
  {
    var w1 := AddFormat(acc, members).w;
    assert w1 == acc.w || w1 == Drop(acc.w, "format");
    var w2 := SettleEnum(AddFormat(acc, members)).w;
    assert w2 == w1 || w2 == Drop(w1, "enum");
  }

  lemma InlineRefSound(root: Json, sub: Sub, w: Walk, ref: Json, depth: nat, site: Site)
    requires SubSound(root, sub, depth + 1) && WalkOk(root, w)
    requires |site.chain| <= depth && Distinct(site.chain)
    ensures Goes(root, w, InlineRef(sub, w, ref, depth, site).w)
  {
    if AsString(ref).Some? && AsString(ref).value in w.defs && AsString(ref).value !in site.chain && depth < MAX_DEPTH {
      var p := AsString(ref).value;
      assert SiteOk(root, w.defs[p], depth + 1, Site(site.chain + [p], p));
    }
  }

  lemma RewriteSound(root: Json, sub: Sub, w: Walk, members: map<string, Json>, depth: nat, site: Site)
    requires SubSound(root, sub, depth + 1) && WalkOk(root, w) && SiteOk(root, JObj(members), depth, site)
    ensures Goes(root, w, Rewrite(sub, w, members, depth, site).w)
  {
    if "$ref" in members {
      InlineRefSound(root, sub, w, members["$ref"], depth, site);
    } else {
      var t := NodeType(members);
      var keys := KeyOrder.Sorted(members.Keys);
      var start := Acc(w, Start(t), t.typ);
      var acc := Keywords(sub, start, members, keys, site, t.nullable);
      KeywordsSound(root, sub, depth, start, members, keys, site, t.nullable);
      var merged := MergeAllOf(sub, acc, members, site);
      MergeAllOfSound(root, sub, depth, acc, members, site);
      GoesOn(root, w, acc.w, merged.w);
      FinishSound(root, merged, members);
      GoesOn(root, w, merged.w, Finish(merged, members).w);
    }
  }

  lemma NodeViaSound(root: Json, sub: Sub, w: Walk, raw: Json, depth: nat, site: Site)
    requires SubSound(root, sub, depth + 1) && WalkOk(root, w) && SiteOk(root, raw, depth, site) && depth <= MAX_DEPTH
    ensures Goes(root, w, NodeVia(sub, w, raw, depth, site).w)
  {
    if w.budget > 0 {
      ExpandSound(root, w, raw, depth, site);
      if raw.JObj? {
        ObjectNodeSound(root, sub, w, Expand(w, raw, depth, site), raw.members, depth, site);
      }
    }
  }

  lemma ObjectNodeSound(root: Json, sub: Sub, w: Walk, w1: Walk, members: map<string, Json>, depth: nat, site: Site)
    requires SubSound(root, sub, depth + 1) && Goes(root, w, w1) && SiteOk(root, JObj(members), depth, site)
    ensures Goes(root, w, Rewrite(sub, Collect(w1, members, site.path), members, depth, site).w)
  {
    var w2 := Collect(w1, members, site.path);
    CollectSound(root, w1, members, site.path);
    GoesOn(root, w, w1, w2);
    RewriteSound(root, sub, w2, members, depth, site);
    GoesOn(root, w, w2, Rewrite(sub, w2, members, depth, site).w);
  }

  // ---- The whole walk ----

  lemma {:induction false} NodeSound(root: Json, w: Walk, raw: Json, depth: nat, site: Site)
    requires WalkOk(root, w) && SiteOk(root, raw, depth, site)
    ensures Goes(root, w, NodeOf(w, raw, depth, site).w)
    decreases MAX_DEPTH + 1 - depth, 1
  {
    if depth <= MAX_DEPTH {
      DeeperSound(root, depth);
      NodeViaSound(root, Deeper(depth), w, raw, depth, site);
    }
  }

  lemma {:induction false} DeeperSound(root: Json, depth: nat)
    requires depth <= MAX_DEPTH
    ensures SubSound(root, Deeper(depth), depth + 1)
    decreases MAX_DEPTH + 1 - depth, 0
  {
    forall w, raw, site | WalkOk(root, w) && SiteOk(root, raw, depth + 1, site)
      ensures Goes(root, w, Deeper(depth)(w, raw, site).w)
    {
      NodeSound(root, w, raw, depth + 1, site);
    }
  }

  /** For every document, cyclic or not: at most 4096 nodes are expanded, none deeper than eight levels, none
      reached through one reference twice; every node expanded, by reference or not, is what the document holds
      at its pointer; and every node emitted is in Gemini's grammar, nesting at most nine levels. */
  lemma SanitiseIsBounded(raw: Json, w: Walk, depth: nat, site: Site, r: Out)
    requires Fresh(w, depth, site) && r == NodeOf(w, raw, depth, site)
    ensures |r.w.log| <= MAX_NODES
    ensures forall i :: 0 <= i < |r.w.log| ==> VisitOk(raw, r.w.log[i])
    ensures forall p :: p in r.w.defs ==> Located(raw, p, r.w.defs[p])
    ensures Good(r.node, MAX_DEPTH + 1)
  {
    LocatedRoot(raw);
    FromStart(raw, w, depth, site, MAX_DEPTH + 1, r);
  }

  lemma FromStart(raw: Json, w: Walk, depth: nat, site: Site, levels: nat, r: Out)
    requires depth + levels == MAX_DEPTH + 1 && WalkOk(raw, w) && SiteOk(raw, raw, depth, site)
    requires r == NodeOf(w, raw, depth, site)
    ensures WalkOk(raw, r.w) && Good(r.node, levels)
  {
    NodeSound(raw, w, raw, depth, site);
    NodeGood(w, raw, depth, site, levels);
  }

  // ---- How the pointers are spelt ----

  lemma {:induction false} ItoaPlain(n: nat)
    ensures '/' !in Itoa(n) && '~' !in Itoa(n)
  {
    if n >= 10 {
      ItoaPlain(n / 10);
    }
  }

  lemma PathAsWritten(path: string, keyword: string)
    requires '/' !in keyword && '~' !in keyword
    ensures Child(path, keyword) == path + "/" + keyword
  {
    EscapePlain(keyword);
  }

  /** Below a list of schemas the pointer goes on with the index. */
  lemma IndexAsWritten(path: string, i: nat)
    ensures Child(path, Itoa(i)) == path + "/" + Itoa(i)
  {
    ItoaPlain(i);
    EscapePlain(Itoa(i));
  }
}
