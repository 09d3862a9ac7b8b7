/** A document whose first pass cuts nothing off for size and whose second pass does (internal/provider/gemini_schema.go):
    a schema met below the depth bound costs no budget, and an allOf that is folded lifts it to where it does. */
module SchemaWide {
  import opened Basics
  import opened JsonDoc
  import KeyOrder
  import opened GeminiSchema
  import opened SchemaDepth
  import opened SchemaFixpoint
  import SchemaTwice

  // ---- The document and what becomes of it ----

  function Branch(props: map<string, Json>): map<string, Json> {
    map["properties" := JObj(props)]
  }

  function Folded(props: map<string, Json>): map<string, Json> {
    map["allOf" := JArr([JObj(Branch(props))])]
  }

  /** Arrays of arrays of this schema. */
  function Nested(k: nat, x: Json): Json {
    if k == 0 then x else JObj(map["items" := Nested(k - 1, x)])
  }

  function AllCut(props: map<string, Json>, bottom: Node): map<string, Node> {
    map p | p in props :: bottom
  }

  function FoldedOut(props: map<string, Json>, bottom: Node): Node {
    map[Type := Text("object"), Properties := Props(AllCut(props, bottom))]
  }

  function ArrayOf(n: Node): Node {
    map[Items := One(n), Type := Text("array")]
  }

  function NestedOut(k: nat, n: Node): Node {
    if k == 0 then n else ArrayOf(NestedOut(k - 1, n))
  }

  // ---- The first pass ----

  lemma OneName(k: string)
    ensures KeyOrder.Sorted({k}) == [k]
  {
    KeyOrder.OneOrder({k}, [k]);
  }

  /** An object with one member that is no type, reference, format or allOf. */
  lemma OneMember(sub: Sub, w: Walk, key: string, v: Json, depth: nat, site: Site, acc: Acc)
    requires Ordinary(key)
    requires acc == Keyword(sub, Acc(w, map[], ""), KeyOf(key), key, v, site, false)
    ensures Rewrite(sub, w, map[key := v], depth, site) == Finish(acc, map[key := v])
  {
    var members := map[key := v];
    assert members.Keys == {key};
    OneName(key);
    assert NodeType(members) == Typing("", false) && Start(Typing("", false)) == map[];
    assert Keywords(sub, Acc(w, map[], ""), members, [key], site, false) == acc by {
      assert [key][1..] == [];
    }
  }

  lemma FinishPlain(acc: Acc, members: map<string, Json>)
    requires "format" !in members && Enum !in acc.node && acc.node != map[]
    ensures Finish(acc, members) ==
      Out(acc.w, if Type !in acc.node && AnyOf !in acc.node then acc.node[Type := Text(InferType(acc.node))] else acc.node)
  {
  }

  /** A keyword the walk handles in its loop. */
  predicate Ordinary(key: string) {
    key != "type" && key != "$ref" && key != "format" && key != "allOf"
  }

  lemma KeywordNames()
    ensures Ordinary("items") && KeyOf("items") == Items
    ensures Ordinary("properties") && KeyOf("properties") == Properties
  {
  }

  lemma ClosedWith(sub: Sub, w: Walk, key: string, v: Json, depth: nat, site: Site, acc: Acc)
    requires Ordinary(key) && acc == Keyword(sub, Acc(w, map[], ""), KeyOf(key), key, v, site, false)
    requires Enum !in acc.node && (Items in acc.node || Properties in acc.node) && Type !in acc.node && AnyOf !in acc.node
    ensures Rewrite(sub, w, map[key := v], depth, site) == Out(acc.w, acc.node[Type := Text(InferType(acc.node))])
  {
    OneMember(sub, w, key, v, depth, site, acc);
    FinishPlain(acc, map[key := v]);
  }

  lemma ItemsOnly(sub: Sub, w: Walk, v: Json, depth: nat, site: Site, key: string, r: Out)
    requires Ordinary(key) && KeyOf(key) == Items && r == sub(w, v, At(site, key))
    ensures Rewrite(sub, w, map[key := v], depth, site) == Out(r.w, ArrayOf(r.node))
  {
    var acc := Acc(r.w, map[Items := One(r.node)], "");
    assert acc == ItemsOf(sub, Acc(w, map[], ""), v, At(site, key));
    ClosedWith(sub, w, key, v, depth, site, acc);
  }

  /** Below, everything is cut off for depth and costs nothing. */
  ghost predicate CutsAll(sub: Sub, bottom: Node) {
    forall w, raw, site :: sub(w, raw, site) == Out(w, bottom)
  }

  lemma {:induction false} PropsCut(sub: Sub, w: Walk, props: map<string, Json>, names: seq<string>, site: Site,
                                    done: map<string, Node>, bottom: Node)
    requires CutsAll(sub, bottom) && forall name :: name in names ==> name in props
    requires forall p :: p in done ==> done[p] == bottom
    ensures var r := PropsOf(sub, w, props, names, site, done);
      r.w == w && (forall p :: p in r.props <==> p in done || p in names) && (forall p :: p in r.props ==> r.props[p] == bottom)
    decreases |names|
  {
    if names != [] {
      PropsCut(sub, w, props, names[1..], site, done[names[0] := bottom], bottom);
      assert names == [names[0]] + names[1..];
    }
  }

  lemma CutProps(sub: Sub, w: Walk, props: map<string, Json>, site: Site, bottom: Node)
    requires CutsAll(sub, bottom)
    ensures PropsOf(sub, w, props, KeyOrder.Sorted(props.Keys), site, map[]) == Named(w, AllCut(props, bottom))
  {
    var r := PropsOf(sub, w, props, KeyOrder.Sorted(props.Keys), site, map[]);
    PropsCut(sub, w, props, KeyOrder.Sorted(props.Keys), site, map[], bottom);
    SameCut(r.props, props, bottom);
  }

  lemma SameCut(m: map<string, Node>, props: map<string, Json>, bottom: Node)
    requires forall p :: p in m <==> p in props
    requires forall p :: p in m ==> m[p] == bottom
    ensures m == AllCut(props, bottom)
  {
    assert m.Keys == AllCut(props, bottom).Keys;
  }

  lemma ObjectIs(sub: Sub, w: Walk, props: map<string, Json>, site: Site, key: string, r: Named)
    requires r == PropsOf(sub, w, props, KeyOrder.Sorted(props.Keys), site, map[]) && r.props != map[]
    ensures Object(sub, Acc(w, map[], ""), key, JObj(props), site) == Acc(r.w, map[Properties := Props(r.props)], "")
  {
  }

  lemma FinishObject(acc: Acc, props: map<string, Node>, members: map<string, Json>)
    requires "format" !in members && acc.node == map[Properties := Props(props)]
    ensures Finish(acc, members) == Out(acc.w, map[Type := Text("object"), Properties := Props(props)])
  {
    assert Properties in acc.node;
    FinishPlain(acc, members);
    assert acc.node[Type := Text("object")] == map[Type := Text("object"), Properties := Props(props)];
  }

  lemma KeywordIsObject(sub: Sub, acc: Acc, key: string, v: Json, site: Site)
    requires KeyOf(key) == Properties
    ensures Keyword(sub, acc, KeyOf(key), key, v, site, false) == Object(sub, acc, key, v, At(site, key))
  {
  }

  lemma PropertiesVia(sub: Sub, w: Walk, props: map<string, Json>, depth: nat, site: Site, key: string, r: Named)
    requires Ordinary(key) && KeyOf(key) == Properties && r.props != map[]
    requires r == PropsOf(sub, w, props, KeyOrder.Sorted(props.Keys), At(site, key), map[])
    ensures Rewrite(sub, w, map[key := JObj(props)], depth, site) ==
      Out(r.w, map[Type := Text("object"), Properties := Props(r.props)])
  {
    var acc := Acc(r.w, map[Properties := Props(r.props)], "");
    ObjectIs(sub, w, props, At(site, key), key, r);
    KeywordIsObject(sub, Acc(w, map[], ""), key, JObj(props), site);
    OneMember(sub, w, key, JObj(props), depth, site, acc);
    FinishObject(acc, r.props, map[key := JObj(props)]);
  }

  lemma PropertiesOnly(sub: Sub, w: Walk, props: map<string, Json>, depth: nat, site: Site, bottom: Node, key: string)
    requires Ordinary(key) && KeyOf(key) == Properties && CutsAll(sub, bottom) && props != map[]
    ensures Rewrite(sub, w, map[key := JObj(props)], depth, site) == Out(w, FoldedOut(props, bottom))
  {
    CutProps(sub, w, props, At(site, key), bottom);
    assert AllCut(props, bottom).Keys == props.Keys;
    PropertiesVia(sub, w, props, depth, site, key, Named(w, AllCut(props, bottom)));
  }

  /** A lone allOf is left out of the loop. */
  lemma AllOfSkipped(sub: Sub, w: Walk, v: Json, site: Site, key: string)
    requires KeyOf(key) == AllOf
    ensures Keywords(sub, Acc(w, map[], ""), map[key := v], KeyOrder.Sorted(map[key := v].Keys), site, false) == Acc(w, map[], "")
  {
    var members := map[key := v];
    assert members.Keys == {key};
    OneName(key);
    var start := Acc(w, map[], "");
    assert Keywords(sub, start, members, [key], site, false) == start by {
      assert [key][1..] == [];
    }
  }

  lemma AllOfMerged(sub: Sub, w: Walk, branch: Json, site: Site, n: Node, props: map<string, Json>, bottom: Node, w': Walk)
    requires n == FoldedOut(props, bottom) && sub(w, branch, At(At(site, "allOf"), Itoa(0))) == Out(w', n)
    ensures MergeAllOf(sub, Acc(w, map[], ""), map["allOf" := JArr([branch])], site) == Acc(w', n, "")
  {
    BranchIsOne(sub, w, branch, At(site, "allOf"), Out(w', n));
    OneFold(n, props, bottom);
  }

  lemma AllOfName()
    ensures KeyOf("allOf") == AllOf && "allOf" != "type" && "allOf" != "$ref"
  {
  }

  lemma AllOfRewrite(sub: Sub, w: Walk, v: Json, depth: nat, site: Site, key: string, members: map<string, Json>)
    requires KeyOf(key) == AllOf && key != "type" && key != "$ref" && members == map[key := v]
    ensures Rewrite(sub, w, members, depth, site) == Finish(MergeAllOf(sub, Acc(w, map[], ""), members, site), members)
  {
    AllOfSkipped(sub, w, v, site, key);
    assert NodeType(members) == Typing("", false) && Start(Typing("", false)) == map[];
  }

  lemma AllOfOnly(sub: Sub, w: Walk, branch: Json, depth: nat, site: Site, n: Node, props: map<string, Json>, bottom: Node, w': Walk)
    requires n == FoldedOut(props, bottom) && sub(w, branch, At(At(site, "allOf"), Itoa(0))) == Out(w', n)
    ensures Rewrite(sub, w, map["allOf" := JArr([branch])], depth, site) == Out(w', n)
  {
    var members := map["allOf" := JArr([branch])];
    AllOfMerged(sub, w, branch, site, n, props, bottom, w');
    AllOfName();
    AllOfRewrite(sub, w, JArr([branch]), depth, site, "allOf", members);
    FinishPlain(Acc(w', n, ""), members);
  }

  lemma BranchIsOne(sub: Sub, w: Walk, branch: Json, site: Site, r: Out)
    requires r == sub(w, branch, At(site, Itoa(0)))
    ensures Branches(sub, w, [branch], 0, site, []) == Listed(r.w, [r.node])
  {
    assert Branches(sub, r.w, [branch], 1, site, [] + [r.node]).nodes == [r.node];
  }

  lemma OneFold(n: Node, props: map<string, Json>, bottom: Node)
    requires n == FoldedOut(props, bottom)
    ensures Merged(map[], [n]) == n
  {
    assert PropsIn(map[]) + PropsIn(n) == AllCut(props, bottom) && RequiredIn(n) == [];
    assert AddProps(map[] + PropsIn(n), [n][1..]) == AllCut(props, bottom);
    assert AddRequired([], [n]) == [];
  }

  // ---- Level by level ----

  /** This schema becomes this node at this cost, and nothing is dropped. */
  ghost predicate Yields(f: Sub, raw: Json, n: Node, cost: nat) {
    forall w: Walk, site: Site {:trigger f(w, raw, site)} :: w.budget >= cost ==>
      f(w, raw, site).node == n && f(w, raw, site).w.dropped == w.dropped && f(w, raw, site).w.budget == w.budget - cost
  }

  lemma ViaRewrite(sub: Sub, w: Walk, members: map<string, Json>, depth: nat, site: Site)
    requires w.budget > 0 && "$defs" !in members && "definitions" !in members
    ensures NodeVia(sub, w, JObj(members), depth, site) == Rewrite(sub, Expand(w, JObj(members), depth, site), members, depth, site)
  {
    var w' := Expand(w, JObj(members), depth, site);
    CollectsNothing(w', members, "$defs", site.path);
    CollectsNothing(w', members, "definitions", site.path);
  }

  lemma BranchYields(f: Sub, sub: Sub, depth: nat, props: map<string, Json>, bottom: Node)
    requires Steps(f, sub, depth) && CutsAll(sub, bottom) && props != map[]
    ensures Yields(f, JObj(Branch(props)), FoldedOut(props, bottom), 1)
  {
    var raw := JObj(Branch(props));
    forall w: Walk, site: Site | w.budget >= 1
      ensures f(w, raw, site).node == FoldedOut(props, bottom) && f(w, raw, site).w.dropped == w.dropped && f(w, raw, site).w.budget == w.budget - 1
    {
      assert Asked(f, w, raw, site);
      ViaRewrite(sub, w, Branch(props), depth, site);
      KeywordNames();
      PropertiesOnly(sub, Expand(w, raw, depth, site), props, depth, site, bottom, "properties");
    }
  }

  lemma FoldYields(g: Sub, f: Sub, depth: nat, props: map<string, Json>, bottom: Node, n: Node)
    requires Steps(g, f, depth) && n == FoldedOut(props, bottom) && Yields(f, JObj(Branch(props)), n, 1)
    ensures Yields(g, JObj(Folded(props)), n, 2)
  {
    var raw, branch := JObj(Folded(props)), JObj(Branch(props));
    forall w: Walk, site: Site | w.budget >= 2
      ensures g(w, raw, site).node == n && g(w, raw, site).w.dropped == w.dropped && g(w, raw, site).w.budget == w.budget - 2
    {
      assert Asked(g, w, raw, site);
      ViaRewrite(f, w, Folded(props), depth, site);
      var w' := Expand(w, raw, depth, site);
      AllOfOnly(f, w', branch, depth, site, n, props, bottom, f(w', branch, At(At(site, "allOf"), Itoa(0))).w);
    }
  }

  lemma ArrayVia(f: Sub, w: Walk, x: Json, depth: nat, site: Site, members: map<string, Json>, r: Out)
    requires w.budget > 0 && members == map["items" := x]
    requires r == f(Expand(w, JObj(members), depth, site), x, At(site, "items"))
    ensures NodeVia(f, w, JObj(members), depth, site) == Out(r.w, ArrayOf(r.node))
  {
    ViaRewrite(f, w, members, depth, site);
    KeywordNames();
    ItemsOnly(f, Expand(w, JObj(members), depth, site), x, depth, site, "items", r);
  }

  /** What Yields says of one walk. */
  predicate Made(w: Walk, r: Out, n: Node, cost: nat) {
    w.budget >= cost ==> r.node == n && r.w.dropped == w.dropped && r.w.budget == w.budget - cost
  }

  lemma ArrayMade(f: Sub, w: Walk, x: Json, depth: nat, site: Site, members: map<string, Json>, n: Node, cost: nat)
    requires Yields(f, x, n, cost) && members == map["items" := x]
    ensures Made(w, NodeVia(f, w, JObj(members), depth, site), ArrayOf(n), cost + 1)
  {
    if w.budget >= cost + 1 {
      var r := f(Expand(w, JObj(members), depth, site), x, At(site, "items"));
      ArrayVia(f, w, x, depth, site, members, r);
    }
  }

  lemma ArrayYields(g: Sub, f: Sub, depth: nat, x: Json, members: map<string, Json>, n: Node, cost: nat)
    requires Steps(g, f, depth) && Yields(f, x, n, cost) && members == map["items" := x]
    ensures Yields(g, JObj(members), ArrayOf(n), cost + 1)
  {
    forall w: Walk, site: Site ensures Made(w, g(w, JObj(members), site), ArrayOf(n), cost + 1) {
      assert Asked(g, w, JObj(members), site);
      ArrayMade(f, w, x, depth, site, members, n, cost);
    }
  }

  lemma StopCuts(f: Sub, bottom: Node)
    requires Stops(f) && bottom == Stub(ELIDED)
    ensures CutsAll(f, bottom)
  {
    forall w, raw, site ensures f(w, raw, site) == Out(w, bottom) {
      assert Asked(f, w, raw, site);
    }
  }

  /** The innermost schema sits one level above the depth bound, so its branch's properties are met below it. */
  lemma {:induction false} LevelYields(f: Sub, depth: nat, k: nat, props: map<string, Json>, bottom: Node)
    requires Level(f, depth) && depth + k + 1 == MAX_DEPTH && bottom == Stub(ELIDED) && props != map[]
    ensures Yields(f, Nested(k, JObj(Folded(props))), NestedOut(k, FoldedOut(props, bottom)), k + 2)
    decreases k
  {
    var sub :| Level(sub, depth + 1) && Steps(f, sub, depth);
    if k == 0 {
      var last :| Level(last, depth + 2) && Steps(sub, last, depth + 1);
      StopCuts(last, bottom);
      BranchYields(sub, last, depth + 1, props, bottom);
      FoldYields(f, sub, depth, props, bottom, FoldedOut(props, bottom));
    } else {
      LevelYields(sub, depth + 1, k - 1, props, bottom);
      var x := Nested(k - 1, JObj(Folded(props)));
      ArrayYields(f, sub, depth, x, map["items" := x], NestedOut(k - 1, FoldedOut(props, bottom)), k + 1);
    }
  }

  // ---- How many nodes come out ----

  /** A node whose schemas are all under one keyword. */
  lemma {:induction false} OnlyHolder(n: Node, keys: seq<string>, k: Key, levels: nat)
    requires k in n && forall j :: j in n && j != k ==> ValueNodes(n[j], levels) == []
    requires NoRepeats(keys)
    ensures KeysNodes(n, keys, levels) == if HasKey(keys, k) then ValueNodes(n[k], levels) else []
    decreases |keys|
  {
    if keys != [] {
      RestIsNew(keys);
      OneSpelling(keys[1..], keys[0]);
      HasKeySplit(keys, k);
      OnlyHolder(n, keys[1..], k, levels);
      if KeyOf(keys[0]) == k {
        assert !HasKey(keys[1..], k);
      }
    }
  }

  lemma HolderNodes(n: Node, k: Key, levels: nat)
    requires levels > 0 && k in n && Fields(n, levels) && forall j :: j in n && j != k ==> ValueNodes(n[j], levels) == []
    ensures Nodes(n, levels) == [n] + ValueNodes(n[k], levels)
  {
    var keys := KeyOrder.Sorted(Members(n, levels).Keys);
    SortedIsNew(Members(n, levels).Keys);
    KeysAreThere(n, keys, levels);
    OnlyHolder(n, keys, k, levels);
  }

  ghost predicate EndsIn(nodes: seq<Node>, m: nat, bottom: Node) {
    |nodes| > m && nodes[|nodes| - 1] == bottom
  }

  lemma {:induction false} CutNodes(props: map<string, Node>, names: seq<string>, bottom: Node, levels: nat)
    requires levels > 1 && Flat(bottom) && FormatFits(bottom)
    requires forall name :: name in names ==> name in props && props[name] == bottom
    ensures |PropsNodes(props, names, levels)| == |names|
    ensures forall i :: 0 <= i < |names| ==> PropsNodes(props, names, levels)[i] == bottom
    decreases |names|
  {
    if names != [] {
      CutNodes(props, names[1..], bottom, levels);
      FlatNode(bottom, levels - 1);
      assert Nodes(props[names[0]], levels - 1) == [bottom];
    }
  }

  lemma EndsWith(n: Node, rest: seq<Node>, m: nat, bottom: Node)
    requires 0 < |rest| && m <= |rest| && rest[|rest| - 1] == bottom
    ensures EndsIn([n] + rest, m, bottom)
  {
  }

  lemma FoldedValue(v: Value, props: map<string, Json>, bottom: Node, levels: nat)
    requires levels > 1 && Flat(bottom) && FormatFits(bottom) && props != map[] && v == Props(AllCut(props, bottom))
    ensures var nodes := ValueNodes(v, levels); |nodes| == |props| > 0 && nodes[|nodes| - 1] == bottom
  {
    var all := AllCut(props, bottom);
    assert all.Keys == props.Keys;
    CutNodes(all, KeyOrder.Sorted(all.Keys), bottom, levels);
  }

  lemma FoldedHolds(n: Node, v: Value, levels: nat)
    requires levels > 0 && n == map[Type := Text("object"), Properties := v] && Fields(n, levels)
    ensures Nodes(n, levels) == [n] + ValueNodes(v, levels)
  {
    assert n[Properties] == v && ValueNodes(n[Type], levels) == [];
    HolderNodes(n, Properties, levels);
  }

  lemma FoldedNodes(props: map<string, Json>, bottom: Node, levels: nat, n: Node, v: Value)
    requires levels > 1 && Flat(bottom) && FormatFits(bottom) && props != map[] && v == Props(AllCut(props, bottom))
    requires n == map[Type := Text("object"), Properties := v] && Fields(n, levels)
    ensures EndsIn(Nodes(n, levels), |props|, bottom)
  {
    FoldedHolds(n, v, levels);
    FoldedValue(v, props, bottom, levels);
    EndsWith(n, ValueNodes(v, levels), |props|, bottom);
  }

  lemma ArrayHolds(n: Node, a: Node, levels: nat)
    requires a == ArrayOf(n) && Fields(a, levels + 1)
    ensures Nodes(a, levels + 1) == [a] + Nodes(n, levels) && Fields(n, levels)
  {
    assert a[Items] == One(n) && Shape(Items, a[Items], levels + 1);
    assert ValueNodes(a[Type], levels + 1) == [];
    HolderNodes(a, Items, levels + 1);
    assert ValueNodes(One(n), levels + 1) == Nodes(n, levels);
  }

  lemma ArrayEnds(n: Node, a: Node, levels: nat, m: nat, bottom: Node)
    requires a == ArrayOf(n) && Fields(a, levels + 1) && EndsIn(Nodes(n, levels), m, bottom)
    ensures EndsIn(Nodes(a, levels + 1), m, bottom)
  {
    ArrayHolds(n, a, levels);
    EndsWith(a, Nodes(n, levels), m, bottom);
  }

  ghost predicate Long(n: Node, levels: nat, m: nat, bottom: Node) {
    EndsIn(Nodes(n, levels), m, bottom)
  }

  lemma ArrayIsLong(n: Node, a: Node, levels: nat, m: nat, bottom: Node)
    requires a == ArrayOf(n) && Fields(a, levels + 1) && (Fields(n, levels) ==> Long(n, levels, m, bottom))
    ensures Long(a, levels + 1, m, bottom)
  {
    ArrayHolds(n, a, levels);
    ArrayEnds(n, a, levels, m, bottom);
  }

  /** Mentioned where the nodes of a node are to be looked at. */
  ghost predicate Peek(n: Node, levels: int) {
    true
  }

  ghost predicate LongIfGood(n: Node, levels: int, m: nat, bottom: Node) {
    forall x: Node, j: int {:trigger Peek(x, j)} ::
      x == n && j == levels ==> j >= 0 && (Fields(x, j) ==> Long(x, j, m, bottom))
  }

  lemma LongOf(n: Node, levels: int, m: nat, bottom: Node)
    requires LongIfGood(n, levels, m, bottom)
    ensures levels >= 0 && (Fields(n, levels) ==> Long(n, levels, m, bottom))
  {
    assert Peek(n, levels);
  }

  lemma ArrayLongNow(n: Node, a: Node, levels: nat, m: nat, bottom: Node)
    requires a == ArrayOf(n) && (Fields(n, levels) ==> Long(n, levels, m, bottom))
    ensures Fields(a, levels + 1) ==> Long(a, levels + 1, m, bottom)
  {
    if Fields(a, levels + 1) {
      ArrayIsLong(n, a, levels, m, bottom);
    }
  }

  lemma ArrayLongIfGood(n: Node, a: Node, levels: int, m: nat, bottom: Node)
    requires LongIfGood(n, levels, m, bottom) && a == ArrayOf(n)
    ensures LongIfGood(a, levels + 1, m, bottom)
  {
    LongOf(n, levels, m, bottom);
    ArrayLongNow(n, a, levels, m, bottom);
  }

  lemma {:induction false} NestedIsLong(k: nat, x: Node, levels: nat, above: nat, m: nat, bottom: Node)
    requires LongIfGood(x, levels, m, bottom) && above == levels + k
    ensures LongIfGood(NestedOut(k, x), above, m, bottom)
  {
    if k > 0 {
      NestedIsLong(k - 1, x, levels, above - 1, m, bottom);
      ArrayLongIfGood(NestedOut(k - 1, x), NestedOut(k, x), above - 1, m, bottom);
    }
  }

  // ---- The second pass ----

  lemma DifferentStubs(st: Stubs)
    requires st == Stubs(Stub(ELIDED), Stub(TRUNCATED))
    ensures st.bottom != st.cut && StubsOk(st)
  {
    assert |ELIDED| != |TRUNCATED|;
    assert st.bottom[Description] != st.cut[Description];
  }

  lemma TooLong(nodes: seq<Node>, m: nat, st: Stubs)
    requires EndsIn(nodes, m, st.bottom) && m > MAX_NODES && st.bottom != st.cut
    ensures !Tail(nodes, MAX_NODES, st.cut) && |nodes| > MAX_NODES
  {
    assert nodes[|nodes| - 1] != st.cut;
  }

  /** More properties than there are nodes to spend, in a branch of an allOf at the eighth level. */
  function Wide(props: map<string, Json>, k: nat): Json {
    Nested(k, JObj(Folded(props)))
  }

  lemma WideOut(w: Walk, props: map<string, Json>, depth: nat, site: Site, k: nat, st: Stubs)
    requires depth + k + 1 == MAX_DEPTH && props != map[] && w.budget >= k + 2 && st == Stubs(Stub(ELIDED), Stub(TRUNCATED))
    ensures var r := NodeOf(w, Wide(props, k), depth, site);
      r.node == NestedOut(k, FoldedOut(props, st.bottom)) && r.w.dropped == w.dropped
  {
    var f: Sub := (w, raw, site) => NodeOf(w, raw, depth, site);
    WalkIsLevel(f, depth);
    LevelYields(f, depth, k, props, st.bottom);
    assert f(w, Wide(props, k), site) == NodeOf(w, Wide(props, k), depth, site);
  }

  lemma WideNodes(props: map<string, Json>, k: nat, levels: nat, n: Node, st: Stubs)
    requires levels == k + 2 && n == NestedOut(k, FoldedOut(props, st.bottom)) && Fields(n, levels)
    requires |props| > MAX_NODES && st == Stubs(Stub(ELIDED), Stub(TRUNCATED))
    ensures !Tail(Nodes(n, levels), MAX_NODES, st.cut) && |Nodes(n, levels)| > MAX_NODES
  {
    DifferentStubs(st);
    var x := FoldedOut(props, st.bottom);
    var two := levels - k;
    FoldedIsLong(props, st.bottom, two, x);
    NestedIsLong(k, x, two, levels, |props|, st.bottom);
    LongOf(n, levels, |props|, st.bottom);
    TooLong(Nodes(n, levels), |props|, st);
  }

  lemma FoldedIsLong(props: map<string, Json>, bottom: Node, levels: nat, x: Node)
    requires levels > 1 && Flat(bottom) && FormatFits(bottom) && props != map[] && x == FoldedOut(props, bottom)
    ensures LongIfGood(x, levels, |props|, bottom)
  {
    FoldedLongNow(props, bottom, levels, x, Props(AllCut(props, bottom)));
  }

  lemma FoldedLongNow(props: map<string, Json>, bottom: Node, levels: nat, x: Node, v: Value)
    requires levels > 1 && Flat(bottom) && FormatFits(bottom) && props != map[] && v == Props(AllCut(props, bottom))
    requires x == map[Type := Text("object"), Properties := v]
    ensures Fields(x, levels) ==> Long(x, levels, |props|, bottom)
  {
    if Fields(x, levels) {
      FoldedNodes(props, bottom, levels, x, v);
    }
  }

  lemma CutFits(props: map<string, Node>, bottom: Node, levels: nat, x: Node, v: Value)
    requires Flat(bottom) && FormatFits(bottom) && v == Props(props) && (forall p :: p in props ==> props[p] == bottom)
    requires x == map[Type := Text("object"), Properties := v]
    ensures Fits(x, levels)
  {
    if levels > 0 {
      FlatNode(bottom, levels - 1);
    }
    assert ValueFits(v, levels);
  }

  lemma ArrayFits(n: Node, a: Node, levels: nat)
    requires a == ArrayOf(n) && Fits(n, levels)
    ensures Fits(a, levels + 1)
  {
    assert ValueFits(One(n), levels + 1);
  }

  /** FitsAt is Fits, looked into only on demand. */
  ghost predicate FitsAt(n: Node, levels: int) {
    forall x: Node, j: int {:trigger Peek(x, j)} :: x == n && j == levels ==> j >= 0 && Fits(x, j)
  }

  lemma ArrayFitsAt(n: Node, a: Node, levels: int)
    requires a == ArrayOf(n) && FitsAt(n, levels)
    ensures FitsAt(a, levels + 1)
  {
    assert Peek(n, levels);
    ArrayFits(n, a, levels);
  }

  lemma {:induction false} NestedFitsAt(k: nat, x: Node, levels: nat, above: nat)
    requires FitsAt(x, levels) && above == levels + k
    ensures FitsAt(NestedOut(k, x), above)
  {
    if k > 0 {
      NestedFitsAt(k - 1, x, levels, above - 1);
      ArrayFitsAt(NestedOut(k - 1, x), NestedOut(k, x), above - 1);
    }
  }

  lemma WideFits(props: map<string, Json>, k: nat, levels: nat, n: Node, st: Stubs)
    requires levels == k + 2 && n == NestedOut(k, FoldedOut(props, st.bottom)) && StubsOk(st)
    ensures Fits(n, levels)
  {
    var x := FoldedOut(props, st.bottom);
    var two := levels - k;
    CutFits(AllCut(props, st.bottom), st.bottom, two, x, Props(AllCut(props, st.bottom)));
    assert FitsAt(x, two);
    NestedFitsAt(k, x, two, levels);
    assert Peek(n, levels);
  }

  /** The first pass over such a document drops nothing and truncates nothing, and every format fits; the second does
      not return its result all the same. */
  lemma SecondPassTruncates(props: map<string, Json>, w: Walk, depth: nat, site: Site, k: nat, levels: nat)
    requires Fresh(w, depth, site) && levels == MAX_DEPTH + 1 && k + 1 == MAX_DEPTH && |props| > MAX_NODES
    ensures var r := NodeOf(w, Wide(props, k), depth, site);
      && r.w.dropped == {} && Fits(r.node, levels) && |Nodes(r.node, levels)| > MAX_NODES
      && NodeOf(w, ToJson(r.node, levels), depth, site).node != r.node
  {
    assert props != map[];
    var st := Stubs(Stub(ELIDED), Stub(TRUNCATED));
    var n := NodeOf(w, Wide(props, k), depth, site).node;
    WideOut(w, props, depth, site, k, st);
    SchemaTwice.EmittedIsWritten(w, Wide(props, k), depth, site, levels, st);
    WideNodes(props, k, levels, n, st);
    DifferentStubs(st);
    WideFits(props, k, levels, n, st);
    SchemaTwice.SanitiseTwice(Wide(props, k), w, depth, site, levels, st);
  }

  predicate Numbered(p: string, m: nat) {
    exists i: nat :: i < m && p == Itoa(i)
  }

  /** There are such maps. */
  lemma {:induction false} ManyNames(m: nat) returns (props: map<string, Json>)
    ensures |props| == m && forall p :: p in props ==> Numbered(p, m)
  {
    if m == 0 {
      props := map[];
    } else {
      var fewer := ManyNames(m - 1);
      var last := Itoa(m - 1);
      LastIsNew(fewer, m);
      props := fewer[last := JNull];
      assert props.Keys == fewer.Keys + {last};
      forall p | p in props ensures Numbered(p, m) {
        NumberedUpTo(p, m);
      }
    }
  }

  lemma NumberedUpTo(p: string, m: nat)
    requires m > 0 && (p == Itoa(m - 1) || Numbered(p, m - 1))
    ensures Numbered(p, m)
  {
  }

  lemma LastIsNew(fewer: map<string, Json>, m: nat)
    requires m > 0 && forall p :: p in fewer ==> Numbered(p, m - 1)
    ensures Itoa(m - 1) !in fewer
  {
    if Itoa(m - 1) in fewer {
      var i: nat :| i < m - 1 && Itoa(m - 1) == Itoa(i);
      ItoaInjective(m - 1, i);
    }
  }
}
