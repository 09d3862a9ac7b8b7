/** When a schema the sanitiser emits comes back from it unchanged (internal/provider/gemini_schema.go): exactly when
    every format goes with the type beside it and every node past the budget is the stub of a truncated one. */
module SchemaFixpoint {
  import opened Basics
  import opened JsonDoc
  import KeyOrder
  import opened GeminiSchema
  import opened SchemaDepth

  // ---- An emitted node as a document ----

  function StringsToJson(ss: seq<string>): Json {
    JArr(seq(|ss|, i requires 0 <= i < |ss| => JStr(ss[i], None)))
  }

  lemma StringsRead(ss: seq<string>)
    ensures AsStrings(StringsToJson(ss)) == Some(ss)
  {
    assert AsStrings(StringsToJson(ss)).value == ss;
  }

  ghost function Spellings(n: Node): set<string> {
    set k | k in n :: Spelling(k)
  }

  ghost function ValueToJson(v: Value, levels: nat): Json
    decreases levels, 1, v
  {
    match v
    case Text(s) => JStr(s, None)
    case Texts(ss) => StringsToJson(ss)
    case Flag(b) => JBool(b)
    case Num(lit) => JNum(lit)
    case One(node) => if levels == 0 then JNull else ToJson(node, levels - 1)
    case Props(props) => JObj(PropsToJson(props, levels))
    case Many(nodes) => JArr(NodesToJson(nodes, levels))
  }

  ghost function PropsToJson(props: map<string, Node>, levels: nat): map<string, Json>
    decreases levels, 0, props
  {
    map p | p in props :: if levels == 0 then JNull else ToJson(props[p], levels - 1)
  }

  ghost function NodesToJson(nodes: seq<Node>, levels: nat): seq<Json>
    decreases levels, 0, nodes
  {
    seq(|nodes|, i requires 0 <= i < |nodes| => if levels == 0 then JNull else ToJson(nodes[i], levels - 1))
  }

  ghost function Members(n: Node, levels: nat): map<string, Json>
    decreases levels, 2, n
  {
    map s | s in Spellings(n) && KeyOf(s) in n :: ValueToJson(n[KeyOf(s)], levels)
  }

  /** The node written out, to this many levels below it. */
  ghost function ToJson(n: Node, levels: nat): Json
    decreases levels, 3, n
  {
    JObj(Members(n, levels))
  }

  // ---- Its nodes, in the order they are walked ----

  ghost function ValueNodes(v: Value, levels: nat): seq<Node>
    decreases levels, 0, v
  {
    if levels == 0 then []
    else
      match v
      case One(node) => Nodes(node, levels - 1)
      case Props(props) => PropsNodes(props, KeyOrder.Sorted(props.Keys), levels)
      case Many(nodes) => ManyNodes(nodes, 0, levels)
      case _ => []
  }

  ghost function PropsNodes(props: map<string, Node>, names: seq<string>, levels: nat): seq<Node>
    requires levels > 0
    decreases levels - 1, 5, |names|
  {
    if names == [] then []
    else (if names[0] in props then Nodes(props[names[0]], levels - 1) else []) + PropsNodes(props, names[1..], levels)
  }

  ghost function ManyNodes(nodes: seq<Node>, i: nat, levels: nat): seq<Node>
    requires levels > 0
    decreases levels - 1, 5, |nodes| - i
  {
    if i >= |nodes| then [] else Nodes(nodes[i], levels - 1) + ManyNodes(nodes, i + 1, levels)
  }

  ghost function KeysNodes(n: Node, keys: seq<string>, levels: nat): seq<Node>
    decreases levels, 1, |keys|
  {
    if keys == [] then []
    else (if KeyOf(keys[0]) in n then ValueNodes(n[KeyOf(keys[0])], levels) else []) + KeysNodes(n, keys[1..], levels)
  }

  /** The nodes within the depth bound, parents first. */
  ghost function Nodes(n: Node, levels: nat): seq<Node>
    decreases levels, 2, 0
  {
    if levels == 0 then [] else [n] + KeysNodes(n, KeyOrder.Sorted(Members(n, levels).Keys), levels)
  }

  // ---- Formats that fit ----

  function TypeText(n: Node): string {
    if Type in n && n[Type].Text? then n[Type].s else ""
  }

  predicate FormatFits(n: Node) {
    Format in n ==> n[Format].Text? && n[Format].s in Formats(TypeText(n))
  }

  /** Every format in the tree goes with the type beside it. */
  ghost predicate Fits(n: Node, levels: nat)
    decreases levels, 1, n
  {
    FormatFits(n) && forall k :: k in n ==> ValueFits(n[k], levels)
  }

  ghost predicate ValueFits(v: Value, levels: nat)
    decreases levels, 0, v
  {
    levels > 0 ==>
      match v
      case One(node) => Fits(node, levels - 1)
      case Props(props) => forall p :: p in props ==> Fits(props[p], levels - 1)
      case Many(nodes) => forall i :: 0 <= i < |nodes| ==> Fits(nodes[i], levels - 1)
      case _ => true
  }

  // ---- Budgets ----

  function Minus(budget: nat, k: nat): nat {
    if k <= budget then budget - k else 0
  }

  /** Past the budget there are only stubs of truncated schemas. */
  ghost predicate Tail(nodes: seq<Node>, budget: nat, cut: Node) {
    forall i :: budget <= i < |nodes| ==> nodes[i] == cut
  }

  lemma TailSplit(a: seq<Node>, b: seq<Node>, budget: nat, cut: Node)
    ensures Tail(a + b, budget, cut) <==> Tail(a, budget, cut) && Tail(b, Minus(budget, |a|), cut)
    ensures Minus(budget, |a + b|) == Minus(Minus(budget, |a|), |b|)
  {
    if Tail(a + b, budget, cut) {
      forall i | budget <= i < |a| ensures a[i] == cut {
        assert (a + b)[i] == a[i];
      }
      forall i | Minus(budget, |a|) <= i < |b| ensures b[i] == cut {
        assert (a + b)[|a| + i] == b[i];
      }
    }
    if Tail(a, budget, cut) && Tail(b, Minus(budget, |a|), cut) {
      forall i | budget <= i < |a + b| ensures (a + b)[i] == cut {
        assert i >= |a| ==> (a + b)[i] == b[i - |a|];
      }
    }
  }

  /** The stub at the depth bound and the one past the budget. */
  datatype Stubs = Stubs(bottom: Node, cut: Node)

  // ---- Coming back ----

  /** The walk spent its budget on these nodes, and dropped nothing if they fit. */
  ghost predicate Spent(w: Walk, w': Walk, nodes: seq<Node>, fits: bool) {
    w'.budget == Minus(w.budget, |nodes|) && (fits && |nodes| <= w.budget ==> w'.dropped == w.dropped)
  }

  /** One walk after another. */
  lemma SpentBoth(w: Walk, w': Walk, w'': Walk, a: seq<Node>, b: seq<Node>, fitsA: bool, fitsB: bool)
    requires Spent(w, w', a, fitsA) && Spent(w', w'', b, fitsB)
    ensures Spent(w, w'', a + b, fitsA && fitsB)
  {
  }

  ghost predicate Back(w: Walk, r: Out, n: Node, nodes: seq<Node>, fits: bool, cut: Node) {
    Spent(w, r.w, nodes, fits) && (r.node == n <==> fits && Tail(nodes, w.budget, cut))
  }

  /** A node as the walk emits it. */
  ghost predicate Written(n: Node, levels: nat, st: Stubs) {
    Good(n, levels) && Capped(n, levels, st.bottom)
  }

  ghost predicate SubBack(sub: Sub, levels: nat, st: Stubs) {
    forall w: Walk, n: Node, site: Site {:trigger sub(w, ToJson(n, levels), site)} ::
      Written(n, levels, st) ==> Back(w, sub(w, ToJson(n, levels), site), n, Nodes(n, levels), Fits(n, levels), st.cut)
  }

  /** Everything in the first map is as in the second. */
  ghost predicate Part<K, V>(m: map<K, V>, n: map<K, V>) {
    forall k :: k in m ==> k in n && m[k] == n[k]
  }

  lemma PartPut<K, V>(m: map<K, V>, n: map<K, V>, k: K, v: V)
    requires k !in m && k in n
    ensures Part(m[k := v], n) <==> Part(m, n) && v == n[k]
  {
    if Part(m[k := v], n) {
      assert m[k := v][k] == v;
      forall j | j in m ensures j in n && m[j] == n[j] {
        assert m[k := v][j] == m[j];
      }
    }
  }

  lemma PartWhole<K, V>(m: map<K, V>, n: map<K, V>)
    requires m.Keys == n.Keys
    ensures Part(m, n) <==> m == n
  {
  }

  ghost predicate NoRepeats(names: seq<string>) {
    forall i, j :: 0 <= i < j < |names| ==> names[i] != names[j]
  }

  lemma RestIsNew(names: seq<string>)
    requires names != [] && NoRepeats(names)
    ensures NoRepeats(names[1..]) && names[0] !in names[1..]
  {
    assert forall i :: 0 <= i < |names[1..]| ==> names[1..][i] == names[i + 1];
  }

  lemma SortedIsNew(keys: set<string>)
    ensures NoRepeats(KeyOrder.Sorted(keys))
  {
    KeyOrder.SortedAscends(keys);
  }

  // ---- Lists and maps of schemas ----

  ghost predicate NamesFit(props: map<string, Node>, names: seq<string>, levels: nat)
    requires levels > 0
  {
    forall p :: p in names && p in props ==> Fits(props[p], levels - 1)
  }

  lemma NamesFitSplit(props: map<string, Node>, names: seq<string>, levels: nat)
    requires levels > 0 && names != [] && names[0] in props
    ensures NamesFit(props, names, levels) <==> Fits(props[names[0]], levels - 1) && NamesFit(props, names[1..], levels)
  {
    assert names == [names[0]] + names[1..];
  }

  /** The properties of these names have been walked, over those done before. */
  ghost predicate PropsBackTo(w: Walk, r: Named, props: map<string, Node>, names: seq<string>, done: map<string, Node>,
                              nodes: seq<Node>, fits: bool, cut: Node)
  {
    && Spent(w, r.w, nodes, fits)
    && (forall p :: p in r.props <==> p in done || p in names)
    && (Part(r.props, props) <==> Part(done, props) && fits && Tail(nodes, w.budget, cut))
  }

  lemma PropsNext(w: Walk, r: Out, all: Named, props: map<string, Node>, names: seq<string>, done: map<string, Node>,
                  a: seq<Node>, b: seq<Node>, fitsA: bool, fitsB: bool, cut: Node)
    requires names != [] && names[0] in props && names[0] !in done && Back(w, r, props[names[0]], a, fitsA, cut)
    requires PropsBackTo(r.w, all, props, names[1..], done[names[0] := r.node], b, fitsB, cut)
    ensures PropsBackTo(w, all, props, names, done, a + b, fitsA && fitsB, cut)
  {
    PartPut(done, props, names[0], r.node);
    TailSplit(a, b, w.budget, cut);
    SpentBoth(w, r.w, all.w, a, b, fitsA, fitsB);
    assert names == [names[0]] + names[1..];
  }

  lemma {:induction false} PropsBack(sub: Sub, w: Walk, props: map<string, Node>, names: seq<string>, site: Site,
                                     done: map<string, Node>, levels: nat, st: Stubs)
    requires levels > 0 && SubBack(sub, levels - 1, st) && forall name :: name in names ==> name in props
    requires forall p :: p in props ==> Written(props[p], levels - 1, st)
    requires NoRepeats(names) && forall name :: name in names ==> name !in done
    ensures PropsBackTo(w, PropsOf(sub, w, PropsToJson(props, levels), names, site, done), props, names, done,
                        PropsNodes(props, names, levels), NamesFit(props, names, levels), st.cut)
    decreases |names|
  {
    if names != [] {
      var name, rest := names[0], names[1..];
      var n := props[name];
      RestIsNew(names);
      var r := sub(w, ToJson(n, levels - 1), At(site, name));
      assert Back(w, r, n, Nodes(n, levels - 1), Fits(n, levels - 1), st.cut);
      PropsBack(sub, r.w, props, rest, site, done[name := r.node], levels, st);
      NamesFitSplit(props, names, levels);
      PropsNext(w, r, PropsOf(sub, r.w, PropsToJson(props, levels), rest, site, done[name := r.node]), props, names, done,
                Nodes(n, levels - 1), PropsNodes(props, rest, levels), Fits(n, levels - 1), NamesFit(props, rest, levels), st.cut);
    }
  }

  ghost predicate ItemsFit(nodes: seq<Node>, i: nat, levels: nat)
    requires levels > 0
  {
    forall j :: i <= j < |nodes| ==> Fits(nodes[j], levels - 1)
  }

  ghost predicate BranchesBackTo(w: Walk, r: Listed, list: seq<Node>, i: nat, done: seq<Node>, nodes: seq<Node>, fits: bool, cut: Node)
    requires i <= |list|
  {
    Spent(w, r.w, nodes, fits) && (r.nodes == list <==> done == list[..i] && fits && Tail(nodes, w.budget, cut))
  }

  lemma BranchesNext(w: Walk, r: Out, all: Listed, list: seq<Node>, i: nat, done: seq<Node>, a: seq<Node>, b: seq<Node>,
                     fitsA: bool, fitsB: bool, cut: Node)
    requires i < |list| && |done| == i && Back(w, r, list[i], a, fitsA, cut)
    requires BranchesBackTo(r.w, all, list, i + 1, done + [r.node], b, fitsB, cut)
    ensures BranchesBackTo(w, all, list, i, done, a + b, fitsA && fitsB, cut)
  {
    OneMore(done, list, i, r.node);
    TailSplit(a, b, w.budget, cut);
    SpentBoth(w, r.w, all.w, a, b, fitsA, fitsB);
  }

  lemma {:induction false} BranchesBack(sub: Sub, w: Walk, list: seq<Node>, i: nat, site: Site, done: seq<Node>, levels: nat, st: Stubs)
    requires levels > 0 && SubBack(sub, levels - 1, st) && i <= |list| && |done| == i
    requires forall j :: 0 <= j < |list| ==> Written(list[j], levels - 1, st)
    ensures BranchesBackTo(w, Branches(sub, w, NodesToJson(list, levels), i, site, done), list, i, done,
                           ManyNodes(list, i, levels), ItemsFit(list, i, levels), st.cut)
    decreases |list| - i
  {
    if i == |list| {
      assert list[..i] == list;
    } else {
      var n := list[i];
      var r := sub(w, ToJson(n, levels - 1), At(site, Itoa(i)));
      assert Back(w, r, n, Nodes(n, levels - 1), Fits(n, levels - 1), st.cut);
      BranchesBack(sub, r.w, list, i + 1, site, done + [r.node], levels, st);
      ItemsFitSplit(list, i, levels);
      BranchesNext(w, r, Branches(sub, r.w, NodesToJson(list, levels), i + 1, site, done + [r.node]), list, i, done,
                   Nodes(n, levels - 1), ManyNodes(list, i + 1, levels), Fits(n, levels - 1), ItemsFit(list, i + 1, levels), st.cut);
    }
  }

  lemma ItemsFitSplit(nodes: seq<Node>, i: nat, levels: nat)
    requires levels > 0 && i < |nodes|
    ensures ItemsFit(nodes, i, levels) <==> Fits(nodes[i], levels - 1) && ItemsFit(nodes, i + 1, levels)
  {
  }

  lemma OneMore(done: seq<Node>, nodes: seq<Node>, i: nat, n: Node)
    requires i < |nodes| && |done| == i
    ensures done + [n] == nodes[..i + 1] <==> done == nodes[..i] && n == nodes[i]
  {
    assert nodes[..i + 1] == nodes[..i] + [nodes[i]];
    if done + [n] == nodes[..i + 1] {
      assert done == (done + [n])[..i] && n == (done + [n])[i];
    }
  }

  // ---- Keywords ----

  /** One keyword has been put, and comes back as it was exactly when it fits and the budget lasted. */
  ghost predicate PutsBack(acc: Acc, r: Acc, k: Key, v: Value, nodes: seq<Node>, fits: bool, cut: Node) {
    && r.typ == acc.typ && Spent(acc.w, r.w, nodes, fits)
    && k in r.node && r.node == acc.node[k := r.node[k]]
    && (r.node[k] == v <==> fits && Tail(nodes, acc.w.budget, cut))
  }

  lemma PlainBack(acc: Acc, k: Key, name: string, v: Value, levels: nat)
    requires Shape(k, v, levels) && !k.Type? && !k.Format? && !k.Items? && !k.Properties? && !k.AnyOf?
    ensures Plain(acc, k, name, ValueToJson(v, levels), false) == Put(acc, k, v)
    ensures ValueNodes(v, levels) == [] && ValueFits(v, levels)
  {
    if k.Enum? || k.Required? {
      StringsRead(v.ss);
    }
  }

  lemma ChildrenWritten(v: Value, levels: nat, st: Stubs)
    requires levels > 0 && ValueCapped(v, levels, st.bottom)
    requires Shape(Items, v, levels) || Shape(Properties, v, levels) || Shape(AnyOf, v, levels)
    ensures v.One? ==> Written(v.node, levels - 1, st)
    ensures v.Props? ==> forall p :: p in v.props ==> Written(v.props[p], levels - 1, st)
    ensures v.Many? ==> forall i :: 0 <= i < |v.nodes| ==> Written(v.nodes[i], levels - 1, st)
  {
  }

  lemma SameNames(props: map<string, Node>, levels: nat)
    ensures PropsToJson(props, levels).Keys == props.Keys
  {
  }

  lemma AllPropsBack(sub: Sub, w: Walk, props: map<string, Node>, site: Site, levels: nat, st: Stubs, r: Named)
    requires levels > 0 && SubBack(sub, levels - 1, st) && PropsToJson(props, levels).Keys == props.Keys
    requires forall p :: p in props ==> Written(props[p], levels - 1, st)
    requires r == PropsOf(sub, w, PropsToJson(props, levels), KeyOrder.Sorted(props.Keys), site, map[])
    ensures var names := KeyOrder.Sorted(props.Keys);
      PropsBackTo(w, r, props, names, map[], PropsNodes(props, names, levels), NamesFit(props, names, levels), st.cut)
  {
    SortedIsNew(props.Keys);
    PropsBack(sub, w, props, KeyOrder.Sorted(props.Keys), site, map[], levels, st);
  }

  lemma NamesFitAll(v: Value, levels: nat)
    requires v.Props? && levels > 0
    ensures NamesFit(v.props, KeyOrder.Sorted(v.props.Keys), levels) <==> ValueFits(v, levels)
  {
  }

  lemma ObjectPuts(acc: Acc, r: Named, v: Value, names: seq<string>, nodes: seq<Node>, fits: bool, cut: Node)
    requires v.Props? && (forall p :: p in names <==> p in v.props) && v.props != map[]
    requires PropsBackTo(acc.w, r, v.props, names, map[], nodes, fits, cut)
    ensures r.props != map[] && PutsBack(acc, Put(acc.(w := r.w), Properties, Props(r.props)), Properties, v, nodes, fits, cut)
  {
    assert r.props.Keys == v.props.Keys;
    PartWhole(r.props, v.props);
  }

  lemma ObjectBack(sub: Sub, acc: Acc, name: string, v: Value, site: Site, levels: nat, st: Stubs)
    requires Shape(Properties, v, levels) && ValueCapped(v, levels, st.bottom) && SubBack(sub, levels - 1, st)
    ensures PutsBack(acc, Object(sub, acc, name, ValueToJson(v, levels), site), Properties, v,
                     ValueNodes(v, levels), ValueFits(v, levels), st.cut)
  {
    ChildrenWritten(v, levels, st);
    SameNames(v.props, levels);
    var names := KeyOrder.Sorted(v.props.Keys);
    var r := PropsOf(sub, acc.w, PropsToJson(v.props, levels), names, site, map[]);
    AllPropsBack(sub, acc.w, v.props, site, levels, st, r);
    NamesFitAll(v, levels);
    ObjectPuts(acc, r, v, names, PropsNodes(v.props, names, levels), NamesFit(v.props, names, levels), st.cut);
  }

  lemma UnionBack(sub: Sub, acc: Acc, name: string, v: Value, site: Site, levels: nat, st: Stubs)
    requires Shape(AnyOf, v, levels) && ValueCapped(v, levels, st.bottom) && SubBack(sub, levels - 1, st)
    ensures PutsBack(acc, Union(sub, acc, name, ValueToJson(v, levels), site), AnyOf, v,
                     ValueNodes(v, levels), ValueFits(v, levels), st.cut)
  {
    ChildrenWritten(v, levels, st);
    assert ItemsFit(v.nodes, 0, levels) <==> ValueFits(v, levels);
    assert v.nodes[..0] == [];
    BranchesBack(sub, acc.w, v.nodes, 0, site, [], levels, st);
    assert NodesToJson(v.nodes, levels) != [];
  }

  lemma ItemsBack(sub: Sub, acc: Acc, v: Value, site: Site, levels: nat, st: Stubs)
    requires Shape(Items, v, levels) && ValueCapped(v, levels, st.bottom) && SubBack(sub, levels - 1, st)
    ensures PutsBack(acc, ItemsOf(sub, acc, ValueToJson(v, levels), site), Items, v,
                     ValueNodes(v, levels), ValueFits(v, levels), st.cut)
  {
    ChildrenWritten(v, levels, st);
    var r := sub(acc.w, ToJson(v.node, levels - 1), site);
    assert Back(acc.w, r, v.node, Nodes(v.node, levels - 1), Fits(v.node, levels - 1), st.cut);
  }

  lemma KeywordBack(sub: Sub, acc: Acc, k: Key, name: string, v: Value, site: Site, levels: nat, st: Stubs)
    requires Shape(k, v, levels) && ValueCapped(v, levels, st.bottom) && (levels > 0 ==> SubBack(sub, levels - 1, st))
    requires !k.Type? && !k.Format?
    ensures PutsBack(acc, Keyword(sub, acc, k, name, ValueToJson(v, levels), site, false), k, v,
                     ValueNodes(v, levels), ValueFits(v, levels), st.cut)
  {
    if k.Items? {
      ItemsBack(sub, acc, v, At(site, name), levels, st);
    } else if k.Properties? {
      ObjectBack(sub, acc, name, v, At(site, name), levels, st);
    } else if k.AnyOf? {
      UnionBack(sub, acc, name, v, At(site, name), levels, st);
    } else {
      PlainBack(acc, k, name, v, levels);
    }
  }

  // ---- The keys of a written node ----

  predicate Emitted(k: Key) {
    k.Type? || k.Format? || k.Description? || k.Pattern? || k.Enum? || k.Nullable? || k.Minimum? || k.Maximum? ||
    k.MinItems? || k.MaxItems? || k.MinLength? || k.MaxLength? || k.Items? || k.Properties? || k.Required? || k.AnyOf?
  }

  lemma KeyRoundTrip(k: Key)
    requires Emitted(k)
    ensures KeyOf(Spelling(k)) == k
  {
  }

  lemma MembersAre(n: Node, levels: nat)
    requires Fields(n, levels)
    ensures forall s :: s in Members(n, levels) <==> KeyOf(s) in n
  {
    forall s ensures s in Members(n, levels) <==> KeyOf(s) in n {
      if KeyOf(s) in n {
        assert Spelling(KeyOf(s)) in Spellings(n);
      }
    }
    forall k | k in n ensures KeyOf(Spelling(k)) == k {
      assert Shape(k, n[k], levels);
      KeyRoundTrip(k);
    }
  }

  predicate Late(k: Key) {
    k.Type? || k.Format?
  }

  ghost predicate KeysFit(n: Node, keys: seq<string>, levels: nat) {
    forall s :: s in keys && KeyOf(s) in n ==> ValueFits(n[KeyOf(s)], levels)
  }

  /** The keywords of these names have been put. */
  ghost predicate KeysBackTo(acc: Acc, r: Acc, n: Node, keys: seq<string>, nodes: seq<Node>, fits: bool, cut: Node) {
    && r.typ == acc.typ && Spent(acc.w, r.w, nodes, fits)
    && (forall k :: k in r.node <==> k in acc.node || (!Late(k) && HasKey(keys, k)))
    && (forall k :: k in acc.node && Late(k) ==> k in r.node && r.node[k] == acc.node[k])
    && (Part(r.node, n) <==> Part(acc.node, n) && fits && Tail(nodes, acc.w.budget, cut))
  }

  ghost predicate HasKey(keys: seq<string>, k: Key) {
    exists s :: s in keys && KeyOf(s) == k
  }

  lemma HasKeySplit(keys: seq<string>, k: Key)
    requires keys != []
    ensures HasKey(keys, k) <==> KeyOf(keys[0]) == k || HasKey(keys[1..], k)
  {
    assert forall s :: s in keys <==> s == keys[0] || s in keys[1..];
  }

  lemma KeysFitSplit(n: Node, keys: seq<string>, levels: nat)
    requires keys != [] && KeyOf(keys[0]) in n
    ensures KeysFit(n, keys, levels) <==> ValueFits(n[KeyOf(keys[0])], levels) && KeysFit(n, keys[1..], levels)
  {
    assert keys == [keys[0]] + keys[1..];
  }

  lemma LateIsFlat(n: Node, k: Key, levels: nat)
    requires Fields(n, levels) && k in n && Late(k)
    ensures ValueNodes(n[k], levels) == [] && ValueFits(n[k], levels)
  {
    assert Shape(k, n[k], levels);
  }

  lemma LateNext(acc: Acc, r: Acc, n: Node, keys: seq<string>, nodes: seq<Node>, fits: bool, cut: Node)
    requires keys != [] && Late(KeyOf(keys[0])) && KeysBackTo(acc, r, n, keys[1..], nodes, fits, cut)
    ensures KeysBackTo(acc, r, n, keys, nodes, fits, cut)
  {
    forall k ensures HasKey(keys, k) <==> KeyOf(keys[0]) == k || HasKey(keys[1..], k) {
      HasKeySplit(keys, k);
    }
  }

  lemma KeyNext(acc: Acc, acc': Acc, r: Acc, n: Node, keys: seq<string>, k: Key, a: seq<Node>, b: seq<Node>,
                fitsA: bool, fitsB: bool, cut: Node)
    requires keys != [] && k == KeyOf(keys[0]) && k in n && !Late(k) && k !in acc.node
    requires PutsBack(acc, acc', k, n[k], a, fitsA, cut) && KeysBackTo(acc', r, n, keys[1..], b, fitsB, cut)
    ensures KeysBackTo(acc, r, n, keys, a + b, fitsA && fitsB, cut)
  {
    PartPut(acc.node, n, k, acc'.node[k]);
    TailSplit(a, b, acc.w.budget, cut);
    SpentBoth(acc.w, acc'.w, r.w, a, b, fitsA, fitsB);
    forall j ensures HasKey(keys, j) <==> k == j || HasKey(keys[1..], j) {
      HasKeySplit(keys, j);
    }
  }

  lemma NextNodes(n: Node, keys: seq<string>, levels: nat)
    requires keys != [] && KeyOf(keys[0]) in n
    ensures KeysNodes(n, keys, levels) == ValueNodes(n[KeyOf(keys[0])], levels) + KeysNodes(n, keys[1..], levels)
  {
  }

  /** One name has been walked. */
  ghost predicate OneBackTo(acc: Acc, r: Acc, n: Node, k: Key, nodes: seq<Node>, fits: bool, cut: Node)
    requires k in n
  {
    if Late(k) then r == acc && nodes == [] && fits else PutsBack(acc, r, k, n[k], nodes, fits, cut)
  }

  lemma OneKeyBack(sub: Sub, acc: Acc, n: Node, name: string, site: Site, levels: nat, st: Stubs)
    requires Written(n, levels, st) && (levels > 0 ==> SubBack(sub, levels - 1, st))
    requires KeyOf(name) in n && name in Members(n, levels)
    ensures var k := KeyOf(name);
      OneBackTo(acc, Keyword(sub, acc, k, name, Members(n, levels)[name], site, false), n, k,
                ValueNodes(n[k], levels), ValueFits(n[k], levels), st.cut)
  {
    var k := KeyOf(name);
    ValueWritten(n, k, levels, st);
    if Late(k) {
      LateIsFlat(n, k, levels);
    } else {
      KeywordBack(sub, acc, k, name, n[k], site, levels, st);
    }
  }

  lemma NamesLeft(keys: seq<string>, acc: Acc, acc': Acc)
    requires keys != [] && NoRepeats(keys) && forall s :: s in keys && KeyOf(s) in acc.node ==> Late(KeyOf(s))
    requires acc'.node.Keys <= acc.node.Keys + {KeyOf(keys[0])}
    ensures NoRepeats(keys[1..]) && forall s :: s in keys[1..] && KeyOf(s) in acc'.node ==> Late(KeyOf(s))
  {
    RestIsNew(keys);
    OneSpelling(keys[1..], keys[0]);
  }

  lemma NextKeys(acc: Acc, acc': Acc, r: Acc, n: Node, keys: seq<string>, k: Key, a: seq<Node>, b: seq<Node>,
                 fitsA: bool, fitsB: bool, cut: Node)
    requires keys != [] && k == KeyOf(keys[0]) && k in n && (k in acc.node ==> Late(k))
    requires OneBackTo(acc, acc', n, k, a, fitsA, cut) && KeysBackTo(acc', r, n, keys[1..], b, fitsB, cut)
    ensures KeysBackTo(acc, r, n, keys, a + b, fitsA && fitsB, cut)
  {
    if Late(k) {
      assert a + b == b;
      LateNext(acc, r, n, keys, b, fitsB, cut);
    } else {
      KeyNext(acc, acc', r, n, keys, k, a, b, fitsA, fitsB, cut);
    }
  }

  lemma {:induction false} KeywordsBack(sub: Sub, acc: Acc, n: Node, keys: seq<string>, site: Site, levels: nat, st: Stubs)
    requires Written(n, levels, st) && (levels > 0 ==> SubBack(sub, levels - 1, st))
    requires forall s :: s in keys ==> KeyOf(s) in n && s in Members(n, levels)
    requires NoRepeats(keys) && forall s :: s in keys && KeyOf(s) in acc.node ==> Late(KeyOf(s))
    ensures KeysBackTo(acc, Keywords(sub, acc, Members(n, levels), keys, site, false), n, keys,
                       KeysNodes(n, keys, levels), KeysFit(n, keys, levels), st.cut)
    decreases |keys|
  {
    if keys != [] {
      var name, rest := keys[0], keys[1..];
      var k := KeyOf(name);
      KeysFitSplit(n, keys, levels);
      NextNodes(n, keys, levels);
      OneKeyBack(sub, acc, n, name, site, levels, st);
      var acc' := Keyword(sub, acc, k, name, Members(n, levels)[name], site, false);
      NamesLeft(keys, acc, acc');
      KeywordsBack(sub, acc', n, rest, site, levels, st);
      NextKeys(acc, acc', Keywords(sub, acc', Members(n, levels), rest, site, false), n, keys, k,
               ValueNodes(n[k], levels), KeysNodes(n, rest, levels), ValueFits(n[k], levels), KeysFit(n, rest, levels), st.cut);
    }
  }

  lemma ValueWritten(n: Node, k: Key, levels: nat, st: Stubs)
    requires Written(n, levels, st) && k in n
    ensures Shape(k, n[k], levels) && ValueCapped(n[k], levels, st.bottom)
  {
    assert Fields(n, levels);
  }

  lemma OneSpelling(rest: seq<string>, name: string)
    requires name !in rest
    ensures forall s :: s in rest ==> KeyOf(s) != KeyOf(name)
  {
    forall s | s in rest ensures KeyOf(s) != KeyOf(name) {
      assert Spelling(KeyOf(s)) == s && Spelling(KeyOf(name)) == name;
    }
  }

  // ---- A whole node ----

  lemma StartBack(n: Node, levels: nat)
    requires Good(n, levels)
    ensures var t := NodeType(Members(n, levels));
      && !t.nullable && t.typ == TypeText(n)
      && Start(t) == (if Type in n then map[Type := n[Type]] else map[])
  {
    MembersAre(n, levels);
    assert KeyOf("type") == Type;
    if Type in n {
      assert Shape(Type, n[Type], levels);
    }
  }

  /** A format that does not fit is dropped. */
  lemma FormatBack(acc: Acc, n: Node, levels: nat, name: string)
    requires Good(n, levels) && acc.typ == TypeText(n) && name == "format" && KeyOf(name) == Format
    ensures AddFormat(acc, Members(n, levels)) ==
      if Format !in n then acc else if FormatFits(n) then Put(acc, Format, n[Format]) else Dropping(acc, name)
  {
    MembersAre(n, levels);
    if Format in n {
      assert Shape(Format, n[Format], levels);
      assert Members(n, levels)[name] == ValueToJson(n[Format], levels) == JStr(n[Format].s, None);
    }
  }

  lemma SettledAlready(acc: Acc, n: Node)
    requires Closed(n) && n.Keys - {Format} <= acc.node.Keys <= n.Keys && (Type in n ==> acc.node[Type] == n[Type])
    ensures SettleEnum(acc) == acc && SettleType(acc.node) == acc.node
  {
    assert Type in n ==> Type in acc.node;
    assert AnyOf in n ==> AnyOf in acc.node;
    assert acc.node != map[];
  }

  lemma FinishBack(acc: Acc, n: Node, levels: nat)
    requires Good(n, levels) && acc.typ == TypeText(n) && acc.node.Keys == n.Keys - {Format}
    requires Type in n ==> acc.node[Type] == n[Type]
    ensures var r := Finish(acc, Members(n, levels));
      && r.w.budget == acc.w.budget && (FormatFits(n) ==> r.w.dropped == acc.w.dropped)
      && (r.node == n <==> Part(acc.node, n) && FormatFits(n))
  {
    FormatBack(acc, n, levels, "format");
    var formatted := AddFormat(acc, Members(n, levels));
    SettledAlready(formatted, n);
    if Format in n && FormatFits(n) {
      PartPut(acc.node, n, Format, n[Format]);
      PartWhole(formatted.node, n);
    } else if Format !in n {
      PartWhole(formatted.node, n);
    } else {
      assert Format !in formatted.node;
    }
  }

  lemma Absent(n: Node, levels: nat, s: string)
    requires Fields(n, levels) && !Emitted(KeyOf(s))
    ensures s !in Members(n, levels)
  {
    MembersAre(n, levels);
  }

  lemma NotEmitted()
    ensures !Emitted(KeyOf("$ref")) && !Emitted(KeyOf("allOf"))
    ensures !Emitted(KeyOf("$defs")) && !Emitted(KeyOf("definitions"))
  {
  }

  lemma NoneOfThese(n: Node, levels: nat)
    requires Fields(n, levels)
    ensures var m := Members(n, levels); "$ref" !in m && "allOf" !in m && "$defs" !in m && "definitions" !in m
  {
    NotEmitted();
    Absent(n, levels, "$ref");
    Absent(n, levels, "allOf");
    Absent(n, levels, "$defs");
    Absent(n, levels, "definitions");
  }

  lemma CollectsNothing(w: Walk, members: map<string, Json>, key: string, path: string)
    requires key !in members
    ensures Collect1(w, members, key, path) == w
  {
    assert Filed(map[], Child(path, key)) == map[];
    assert w.defs + map[] == w.defs;
  }

  ghost function StartOf(w: Walk, n: Node): Acc {
    Acc(w, if Type in n then map[Type := n[Type]] else map[], TypeText(n))
  }

  /** The node before it is closed. */
  ghost function Gathered(sub: Sub, w: Walk, n: Node, site: Site, levels: nat): Acc {
    Keywords(sub, StartOf(w, n), Members(n, levels), KeyOrder.Sorted(Members(n, levels).Keys), site, false)
  }

  lemma GatheredBack(sub: Sub, w: Walk, n: Node, keys: seq<string>, site: Site, levels: nat, st: Stubs)
    requires Written(n, levels, st) && (levels > 0 ==> SubBack(sub, levels - 1, st))
    requires keys == KeyOrder.Sorted(Members(n, levels).Keys)
    ensures KeysBackTo(StartOf(w, n), Gathered(sub, w, n, site, levels), n, keys,
                       KeysNodes(n, keys, levels), KeysFit(n, keys, levels), st.cut)
  {
    MembersAre(n, levels);
    SortedIsNew(Members(n, levels).Keys);
    KeywordsBack(sub, StartOf(w, n), n, keys, site, levels, st);
  }

  lemma GatheredKeys(w: Walk, n: Node, acc: Acc, keys: seq<string>, nodes: seq<Node>, fits: bool, cut: Node)
    requires KeysBackTo(StartOf(w, n), acc, n, keys, nodes, fits, cut) && forall k :: k in n <==> HasKey(keys, k)
    ensures acc.node.Keys == n.Keys - {Format} && (Type in n ==> acc.node[Type] == n[Type])
    ensures Part(StartOf(w, n).node, n)
  {
    forall k ensures k in acc.node <==> k in n && !k.Format? {
      assert k in StartOf(w, n).node <==> k in n && k.Type?;
    }
    assert Type in n ==> Type in StartOf(w, n).node && Late(Type);
  }

  lemma RewriteIs(sub: Sub, w: Walk, n: Node, depth: nat, site: Site, levels: nat)
    requires Good(n, levels)
    ensures Rewrite(sub, w, Members(n, levels), depth, site) == Finish(Gathered(sub, w, n, site, levels), Members(n, levels))
  {
    NoneOfThese(n, levels);
    StartBack(n, levels);
  }

  lemma RewriteBack(sub: Sub, w: Walk, n: Node, keys: seq<string>, depth: nat, site: Site, levels: nat, st: Stubs)
    requires Written(n, levels, st) && (levels > 0 ==> SubBack(sub, levels - 1, st))
    requires keys == KeyOrder.Sorted(Members(n, levels).Keys)
    ensures Back(w, Rewrite(sub, w, Members(n, levels), depth, site), n, KeysNodes(n, keys, levels), Fits(n, levels), st.cut)
  {
    RewriteIs(sub, w, n, depth, site, levels);
    var acc := Gathered(sub, w, n, site, levels);
    GatheredBack(sub, w, n, keys, site, levels, st);
    KeysAreThere(n, keys, levels);
    GatheredKeys(w, n, acc, keys, KeysNodes(n, keys, levels), KeysFit(n, keys, levels), st.cut);
    AllFit(n, keys, levels);
    FinishBack(acc, n, levels);
    Closing(w, acc, Finish(acc, Members(n, levels)), n, keys, KeysNodes(n, keys, levels), KeysFit(n, keys, levels), Fits(n, levels), st.cut);
  }

  lemma Closing(w: Walk, acc: Acc, r: Out, n: Node, keys: seq<string>, nodes: seq<Node>, keysFit: bool, fits: bool, cut: Node)
    requires KeysBackTo(StartOf(w, n), acc, n, keys, nodes, keysFit, cut) && Part(StartOf(w, n).node, n)
    requires fits <==> FormatFits(n) && keysFit
    requires r.w.budget == acc.w.budget && (FormatFits(n) ==> r.w.dropped == acc.w.dropped)
    requires r.node == n <==> Part(acc.node, n) && FormatFits(n)
    ensures Back(w, r, n, nodes, fits, cut)
  {
  }

  lemma KeysAreThere(n: Node, keys: seq<string>, levels: nat)
    requires Fields(n, levels) && keys == KeyOrder.Sorted(Members(n, levels).Keys)
    ensures forall k :: k in n <==> HasKey(keys, k)
  {
    MembersAre(n, levels);
    forall k | k in n ensures HasKey(keys, k) {
      assert Shape(k, n[k], levels);
      KeyRoundTrip(k);
      assert Spelling(k) in keys && KeyOf(Spelling(k)) == k;
    }
  }

  lemma AllFit(n: Node, keys: seq<string>, levels: nat)
    requires forall k :: k in n <==> HasKey(keys, k)
    ensures Fits(n, levels) <==> FormatFits(n) && KeysFit(n, keys, levels)
  {
    if KeysFit(n, keys, levels) {
      forall k | k in n ensures ValueFits(n[k], levels) {
        assert HasKey(keys, k);
        var s :| s in keys && KeyOf(s) == k;
      }
    }
  }

  lemma FlatNode(n: Node, levels: nat)
    requires Flat(n) && FormatFits(n)
    ensures Fits(n, levels)
    ensures forall keys :: KeysNodes(n, keys, levels) == []
  {
    forall keys ensures KeysNodes(n, keys, levels) == [] {
      FlatKeys(n, keys, levels);
    }
  }

  lemma {:induction false} FlatKeys(n: Node, keys: seq<string>, levels: nat)
    requires Flat(n)
    ensures KeysNodes(n, keys, levels) == []
    decreases |keys|
  {
    if keys != [] {
      FlatKeys(n, keys[1..], levels);
    }
  }

  ghost predicate StubsOk(st: Stubs) {
    Flat(st.bottom) && FormatFits(st.bottom) && Flat(st.cut) && FormatFits(st.cut)
  }

  /** Out of budget, only the stub that says so comes back. */
  lemma CutBack(w: Walk, r: Out, n: Node, rest: seq<Node>, fits: bool, cut: Node)
    requires w.budget == 0 && r.w.budget == 0 && r.node == cut && (n == cut ==> fits && rest == [])
    ensures Back(w, r, n, [n] + rest, fits, cut)
  {
    assert ([n] + rest)[0] == n;
  }

  /** With budget left the node itself takes one. */
  lemma ExpandedBack(w: Walk, w': Walk, r: Out, n: Node, rest: seq<Node>, fits: bool, cut: Node)
    requires w.budget > 0 && w'.budget == w.budget - 1 && w'.dropped == w.dropped && Back(w', r, n, rest, fits, cut)
    ensures Back(w, r, n, [n] + rest, fits, cut)
  {
    TailSplit([n], rest, w.budget, cut);
  }

  lemma NodeViaBack(sub: Sub, w: Walk, n: Node, rest: seq<Node>, depth: nat, site: Site, levels: nat, st: Stubs)
    requires Written(n, levels, st) && levels > 0 && SubBack(sub, levels - 1, st) && StubsOk(st) && st.cut == Stub(TRUNCATED)
    requires rest == KeysNodes(n, KeyOrder.Sorted(Members(n, levels).Keys), levels)
    ensures Back(w, NodeVia(sub, w, ToJson(n, levels), depth, site), n, [n] + rest, Fits(n, levels), st.cut)
  {
    var r := NodeVia(sub, w, ToJson(n, levels), depth, site);
    if w.budget == 0 {
      FlatCut(n, rest, levels, st);
      NodeViaCut(sub, w, ToJson(n, levels), depth, site, st.cut);
      CutBack(w, r, n, rest, Fits(n, levels), st.cut);
    } else {
      BudgetBack(sub, w, n, rest, depth, site, levels, st, r);
    }
  }

  lemma FlatCut(n: Node, rest: seq<Node>, levels: nat, st: Stubs)
    requires StubsOk(st) && rest == KeysNodes(n, KeyOrder.Sorted(Members(n, levels).Keys), levels)
    ensures n == st.cut ==> Fits(n, levels) && rest == []
  {
    if n == st.cut {
      FlatNode(n, levels);
    }
  }

  lemma BudgetBack(sub: Sub, w: Walk, n: Node, rest: seq<Node>, depth: nat, site: Site, levels: nat, st: Stubs, r: Out)
    requires Written(n, levels, st) && levels > 0 && SubBack(sub, levels - 1, st) && w.budget > 0
    requires rest == KeysNodes(n, KeyOrder.Sorted(Members(n, levels).Keys), levels)
    requires r == NodeVia(sub, w, ToJson(n, levels), depth, site)
    ensures Back(w, r, n, [n] + rest, Fits(n, levels), st.cut)
  {
    var w' := Expand(w, ToJson(n, levels), depth, site);
    RewriteBack(sub, w', n, KeyOrder.Sorted(Members(n, levels).Keys), depth, site, levels, st);
    NodeViaIs(sub, w, n, depth, site, levels);
    ExpandedBack(w, w', r, n, rest, Fits(n, levels), st.cut);
  }

  lemma NodeViaCut(sub: Sub, w: Walk, raw: Json, depth: nat, site: Site, cut: Node)
    requires w.budget == 0 && cut == Stub(TRUNCATED)
    ensures NodeVia(sub, w, raw, depth, site).node == cut && NodeVia(sub, w, raw, depth, site).w.budget == 0
  {
  }

  lemma NodeViaIs(sub: Sub, w: Walk, n: Node, depth: nat, site: Site, levels: nat)
    requires Good(n, levels) && w.budget > 0
    ensures NodeVia(sub, w, ToJson(n, levels), depth, site) ==
      Rewrite(sub, Expand(w, ToJson(n, levels), depth, site), Members(n, levels), depth, site)
  {
    NoneOfThese(n, levels);
    var w' := Expand(w, ToJson(n, levels), depth, site);
    CollectsNothing(w', Members(n, levels), "$defs", site.path);
    CollectsNothing(w', Members(n, levels), "definitions", site.path);
  }

  // ---- The whole walk ----

  lemma StopBack(f: Sub, levels: nat, st: Stubs)
    requires Stops(f) && levels == 0 && StubsOk(st) && st.bottom == Stub(ELIDED)
    ensures SubBack(f, levels, st)
  {
    forall w: Walk, n: Node, site: Site | Written(n, levels, st)
      ensures Back(w, f(w, ToJson(n, levels), site), n, Nodes(n, levels), Fits(n, levels), st.cut)
    {
      assert Asked(f, w, ToJson(n, levels), site);
      FlatNode(n, levels);
    }
  }

  lemma StepBack(f: Sub, sub: Sub, depth: nat, levels: nat, st: Stubs)
    requires Steps(f, sub, depth) && levels > 0 && SubBack(sub, levels - 1, st) && StubsOk(st) && st.cut == Stub(TRUNCATED)
    ensures SubBack(f, levels, st)
  {
    forall w: Walk, n: Node, site: Site | Written(n, levels, st)
      ensures Back(w, f(w, ToJson(n, levels), site), n, Nodes(n, levels), Fits(n, levels), st.cut)
    {
      assert Asked(f, w, ToJson(n, levels), site);
      NodeViaBack(sub, w, n, KeysNodes(n, KeyOrder.Sorted(Members(n, levels).Keys), levels), depth, site, levels, st);
    }
  }

  lemma {:induction false} LevelBack(f: Sub, depth: nat, levels: nat, st: Stubs)
    requires depth + levels == MAX_DEPTH + 1 && Level(f, depth) && StubsOk(st) && st == Stubs(Stub(ELIDED), Stub(TRUNCATED))
    ensures SubBack(f, levels, st)
    decreases levels
  {
    if levels == 0 {
      StopBack(f, levels, st);
    } else {
      var sub :| Level(sub, depth + 1) && Steps(f, sub, depth);
      LevelBack(sub, depth + 1, levels - 1, st);
      StepBack(f, sub, depth, levels, st);
    }
  }

  lemma StubsAreOk()
    ensures StubsOk(Stubs(Stub(ELIDED), Stub(TRUNCATED)))
  {
  }

  /** What the walk makes of a node it could itself have emitted. The node comes back if and only if every format in it
      goes with the type beside it and past the budget there are only stubs of truncated schemas; if it also fits the
      budget, nothing is dropped. */
  lemma NodeBack(w: Walk, n: Node, depth: nat, site: Site, levels: nat, st: Stubs)
    requires depth + levels == MAX_DEPTH + 1 && st == Stubs(Stub(ELIDED), Stub(TRUNCATED)) && Written(n, levels, st)
    ensures var r := NodeOf(w, ToJson(n, levels), depth, site);
      && (r.node == n <==> Fits(n, levels) && Tail(Nodes(n, levels), w.budget, st.cut))
      && (Fits(n, levels) && |Nodes(n, levels)| <= w.budget ==> r.w.dropped == w.dropped)
  {
    StubsAreOk();
    var f: Sub := (w, raw, site) => NodeOf(w, raw, depth, site);
    WalkIsLevel(f, depth);
    LevelBack(f, depth, levels, st);
    assert Back(w, f(w, ToJson(n, levels), site), n, Nodes(n, levels), Fits(n, levels), st.cut);
  }
}
