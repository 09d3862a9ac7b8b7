/** What folding an allOf into a node does (internal/provider/gemini_schema.go: mergeAllOf), and what it does to
    the format that is checked after it against the type before it. */
module SchemaMerge {
  import opened Basics
  import opened JsonDoc
  import KeyOrder
  import opened GeminiSchema
  import opened SchemaFixpoint

  // ---- Names merged as a set ----

  lemma {:induction false} AddNamesIsUnion(names: seq<string>, more: seq<string>)
    ensures names <= AddNames(names, more)
    ensures forall x :: x in AddNames(names, more) <==> x in names || x in more
    ensures NoRepeats(names) ==> NoRepeats(AddNames(names, more))
    decreases |more|
  {
    if more != [] {
      AddNamesIsUnion(if more[0] in names then names else names + [more[0]], more[1..]);
      assert more == [more[0]] + more[1..];
    }
  }

  /** Each required name of the node and of its branches is there; what the node listed comes first, in its order,
      and no branch adds a name twice. */
  lemma {:induction false} RequiredIsUnion(names: seq<string>, nodes: seq<Node>)
    ensures names <= AddRequired(names, nodes)
    ensures forall x :: x in AddRequired(names, nodes) <==>
      x in names || exists i :: 0 <= i < |nodes| && x in RequiredIn(nodes[i])
    ensures NoRepeats(names) ==> NoRepeats(AddRequired(names, nodes))
    decreases |nodes|
  {
    if nodes != [] {
      var names' := AddNames(names, RequiredIn(nodes[0]));
      AddNamesIsUnion(names, RequiredIn(nodes[0]));
      RequiredIsUnion(names', nodes[1..]);
      forall x ensures x in AddRequired(names, nodes) <==>
        x in names || exists i :: 0 <= i < |nodes| && x in RequiredIn(nodes[i])
      {
        if i :| 0 <= i < |nodes| && x in RequiredIn(nodes[i]) {
          assert i > 0 ==> nodes[1..][i - 1] == nodes[i];
        }
        if j :| 0 <= j < |nodes[1..]| && x in RequiredIn(nodes[1..][j]) {
          assert nodes[1..][j] == nodes[j + 1];
        }
      }
    }
  }

  /** The value of a property when later branches override earlier ones and the node itself. */
  ghost function LastOf(props: map<string, Node>, nodes: seq<Node>, p: string): Option<Node> {
    if nodes == [] then (if p in props then Some(props[p]) else None)
    else
      var last := PropsIn(nodes[|nodes| - 1]);
      if p in last then Some(last[p]) else LastOf(props, nodes[..|nodes| - 1], p)
  }

  lemma {:induction false} LastOfShift(props: map<string, Node>, nodes: seq<Node>, p: string)
    requires nodes != []
    ensures LastOf(props, nodes, p) == LastOf(props + PropsIn(nodes[0]), nodes[1..], p)
    decreases |nodes|
  {
    if |nodes| > 1 {
      var rest := nodes[1..];
      assert rest[|rest| - 1] == nodes[|nodes| - 1];
      assert rest[..|rest| - 1] == nodes[..|nodes| - 1][1..];
      assert nodes[..|nodes| - 1][0] == nodes[0];
      LastOfShift(props, nodes[..|nodes| - 1], p);
    } else {
      assert nodes[..0] == [] && nodes[1..] == [];
    }
  }

  /** A property has the schema of the last branch that has it. */
  lemma {:induction false} LastBranchWins(props: map<string, Node>, nodes: seq<Node>, p: string)
    ensures var r := AddProps(props, nodes);
      LastOf(props, nodes, p) == (if p in r then Some(r[p]) else None)
    decreases |nodes|
  {
    if nodes != [] {
      LastOfShift(props, nodes, p);
      LastBranchWins(props + PropsIn(nodes[0]), nodes[1..], p);
    }
  }

  // ---- The type a format is checked against ----

  /** The resolved type is the emitted one, and no format is there yet. */
  ghost predicate Tracks(acc: Acc) {
    && Format !in acc.node
    && (if acc.typ == "" then Type !in acc.node else Type in acc.node && acc.node[Type] == Text(acc.typ))
  }

  ghost predicate Follows(acc: Acc, r: Acc) {
    Tracks(r) && acc.node.Keys <= r.node.Keys && (acc.typ != "" ==> r.typ == acc.typ)
  }

  lemma PutFollows(acc: Acc, w: Walk, k: Key, v: Value)
    requires Tracks(acc) && !k.Type? && !k.Format?
    ensures Follows(acc, Put(acc.(w := w), k, v)) && k in Put(acc.(w := w), k, v).node
  {
  }

  lemma DroppingFollows(acc: Acc, name: string)
    requires Tracks(acc)
    ensures Follows(acc, acc) && Follows(acc, Dropping(acc, name))
  {
  }

  lemma RequiredFollows(acc: Acc, name: string, v: Json, nullable: bool)
    requires Tracks(acc)
    ensures Follows(acc, Plain(acc, Required, name, v, nullable))
  {
    DroppingFollows(acc, name);
    if AsStrings(v).Some? {
      PutFollows(acc, acc.w, Required, Texts(AsStrings(v).value));
    }
  }

  lemma KeptFollows(acc: Acc, name: string, k: Key, v: Json)
    requires Tracks(acc)
    ensures Follows(acc, Kept(acc, name, k, v))
  {
    if Scalar(k, v).Some? {
      PutFollows(acc, acc.w, k, Scalar(k, v).value);
    }
  }

  lemma PinnedFollows(acc: Acc, name: string, v: Json)
    requires Tracks(acc)
    ensures Follows(acc, Pinned(acc, name, v))
  {
    if v.JStr? {
      PutFollows(acc, acc.w, Enum, Texts([v.s]));
    }
  }

  lemma PlainCases(acc: Acc, k: Key, name: string, v: Json, nullable: bool)
    requires !k.Required?
    ensures var r := Plain(acc, k, name, v, nullable);
      r == acc || r == Pinned(acc, name, v) ||
      r == Kept(acc, name, Minimum, v) || r == Kept(acc, name, Maximum, v) || r == Kept(acc, name, k, v)
  {
  }

  lemma PlainFollows(acc: Acc, k: Key, name: string, v: Json, nullable: bool)
    requires Tracks(acc)
    ensures Follows(acc, Plain(acc, k, name, v, nullable))
  {
    if k.Required? {
      RequiredFollows(acc, name, v, nullable);
    } else {
      PlainCases(acc, k, name, v, nullable);
      DroppingFollows(acc, name);
      PinnedFollows(acc, name, v);
      KeptFollows(acc, name, Minimum, v);
      KeptFollows(acc, name, Maximum, v);
      KeptFollows(acc, name, k, v);
    }
  }

  lemma PlainIsFree(acc: Acc, k: Key, name: string, v: Json, nullable: bool)
    ensures Plain(acc, k, name, v, nullable).w.budget == acc.w.budget
  {
  }

  lemma ObjectFollows(sub: Sub, acc: Acc, name: string, v: Json, site: Site)
    requires Tracks(acc)
    ensures Follows(acc, Object(sub, acc, name, v, site))
  {
    if AsMap(v).Some? {
      var r := PropsOf(sub, acc.w, AsMap(v).value, KeyOrder.Sorted(AsMap(v).value.Keys), site, map[]);
      PutFollows(acc, r.w, Properties, Props(r.props));
    }
  }

  lemma UnionFollows(sub: Sub, acc: Acc, name: string, v: Json, site: Site)
    requires Tracks(acc)
    ensures Follows(acc, Union(sub, acc, name, v, site))
  {
    if AsList(v).Some? {
      var r := Branches(sub, acc.w, AsList(v).value, 0, site, []);
      PutFollows(acc, r.w, AnyOf, Many(r.nodes));
    }
  }

  lemma KeywordFollows(sub: Sub, acc: Acc, k: Key, name: string, v: Json, site: Site, nullable: bool)
    requires Tracks(acc)
    ensures Follows(acc, Keyword(sub, acc, k, name, v, site, nullable))
    ensures !HoldsSchemas(k) ==> Keyword(sub, acc, k, name, v, site, nullable).w.budget == acc.w.budget
  {
    if k.Items? {
      var r := sub(acc.w, v, At(site, name));
      PutFollows(acc, r.w, Items, One(r.node));
    } else if k.Properties? {
      ObjectFollows(sub, acc, name, v, At(site, name));
    } else if k.AnyOf? || k.OneOf? {
      UnionFollows(sub, acc, name, v, At(site, name));
    } else {
      PlainFollows(acc, k, name, v, nullable);
      PlainIsFree(acc, k, name, v, nullable);
    }
  }

  predicate HoldsSchemas(k: Key) {
    k.Items? || k.Properties? || k.AnyOf? || k.OneOf?
  }

  lemma {:induction false} KeywordsFollow(sub: Sub, acc: Acc, members: map<string, Json>, keys: seq<string>, site: Site, nullable: bool)
    requires Tracks(acc) && forall k :: k in keys ==> k in members
    ensures Follows(acc, Keywords(sub, acc, members, keys, site, nullable))
    ensures (forall s :: s in keys ==> !HoldsSchemas(KeyOf(s))) ==>
      Keywords(sub, acc, members, keys, site, nullable).w.budget == acc.w.budget
    decreases |keys|
  {
    if keys != [] {
      var k, name := KeyOf(keys[0]), keys[0];
      KeywordFollows(sub, acc, k, name, members[name], site, nullable);
      KeywordsFollow(sub, Keyword(sub, acc, k, name, members[name], site, nullable), members, keys[1..], site, nullable);
    }
  }

  ghost function Collected(sub: Sub, w: Walk, members: map<string, Json>, site: Site): Acc {
    var t := NodeType(members);
    Keywords(sub, Acc(w, Start(t), t.typ), members, KeyOrder.Sorted(members.Keys), site, t.nullable)
  }

  /** The allOf branches are all objects, so they are folded into the node. */
  ghost predicate Folds(sub: Sub, w: Walk, members: map<string, Json>, site: Site) {
    "allOf" in members && AsList(members["allOf"]).Some? && AsList(members["allOf"]).value != [] &&
    AllObjects(Branches(sub, w, AsList(members["allOf"]).value, 0, At(site, "allOf"), []).nodes)
  }

  lemma FoldType(sub: Sub, acc: Acc, members: map<string, Json>, site: Site)
    requires Tracks(acc)
    ensures var r := MergeAllOf(sub, acc, members, site);
      && r.typ == acc.typ && Format !in r.node && acc.node.Keys <= r.node.Keys
      && (if Folds(sub, acc.w, members, site) then TypeText(r.node) == "object" else TypeText(r.node) == acc.typ)
  {
  }

  lemma SettlingKeepsType(acc: Acc)
    requires TypeText(acc.node) != ""
    ensures var r := SettleType(SettleEnum(acc).node);
      && TypeText(r) == TypeText(acc.node) && (Format in r <==> Format in acc.node)
      && (Format in r ==> r[Format] == acc.node[Format])
  {
    var n := SettleEnum(acc).node;
    assert n == acc.node || n == acc.node - {Enum};
    assert Type in n && n[Type] == acc.node[Type];
    assert n != map[];
  }

  lemma FinishKeepsType(acc: Acc, members: map<string, Json>)
    requires Format !in acc.node && TypeText(acc.node) != ""
    ensures var r := Finish(acc, members).node;
      && TypeText(r) == TypeText(acc.node)
      && (Format in r <==> Format in AddFormat(acc, members).node)
      && (Format in r ==> r[Format] == AddFormat(acc, members).node[Format])
  {
    SettlingKeepsType(AddFormat(acc, members));
  }

  lemma FormatAtEnd(acc: Acc, members: map<string, Json>, folded: bool)
    requires Format !in acc.node && TypeText(acc.node) == (if folded then "object" else acc.typ)
    ensures var r := Finish(acc, members).node;
      && (Format in r <==> Whitelisted(members, acc.typ))
      && (Format in r ==> r[Format] == Text(AsString(members["format"]).value) && (FormatFits(r) <==> !folded))
  {
    if acc.typ == "" {
      assert Formats("") == {};
    } else {
      FinishKeepsType(acc, members);
      assert Formats("object") == {};
    }
  }

  predicate Whitelisted(members: map<string, Json>, typ: string) {
    "format" in members && AsString(members["format"]).Some? && AsString(members["format"]).value in Formats(typ)
  }

  /** A format is emitted exactly when the whitelist has it for the type resolved before allOf is merged. It goes
      with the type emitted beside it if and only if the allOf was not folded into the node. */
  lemma FormatRule(sub: Sub, w: Walk, members: map<string, Json>, depth: nat, site: Site)
    requires "$ref" !in members
    ensures var r := Rewrite(sub, w, members, depth, site).node;
      var acc := Collected(sub, w, members, site);
      && (Format in r <==> Whitelisted(members, acc.typ))
      && (Format in r ==> r[Format] == Text(AsString(members["format"]).value))
      && (Format in r ==> (FormatFits(r) <==> !Folds(sub, acc.w, members, site)))
  {
    var t := NodeType(members);
    KeywordsFollow(sub, Acc(w, Start(t), t.typ), members, KeyOrder.Sorted(members.Keys), site, t.nullable);
    var acc := Collected(sub, w, members, site);
    FoldType(sub, acc, members, site);
    FormatAtEnd(MergeAllOf(sub, acc, members, site), members, Folds(sub, acc.w, members, site));
  }

  // ---- A format that does not go with its type ----

  lemma {:induction false} EveryNameKept(sub: Sub, w: Walk, props: map<string, Json>, names: seq<string>, site: Site,
                                         done: map<string, Node>)
    requires forall name :: name in names ==> name in props
    ensures var r := PropsOf(sub, w, props, names, site, done).props;
      done.Keys <= r.Keys && forall name :: name in names ==> name in r
    decreases |names|
  {
    if names != [] {
      var r := sub(w, props[names[0]], At(site, names[0]));
      EveryNameKept(sub, r.w, props, names[1..], site, done[names[0] := r.node]);
    }
  }

  lemma ObjectIsKept(sub: Sub, acc: Acc, name: string, props: map<string, Json>, site: Site)
    requires props != map[]
    ensures Properties in Object(sub, acc, name, JObj(props), site).node
  {
    var p :| p in props;
    EveryNameKept(sub, acc.w, props, KeyOrder.Sorted(props.Keys), site, map[]);
    assert p in KeyOrder.Sorted(props.Keys);
  }

  lemma {:induction false} PropertiesAreKept(sub: Sub, acc: Acc, members: map<string, Json>, keys: seq<string>, site: Site,
                                             nullable: bool, name: string)
    requires Tracks(acc) && forall k :: k in keys ==> k in members
    requires name in keys && KeyOf(name) == Properties && members[name].JObj? && members[name].members != map[]
    ensures Properties in Keywords(sub, acc, members, keys, site, nullable).node
    decreases |keys|
  {
    var k, first := KeyOf(keys[0]), keys[0];
    KeywordFollows(sub, acc, k, first, members[first], site, nullable);
    var acc' := Keyword(sub, acc, k, first, members[first], site, nullable);
    if first == name {
      ObjectIsKept(sub, acc, first, members[first].members, At(site, first));
      KeywordsFollow(sub, acc', members, keys[1..], site, nullable);
    } else {
      PropertiesAreKept(sub, acc', members, keys[1..], site, nullable, name);
    }
  }

  lemma MergeKeepsProperties(sub: Sub, acc: Acc, members: map<string, Json>, site: Site)
    requires Properties in acc.node
    ensures Properties in MergeAllOf(sub, acc, members, site).node
  {
  }

  lemma FinishKeepsProperties(acc: Acc, members: map<string, Json>)
    requires Properties in acc.node
    ensures Properties in Finish(acc, members).node
  {
  }

  /** A schema that declares properties. */
  predicate DeclaresProperties(members: map<string, Json>, name: string) {
    "$ref" !in members && name in members && KeyOf(name) == Properties &&
    members[name].JObj? && members[name].members != map[]
  }

  /** It has them when it comes out. */
  lemma DeclaredPropertiesSurvive(sub: Sub, w: Walk, members: map<string, Json>, depth: nat, site: Site, name: string)
    requires DeclaresProperties(members, name)
    ensures Properties in Rewrite(sub, w, members, depth, site).node
  {
    var t := NodeType(members);
    PropertiesAreKept(sub, Acc(w, Start(t), t.typ), members, KeyOrder.Sorted(members.Keys), site, t.nullable, name);
    var acc := Collected(sub, w, members, site);
    MergeKeepsProperties(sub, acc, members, site);
    FinishKeepsProperties(MergeAllOf(sub, acc, members, site), members);
  }

  lemma NodeViaSurvives(sub: Sub, w: Walk, members: map<string, Json>, depth: nat, site: Site, name: string)
    requires DeclaresProperties(members, name) && w.budget > 0
    ensures Properties in NodeVia(sub, w, JObj(members), depth, site).node
  {
    var w' := Collect(Expand(w, JObj(members), depth, site), members, site.path);
    DeclaredPropertiesSurvive(sub, w', members, depth, site, name);
  }

  lemma NodeSurvives(w: Walk, members: map<string, Json>, depth: nat, site: Site, name: string)
    requires DeclaresProperties(members, name) && w.budget > 0 && depth <= MAX_DEPTH
    ensures Properties in NodeOf(w, JObj(members), depth, site).node
  {
    var sub := Deeper(depth);
    NodeViaSurvives(sub, w, members, depth, site, name);
  }

  lemma DeeperSurvives(sub: Sub, w: Walk, members: map<string, Json>, depth: nat, site: Site, name: string)
    requires DeclaresProperties(members, name) && w.budget > 0 && depth < MAX_DEPTH && sub == Deeper(depth)
    ensures Properties in sub(w, JObj(members), site).node
  {
    NodeSurvives(w, members, depth + 1, site, name);
  }

  lemma OneBranchFolds(sub: Sub, w: Walk, members: map<string, Json>, site: Site, branch: Json)
    requires "allOf" in members && members["allOf"] == JArr([branch])
    requires Properties in sub(w, branch, At(At(site, "allOf"), Itoa(0))).node
    ensures Folds(sub, w, members, site)
  {
    var r := sub(w, branch, At(At(site, "allOf"), Itoa(0)));
    assert Branches(sub, r.w, [branch], 1, At(site, "allOf"), [] + [r.node]).nodes == [r.node];
  }

  /** A typed string with a format, extended by one branch. */
  predicate Extended(members: map<string, Json>, format: string, branch: map<string, Json>) {
    "$ref" !in members
    && "type" in members && members["type"] == JStr("string", None)
    && "format" in members && members["format"] == JStr(format, None) && format in Formats("string")
    && "allOf" in members && members["allOf"] == JArr([JObj(branch)])
    && forall s :: s in members ==> !HoldsSchemas(KeyOf(s))
  }

  lemma ExtendedTyping(sub: Sub, w: Walk, members: map<string, Json>, format: string, branch: map<string, Json>, site: Site)
    requires Extended(members, format, branch)
    ensures var acc := Collected(sub, w, members, site);
      acc.typ == "string" && acc.w.budget == w.budget && Whitelisted(members, acc.typ)
  {
    var t := NodeType(members);
    assert t == Typing("string", false);
    KeywordsFollow(sub, Acc(w, Start(t), t.typ), members, KeyOrder.Sorted(members.Keys), site, t.nullable);
  }

  lemma ExtendedNode(sub: Sub, w: Walk, members: map<string, Json>, format: string, branch: map<string, Json>, name: string,
                     depth: nat, site: Site)
    requires Extended(members, format, branch) && DeclaresProperties(branch, name)
    requires depth < MAX_DEPTH && w.budget > 1 && sub == Deeper(depth)
    ensures var n := NodeVia(sub, w, JObj(members), depth, site).node; Format in n && !FormatFits(n)
  {
    var w' := Collect(Expand(w, JObj(members), depth, site), members, site.path);
    ExtendedTyping(sub, w', members, format, branch, site);
    DeeperSurvives(sub, Collected(sub, w', members, site).w, branch, depth, At(At(site, "allOf"), Itoa(0)), name);
    OneBranchFolds(sub, Collected(sub, w', members, site).w, members, site, JObj(branch));
    FormatRule(sub, w', members, depth, site);
  }

  /** So a string format that allOf extends with properties is emitted on an object node: the family, */
  lemma FormatOutlivesItsType(w: Walk, members: map<string, Json>, format: string, branch: map<string, Json>, name: string,
                              depth: nat, site: Site)
    requires Extended(members, format, branch) && DeclaresProperties(branch, name) && depth < MAX_DEPTH && w.budget > 1
    ensures var n := NodeOf(w, JObj(members), depth, site).node; Format in n && !FormatFits(n)
  {
    ExtendedNode(Deeper(depth), w, members, format, branch, name, depth, site);
  }

  function ExampleBranch(): map<string, Json> {
    map["properties" := JObj(map["a" := JNull])]
  }

  function Example(): map<string, Json> {
    map["type" := JStr("string", None), "format" := JStr("date-time", None), "allOf" := JArr([JObj(ExampleBranch())])]
  }

  /** and a member of it. */
  lemma ExampleIsExtended()
    ensures Extended(Example(), "date-time", ExampleBranch()) && DeclaresProperties(ExampleBranch(), "properties")
  {
    assert KeyOf("properties") == Properties;
    assert "a" in ExampleBranch()["properties"].members;
    assert !HoldsSchemas(KeyOf("type")) && !HoldsSchemas(KeyOf("format")) && !HoldsSchemas(KeyOf("allOf"));
  }
}
