/** The rewriting of a JSON Schema into the subset Gemini accepts (internal/provider/gemini_schema.go):
    a recursive walk with a node budget, a depth bound and reference inlining with cycle cuts. */
module GeminiSchema {
  import opened Basics
  import opened JsonDoc
  import KeyOrder

  const MAX_DEPTH: nat := 8
  const MAX_NODES: nat := 4096
  const ELIDED := "(recursive schema elided)"
  const UNRESOLVED := "(unresolved schema reference elided)"
  const TRUNCATED := "(schema too large; elided)"

  // ---- Keywords ----

  /** A keyword: the ones the walk knows by name, and any other. */
  datatype Key =
    | Type | Format | Description | Pattern | Enum | Nullable | Minimum | Maximum
    | MinItems | MaxItems | MinLength | MaxLength | Items | Properties | Required | AnyOf
    | OneOf | AllOf | Const | ExclusiveMinimum | ExclusiveMaximum | Defs | Definitions | Ref
    | Other(name: string)

  function Spelling(k: Key): string {
    match k
    case Type => "type" case Format => "format" case Description => "description"
    case Pattern => "pattern" case Enum => "enum" case Nullable => "nullable"
    case Minimum => "minimum" case Maximum => "maximum"
    case MinItems => "minItems" case MaxItems => "maxItems"
    case MinLength => "minLength" case MaxLength => "maxLength"
    case Items => "items" case Properties => "properties" case Required => "required"
    case AnyOf => "anyOf" case OneOf => "oneOf" case AllOf => "allOf" case Const => "const"
    case ExclusiveMinimum => "exclusiveMinimum" case ExclusiveMaximum => "exclusiveMaximum"
    case Defs => "$defs" case Definitions => "definitions" case Ref => "$ref"
    case Other(name) => name
  }

  function KeyOf(s: string): (k: Key)
    ensures Spelling(k) == s
  {
    if s == "type" then Type else if s == "format" then Format
    else if s == "description" then Description else if s == "pattern" then Pattern
    else if s == "enum" then Enum else if s == "nullable" then Nullable
    else if s == "minimum" then Minimum else if s == "maximum" then Maximum
    else if s == "minItems" then MinItems else if s == "maxItems" then MaxItems
    else if s == "minLength" then MinLength else if s == "maxLength" then MaxLength
    else if s == "items" then Items else if s == "properties" then Properties
    else if s == "required" then Required else if s == "anyOf" then AnyOf
    else if s == "oneOf" then OneOf else if s == "allOf" then AllOf
    else if s == "const" then Const else if s == "exclusiveMinimum" then ExclusiveMinimum
    else if s == "exclusiveMaximum" then ExclusiveMaximum else if s == "$defs" then Defs
    else if s == "definitions" then Definitions else if s == "$ref" then Ref
    else Other(s)
  }

  function Formats(typ: string): set<string> {
    if typ == "string" then {"enum", "date-time"}
    else if typ == "number" then {"float", "double"}
    else if typ == "integer" then {"int32", "int64"}
    else {}
  }

  // ---- What may be emitted ----

  /** An emitted node, keyword by keyword. */
  type Node = map<Key, Value>

  datatype Value =
    | Text(s: string)
    | Texts(ss: seq<string>)
    | Flag(b: bool)
    | Num(lit: Literal)
    | One(node: map<Key, Value>)
    | Props(props: map<string, map<Key, Value>>)
    | Many(nodes: seq<map<Key, Value>>)

  predicate IsCount(n: Literal) {
    n.whole.Some? && 0 <= n.whole.value <= MAX_INT64
  }

  /** The keyword is one Gemini knows and the value has the shape its Schema message declares, with at
      most this many levels of nodes below. */
  ghost predicate Shape(k: Key, v: Value, levels: nat)
    decreases levels, 0, v
  {
    match k
    case Type => v.Text? && v.s != "" && v.s != "null"
    case Format => v.Text? && exists typ :: v.s in Formats(typ)
    case Description | Pattern => v.Text?
    case Enum | Required => v.Texts? && v.ss != []
    case Nullable => v.Flag?
    case Minimum | Maximum => v.Num? && v.lit.finite
    case MinItems | MaxItems | MinLength | MaxLength => v.Num? && IsCount(v.lit)
    case Items => v.One? && levels > 0 && Good(v.node, levels - 1)
    case Properties =>
      v.Props? && v.props != map[] && levels > 0 && forall p :: p in v.props ==> Good(v.props[p], levels - 1)
    case AnyOf =>
      v.Many? && v.nodes != [] && levels > 0 && forall i :: 0 <= i < |v.nodes| ==> Good(v.nodes[i], levels - 1)
    case _ => false
  }

  ghost predicate Fields(n: Node, levels: nat)
    decreases levels, 1, n
  {
    forall k :: k in n ==> Shape(k, n[k], levels)
  }

  /** Typed, by itself or by its branches; an enum only on a string node that is not a union. */
  predicate Closed(n: Node) {
    && (Type in n || AnyOf in n)
    && (Enum in n ==> AnyOf !in n && Type in n && n[Type] == Text("string"))
  }

  ghost predicate Good(n: Node, levels: nat)
    decreases levels, 2, n
  {
    Fields(n, levels) && Closed(n)
  }

  ghost predicate AllGood(nodes: seq<Node>, levels: nat) {
    forall i :: 0 <= i < |nodes| ==> Good(nodes[i], levels)
  }

  ghost predicate PropsGood(props: map<string, Node>, levels: nat) {
    forall p :: p in props ==> Good(props[p], levels)
  }

  lemma {:induction false} GoodMono(n: Node, a: nat, b: nat)
    requires Good(n, a) && a <= b
    ensures Good(n, b)
    decreases a
  {
    forall k | k in n ensures Shape(k, n[k], b) {
      ShapeMono(k, n[k], a, b);
    }
  }

  lemma {:induction false} ShapeMono(k: Key, v: Value, a: nat, b: nat)
    requires Shape(k, v, a) && a <= b
    ensures Shape(k, v, b)
    decreases a, 0
  {
    if k == Items {
      GoodMono(v.node, a - 1, b - 1);
    } else if k == Properties {
      forall p | p in v.props ensures Good(v.props[p], b - 1) {
        GoodMono(v.props[p], a - 1, b - 1);
      }
    } else if k == AnyOf {
      forall i | 0 <= i < |v.nodes| ensures Good(v.nodes[i], b - 1) {
        GoodMono(v.nodes[i], a - 1, b - 1);
      }
    }
  }

  // ---- The walk's state ----

  datatype Visit = Visit(depth: nat, chain: seq<string>, path: string, raw: Json)

  /** budget, defs and dropped are the walk's own; log lists the nodes it expanded. */
  datatype Walk = Walk(budget: nat, defs: map<string, Json>, dropped: set<string>, log: seq<Visit>)

  /** Where a node is met: the references inlined on the way, in order, and its pointer. */
  datatype Site = Site(chain: seq<string>, path: string)

  function At(site: Site, token: string): Site {
    site.(path := Child(site.path, token))
  }

  function Drop(w: Walk, keyword: string): Walk {
    w.(dropped := w.dropped + {keyword})
  }

  function Expand(w: Walk, raw: Json, depth: nat, site: Site): Walk
    requires w.budget > 0
  {
    w.(budget := w.budget - 1, log := w.log + [Visit(depth, site.chain, site.path, raw)])
  }

  // ---- Definitions ----

  /** The definitions an object declares under one keyword. */
  function Declared(members: map<string, Json>, key: string): map<string, Json> {
    if key in members && AsMap(members[key]).Some? then AsMap(members[key]).value else map[]
  }

  /** Definitions by pointer. */
  function Filed(defs: map<string, Json>, base: string): map<string, Json> {
    var sites := set name | name in defs :: Child(base, name);
    map p | p in sites :: NameIn(defs, base, p); defs[Unescape(p[|base| + 1..])]
  }

  lemma NameIn(defs: map<string, Json>, base: string, p: string)
    requires p in set name | name in defs :: Child(base, name)
    ensures |p| > |base| && Unescape(p[|base| + 1..]) in defs && p == Child(base, Unescape(p[|base| + 1..]))
  {
    var name :| name in defs && p == Child(base, name);
    assert p[|base| + 1..] == Escape(name);
    UnescapeEscape(name);
  }

  /** A definition is filed under its own pointer, and no two share one. */
  lemma FiledAt(defs: map<string, Json>, base: string, name: string)
    requires name in defs
    ensures Child(base, name) in Filed(defs, base) && Filed(defs, base)[Child(base, name)] == defs[name]
  {
    assert Child(base, name)[|base| + 1..] == Escape(name);
    UnescapeEscape(name);
  }

  function Collect1(w: Walk, members: map<string, Json>, key: string, path: string): Walk {
    w.(defs := w.defs + Filed(Declared(members, key), Child(path, key)))
  }

  function Collect(w: Walk, members: map<string, Json>, path: string): Walk {
    Collect1(Collect1(w, members, "$defs", path), members, "definitions", path)
  }

  // ---- Single keywords ----

  datatype Typing = Typing(typ: string, nullable: bool)

  /** The first type named that is not null. */
  function FirstReal(list: seq<string>): (r: string)
    ensures r != "null"
  {
    if list == [] then "" else if list[0] == "null" || list[0] == "" then FirstReal(list[1..]) else list[0]
  }

  function NodeType(members: map<string, Json>): (r: Typing)
    ensures r.typ != "null"
  {
    if "type" !in members then Typing("", false)
    else
      match AsString(members["type"])
      case Some(s) => if s == "null" then Typing("string", true) else Typing(s, false)
      case None =>
        match AsStrings(members["type"])
        case Some(list) => Typing(FirstReal(list), "null" in list)
        case None => Typing("", false)
  }

  /** The node a resolved type starts from. */
  function Start(t: Typing): Node {
    (if t.typ != "" then map[Type := Text(t.typ)] else map[]) +
    (if t.nullable then map[Nullable := Flag(true)] else map[])
  }

  /** A keyword that travels through, when its value has the declared shape. */
  function Scalar(k: Key, v: Json): Option<Value> {
    match k
    case Description | Pattern => if v.JStr? then Some(Text(v.s)) else None
    case Enum =>
      if v.JNull? then None
      else (match AsStrings(v) case Some(list) => if list == [] then None else Some(Texts(list)) case None => None)
    case Nullable => if v.JBool? then Some(Flag(v.b)) else None
    case Minimum | Maximum =>
      (match AsNumber(v) case Some(n) => if n.finite then Some(Num(n)) else None case None => None)
    case MinItems | MaxItems | MinLength | MaxLength =>
      (match AsNumber(v) case Some(n) => if IsCount(n) then Some(Num(n)) else None case None => None)
    case _ => None
  }

  /** The type a const pins; null pins none. */
  function ConstType(v: Json): (r: string)
    ensures r != "null" && (r == "" <==> v.JNull?)
  {
    match v
    case JNull => ""
    case JBool(_) => "boolean"
    case JStr(_, _) => "string"
    case JArr(_) => "array"
    case JObj(_) => "object"
    case JNum(n) => if n.fractional then "number" else "integer"
  }

  // ---- The walk ----

  datatype Out = Out(w: Walk, node: Node)

  /** A node under construction. typ is the type resolved so far, before allOf is merged. */
  datatype Acc = Acc(w: Walk, node: Node, typ: string)

  datatype Listed = Listed(w: Walk, nodes: seq<Node>)

  datatype Named = Named(w: Walk, props: map<string, Node>)

  function Stub(description: string): Node {
    map[Type := Text("string"), Description := Text(description)]
  }

  function Put(acc: Acc, k: Key, v: Value): Acc {
    acc.(node := acc.node[k := v])
  }

  function Dropping(acc: Acc, keyword: string): Acc {
    acc.(w := Drop(acc.w, keyword))
  }

  /** What becomes of a schema met one level further down. */
  type Sub = (Walk, Json, Site) -> Out

  ghost function NodeOf(w: Walk, raw: Json, depth: nat, site: Site): Out
    decreases MAX_DEPTH + 1 - depth, 1, raw
  {
    if depth > MAX_DEPTH then Out(w, Stub(ELIDED)) else NodeVia(Deeper(depth), w, raw, depth, site)
  }

  ghost function Deeper(depth: nat): Sub
    requires depth <= MAX_DEPTH
    decreases MAX_DEPTH + 1 - depth, 0
  {
    (w, raw, site) => NodeOf(w, raw, depth + 1, site)
  }

  /** A node within the depth bound, given what becomes of the schemas in it. */
  ghost function NodeVia(sub: Sub, w: Walk, raw: Json, depth: nat, site: Site): Out {
    if w.budget == 0 then Out(Drop(w, "(truncated)"), Stub(TRUNCATED))
    else
      var w' := Expand(w, raw, depth, site);
      if raw.JObj? then Rewrite(sub, Collect(w', raw.members, site.path), raw.members, depth, site)
      else Out(w', map[Type := Text("object")])
  }

  /** An object schema, given what becomes of the schemas in it. */
  ghost function Rewrite(sub: Sub, w: Walk, members: map<string, Json>, depth: nat, site: Site): Out {
    if "$ref" in members then InlineRef(sub, w, members["$ref"], depth, site)
    else
      var t := NodeType(members);
      var acc := Keywords(sub, Acc(w, Start(t), t.typ), members, KeyOrder.Sorted(members.Keys), site, t.nullable);
      Finish(MergeAllOf(sub, acc, members, site), members)
  }

  function InlineRef(sub: Sub, w: Walk, ref: Json, depth: nat, site: Site): Out {
    match AsString(ref)
    case None => Out(w, Stub(ELIDED))
    case Some(p) =>
      if p !in w.defs then Out(w, Stub(UNRESOLVED))
      else if p in site.chain || depth >= MAX_DEPTH then Out(w, Stub(ELIDED))
      else sub(w, w.defs[p], Site(site.chain + [p], p))
  }

  /** The keywords in turn. */
  ghost function Keywords(sub: Sub, acc: Acc, members: map<string, Json>, keys: seq<string>, site: Site, nullable: bool): Acc
    requires forall k :: k in keys ==> k in members
    decreases |keys|
  {
    if keys == [] then acc
    else Keywords(sub, Keyword(sub, acc, KeyOf(keys[0]), keys[0], members[keys[0]], site, nullable), members, keys[1..], site, nullable)
  }

  ghost function Keyword(sub: Sub, acc: Acc, k: Key, name: string, v: Json, site: Site, nullable: bool): Acc {
    if k.Items? then ItemsOf(sub, acc, v, At(site, name))
    else if k.Properties? then Object(sub, acc, name, v, At(site, name))
    else if k.AnyOf? || k.OneOf? then Union(sub, acc, name, v, At(site, name))
    else Plain(acc, k, name, v, nullable)
  }

  function ItemsOf(sub: Sub, acc: Acc, v: Json, site: Site): Acc {
    var r := sub(acc.w, v, site);
    Put(acc.(w := r.w), Items, One(r.node))
  }

  /** The keywords that hold no schema. */
  function Plain(acc: Acc, k: Key, name: string, v: Json, nullable: bool): Acc {
    match k
    case Type | Defs | Definitions | AllOf | Format => acc
    case Required =>
      (match AsStrings(v)
       case None => Dropping(acc, name)
       case Some(list) => if list == [] then acc else Put(acc, Required, Texts(list)))
    case Const => Pinned(acc, name, v)
    case ExclusiveMinimum => Kept(acc, name, Minimum, v)
    case ExclusiveMaximum => Kept(acc, name, Maximum, v)
    case _ => if k == Nullable && nullable then acc else Kept(acc, name, k, v)
  }

  /** A string const is a one-value enum; any other still pins the type of a node that has none. */
  function Pinned(acc: Acc, name: string, v: Json): Acc {
    if v.JNull? then Dropping(acc, name)
    else if v.JStr? then Put(acc, Enum, Texts([v.s]))
    else if acc.typ == "" then Put(acc.(typ := ConstType(v)), Type, Text(ConstType(v)))
    else Dropping(acc, name)
  }

  /** A scalar kept under a keyword, or the keyword it was read from dropped. */
  function Kept(acc: Acc, name: string, k: Key, v: Json): Acc {
    match Scalar(k, v)
    case None => Dropping(acc, name)
    case Some(value) => Put(acc, k, value)
  }

  ghost function Object(sub: Sub, acc: Acc, name: string, v: Json, site: Site): Acc {
    match AsMap(v)
    case None => Dropping(acc, name)
    case Some(props) =>
      var r := PropsOf(sub, acc.w, props, KeyOrder.Sorted(props.Keys), site, map[]);
      if r.props == map[] then acc.(w := r.w) else Put(acc.(w := r.w), Properties, Props(r.props))
  }

  function PropsOf(sub: Sub, w: Walk, props: map<string, Json>, names: seq<string>, site: Site, done: map<string, Node>): Named
    requires forall name :: name in names ==> name in props
    decreases |names|
  {
    if names == [] then Named(w, done)
    else
      var r := sub(w, props[names[0]], At(site, names[0]));
      PropsOf(sub, r.w, props, names[1..], site, done[names[0] := r.node])
  }

  function Union(sub: Sub, acc: Acc, name: string, v: Json, site: Site): Acc {
    match AsList(v)
    case None => Dropping(acc, name)
    case Some(list) =>
      if list == [] then Dropping(acc, name)
      else
        var r := Branches(sub, acc.w, list, 0, site, []);
        Put(acc.(w := r.w), AnyOf, Many(r.nodes))
  }

  /** The branches of a list from the i-th on. */
  function Branches(sub: Sub, w: Walk, list: seq<Json>, i: nat, site: Site, done: seq<Node>): (r: Listed)
    requires i <= |list|
    decreases |list| - i
  {
    if i == |list| then Listed(w, done)
    else
      var r := sub(w, list[i], At(site, Itoa(i)));
      Branches(sub, r.w, list, i + 1, site, done + [r.node])
  }

  // ---- allOf ----

  predicate AllObjects(nodes: seq<Node>) {
    forall i :: 0 <= i < |nodes| ==> Properties in nodes[i]
  }

  function MergeAllOf(sub: Sub, acc: Acc, members: map<string, Json>, site: Site): Acc {
    if "allOf" !in members then acc
    else
      match AsList(members["allOf"])
      case None => Dropping(acc, "allOf")
      case Some(list) =>
        if list == [] then Dropping(acc, "allOf")
        else
          var r := Branches(sub, acc.w, list, 0, At(site, "allOf"), []);
          acc.(w := r.w, node := Merged(acc.node, r.nodes))
  }

  /** Object schemas are folded into the node; anything else becomes a union. */
  function Merged(n: Node, nodes: seq<Node>): Node {
    if !AllObjects(nodes) then n[AnyOf := Many(nodes)]
    else
      var required := AddRequired(RequiredIn(n), nodes);
      var typed := n[Type := Text("object")][Properties := Props(AddProps(PropsIn(n), nodes))];
      if required == [] then typed else typed[Required := Texts(required)]
  }

  function PropsIn(n: Node): map<string, Node> {
    if Properties in n && n[Properties].Props? then n[Properties].props else map[]
  }

  function RequiredIn(n: Node): seq<string> {
    if Required in n && n[Required].Texts? then n[Required].ss else []
  }

  /** The properties of each node over those before it. */
  function AddProps(props: map<string, Node>, nodes: seq<Node>): map<string, Node>
    decreases |nodes|
  {
    if nodes == [] then props else AddProps(props + PropsIn(nodes[0]), nodes[1..])
  }

  /** Names are added in order, each once. */
  function AddNames(names: seq<string>, more: seq<string>): seq<string>
    decreases |more|
  {
    if more == [] then names
    else AddNames(if more[0] in names then names else names + [more[0]], more[1..])
  }

  function AddRequired(names: seq<string>, nodes: seq<Node>): seq<string>
    decreases |nodes|
  {
    if nodes == [] then names else AddRequired(AddNames(names, RequiredIn(nodes[0])), nodes[1..])
  }

  // ---- Closing a node ----

  function AddFormat(acc: Acc, members: map<string, Json>): Acc {
    if "format" !in members then acc
    else
      match AsString(members["format"])
      case Some(f) => if f in Formats(acc.typ) then Put(acc, Format, Text(f)) else Dropping(acc, "format")
      case None => Dropping(acc, "format")
  }

  function SettleEnum(acc: Acc): Acc {
    if Enum !in acc.node then acc
    else if AnyOf in acc.node then Dropping(acc.(node := acc.node - {Enum}), "enum")
    else if Type !in acc.node then Put(acc, Type, Text("string"))
    else if acc.node[Type] == Text("string") then acc
    else Dropping(acc.(node := acc.node - {Enum}), "enum")
  }

  function InferType(n: Node): string {
    if Properties in n || Required in n then "object"
    else if Items in n then "array"
    else if Minimum in n || Maximum in n then "number"
    else "string"
  }

  function SettleType(n: Node): Node {
    if n == map[] then map[Type := Text("object")]
    else if Type !in n && AnyOf !in n then n[Type := Text(InferType(n))]
    else n
  }

  function Finish(acc: Acc, members: map<string, Json>): Out {
    var settled := SettleEnum(AddFormat(acc, members));
    Out(settled.w, SettleType(settled.node))
  }

  /** Where a walk starts: full budget, nothing seen, at the root. */
  predicate Fresh(w: Walk, depth: nat, site: Site) {
    w == Walk(MAX_NODES, map[], {}, []) && depth == 0 && site == Site([], "#")
  }

  // ---- The walk level by level ----

  /** Mentioned where a level of the walk is to be looked into. */
  ghost predicate Asked(f: Sub, w: Walk, raw: Json, site: Site) {
    true
  }

  ghost predicate Steps(f: Sub, sub: Sub, depth: nat) {
    forall w, raw, site {:trigger Asked(f, w, raw, site)} :: f(w, raw, site) == NodeVia(sub, w, raw, depth, site)
  }

  ghost predicate Stops(f: Sub) {
    forall w, raw, site {:trigger Asked(f, w, raw, site)} :: f(w, raw, site) == Out(w, Stub(ELIDED))
  }

  /** f is the walk of the nodes at this depth. */
  ghost predicate Level(f: Sub, depth: nat)
    decreases MAX_DEPTH + 1 - depth
  {
    if depth > MAX_DEPTH then Stops(f) else exists sub :: Level(sub, depth + 1) && Steps(f, sub, depth)
  }

  lemma {:induction false} WalkIsLevel(f: Sub, depth: nat)
    requires depth <= MAX_DEPTH + 1
    requires forall w, raw, site :: f(w, raw, site) == NodeOf(w, raw, depth, site)
    ensures Level(f, depth)
    decreases MAX_DEPTH + 1 - depth
  {
    if depth <= MAX_DEPTH {
      WalkIsLevel(Deeper(depth), depth + 1);
      assert Steps(f, Deeper(depth), depth);
    }
  }

  // ---- The output stays inside the grammar ----

  lemma PutGood(n: Node, k: Key, v: Value, levels: nat)
    requires Fields(n, levels) && Shape(k, v, levels)
    ensures Fields(n[k := v], levels)
  {
  }

  lemma KeptGood(acc: Acc, name: string, k: Key, v: Json, levels: nat)
    requires Fields(acc.node, levels)
    ensures Fields(Kept(acc, name, k, v).node, levels)
  {
    var value := Scalar(k, v);
    if value.Some? {
      assert Shape(k, value.value, levels);
      PutGood(acc.node, k, value.value, levels);
    }
  }

  lemma PinnedGood(acc: Acc, name: string, v: Json, levels: nat)
    requires Fields(acc.node, levels)
    ensures Fields(Pinned(acc, name, v).node, levels)
  {
    if v.JStr? {
      PutGood(acc.node, Enum, Texts([v.s]), levels);
    } else if !v.JNull? {
      PutGood(acc.node, Type, Text(ConstType(v)), levels);
    }
  }

  lemma PlainGood(acc: Acc, k: Key, name: string, v: Json, nullable: bool, levels: nat)
    requires Fields(acc.node, levels)
    ensures Fields(Plain(acc, k, name, v, nullable).node, levels)
  {
    match k
    case Type | Defs | Definitions | AllOf | Format =>
    case Required =>
      if AsStrings(v).Some? && AsStrings(v).value != [] {
        PutGood(acc.node, Required, Texts(AsStrings(v).value), levels);
      }
    case Const => PinnedGood(acc, name, v, levels);
    case ExclusiveMinimum => KeptGood(acc, name, Minimum, v, levels);
    case ExclusiveMaximum => KeptGood(acc, name, Maximum, v, levels);
    case _ => KeptGood(acc, name, k, v, levels);
  }

  lemma {:induction false} AddPropsGood(props: map<string, Node>, nodes: seq<Node>, levels: nat)
    requires PropsGood(props, levels) && AllGood(nodes, levels) && AllObjects(nodes)
    ensures PropsGood(AddProps(props, nodes), levels)
    ensures props != map[] || nodes != [] ==> AddProps(props, nodes) != map[]
    decreases |nodes|
  {
    if nodes != [] {
      LiftedProps(nodes[0], levels);
      AddPropsGood(props + PropsIn(nodes[0]), nodes[1..], levels);
    }
  }

  lemma LiftedProps(n: Node, levels: nat)
    requires Good(n, levels) && Properties in n
    ensures PropsGood(PropsIn(n), levels) && PropsIn(n) != map[]
  {
    assert Shape(Properties, n[Properties], levels);
    forall p | p in PropsIn(n) ensures Good(PropsIn(n)[p], levels) {
      GoodMono(PropsIn(n)[p], levels - 1, levels);
    }
  }

  lemma MergedGood(n: Node, nodes: seq<Node>, levels: nat)
    requires Fields(n, levels) && levels > 0 && nodes != [] && AllGood(nodes, levels - 1)
    ensures Fields(Merged(n, nodes), levels)
  {
    if AllObjects(nodes) {
      assert Properties in n ==> Shape(Properties, n[Properties], levels);
      AddPropsGood(PropsIn(n), nodes, levels - 1);
      var required := AddRequired(RequiredIn(n), nodes);
      var props := Props(AddProps(PropsIn(n), nodes));
      var typed := n[Type := Text("object")];
      PutGood(n, Type, Text("object"), levels);
      PutGood(typed, Properties, props, levels);
      if required != [] {
        PutGood(typed[Properties := props], Required, Texts(required), levels);
      }
    } else {
      PutGood(n, AnyOf, Many(nodes), levels);
    }
  }

  lemma AddFormatGood(acc: Acc, members: map<string, Json>, levels: nat)
    requires Fields(acc.node, levels)
    ensures Fields(AddFormat(acc, members).node, levels)
  {
    if "format" in members && AsString(members["format"]).Some? {
      var f := AsString(members["format"]).value;
      if f in Formats(acc.typ) {
        PutGood(acc.node, Format, Text(f), levels);
      }
    }
  }

  lemma SettleEnumGood(acc: Acc, levels: nat)
    requires Fields(acc.node, levels)
    ensures Fields(SettleEnum(acc).node, levels)
    ensures var n := SettleEnum(acc).node; Enum in n ==> AnyOf !in n && Type in n && n[Type] == Text("string")
  {
    if Enum in acc.node && AnyOf !in acc.node && Type !in acc.node {
      PutGood(acc.node, Type, Text("string"), levels);
    }
  }

  lemma SettleTypeGood(n: Node, levels: nat)
    requires Fields(n, levels)
    requires Enum in n ==> AnyOf !in n && Type in n && n[Type] == Text("string")
    ensures Good(SettleType(n), levels)
  {
    if n == map[] {
      assert Shape(Type, Text("object"), levels);
    } else if Type !in n && AnyOf !in n {
      PutGood(n, Type, Text(InferType(n)), levels);
    }
  }

  lemma FinishGood(acc: Acc, members: map<string, Json>, levels: nat)
    requires Fields(acc.node, levels)
    ensures Good(Finish(acc, members).node, levels)
  {
    AddFormatGood(acc, members, levels);
    SettleEnumGood(AddFormat(acc, members), levels);
    SettleTypeGood(SettleEnum(AddFormat(acc, members)).node, levels);
  }

  ghost predicate SubGood(sub: Sub, levels: nat) {
    forall w, raw, site :: Good(sub(w, raw, site).node, levels)
  }

  lemma {:induction false} PropsOfGood(sub: Sub, w: Walk, props: map<string, Json>, names: seq<string>, site: Site,
                                       done: map<string, Node>, levels: nat)
    requires SubGood(sub, levels) && PropsGood(done, levels) && forall name :: name in names ==> name in props
    ensures PropsGood(PropsOf(sub, w, props, names, site, done).props, levels)
    decreases |names|
  {
    if names != [] {
      var r := sub(w, props[names[0]], At(site, names[0]));
      PropsOfGood(sub, r.w, props, names[1..], site, done[names[0] := r.node], levels);
    }
  }

  lemma {:induction false} BranchesGood(sub: Sub, w: Walk, list: seq<Json>, i: nat, site: Site, done: seq<Node>, levels: nat)
    requires SubGood(sub, levels) && i <= |list| && AllGood(done, levels)
    ensures AllGood(Branches(sub, w, list, i, site, done).nodes, levels)
    ensures |Branches(sub, w, list, i, site, done).nodes| == |done| + |list| - i
    decreases |list| - i
  {
    if i < |list| {
      var r := sub(w, list[i], At(site, Itoa(i)));
      BranchesGood(sub, r.w, list, i + 1, site, done + [r.node], levels);
    }
  }

  lemma ObjectGood(sub: Sub, acc: Acc, name: string, v: Json, site: Site, levels: nat)
    requires SubGood(sub, levels) && Fields(acc.node, levels + 1)
    ensures Fields(Object(sub, acc, name, v, site).node, levels + 1)
  {
    if AsMap(v).Some? {
      var props, names := AsMap(v).value, KeyOrder.Sorted(AsMap(v).value.Keys);
      PropsOfGood(sub, acc.w, props, names, site, map[], levels);
      var r := PropsOf(sub, acc.w, props, names, site, map[]);
      if r.props != map[] {
        PutGood(acc.node, Properties, Props(r.props), levels + 1);
      }
    }
  }

  lemma UnionGood(sub: Sub, acc: Acc, name: string, v: Json, site: Site, levels: nat)
    requires SubGood(sub, levels) && Fields(acc.node, levels + 1)
    ensures Fields(Union(sub, acc, name, v, site).node, levels + 1)
  {
    if AsList(v).Some? && AsList(v).value != [] {
      BranchesGood(sub, acc.w, AsList(v).value, 0, site, [], levels);
      PutGood(acc.node, AnyOf, Many(Branches(sub, acc.w, AsList(v).value, 0, site, []).nodes), levels + 1);
    }
  }

  lemma KeywordGood(sub: Sub, acc: Acc, k: Key, name: string, v: Json, site: Site, nullable: bool, levels: nat)
    requires SubGood(sub, levels) && Fields(acc.node, levels + 1)
    ensures Fields(Keyword(sub, acc, k, name, v, site, nullable).node, levels + 1)
  {
    if k.Items? {
      PutGood(acc.node, Items, One(sub(acc.w, v, At(site, name)).node), levels + 1);
    } else if k.Properties? {
      ObjectGood(sub, acc, name, v, At(site, name), levels);
    } else if k.AnyOf? || k.OneOf? {
      UnionGood(sub, acc, name, v, At(site, name), levels);
    } else {
      PlainGood(acc, k, name, v, nullable, levels + 1);
    }
  }

  lemma {:induction false} KeywordsGood(sub: Sub, acc: Acc, members: map<string, Json>, keys: seq<string>, site: Site,
                                        nullable: bool, levels: nat)
    requires forall k :: k in keys ==> k in members
    requires SubGood(sub, levels) && Fields(acc.node, levels + 1)
    ensures Fields(Keywords(sub, acc, members, keys, site, nullable).node, levels + 1)
    decreases |keys|
  {
    if keys != [] {
      var k, name, v := KeyOf(keys[0]), keys[0], members[keys[0]];
      KeywordGood(sub, acc, k, name, v, site, nullable, levels);
      KeywordsGood(sub, Keyword(sub, acc, k, name, v, site, nullable), members, keys[1..], site, nullable, levels);
    }
  }

  lemma MergeAllOfGood(sub: Sub, acc: Acc, members: map<string, Json>, site: Site, levels: nat)
    requires SubGood(sub, levels) && Fields(acc.node, levels + 1)
    ensures Fields(MergeAllOf(sub, acc, members, site).node, levels + 1)
  {
    if "allOf" in members && AsList(members["allOf"]).Some? && AsList(members["allOf"]).value != [] {
      var list := AsList(members["allOf"]).value;
      BranchesGood(sub, acc.w, list, 0, At(site, "allOf"), [], levels);
      MergedGood(acc.node, Branches(sub, acc.w, list, 0, At(site, "allOf"), []).nodes, levels + 1);
    }
  }

  lemma RewriteGood(sub: Sub, w: Walk, members: map<string, Json>, depth: nat, site: Site, levels: nat)
    requires SubGood(sub, levels)
    ensures Good(Rewrite(sub, w, members, depth, site).node, levels + 1)
  {
    if "$ref" in members {
      InlineRefGood(sub, w, members["$ref"], depth, site, levels);
    } else {
      var t := NodeType(members);
      StartGood(t, levels + 1);
      var keys := KeyOrder.Sorted(members.Keys);
      var acc := Keywords(sub, Acc(w, Start(t), t.typ), members, keys, site, t.nullable);
      KeywordsGood(sub, Acc(w, Start(t), t.typ), members, keys, site, t.nullable, levels);
      MergeAllOfGood(sub, acc, members, site, levels);
      FinishGood(MergeAllOf(sub, acc, members, site), members, levels + 1);
    }
  }

  lemma InlineRefGood(sub: Sub, w: Walk, ref: Json, depth: nat, site: Site, levels: nat)
    requires SubGood(sub, levels)
    ensures Good(InlineRef(sub, w, ref, depth, site).node, levels + 1)
  {
    StubGood(ELIDED, levels + 1);
    StubGood(UNRESOLVED, levels + 1);
    if AsString(ref).Some? && AsString(ref).value in w.defs {
      var p := AsString(ref).value;
      var r := sub(w, w.defs[p], Site(site.chain + [p], p));
      GoodMono(r.node, levels, levels + 1);
    }
  }

  lemma StubGood(description: string, levels: nat)
    ensures Good(Stub(description), levels)
  {
  }

  lemma StartGood(t: Typing, levels: nat)
    requires t.typ != "null"
    ensures Fields(Start(t), levels)
  {
  }

  lemma NodeViaGood(sub: Sub, w: Walk, raw: Json, depth: nat, site: Site, levels: nat)
    requires SubGood(sub, levels)
    ensures Good(NodeVia(sub, w, raw, depth, site).node, levels + 1)
  {
    StubGood(TRUNCATED, levels + 1);
    if w.budget > 0 && raw.JObj? {
      RewriteGood(sub, Collect(Expand(w, raw, depth, site), raw.members, site.path), raw.members, depth, site, levels);
    }
  }

  /** Every emitted node is one Gemini accepts, with at most nine levels of nodes below the root. */
  lemma {:induction false} NodeGood(w: Walk, raw: Json, depth: nat, site: Site, levels: nat)
    requires depth + levels == MAX_DEPTH + 1
    ensures Good(NodeOf(w, raw, depth, site).node, levels)
    decreases levels, 1
  {
    if levels == 0 {
      StubGood(ELIDED, levels);
    } else {
      var sub := Deeper(depth);
      DeeperGood(depth, sub, levels - 1);
      NodeViaGood(sub, w, raw, depth, site, levels - 1);
    }
  }

  lemma {:induction false} DeeperGood(depth: nat, sub: Sub, levels: nat)
    requires depth + levels == MAX_DEPTH && sub == Deeper(depth)
    ensures SubGood(sub, levels)
    decreases levels + 1, 0
  {
    forall w, raw, site ensures Good(sub(w, raw, site).node, levels) {
      NodeGood(w, raw, depth + 1, site, levels);
    }
  }
}
