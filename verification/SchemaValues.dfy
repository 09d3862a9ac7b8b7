/** What the keywords that hold no schema come out as (internal/provider/gemini_schema.go: geminiScalar, geminiConst,
    nodeType and the keyword switch of node), in terms of the values a schema is written with. */
module SchemaValues {
  import opened Basics
  import opened JsonDoc
  import KeyOrder
  import opened GeminiSchema
  import opened SchemaMerge

  /** The keywords of an emitted node that carry a value. */
  predicate CarriesValue(slot: Key) {
    slot.Description? || slot.Pattern? || slot.Enum? || slot.Nullable? || slot.Minimum? || slot.Maximum?
    || slot.MinItems? || slot.MaxItems? || slot.MinLength? || slot.MaxLength?
  }

  /** The other keyword that is read for the same purpose; none for most. */
  function Stand(slot: Key): string {
    match slot
    case Minimum => "exclusiveMinimum" case Maximum => "exclusiveMaximum" case Enum => "const"
    case _ => ""
  }

  /** A number, as such or quoted. */
  predicate Spells(v: Json, n: Literal) {
    v == JNum(n) || (v.JStr? && v.quoted == Some(n))
  }

  predicate SpellsTexts(items: seq<Json>, ss: seq<string>) {
    |ss| == |items| && forall i :: 0 <= i < |items| ==> if items[i].JStr? then items[i].s == ss[i] else items[i].JNull? && ss[i] == ""
  }

  /** What a keyword of the input says about a keyword of the output. */
  predicate Says(slot: Key, name: string, v: Json, value: Value) {
    match slot
    case Description => name == "description" && v.JStr? && value == Text(v.s)
    case Pattern => name == "pattern" && v.JStr? && value == Text(v.s)
    case Nullable => name == "nullable" && v.JBool? && value == Flag(v.b)
    case Enum =>
      || (name == "const" && v.JStr? && value == Texts([v.s]))
      || (name == "enum" && v.JArr? && v.items != [] && value.Texts? && SpellsTexts(v.items, value.ss))
    case Minimum => (name == "minimum" || name == "exclusiveMinimum") && value.Num? && Spells(v, value.lit) && value.lit.finite
    case Maximum => (name == "maximum" || name == "exclusiveMaximum") && value.Num? && Spells(v, value.lit) && value.lit.finite
    case MinItems => name == "minItems" && value.Num? && Spells(v, value.lit) && IsCount(value.lit)
    case MaxItems => name == "maxItems" && value.Num? && Spells(v, value.lit) && IsCount(value.lit)
    case MinLength => name == "minLength" && value.Num? && Spells(v, value.lit) && IsCount(value.lit)
    case MaxLength => name == "maxLength" && value.Num? && Spells(v, value.lit) && IsCount(value.lit)
    case _ => false
  }

  predicate SaysSo(members: map<string, Json>, name: string, slot: Key, value: Value) {
    name in members && Says(slot, name, members[name], value)
  }

  ghost predicate SaysSomething(members: map<string, Json>, name: string, slot: Key) {
    exists value :: SaysSo(members, name, slot, value)
  }

  // ---- One keyword ----

  function Lookup(n: Node, k: Key): Option<Value> {
    if k in n then Some(n[k]) else None
  }

  function Either(a: Option<Value>, b: Option<Value>): Option<Value> {
    if a.Some? then a else b
  }

  /** What one keyword leaves under another. */
  function Written(slot: Key, k: Key, v: Json, nullable: bool): Option<Value> {
    if slot == k then (if k.Nullable? && nullable then None else Scalar(k, v))
    else if (slot.Minimum? && k.ExclusiveMinimum?) || (slot.Maximum? && k.ExclusiveMaximum?) then Scalar(slot, v)
    else if slot.Enum? && k.Const? && v.JStr? then Some(Texts([v.s]))
    else None
  }

  lemma OwnKey(slot: Key)
    requires CarriesValue(slot)
    ensures KeyOf(Spelling(slot)) == slot
  {
  }

  lemma OneName(slot: Key, name: string)
    requires CarriesValue(slot)
    ensures KeyOf(name) == slot <==> name == Spelling(slot)
    ensures KeyOf(name).Const? <==> name == "const"
    ensures KeyOf(name).ExclusiveMinimum? <==> name == "exclusiveMinimum"
    ensures KeyOf(name).ExclusiveMaximum? <==> name == "exclusiveMaximum"
  {
    OwnKey(slot);
    OwnSpelling(name);
  }

  lemma OwnSpelling(name: string)
    ensures KeyOf(name).Const? <==> name == "const"
    ensures KeyOf(name).ExclusiveMinimum? <==> name == "exclusiveMinimum"
    ensures KeyOf(name).ExclusiveMaximum? <==> name == "exclusiveMaximum"
  {
  }

  lemma NumberRead(slot: Key, v: Json, value: Value)
    requires slot.Minimum? || slot.Maximum? || slot.MinItems? || slot.MaxItems? || slot.MinLength? || slot.MaxLength?
    ensures Scalar(slot, v) == Some(value) <==>
      value.Num? && Spells(v, value.lit) && if slot.Minimum? || slot.Maximum? then value.lit.finite else IsCount(value.lit)
  {
  }

  lemma TextsRead(v: Json, value: Value)
    ensures Scalar(Enum, v) == Some(value) <==> v.JArr? && v.items != [] && value.Texts? && SpellsTexts(v.items, value.ss)
  {
    if v.JArr? {
      if AsStrings(v).Some? && value.Texts? && SpellsTexts(v.items, value.ss) {
        assert AsStrings(v).value == value.ss;
      }
      if value.Texts? && SpellsTexts(v.items, value.ss) {
        assert forall i :: 0 <= i < |v.items| ==> AsString(v.items[i]).Some?;
      }
      if AsStrings(v).Some? {
        assert SpellsTexts(v.items, AsStrings(v).value);
      }
    }
  }

  lemma WrittenIsSaid(slot: Key, name: string, v: Json, value: Value)
    requires CarriesValue(slot)
    ensures Written(slot, KeyOf(name), v, false) == Some(value) <==> Says(slot, name, v, value)
    ensures Written(slot, KeyOf(name), v, false).Some? ==> name == Spelling(slot) || name == Stand(slot)
  {
    OneName(slot, name);
    TextsRead(v, value);
    if !slot.Enum? && !slot.Description? && !slot.Pattern? && !slot.Nullable? {
      NumberRead(slot, v, value);
    }
  }

  lemma PinnedWrites(acc: Acc, name: string, v: Json, slot: Key)
    requires CarriesValue(slot)
    ensures Lookup(Pinned(acc, name, v).node, slot) == if slot.Enum? && v.JStr? then Some(Texts([v.s])) else Lookup(acc.node, slot)
  {
  }

  lemma KeptWrites(acc: Acc, name: string, k: Key, v: Json, slot: Key)
    ensures Lookup(Kept(acc, name, k, v).node, slot) == if slot == k && Scalar(k, v).Some? then Scalar(k, v) else Lookup(acc.node, slot)
  {
  }

  lemma RequiredWrites(acc: Acc, name: string, v: Json, nullable: bool, slot: Key)
    requires CarriesValue(slot)
    ensures Lookup(Plain(acc, Required, name, v, nullable).node, slot) == Lookup(acc.node, slot)
  {
  }

  lemma ConstWrites(acc: Acc, k: Key, name: string, v: Json, nullable: bool, slot: Key)
    requires CarriesValue(slot) && k.Const?
    ensures Lookup(Plain(acc, k, name, v, nullable).node, slot) == Either(Written(slot, k, v, nullable), Lookup(acc.node, slot))
  {
    PinnedWrites(acc, name, v, slot);
  }

  lemma ExclusiveWrites(acc: Acc, k: Key, name: string, v: Json, nullable: bool, slot: Key)
    requires CarriesValue(slot) && (k.ExclusiveMinimum? || k.ExclusiveMaximum?)
    ensures Lookup(Plain(acc, k, name, v, nullable).node, slot) == Either(Written(slot, k, v, nullable), Lookup(acc.node, slot))
  {
    KeptWrites(acc, name, if k.ExclusiveMinimum? then Minimum else Maximum, v, slot);
  }

  lemma OwnWrites(acc: Acc, k: Key, name: string, v: Json, nullable: bool, slot: Key)
    requires CarriesValue(slot) && !k.Const? && !k.ExclusiveMinimum? && !k.ExclusiveMaximum? && !k.Required?
    ensures Lookup(Plain(acc, k, name, v, nullable).node, slot) == Either(Written(slot, k, v, nullable), Lookup(acc.node, slot))
  {
    KeptWrites(acc, name, k, v, slot);
  }

  lemma PlainWrites(acc: Acc, k: Key, name: string, v: Json, nullable: bool, slot: Key)
    requires CarriesValue(slot)
    ensures Lookup(Plain(acc, k, name, v, nullable).node, slot) == Either(Written(slot, k, v, nullable), Lookup(acc.node, slot))
  {
    if k.Const? {
      ConstWrites(acc, k, name, v, nullable, slot);
    } else if k.ExclusiveMinimum? || k.ExclusiveMaximum? {
      ExclusiveWrites(acc, k, name, v, nullable, slot);
    } else if k.Required? {
      RequiredWrites(acc, name, v, nullable, slot);
    } else {
      OwnWrites(acc, k, name, v, nullable, slot);
    }
  }

  lemma ObjectElsewhere(sub: Sub, acc: Acc, name: string, v: Json, site: Site, slot: Key)
    requires CarriesValue(slot)
    ensures Lookup(Object(sub, acc, name, v, site).node, slot) == Lookup(acc.node, slot)
  {
  }

  lemma UnionElsewhere(sub: Sub, acc: Acc, name: string, v: Json, site: Site, slot: Key)
    requires CarriesValue(slot)
    ensures Lookup(Union(sub, acc, name, v, site).node, slot) == Lookup(acc.node, slot)
  {
  }

  lemma ItemsElsewhere(sub: Sub, acc: Acc, v: Json, site: Site, slot: Key)
    requires CarriesValue(slot)
    ensures Lookup(ItemsOf(sub, acc, v, site).node, slot) == Lookup(acc.node, slot)
  {
  }

  lemma NoneWritten(slot: Key, k: Key, v: Json, nullable: bool)
    requires HoldsSchemas(k)
    ensures Written(slot, k, v, nullable).None?
  {
  }

  lemma SchemasElsewhere(sub: Sub, acc: Acc, k: Key, name: string, v: Json, site: Site, nullable: bool, slot: Key)
    requires CarriesValue(slot) && HoldsSchemas(k)
    ensures Lookup(Keyword(sub, acc, k, name, v, site, nullable).node, slot) == Lookup(acc.node, slot)
  {
    if k.Items? {
      ItemsElsewhere(sub, acc, v, At(site, name), slot);
    } else if k.Properties? {
      ObjectElsewhere(sub, acc, name, v, At(site, name), slot);
    } else {
      UnionElsewhere(sub, acc, name, v, At(site, name), slot);
    }
  }

  lemma KeywordWrites(sub: Sub, acc: Acc, k: Key, name: string, v: Json, site: Site, nullable: bool, slot: Key)
    requires CarriesValue(slot)
    ensures Lookup(Keyword(sub, acc, k, name, v, site, nullable).node, slot) ==
      Either(Written(slot, k, v, nullable), Lookup(acc.node, slot))
  {
    if HoldsSchemas(k) {
      SchemasElsewhere(sub, acc, k, name, v, site, nullable, slot);
      NoneWritten(slot, k, v, nullable);
    } else {
      PlainWrites(acc, k, name, v, nullable, slot);
    }
  }

  // ---- All keywords of a schema ----

  /** What a name among these leaves under a keyword. */
  function WrittenBy(members: map<string, Json>, keys: seq<string>, name: string, slot: Key, nullable: bool): Option<Value> {
    if name in keys && name in members then Written(slot, KeyOf(name), members[name], nullable) else None
  }

  ghost predicate OnlyThese(members: map<string, Json>, slot: Key, nullable: bool, early: string, late: string) {
    forall name :: name in members && Written(slot, KeyOf(name), members[name], nullable).Some? ==> name == early || name == late
  }

  /** The later of two names has the last word. */
  lemma {:induction false} LastWordIs(sub: Sub, acc: Acc, members: map<string, Json>, keys: seq<string>, site: Site, nullable: bool,
                                      slot: Key, early: string, late: string)
    requires CarriesValue(slot) && KeyOrder.Ascending(keys) && forall k :: k in keys ==> k in members
    requires OnlyThese(members, slot, nullable, early, late) && KeyOrder.Leq(early, late) && early != late
    ensures Lookup(Keywords(sub, acc, members, keys, site, nullable).node, slot) ==
      Either(WrittenBy(members, keys, late, slot, nullable), Either(WrittenBy(members, keys, early, slot, nullable), Lookup(acc.node, slot)))
    decreases |keys|
  {
    if keys != [] {
      var name, rest := keys[0], keys[1..];
      KeywordWrites(sub, acc, KeyOf(name), name, members[name], site, nullable, slot);
      var acc' := Keyword(sub, acc, KeyOf(name), name, members[name], site, nullable);
      LastWordIs(sub, acc', members, rest, site, nullable, slot, early, late);
      KeyOrder.TailElements(keys, early);
      KeyOrder.TailElements(keys, late);
      assert early in rest ==> KeyOrder.Leq(name, early);
      KeyOrder.LeqTotal(early, late);
    }
  }

  lemma NamesInOrder(slot: Key)
    requires CarriesValue(slot)
    ensures KeyOrder.Leq(Stand(slot), Spelling(slot)) && Stand(slot) != Spelling(slot)
  {
  }

  lemma NamedByTwo(members: map<string, Json>, slot: Key, nullable: bool)
    requires CarriesValue(slot)
    ensures OnlyThese(members, slot, nullable, Stand(slot), Spelling(slot))
  {
    forall name | name in members && Written(slot, KeyOf(name), members[name], nullable).Some?
      ensures name == Stand(slot) || name == Spelling(slot)
    {
      WrittenIsSaid(slot, name, members[name], Flag(false));
    }
  }

  /** The keywords are walked in order, so what a schema says under the emitted name goes before what it says otherwise. */
  lemma CollectedValue(sub: Sub, w: Walk, members: map<string, Json>, site: Site, slot: Key, keys: seq<string>, t: Typing)
    requires CarriesValue(slot) && keys == KeyOrder.Sorted(members.Keys) && t == NodeType(members)
    ensures Lookup(Collected(sub, w, members, site).node, slot) ==
      Either(WrittenBy(members, keys, Spelling(slot), slot, t.nullable),
             Either(WrittenBy(members, keys, Stand(slot), slot, t.nullable), Lookup(Start(t), slot)))
  {
    KeyOrder.SortedAscends(members.Keys);
    NamesInOrder(slot);
    NamedByTwo(members, slot, t.nullable);
    LastWordIs(sub, Acc(w, Start(t), t.typ), members, keys, site, t.nullable, slot, Stand(slot), Spelling(slot));
  }

  lemma SaidOrNot(members: map<string, Json>, keys: seq<string>, name: string, slot: Key, value: Value)
    requires CarriesValue(slot) && forall k :: k in keys <==> k in members
    ensures WrittenBy(members, keys, name, slot, false) == Some(value) <==> SaysSo(members, name, slot, value)
    ensures WrittenBy(members, keys, name, slot, false).Some? <==> SaysSomething(members, name, slot)
  {
    if name in members {
      WrittenIsSaid(slot, name, members[name], value);
      forall x ensures Written(slot, KeyOf(name), members[name], false) == Some(x) <==> SaysSo(members, name, slot, x) {
        WrittenIsSaid(slot, name, members[name], x);
      }
      if WrittenBy(members, keys, name, slot, false).Some? {
        assert SaysSo(members, name, slot, WrittenBy(members, keys, name, slot, false).value);
      }
    }
  }

  lemma NullableOnly(members: map<string, Json>, keys: seq<string>, name: string, slot: Key, nullable: bool)
    requires !slot.Nullable?
    ensures WrittenBy(members, keys, name, slot, nullable) == WrittenBy(members, keys, name, slot, false)
  {
  }

  lemma SaidAnyway(members: map<string, Json>, keys: seq<string>, name: string, slot: Key, nullable: bool, value: Value)
    requires CarriesValue(slot) && !slot.Nullable? && forall k :: k in keys <==> k in members
    ensures WrittenBy(members, keys, name, slot, nullable) == Some(value) <==> SaysSo(members, name, slot, value)
    ensures WrittenBy(members, keys, name, slot, nullable).Some? <==> SaysSomething(members, name, slot)
  {
    NullableOnly(members, keys, name, slot, nullable);
    SaidOrNot(members, keys, name, slot, value);
  }

  /** What the schema as a whole says about a keyword of the output. */
  ghost predicate Declares(members: map<string, Json>, slot: Key, value: Value) {
    || SaysSo(members, Spelling(slot), slot, value)
    || (!SaysSomething(members, Spelling(slot), slot) && SaysSo(members, Stand(slot), slot, value))
  }

  lemma CollectedIsDeclared(sub: Sub, w: Walk, members: map<string, Json>, site: Site, slot: Key, value: Value)
    requires CarriesValue(slot) && !slot.Nullable?
    ensures Lookup(Collected(sub, w, members, site).node, slot) == Some(value) <==> Declares(members, slot, value)
  {
    var keys, t := KeyOrder.Sorted(members.Keys), NodeType(members);
    CollectedValue(sub, w, members, site, slot, keys, t);
    SaidAnyway(members, keys, Spelling(slot), slot, t.nullable, value);
    SaidAnyway(members, keys, Stand(slot), slot, t.nullable, value);
    assert Lookup(Start(t), slot) == None;
  }

  // ---- The node that comes out ----

  lemma MergedKeeps(n: Node, nodes: seq<Node>, slot: Key)
    requires CarriesValue(slot)
    ensures Lookup(Merged(n, nodes), slot) == Lookup(n, slot)
  {
  }

  lemma MergingKeeps(sub: Sub, acc: Acc, members: map<string, Json>, site: Site, slot: Key)
    requires CarriesValue(slot)
    ensures Lookup(MergeAllOf(sub, acc, members, site).node, slot) == Lookup(acc.node, slot)
  {
    if "allOf" in members && AsList(members["allOf"]).Some? && AsList(members["allOf"]).value != [] {
      MergedKeeps(acc.node, Branches(sub, acc.w, AsList(members["allOf"]).value, 0, At(site, "allOf"), []).nodes, slot);
    }
  }

  lemma FinishKeeps(acc: Acc, members: map<string, Json>, slot: Key)
    requires CarriesValue(slot) && !slot.Enum?
    ensures Lookup(Finish(acc, members).node, slot) == Lookup(acc.node, slot)
  {
  }

  /** A description, pattern or bound comes out with exactly the value the schema declares: a bound under its own name
      goes before an exclusive one, an exclusive one has to be a number, a number may be quoted, a count must be whole
      and not negative, and nothing else is read. */
  lemma ValueComesOut(sub: Sub, w: Walk, members: map<string, Json>, depth: nat, site: Site, slot: Key, value: Value)
    requires "$ref" !in members && CarriesValue(slot) && !slot.Enum? && !slot.Nullable?
    ensures var n := Rewrite(sub, w, members, depth, site).node;
      (slot in n && n[slot] == value) <==> Declares(members, slot, value)
  {
    var acc := Collected(sub, w, members, site);
    CollectedIsDeclared(sub, w, members, site, slot, value);
    MergingKeeps(sub, acc, members, site, slot);
    FinishKeeps(MergeAllOf(sub, acc, members, site), members, slot);
  }

  lemma FinishEnum(acc: Acc, members: map<string, Json>, value: Value)
    ensures var n := Finish(acc, members).node;
      (Enum in n && n[Enum] == value) <==>
        Lookup(acc.node, Enum) == Some(value) && AnyOf !in n && Type in n && n[Type] == Text("string")
  {
    var formatted := AddFormat(acc, members);
    assert Lookup(formatted.node, Enum) == Lookup(acc.node, Enum) && (AnyOf in formatted.node <==> AnyOf in acc.node);
    var settled := SettleEnum(formatted).node;
    var n := SettleType(settled);
    assert Finish(acc, members).node == n;
    assert AnyOf in n <==> AnyOf in acc.node;
  }

  /** An enum comes out on a string node that is no union, with the strings the schema lists or else its one constant. */
  lemma EnumComesOut(sub: Sub, w: Walk, members: map<string, Json>, depth: nat, site: Site, value: Value)
    requires "$ref" !in members
    ensures var n := Rewrite(sub, w, members, depth, site).node;
      (Enum in n && n[Enum] == value) <==>
        Declares(members, Enum, value) && AnyOf !in n && Type in n && n[Type] == Text("string")
  {
    var acc := Collected(sub, w, members, site);
    CollectedIsDeclared(sub, w, members, site, Enum, value);
    MergingKeeps(sub, acc, members, site, Enum);
    FinishEnum(MergeAllOf(sub, acc, members, site), members, value);
  }

  // ---- Types ----

  predicate AllTexts(items: seq<Json>) {
    forall i :: 0 <= i < |items| ==> items[i].JStr? || items[i].JNull?
  }

  predicate IsReal(v: Json) {
    v.JStr? && v.s != "" && v.s != "null"
  }

  /** The type keyword names this type: a real name by itself or as the first in a list, or null alone for a string. */
  ghost predicate NamesType(v: Json, typ: string) {
    match v
    case JStr(s, _) => (IsReal(v) && s == typ) || (s == "null" && typ == "string")
    case JArr(items) =>
      AllTexts(items) && exists i :: 0 <= i < |items| && IsReal(items[i]) && items[i].s == typ && forall j :: 0 <= j < i ==> !IsReal(items[j])
    case _ => false
  }

  predicate IsNullName(v: Json) {
    v.JStr? && v.s == "null"
  }

  /** It names null, alone or in a list. */
  ghost predicate NamesNull(v: Json) {
    match v
    case JStr(_, _) => IsNullName(v)
    case JArr(items) => AllTexts(items) && exists i :: 0 <= i < |items| && IsNullName(items[i])
    case _ => false
  }

  lemma {:induction false} FirstRealMeaning(list: seq<string>)
    ensures var r := FirstReal(list);
      if r == "" then forall i :: 0 <= i < |list| ==> list[i] == "" || list[i] == "null"
      else exists i :: 0 <= i < |list| && list[i] == r && forall j :: 0 <= j < i ==> list[j] == "" || list[j] == "null"
  {
    if list != [] {
      if list[0] == "" || list[0] == "null" {
        FirstRealMeaning(list[1..]);
        var r := FirstReal(list[1..]);
        if r != "" {
          var i :| 0 <= i < |list[1..]| && list[1..][i] == r && forall j :: 0 <= j < i ==> list[1..][j] == "" || list[1..][j] == "null";
          assert list[i + 1] == r;
          forall j | 0 <= j < i + 1 ensures list[j] == "" || list[j] == "null" {
            assert j > 0 ==> list[1..][j - 1] == list[j];
          }
        } else {
          forall i | 0 <= i < |list| ensures list[i] == "" || list[i] == "null" {
            assert i > 0 ==> list[1..][i - 1] == list[i];
          }
        }
      } else {
        assert list[0] == FirstReal(list);
      }
    }
  }

  lemma ListedTypes(items: seq<Json>, list: seq<string>, typ: string)
    requires AllTexts(items) && AsStrings(JArr(items)) == Some(list) && typ != ""
    ensures FirstReal(list) == typ <==> NamesType(JArr(items), typ)
    ensures "null" in list <==> NamesNull(JArr(items))
  {
    FirstRealMeaning(list);
    assert forall i :: 0 <= i < |items| ==> (IsReal(items[i]) <==> list[i] != "" && list[i] != "null") && (IsReal(items[i]) ==> items[i].s == list[i]);
    assert forall i :: 0 <= i < |items| ==> (IsNullName(items[i]) <==> list[i] == "null");
  }

  /** The resolved type is the one named, and the node is nullable exactly when null is named. */
  lemma TypeIsNamed(members: map<string, Json>, typ: string)
    requires typ != ""
    ensures NodeType(members).typ == typ <==> "type" in members && NamesType(members["type"], typ)
    ensures NodeType(members).nullable <==> "type" in members && NamesNull(members["type"])
  {
    if "type" in members && members["type"].JArr? {
      var items := members["type"].items;
      assert AsString(members["type"]) == None;
      if AllTexts(items) {
        assert forall i :: 0 <= i < |items| ==> AsString(items[i]).Some?;
        ListedTypes(items, AsStrings(members["type"]).value, typ);
      } else {
        assert AsStrings(members["type"]) == None;
      }
    }
  }

  /** A node is marked nullable when its type names null, and otherwise as the schema declares. */
  lemma NullableComesOut(sub: Sub, w: Walk, members: map<string, Json>, depth: nat, site: Site, b: bool)
    requires "$ref" !in members
    ensures var n := Rewrite(sub, w, members, depth, site).node;
      (Nullable in n && n[Nullable] == Flag(b)) <==>
        if "type" in members && NamesNull(members["type"]) then b else SaysSo(members, "nullable", Nullable, Flag(b))
  {
    var keys, t := KeyOrder.Sorted(members.Keys), NodeType(members);
    TypeIsNamed(members, "string");
    CollectedValue(sub, w, members, site, Nullable, keys, t);
    SaidOrNot(members, keys, "nullable", Nullable, Flag(b));
    StandsForNothing(members, keys, Stand(Nullable), t.nullable);
    OwnKey(Nullable);
    var acc := Collected(sub, w, members, site);
    MergingKeeps(sub, acc, members, site, Nullable);
    FinishKeeps(MergeAllOf(sub, acc, members, site), members, Nullable);
  }

  lemma StandsForNothing(members: map<string, Json>, keys: seq<string>, name: string, nullable: bool)
    requires name == ""
    ensures WrittenBy(members, keys, name, Nullable, nullable) == None
  {
  }

  /** The type a constant pins when it cannot be an enum. */
  function PinnedBy(v: Json): string {
    match v
    case JBool(_) => "boolean" case JArr(_) => "array" case JObj(_) => "object"
    case JNum(n) => if n.fractional then "number" else "integer"
    case _ => ""
  }

  function PinnedType(members: map<string, Json>): string {
    if "const" in members then PinnedBy(members["const"]) else ""
  }

  lemma PlainTypes(acc: Acc, k: Key, name: string, v: Json, nullable: bool)
    ensures Plain(acc, k, name, v, nullable).typ == if acc.typ == "" && k.Const? then PinnedBy(v) else acc.typ
  {
  }

  lemma SchemasType(sub: Sub, acc: Acc, k: Key, name: string, v: Json, site: Site, nullable: bool)
    requires HoldsSchemas(k)
    ensures Keyword(sub, acc, k, name, v, site, nullable).typ == acc.typ
  {
  }

  lemma KeyTypes(sub: Sub, acc: Acc, k: Key, name: string, v: Json, site: Site, nullable: bool)
    ensures Keyword(sub, acc, k, name, v, site, nullable).typ == if acc.typ == "" && k.Const? then PinnedBy(v) else acc.typ
  {
    if HoldsSchemas(k) {
      SchemasType(sub, acc, k, name, v, site, nullable);
    } else {
      PlainTypes(acc, k, name, v, nullable);
    }
  }

  lemma KeywordTypes(sub: Sub, acc: Acc, name: string, v: Json, site: Site, nullable: bool)
    ensures Keyword(sub, acc, KeyOf(name), name, v, site, nullable).typ ==
      if acc.typ == "" && name == "const" then PinnedBy(v) else acc.typ
  {
    OwnSpelling(name);
    KeyTypes(sub, acc, KeyOf(name), name, v, site, nullable);
  }

  lemma {:induction false} KeywordsType(sub: Sub, acc: Acc, members: map<string, Json>, keys: seq<string>, site: Site, nullable: bool, pin: string)
    requires (forall k :: k in keys ==> k in members) && pin == "const"
    ensures Keywords(sub, acc, members, keys, site, nullable).typ ==
      if acc.typ == "" && pin in keys then PinnedType(members) else acc.typ
    decreases |keys|
  {
    if keys != [] {
      var name := keys[0];
      KeywordTypes(sub, acc, name, members[name], site, nullable);
      var acc' := Keyword(sub, acc, KeyOf(name), name, members[name], site, nullable);
      KeywordsType(sub, acc', members, keys[1..], site, nullable, pin);
      assert keys == [name] + keys[1..];
    }
  }

  lemma ResolvedType(sub: Sub, w: Walk, members: map<string, Json>, site: Site)
    ensures var typ := Collected(sub, w, members, site).typ;
      typ == if NodeType(members).typ != "" then NodeType(members).typ else PinnedType(members)
    ensures Tracks(Collected(sub, w, members, site))
  {
    var t := NodeType(members);
    KeywordsType(sub, Acc(w, Start(t), t.typ), members, KeyOrder.Sorted(members.Keys), site, t.nullable, "const");
    KeywordsFollow(sub, Acc(w, Start(t), t.typ), members, KeyOrder.Sorted(members.Keys), site, t.nullable);
  }

  /** What a node without a type of its own is taken for. */
  function GuessedType(n: Node): string {
    if Enum in n then "string"
    else if n.Keys == {Type} || Properties in n || Required in n then "object"
    else if Items in n then "array"
    else if Minimum in n || Maximum in n then "number"
    else "string"
  }

  lemma GuessAtEnd(settled: Node, n: Node)
    requires AnyOf !in settled && n == SettleType(settled)
    requires if Enum in settled then Type in settled && settled[Type] == Text("string") else Type !in settled
    ensures n[Type] == Text(GuessedType(n))
  {
    if settled != map[] {
      var k :| k in settled;
      assert k in n && (Type !in settled ==> n.Keys != {Type});
    }
  }

  lemma TypeAtEnd(acc: Acc, members: map<string, Json>, typ: string, n: Node)
    requires (if typ == "" then Type !in acc.node else Type in acc.node && acc.node[Type] == Text(typ))
    requires n == Finish(acc, members).node
    ensures typ != "" ==> Type in n && n[Type] == Text(typ)
    ensures typ == "" ==> (Type in n <==> AnyOf !in n)
    ensures typ == "" && AnyOf !in n ==> n[Type] == Text(GuessedType(n))
  {
    var formatted := AddFormat(acc, members);
    assert (Type in formatted.node <==> Type in acc.node) && (AnyOf in formatted.node <==> AnyOf in acc.node);
    assert Type in acc.node ==> formatted.node[Type] == acc.node[Type];
    var settled := SettleEnum(formatted).node;
    assert AnyOf in settled <==> AnyOf in acc.node;
    if typ != "" {
      assert Type in settled && settled[Type] == Text(typ);
    } else if AnyOf !in n {
      GuessAtEnd(settled, n);
    }
  }

  /** A node comes out typed as an object when an allOf was folded into it, otherwise as the schema names it, as its
      constant pins it, or, when neither says anything, by what it holds; only a union has no type of its own. */
  lemma TypeComesOut(sub: Sub, w: Walk, members: map<string, Json>, depth: nat, site: Site)
    requires "$ref" !in members
    ensures var n := Rewrite(sub, w, members, depth, site).node;
      var typ := if Folds(sub, Collected(sub, w, members, site).w, members, site) then "object"
                 else if NodeType(members).typ != "" then NodeType(members).typ else PinnedType(members);
      && (typ != "" ==> Type in n && n[Type] == Text(typ))
      && (typ == "" ==> (Type in n <==> AnyOf !in n) && (AnyOf !in n ==> n[Type] == Text(GuessedType(n))))
  {
    var acc := Collected(sub, w, members, site);
    ResolvedType(sub, w, members, site);
    FoldType(sub, acc, members, site);
    var merged := MergeAllOf(sub, acc, members, site);
    TypeAtEnd(merged, members, if Folds(sub, acc.w, members, site) then "object" else acc.typ, Finish(merged, members).node);
  }

  // ---- Unions ----

  predicate ListsSchemas(members: map<string, Json>, name: string) {
    name in members && members[name].JArr? && members[name].items != []
  }

  lemma PlainUnites(acc: Acc, k: Key, name: string, v: Json, nullable: bool)
    requires !HoldsSchemas(k)
    ensures AnyOf in Plain(acc, k, name, v, nullable).node <==> AnyOf in acc.node
  {
  }

  lemma UnionUnites(sub: Sub, acc: Acc, name: string, v: Json, site: Site)
    ensures AnyOf in Union(sub, acc, name, v, site).node <==> AnyOf in acc.node || (v.JArr? && v.items != [])
  {
  }

  lemma ObjectUnitesNot(sub: Sub, acc: Acc, name: string, v: Json, site: Site)
    ensures AnyOf in Object(sub, acc, name, v, site).node <==> AnyOf in acc.node
  {
  }

  lemma KeyUnites(sub: Sub, acc: Acc, k: Key, name: string, v: Json, site: Site, nullable: bool)
    ensures AnyOf in Keyword(sub, acc, k, name, v, site, nullable).node <==>
      AnyOf in acc.node || ((k.AnyOf? || k.OneOf?) && v.JArr? && v.items != [])
  {
    if k.Properties? {
      ObjectUnitesNot(sub, acc, name, v, At(site, name));
    } else if k.AnyOf? || k.OneOf? {
      UnionUnites(sub, acc, name, v, At(site, name));
    } else if !k.Items? {
      PlainUnites(acc, k, name, v, nullable);
    }
  }

  lemma KeywordUnites(sub: Sub, acc: Acc, members: map<string, Json>, name: string, v: Json, site: Site, nullable: bool)
    requires name in members && v == members[name]
    ensures AnyOf in Keyword(sub, acc, KeyOf(name), name, v, site, nullable).node <==>
      AnyOf in acc.node || ((name == "anyOf" || name == "oneOf") && ListsSchemas(members, name))
  {
    UnionNames(name);
    KeyUnites(sub, acc, KeyOf(name), name, v, site, nullable);
  }

  lemma UnionNames(name: string)
    ensures KeyOf(name).AnyOf? <==> name == "anyOf"
    ensures KeyOf(name).OneOf? <==> name == "oneOf"
  {
  }

  lemma {:induction false} KeywordsUnite(sub: Sub, acc: Acc, members: map<string, Json>, keys: seq<string>, site: Site, nullable: bool,
                                         any: string, one: string)
    requires (forall k :: k in keys ==> k in members) && any == "anyOf" && one == "oneOf"
    ensures AnyOf in Keywords(sub, acc, members, keys, site, nullable).node <==>
      AnyOf in acc.node || (any in keys && ListsSchemas(members, any)) || (one in keys && ListsSchemas(members, one))
    decreases |keys|
  {
    if keys != [] {
      var name := keys[0];
      KeywordUnites(sub, acc, members, name, members[name], site, nullable);
      KeywordsUnite(sub, Keyword(sub, acc, KeyOf(name), name, members[name], site, nullable), members, keys[1..], site, nullable, any, one);
      assert keys == [name] + keys[1..];
    }
  }

  lemma FinishUnion(acc: Acc, members: map<string, Json>)
    ensures AnyOf in Finish(acc, members).node <==> AnyOf in acc.node
  {
    var formatted := AddFormat(acc, members);
    assert AnyOf in formatted.node <==> AnyOf in acc.node;
    assert AnyOf in SettleEnum(formatted).node <==> AnyOf in acc.node;
  }

  /** A node is a union exactly when the schema lists alternatives, exclusive or not, or schemas to be combined that are
      not all objects. */
  lemma UnionComesOut(sub: Sub, w: Walk, members: map<string, Json>, depth: nat, site: Site)
    requires "$ref" !in members
    ensures AnyOf in Rewrite(sub, w, members, depth, site).node <==>
      || ListsSchemas(members, "anyOf") || ListsSchemas(members, "oneOf")
      || (ListsSchemas(members, "allOf") && !Folds(sub, Collected(sub, w, members, site).w, members, site))
  {
    var t, keys := NodeType(members), KeyOrder.Sorted(members.Keys);
    var acc := Collected(sub, w, members, site);
    KeywordsUnite(sub, Acc(w, Start(t), t.typ), members, keys, site, t.nullable, "anyOf", "oneOf");
    MergingUnites(sub, acc, members, site);
    FinishUnion(MergeAllOf(sub, acc, members, site), members);
  }

  lemma MergingUnites(sub: Sub, acc: Acc, members: map<string, Json>, site: Site)
    ensures AnyOf in MergeAllOf(sub, acc, members, site).node <==>
      AnyOf in acc.node || (ListsSchemas(members, "allOf") && !Folds(sub, acc.w, members, site))
  {
  }

  /** The nodes made of the schemas to be combined. */
  function Combined(sub: Sub, w: Walk, members: map<string, Json>, site: Site): seq<Node>
    requires ListsSchemas(members, "allOf")
  {
    Branches(sub, w, members["allOf"].items, 0, At(site, "allOf"), []).nodes
  }

  lemma FinishSettles(acc: Acc, members: map<string, Json>, k: Key)
    requires k.Properties? || k.Required? || k.AnyOf?
    ensures Lookup(Finish(acc, members).node, k) == Lookup(acc.node, k)
  {
    var formatted := AddFormat(acc, members);
    assert Lookup(formatted.node, k) == Lookup(acc.node, k);
    assert Lookup(SettleEnum(formatted).node, k) == Lookup(acc.node, k);
  }

  lemma MergedFolds(n: Node, nodes: seq<Node>)
    requires AllObjects(nodes)
    ensures forall p :: LastOf(PropsIn(n), nodes, p) == (if p in PropsIn(Merged(n, nodes)) then Some(PropsIn(Merged(n, nodes))[p]) else None)
    ensures forall x :: x in RequiredIn(Merged(n, nodes)) <==>
      x in RequiredIn(n) || exists i :: 0 <= i < |nodes| && x in RequiredIn(nodes[i])
  {
    forall p ensures LastOf(PropsIn(n), nodes, p) == (if p in PropsIn(Merged(n, nodes)) then Some(PropsIn(Merged(n, nodes))[p]) else None) {
      LastBranchWins(PropsIn(n), nodes, p);
    }
    RequiredIsUnion(RequiredIn(n), nodes);
  }

  lemma PartsSettle(acc: Acc, members: map<string, Json>, n: Node)
    requires n == Finish(acc, members).node
    ensures PropsIn(n) == PropsIn(acc.node) && RequiredIn(n) == RequiredIn(acc.node) && Lookup(n, AnyOf) == Lookup(acc.node, AnyOf)
  {
    FinishSettles(acc, members, Properties);
    FinishSettles(acc, members, Required);
    FinishSettles(acc, members, AnyOf);
  }

  lemma MergingCombines(sub: Sub, acc: Acc, members: map<string, Json>, site: Site, nodes: seq<Node>)
    requires ListsSchemas(members, "allOf") && nodes == Combined(sub, acc.w, members, site)
    ensures MergeAllOf(sub, acc, members, site).node == Merged(acc.node, nodes)
  {
  }

  lemma MergedUnion(n: Node, nodes: seq<Node>)
    requires !AllObjects(nodes)
    ensures Lookup(Merged(n, nodes), AnyOf) == Some(Many(nodes))
  {
  }

  /** What is combined, by the node before and the node after. */
  ghost predicate Combines(own: Node, nodes: seq<Node>, n: Node) {
    if AllObjects(nodes) then
      && (forall p :: LastOf(PropsIn(own), nodes, p) == (if p in PropsIn(n) then Some(PropsIn(n)[p]) else None))
      && (forall x :: x in RequiredIn(n) <==> x in RequiredIn(own) || exists i :: 0 <= i < |nodes| && x in RequiredIn(nodes[i]))
    else Lookup(n, AnyOf) == Some(Many(nodes))
  }

  lemma MergedCombines(own: Node, nodes: seq<Node>, merged: Node, n: Node)
    requires merged == Merged(own, nodes)
    requires PropsIn(n) == PropsIn(merged) && RequiredIn(n) == RequiredIn(merged) && Lookup(n, AnyOf) == Lookup(merged, AnyOf)
    ensures Combines(own, nodes, n)
  {
    if AllObjects(nodes) {
      MergedFolds(own, nodes);
    } else {
      MergedUnion(own, nodes);
    }
  }

  /** Schemas to be combined: when all are objects the node has the properties of all of them and its own, of one name the
      last, and requires what any of them requires; otherwise it is their union. */
  lemma CombinedComesOut(sub: Sub, w: Walk, members: map<string, Json>, depth: nat, site: Site, own: Node, nodes: seq<Node>, n: Node)
    requires "$ref" !in members && ListsSchemas(members, "allOf")
    requires own == Collected(sub, w, members, site).node && nodes == Combined(sub, Collected(sub, w, members, site).w, members, site)
    requires n == Rewrite(sub, w, members, depth, site).node
    ensures Combines(own, nodes, n)
  {
    var acc := Collected(sub, w, members, site);
    MergingCombines(sub, acc, members, site, nodes);
    PartsSettle(MergeAllOf(sub, acc, members, site), members, n);
    MergedCombines(own, nodes, MergeAllOf(sub, acc, members, site).node, n);
  }

  // ---- What is reported as dropped ----

  /** The keyword is walked over without being read, given the type resolved so far. */
  predicate Loses(k: Key, v: Json, nullable: bool, typ: string) {
    match k
    case Type | Defs | Definitions | AllOf | Format => false
    case Required => AsStrings(v).None?
    case Const => v.JNull? || (!v.JStr? && typ != "")
    case ExclusiveMinimum => Scalar(Minimum, v).None?
    case ExclusiveMaximum => Scalar(Maximum, v).None?
    case _ => !(k.Nullable? && nullable) && Scalar(k, v).None?
  }

  lemma PlainDrops(acc: Acc, k: Key, name: string, v: Json, nullable: bool)
    ensures Plain(acc, k, name, v, nullable).w.dropped == acc.w.dropped + (if Loses(k, v, nullable, acc.typ) then {name} else {})
  {
  }

  lemma {:induction false} KeywordsDrop(sub: Sub, acc: Acc, members: map<string, Json>, keys: seq<string>, site: Site, nullable: bool,
                                        typ: string, pin: string, name: string)
    requires KeyOrder.Ascending(keys) && forall k :: k in keys ==> k in members && !HoldsSchemas(KeyOf(k))
    requires pin == "const" && (pin in keys ==> acc.typ == typ)
    ensures name in Keywords(sub, acc, members, keys, site, nullable).w.dropped <==>
      name in acc.w.dropped || (name in keys && Loses(KeyOf(name), members[name], nullable, typ))
    decreases |keys|
  {
    if keys != [] {
      var first, v := keys[0], members[keys[0]];
      PlainDrops(acc, KeyOf(first), first, v, nullable);
      KeywordTypes(sub, acc, first, v, site, nullable);
      KeyOrder.TailElements(keys, pin);
      KeyOrder.TailElements(keys, name);
      OnlyConstLooks(first, v, nullable, acc.typ, typ, pin);
      KeywordsDrop(sub, Keyword(sub, acc, KeyOf(first), first, v, site, nullable), members, keys[1..], site, nullable, typ, pin, name);
    }
  }

  lemma OnlyConstLooks(name: string, v: Json, nullable: bool, typ: string, typ': string, pin: string)
    requires pin == "const" && (name == pin ==> typ == typ')
    ensures Loses(KeyOf(name), v, nullable, typ) <==> Loses(KeyOf(name), v, nullable, typ')
  {
    OwnSpelling(name);
  }

  /** The keyword says nothing that can be sent. */
  ghost predicate Unread(members: map<string, Json>, name: string)
    requires name in members
  {
    match KeyOf(name)
    case Type | Defs | Definitions | AllOf | Format => false
    case Required => !members[name].JNull? && !(members[name].JArr? && AllTexts(members[name].items))
    case Const => members[name].JNull? || (!members[name].JStr? && NodeType(members).typ != "")
    case ExclusiveMinimum => !SaysSomething(members, name, Minimum)
    case ExclusiveMaximum => !SaysSomething(members, name, Maximum)
    case Nullable => !NodeType(members).nullable && !SaysSomething(members, name, Nullable)
    case k => !CarriesValue(k) || !SaysSomething(members, name, k)
  }

  lemma SaidIff(members: map<string, Json>, name: string, slot: Key)
    requires name in members && CarriesValue(slot)
    ensures SaysSomething(members, name, slot) <==> Written(slot, KeyOf(name), members[name], false).Some?
  {
    var written := Written(slot, KeyOf(name), members[name], false);
    forall x ensures written == Some(x) <==> SaysSo(members, name, slot, x) {
      WrittenIsSaid(slot, name, members[name], x);
    }
    if written.Some? {
      assert SaysSo(members, name, slot, written.value);
    }
  }

  lemma RequiredRead(v: Json)
    ensures AsStrings(v).None? <==> !v.JNull? && !(v.JArr? && AllTexts(v.items))
  {
    if v.JArr? {
      assert AllTexts(v.items) <==> forall i :: 0 <= i < |v.items| ==> AsString(v.items[i]).Some?;
    }
  }

  lemma UnreadIsLost(members: map<string, Json>, name: string, t: Typing)
    requires name in members && t == NodeType(members) && !HoldsSchemas(KeyOf(name))
    ensures Unread(members, name) <==> Loses(KeyOf(name), members[name], t.nullable, t.typ)
  {
    var k := KeyOf(name);
    if k.ExclusiveMinimum? {
      SaidIff(members, name, Minimum);
    } else if k.ExclusiveMaximum? {
      SaidIff(members, name, Maximum);
    } else if k.Required? {
      RequiredRead(members[name]);
    } else if CarriesValue(k) {
      SaidIff(members, name, k);
    } else if !k.Const? {
      assert Scalar(k, members[name]).None?;
    }
  }

  lemma FinishDrops(acc: Acc, members: map<string, Json>, name: string)
    requires Tracks(acc)
    ensures var r := Finish(acc, members);
      name in r.w.dropped <==>
        || name in acc.w.dropped
        || (name == "format" && "format" in members && !Whitelisted(members, acc.typ))
        || (name == "enum" && Enum in acc.node && Enum !in r.node)
  {
    var formatted := AddFormat(acc, members);
    assert formatted.w.dropped == acc.w.dropped + (if "format" in members && !Whitelisted(members, acc.typ) then {"format"} else {});
    assert Enum in formatted.node <==> Enum in acc.node;
    var settled := SettleEnum(formatted);
    assert settled.w.dropped == formatted.w.dropped + (if Enum in formatted.node && Enum !in settled.node then {"enum"} else {});
    assert Enum in SettleType(settled.node) <==> Enum in settled.node;
  }

  /** For a schema that holds no other: a keyword is reported as dropped exactly when it says nothing that can be sent,
      when it is a format the type does not allow, or when it is the enum of a node that cannot carry one. */
  lemma DroppedIsReported(sub: Sub, w: Walk, members: map<string, Json>, depth: nat, site: Site, name: string)
    requires "$ref" !in members && "allOf" !in members && forall k :: k in members ==> !HoldsSchemas(KeyOf(k))
    ensures var r := Rewrite(sub, w, members, depth, site);
      var typ := if NodeType(members).typ != "" then NodeType(members).typ else PinnedType(members);
      name in r.w.dropped <==>
        || name in w.dropped
        || (name in members && Unread(members, name))
        || (name == "format" && "format" in members && !Whitelisted(members, typ))
        || (name == "enum" && Enum in Collected(sub, w, members, site).node && Enum !in r.node)
  {
    var t, keys := NodeType(members), KeyOrder.Sorted(members.Keys);
    var acc := Collected(sub, w, members, site);
    KeyOrder.SortedAscends(members.Keys);
    KeywordsDrop(sub, Acc(w, Start(t), t.typ), members, keys, site, t.nullable, t.typ, "const", name);
    if name in members {
      UnreadIsLost(members, name, t);
    }
    ResolvedType(sub, w, members, site);
    FinishDrops(acc, members, name);
  }
}
