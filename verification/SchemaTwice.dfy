/** Sanitising what the sanitiser made (internal/provider/gemini_schema.go): exactly when the second pass changes
    nothing, and two families of documents for which it does. */
module SchemaTwice {
  import opened Basics
  import opened JsonDoc
  import KeyOrder
  import opened GeminiSchema
  import opened SchemaDepth
  import opened SchemaFixpoint
  import SchemaMerge

  lemma EmittedIsWritten(w: Walk, raw: Json, depth: nat, site: Site, levels: nat, st: Stubs)
    requires depth + levels == MAX_DEPTH + 1 && st.bottom == Stub(ELIDED)
    ensures Written(NodeOf(w, raw, depth, site).node, levels, st)
  {
    NodeGood(w, raw, depth, site, levels);
    NodeCapped(w, raw, depth, site, levels);
  }

  /** For every document: the second pass returns what the first emitted if and only if every format in it goes with
      the type beside it and past the first 4096 nodes there are only stubs of truncated schemas. With no more nodes
      than that it is a matter of the formats alone, and nothing is dropped. */
  lemma SanitiseTwice(raw: Json, w: Walk, depth: nat, site: Site, levels: nat, st: Stubs)
    requires Fresh(w, depth, site) && levels == MAX_DEPTH + 1 && st == Stubs(Stub(ELIDED), Stub(TRUNCATED))
    ensures var n := NodeOf(w, raw, depth, site).node;
      var again := NodeOf(w, ToJson(n, levels), depth, site);
      && (again.node == n <==> Fits(n, levels) && Tail(Nodes(n, levels), MAX_NODES, st.cut))
      && (|Nodes(n, levels)| <= MAX_NODES ==> (again.node == n <==> Fits(n, levels)))
      && (|Nodes(n, levels)| <= MAX_NODES && Fits(n, levels) ==> again.w.dropped == {})
  {
    var n := NodeOf(w, raw, depth, site).node;
    EmittedIsWritten(w, raw, depth, site, levels, st);
    NodeBack(w, n, depth, site, levels, st);
  }

  /** A format that an allOf has parted from its type is gone after the second pass. */
  lemma PartedFormatIsLost(members: map<string, Json>, format: string, branch: map<string, Json>, name: string,
                           w: Walk, depth: nat, site: Site, levels: nat)
    requires Fresh(w, depth, site) && levels == MAX_DEPTH + 1
    requires SchemaMerge.Extended(members, format, branch) && SchemaMerge.DeclaresProperties(branch, name)
    ensures var n := NodeOf(w, JObj(members), depth, site).node;
      !Fits(n, levels) && NodeOf(w, ToJson(n, levels), depth, site).node != n
  {
    SchemaMerge.FormatOutlivesItsType(w, members, format, branch, name, depth, site);
    SanitiseTwice(JObj(members), w, depth, site, levels, Stubs(Stub(ELIDED), Stub(TRUNCATED)));
  }

  /** So it is with the example. */
  lemma ExampleChanges(w: Walk, depth: nat, site: Site, levels: nat)
    requires Fresh(w, depth, site) && levels == MAX_DEPTH + 1
    ensures var n := NodeOf(w, JObj(SchemaMerge.Example()), depth, site).node;
      NodeOf(w, ToJson(n, levels), depth, site).node != n
  {
    SchemaMerge.ExampleIsExtended();
    PartedFormatIsLost(SchemaMerge.Example(), "date-time", SchemaMerge.ExampleBranch(), "properties", w, depth, site, levels);
  }
}
