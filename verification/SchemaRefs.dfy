/** What a reference comes out as (internal/provider/gemini_schema.go: inlineRef and the definitions node collects):
    one step of inlining, and the substitution law for whole documents. */
module SchemaRefs {
  import opened Basics
  import opened JsonDoc
  import KeyOrder
  import opened GeminiSchema
  import opened SchemaBounds

  // ---- One reference ----

  /** The walk once an object has been taken up and the definitions it declares are collected. */
  function Entered(w: Walk, members: map<string, Json>, depth: nat, site: Site): Walk
    requires w.budget > 0
  {
    Collect(Expand(w, JObj(members), depth, site), members, site.path)
  }

  /** A visited node stays in the log. */
  lemma VisitIsLogged(root: Json, w: Walk, raw: Json, depth: nat, site: Site)
    requires WalkOk(root, w) && SiteOk(root, raw, depth, site) && w.budget > 0 && depth <= MAX_DEPTH
    ensures w.log + [Visit(depth, site.chain, site.path, raw)] <= NodeOf(w, raw, depth, site).w.log
  {
    var sub := Deeper(depth);
    DeeperSound(root, depth);
    ExpandSound(root, w, raw, depth, site);
    if raw.JObj? {
      var w' := Expand(w, raw, depth, site);
      ObjectNodeSound(root, sub, w', w', raw.members, depth, site);
    }
  }

  lemma EnteredSound(root: Json, w: Walk, members: map<string, Json>, depth: nat, site: Site)
    requires WalkOk(root, w) && SiteOk(root, JObj(members), depth, site) && w.budget > 0 && depth <= MAX_DEPTH
    ensures Goes(root, w, Entered(w, members, depth, site))
  {
    var w' := Expand(w, JObj(members), depth, site);
    ExpandSound(root, w, JObj(members), depth, site);
    CollectSound(root, w', members, site.path);
    GoesOn(root, w, w', Entered(w, members, depth, site));
  }

  lemma RefVia(sub: Sub, w: Walk, members: map<string, Json>, depth: nat, site: Site)
    requires "$ref" in members && w.budget > 0
    ensures NodeVia(sub, w, JObj(members), depth, site) == InlineRef(sub, Entered(w, members, depth, site), members["$ref"], depth, site)
  {
  }

  lemma RefNode(w: Walk, members: map<string, Json>, depth: nat, site: Site, sub: Sub)
    requires "$ref" in members && w.budget > 0 && depth <= MAX_DEPTH && sub == Deeper(depth)
    ensures NodeOf(w, JObj(members), depth, site) == InlineRef(sub, Entered(w, members, depth, site), members["$ref"], depth, site)
  {
    RefVia(sub, w, members, depth, site);
  }

  lemma Followed(w: Walk, w': Walk, members: map<string, Json>, p: string, depth: nat, site: Site, next: Site)
    requires "$ref" in members && AsString(members["$ref"]) == Some(p)
    requires w.budget > 0 && depth < MAX_DEPTH && w' == Entered(w, members, depth, site)
    requires p in w'.defs && p !in site.chain && next == Site(site.chain + [p], p)
    ensures NodeOf(w, JObj(members), depth, site) == NodeOf(w', w'.defs[p], depth + 1, next)
  {
    RefNode(w, members, depth, site, Deeper(depth));
  }

  lemma NextSite(root: Json, w: Walk, p: string, depth: nat, site: Site, next: Site)
    requires WalkOk(root, w) && p in w.defs && p !in site.chain && next == Site(site.chain + [p], p)
    requires |site.chain| <= depth && Distinct(site.chain)
    ensures SiteOk(root, w.defs[p], depth + 1, next)
  {
  }

  lemma ReadyToFollow(root: Json, w: Walk, w': Walk, members: map<string, Json>, p: string, depth: nat, site: Site, next: Site)
    requires WalkOk(root, w) && SiteOk(root, JObj(members), depth, site)
    requires w.budget > 1 && depth < MAX_DEPTH && w' == Entered(w, members, depth, site)
    requires p in w'.defs && p !in site.chain && next == Site(site.chain + [p], p)
    ensures WalkOk(root, w') && SiteOk(root, w'.defs[p], depth + 1, next) && Located(root, p, w'.defs[p]) && w'.budget > 0
    ensures w'.log == w.log + [Visit(depth, site.chain, site.path, JObj(members))]
  {
    EnteredSound(root, w, members, depth, site);
    NextSite(root, w', p, depth, site, next);
  }

  /** The log goes on with these two visits. */
  predicate Follow(log: seq<Visit>, a: Visit, b: Visit, log': seq<Visit>) {
    log + [a, b] <= log'
  }

  lemma TwoVisits(log: seq<Visit>, log': seq<Visit>, log'': seq<Visit>, a: Visit, b: Visit)
    requires log' == log + [a] && log' + [b] <= log''
    ensures Follow(log, a, b, log'')
  {
    assert log + [a, b] == log' + [b];
  }

  /** What is below this depth logs the schema it is given. */
  ghost predicate SubLogs(root: Json, sub: Sub, depth: nat) {
    forall w, raw, site {:trigger Asked(sub, w, raw, site)} :: WalkOk(root, w) && SiteOk(root, raw, depth, site) && w.budget > 0 ==>
      w.log + [Visit(depth, site.chain, site.path, raw)] <= sub(w, raw, site).w.log
  }

  lemma DeeperLogs(root: Json, sub: Sub, depth: nat, deep: nat)
    requires depth < MAX_DEPTH && sub == Deeper(depth) && deep == depth + 1
    ensures SubLogs(root, sub, deep)
  {
    forall w, raw, site | WalkOk(root, w) && SiteOk(root, raw, deep, site) && w.budget > 0
      ensures w.log + [Visit(deep, site.chain, site.path, raw)] <= sub(w, raw, site).w.log
    {
      VisitIsLogged(root, w, raw, deep, site);
    }
  }

  lemma InlinedVia(root: Json, sub: Sub, w: Walk, w': Walk, members: map<string, Json>, p: string, depth: nat, site: Site, next: Site)
    requires WalkOk(root, w) && SiteOk(root, JObj(members), depth, site) && SubLogs(root, sub, depth + 1)
    requires "$ref" in members && AsString(members["$ref"]) == Some(p)
    requires w.budget > 1 && depth < MAX_DEPTH && w' == Entered(w, members, depth, site)
    requires p in w'.defs && p !in site.chain && next == Site(site.chain + [p], p)
    ensures var r := InlineRef(sub, w', members["$ref"], depth, site);
      && Located(root, p, w'.defs[p])
      && Follow(w.log, Visit(depth, site.chain, site.path, JObj(members)), Visit(depth + 1, next.chain, p, w'.defs[p]), r.w.log)
  {
    ReadyToFollow(root, w, w', members, p, depth, site, next);
    var r := sub(w', w'.defs[p], next);
    assert Asked(sub, w', w'.defs[p], next);
    TwoVisits(w.log, w'.log, r.w.log, Visit(depth, site.chain, site.path, JObj(members)), Visit(depth + 1, next.chain, p, w'.defs[p]));
  }

  lemma InlinedDeep(root: Json, sub: Sub, w: Walk, w': Walk, members: map<string, Json>, p: string, depth: nat, site: Site,
                    next: Site, r: Out)
    requires WalkOk(root, w) && SiteOk(root, JObj(members), depth, site)
    requires "$ref" in members && AsString(members["$ref"]) == Some(p)
    requires w.budget > 1 && depth < MAX_DEPTH && w' == Entered(w, members, depth, site) && sub == Deeper(depth)
    requires p in w'.defs && p !in site.chain && next == Site(site.chain + [p], p)
    requires r == InlineRef(sub, w', members["$ref"], depth, site)
    ensures Located(root, p, w'.defs[p])
    ensures Follow(w.log, Visit(depth, site.chain, site.path, JObj(members)), Visit(depth + 1, next.chain, p, w'.defs[p]), r.w.log)
  {
    DeeperLogs(root, sub, depth, depth + 1);
    InlinedVia(root, sub, w, w', members, p, depth, site, next);
  }

  /** A reference that is collected, closes no cycle and is met above the depth bound comes out as the schema its
      pointer names comes out there, a level further down; */
  lemma ReferenceIsInlined(root: Json, w: Walk, w': Walk, members: map<string, Json>, p: string, depth: nat, site: Site, next: Site)
    requires WalkOk(root, w) && SiteOk(root, JObj(members), depth, site)
    requires "$ref" in members && AsString(members["$ref"]) == Some(p)
    requires w.budget > 0 && depth < MAX_DEPTH && w' == Entered(w, members, depth, site)
    requires p in w'.defs && p !in site.chain && next == Site(site.chain + [p], p)
    ensures Located(root, p, w'.defs[p])
    ensures NodeOf(w, JObj(members), depth, site) == NodeOf(w', w'.defs[p], depth + 1, next)
  {
    EnteredSound(root, w, members, depth, site);
    Followed(w, w', members, p, depth, site, next);
  }

  /** and, while the budget lasts, the schema visited next is the one the document holds at that pointer. */
  lemma ReferenceIsVisited(root: Json, w: Walk, w': Walk, members: map<string, Json>, p: string, depth: nat, site: Site, next: Site, r: Out)
    requires WalkOk(root, w) && SiteOk(root, JObj(members), depth, site)
    requires "$ref" in members && AsString(members["$ref"]) == Some(p)
    requires w.budget > 1 && depth < MAX_DEPTH && w' == Entered(w, members, depth, site)
    requires p in w'.defs && p !in site.chain && next == Site(site.chain + [p], p)
    requires r == NodeOf(w, JObj(members), depth, site)
    ensures Located(root, p, w'.defs[p])
    ensures Follow(w.log, Visit(depth, site.chain, site.path, JObj(members)), Visit(depth + 1, next.chain, p, w'.defs[p]),
                   r.w.log)
  {
    var sub := Deeper(depth);
    InlinedDeep(root, sub, w, w', members, p, depth, site, next, InlineRef(sub, w', members["$ref"], depth, site));
    RefNode(w, members, depth, site, sub);
  }

  lemma StubsDiffer()
    ensures Stub(ELIDED) != Stub(UNRESOLVED) && Stub(ELIDED) != Stub(TRUNCATED) && Stub(UNRESOLVED) != Stub(TRUNCATED)
  {
    assert ELIDED[1] != UNRESOLVED[1] && ELIDED[1] != TRUNCATED[1] && UNRESOLVED[1] != TRUNCATED[1];
    assert Stub(ELIDED)[Description] == Text(ELIDED) && Stub(UNRESOLVED)[Description] == Text(UNRESOLVED)
        && Stub(TRUNCATED)[Description] == Text(TRUNCATED);
  }

  /** What is below this depth always either logs the schema or truncates it. */
  ghost predicate SubShows(root: Json, sub: Sub, depth: nat) {
    forall w, raw, site {:trigger Asked(sub, w, raw, site)} :: WalkOk(root, w) && SiteOk(root, raw, depth, site) ==>
      sub(w, raw, site) != Out(w, Stub(ELIDED)) && sub(w, raw, site) != Out(w, Stub(UNRESOLVED))
  }

  lemma DeeperShows(root: Json, sub: Sub, depth: nat, deep: nat)
    requires depth < MAX_DEPTH && sub == Deeper(depth) && deep == depth + 1
    ensures SubShows(root, sub, deep)
  {
    forall w, raw, site | WalkOk(root, w) && SiteOk(root, raw, deep, site)
      ensures sub(w, raw, site) != Out(w, Stub(ELIDED)) && sub(w, raw, site) != Out(w, Stub(UNRESOLVED))
    {
      StubsDiffer();
      if w.budget > 0 {
        VisitIsLogged(root, w, raw, deep, site);
      }
    }
  }

  lemma CutVia(root: Json, sub: Sub, w: Walk, p: string, depth: nat, site: Site, next: Site)
    requires WalkOk(root, w) && |site.chain| <= depth && Distinct(site.chain) && SubShows(root, sub, depth + 1)
    requires p in w.defs && p !in site.chain && next == Site(site.chain + [p], p)
    ensures sub(w, w.defs[p], next) != Out(w, Stub(ELIDED)) && sub(w, w.defs[p], next) != Out(w, Stub(UNRESOLVED))
  {
    NextSite(root, w, p, depth, site, next);
    assert Asked(sub, w, w.defs[p], next);
  }

  lemma CutDeep(root: Json, sub: Sub, w: Walk, p: string, depth: nat, site: Site, next: Site)
    requires WalkOk(root, w) && |site.chain| <= depth < MAX_DEPTH && Distinct(site.chain) && sub == Deeper(depth)
    requires p in w.defs && p !in site.chain && next == Site(site.chain + [p], p)
    ensures sub(w, w.defs[p], next) != Out(w, Stub(ELIDED)) && sub(w, w.defs[p], next) != Out(w, Stub(UNRESOLVED))
  {
    DeeperShows(root, sub, depth, depth + 1);
    CutVia(root, sub, w, p, depth, site, next);
  }

  lemma CutIff(sub: Sub, w: Walk, ref: Json, depth: nat, site: Site, p: Option<string>)
    requires depth <= MAX_DEPTH && p == AsString(ref)
    requires p.Some? && p.value in w.defs && p.value !in site.chain && depth < MAX_DEPTH ==>
      var r := sub(w, w.defs[p.value], Site(site.chain + [p.value], p.value)); r != Out(w, Stub(ELIDED)) && r != Out(w, Stub(UNRESOLVED))
    ensures var r := InlineRef(sub, w, ref, depth, site);
      && (r == Out(w, Stub(ELIDED)) <==> p.None? || (p.value in w.defs && (p.value in site.chain || depth == MAX_DEPTH)))
      && (r == Out(w, Stub(UNRESOLVED)) <==> p.Some? && p.value !in w.defs)
  {
    StubsDiffer();
  }

  /** The reference itself answers with the elided stub, visiting nothing further, exactly when it is unreadable or
      leads to a collected schema that is already being inlined or lies below the depth bound; and with the
      unresolved stub exactly when nothing was collected under its pointer. */
  lemma ReferenceIsCut(root: Json, w: Walk, w': Walk, members: map<string, Json>, depth: nat, site: Site, p: Option<string>)
    requires WalkOk(root, w) && SiteOk(root, JObj(members), depth, site)
    requires "$ref" in members && p == AsString(members["$ref"])
    requires w.budget > 0 && depth <= MAX_DEPTH && w' == Entered(w, members, depth, site)
    ensures NodeOf(w, JObj(members), depth, site) == Out(w', Stub(ELIDED)) <==>
      p.None? || (p.value in w'.defs && (p.value in site.chain || depth == MAX_DEPTH))
    ensures NodeOf(w, JObj(members), depth, site) == Out(w', Stub(UNRESOLVED)) <==> p.Some? && p.value !in w'.defs
  {
    var sub := Deeper(depth);
    EnteredSound(root, w, members, depth, site);
    if p.Some? && p.value in w'.defs && p.value !in site.chain && depth < MAX_DEPTH {
      CutDeep(root, sub, w', p.value, depth, site, Site(site.chain + [p.value], p.value));
    }
    CutIff(sub, w', members["$ref"], depth, site, p);
    RefNode(w, members, depth, site, sub);
  }

  // ---- Documents with their references replaced ----

  /** The definitions an object and those around it declare, by pointer. */
  function Scope(table: map<string, Json>, members: map<string, Json>, path: string): map<string, Json> {
    table + Filed(Declared(members, "$defs"), Child(path, "$defs"))
          + Filed(Declared(members, "definitions"), Child(path, "definitions"))
  }

  /** The document with every reference replaced by the definition it leads to, in which they are replaced in turn. */
  function Replace(table: map<string, Json>, raw: Json, site: Site, levels: nat): Json
    decreases levels, 0
  {
    if levels == 0 || !raw.JObj? then raw
    else
      var scope := Scope(table, raw.members, site.path);
      if "$ref" !in raw.members then JObj(ReplaceMembers(scope, raw.members, site, levels - 1))
      else
        match AsString(raw.members["$ref"])
        case None => raw
        case Some(p) => if p in scope then Replace(scope, scope[p], Site(site.chain + [p], p), levels - 1) else raw
  }

  function ReplaceMembers(scope: map<string, Json>, members: map<string, Json>, site: Site, levels: nat): map<string, Json>
    decreases levels, 3
  {
    map k | k in members :: ReplaceMember(scope, k, members[k], At(site, k), levels)
  }

  function ReplaceMember(scope: map<string, Json>, k: string, v: Json, site: Site, levels: nat): Json
    decreases levels, 2
  {
    if k == "items" then Replace(scope, v, site, levels)
    else if k == "properties" && v.JObj? then JObj(ReplaceProps(scope, v.members, site, levels))
    else if k in ["anyOf", "oneOf", "allOf"] && v.JArr? then JArr(ReplaceList(scope, v.items, site, levels))
    else v
  }

  function ReplaceProps(scope: map<string, Json>, props: map<string, Json>, site: Site, levels: nat): map<string, Json>
    decreases levels, 1
  {
    map name | name in props :: Replace(scope, props[name], At(site, name), levels)
  }

  function ReplaceList(scope: map<string, Json>, items: seq<Json>, site: Site, levels: nat): seq<Json>
    decreases levels, 1
  {
    seq(|items|, i requires 0 <= i < |items| => Replace(scope, items[i], At(site, Itoa(i)), levels))
  }

  /** Every reference leads to a definition declared around it and closes no cycle, and the document, its references
      followed, nests at most so many levels. */
  ghost predicate Bound(table: map<string, Json>, raw: Json, site: Site, levels: nat)
    decreases levels, 0
  {
    levels > 0 && (raw.JObj? ==>
      var scope := Scope(table, raw.members, site.path);
      if "$ref" !in raw.members
      then forall k :: k in raw.members ==> MemberBound(scope, k, raw.members[k], At(site, k), levels - 1)
      else
        var ref := AsString(raw.members["$ref"]);
        && ref.Some? && ref.value in scope && ref.value !in site.chain
        && Bound(scope, scope[ref.value], Site(site.chain + [ref.value], ref.value), levels - 1))
  }

  ghost predicate MemberBound(scope: map<string, Json>, k: string, v: Json, site: Site, levels: nat)
    decreases levels, 2
  {
    && (k == "items" ==> Bound(scope, v, site, levels))
    && (k == "properties" && v.JObj? ==> PropsBound(scope, v.members, site, levels))
    && (k in ["anyOf", "oneOf", "allOf"] && v.JArr? ==> ListBound(scope, v.items, site, levels))
  }

  ghost predicate PropsBound(scope: map<string, Json>, props: map<string, Json>, site: Site, levels: nat)
    decreases levels, 1
  {
    forall name :: name in props ==> Bound(scope, props[name], At(site, name), levels)
  }

  ghost predicate ListBound(scope: map<string, Json>, items: seq<Json>, site: Site, levels: nat)
    decreases levels, 1
  {
    forall i :: 0 <= i < |items| ==> Bound(scope, items[i], At(site, Itoa(i)), levels)
  }

  // ---- Two walks side by side ----

  /** The walk cut nothing off for its size. */
  predicate Whole(w: Walk) {
    w.budget > 0 || "(truncated)" !in w.dropped
  }

  /** The other walk has dropped the same keywords on no larger a budget. */
  predicate Ahead(w: Walk, w': Walk) {
    w.budget <= w'.budget && w.dropped == w'.dropped
  }

  predicate Alike(r: Out, r': Out) {
    r.node == r'.node && Ahead(r.w, r'.w)
  }

  predicate AccAlike(acc: Acc, acc': Acc) {
    acc.node == acc'.node && acc.typ == acc'.typ && Ahead(acc.w, acc'.w)
  }

  /** The walk has collected these definitions. */
  ghost predicate Holds(scope: map<string, Json>, w: Walk) {
    forall p :: p in scope ==> p in w.defs && w.defs[p] == scope[p]
  }

  lemma WholeBefore(root: Json, w: Walk, w': Walk)
    requires WalkOk(root, w) && Goes(root, w, w') && Whole(w')
    ensures Whole(w)
  {
    assert |w.log| <= |w'.log|;
  }

  lemma HoldsOn(root: Json, scope: map<string, Json>, w: Walk, w': Walk)
    requires Goes(root, w, w') && Holds(scope, w)
    ensures Holds(scope, w')
  {
  }

  /** A schema met by one walk, and met with its references replaced by the other. */
  datatype Meeting = Meeting(scope: map<string, Json>, w: Walk, raw: Json, site: Site, w': Walk, site': Site)

  ghost predicate Met(m: Meeting) {
    true
  }

  ghost predicate Fair(root: Json, m: Meeting, depth: nat, levels: nat) {
    && WalkOk(root, m.w) && SiteOk(root, m.raw, depth, m.site) && Holds(m.scope, m.w)
    && Bound(m.scope, m.raw, m.site, levels) && Ahead(m.w, m.w')
  }

  /** Both walks make the same of what they meet, unless the first one cuts something off. */
  ghost predicate SubsAgree(root: Json, f: Sub, g: Sub, depth: nat, levels: nat) {
    forall m {:trigger Met(m)} :: Met(m) && Fair(root, m, depth, levels) && Whole(f(m.w, m.raw, m.site).w) ==>
      Alike(f(m.w, m.raw, m.site), g(m.w', Replace(m.scope, m.raw, m.site, levels), m.site'))
  }

  lemma Meet(root: Json, f: Sub, g: Sub, depth: nat, levels: nat, m: Meeting)
    requires SubsAgree(root, f, g, depth, levels) && Fair(root, m, depth, levels) && Whole(f(m.w, m.raw, m.site).w)
    ensures Alike(f(m.w, m.raw, m.site), g(m.w', Replace(m.scope, m.raw, m.site, levels), m.site'))
  {
    assert Met(m);
  }

  lemma {:induction false} PropsAgree(root: Json, f: Sub, g: Sub, depth: nat, levels: nat, scope: map<string, Json>,
                                      props: map<string, Json>, names: seq<string>, w: Walk, site: Site, w': Walk, site': Site,
                                      done: map<string, Node>)
    requires SubSound(root, f, depth + 1) && SubsAgree(root, f, g, depth + 1, levels)
    requires WalkOk(root, w) && SiteOk(root, JObj(props), depth, site) && Holds(scope, w) && Ahead(w, w')
    requires (forall name :: name in names ==> name in props) && PropsBound(scope, props, site, levels)
    requires Whole(PropsOf(f, w, props, names, site, done).w)
    ensures var r, r' := PropsOf(f, w, props, names, site, done), PropsOf(g, w', ReplaceProps(scope, props, site, levels), names, site', done);
      r.props == r'.props && Ahead(r.w, r'.w)
    decreases |names|
  {
    if names != [] {
      var name := names[0];
      LocatedStep(root, site.path, JObj(props), name, props[name]);
      var r := f(w, props[name], At(site, name));
      assert Goes(root, w, r.w);
      PropsSound(root, f, depth, r.w, props, names[1..], site, done[name := r.node]);
      WholeBefore(root, r.w, PropsOf(f, w, props, names, site, done).w);
      Meet(root, f, g, depth + 1, levels, Meeting(scope, w, props[name], At(site, name), w', At(site', name)));
      var r' := g(w', ReplaceProps(scope, props, site, levels)[name], At(site', name));
      HoldsOn(root, scope, w, r.w);
      PropsAgree(root, f, g, depth, levels, scope, props, names[1..], r.w, site, r'.w, site', done[name := r.node]);
    }
  }

  lemma {:induction false} BranchesAgree(root: Json, f: Sub, g: Sub, depth: nat, levels: nat, scope: map<string, Json>,
                                         list: seq<Json>, i: nat, w: Walk, site: Site, w': Walk, site': Site, done: seq<Node>)
    requires SubSound(root, f, depth + 1) && SubsAgree(root, f, g, depth + 1, levels)
    requires WalkOk(root, w) && SiteOk(root, JArr(list), depth, site) && Holds(scope, w) && Ahead(w, w')
    requires i <= |list| && ListBound(scope, list, site, levels)
    requires Whole(Branches(f, w, list, i, site, done).w)
    ensures var r, r' := Branches(f, w, list, i, site, done), Branches(g, w', ReplaceList(scope, list, site, levels), i, site', done);
      r.nodes == r'.nodes && Ahead(r.w, r'.w)
    decreases |list| - i
  {
    if i < |list| {
      LocatedItem(root, site.path, list, i);
      var r := f(w, list[i], At(site, Itoa(i)));
      assert Goes(root, w, r.w);
      BranchesSound(root, f, depth, r.w, list, i + 1, site, done + [r.node]);
      WholeBefore(root, r.w, Branches(f, w, list, i, site, done).w);
      Meet(root, f, g, depth + 1, levels, Meeting(scope, w, list[i], At(site, Itoa(i)), w', At(site', Itoa(i))));
      var r' := g(w', ReplaceList(scope, list, site, levels)[i], At(site', Itoa(i)));
      HoldsOn(root, scope, w, r.w);
      BranchesAgree(root, f, g, depth, levels, scope, list, i + 1, r.w, site, r'.w, site', done + [r.node]);
    }
  }

  lemma DroppingAgrees(acc: Acc, acc': Acc, name: string)
    requires AccAlike(acc, acc')
    ensures AccAlike(Dropping(acc, name), Dropping(acc', name))
  {
  }

  lemma KeptAgrees(acc: Acc, acc': Acc, name: string, k: Key, v: Json)
    requires AccAlike(acc, acc')
    ensures AccAlike(Kept(acc, name, k, v), Kept(acc', name, k, v))
  {
    DroppingAgrees(acc, acc', name);
  }

  lemma PinnedAgrees(acc: Acc, acc': Acc, name: string, v: Json)
    requires AccAlike(acc, acc')
    ensures AccAlike(Pinned(acc, name, v), Pinned(acc', name, v))
  {
    DroppingAgrees(acc, acc', name);
  }

  lemma PlainAgrees(acc: Acc, acc': Acc, k: Key, name: string, v: Json, nullable: bool)
    requires AccAlike(acc, acc')
    ensures AccAlike(Plain(acc, k, name, v, nullable), Plain(acc', k, name, v, nullable))
  {
    DroppingAgrees(acc, acc', name);
    PinnedAgrees(acc, acc', name, v);
    KeptAgrees(acc, acc', name, if k.ExclusiveMinimum? then Minimum else if k.ExclusiveMaximum? then Maximum else k, v);
  }

  lemma ObjectAgrees(root: Json, f: Sub, g: Sub, depth: nat, levels: nat, scope: map<string, Json>, acc: Acc, acc': Acc,
                     name: string, v: Json, v': Json, site: Site, site': Site)
    requires SubSound(root, f, depth + 1) && SubsAgree(root, f, g, depth + 1, levels)
    requires WalkOk(root, acc.w) && SiteOk(root, v, depth, site) && Holds(scope, acc.w) && AccAlike(acc, acc')
    requires if v.JObj? then PropsBound(scope, v.members, site, levels) && v' == JObj(ReplaceProps(scope, v.members, site, levels)) else v' == v
    requires Whole(Object(f, acc, name, v, site).w)
    ensures AccAlike(Object(f, acc, name, v, site), Object(g, acc', name, v', site'))
  {
    if v.JObj? {
      var props, names := v.members, KeyOrder.Sorted(v.members.Keys);
      assert ReplaceProps(scope, props, site, levels).Keys == props.Keys;
      PropsAgree(root, f, g, depth, levels, scope, props, names, acc.w, site, acc'.w, site', map[]);
    } else if v.JNull? {
      var none: map<string, Json> := map[];
      assert forall name :: name in KeyOrder.Sorted(none.Keys) ==> name in none;
      assert KeyOrder.Sorted(none.Keys) == [];
    }
  }

  lemma UnionAgrees(root: Json, f: Sub, g: Sub, depth: nat, levels: nat, scope: map<string, Json>, acc: Acc, acc': Acc,
                    name: string, v: Json, v': Json, site: Site, site': Site)
    requires SubSound(root, f, depth + 1) && SubsAgree(root, f, g, depth + 1, levels)
    requires WalkOk(root, acc.w) && SiteOk(root, v, depth, site) && Holds(scope, acc.w) && AccAlike(acc, acc')
    requires if v.JArr? then ListBound(scope, v.items, site, levels) && v' == JArr(ReplaceList(scope, v.items, site, levels)) else v' == v
    requires Whole(Union(f, acc, name, v, site).w)
    ensures AccAlike(Union(f, acc, name, v, site), Union(g, acc', name, v', site'))
  {
    if v.JArr? && v.items != [] {
      BranchesAgree(root, f, g, depth, levels, scope, v.items, 0, acc.w, site, acc'.w, site', []);
    }
  }

  lemma ItemsAgree(root: Json, f: Sub, g: Sub, depth: nat, levels: nat, scope: map<string, Json>, acc: Acc, acc': Acc,
                   v: Json, site: Site, site': Site)
    requires SubsAgree(root, f, g, depth + 1, levels)
    requires WalkOk(root, acc.w) && SiteOk(root, v, depth, site) && Holds(scope, acc.w) && AccAlike(acc, acc')
    requires Bound(scope, v, site, levels) && Whole(ItemsOf(f, acc, v, site).w)
    ensures AccAlike(ItemsOf(f, acc, v, site), ItemsOf(g, acc', Replace(scope, v, site, levels), site'))
  {
    Meet(root, f, g, depth + 1, levels, Meeting(scope, acc.w, v, site, acc'.w, site'));
  }

  /** The keyword is spelt the one way its name is. */
  lemma Spelt(name: string)
    ensures KeyOf(name).Items? <==> name == "items"
    ensures KeyOf(name).Properties? <==> name == "properties"
    ensures KeyOf(name).AnyOf? <==> name == "anyOf"
    ensures KeyOf(name).OneOf? <==> name == "oneOf"
    ensures KeyOf(name).AllOf? <==> name == "allOf"
  {
  }

  /** What becomes of a keyword's value when references are replaced. */
  ghost predicate Replaced(k: Key, scope: map<string, Json>, v: Json, v': Json, site: Site, levels: nat) {
    if k.Items? then Bound(scope, v, site, levels) && v' == Replace(scope, v, site, levels)
    else if k.Properties? && v.JObj? then PropsBound(scope, v.members, site, levels) && v' == JObj(ReplaceProps(scope, v.members, site, levels))
    else if (k.AnyOf? || k.OneOf? || k.AllOf?) && v.JArr? then
      ListBound(scope, v.items, site, levels) && v' == JArr(ReplaceList(scope, v.items, site, levels))
    else v' == v
  }

  lemma MemberReplaced(scope: map<string, Json>, name: string, v: Json, site: Site, levels: nat)
    requires MemberBound(scope, name, v, site, levels)
    ensures Replaced(KeyOf(name), scope, v, ReplaceMember(scope, name, v, site, levels), site, levels)
  {
    Spelt(name);
  }

  lemma KeywordAgrees(root: Json, f: Sub, g: Sub, depth: nat, levels: nat, scope: map<string, Json>, acc: Acc, acc': Acc,
                      k: Key, name: string, v: Json, v': Json, site: Site, site': Site, nullable: bool)
    requires SubSound(root, f, depth + 1) && SubsAgree(root, f, g, depth + 1, levels)
    requires WalkOk(root, acc.w) && SiteOk(root, v, depth, At(site, name)) && Holds(scope, acc.w) && AccAlike(acc, acc')
    requires Replaced(k, scope, v, v', At(site, name), levels)
    requires Whole(Keyword(f, acc, k, name, v, site, nullable).w)
    ensures AccAlike(Keyword(f, acc, k, name, v, site, nullable), Keyword(g, acc', k, name, v', site', nullable))
  {
    if k.Items? {
      ItemsAgree(root, f, g, depth, levels, scope, acc, acc', v, At(site, name), At(site', name));
    } else if k.Properties? {
      ObjectAgrees(root, f, g, depth, levels, scope, acc, acc', name, v, v', At(site, name), At(site', name));
    } else if k.AnyOf? || k.OneOf? {
      UnionAgrees(root, f, g, depth, levels, scope, acc, acc', name, v, v', At(site, name), At(site', name));
    } else if !k.AllOf? {
      PlainAgrees(acc, acc', k, name, v, nullable);
    }
  }

  lemma {:induction false} KeywordsAgree(root: Json, f: Sub, g: Sub, depth: nat, levels: nat, scope: map<string, Json>, acc: Acc, acc': Acc,
                                         members: map<string, Json>, keys: seq<string>, site: Site, site': Site, nullable: bool)
    requires SubSound(root, f, depth + 1) && SubsAgree(root, f, g, depth + 1, levels)
    requires WalkOk(root, acc.w) && SiteOk(root, JObj(members), depth, site) && Holds(scope, acc.w) && AccAlike(acc, acc')
    requires forall k :: k in keys ==> k in members
    requires forall k :: k in members ==> MemberBound(scope, k, members[k], At(site, k), levels)
    requires Whole(Keywords(f, acc, members, keys, site, nullable).w)
    ensures AccAlike(Keywords(f, acc, members, keys, site, nullable),
                     Keywords(g, acc', ReplaceMembers(scope, members, site, levels), keys, site', nullable))
    decreases |keys|
  {
    if keys != [] {
      var name := keys[0];
      LocatedStep(root, site.path, JObj(members), name, members[name]);
      var next := Keyword(f, acc, KeyOf(name), name, members[name], site, nullable);
      KeywordSound(root, f, depth, acc, KeyOf(name), name, members[name], site, nullable);
      KeywordsSound(root, f, depth, next, members, keys[1..], site, nullable);
      WholeBefore(root, next.w, Keywords(f, acc, members, keys, site, nullable).w);
      var v' := ReplaceMembers(scope, members, site, levels)[name];
      MemberReplaced(scope, name, members[name], At(site, name), levels);
      KeywordAgrees(root, f, g, depth, levels, scope, acc, acc', KeyOf(name), name, members[name], v', site, site', nullable);
      HoldsOn(root, scope, acc.w, next.w);
      var next' := Keyword(g, acc', KeyOf(name), name, v', site', nullable);
      KeywordsAgree(root, f, g, depth, levels, scope, next, next', members, keys[1..], site, site', nullable);
    }
  }

  lemma MergeListAgrees(root: Json, f: Sub, g: Sub, depth: nat, levels: nat, scope: map<string, Json>, acc: Acc, acc': Acc,
                        list: seq<Json>, site: Site, site': Site)
    requires SubSound(root, f, depth + 1) && SubsAgree(root, f, g, depth + 1, levels)
    requires WalkOk(root, acc.w) && SiteOk(root, JArr(list), depth, site) && Holds(scope, acc.w) && AccAlike(acc, acc')
    requires ListBound(scope, list, site, levels) && Whole(Branches(f, acc.w, list, 0, site, []).w)
    ensures var r, r' := Branches(f, acc.w, list, 0, site, []), Branches(g, acc'.w, ReplaceList(scope, list, site, levels), 0, site', []);
      AccAlike(acc.(w := r.w, node := Merged(acc.node, r.nodes)), acc'.(w := r'.w, node := Merged(acc'.node, r'.nodes)))
  {
    BranchesAgree(root, f, g, depth, levels, scope, list, 0, acc.w, site, acc'.w, site', []);
  }

  lemma MergeAllOfAgrees(root: Json, f: Sub, g: Sub, depth: nat, levels: nat, scope: map<string, Json>, acc: Acc, acc': Acc,
                         members: map<string, Json>, members': map<string, Json>, site: Site, site': Site)
    requires SubSound(root, f, depth + 1) && SubsAgree(root, f, g, depth + 1, levels)
    requires WalkOk(root, acc.w) && SiteOk(root, JObj(members), depth, site) && Holds(scope, acc.w) && AccAlike(acc, acc')
    requires "allOf" in members <==> "allOf" in members'
    requires "allOf" in members ==>
      var v, s := members["allOf"], At(site, "allOf");
      if v.JArr? then ListBound(scope, v.items, s, levels) && members'["allOf"] == JArr(ReplaceList(scope, v.items, s, levels))
      else members'["allOf"] == v
    requires Whole(MergeAllOf(f, acc, members, site).w)
    ensures AccAlike(MergeAllOf(f, acc, members, site), MergeAllOf(g, acc', members', site'))
  {
    DroppingAgrees(acc, acc', "allOf");
    if "allOf" in members && members["allOf"].JArr? && members["allOf"].items != [] {
      LocatedStep(root, site.path, JObj(members), "allOf", members["allOf"]);
      MergeListAgrees(root, f, g, depth, levels, scope, acc, acc', members["allOf"].items, At(site, "allOf"), At(site', "allOf"));
    }
  }

  lemma AddFormatAgrees(acc: Acc, acc': Acc, members: map<string, Json>, members': map<string, Json>)
    requires AccAlike(acc, acc')
    requires "format" in members <==> "format" in members'
    requires "format" in members ==> members["format"] == members'["format"]
    ensures AccAlike(AddFormat(acc, members), AddFormat(acc', members'))
  {
    DroppingAgrees(acc, acc', "format");
  }

  lemma SettleEnumAgrees(acc: Acc, acc': Acc)
    requires AccAlike(acc, acc')
    ensures AccAlike(SettleEnum(acc), SettleEnum(acc'))
  {
    DroppingAgrees(acc.(node := acc.node - {Enum}), acc'.(node := acc'.node - {Enum}), "enum");
  }

  lemma FinishAgrees(acc: Acc, acc': Acc, members: map<string, Json>, members': map<string, Json>)
    requires AccAlike(acc, acc')
    requires "format" in members <==> "format" in members'
    requires "format" in members ==> members["format"] == members'["format"]
    ensures Alike(Finish(acc, members), Finish(acc', members'))
  {
    AddFormatAgrees(acc, acc', members, members');
    SettleEnumAgrees(AddFormat(acc, members), AddFormat(acc', members'));
  }

  // ---- One level of both walks ----

  lemma ScopeHeld(scope: map<string, Json>, members: map<string, Json>, w: Walk, path: string)
    requires Holds(scope, w)
    ensures Holds(Scope(scope, members, path), Collect(w, members, path))
  {
    var w' := Collect1(w, members, "$defs", path);
    var scope' := scope + Filed(Declared(members, "$defs"), Child(path, "$defs"));
    AddedHeld(scope, w, w', Filed(Declared(members, "$defs"), Child(path, "$defs")));
    AddedHeld(scope', w', Collect(w, members, path), Filed(Declared(members, "definitions"), Child(path, "definitions")));
  }

  lemma AddedHeld(scope: map<string, Json>, w: Walk, w': Walk, more: map<string, Json>)
    requires Holds(scope, w) && w'.defs == w.defs + more
    ensures Holds(scope + more, w')
  {
  }

  /** Nothing is cut off on the way when nothing has been at the end. */
  lemma StagesWhole(root: Json, f: Sub, depth: nat, members: map<string, Json>, keys: seq<string>, site: Site, nullable: bool,
                    start: Acc, acc: Acc, merged: Acc)
    requires SubSound(root, f, depth + 1) && WalkOk(root, start.w) && SiteOk(root, JObj(members), depth, site)
    requires forall k :: k in keys ==> k in members
    requires acc == Keywords(f, start, members, keys, site, nullable) && merged == MergeAllOf(f, acc, members, site)
    requires Whole(Finish(merged, members).w)
    ensures Goes(root, start.w, acc.w) && Whole(acc.w) && Whole(merged.w)
  {
    KeywordsSound(root, f, depth, start, members, keys, site, nullable);
    MergeAllOfSound(root, f, depth, acc, members, site);
    FinishSound(root, merged, members);
    WholeBefore(root, merged.w, Finish(merged, members).w);
    WholeBefore(root, acc.w, merged.w);
  }

  lemma OtherMember(scope: map<string, Json>, k: string, v: Json, site: Site, levels: nat)
    requires k == "type" || k == "format"
    ensures ReplaceMember(scope, k, v, site, levels) == v
  {
  }

  lemma AllOfMember(scope: map<string, Json>, k: string, v: Json, site: Site, levels: nat)
    requires k == "allOf" && MemberBound(scope, k, v, site, levels)
    ensures var v' := ReplaceMember(scope, k, v, site, levels);
      if v.JArr? then ListBound(scope, v.items, site, levels) && v' == JArr(ReplaceList(scope, v.items, site, levels)) else v' == v
  {
  }

  lemma SameTyping(members: map<string, Json>, members': map<string, Json>)
    requires "type" in members <==> "type" in members'
    requires "type" in members ==> members'["type"] == members["type"]
    ensures NodeType(members') == NodeType(members)
  {
  }

  lemma MembersReplaced(scope: map<string, Json>, members: map<string, Json>, members': map<string, Json>, site: Site, levels: nat)
    requires forall k :: k in members ==> MemberBound(scope, k, members[k], At(site, k), levels)
    requires members' == ReplaceMembers(scope, members, site, levels)
    ensures members'.Keys == members.Keys && NodeType(members') == NodeType(members)
    ensures "format" in members ==> members'["format"] == members["format"]
    ensures "allOf" in members ==>
      var v, s := members["allOf"], At(site, "allOf");
      if v.JArr? then ListBound(scope, v.items, s, levels) && members'["allOf"] == JArr(ReplaceList(scope, v.items, s, levels))
      else members'["allOf"] == v
  {
    if "type" in members {
      OtherMember(scope, "type", members["type"], At(site, "type"), levels);
    }
    SameTyping(members, members');
    if "format" in members {
      OtherMember(scope, "format", members["format"], At(site, "format"), levels);
    }
    if "allOf" in members {
      AllOfMember(scope, "allOf", members["allOf"], At(site, "allOf"), levels);
    }
  }

  lemma StagesAgree(root: Json, f: Sub, g: Sub, depth: nat, levels: nat, scope: map<string, Json>, members: map<string, Json>,
                    members': map<string, Json>, keys: seq<string>, start: Acc, site: Site, start': Acc, site': Site, nullable: bool)
    requires SubSound(root, f, depth + 1) && SubsAgree(root, f, g, depth + 1, levels)
    requires WalkOk(root, start.w) && SiteOk(root, JObj(members), depth, site) && Holds(scope, start.w) && AccAlike(start, start')
    requires forall k :: k in members ==> MemberBound(scope, k, members[k], At(site, k), levels)
    requires members' == ReplaceMembers(scope, members, site, levels) && forall k :: k in keys ==> k in members
    requires Whole(Finish(MergeAllOf(f, Keywords(f, start, members, keys, site, nullable), members, site), members).w)
    ensures Alike(Finish(MergeAllOf(f, Keywords(f, start, members, keys, site, nullable), members, site), members),
                  Finish(MergeAllOf(g, Keywords(g, start', members', keys, site', nullable), members', site'), members'))
  {
    var acc, acc' := Keywords(f, start, members, keys, site, nullable), Keywords(g, start', members', keys, site', nullable);
    var merged, merged' := MergeAllOf(f, acc, members, site), MergeAllOf(g, acc', members', site');
    StagesWhole(root, f, depth, members, keys, site, nullable, start, acc, merged);
    KeywordsAgree(root, f, g, depth, levels, scope, start, start', members, keys, site, site', nullable);
    HoldsOn(root, scope, start.w, acc.w);
    MembersReplaced(scope, members, members', site, levels);
    MergeAllOfAgrees(root, f, g, depth, levels, scope, acc, acc', members, members', site, site');
    FinishAgrees(merged, merged', members, members');
  }

  lemma RefFreeAgrees(root: Json, f: Sub, g: Sub, depth: nat, levels: nat, scope: map<string, Json>, members: map<string, Json>,
                      members': map<string, Json>, w: Walk, site: Site, w': Walk, site': Site, depth': nat)
    requires SubSound(root, f, depth + 1) && SubsAgree(root, f, g, depth + 1, levels)
    requires WalkOk(root, w) && SiteOk(root, JObj(members), depth, site) && Holds(scope, w) && Ahead(w, w')
    requires "$ref" !in members && forall k :: k in members ==> MemberBound(scope, k, members[k], At(site, k), levels)
    requires members' == ReplaceMembers(scope, members, site, levels)
    requires Whole(Rewrite(f, w, members, depth, site).w)
    ensures Alike(Rewrite(f, w, members, depth, site), Rewrite(g, w', members', depth', site'))
  {
    MembersReplaced(scope, members, members', site, levels);
    var t := NodeType(members);
    var keys := KeyOrder.Sorted(members.Keys);
    StagesAgree(root, f, g, depth, levels, scope, members, members', keys, Acc(w, Start(t), t.typ), site, Acc(w', Start(t), t.typ), site',
                t.nullable);
  }

  lemma EnteredAhead(w: Walk, w': Walk, members: map<string, Json>, members': map<string, Json>, depth: nat, depth': nat, site: Site, site': Site)
    requires w.budget > 0 && Ahead(w, w')
    ensures Ahead(Entered(w, members, depth, site), Entered(w', members', depth', site'))
  {
  }

  lemma ObjectNodesAgree(root: Json, f: Sub, g: Sub, depth: nat, levels: nat, table: map<string, Json>, scope: map<string, Json>,
                         members: map<string, Json>, members': map<string, Json>, w: Walk, site: Site, w': Walk, site': Site, depth': nat)
    requires SubSound(root, f, depth + 1) && SubsAgree(root, f, g, depth + 1, levels)
    requires WalkOk(root, w) && SiteOk(root, JObj(members), depth, site) && Holds(table, w) && Ahead(w, w')
    requires w.budget > 0 && depth <= MAX_DEPTH && scope == Scope(table, members, site.path)
    requires "$ref" !in members && forall k :: k in members ==> MemberBound(scope, k, members[k], At(site, k), levels)
    requires members' == ReplaceMembers(scope, members, site, levels)
    requires Whole(Rewrite(f, Entered(w, members, depth, site), members, depth, site).w)
    ensures Alike(Rewrite(f, Entered(w, members, depth, site), members, depth, site),
                  Rewrite(g, Entered(w', members', depth', site'), members', depth', site'))
  {
    var e, e' := Entered(w, members, depth, site), Entered(w', members', depth', site');
    EnteredSound(root, w, members, depth, site);
    EnteredAhead(w, w', members, members', depth, depth', site, site');
    ScopeHeld(table, members, Expand(w, JObj(members), depth, site), site.path);
    RefFreeAgrees(root, f, g, depth, levels, scope, members, members', e, site, e', site', depth');
  }

  lemma ObjectVia(sub: Sub, w: Walk, members: map<string, Json>, depth: nat, site: Site)
    requires w.budget > 0
    ensures NodeVia(sub, w, JObj(members), depth, site) == Rewrite(sub, Entered(w, members, depth, site), members, depth, site)
  {
  }

  lemma OtherVia(sub: Sub, w: Walk, raw: Json, depth: nat, site: Site)
    requires w.budget > 0 && !raw.JObj?
    ensures NodeVia(sub, w, raw, depth, site) == Out(Expand(w, raw, depth, site), map[Type := Text("object")])
  {
  }

  lemma WholeNode(sub: Sub, w: Walk, raw: Json, depth: nat, site: Site)
    requires Whole(NodeVia(sub, w, raw, depth, site).w)
    ensures w.budget > 0
  {
  }

  lemma RefFreeParts(table: map<string, Json>, scope: map<string, Json>, members: map<string, Json>, site: Site, levels: nat)
    requires Bound(table, JObj(members), site, levels + 1) && "$ref" !in members && scope == Scope(table, members, site.path)
    ensures forall k :: k in members ==> MemberBound(scope, k, members[k], At(site, k), levels)
    ensures Replace(table, JObj(members), site, levels + 1) == JObj(ReplaceMembers(scope, members, site, levels))
  {
  }

  /** A schema that is no reference. */
  lemma NodesAgree(root: Json, f: Sub, g: Sub, depth: nat, levels: nat, m: Meeting, depth': nat, raw': Json)
    requires SubSound(root, f, depth + 1) && SubsAgree(root, f, g, depth + 1, levels)
    requires Fair(root, m, depth, levels + 1) && depth <= MAX_DEPTH
    requires m.raw.JObj? ==> "$ref" !in m.raw.members
    requires Whole(NodeVia(f, m.w, m.raw, depth, m.site).w) && raw' == Replace(m.scope, m.raw, m.site, levels + 1)
    ensures Alike(NodeVia(f, m.w, m.raw, depth, m.site), NodeVia(g, m.w', raw', depth', m.site'))
  {
    WholeNode(f, m.w, m.raw, depth, m.site);
    if m.raw.JObj? {
      var members := m.raw.members;
      var scope := Scope(m.scope, members, m.site.path);
      RefFreeParts(m.scope, scope, members, m.site, levels);
      ObjectVia(f, m.w, members, depth, m.site);
      ObjectVia(g, m.w', raw'.members, depth', m.site');
      ObjectNodesAgree(root, f, g, depth, levels, m.scope, scope, members, raw'.members, m.w, m.site, m.w', m.site', depth');
    } else {
      OtherVia(f, m.w, m.raw, depth, m.site);
      OtherVia(g, m.w', m.raw, depth', m.site');
    }
  }

  lemma RefParts(table: map<string, Json>, scope: map<string, Json>, members: map<string, Json>, p: Option<string>, site: Site, levels: nat)
    requires Bound(table, JObj(members), site, levels + 1) && "$ref" in members && scope == Scope(table, members, site.path)
    requires p == AsString(members["$ref"])
    ensures p.Some? && p.value in scope && p.value !in site.chain && levels > 0
    ensures var next := Site(site.chain + [p.value], p.value);
      && Bound(scope, scope[p.value], next, levels)
      && Replace(table, JObj(members), site, levels + 1) == Replace(scope, scope[p.value], next, levels)
  {
  }

  lemma FollowedVia(sub: Sub, w: Walk, e: Walk, members: map<string, Json>, p: string, depth: nat, site: Site, next: Site)
    requires "$ref" in members && AsString(members["$ref"]) == Some(p)
    requires w.budget > 0 && depth < MAX_DEPTH && e == Entered(w, members, depth, site)
    requires p in e.defs && p !in site.chain && next == Site(site.chain + [p], p)
    ensures NodeVia(sub, w, JObj(members), depth, site) == sub(e, e.defs[p], next)
  {
    RefVia(sub, w, members, depth, site);
  }

  /** What a reference leads to is met one level further down with the definitions around it. */
  lemma NextMeeting(root: Json, m: Meeting, members: map<string, Json>, depth: nat, levels: nat, p: string, e: Walk, next: Meeting)
    requires Fair(root, m, depth, levels + 1) && m.raw == JObj(members) && depth <= MAX_DEPTH && m.w.budget > 0
    requires "$ref" in members && AsString(members["$ref"]) == Some(p) && e == Entered(m.w, members, depth, m.site)
    requires next.scope == Scope(m.scope, members, m.site.path) && next.w == e && next.w' == m.w'
    requires p in next.scope && next.raw == next.scope[p] && next.site == Site(m.site.chain + [p], p)
    ensures Fair(root, next, depth + 1, levels) && p in e.defs && e.defs[p] == next.raw && p !in m.site.chain && levels > 0
    ensures Replace(m.scope, m.raw, m.site, levels + 1) == Replace(next.scope, next.raw, next.site, levels)
  {
    RefParts(m.scope, next.scope, members, Some(p), m.site, levels);
    EnteredSound(root, m.w, members, depth, m.site);
    ScopeHeld(m.scope, members, Expand(m.w, m.raw, depth, m.site), m.site.path);
    NextSite(root, e, p, depth, m.site, next.site);
    EnteredAhead(m.w, m.w', members, members, depth, depth, m.site, m.site);
  }

  /** A reference: the other walk meets what it leads to in its place. */
  lemma RefsAgree(root: Json, f: Sub, h: Sub, depth: nat, levels: nat, m: Meeting, members: map<string, Json>, raw': Json)
    requires SubsAgree(root, f, h, depth + 1, levels)
    requires Fair(root, m, depth, levels + 1) && depth + levels == MAX_DEPTH
    requires m.raw == JObj(members) && "$ref" in members
    requires Whole(NodeVia(f, m.w, m.raw, depth, m.site).w) && raw' == Replace(m.scope, m.raw, m.site, levels + 1)
    ensures Alike(NodeVia(f, m.w, m.raw, depth, m.site), h(m.w', raw', m.site'))
  {
    WholeNode(f, m.w, m.raw, depth, m.site);
    var scope, ref := Scope(m.scope, members, m.site.path), AsString(members["$ref"]);
    RefParts(m.scope, scope, members, ref, m.site, levels);
    var p := ref.value;
    var e := Entered(m.w, members, depth, m.site);
    var next := Meeting(scope, e, scope[p], Site(m.site.chain + [p], p), m.w', m.site');
    NextMeeting(root, m, members, depth, levels, p, e, next);
    FollowedVia(f, m.w, e, members, p, depth, m.site, next.site);
    Meet(root, f, h, depth + 1, levels, next);
  }

  // ---- The whole walk ----

  /** f is the walk at this depth. */
  ghost predicate Walks(f: Sub, depth: nat) {
    forall w, raw, site {:trigger Asked(f, w, raw, site)} :: f(w, raw, site) == NodeOf(w, raw, depth, site)
  }

  lemma DeeperWalks(depth: nat, deep: nat, sub: Sub)
    requires depth <= MAX_DEPTH && deep == depth + 1 && sub == Deeper(depth)
    ensures Walks(sub, deep)
  {
  }

  lemma WalkVia(f: Sub, sub: Sub, w: Walk, raw: Json, depth: nat, site: Site)
    requires Walks(f, depth) && depth <= MAX_DEPTH && sub == Deeper(depth)
    ensures f(w, raw, site) == NodeVia(sub, w, raw, depth, site)
  {
    assert Asked(f, w, raw, site);
  }

  lemma LevelAgrees(root: Json, f: Sub, g: Sub, sub: Sub, sub': Sub, depth: nat, depth': nat, levels: nat)
    requires depth + levels == MAX_DEPTH && depth' <= depth && Walks(f, depth) && Walks(g, depth')
    requires sub == Deeper(depth) && sub' == Deeper(depth')
    requires SubSound(root, sub, depth + 1)
    requires SubsAgree(root, sub, sub', depth + 1, levels) && SubsAgree(root, sub, g, depth + 1, levels)
    ensures SubsAgree(root, f, g, depth, levels + 1)
  {
    forall m {:trigger Met(m)} | Met(m) && Fair(root, m, depth, levels + 1) && Whole(f(m.w, m.raw, m.site).w)
      ensures Alike(f(m.w, m.raw, m.site), g(m.w', Replace(m.scope, m.raw, m.site, levels + 1), m.site'))
    {
      var raw' := Replace(m.scope, m.raw, m.site, levels + 1);
      WalkVia(f, sub, m.w, m.raw, depth, m.site);
      WalkVia(g, sub', m.w', raw', depth', m.site');
      if m.raw.JObj? && "$ref" in m.raw.members {
        RefsAgree(root, sub, g, depth, levels, m, m.raw.members, raw');
      } else {
        NodesAgree(root, sub, sub', depth, levels, m, depth', raw');
      }
    }
  }

  lemma LevelSoundlyAgrees(root: Json, f: Sub, g: Sub, sub: Sub, sub': Sub, depth: nat, deep: nat, depth': nat, levels: nat, less: nat)
    requires depth + levels == MAX_DEPTH + 1 && levels == less + 1 && deep == depth + 1
    requires depth' <= depth && Walks(f, depth) && Walks(g, depth')
    requires sub == Deeper(depth) && sub' == Deeper(depth')
    requires SubsAgree(root, sub, sub', deep, less) && SubsAgree(root, sub, g, deep, less)
    ensures SubsAgree(root, f, g, depth, levels)
  {
    DeeperSound(root, depth);
    LevelAgrees(root, f, g, sub, sub', depth, depth', less);
  }

  /** Nothing is bound to nest within no levels. */
  lemma NothingBound(root: Json, f: Sub, g: Sub, depth: nat, levels: nat)
    requires levels == 0
    ensures SubsAgree(root, f, g, depth, levels)
  {
    forall m: Meeting ensures !Fair(root, m, depth, levels) {
      assert !Bound(m.scope, m.raw, m.site, levels);
    }
  }

  /** At every depth, a walk and another one no deeper that meets the replaced schemas make the same of them. */
  lemma {:induction false} WalksAgree(root: Json, f: Sub, g: Sub, depth: nat, depth': nat, levels: nat)
    requires depth + levels == MAX_DEPTH + 1 && depth' <= depth && Walks(f, depth) && Walks(g, depth')
    ensures SubsAgree(root, f, g, depth, levels)
    decreases levels
  {
    if levels > 0 {
      var deep, less := depth + 1, levels - 1;
      var sub, sub' := Deeper(depth), Deeper(depth');
      DeeperWalks(depth, deep, sub);
      DeeperWalks(depth', depth' + 1, sub');
      WalksAgree(root, sub, sub', deep, depth' + 1, less);
      WalksAgree(root, sub, g, deep, depth', less);
      LevelSoundlyAgrees(root, f, g, sub, sub', depth, deep, depth', levels, less);
    } else {
      NothingBound(root, f, g, depth, levels);
    }
  }

  // ---- Substitution ----

  lemma SameAtTop(root: Json, f: Sub, depth: nat, levels: nat, m: Meeting, r: Out, r': Out)
    requires SubsAgree(root, f, f, depth, levels) && Fair(root, m, depth, levels) && m.w == m.w' && Walks(f, depth)
    requires r == NodeOf(m.w, m.raw, depth, m.site) && Whole(r.w)
    requires r' == NodeOf(m.w, Replace(m.scope, m.raw, m.site, levels), depth, m.site')
    ensures r'.node == r.node && r'.w.dropped == r.w.dropped && Whole(r'.w) && r.w.budget <= r'.w.budget
  {
    assert Asked(f, m.w, m.raw, m.site) && Asked(f, m.w', Replace(m.scope, m.raw, m.site, levels), m.site');
    Meet(root, f, f, depth, levels, m);
  }

  lemma SubstitutedFrom(root: Json, depth: nat, levels: nat, m: Meeting, r: Out, r': Out)
    requires depth + levels == MAX_DEPTH + 1 && Fair(root, m, depth, levels) && m.w == m.w'
    requires r == NodeOf(m.w, m.raw, depth, m.site) && Whole(r.w)
    requires r' == NodeOf(m.w, Replace(m.scope, m.raw, m.site, levels), depth, m.site')
    ensures r'.node == r.node && r'.w.dropped == r.w.dropped && Whole(r'.w) && r.w.budget <= r'.w.budget
  {
    var f := WalkAt(depth);
    WalksAgree(root, f, f, depth, depth, levels);
    SameAtTop(root, f, depth, levels, m, r, r');
  }

  ghost function WalkAt(depth: nat): (f: Sub)
    ensures Walks(f, depth)
  {
    (w, raw, site) => NodeOf(w, raw, depth, site)
  }

  lemma FreshStart(root: Json, w: Walk, depth: nat, site: Site)
    requires Fresh(w, depth, site)
    ensures WalkOk(root, w) && SiteOk(root, root, depth, site)
  {
    LocatedRoot(root);
  }

  lemma FairAtRoot(root: Json, m: Meeting, depth: nat, levels: nat)
    requires WalkOk(root, m.w) && SiteOk(root, m.raw, depth, m.site) && m.w == m.w' && m.scope == map[]
    requires Bound(m.scope, m.raw, m.site, levels)
    ensures Fair(root, m, depth, levels)
  {
  }

  /** A document whose references are bound means what it means with each of them replaced by what the document holds
      at its pointer: when the first walk cuts nothing off for size, neither does the second, and both give the same
      node and report the same keywords as dropped. */
  lemma ReferencesAreSubstituted(raw: Json, w: Walk, depth: nat, site: Site, levels: nat, table: map<string, Json>, r: Out, r': Out)
    requires Fresh(w, depth, site) && table == map[] && levels == MAX_DEPTH + 1
    requires Bound(table, raw, site, levels)
    requires r == NodeOf(w, raw, depth, site) && Whole(r.w)
    requires r' == NodeOf(w, Replace(table, raw, site, levels), depth, site)
    ensures r'.node == r.node && r'.w.dropped == r.w.dropped && Whole(r'.w) && r.w.budget <= r'.w.budget
  {
    var m := Meeting(table, w, raw, site, w, site);
    FreshStart(raw, w, depth, site);
    FairAtRoot(raw, m, depth, levels);
    SubstitutedFrom(raw, depth, levels, m, r, r');
  }

  /** What a bound reference is replaced by is what the document holds at its pointer, with the references in that
      replaced. */
  lemma ReplacedByLocated(root: Json, table: map<string, Json>, members: map<string, Json>, site: Site, levels: nat, p: Option<string>,
                          scope: map<string, Json>)
    requires DefsOk(root, table) && Located(root, site.path, JObj(members)) && scope == Scope(table, members, site.path)
    requires Bound(table, JObj(members), site, levels + 1) && "$ref" in members && p == AsString(members["$ref"])
    ensures DefsOk(root, scope) && p.Some? && p.value in scope && Located(root, p.value, scope[p.value])
    ensures Replace(table, JObj(members), site, levels + 1) == Replace(scope, scope[p.value], Site(site.chain + [p.value], p.value), levels)
  {
    FiledLocated(root, site.path, members, "$defs");
    FiledLocated(root, site.path, members, "definitions");
    RefParts(table, scope, members, p, site, levels);
  }

  /** It nests at most so many levels and holds no reference where a schema is read. */
  ghost predicate RefFree(raw: Json, levels: nat)
    decreases levels, 0
  {
    levels > 0 && (raw.JObj? ==> "$ref" !in raw.members && forall k :: k in raw.members ==> MemberRefFree(k, raw.members[k], levels - 1))
  }

  ghost predicate MemberRefFree(k: string, v: Json, levels: nat)
    decreases levels, 2
  {
    && (k == "items" ==> RefFree(v, levels))
    && (k == "properties" && v.JObj? ==> PropsRefFree(v.members, levels))
    && (k in ["anyOf", "oneOf", "allOf"] && v.JArr? ==> ListRefFree(v.items, levels))
  }

  ghost predicate PropsRefFree(props: map<string, Json>, levels: nat)
    decreases levels, 1
  {
    forall name :: name in props ==> RefFree(props[name], levels)
  }

  ghost predicate ListRefFree(items: seq<Json>, levels: nat)
    decreases levels, 1
  {
    forall i :: 0 <= i < |items| ==> RefFree(items[i], levels)
  }

  lemma {:induction false} MoreLevels(raw: Json, levels: nat, more: nat)
    requires RefFree(raw, levels) && levels <= more
    ensures RefFree(raw, more)
    decreases levels, 0
  {
    if raw.JObj? {
      forall k | k in raw.members ensures MemberRefFree(k, raw.members[k], more - 1) {
        MoreBelow(k, raw.members[k], levels - 1, more - 1);
      }
    }
  }

  lemma {:induction false} MoreBelow(k: string, v: Json, levels: nat, more: nat)
    requires MemberRefFree(k, v, levels) && levels <= more
    ensures MemberRefFree(k, v, more)
    decreases levels, 1
  {
    if k == "items" {
      MoreLevels(v, levels, more);
    } else if k == "properties" && v.JObj? {
      forall name | name in v.members ensures RefFree(v.members[name], more) {
        MoreLevels(v.members[name], levels, more);
      }
    } else if k in ["anyOf", "oneOf", "allOf"] && v.JArr? {
      forall i | 0 <= i < |v.items| ensures RefFree(v.items[i], more) {
        MoreLevels(v.items[i], levels, more);
      }
    }
  }

  lemma ObjectIsFreed(scope: map<string, Json>, members: map<string, Json>, site: Site, levels: nat)
    requires "$ref" !in members
    requires forall k :: k in members ==> MemberRefFree(k, ReplaceMember(scope, k, members[k], At(site, k), levels), levels)
    ensures RefFree(JObj(ReplaceMembers(scope, members, site, levels)), levels + 1)
  {
    var members' := ReplaceMembers(scope, members, site, levels);
    assert forall k :: k in members' ==> MemberRefFree(k, members'[k], levels);
  }

  /** Replacing leaves no reference behind, */
  lemma {:induction false} ReplaceRemovesReferences(table: map<string, Json>, raw: Json, site: Site, levels: nat)
    requires Bound(table, raw, site, levels)
    ensures RefFree(Replace(table, raw, site, levels), levels)
    decreases levels, 2
  {
    if raw.JObj? {
      if "$ref" in raw.members {
        ReferenceIsFreed(table, Scope(table, raw.members, site.path), raw.members, AsString(raw.members["$ref"]), site, levels - 1);
      } else {
        MembersAreFreed(table, Scope(table, raw.members, site.path), raw.members, site, levels - 1);
      }
    }
  }

  lemma {:induction false} ReferenceIsFreed(table: map<string, Json>, scope: map<string, Json>, members: map<string, Json>, ref: Option<string>,
                                            site: Site, levels: nat)
    requires Bound(table, JObj(members), site, levels + 1) && scope == Scope(table, members, site.path)
    requires "$ref" in members && ref == AsString(members["$ref"])
    ensures RefFree(Replace(table, JObj(members), site, levels + 1), levels + 1)
    decreases levels + 1, 0
  {
    RefParts(table, scope, members, ref, site, levels);
    var next := Site(site.chain + [ref.value], ref.value);
    ReplaceRemovesReferences(scope, scope[ref.value], next, levels);
    MoreLevels(Replace(scope, scope[ref.value], next, levels), levels, levels + 1);
  }

  lemma {:induction false} MembersAreFreed(table: map<string, Json>, scope: map<string, Json>, members: map<string, Json>, site: Site, levels: nat)
    requires Bound(table, JObj(members), site, levels + 1) && scope == Scope(table, members, site.path) && "$ref" !in members
    ensures RefFree(Replace(table, JObj(members), site, levels + 1), levels + 1)
    decreases levels + 1, 0
  {
    RefFreeParts(table, scope, members, site, levels);
    forall k | k in members ensures MemberRefFree(k, ReplaceMember(scope, k, members[k], At(site, k), levels), levels) {
      MemberIsFreed(scope, k, members[k], At(site, k), levels);
    }
    ObjectIsFreed(scope, members, site, levels);
  }

  lemma {:induction false} MemberIsFreed(scope: map<string, Json>, k: string, v: Json, site: Site, levels: nat)
    requires MemberBound(scope, k, v, site, levels)
    ensures MemberRefFree(k, ReplaceMember(scope, k, v, site, levels), levels)
    decreases levels, 3
  {
    if k == "items" {
      ReplaceRemovesReferences(scope, v, site, levels);
    } else if k == "properties" && v.JObj? {
      forall name | name in v.members ensures RefFree(ReplaceProps(scope, v.members, site, levels)[name], levels) {
        ReplaceRemovesReferences(scope, v.members[name], At(site, name), levels);
      }
    } else if k in ["anyOf", "oneOf", "allOf"] && v.JArr? {
      forall i | 0 <= i < |v.items| ensures RefFree(ReplaceList(scope, v.items, site, levels)[i], levels) {
        ReplaceRemovesReferences(scope, v.items[i], At(site, Itoa(i)), levels);
      }
    }
  }

  lemma ObjectIsBound(table: map<string, Json>, scope: map<string, Json>, members: map<string, Json>, site: Site, levels: nat)
    requires "$ref" !in members && scope == Scope(table, members, site.path)
    requires forall k :: k in members ==> MemberBound(scope, k, members[k], At(site, k), levels)
    ensures Bound(table, JObj(members), site, levels + 1)
  {
  }

  lemma ObjectIsKept(table: map<string, Json>, scope: map<string, Json>, members: map<string, Json>, site: Site, levels: nat)
    requires "$ref" !in members && scope == Scope(table, members, site.path) && ReplaceMembers(scope, members, site, levels) == members
    ensures Replace(table, JObj(members), site, levels + 1) == JObj(members)
  {
  }

  /** and changes nothing but references. */
  lemma {:induction false} RefFreeIsKept(table: map<string, Json>, raw: Json, site: Site, levels: nat)
    requires RefFree(raw, levels)
    ensures Bound(table, raw, site, levels) && Replace(table, raw, site, levels) == raw
    decreases levels, 2
  {
    if raw.JObj? {
      ObjectStays(table, raw, raw.members, site, levels, levels - 1);
    } else {
      OtherIsKept(table, raw, site, levels);
    }
  }

  lemma {:induction false} ObjectStays(table: map<string, Json>, raw: Json, members: map<string, Json>, site: Site, levels: nat, less: nat)
    requires RefFree(raw, levels) && raw == JObj(members) && levels == less + 1
    ensures Bound(table, raw, site, levels) && Replace(table, raw, site, levels) == raw
    decreases levels, 1
  {
    RefFreeBelow(members, less);
    MembersAreKept(table, Scope(table, members, site.path), members, site, less);
  }

  lemma RefFreeBelow(members: map<string, Json>, levels: nat)
    requires RefFree(JObj(members), levels + 1)
    ensures "$ref" !in members && forall k :: k in members ==> MemberRefFree(k, members[k], levels)
  {
  }

  lemma OtherIsKept(table: map<string, Json>, raw: Json, site: Site, levels: nat)
    requires levels > 0 && !raw.JObj?
    ensures Bound(table, raw, site, levels) && Replace(table, raw, site, levels) == raw
  {
  }

  lemma {:induction false} MembersAreKept(table: map<string, Json>, scope: map<string, Json>, members: map<string, Json>, site: Site, levels: nat)
    requires "$ref" !in members && scope == Scope(table, members, site.path)
    requires forall k :: k in members ==> MemberRefFree(k, members[k], levels)
    ensures Bound(table, JObj(members), site, levels + 1) && Replace(table, JObj(members), site, levels + 1) == JObj(members)
    decreases levels + 1, 0
  {
    forall k | k in members
      ensures MemberBound(scope, k, members[k], At(site, k), levels) && ReplaceMember(scope, k, members[k], At(site, k), levels) == members[k]
    {
      MemberIsKept(scope, k, members[k], At(site, k), levels);
    }
    assert ReplaceMembers(scope, members, site, levels) == members;
    ObjectIsBound(table, scope, members, site, levels);
    ObjectIsKept(table, scope, members, site, levels);
  }

  lemma {:induction false} MemberIsKept(scope: map<string, Json>, k: string, v: Json, site: Site, levels: nat)
    requires MemberRefFree(k, v, levels)
    ensures MemberBound(scope, k, v, site, levels) && ReplaceMember(scope, k, v, site, levels) == v
    decreases levels, 3
  {
    if k == "items" {
      RefFreeIsKept(scope, v, site, levels);
    } else if k == "properties" && v.JObj? {
      forall name | name in v.members
        ensures Bound(scope, v.members[name], At(site, name), levels)
        ensures ReplaceProps(scope, v.members, site, levels)[name] == v.members[name]
      {
        RefFreeIsKept(scope, v.members[name], At(site, name), levels);
      }
      assert ReplaceProps(scope, v.members, site, levels) == v.members;
    } else if k in ["anyOf", "oneOf", "allOf"] && v.JArr? {
      forall i | 0 <= i < |v.items|
        ensures Bound(scope, v.items[i], At(site, Itoa(i)), levels)
        ensures ReplaceList(scope, v.items, site, levels)[i] == v.items[i]
      {
        RefFreeIsKept(scope, v.items[i], At(site, Itoa(i)), levels);
      }
      assert ReplaceList(scope, v.items, site, levels) == v.items;
    }
  }

  // ---- A reference and its definition ----

  lemma NothingFiled(base: string)
    ensures Filed(map[], base) == map[]
  {
  }

  lemma NothingDeclared(table: map<string, Json>, members: map<string, Json>, path: string)
    requires "$defs" !in members && "definitions" !in members
    ensures Scope(table, members, path) == table
  {
    NothingFiled(Child(path, "$defs"));
    NothingFiled(Child(path, "definitions"));
  }

  lemma FiledFound(table: map<string, Json>, filed: map<string, Json>, rest: map<string, Json>, p: string, d: Json)
    requires p in filed && filed[p] == d && rest == map[]
    ensures p in table + filed + rest && (table + filed + rest)[p] == d
  {
  }

  /** A definition declared at a node is in scope below it, under its own pointer. */
  lemma DefinitionIsInScope(table: map<string, Json>, members: map<string, Json>, defs: map<string, Json>, path: string, base: string,
                            name: string, p: string)
    requires Declared(members, "$defs") == defs && Declared(members, "definitions") == map[]
    requires name in defs && base == Child(path, "$defs") && p == Child(base, name)
    ensures p in Scope(table, members, path) && Scope(table, members, path)[p] == defs[name]
  {
    FiledAt(defs, base, name);
    NothingFiled(Child(path, "definitions"));
    FiledFound(table, Filed(defs, base), Filed(map[], Child(path, "definitions")), p, defs[name]);
  }

  /** A reference in scope whose definition holds none is bound, and the definition itself takes its place. */
  lemma DefinitionTakesItsPlace(scope: map<string, Json>, ref: map<string, Json>, p: string, d: Json, site: Site, levels: nat)
    requires "$ref" in ref && AsString(ref["$ref"]) == Some(p) && "$defs" !in ref && "definitions" !in ref
    requires p in scope && scope[p] == d && p !in site.chain && RefFree(d, levels)
    ensures Bound(scope, JObj(ref), site, levels + 1) && Replace(scope, JObj(ref), site, levels + 1) == d
  {
    NothingDeclared(scope, ref, site.path);
    RefFreeIsKept(scope, d, Site(site.chain + [p], p), levels);
  }
}
