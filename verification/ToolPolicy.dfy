/** Tool governance of a chat request (internal/gateway/tools.go: toolPolicy.permits, toolChoiceOf,
    narrowAllowedTools, governTools). JSON values are given by what the code reads from them. */
module ToolPolicy {
  import opened Basics
  import opened Glob

  datatype Policy = Policy(allow: seq<string>, deny: seq<string>)

  predicate Empty(p: Policy) { p.allow == [] && p.deny == [] }

  predicate MatchesAny(patterns: seq<string>, name: string) {
    exists i :: 0 <= i < |patterns| && Matches(patterns[i], name)
  }

  /** A name is offered unless some deny pattern fits it; a list of allow patterns, if there is one, has to fit it too. */
  predicate Permits(p: Policy, name: string) {
    !MatchesAny(p.deny, name) && (p.allow == [] || MatchesAny(p.allow, name))
  }

  method PermitsName(p: Policy, name: string) returns (b: bool)
    ensures b <==> Permits(p, name)
  {
    for i := 0 to |p.deny|
      invariant forall j :: 0 <= j < i ==> !Matches(p.deny[j], name)
    {
      var m := Match(p.deny[i], name);
      if m {
        return false;
      }
    }
    if |p.allow| == 0 {
      return true;
    }
    for i := 0 to |p.allow|
      invariant forall j :: 0 <= j < i ==> !Matches(p.allow[j], name)
    {
      var m := Match(p.allow[i], name);
      if m {
        return true;
      }
    }
    return false;
  }

  /** One entry of the tools array: the name it is matched by, and the rest of it. */
  datatype Tool = Tool(name: string, body: string)

  datatype Tools = NoTools | NotAnArray | Listed(list: seq<Tool>)

  /** tool_choice by what it asks for; anything unreadable is Auto. */
  datatype Choice =
    | Auto
    | NoneChoice
    | Required
    | Named(name: string)
    | AllowedTools(required: bool, entries: seq<Tool>)

  datatype Content = Content(tools: Tools, choice: Option<Choice>, parallel: Option<bool>)

  datatype Refusal = NamedNotAllowed | AllowedListEmptied | NoToolLeft | ToolsUnreadable

  datatype Verdict = Verdict(denied: seq<string>, narrowed: nat)

  datatype Outcome = Accepted(v: Verdict) | Refused(why: Refusal)

  // ----- what a request means

  function ToolList(c: Content): seq<Tool> {
    if c.tools.Listed? then c.tools.list else []
  }

  predicate HasName(ts: seq<Tool>, name: string) { exists i :: 0 <= i < |ts| && ts[i].name == name }

  /** The model may call a tool of this name. */
  predicate Callable(c: Content, name: string) {
    && HasName(ToolList(c), name)
    && match c.choice
       case None => true
       case Some(NoneChoice) => false
       case Some(Named(n)) => n == name
       case Some(AllowedTools(_, es)) => HasName(es, name)
       case Some(_) => true
  }

  /** What the request demands of the model: nothing, some call, or one particular call. */
  datatype Demand = MayCall | MustCall | MustCallNamed(name: string)

  function DemandOf(c: Content): Demand {
    match c.choice
    case Some(Required) => MustCall
    case Some(Named(n)) => MustCallNamed(n)
    case Some(AllowedTools(true, _)) => MustCall
    case _ => MayCall
  }

  // ----- governance

  function Keep(p: Policy, ts: seq<Tool>): seq<Tool> {
    if |ts| == 0 then []
    else
      var kept := Keep(p, ts[..|ts| - 1]);
      if Permits(p, ts[|ts| - 1].name) then kept + [ts[|ts| - 1]] else kept
  }

  function DeniedNames(p: Policy, ts: seq<Tool>): seq<string> {
    if |ts| == 0 then []
    else
      var denied := DeniedNames(p, ts[..|ts| - 1]);
      if Permits(p, ts[|ts| - 1].name) then denied else denied + [ts[|ts| - 1].name]
  }

  /** tool_choice after an allowed_tools list has lost what the policy does not permit. */
  function Narrow(p: Policy, choice: Option<Choice>): Option<Choice> {
    match choice
    case Some(AllowedTools(required, es)) =>
      if |Keep(p, es)| == |es| then choice
      else if |Keep(p, es)| == 0 then Some(NoneChoice)
      else Some(AllowedTools(required, Keep(p, es)))
    case _ => choice
  }

  /** Why a request is refused, if it is. */
  function RefusalOf(p: Policy, c: Content): Option<Refusal> {
    if Empty(p) then None
    else if c.choice.Some? && c.choice.value.Named? && !Permits(p, c.choice.value.name) then Some(NamedNotAllowed)
    else if c.choice.Some? && c.choice.value.AllowedTools? && c.choice.value.required
            && |Keep(p, c.choice.value.entries)| == 0 < |c.choice.value.entries| then Some(AllowedListEmptied)
    else if c.tools.NotAnArray? then Some(ToolsUnreadable)
    else if c.tools.Listed? && |DeniedNames(p, c.tools.list)| > 0 && |Keep(p, c.tools.list)| == 0 && !DemandOf(c).MayCall?
      then Some(NoToolLeft)
    else None
  }

  /** The request an accepted request becomes. */
  function Governed(p: Policy, c: Content): Content {
    if Empty(p) then c
    else match c.tools
      case Listed(list) =>
        if |DeniedNames(p, list)| > 0 && |Keep(p, list)| == 0 then Content(NoTools, None, None)
        else Content(Listed(Keep(p, list)), Narrow(p, c.choice), c.parallel)
      case _ =>
        var choice := Narrow(p, c.choice);
        c.(choice := if choice != c.choice && choice == Some(NoneChoice) then None else choice)
  }

  class ChatRequest {
    var tools: Tools
    var choice: Option<Choice>
    var parallel: Option<bool>

    function Value(): Content
      reads this
    {
      Content(tools, choice, parallel)
    }
  }

  /** The loop that splits a tools array. */
  method Strip(p: Policy, list: seq<Tool>) returns (kept: seq<Tool>, denied: seq<string>)
    ensures kept == Keep(p, list) && denied == DeniedNames(p, list)
  {
    kept, denied := [], [];
    for i := 0 to |list|
      invariant kept == Keep(p, list[..i]) && denied == DeniedNames(p, list[..i])
    {
      assert list[..i + 1][..i] == list[..i];
      var ok := PermitsName(p, list[i].name);
      if ok {
        kept := kept + [list[i]];
      } else {
        denied := denied + [list[i].name];
      }
    }
    assert list[..|list|] == list;
  }

  /** Applies the policy in place. A refused request stays as it came in. */
  method GovernTools(p: Policy, req: ChatRequest) returns (o: Outcome)
    modifies req
    ensures o.Refused? <==> RefusalOf(p, old(req.Value())).Some?
    ensures o.Refused? ==> o.why == RefusalOf(p, old(req.Value())).value && req.Value() == old(req.Value())
    ensures o.Accepted? ==> req.Value() == Governed(p, old(req.Value()))
    ensures o.Accepted? && !Empty(p) ==> o.v.denied == DeniedNames(p, ToolList(old(req.Value())))
  {
    if Empty(p) {
      return Accepted(Verdict([], 0));
    }
    var must := DemandOf(req.Value()) != MayCall;
    if req.choice.Some? && req.choice.value.Named? {
      var ok := PermitsName(p, req.choice.value.name);
      if !ok {
        return Refused(NamedNotAllowed);
      }
    }
    var choice, changed, narrowed := req.choice, false, 0;
    if req.choice.Some? && req.choice.value.AllowedTools? {
      var entries := req.choice.value.entries;
      var left, removed := Strip(p, entries);
      StripCounts(p, entries);
      narrowed := |removed|;
      if narrowed > 0 && |left| == 0 && req.choice.value.required {
        return Refused(AllowedListEmptied);
      }
      if narrowed > 0 {
        choice, changed := if |left| == 0 then Some(NoneChoice) else Some(AllowedTools(req.choice.value.required, left)), true;
      }
    }
    if req.tools.NoTools? {
      if changed {
        req.choice := if choice == Some(NoneChoice) then None else choice;
      }
      return Accepted(Verdict([], narrowed));
    }
    if req.tools.NotAnArray? {
      return Refused(ToolsUnreadable);
    }
    var kept, denied := Strip(p, req.tools.list);
    StripCounts(p, req.tools.list);
    if |denied| == 0 {
      if changed {
        req.choice := choice;
      }
      return Accepted(Verdict([], narrowed));
    }
    if |kept| == 0 {
      if must {
        return Refused(NoToolLeft);
      }
      req.tools, req.choice, req.parallel := NoTools, None, None;
      return Accepted(Verdict(denied, 0));
    }
    req.tools := Listed(kept);
    if changed {
      req.choice := choice;
    }
    return Accepted(Verdict(denied, narrowed));
  }

  // ----- properties

  lemma {:induction false} StripCounts(p: Policy, ts: seq<Tool>)
    ensures |Keep(p, ts)| + |DeniedNames(p, ts)| == |ts|
    ensures |DeniedNames(p, ts)| == 0 ==> Keep(p, ts) == ts
  {
    if |ts| > 0 {
      StripCounts(p, ts[..|ts| - 1]);
      assert ts == ts[..|ts| - 1] + [ts[|ts| - 1]];
    }
  }

  lemma {:induction false} KeepNames(p: Policy, ts: seq<Tool>, name: string)
    ensures HasName(Keep(p, ts), name) <==> HasName(ts, name) && Permits(p, name)
  {
    if |ts| > 0 {
      var before, last := ts[..|ts| - 1], ts[|ts| - 1];
      KeepNames(p, before, name);
      SnocNames(before, last, name);
      assert ts == before + [last];
      if Permits(p, last.name) {
        SnocNames(Keep(p, before), last, name);
      }
    }
  }

  lemma SnocNames(ts: seq<Tool>, t: Tool, name: string)
    ensures HasName(ts + [t], name) <==> HasName(ts, name) || t.name == name
  {
    if HasName(ts, name) {
      var i :| 0 <= i < |ts| && ts[i].name == name;
      assert (ts + [t])[i].name == name;
    } else if t.name == name {
      assert (ts + [t])[|ts|].name == name;
    }
  }

  lemma {:induction false} KeepTwice(p: Policy, ts: seq<Tool>)
    ensures Keep(p, Keep(p, ts)) == Keep(p, ts)
    ensures DeniedNames(p, Keep(p, ts)) == []
  {
    if |ts| > 0 {
      var before, last := ts[..|ts| - 1], ts[|ts| - 1];
      KeepTwice(p, before);
      if Permits(p, last.name) {
        assert (Keep(p, before) + [last])[..|Keep(p, before)|] == Keep(p, before);
      }
    }
  }

  lemma ListedIsIntersection(p: Policy, c: Content, name: string)
    requires RefusalOf(p, c).None? && c.choice.Some? && c.choice.value.AllowedTools?
    ensures Callable(Governed(p, c), name) <==> Callable(c, name) && Permits(p, name)
  {
    KeepNames(p, ToolList(c), name);
    StripCounts(p, ToolList(c));
    KeepNames(p, c.choice.value.entries, name);
    StripCounts(p, c.choice.value.entries);
  }

  /** The exact effect of governance on an accepted request: what the model may call is what it could
      call before and the policy permits, no more and no less. */
  lemma CallableIsIntersection(p: Policy, c: Content, name: string)
    requires RefusalOf(p, c).None?
    ensures Callable(Governed(p, c), name) <==> Callable(c, name) && Permits(p, name)
  {
    if c.choice.Some? && c.choice.value.AllowedTools? {
      ListedIsIntersection(p, c, name);
    } else {
      KeepNames(p, ToolList(c), name);
      StripCounts(p, ToolList(c));
    }
  }

  /** A demand that the model call a tool, or one particular tool, survives as it was. */
  lemma DemandIsKept(p: Policy, c: Content)
    requires RefusalOf(p, c).None?
    ensures DemandOf(Governed(p, c)) == DemandOf(c)
  {
    if c.choice.Some? && c.choice.value.AllowedTools? {
      StripCounts(p, c.choice.value.entries);
    }
  }

  /** A narrowed choice has lost all it will lose. */
  lemma NarrowTwice(p: Policy, choice: Option<Choice>)
    ensures var again := Narrow(p, choice);
      && Narrow(p, again) == again
      && (again.Some? && again.value.AllowedTools? ==> Keep(p, again.value.entries) == again.value.entries)
  {
    if choice.Some? && choice.value.AllowedTools? {
      KeepTwice(p, choice.value.entries);
      StripCounts(p, choice.value.entries);
    }
  }

  lemma GovernedChoice(p: Policy, c: Content, tools: Tools)
    requires RefusalOf(p, c).None? && !Empty(p) && !tools.NotAnArray? && (tools.Listed? ==> DeniedNames(p, tools.list) == [])
    ensures RefusalOf(p, Content(tools, Narrow(p, c.choice), c.parallel)).None?
  {
    NarrowTwice(p, c.choice);
  }

  lemma GovernedList(p: Policy, c: Content)
    requires RefusalOf(p, c).None? && !Empty(p) && c.tools.Listed?
    ensures RefusalOf(p, Governed(p, c)).None? && Governed(p, Governed(p, c)) == Governed(p, c)
  {
    var list := c.tools.list;
    KeepTwice(p, list);
    StripCounts(p, list);
    NarrowTwice(p, c.choice);
    if |DeniedNames(p, list)| == 0 || |Keep(p, list)| > 0 {
      assert Governed(p, c) == Content(Listed(Keep(p, list)), Narrow(p, c.choice), c.parallel);
      GovernedChoice(p, c, Listed(Keep(p, list)));
    }
  }

  /** Governing a governed request is accepted and changes nothing. */
  lemma GovernedTwice(p: Policy, c: Content)
    requires RefusalOf(p, c).None?
    ensures RefusalOf(p, Governed(p, c)).None? && Governed(p, Governed(p, c)) == Governed(p, c)
  {
    if !Empty(p) {
      if c.tools.Listed? {
        GovernedList(p, c);
      } else {
        NarrowTwice(p, c.choice);
      }
    }
  }

  /** A refusal is never for nothing: the request demands a call the policy leaves no tool for, names a
      tool it forbids, or carries tools that cannot be read. */
  lemma RefusedForAReason(p: Policy, c: Content)
    requires RefusalOf(p, c).Some?
    ensures c.tools.NotAnArray? || (!DemandOf(c).MayCall? && forall name :: Callable(c, name) ==> !Permits(p, name))
  {
    forall name | Callable(c, name) && !c.tools.NotAnArray? ensures !Permits(p, name) {
      KeepNames(p, ToolList(c), name);
      if c.choice.Some? && c.choice.value.AllowedTools? {
        KeepNames(p, c.choice.value.entries, name);
      }
    }
  }

  /** parallel_tool_calls stays as it came in, unless the policy leaves none of the tools there were. */
  lemma ParallelIsKept(p: Policy, c: Content)
    requires RefusalOf(p, c).None?
    ensures Governed(p, c).parallel ==
      if ToolList(c) != [] && forall i :: 0 <= i < |ToolList(c)| ==> !Permits(p, ToolList(c)[i].name) then None else c.parallel
  {
    StripCounts(p, ToolList(c));
    forall i | 0 <= i < |ToolList(c)| && Permits(p, ToolList(c)[i].name) ensures Keep(p, ToolList(c)) != [] {
      KeepNames(p, ToolList(c), ToolList(c)[i].name);
    }
    if Keep(p, ToolList(c)) != [] {
      var name := Keep(p, ToolList(c))[0].name;
      KeepNames(p, ToolList(c), name);
    }
  }
}
