/** Thinking, structured output and tool_choice of a Messages request (internal/provider/effort.go:
    clampEffort, effortPlan, budgetPlan, adaptivePlan, dropThinking; internal/provider/anthropic.go:
    forcedToolChoice, setupAnthropicThinking and the thinking and tool_choice parts of
    translateAnthropic; internal/provider/anthropic_format.go: planAnthropicFormat, applyToolChoice).
    Every capability record and every request is covered; message content and warnings are not modelled. */
module AnthropicPlan {
  import opened Basics

  // ----- effort levels

  /** The position of an effort among the known ones, -1 for an unknown one. */
  function Rank(v: string): int {
    if v == "none" then 0 else if v == "minimal" then 1 else if v == "low" then 2 else if v == "medium" then 3
    else if v == "high" then 4 else if v == "xhigh" then 5 else if v == "max" then 6 else -1
  }

  datatype Clamped = Clamped(level: string, lowered: bool)

  function Wanted(want: string): string { if want == "minimal" then "low" else want }

  /** The highest level below `rank` among the first ones, "" when there is none. */
  function BestBelow(levels: seq<string>, rank: int): string {
    if |levels| == 0 then ""
    else
      var best, l := BestBelow(levels[..|levels| - 1], rank), levels[|levels| - 1];
      if Rank(l) < rank && Rank(l) > Rank(best) then l else best
  }

  function Lowest(levels: seq<string>): string {
    if |levels| == 0 then ""
    else
      var low, l := Lowest(levels[..|levels| - 1]), levels[|levels| - 1];
      if low == "" || Rank(l) < Rank(low) then l else low
  }

  function Clamp(levels: seq<string>, want: string): Clamped {
    var w := Wanted(want);
    if w in levels then Clamped(w, false)
    else if BestBelow(levels, Rank(w)) != "" then Clamped(BestBelow(levels, Rank(w)), true)
    else Clamped(Lowest(levels), Lowest(levels) != w)
  }

  method ClampEffort(levels: seq<string>, want: string) returns (level: string, lowered: bool)
    ensures Clamped(level, lowered) == Clamp(levels, want)
  {
    var w := if want == "minimal" then "low" else want;
    var rank := Rank(w);
    var best, bestRank := "", -1;
    for i := 0 to |levels|
      invariant w !in levels[..i]
      invariant best == BestBelow(levels[..i], rank) && bestRank == Rank(best)
    {
      assert levels[..i + 1][..i] == levels[..i];
      assert levels[..i + 1] == levels[..i] + [levels[i]];
      var l := levels[i];
      var r := Rank(l);
      if l == w {
        return l, false;
      }
      if r < rank && r > bestRank {
        best, bestRank := l, r;
      }
    }
    assert levels[..|levels|] == levels;
    if best != "" {
      return best, true;
    }
    var lowest := "";
    for i := 0 to |levels|
      invariant lowest == Lowest(levels[..i])
    {
      assert levels[..i + 1][..i] == levels[..i];
      if lowest == "" || Rank(levels[i]) < Rank(lowest) {
        lowest := levels[i];
      }
    }
    assert levels[..|levels|] == levels;
    return lowest, lowest != w;
  }

  ghost predicate Known(levels: seq<string>) { forall l :: l in levels ==> Rank(l) >= 0 }

  lemma {:induction false} BestBelowMeaning(levels: seq<string>, rank: int)
    requires Known(levels)
    ensures var b := BestBelow(levels, rank);
      if b == "" then forall l :: l in levels ==> Rank(l) >= rank
      else b in levels && Rank(b) < rank && forall l :: l in levels && Rank(l) < rank ==> Rank(l) <= Rank(b)
  {
    if |levels| > 0 {
      var before, l := levels[..|levels| - 1], levels[|levels| - 1];
      assert levels == before + [l];
      assert forall x :: x in levels <==> x in before || x == l;
      BestBelowMeaning(before, rank);
    }
  }

  lemma {:induction false} LowestMeaning(levels: seq<string>)
    requires Known(levels) && |levels| > 0
    ensures Lowest(levels) in levels && forall l :: l in levels ==> Rank(Lowest(levels)) <= Rank(l)
  {
    var before, l := levels[..|levels| - 1], levels[|levels| - 1];
    assert levels == before + [l];
    assert forall x :: x in levels <==> x in before || x == l;
    if |before| > 0 {
      LowestMeaning(before);
    }
  }

  /** The chosen level is one the model takes: the wanted one if it has it, else the highest below it,
      else the lowest it has. */
  lemma ClampChoosesWell(levels: seq<string>, want: string)
    requires Known(levels) && |levels| > 0
    ensures var c := Clamp(levels, want);
      && c.level in levels
      && (c.level == Wanted(want) <==> Wanted(want) in levels) && (c.lowered <==> c.level != Wanted(want))
      && (forall l :: l in levels && Rank(l) < Rank(Wanted(want)) && Wanted(want) !in levels ==> Rank(l) <= Rank(c.level) < Rank(Wanted(want)))
      && (Rank(c.level) > Rank(Wanted(want)) ==> forall l :: l in levels ==> Rank(l) >= Rank(c.level))
  {
    BestBelowMeaning(levels, Rank(Wanted(want)));
    LowestMeaning(levels);
  }

  // ----- the request

  datatype ThinkingMode = NoThinking | BudgetThinking | AdaptiveThinking

  datatype ThinkingOff = OffUnknown | OffDisabled | OffBetweenTools | OffUnsupported

  datatype Caps = Caps(
    nativeSchema: bool,
    forcedTools: bool,
    thinking: ThinkingMode,
    thinkingOff: ThinkingOff,
    effortLevels: seq<string>)

  /** tool_choice as the translation reads it. */
  datatype AskedChoice = NoChoice | Word(s: string) | Function(name: string) | Unreadable

  /** response_format; a schema's root is an object schema or has to be wrapped. */
  datatype Format = NoFormat | JsonSchema(usable: bool, objectRoot: bool) | JsonObject | OtherFormat

  datatype ChatRequest = ChatRequest(
    effort: Option<string>,
    maxTokens: int,
    temperature: Option<real>,
    topP: Option<real>,
    hasTools: bool,
    tools: seq<string>,
    choice: AskedChoice,
    format: Format,
    bareToolTurn: bool)

  const DEFAULT_MAX_TOKENS := 4096
  const ADAPTIVE_MAX_TOKENS := 16000
  const MIN_BUDGET := 1024
  const MIN_TOP_P := 0.95

  datatype Thinking = ThinkOff | Disabled | BetweenTools | Adaptive | Enabled(budget: int)

  datatype Plan = Plan(thinking: Thinking, effort: string, maxTokens: int, dropTemperature: bool)

  function OrDefault(maxTokens: int): int { if maxTokens == 0 then DEFAULT_MAX_TOKENS else maxTokens }

  function Budget(effort: string): int {
    if effort == "minimal" then 1024 else if effort == "low" then 2048 else if effort == "medium" then 8192
    else if effort == "high" then 16384 else if effort == "xhigh" || effort == "max" then 32768 else 0
  }

  function DropThinking(p: Plan, maxTokens: int): Plan {
    p.(thinking := ThinkOff, dropTemperature := false, maxTokens := OrDefault(maxTokens))
  }

  function BudgetPlan(plan: Plan, caps: Caps, effort: string, maxTokens: int): Plan {
    if effort == "none" then plan
    else
      var plan := if |caps.effortLevels| > 0 then plan.(effort := Clamp(caps.effortLevels, effort).level) else plan;
      var wanted := Budget(effort);
      var plan := if maxTokens == 0 then plan.(maxTokens := wanted + DEFAULT_MAX_TOKENS) else plan;
      var budget := if maxTokens != 0 && maxTokens <= wanted then maxTokens - MIN_BUDGET else wanted;
      if budget < MIN_BUDGET then plan else plan.(thinking := Enabled(budget), dropTemperature := true)
  }

  function AdaptivePlan(plan: Plan, caps: Caps, effort: string, maxTokens: int): Plan {
    if effort == "none" && caps.thinkingOff.OffDisabled? then plan.(thinking := Disabled)
    else if effort == "none" && caps.thinkingOff.OffBetweenTools? then plan.(thinking := BetweenTools)
    else
      var effort := if effort == "none" then "low" else effort;
      var plan := plan.(thinking := Adaptive, dropTemperature := true);
      if |caps.effortLevels| == 0 then plan
      else
        var level := Clamp(caps.effortLevels, effort).level;
        plan.(effort := level, maxTokens := if maxTokens == 0 && Rank(level) >= Rank("high") then ADAPTIVE_MAX_TOKENS else plan.maxTokens)
  }

  datatype Result<T> = Ok(value: T) | Err

  function EffortPlan(caps: Caps, effort: Option<string>, maxTokens: int): Result<Plan> {
    var plan := Plan(ThinkOff, "", OrDefault(maxTokens), false);
    if effort.None? then Ok(plan)
    else if Rank(effort.value) < 0 then Err
    else match caps.thinking
      case BudgetThinking => Ok(BudgetPlan(plan, caps, effort.value, maxTokens))
      case AdaptiveThinking => Ok(AdaptivePlan(plan, caps, effort.value, maxTokens))
      case NoThinking => Ok(plan)
  }

  datatype FormatMode = Plain | Native | ByTool(wrapped: bool) | Instruction

  function FormatPlan(caps: Caps, format: Format): Result<FormatMode> {
    match format
    case JsonSchema(usable, objectRoot) =>
      if !usable then Err
      else if caps.nativeSchema || !caps.forcedTools then Ok(Native)
      else Ok(ByTool(!objectRoot))
    case JsonObject => if caps.forcedTools then Ok(ByTool(false)) else Ok(Instruction)
    case _ => Ok(Plain)
  }

  /** A tool_choice that makes the model call a tool, with tools to call. */
  predicate AsksForced(req: ChatRequest) {
    req.hasTools && (req.choice == Word("required") || (req.choice.Function? && req.choice.name != ""))
  }

  datatype Setup = Setup(plan: Plan, format: FormatMode, autoToolChoice: bool, dropTopP: bool)

  function SetUp(caps: Caps, req: ChatRequest): Result<Setup> {
    var plan := EffortPlan(caps, req.effort, req.maxTokens);
    if plan.Err? then Err else
    var format := FormatPlan(caps, req.format);
    if format.Err? then Err else
    var plan1 := if format.value.ByTool? && !plan.value.thinking.ThinkOff? && !plan.value.thinking.Disabled?
                 then DropThinking(plan.value, req.maxTokens) else plan.value;
    var plan2 := if plan1.thinking.Enabled? && (AsksForced(req) || req.bareToolTurn)
                 then DropThinking(plan1, req.maxTokens) else plan1;
    Ok(Setup(plan2, format.value, !caps.forcedTools && AsksForced(req),
             plan2.dropTemperature && req.topP.Some? && req.topP.value < MIN_TOP_P))
  }

  // ----- the translated request

  datatype SentChoice = NotSent | SentAuto | SentAny(oneAtATime: bool) | SentTool(name: string)

  datatype Sent = Sent(
    maxTokens: int,
    thinking: Thinking,
    effort: string,
    temperature: Option<real>,
    topP: Option<real>,
    tools: seq<string>,
    choice: SentChoice)

  const RESPONSE_TOOL := "ragmux_response"

  /** tool_choice "none" sends no tools at all. */
  function SentTools(req: ChatRequest): seq<string> {
    if !req.hasTools || req.choice == Word("none") then [] else req.tools
  }

  function ClientChoice(req: ChatRequest, auto: bool): SentChoice {
    if !req.hasTools then NotSent
    else match req.choice
      case Word(s) => if s == "auto" then SentAuto
                      else if s == "required" then (if auto then SentAuto else SentAny(false))
                      else NotSent
      case Function(name) => if name == "" then NotSent else if auto then SentAuto else SentTool(name)
      case _ => NotSent
  }

  /** The tools and the choice of a request whose answer is carried by a tool. The answer tool comes last and some
      tool has to be called: the answer tool when it is alone, a tool the client named, otherwise one at a time. */
  function WithAnswerTool(tools: seq<string>, choice: SentChoice): (r: (seq<string>, SentChoice))
    ensures |r.0| == |tools| + 1 && tools < r.0 && r.0[|tools|] == RESPONSE_TOOL && IsForced(r.1)
    ensures r.1.SentAny? ==> r.1.oneAtATime
    ensures r.1.SentTool? ==> r.1 == if tools == [] then SentTool(RESPONSE_TOOL) else choice
    ensures tools != [] && choice.SentTool? ==> r.1 == choice
  {
    (tools + [RESPONSE_TOOL],
     if tools == [] then SentTool(RESPONSE_TOOL) else if choice.SentTool? then choice else SentAny(true))
  }

  predicate IsForced(c: SentChoice) { c.SentAny? || c.SentTool? }

  function Translate(caps: Caps, req: ChatRequest): Result<Sent> {
    var su := SetUp(caps, req);
    if su.Err? then Err else
    var tools := SentTools(req);
    var choice := ClientChoice(req, su.value.autoToolChoice);
    var byTool := su.value.format.ByTool?;
    if byTool && RESPONSE_TOOL in tools then Err else
    var (sentTools, sentChoice) := if byTool then WithAnswerTool(tools, choice) else (tools, choice);
    Ok(Sent(su.value.plan.maxTokens, su.value.plan.thinking, su.value.plan.effort,
            if su.value.plan.dropTemperature then None else req.temperature,
            if su.value.dropTopP then None else req.topP,
            sentTools, sentChoice))
  }

  /** The edits applyToolChoice makes in place. */
  class Outgoing {
    var tools: seq<string>
    var choice: SentChoice

    method ApplyToolChoice()
      modifies this
      ensures (tools, choice) == WithAnswerTool(old(tools), old(choice))
    {
      var named := choice.SentTool?;
      if |tools| == 0 {
        choice := SentTool(RESPONSE_TOOL);
      } else if !named {
        choice := SentAny(true);
      }
      tools := tools + [RESPONSE_TOOL];
    }
  }

  // ----- what the upstream accepts

  /** The rules of the Messages API that a request of this gateway must not break. */
  ghost predicate Accepted(caps: Caps, out: Sent) {
    && (IsForced(out.choice) ==> caps.forcedTools)
    && (out.thinking.Enabled? ==> !IsForced(out.choice) && MIN_BUDGET <= out.thinking.budget < out.maxTokens)
    && (out.thinking.Enabled? || out.thinking.Adaptive? ==>
          out.temperature.None? && (out.topP.None? || out.topP.value >= MIN_TOP_P))
    && (out.thinking.Enabled? ==> caps.thinking.BudgetThinking?)
    && (out.thinking.Adaptive? ==> caps.thinking.AdaptiveThinking?)
  }

  lemma BudgetLeavesRoom(plan: Plan, caps: Caps, effort: string, maxTokens: int)
    requires plan.thinking.ThinkOff? && plan.maxTokens == OrDefault(maxTokens)
    ensures var p := BudgetPlan(plan, caps, effort, maxTokens);
      && (p.thinking.Enabled? ==> MIN_BUDGET <= p.thinking.budget < p.maxTokens && p.dropTemperature)
      && (p.thinking.Enabled? || p.thinking.ThinkOff?)
  {
  }

  /** For every capability record and every request, what is sent obeys the rules. */
  lemma NothingForbiddenIsSent(caps: Caps, req: ChatRequest)
    requires Translate(caps, req).Ok?
    ensures Accepted(caps, Translate(caps, req).value)
  {
    if req.effort.Some? {
      BudgetLeavesRoom(Plan(ThinkOff, "", OrDefault(req.maxTokens), false), caps, req.effort.value, req.maxTokens);
    }
  }

  /** And nothing else is taken away: the sampling settings go only beside thinking, and without an answer tool the
      model is forced exactly when the client asked for it and the model takes it. */
  lemma NothingElseIsDropped(caps: Caps, req: ChatRequest)
    requires Translate(caps, req).Ok?
    ensures var out := Translate(caps, req).value;
      var thinks := out.thinking.Enabled? || out.thinking.Adaptive?;
      && out.temperature == (if thinks then None else req.temperature)
      && out.topP == (if thinks && req.topP.Some? && req.topP.value < MIN_TOP_P then None else req.topP)
      && (!FormatPlan(caps, req.format).value.ByTool? ==>
            out.tools == SentTools(req) && (IsForced(out.choice) <==> AsksForced(req) && caps.forcedTools))
  {
  }

  /** A structured answer carried by the tool is enforced: the tool is there, once, and the model has to
      call a tool; a tool the client named stays the forced one, otherwise calls come one at a time. */
  lemma AnswerToolIsForced(caps: Caps, req: ChatRequest)
    requires Translate(caps, req).Ok? && FormatPlan(caps, req.format).value.ByTool?
    ensures var out := Translate(caps, req).value;
      && IsForced(out.choice) && |out.tools| > 0 && out.tools[|out.tools| - 1] == RESPONSE_TOOL
      && RESPONSE_TOOL !in out.tools[..|out.tools| - 1]
      && (AsksForced(req) && req.choice.Function? ==> out.choice == SentTool(req.choice.name) || out.tools == [RESPONSE_TOOL])
      && !out.thinking.Enabled? && !out.thinking.Adaptive? && !out.thinking.BetweenTools?
  {
    var tools := SentTools(req);
    assert (tools + [RESPONSE_TOOL])[..|tools|] == tools;
  }

  /** Dropping thinking gives the request back what it would have had without it. */
  lemma DroppedIsAsWithout(caps: Caps, req: ChatRequest)
    requires SetUp(caps, req).Ok? && SetUp(caps, req).value.plan.thinking.ThinkOff?
    requires EffortPlan(caps, req.effort, req.maxTokens).value.thinking != ThinkOff
    ensures Translate(caps, req).Ok? ==>
      var out := Translate(caps, req).value;
      out.temperature == req.temperature && out.topP == req.topP && out.maxTokens == OrDefault(req.maxTokens)
  {
  }

  // ----- thinking is sent when it is asked for

  /** The token budgets of the efforts. */
  const BUDGETS := map["minimal" := 1024, "low" := 2048, "medium" := 8192, "high" := 16384, "xhigh" := 32768, "max" := 32768]

  /** max_tokens leaves room for an answer beside some thinking. */
  predicate LeavesRoom(maxTokens: int, wanted: int) {
    maxTokens == 0 || maxTokens > wanted || maxTokens >= 2 * MIN_BUDGET
  }

  /** With budgets, thinking is enabled exactly when max_tokens leaves room for it, on the effort's own budget or on what
      an answer of 1024 tokens leaves; without max_tokens the answer has 4096 beside the budget. */
  lemma BudgetIsAsAsked(plan: Plan, caps: Caps, effort: string, maxTokens: int)
    requires effort in BUDGETS && plan.thinking.ThinkOff? && plan.maxTokens == OrDefault(maxTokens)
    ensures var p, wanted := BudgetPlan(plan, caps, effort, maxTokens), BUDGETS[effort];
      && p.thinking == (if !LeavesRoom(maxTokens, wanted) then ThinkOff
                        else if maxTokens == 0 || maxTokens > wanted then Enabled(wanted) else Enabled(maxTokens - 1024))
      && p.maxTokens == (if maxTokens == 0 then wanted + 4096 else maxTokens)
      && p.effort == (if caps.effortLevels == [] then plan.effort else Clamp(caps.effortLevels, effort).level)
  {
  }

  /** The answer is carried by a tool: the model can be forced, and either a schema it does not take natively or any
      JSON object was asked for. */
  predicate AnswersByTool(caps: Caps, format: Format) {
    caps.forcedTools && (format.JsonObject? || (format.JsonSchema? && !caps.nativeSchema))
  }

  /** Whether a model that thinks on a budget is made to, for every request that is sent at all. */
  lemma BudgetThinkingIsSent(caps: Caps, req: ChatRequest, effort: string)
    requires Translate(caps, req).Ok? && caps.thinking.BudgetThinking? && req.effort == Some(effort)
    ensures var out := Translate(caps, req).value;
      && (out.thinking.Enabled? <==>
            && effort != "none" && LeavesRoom(req.maxTokens, BUDGETS[effort])
            && !AnswersByTool(caps, req.format) && !AsksForced(req) && !req.bareToolTurn)
      && (out.thinking.Enabled? ==>
            && out.thinking.budget == (if req.maxTokens == 0 || req.maxTokens > BUDGETS[effort] then BUDGETS[effort] else req.maxTokens - 1024)
            && out.maxTokens == (if req.maxTokens == 0 then BUDGETS[effort] + 4096 else req.maxTokens))
      && (!out.thinking.Enabled? ==> out.thinking.ThinkOff?)
      && out.effort == (if effort == "none" || caps.effortLevels == [] then "" else Clamp(caps.effortLevels, effort).level)
  {
    if effort != "none" {
      BudgetIsAsAsked(Plan(ThinkOff, "", OrDefault(req.maxTokens), false), caps, effort, req.maxTokens);
    }
  }

  /** Whether a model that adapts its thinking does: always when an effort was asked for, and for none as far as the model
      can turn it off. Only an answer carried by a tool takes it out again. */
  lemma AdaptiveThinkingIsSent(caps: Caps, req: ChatRequest, effort: string)
    requires Translate(caps, req).Ok? && caps.thinking.AdaptiveThinking? && req.effort == Some(effort)
    ensures var out := Translate(caps, req).value;
      var off := effort == "none" && (caps.thinkingOff.OffDisabled? || caps.thinkingOff.OffBetweenTools?);
      && (out.thinking.Adaptive? <==> !off && !AnswersByTool(caps, req.format))
      && (out.thinking.Disabled? <==> effort == "none" && caps.thinkingOff.OffDisabled?)
      && (out.thinking.BetweenTools? <==> effort == "none" && caps.thinkingOff.OffBetweenTools? && !AnswersByTool(caps, req.format))
      && out.effort == (if off || caps.effortLevels == [] then ""
                        else Clamp(caps.effortLevels, if effort == "none" then "low" else effort).level)
      && out.maxTokens == (if req.maxTokens != 0 then req.maxTokens
                           else if out.thinking.Adaptive? && Rank(out.effort) >= Rank("high") then 16000 else 4096)
  {
  }

  /** Without an effort, or for a model that does not think, no thinking is sent and max_tokens is the client's own. */
  lemma NoThinkingIsSent(caps: Caps, req: ChatRequest)
    requires Translate(caps, req).Ok? && (req.effort.None? || caps.thinking.NoThinking?)
    ensures var out := Translate(caps, req).value;
      out.thinking.ThinkOff? && out.effort == "" && out.maxTokens == (if req.maxTokens == 0 then 4096 else req.maxTokens)
  {
  }
}
