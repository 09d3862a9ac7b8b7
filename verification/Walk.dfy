/** The walk of a call over its targets (internal/gateway/pipeline.go: invoke): retry on the same
    target, fall back to the next, skip what a breaker refuses, and answer exactly once.

    Everything the walk asks its surroundings - the breakers, the attempts, the client's context, the
    time budget, the sleep - is answered by a world it is given, so the results hold in every world. */
module Walk {
  import opened Basics
  import opened Retry
  import Breaker

  /** The result of one attempt. `wrote` says that something reached the client. */
  datatype Attempt = Attempt(err: Option<AttemptError>, wrote: bool, status: int)

  /** The contract every endpoint's attempt keeps: an error means the client saw nothing. */
  predicate KeepsContract(r: Attempt) {
    r.err.Some? ==> !r.wrote
  }

  /** `gone` says that the client's context had ended when the attempt returned. */
  datatype Try = Try(target: nat, probe: nat, forced: bool, r: Attempt, gone: bool)

  /** What happens around one try: its result; whether the client's context had ended when it returned; what keeps
      the target from another try (the client left or the time is up, its breaker has opened, the wait does not fit
      the time left, the wait was interrupted); and whether the client left or the time is up once it is given up. */
  datatype Happening = Happening(r: Attempt, gone: bool, stop: bool, tripped: bool, tooLong: bool, interrupted: bool, over: bool)

  /** The answers a walk will get: the breakers' by target, and what happens around its tries, in turn. Whatever is
      not foretold goes well. */
  datatype World = World(answers: seq<Breaker.Answer>, happenings: seq<Happening>)

  function AnswerOf(world: World, i: nat): Breaker.Answer {
    if i < |world.answers| then world.answers[i] else Breaker.Answer(true, 0)
  }

  function Around(world: World, k: nat): Happening {
    if k < |world.happenings| then world.happenings[k]
    else Happening(Attempt(None, true, 200), false, false, false, false, false, false)
  }

  /** Attempts keep their contract, and only a call let through is a probe. */
  ghost predicate Lawful(world: World) {
    && (forall k: nat :: KeepsContract(Around(world, k).r))
    && (forall i: nat :: AnswerOf(world, i).probe > 0 ==> AnswerOf(world, i).ok)
  }

  datatype Report = Report(target: nat, probe: nat, outcome: Breaker.Outcome)

  datatype Final = NoTarget | Answered | Failed(err: AttemptError)

  function TryLimit(maxRetries: int): nat {
    if maxRetries > 0 then maxRetries + 1 else 1
  }

  /** Failures the walk goes on from. */
  predicate GoesOn(t: Try) {
    t.r.err.Some? && Classify(t.r.err.value).fallback
  }

  /** Upstream calls: a target whose provider could not even be built is not one. */
  predicate IsCall(t: Try) {
    !(t.r.err.Some? && t.r.err.value.TargetConfig?)
  }

  function Calls(tries: seq<Try>): nat {
    if |tries| == 0 then 0 else Calls(tries[..|tries| - 1]) + (if IsCall(tries[|tries| - 1]) then 1 else 0)
  }

  /** How many different targets were tried; a target's tries are consecutive. */
  function Targets(tries: seq<Try>): nat {
    if |tries| == 0 then 0
    else Targets(tries[..|tries| - 1])
         + (if |tries| == 1 || tries[|tries| - 2].target != tries[|tries| - 1].target then 1 else 0)
  }

  lemma PushTry(tries: seq<Try>, t: Try)
    ensures Calls(tries + [t]) == Calls(tries) + (if IsCall(t) then 1 else 0)
    ensures Targets(tries + [t]) ==
      Targets(tries) + (if |tries| == 0 || tries[|tries| - 1].target != t.target then 1 else 0)
  {
    assert (tries + [t])[..|tries|] == tries;
  }

  /** The tries of one target: none but the last ends anything, all but the last were transient. */
  ghost predicate OneTarget(tries: seq<Try>, from: nat, target: nat, probe: nat, forced: bool)
    requires from <= |tries|
  {
    forall k :: from <= k < |tries| ==>
      && tries[k].target == target && tries[k].probe == probe && tries[k].forced == forced
      && KeepsContract(tries[k].r)
      && (k < |tries| - 1 ==> tries[k].r.err.Some? && Transient(tries[k].r.err.value))
  }

  /** What the walk has done so far. `asked[i]` is the breaker's answer for target i. */
  datatype Log = Log(asked: seq<Breaker.Answer>, tries: seq<Try>, reports: seq<Report>, fallbacks: seq<Reason>)

  /** Every attempt is reported once, in order, with its target, its probe and what it means to the breaker. */
  ghost predicate AllReported(tries: seq<Try>, reports: seq<Report>) {
    && |reports| == |tries|
    && forall k :: 0 <= k < |tries| ==>
         reports[k] == Report(tries[k].target, tries[k].probe, OutcomeOf(tries[k].gone, tries[k].r.err, tries[k].r.status))
  }

  lemma PushOneTarget(tries: seq<Try>, from: nat, target: nat, probe: nat, forced: bool, t: Try)
    requires from <= |tries| && OneTarget(tries, from, target, probe, forced)
    requires |tries| > from ==> Last(tries).r.err.Some? && Transient(Last(tries).r.err.value)
    requires t.target == target && t.probe == probe && t.forced == forced && KeepsContract(t.r)
    ensures OneTarget(tries + [t], from, target, probe, forced)
  {
  }

  lemma PushReport(tries: seq<Try>, reports: seq<Report>, t: Try)
    requires AllReported(tries, reports)
    ensures AllReported(tries + [t], reports + [Report(t.target, t.probe, OutcomeOf(t.gone, t.r.err, t.r.status))])
  {
  }

  /** How many tries the last target has had. */
  function Streak(tries: seq<Try>): nat {
    if |tries| == 0 then 0
    else if |tries| == 1 || tries[|tries| - 2].target != tries[|tries| - 1].target then 1
    else 1 + Streak(tries[..|tries| - 1])
  }

  predicate Unhindered(world: World, k: nat) {
    var h := Around(world, k);
    !h.stop && !h.tripped && !h.tooLong && !h.interrupted
  }

  /** The last try calls for another of the same target: it failed in passing, nobody forced it, retries are left and
      nothing stands in the way. */
  ghost predicate CallsForAnother(world: World, tries: seq<Try>, maxRetries: int)
    requires |tries| > 0
  {
    var t := tries[|tries| - 1];
    t.r.err.Some? && Transient(t.r.err.value) && !t.forced && Streak(tries) <= maxRetries && Unhindered(world, |tries| - 1)
  }

  /** The world's results, each on its try. */
  ghost predicate Records(world: World, tries: seq<Try>) {
    forall k :: 0 <= k < |tries| ==> tries[k].r == Around(world, k).r && tries[k].gone == Around(world, k).gone
  }

  ghost predicate Repeats(world: World, tries: seq<Try>, k: nat, maxRetries: int)
    requires k < |tries|
  {
    k + 1 < |tries| && tries[k + 1].target == tries[k].target <==> CallsForAnother(world, tries[..k + 1], maxRetries)
  }

  /** A target is tried again exactly where its last try calls for it. */
  ghost predicate Persistent(world: World, tries: seq<Try>, maxRetries: int) {
    forall k :: 0 <= k < |tries| ==> Repeats(world, tries, k, maxRetries)
  }

  /** The same, but for the last try. */
  ghost predicate SoFar(world: World, tries: seq<Try>, maxRetries: int) {
    forall k :: 0 <= k < |tries| - 1 ==> Repeats(world, tries, k, maxRetries)
  }

  lemma SameRepeat(world: World, tries: seq<Try>, t: Try, k: nat, maxRetries: int)
    requires k + 1 < |tries|
    ensures Repeats(world, tries + [t], k, maxRetries) <==> Repeats(world, tries, k, maxRetries)
  {
    assert (tries + [t])[..k + 1] == tries[..k + 1];
  }

  lemma PushRepeat(world: World, tries: seq<Try>, t: Try, maxRetries: int)
    requires SoFar(world, tries, maxRetries)
    requires tries == [] || (tries[|tries| - 1].target == t.target <==> CallsForAnother(world, tries, maxRetries))
    ensures SoFar(world, tries + [t], maxRetries)
  {
    forall k | 0 <= k < |tries| ensures Repeats(world, tries + [t], k, maxRetries) {
      if k < |tries| - 1 {
        SameRepeat(world, tries, t, k, maxRetries);
      } else {
        assert (tries + [t])[..|tries|] == tries;
      }
    }
  }

  lemma PushStreak(tries: seq<Try>, t: Try)
    ensures Streak(tries + [t]) == if tries != [] && tries[|tries| - 1].target == t.target then Streak(tries) + 1 else 1
  {
    assert (tries + [t])[..|tries|] == tries;
  }

  lemma LastRepeat(world: World, tries: seq<Try>, maxRetries: int)
    requires SoFar(world, tries, maxRetries) && (tries != [] ==> !CallsForAnother(world, tries, maxRetries))
    ensures Persistent(world, tries, maxRetries)
  {
    assert tries[..|tries|] == tries;
  }

  lemma NoMore(world: World, tries: seq<Try>, maxRetries: int)
    requires Persistent(world, tries, maxRetries) && tries != []
    ensures SoFar(world, tries, maxRetries) && !CallsForAnother(world, tries, maxRetries)
  {
    assert Repeats(world, tries, |tries| - 1, maxRetries);
    assert tries[..|tries|] == tries;
  }

  /** Mentioned where a log is to be looked into. */
  ghost predicate Look(log: Log) {
    true
  }

  /** How the inner loop stands: its target has been tried as long as the last try called for it, and `again` says
      whether it does so now. */
  ghost predicate Trying(world: World, before: seq<Try>, tries: seq<Try>, target: nat, probe: nat, forced: bool, maxRetries: int, again: bool)
  {
    && before <= tries && OneTarget(tries, |before|, target, probe, forced)
    && Records(world, tries) && SoFar(world, tries, maxRetries)
    && (tries == before ==> again && (before != [] ==> !CallsForAnother(world, before, maxRetries) && Last(before).target != target))
    && (tries != before ==>
          && Streak(tries) == |tries| - |before| && Last(tries).target == target
          && (CallsForAnother(world, tries, maxRetries) <==> again))
  }

  /** The same, looked into only on demand. */
  ghost predicate OnIt(world: World, before: seq<Try>, tries: seq<Try>, target: nat, probe: nat, forced: bool, maxRetries: int, again: bool)
  {
    forall l: Log {:trigger Look(l)} :: l.tries == tries ==> Trying(world, before, l.tries, target, probe, forced, maxRetries, again)
  }

  lemma FirstTry(world: World, before: seq<Try>, target: nat, probe: nat, forced: bool, maxRetries: int)
    requires Records(world, before) && Persistent(world, before, maxRetries) && (before != [] ==> Last(before).target != target)
    ensures OnIt(world, before, before, target, probe, forced, maxRetries, true)
  {
    if before != [] {
      NoMore(world, before, maxRetries);
    }
    assert Trying(world, before, before, target, probe, forced, maxRetries, true);
  }

  lemma AnotherTry(world: World, before: seq<Try>, tries: seq<Try>, target: nat, probe: nat, forced: bool, maxRetries: int, t: Try,
                   retries: nat, another: bool)
    requires Lawful(world) && OnIt(world, before, tries, target, probe, forced, maxRetries, true) && |tries| == |before| + retries
    requires t == Try(target, probe, forced, Around(world, |tries|).r, Around(world, |tries|).gone)
    requires another <==> (t.r.err.Some? && Transient(t.r.err.value) && retries < maxRetries && !forced && Unhindered(world, |tries|))
    ensures OnIt(world, before, tries + [t], target, probe, forced, maxRetries, another)
  {
    assert Look(Log([], tries, [], []));
    PushRepeat(world, tries, t, maxRetries);
    PushStreak(tries, t);
    PushOneTarget(tries, |before|, target, probe, forced, t);
    assert Trying(world, before, tries + [t], target, probe, forced, maxRetries, another);
  }

  lemma LastTry(world: World, before: seq<Try>, tries: seq<Try>, target: nat, probe: nat, forced: bool, maxRetries: int)
    requires OnIt(world, before, tries, target, probe, forced, maxRetries, false)
    ensures before <= tries && OneTarget(tries, |before|, target, probe, forced)
    ensures Records(world, tries) && Persistent(world, tries, maxRetries)
  {
    assert Look(Log([], tries, [], []));
    LastRepeat(world, tries, maxRetries);
  }

  lemma BeforeIsKept(world: World, before: seq<Try>, tries: seq<Try>, target: nat, probe: nat, forced: bool, maxRetries: int, again: bool)
    requires OnIt(world, before, tries, target, probe, forced, maxRetries, again)
    ensures before <= tries && (tries != before ==> Last(tries).target == target)
    ensures tries == before && before != [] ==> Last(before).target != target
  {
    assert Look(Log([], tries, [], []));
  }

  /** The inner loop: one target, tried until it settles, fails for good or runs out of retries. */
  method TryTarget(world: World, before: seq<Try>, reported: seq<Report>, calls: nat, target: nat, probe: nat, forced: bool, maxRetries: int)
    returns (tries: seq<Try>, reports: seq<Report>, attempts: nat)
    requires Lawful(world) && AllReported(before, reported) && calls == Calls(before)
    requires Records(world, before) && Persistent(world, before, maxRetries)
    requires before != [] ==> before[|before| - 1].target != target
    ensures before <= tries && 1 <= |tries| - |before| <= TryLimit(maxRetries)
    ensures forced ==> |tries| == |before| + 1
    ensures OneTarget(tries, |before|, target, probe, forced)
    ensures Records(world, tries) && Persistent(world, tries, maxRetries)
    ensures AllReported(tries, reports) && attempts == Calls(tries)
    ensures Targets(tries) == Targets(before) + 1
  {
    tries, reports, attempts := before, reported, calls;
    var retries, again := 0, true;
    FirstTry(world, before, target, probe, forced, maxRetries);
    while again
      invariant |tries| == |before| + retries + (if again then 0 else 1)
      invariant retries == 0 || (retries <= maxRetries && !forced)
      invariant OnIt(world, before, tries, target, probe, forced, maxRetries, again)
      invariant AllReported(tries, reports) && attempts == Calls(tries)
      invariant Targets(tries) == Targets(before) + if |tries| == |before| then 0 else 1
      decreases again, maxRetries - retries
    {
      attempts := attempts + 1;
      var k := |tries|;
      var r := Around(world, k).r;
      var t := Try(target, probe, forced, r, Around(world, k).gone);
      BeforeIsKept(world, before, tries, target, probe, forced, maxRetries, true);
      PushTry(tries, t);
      PushReport(tries, reports, t);
      reports := reports + [Report(target, probe, OutcomeOf(Around(world, k).gone, r.err, r.status))];
      var another := false;
      if r.err.Some? {
        if r.err.value.TargetConfig? {
          attempts := attempts - 1;
        }
        another := TryAgain(world, k, r.err.value, retries, maxRetries, forced);
      }
      AnotherTry(world, before, tries, target, probe, forced, maxRetries, t, retries, another);
      tries := tries + [t];
      again := another;
      if again {
        retries := retries + 1;
      }
    }
    LastTry(world, before, tries, target, probe, forced, maxRetries);
  }

  /** Whether a failed target gets another try. */
  method TryAgain(world: World, k: nat, err: AttemptError, retries: nat, maxRetries: int, forced: bool) returns (again: bool)
    ensures again <==> (Transient(err) && retries < maxRetries && !forced && Unhindered(world, k))
  {
    ClassTable(err);
    if Around(world, k).stop || !Classify(err).retry || retries >= maxRetries || forced || Around(world, k).tripped {
      return false;
    }
    return !Around(world, k).tooLong && !Around(world, k).interrupted;
  }

  // ----- what a walk over n targets promises

  /** Targets are tried in their order. */
  ghost predicate InOrder(n: nat, tries: seq<Try>) {
    && (forall k :: 0 <= k < |tries| ==> tries[k].target < n)
    && (forall j, k :: 0 <= j <= k < |tries| ==> tries[j].target <= tries[k].target)
  }

  ghost predicate Tried(tries: seq<Try>, i: nat) {
    exists k :: 0 <= k < |tries| && tries[k].target == i
  }

  /** Targets are tried exactly where the breakers let them through. */
  ghost predicate FollowsAnswers(asked: seq<Breaker.Answer>, tries: seq<Try>) {
    && (forall k :: 0 <= k < |tries| ==>
          tries[k].target < |asked| && asked[tries[k].target].ok && tries[k].probe == asked[tries[k].target].probe)
    && (forall i :: 0 <= i < |asked| && asked[i].ok ==> Tried(tries, i))
    && (forall i :: 0 <= i < |asked| && asked[i].probe > 0 ==> asked[i].ok)
  }

  /** Everything but the last try failed in a way the walk may go on from, and wrote nothing. */
  ghost predicate LastDecides(tries: seq<Try>) {
    && (forall k :: 0 <= k < |tries| ==> KeepsContract(tries[k].r))
    && (forall k :: 0 <= k < |tries| - 1 ==> GoesOn(tries[k]) && !tries[k].r.wrote)
  }

  /** A fallback is counted for every target tried after the first, with a reason. */
  ghost predicate CountsFallbacks(tries: seq<Try>, fallbacks: seq<Reason>) {
    |fallbacks| == (if |tries| == 0 then 0 else Targets(tries) - 1) && NoReason !in fallbacks
  }

  /** A walk that some breaker let through, after the first `i` targets. */
  ghost predicate Normal(i: nat, log: Log) {
    && |log.asked| == i
    && InOrder(i, log.tries) && FollowsAnswers(log.asked, log.tries) && LastDecides(log.tries)
    && (forall k :: 0 <= k < |log.tries| ==> !log.tries[k].forced)
    && AllReported(log.tries, log.reports)
    && CountsFallbacks(log.tries, log.fallbacks)
  }

  /** A walk every breaker refused: the primary goes exactly once, as no probe. */
  ghost predicate Forced(n: nat, log: Log) {
    && |log.asked| == n && (forall i :: 0 <= i < n ==> !log.asked[i].ok && log.asked[i].probe == 0)
    && |log.tries| == 1 && log.tries[0].target == 0 && log.tries[0].forced && log.tries[0].probe == 0
    && KeepsContract(log.tries[0].r)
    && AllReported(log.tries, log.reports)
    && log.fallbacks == []
  }

  function Last(tries: seq<Try>): Try
    requires |tries| > 0
  {
    tries[|tries| - 1]
  }

  /** The client is answered from the last try. */
  function FinalOf(tries: seq<Try>): Final {
    if |tries| == 0 then NoTarget
    else match Last(tries).r.err case None => Answered case Some(e) => Failed(e)
  }

  /** Everything the walk did is what its world called for. */
  ghost predicate Obeys(world: World, log: Log, maxRetries: int) {
    && Records(world, log.tries) && Persistent(world, log.tries, maxRetries)
    && forall i :: 0 <= i < |log.asked| ==> log.asked[i] == AnswerOf(world, i)
  }

  /** The walk goes normally, or was forced, as its world calls for. */
  ghost predicate Goes(world: World, i: nat, log: Log, maxRetries: int) {
    forall l: Log {:trigger Look(l)} :: l == log ==> Normal(i, l) && Obeys(world, l, maxRetries)
  }

  ghost predicate WasForced(world: World, n: nat, log: Log, maxRetries: int) {
    forall l: Log {:trigger Look(l)} :: l == log ==> Forced(n, l) && Obeys(world, l, maxRetries)
  }

  /** The outer loop's body for a target that was let through. */
  method VisitTarget(world: World, i: nat, log: Log, a: Breaker.Answer, calls: nat, fallbackReason: Reason, maxRetries: int)
    returns (log': Log, attempts: nat, reason: Reason)
    requires Lawful(world) && Goes(world, i, log, maxRetries) && a == AnswerOf(world, i) && a.ok && calls == Calls(log.tries)
    requires |log.tries| > 0 ==> GoesOn(Last(log.tries))
    requires |log.tries| == 0 <==> fallbackReason == NoReason
    ensures Goes(world, i + 1, log', maxRetries) && |log'.asked| == i + 1 && attempts == Calls(log'.tries)
    ensures |log.tries| < |log'.tries| <= |log.tries| + TryLimit(maxRetries) && Last(log'.tries).target == i
    ensures reason == NoReason <==> !GoesOn(Last(log'.tries))
  {
    assert Look(log);
    var fallbacks := if fallbackReason != NoReason then log.fallbacks + [fallbackReason] else log.fallbacks;
    var tries, reports;
    tries, reports, attempts := TryTarget(world, log.tries, log.reports, calls, i, a.probe, false, maxRetries);
    log' := Log(log.asked + [a], tries, reports, fallbacks);
    VisitGoes(world, i, log, a, tries, reports, fallbacks, maxRetries, log');
    reason := NoReason;
    if Last(tries).r.err.Some? {
      ClassTable(Last(tries).r.err.value);
      reason := Classify(Last(tries).r.err.value).reason;
    }
  }

  /** The outer loop's body when the last breaker refused and nothing has been tried. */
  method ForcePrimary(world: World, n: nat, log: Log, a: Breaker.Answer, maxRetries: int)
    returns (log': Log, attempts: nat)
    requires Lawful(world) && n > 0 && Goes(world, n - 1, log, maxRetries)
    requires |log.tries| == 0 && a == AnswerOf(world, n - 1) && !a.ok
    ensures WasForced(world, n, log', maxRetries) && attempts == Calls(log'.tries) && |log'.tries| == 1
  {
    assert Look(log);
    NothingTried(log);
    var tries, reports;
    tries, reports, attempts := TryTarget(world, [], [], 0, 0, 0, true, maxRetries);
    log' := Log(log.asked + [a], tries, reports, log.fallbacks);
    ItWasForced(world, n, log', maxRetries);
  }

  /** The walk stops after the last try: it settled or ended the call, or the client left or the time is up. */
  predicate Stops(world: World, tries: seq<Try>)
    requires |tries| > 0
  {
    !GoesOn(Last(tries)) || Around(world, |tries| - 1).over
  }

  /** One turn of the outer loop: ask the breaker for target `i`, then skip it, try it, or, when
      nothing was tried and this was the last breaker, force the primary. */
  method Turn(world: World, n: nat, i: nat, log: Log, calls: nat, fallbackReason: Reason, maxRetries: int)
    returns (log': Log, attempts: nat, reason: Reason, goOn: bool)
    requires Lawful(world) && i < n && Goes(world, i, log, maxRetries) && |log.asked| == i && calls == Calls(log.tries)
    requires |log.tries| > 0 ==> !Stops(world, log.tries)
    requires |log.tries| == 0 <==> fallbackReason == NoReason
    ensures WasForced(world, n, log', maxRetries) || (Goes(world, i + 1, log', maxRetries) && |log'.asked| == i + 1)
    ensures |log'.tries| <= |log.tries| + TryLimit(maxRetries) && attempts == Calls(log'.tries)
    ensures goOn ==> Goes(world, i + 1, log', maxRetries) && |log'.asked| == i + 1 && (|log'.tries| > 0 ==> !Stops(world, log'.tries))
    ensures goOn ==> (|log'.tries| == 0 <==> reason == NoReason)
    ensures !goOn || i == n - 1 ==> |log'.tries| > 0
    ensures !goOn ==> WasForced(world, n, log', maxRetries) || (Last(log'.tries).target == i && (i == n - 1 || Stops(world, log'.tries)))
  {
    var a := AnswerOf(world, i);
    if a.ok {
      log', attempts, reason := VisitTarget(world, i, log, a, calls, fallbackReason, maxRetries);
      goOn := i < n - 1 && reason != NoReason && !Around(world, |log'.tries| - 1).over;
    } else if i < n - 1 || |log.tries| > 0 {
      SkipGoes(world, i, log, a, maxRetries);
      log', attempts, reason, goOn := log.(asked := log.asked + [a]), calls, fallbackReason, true;
    } else {
      log', attempts := ForcePrimary(world, n, log, a, maxRetries);
      reason, goOn := NoReason, false;
    }
  }

  method Invoke(world: World, n: nat, maxRetries: int)
    returns (final: Final, log: Log, attempts: nat, conn: nat)
    requires Lawful(world)
    ensures n == 0 ==> log == Log([], [], [], [])
    // either some breaker let a target through, or all refused and the primary went once
    ensures n > 0 ==> Forced(n, log) || (|log.asked| <= n && Normal(|log.asked|, log))
    ensures |log.tries| <= n * TryLimit(maxRetries)
    ensures n > 0 ==> log.tries != [] && conn == Last(log.tries).target
    ensures final == FinalOf(log.tries)
    // every try and every repetition is what the world calls for, and a target is asked for exactly until it says stop
    ensures Obeys(world, log, maxRetries)
    ensures n > 0 ==> |log.asked| == if Stops(world, log.tries) && !Forced(n, log) then Last(log.tries).target + 1 else n
    ensures attempts == Calls(log.tries)
    ensures Settles(log)
  {
    log, attempts, conn := Log([], [], [], []), 0, 0;
    NothingYet(world, maxRetries);
    var fallbackReason := NoReason;
    ghost var bound := 0;
    var i, goOn := 0, true;
    while i < n && goOn
      invariant 0 <= i <= n && attempts == Calls(log.tries)
      invariant |log.tries| <= bound == i * TryLimit(maxRetries)
      invariant goOn ==> Goes(world, i, log, maxRetries) && |log.asked| == i && (|log.tries| > 0 ==> !Stops(world, log.tries))
      invariant goOn ==> (|log.tries| == 0 <==> fallbackReason == NoReason)
      invariant !goOn ==> WasForced(world, n, log, maxRetries) || (|log.asked| <= n && Goes(world, |log.asked|, log, maxRetries))
      invariant !goOn || (i == n && n > 0) ==> |log.tries| > 0
      invariant !goOn ==> WasForced(world, n, log, maxRetries) || (Last(log.tries).target + 1 == |log.asked| && (|log.asked| == n || Stops(world, log.tries)))
      invariant n == 0 ==> log == Log([], [], [], [])
    {
      bound := LimitGrows(bound, i, n, TryLimit(maxRetries));
      log, attempts, fallbackReason, goOn := Turn(world, n, i, log, attempts, fallbackReason, maxRetries);
      i := i + 1;
    }
    TimesGrows(i, n, TryLimit(maxRetries));
    assert Look(log);
    WalkSettles(n, log);
    final := FinalOf(log.tries);
    if |log.tries| > 0 {
      conn := Last(log.tries).target;
    }
  }

  lemma ItGoes(world: World, i: nat, log: Log, maxRetries: int)
    requires Normal(i, log) && Obeys(world, log, maxRetries)
    ensures Goes(world, i, log, maxRetries)
  {
    forall l: Log | l == log ensures Normal(i, l) && Obeys(world, l, maxRetries) {
      assert l.asked == log.asked && l.tries == log.tries && l.reports == log.reports && l.fallbacks == log.fallbacks;
    }
  }

  lemma ItWasForced(world: World, n: nat, log: Log, maxRetries: int)
    requires Forced(n, log) && Obeys(world, log, maxRetries)
    ensures WasForced(world, n, log, maxRetries)
  {
    forall l: Log | l == log ensures Forced(n, l) && Obeys(world, l, maxRetries) {
      assert l.asked == log.asked && l.tries == log.tries && l.reports == log.reports && l.fallbacks == log.fallbacks;
    }
  }

  lemma NothingYet(world: World, maxRetries: int)
    ensures Goes(world, 0, Log([], [], [], []), maxRetries)
  {
    ItGoes(world, 0, Log([], [], [], []), maxRetries);
  }

  lemma SkipGoes(world: World, i: nat, log: Log, a: Breaker.Answer, maxRetries: int)
    requires Lawful(world) && Goes(world, i, log, maxRetries) && a == AnswerOf(world, i) && !a.ok
    ensures Goes(world, i + 1, log.(asked := log.asked + [a]), maxRetries)
  {
    assert Look(log);
    SkipKeeps(i, log, a);
    ItGoes(world, i + 1, log.(asked := log.asked + [a]), maxRetries);
  }

  lemma VisitGoes(world: World, i: nat, log: Log, a: Breaker.Answer, tries: seq<Try>, reports: seq<Report>, fallbacks: seq<Reason>,
                  maxRetries: int, log': Log)
    requires Normal(i, log) && Obeys(world, log, maxRetries) && a == AnswerOf(world, i) && a.ok
    requires |log.tries| > 0 ==> GoesOn(log.tries[|log.tries| - 1])
    requires log.tries < tries && OneTarget(tries, |log.tries|, i, a.probe, false)
    requires AllReported(tries, reports) && Records(world, tries) && Persistent(world, tries, maxRetries)
    requires Targets(tries) == Targets(log.tries) + 1
    requires |fallbacks| == |log.fallbacks| + (if |log.tries| == 0 then 0 else 1) && NoReason !in fallbacks
    requires log' == Log(log.asked + [a], tries, reports, fallbacks)
    ensures Goes(world, i + 1, log', maxRetries)
  {
    VisitKeeps(i, log, a, tries, reports, fallbacks);
    ItGoes(world, i + 1, log', maxRetries);
  }

  lemma LimitGrows(bound: nat, i: nat, n: nat, limit: nat) returns (next: nat)
    requires bound == i * limit && i < n && limit > 0
    ensures next == bound + limit == (i + 1) * limit <= n * limit
  {
    next := bound + limit;
    TimesGrows(i + 1, n, limit);
  }

  lemma {:induction false} TimesGrows(a: nat, b: nat, k: nat)
    requires a <= b
    ensures a * k <= b * k
  {
    if a < b {
      TimesGrows(a, b - 1, k);
    }
  }

  lemma SkipKeeps(i: nat, log: Log, a: Breaker.Answer)
    requires Normal(i, log) && !a.ok && (a.probe > 0 ==> a.ok)
    ensures Normal(i + 1, log.(asked := log.asked + [a]))
  {
  }

  /** With no try made, no target was let through. */
  lemma NothingTried(log: Log)
    requires FollowsAnswers(log.asked, log.tries) && |log.tries| == 0
    ensures forall i :: 0 <= i < |log.asked| ==> !log.asked[i].ok && log.asked[i].probe == 0
  {
    forall i | 0 <= i < |log.asked| ensures !log.asked[i].ok && log.asked[i].probe == 0 {
      assert !Tried(log.tries, i);
    }
  }

  lemma VisitKeeps(i: nat, log: Log, a: Breaker.Answer, tries: seq<Try>, reports: seq<Report>, fallbacks: seq<Reason>)
    requires Normal(i, log) && a.ok
    requires |log.tries| > 0 ==> GoesOn(log.tries[|log.tries| - 1])
    requires log.tries < tries && OneTarget(tries, |log.tries|, i, a.probe, false)
    requires AllReported(tries, reports)
    requires Targets(tries) == Targets(log.tries) + 1
    requires |fallbacks| == |log.fallbacks| + (if |log.tries| == 0 then 0 else 1) && NoReason !in fallbacks
    ensures Normal(i + 1, Log(log.asked + [a], tries, reports, fallbacks))
  {
    VisitAnswers(log.asked, a, log.tries, tries);
    VisitLast(log.tries, tries, i, a.probe);
    VisitOrder(log.tries, tries, i, a.probe);
  }

  lemma VisitOrder(before: seq<Try>, tries: seq<Try>, i: nat, probe: nat)
    requires InOrder(i, before) && (forall k :: 0 <= k < |before| ==> !before[k].forced)
    requires before < tries && OneTarget(tries, |before|, i, probe, false)
    ensures InOrder(i + 1, tries) && (forall k :: 0 <= k < |tries| ==> !tries[k].forced)
  {
    assert forall k :: 0 <= k < |before| ==> tries[k] == before[k];
  }

  lemma VisitAnswers(asked: seq<Breaker.Answer>, a: Breaker.Answer, before: seq<Try>, tries: seq<Try>)
    requires FollowsAnswers(asked, before) && a.ok && before < tries && OneTarget(tries, |before|, |asked|, a.probe, false)
    ensures FollowsAnswers(asked + [a], tries)
  {
    forall i | 0 <= i <= |asked| && (asked + [a])[i].ok ensures Tried(tries, i) {
      if i < |asked| {
        assert Tried(before, i);
        var k :| 0 <= k < |before| && before[k].target == i;
        assert tries[k].target == i;
      } else {
        assert tries[|before|].target == i;
      }
    }
  }

  lemma VisitLast(before: seq<Try>, tries: seq<Try>, i: nat, probe: nat)
    requires LastDecides(before) && (|before| > 0 ==> GoesOn(before[|before| - 1]))
    requires before < tries && OneTarget(tries, |before|, i, probe, false)
    ensures LastDecides(tries)
  {
    forall k | 0 <= k < |tries| - 1 ensures GoesOn(tries[k]) && !tries[k].r.wrote {
      if k < |before| {
        assert tries[k] == before[k];
      } else {
        ClassTable(tries[k].r.err.value);
      }
    }
  }

  // ----- what the client and the breakers see

  ghost predicate IsReported(log: Log, t: nat)
    requires t < |log.asked|
  {
    exists k :: 0 <= k < |log.reports| && log.reports[k].target == t && log.reports[k].probe == log.asked[t].probe
  }

  lemma EveryProbeIsReported(n: nat, log: Log, t: nat)
    requires Normal(|log.asked|, log) || Forced(n, log)
    requires t < |log.asked| && log.asked[t].probe > 0
    ensures IsReported(log, t)
  {
    assert Tried(log.tries, t);
    var k :| 0 <= k < |log.tries| && log.tries[k].target == t;
    assert log.reports[k].target == t && log.reports[k].probe == log.asked[t].probe;
  }

  /** Every probe the walk took is reported under its own token; only the last try may have written to the client;
      a settled try and a failure of the request's own are the last. */
  ghost predicate Settles(log: Log) {
    && (forall t :: 0 <= t < |log.asked| && log.asked[t].probe > 0 ==> IsReported(log, t))
    && (forall k :: 0 <= k < |log.tries| && log.tries[k].r.wrote ==> k == |log.tries| - 1)
    && (forall k :: 0 <= k < |log.tries| && (log.tries[k].r.err.None? || RequestsOwnFault(log.tries[k].r.err.value)) ==>
          k == |log.tries| - 1)
  }

  lemma WalkSettles(n: nat, log: Log)
    requires Normal(|log.asked|, log) || Forced(n, log)
    ensures Settles(log)
  {
    forall t | 0 <= t < |log.asked| && log.asked[t].probe > 0 ensures IsReported(log, t) {
      EveryProbeIsReported(n, log, t);
    }
    forall k | 0 <= k < |log.tries| && log.tries[k].r.err.Some? && RequestsOwnFault(log.tries[k].r.err.value)
      ensures k == |log.tries| - 1
    {
      ClassTable(log.tries[k].r.err.value);
    }
  }

  // ----- what a try does to its target's breaker

  /** An answered attempt with the client still there closes the breaker and forgets the failures; a fault that is
      neither the request's own nor one of configuration is counted; every other try leaves both as they were, and
      the window with them. */
  lemma TryOnRecord(c: Breaker.Config, br: Breaker.Record, name: string, now: int, probe: nat, t: Try)
    ensures var br' := Breaker.ReportStep(c, br, name, now, probe, OutcomeOf(t.gone, t.r.err, t.r.status));
      if t.r.err.None? && !t.gone && t.r.status != 499 && t.r.status != 502
      then !br'.open && br'.failures == 0
      else if t.r.err.Some? && !t.gone && !RequestsOwnFault(t.r.err.value) && !ConfigFault(t.r.err.value)
      then br'.failures == br.failures + 1 && (br.open ==> br'.open)
      else br'.open == br.open && br'.failures == br.failures && br'.openedAt == br.openedAt
  {
    if t.r.err.Some? {
      CountedFailures(t.gone, t.r.err.value, t.r.status);
    }
  }
}
