/** Circuit breakers of model connections (internal/gateway/breaker.go).

    One breaker is a timed state machine; its two operations, allow and report, are functions on a
    record, the mutable set of breakers is a class over a map of such records. The clock is a
    parameter. What is proved about a breaker is proved about its whole history: the calls, the reports
    and the scrapes, which may evict its map entry, at times that never go back. */
module Breaker {

  datatype Outcome = Neutral | Success | Failure

  datatype Health = Closed | Open | HalfOpen

  datatype Config = Config(threshold: int, openFor: int)

  /** The state of one connection. Probe tokens are numbered from 1; 0 is "not a probe". */
  datatype Record = Record(
    name: string,
    failures: nat,
    open: bool,
    openedAt: int,
    probing: bool,
    probeAt: int,
    probeID: nat,
    nextID: nat,
    lastSeen: int)

  const FRESH := Record("", 0, false, 0, false, 0, 0, 0, 0)

  function HealthAt(c: Config, br: Record, now: int): Health {
    if !br.open then Closed
    else if now - br.openedAt < c.openFor then Open
    else HalfOpen
  }

  function Touch(br: Record, name: string, now: int): Record {
    br.(name := name, lastSeen := now)
  }

  datatype Answer = Answer(ok: bool, probe: nat)

  function AllowStep(c: Config, br: Record, name: string, now: int): (Record, Answer) {
    var br := Touch(br, name, now);
    match HealthAt(c, br, now)
    case Closed => (br, Answer(true, 0))
    case Open => (br, Answer(false, 0))
    case HalfOpen =>
      if !br.probing || now - br.probeAt >= c.openFor then
        var id := br.nextID + 1;
        (br.(nextID := id, probing := true, probeAt := now, probeID := id), Answer(true, id))
      else
        (br, Answer(false, 0))
  }

  function ReportStep(c: Config, br: Record, name: string, now: int, probe: nat, o: Outcome): Record {
    var br := Touch(br, name, now);
    var br := if probe != 0 && probe == br.probeID then br.(probing := false) else br;
    match o
    case Neutral => br
    case Success => br.(failures := 0, open := false)
    case Failure =>
      var br := br.(failures := br.failures + 1);
      match HealthAt(c, br, now)
      case Closed => if br.failures >= c.threshold then br.(open := true, openedAt := now) else br
      case HalfOpen => br.(openedAt := now)
      case Open => br
  }

  /** How long an entry without traffic outlives it. */
  const IDLE_TTL := 3_600_000_000_000

  function Survives(br: Record, now: int): bool {
    now - br.lastSeen <= IDLE_TTL
  }

  // ----- histories of one connection

  /** A scrape evicts an idle entry; the next event meets a fresh one. */
  datatype Event =
    | Asked(now: int, name: string)
    | Reported(now: int, name: string, probe: nat, outcome: Outcome)
    | Scraped(now: int)

  function StepOn(c: Config, br: Record, e: Event): Record {
    match e
    case Asked(now, name) => AllowStep(c, br, name, now).0
    case Reported(now, name, probe, o) => ReportStep(c, br, name, now, probe, o)
    case Scraped(now) => if Survives(br, now) then br else FRESH
  }

  /** The record after the first `k` events of a history, and so before event `k`. */
  function At(c: Config, h: seq<Event>, k: nat): Record
    requires k <= |h|
  {
    if k == 0 then FRESH else StepOn(c, At(c, h, k - 1), h[k - 1])
  }

  /** The answer to the question asked by event `k`. */
  function AnswerTo(c: Config, h: seq<Event>, k: nat): Answer
    requires k < |h| && h[k].Asked?
  {
    AllowStep(c, At(c, h, k), h[k].name, h[k].now).1
  }

  ghost predicate Monotone(h: seq<Event>) {
    forall i, j :: 0 <= i <= j < |h| ==> h[i].now <= h[j].now
  }

  ghost predicate ValidConfig(c: Config) {
    c.threshold > 0 && c.openFor > 0
  }

  // ----- what the history says, without the record

  predicate Succeeds(e: Event) { e.Reported? && e.outcome.Success? }

  predicate Fails(e: Event) { e.Reported? && e.outcome.Failure? }

  /** When a call or a report last touched the connection, among the first `k` events. */
  function LastTouch(h: seq<Event>, k: nat): int
    requires k <= |h|
    decreases k, 0
  {
    if k == 0 then 0 else if h[k - 1].Scraped? then (if Evicts(h, k - 1) then 0 else LastTouch(h, k - 1)) else h[k - 1].now
  }

  /** Event `k` is a scrape that finds the connection idle. */
  predicate Evicts(h: seq<Event>, k: nat)
    requires k < |h|
    decreases k, 1
  {
    h[k].Scraped? && h[k].now - LastTouch(h, k) > IDLE_TTL
  }

  /** Times of the counted failures since the last success or eviction, among the first `k` events. */
  function FailureTimes(h: seq<Event>, k: nat): seq<int>
    requires k <= |h|
  {
    if k == 0 || Succeeds(h[k - 1]) || Evicts(h, k - 1) then []
    else if Fails(h[k - 1]) then FailureTimes(h, k - 1) + [h[k - 1].now]
    else FailureTimes(h, k - 1)
  }

  /** The start of the open window a series of failures leaves behind: the first failure starts one,
      and a later failure starts another only if the running window is over by then. */
  function WindowStart(openFor: int, ts: seq<int>): int
    requires |ts| > 0
  {
    var last := ts[|ts| - 1];
    if |ts| == 1 then last
    else
      var running := WindowStart(openFor, ts[..|ts| - 1]);
      if last - running >= openFor then last else running
  }

  lemma {:induction false} TouchIsSeen(c: Config, h: seq<Event>, k: nat)
    requires k <= |h|
    ensures At(c, h, k).lastSeen == LastTouch(h, k)
  {
    if k > 0 {
      TouchIsSeen(c, h, k - 1);
    }
  }

  /** The record says exactly what the history says: it is open iff at least `threshold` failures were
      counted since the last success or eviction, and its window is the one those failures started. */
  lemma {:induction false} RefinesHistory(c: Config, h: seq<Event>, k: nat)
    requires ValidConfig(c) && k <= |h|
    ensures var br, ts := At(c, h, k), FailureTimes(h, k);
      && br.failures == |ts|
      && (br.open <==> |ts| >= c.threshold)
      && (br.open ==> br.openedAt == WindowStart(c.openFor, ts[c.threshold - 1..]))
  {
    if k > 0 {
      RefinesHistory(c, h, k - 1);
      TouchIsSeen(c, h, k - 1);
      var ts', ts := FailureTimes(h, k - 1), FailureTimes(h, k);
      if Fails(h[k - 1]) && |ts'| >= c.threshold {
        assert ts[c.threshold - 1..][..|ts| - c.threshold] == ts'[c.threshold - 1..];
      }
    }
  }

  /** The whole contract of allow in terms of the history: while fewer than `threshold` failures are
      counted everything passes, inside an open window everything is refused, and only after it a
      probe is let through. */
  lemma AllowFollowsHistory(c: Config, h: seq<Event>, k: nat)
    requires ValidConfig(c) && k < |h| && h[k].Asked?
    ensures var ts := FailureTimes(h, k);
      && (|ts| < c.threshold ==> AnswerTo(c, h, k) == Answer(true, 0))
      && (|ts| >= c.threshold && h[k].now < WindowStart(c.openFor, ts[c.threshold - 1..]) + c.openFor ==>
            AnswerTo(c, h, k) == Answer(false, 0))
      && (|ts| >= c.threshold && h[k].now >= WindowStart(c.openFor, ts[c.threshold - 1..]) + c.openFor ==>
            (AnswerTo(c, h, k).ok <==> AnswerTo(c, h, k).probe > 0))
  {
    RefinesHistory(c, h, k);
  }

  /** No scrape finds the connection idle from event `i` up to event `j`. */
  ghost predicate SameLife(h: seq<Event>, i: nat, j: nat)
    requires j <= |h|
  {
    forall k :: i <= k < j ==> !Evicts(h, k)
  }

  lemma {:induction false} TouchKept(h: seq<Event>, i: nat, k: nat)
    requires Monotone(h) && i < k <= |h| && !h[i].Scraped?
    requires k > i + 1 ==> h[k - 1].now - h[i].now <= IDLE_TTL
    ensures LastTouch(h, k) >= h[i].now
  {
    if k > i + 1 {
      assert h[k - 2].now <= h[k - 1].now && h[i].now <= h[k - 1].now;
      TouchKept(h, i, k - 1);
    }
  }

  /** A connection that was touched outlives every scrape of the next `IDLE_TTL`. */
  lemma TouchedSurvives(h: seq<Event>, i: nat, j: nat)
    requires Monotone(h) && i < j <= |h| && !h[i].Scraped?
    requires forall k :: i < k < j ==> h[k].now - h[i].now <= IDLE_TTL
    ensures SameLife(h, i, j)
  {
    forall k | i < k < j ensures !Evicts(h, k) {
      assert k - 1 > i ==> h[k - 1].now - h[i].now <= IDLE_TTL;
      TouchKept(h, i, k);
    }
  }

  /** A window opened by event `i` keeps its start until a success is reported, the entry is evicted or
      it is over; failures reported meanwhile do not extend it. */
  lemma {:induction false} WindowKept(c: Config, h: seq<Event>, i: nat, j: nat)
    requires ValidConfig(c) && i < j <= |h| && SameLife(h, i + 1, j)
    requires At(c, h, i + 1).open && At(c, h, i + 1).openedAt == h[i].now
    requires forall k :: i < k < j ==> !Succeeds(h[k]) && h[k].now < h[i].now + c.openFor
    ensures At(c, h, j).open && At(c, h, j).openedAt == h[i].now
  {
    if j > i + 1 {
      WindowKept(c, h, i, j - 1);
      TouchIsSeen(c, h, j - 1);
      assert !Evicts(h, j - 1);
    }
  }

  /** Event `i` opens the breaker and event `j` asks inside the window, with no success in between. */
  ghost predicate AskedInside(c: Config, h: seq<Event>, i: nat, j: nat) {
    && i < j < |h| && h[j].Asked? && h[j].now < h[i].now + c.openFor
    && At(c, h, i + 1).open && At(c, h, i + 1).openedAt == h[i].now && !h[i].Scraped?
    && forall k :: i < k < j ==> !Succeeds(h[k])
  }

  /** Such a call is refused as long as the entry lives, */
  lemma RefusedWhileOpen(c: Config, h: seq<Event>, i: nat, j: nat)
    requires ValidConfig(c) && Monotone(h) && AskedInside(c, h, i, j) && SameLife(h, i + 1, j)
    ensures !AnswerTo(c, h, j).ok
  {
    assert forall k :: i < k < j ==> h[k].now <= h[j].now;
    WindowKept(c, h, i, j);
  }

  ghost predicate WindowsHold(c: Config) {
    forall h: seq<Event>, i: nat, j: nat :: Monotone(h) && AskedInside(c, h, i, j) ==> !AnswerTo(c, h, j).ok
  }

  /** and in every history whatever exactly when no scrape inside a window can find the entry idle. */
  lemma WindowsHoldIff(c: Config)
    requires ValidConfig(c)
    ensures WindowsHold(c) <==> c.openFor <= IDLE_TTL + 1
  {
    if c.openFor <= IDLE_TTL + 1 {
      forall h: seq<Event>, i: nat, j: nat | Monotone(h) && AskedInside(c, h, i, j) ensures !AnswerTo(c, h, j).ok {
        assert forall k :: i < k < j ==> h[k].now <= h[j].now;
        TouchedSurvives(h, i, j);
        RefusedWhileOpen(c, h, i, j);
      }
    } else {
      ScrapeEndsWindow(c);
    }
  }

  /** Failures that open the breaker, then silence, a scrape and a call, all at once. */
  function Forgotten(c: Config): seq<Event>
    requires c.threshold > 0
  {
    seq(c.threshold, _ => Reported(0, "", 0, Failure)) + [Scraped(IDLE_TTL + 1), Asked(IDLE_TTL + 1, "")]
  }

  lemma {:induction false} FailuresCounted(c: Config, k: nat)
    requires c.threshold > 0 && k <= c.threshold
    ensures |FailureTimes(Forgotten(c), k)| == k && LastTouch(Forgotten(c), k) == 0
    ensures forall t :: t in FailureTimes(Forgotten(c), k) ==> t == 0
  {
    if k > 0 {
      FailuresCounted(c, k - 1);
    }
  }

  /** With a longer window the call goes through. */
  lemma ScrapeEndsWindow(c: Config)
    requires ValidConfig(c) && c.openFor > IDLE_TTL + 1
    ensures var h, i, j := Forgotten(c), c.threshold - 1, c.threshold + 1;
      Monotone(h) && AskedInside(c, h, i, j) && AnswerTo(c, h, j) == Answer(true, 0)
  {
    var h := Forgotten(c);
    var n := c.threshold;
    FailuresCounted(c, n - 1);
    FailuresCounted(c, n);
    RefinesHistory(c, h, n);
    TouchIsSeen(c, h, n);
    var ts := FailureTimes(h, n);
    assert ts[n - 1..] == [ts[n - 1]];
    assert ts[n - 1] in ts;
    assert Evicts(h, n) && At(c, h, n + 1) == FRESH;
  }

  // ----- probes

  /** Event `k` asked and was let through as the half-open probe. */
  predicate Probes(c: Config, h: seq<Event>, k: nat) {
    k < |h| && h[k].Asked? && AnswerTo(c, h, k).probe > 0
  }

  predicate Reports(e: Event, token: nat) { e.Reported? && e.probe == token }

  lemma ProbeTimeStep(c: Config, br: Record, e: Event)
    requires br.probeID == br.nextID && (br.probeID > 0 ==> br.probeAt <= e.now)
    ensures var br' := StepOn(c, br, e); br'.probeID == br'.nextID && (br'.probeID > 0 ==> br'.probeAt <= e.now)
  {
  }

  lemma {:induction false} NewestToken(c: Config, h: seq<Event>, k: nat)
    requires Monotone(h) && k <= |h|
    ensures At(c, h, k).probeID == At(c, h, k).nextID
    ensures k < |h| && At(c, h, k).probeID > 0 ==> At(c, h, k).probeAt <= h[k].now
  {
    if k > 0 {
      NewestToken(c, h, k - 1);
      ProbeTimeStep(c, At(c, h, k - 1), h[k - 1]);
      assert k < |h| ==> h[k - 1].now <= h[k].now;
    }
  }

  /** The slot of a probe sent out at `at`: still taken by it, or handed on after the full duration, or
      forgotten with the entry, in which case any new window began after it. */
  ghost predicate SlotOf(c: Config, br: Record, token: nat, at: int) {
    || (br.probing && br.probeID == token && br.probeAt == at)
    || (br.probeID > 0 && br.probeAt >= at + c.openFor)
    || (br.probeID == 0 && !br.probing && (br.open ==> br.openedAt >= at))
  }

  lemma StepKeepsSlot(c: Config, br: Record, e: Event, token: nat, at: int)
    requires ValidConfig(c) && token > 0 && SlotOf(c, br, token, at) && br.probeID == br.nextID && at <= e.now
    requires br.probeID > 0 ==> br.probeAt <= e.now
    requires !Reports(e, token)
    ensures SlotOf(c, StepOn(c, br, e), token, at)
  {
  }

  lemma {:induction false} ProbeSlotKept(c: Config, h: seq<Event>, i: nat, j: nat)
    requires ValidConfig(c) && Monotone(h) && Probes(c, h, i) && i < j <= |h|
    requires forall k :: i < k < j ==> !Reports(h[k], AnswerTo(c, h, i).probe)
    ensures SlotOf(c, At(c, h, j), AnswerTo(c, h, i).probe, h[i].now)
  {
    if j > i + 1 {
      ProbeSlotKept(c, h, i, j - 1);
      NewestToken(c, h, j - 1);
      StepKeepsSlot(c, At(c, h, j - 1), h[j - 1], AnswerTo(c, h, i).probe, h[i].now);
    }
  }

  /** Two probes granted with no report of the first in between are at least `openFor` apart, whatever
      else happened: a close and a reopen, an eviction and a new entry. */
  lemma ProbesAreExclusive(c: Config, h: seq<Event>, i: nat, j: nat)
    requires ValidConfig(c) && Monotone(h) && Probes(c, h, i) && Probes(c, h, j) && i < j
    requires forall k :: i < k < j ==> !Reports(h[k], AnswerTo(c, h, i).probe)
    ensures h[j].now - h[i].now >= c.openFor
  {
    ProbeSlotKept(c, h, i, j);
    NewestToken(c, h, j);
  }

  /** A taken slot goes back to a probe of this history that has not been reported. */
  lemma {:induction false} SlotHasProbe(c: Config, h: seq<Event>, k: nat) returns (i: nat)
    requires Monotone(h) && k <= |h| && At(c, h, k).probing
    ensures i < k && Probes(c, h, i) && At(c, h, k).probeID == AnswerTo(c, h, i).probe && At(c, h, k).probeAt == h[i].now
    ensures forall j :: i < j < k ==> !Reports(h[j], AnswerTo(c, h, i).probe)
  {
    if Probes(c, h, k - 1) {
      i := k - 1;
    } else {
      i := SlotHasProbe(c, h, k - 1);
    }
  }

  /** The half-open breaker lets a probe through exactly when no unreported probe is younger than `openFor`. */
  lemma HalfOpenAdmitsIff(c: Config, h: seq<Event>, k: nat)
    requires ValidConfig(c) && Monotone(h) && k < |h| && h[k].Asked?
    requires var ts := FailureTimes(h, k);
      |ts| >= c.threshold && h[k].now >= WindowStart(c.openFor, ts[c.threshold - 1..]) + c.openFor
    ensures AnswerTo(c, h, k).ok <==>
      !exists i :: 0 <= i < k && Probes(c, h, i) && h[k].now - h[i].now < c.openFor &&
        forall j :: i < j < k ==> !Reports(h[j], AnswerTo(c, h, i).probe)
  {
    RefinesHistory(c, h, k);
    if AnswerTo(c, h, k).ok {
      forall i | 0 <= i < k && Probes(c, h, i) && forall j :: i < j < k ==> !Reports(h[j], AnswerTo(c, h, i).probe)
        ensures h[k].now - h[i].now >= c.openFor
      {
        ProbesAreExclusive(c, h, i, k);
      }
    } else {
      var i := SlotHasProbe(c, h, k);
    }
  }

  lemma TokenStep(c: Config, br: Record, e: Event)
    requires !e.Scraped? || Survives(br, e.now)
    ensures br.nextID <= StepOn(c, br, e).nextID <= br.nextID + 1
  {
  }

  lemma {:induction false} TokensGrow(c: Config, h: seq<Event>, i: nat, j: nat)
    requires i <= j <= |h| && SameLife(h, i, j)
    ensures At(c, h, i).nextID <= At(c, h, j).nextID
  {
    if i < j {
      TokensGrow(c, h, i, j - 1);
      TouchIsSeen(c, h, j - 1);
      assert !Evicts(h, j - 1);
      TokenStep(c, At(c, h, j - 1), h[j - 1]);
    }
  }

  lemma GrantedToken(c: Config, h: seq<Event>, i: nat)
    requires Probes(c, h, i)
    ensures At(c, h, i + 1).nextID == AnswerTo(c, h, i).probe == At(c, h, i).nextID + 1
  {
  }

  /** A report frees the slot exactly when it carries the token of the probe that holds it. */
  lemma ReportFrees(c: Config, br: Record, e: Event)
    requires e.Reported?
    ensures var br' := StepOn(c, br, e);
      && br'.probeID == br.probeID && br'.probeAt == br.probeAt
      && br'.probing == (br.probing && !(e.probe > 0 && e.probe == br.probeID))
  {
  }

  /** The report of a probe that a later one has superseded. */
  ghost predicate IsStale(c: Config, h: seq<Event>, i: nat, j: nat, k: nat) {
    Probes(c, h, i) && Probes(c, h, j) && i < j < k < |h| && Reports(h[k], AnswerTo(c, h, i).probe)
  }

  ghost predicate SlotUntouched(c: Config, h: seq<Event>, k: nat)
    requires k < |h|
  {
    var br, br' := At(c, h, k), At(c, h, k + 1);
    br'.probing == br.probing && br'.probeID == br.probeID && br'.probeAt == br.probeAt
  }

  /** Within the life of the entry such a report leaves the newer probe's slot alone. */
  lemma StaleReportKeepsSlot(c: Config, h: seq<Event>, i: nat, j: nat, k: nat)
    requires Monotone(h) && IsStale(c, h, i, j, k) && SameLife(h, i, k)
    ensures SlotUntouched(c, h, k) && At(c, h, k).probeID > AnswerTo(c, h, i).probe
  {
    GrantedToken(c, h, i);
    TokensGrow(c, h, i + 1, j);
    GrantedToken(c, h, j);
    TokensGrow(c, h, j + 1, k);
    NewestToken(c, h, k);
    ReportFrees(c, At(c, h, k), h[k]);
  }

  /** In every history: it does so whenever it comes within `IDLE_TTL` of its own grant, and at any time
      exactly unless a scrape has evicted the entry since, and the slot is now held by a probe of the
      next entry that was given the same number. */
  lemma StaleReportKeepsSlotIff(c: Config, h: seq<Event>, i: nat, j: nat, k: nat)
    requires Monotone(h) && IsStale(c, h, i, j, k)
    ensures h[k].now - h[i].now <= IDLE_TTL ==> SameLife(h, i, k) && SlotUntouched(c, h, k)
    ensures SlotUntouched(c, h, k) <==>
      SameLife(h, i, k) || !At(c, h, k).probing || At(c, h, k).probeID != AnswerTo(c, h, i).probe
  {
    if h[k].now - h[i].now <= IDLE_TTL {
      assert forall m :: i < m < k ==> h[m].now <= h[k].now;
      TouchedSurvives(h, i, k);
    }
    ReportFrees(c, At(c, h, k), h[k]);
    if SameLife(h, i, k) {
      StaleReportKeepsSlot(c, h, i, j, k);
    }
  }

  /** A probe, an hour of silence, a scrape, a new entry that opens and sends out its own probe, and then
      the report of the first. */
  function LateReport(): seq<Event> {
    var later := 10 + IDLE_TTL + 1;
    [Reported(0, "m", 0, Failure), Asked(10, "m"), Scraped(later), Reported(later, "m", 0, Failure),
     Asked(later + 10, "m"), Reported(later + 11, "m", 1, Neutral)]
  }

  /** That history is one where the new probe's slot is freed. */
  lemma EvictionForgetsTokens(c: Config, h: seq<Event>)
    requires c == Config(1, 10) && h == LateReport()
    ensures Monotone(h) && IsStale(c, h, 1, 4, 5)
    ensures At(c, h, 5).probing && !At(c, h, 6).probing && !SlotUntouched(c, h, 5)
  {
    var b0 := At(c, h, 0);
    var b1 := StepOn(c, b0, h[0]);
    assert At(c, h, 1) == b1;
    var b2 := StepOn(c, b1, h[1]);
    assert At(c, h, 2) == b2 && b2.probeID == 1;
    assert At(c, h, 3) == FRESH;
    var b4 := StepOn(c, FRESH, h[3]);
    assert At(c, h, 4) == b4;
    var b5 := StepOn(c, b4, h[4]);
    assert At(c, h, 5) == b5 && b5.probeID == 1;
    assert At(c, h, 6) == StepOn(c, b5, h[5]);
  }

  // ----- the set of breakers

  /** A model connection, by its row's id. */
  datatype Conn = Conn(id: int)

  class Breakers {
    const c: Config
    var m: map<Conn, Record>

    constructor (threshold: int, openFor: int)
      ensures c == Config(threshold, openFor) && m == map[]
    {
      c := Config(threshold, openFor);
      m := map[];
    }

    predicate Enabled() { c.threshold > 0 }

    function Entry(conn: Conn): Record
      reads this
    {
      if conn in m then m[conn] else FRESH
    }

    method Allow(conn: Conn, name: string, now: int) returns (ok: bool, probe: nat)
      modifies this
      ensures !Enabled() ==> ok && probe == 0 && m == old(m)
      ensures Enabled() ==>
        var (br, a) := AllowStep(c, old(Entry(conn)), name, now);
        m == old(m)[conn := br] && ok == a.ok && probe == a.probe
    {
      if !Enabled() {
        return true, 0;
      }
      var br := Entry(conn).(name := name, lastSeen := now);
      ok, probe := false, 0;
      match HealthAt(c, br, now) {
        case Closed => ok := true;
        case HalfOpen =>
          if !br.probing || now - br.probeAt >= c.openFor {
            br := br.(nextID := br.nextID + 1);
            br := br.(probing := true, probeAt := now, probeID := br.nextID);
            ok, probe := true, br.probeID;
          }
        case Open =>
      }
      m := m[conn := br];
    }

    method IsOpen(conn: Conn, now: int) returns (r: bool)
      ensures r <==> Enabled() && conn in m && m[conn].open && now < m[conn].openedAt + c.openFor
    {
      r := Enabled() && conn in m && HealthAt(c, m[conn], now) == Open;
    }

    method Report(conn: Conn, name: string, now: int, probe: nat, o: Outcome)
      modifies this
      ensures m == if Enabled() then old(m)[conn := ReportStep(c, old(Entry(conn)), name, now, probe, o)] else old(m)
    {
      if !Enabled() {
        return;
      }
      var br := Entry(conn).(name := name, lastSeen := now);
      if probe != 0 && probe == br.probeID {
        br := br.(probing := false);
      }
      match o {
        case Success => br := br.(failures := 0, open := false);
        case Failure =>
          br := br.(failures := br.failures + 1);
          match HealthAt(c, br, now) {
            case Closed =>
              if br.failures >= c.threshold {
                br := br.(open := true, openedAt := now);
              }
            case HalfOpen => br := br.(openedAt := now);
            case Open =>
          }
        case Neutral =>
      }
      m := m[conn := br];
    }

    /** The scrape. The map is walked in any order; what is left is exactly the entries with recent
        traffic, and every reported state is the state of a surviving connection of that name. */
    method Snapshot(now: int) returns (out: map<string, Health>)
      modifies this
      ensures !Enabled() ==> m == old(m) && out == map[]
      ensures Enabled() ==> forall id :: id in m <==> id in old(m) && Survives(old(m)[id], now)
      ensures forall id :: id in m ==> m[id] == old(m)[id]
      ensures Enabled() ==> forall conn :: Entry(conn) == StepOn(c, old(Entry(conn)), Scraped(now))
      ensures Enabled() ==> forall id :: id in m ==> m[id].name in out
      ensures Enabled() ==> forall n :: n in out ==> exists id :: id in m && m[id].name == n && out[n] == HealthAt(c, m[id], now)
    {
      out := map[];
      if !Enabled() {
        return;
      }
      var todo: set<Conn> := m.Keys;
      while todo != {}
        invariant todo <= old(m).Keys
        invariant forall id :: id in m <==> id in old(m) && (id in todo || Survives(old(m)[id], now))
        invariant forall id :: id in m ==> m[id] == old(m)[id]
        invariant forall id :: id in m && id !in todo ==> m[id].name in out
        invariant forall n :: n in out ==>
          exists id :: id in m && id !in todo && m[id].name == n && out[n] == HealthAt(c, m[id], now)
      {
        var id :| id in todo;
        todo := todo - {id};
        var br := m[id];
        if !Survives(br, now) {
          m := m - {id};
        } else {
          ghost var before := out;
          out := out[br.name := HealthAt(c, br, now)];
          forall n | n in out
            ensures exists i :: i in m && i !in todo && m[i].name == n && out[n] == HealthAt(c, m[i], now)
          {
            if n != br.name {
              var i :| i in m && i !in todo + {id} && m[i].name == n && before[n] == HealthAt(c, m[i], now);
              assert i in m && i !in todo;
            } else {
              assert id in m && id !in todo;
            }
          }
        }
      }
    }
  }
}
