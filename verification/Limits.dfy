/** The two-tier request limiter (internal/limits/limits.go: CheckSubject, rollback, RecordSubject) as
    any number of requests stepping over shared counters. One atomic statement of the store (reserve,
    release, record) is one action, so between any two statements of one request every other request
    may run. Each statement may also fail, and a failed one may or may not have taken effect. */
module Limits {
  import opened Basics

  datatype Tier = Project(id: int) | Key(id: int)

  /** A row of project_usage or key_usage: the requests of one tier in one minute. */
  datatype Slot = Slot(tier: Tier, minute: int)

  /** The requests per minute a request is held to, in its project and under its key; zero is no limit. Caps are
      read per request, so two requests of one tier may carry different ones; the database keeps them from being
      negative. */
  datatype Caps = Caps(project: nat, key: nat)

  /** Where a request stands. `p` and `k` say that it holds a minute slot of the project and of the key;
      `at` is the minute its usage was recorded in, `pr` and `kr` that the request was counted there. */
  datatype Pc =
    | Fresh                                   // not checked yet
    | Checking                                // reading usage, comparing the token budgets
    | WantP                                   // next: reserve the project slot
    | OverP                                   // the project overflowed; next: give the slot back
    | WantK(p: bool)                          // next: reserve the key slot
    | FailK(p: bool, k: bool)                 // reserving the key failed; next: give the project slot back
    | OverK(p: bool)                          // the key overflowed; next: give the project slot back
    | OverK2                                  // next: give the key slot back
    | Denied                                  // refused
    | Broken(p: bool, k: bool)                // the check ended in a store error
    | Admitted(p: bool, k: bool)              // let through
    | Recording(p: bool, k: bool, at: int, pr: bool)
    | Recorded(p: bool, k: bool, at: int, pr: bool, kr: bool)
    | Unrecorded(p: bool, k: bool, at: int, pr: bool, kr: bool)

  datatype Request = Request(project: int, key: Option<int>, caps: Caps, minute: int, pc: Pc)

  datatype State = State(counters: map<Slot, int>, reqs: seq<Request>)

  function Read(s: State, sl: Slot): int { if sl in s.counters then s.counters[sl] else 0 }

  // ----- the store's statements

  datatype Effect = NoEffect | Up(sl: Slot) | Down(sl: Slot)

  /** A release floors at zero. */
  function Do(s: State, e: Effect): map<Slot, int> {
    match e
    case NoEffect => s.counters
    case Up(sl) => s.counters[sl := Read(s, sl) + 1]
    case Down(sl) => s.counters[sl := if Read(s, sl) - 1 > 0 then Read(s, sl) - 1 else 0]
  }

  function When(b: bool, e: Effect): Effect { if b then e else NoEffect }

  function PSlot(r: Request): Slot { Slot(Project(r.project), r.minute) }

  function KSlot(r: Request): Slot
    requires r.key.Some?
  {
    Slot(Key(r.key.value), r.minute)
  }

  predicate ProjectLimited(r: Request) { r.caps.project > 0 }

  predicate KeyLimited(r: Request) { r.key.Some? && r.caps.key > 0 }

  /** The cap a request is held to in a row. */
  function CapOf(r: Request, sl: Slot): nat {
    if sl.tier.Project? then r.caps.project else r.caps.key
  }

  /** Where the check goes once the project tier has let the request pass. */
  function AfterProject(r: Request, p: bool): Pc {
    if KeyLimited(r) then WantK(p) else Admitted(p, false)
  }

  datatype Action =
    | Begin(i: nat, project: int, key: Option<int>, caps: Caps, minute: int)
    | DenyTokens(i: nat)
    | ReadFails(i: nat)
    | PassTokens(i: nat)
    | ReserveP(i: nat)
    | ReservePFails(i: nat, applied: bool)
    | ReleaseP(i: nat)
    | ReleasePFails(i: nat, applied: bool)
    | ReserveK(i: nat)
    | ReserveKFails(i: nat, applied: bool)
    | ReleaseK(i: nat)
    | ReleaseKFails(i: nat, applied: bool)
    | RecordP(i: nat, at: int)
    | RecordPFails(i: nat, at: int, applied: bool)
    | RecordK(i: nat)
    | RecordKFails(i: nat, applied: bool)

  predicate GivesBackP(pc: Pc) { pc.OverP? || (pc.FailK? && pc.p) || (pc.OverK? && pc.p) }

  predicate GivesBackK(pc: Pc) { pc.OverK2? || (pc.OverK? && !pc.p) }

  predicate Enabled(s: State, a: Action) {
    a.i < |s.reqs| &&
    var r := s.reqs[a.i];
    match a
    case Begin(_, _, _, _, _) => r.pc.Fresh?
    case DenyTokens(_) => r.pc.Checking?
    case ReadFails(_) => r.pc.Checking?
    case PassTokens(_) => r.pc.Checking?
    case ReserveP(_) => r.pc.WantP?
    case ReservePFails(_, _) => r.pc.WantP?
    case ReleaseP(_) => GivesBackP(r.pc)
    case ReleasePFails(_, _) => GivesBackP(r.pc)
    case ReserveK(_) => r.pc.WantK? && r.key.Some?
    case ReserveKFails(_, _) => r.pc.WantK? && r.key.Some?
    case ReleaseK(_) => GivesBackK(r.pc) && r.key.Some?
    case ReleaseKFails(_, _) => GivesBackK(r.pc) && r.key.Some?
    case RecordP(_, _) => r.pc.Admitted?
    case RecordPFails(_, _, _) => r.pc.Admitted?
    case RecordK(_) => r.pc.Recording?
    case RecordKFails(_, _) => r.pc.Recording? && r.key.Some?
  }

  /** What an action does to the store. */
  function EffectOf(s: State, a: Action): Effect
    requires Enabled(s, a)
  {
    var r := s.reqs[a.i];
    match a
    case ReserveP(_) => Up(PSlot(r))
    case ReservePFails(_, applied) => When(applied, Up(PSlot(r)))
    case ReleaseP(_) => Down(PSlot(r))
    case ReleasePFails(_, applied) => When(applied, Down(PSlot(r)))
    case ReserveK(_) => Up(KSlot(r))
    case ReserveKFails(_, applied) => When(applied, Up(KSlot(r)))
    case ReleaseK(_) => Down(KSlot(r))
    case ReleaseKFails(_, applied) => When(applied, Down(KSlot(r)))
    case RecordP(_, at) => When(!r.pc.p, Up(Slot(Project(r.project), at)))
    case RecordPFails(_, at, applied) => When(applied && !r.pc.p, Up(Slot(Project(r.project), at)))
    case RecordK(_) => if r.key.Some? && !KeyLimited(r) then Up(Slot(Key(r.key.value), r.pc.at)) else NoEffect
    case RecordKFails(_, applied) => When(applied && !KeyLimited(r), Up(Slot(Key(r.key.value), r.pc.at)))
    case _ => NoEffect
  }

  /** Where an action takes its request; a reservation looks at the count it got back. */
  function NextPc(s: State, a: Action): Pc
    requires Enabled(s, a)
  {
    var r := s.reqs[a.i];
    match a
    case Begin(_, _, _, _, _) => Checking
    case DenyTokens(_) => Denied
    case ReadFails(_) => Broken(false, false)
    case PassTokens(_) => if ProjectLimited(r) then WantP else AfterProject(r, false)
    case ReserveP(_) => if Read(s, PSlot(r)) + 1 > r.caps.project then OverP else AfterProject(r, true)
    case ReservePFails(_, applied) => Broken(applied, false)
    case ReleaseP(_) => if r.pc.OverP? then Denied else if r.pc.FailK? then Broken(false, r.pc.k) else OverK2
    case ReleasePFails(_, applied) => Broken(!applied, r.pc.OverK? || (r.pc.FailK? && r.pc.k))
    case ReserveK(_) => if Read(s, KSlot(r)) + 1 > r.caps.key then OverK(r.pc.p) else Admitted(r.pc.p, true)
    case ReserveKFails(_, applied) => if r.pc.p then FailK(true, applied) else Broken(false, applied)
    case ReleaseK(_) => Denied
    case ReleaseKFails(_, applied) => Broken(false, !applied)
    case RecordP(_, at) => Recording(r.pc.p, r.pc.k, at, !r.pc.p)
    case RecordPFails(_, at, applied) => Unrecorded(r.pc.p, r.pc.k, at, applied && !r.pc.p, false)
    case RecordK(_) => Recorded(r.pc.p, r.pc.k, r.pc.at, r.pc.pr, r.key.Some? && !KeyLimited(r))
    case RecordKFails(_, applied) => Unrecorded(r.pc.p, r.pc.k, r.pc.at, r.pc.pr, applied && !KeyLimited(r))
  }

  function NextRequest(s: State, a: Action): Request
    requires Enabled(s, a)
  {
    if a.Begin? then Request(a.project, a.key, a.caps, a.minute, Checking) else s.reqs[a.i].(pc := NextPc(s, a))
  }

  function Apply(s: State, a: Action): State
    requires Enabled(s, a)
  {
    State(Do(s, EffectOf(s, a)), s.reqs[a.i := NextRequest(s, a)])
  }

  // ----- what a request is charged with

  predicate HoldsP(pc: Pc) {
    match pc
    case OverP => true
    case Fresh => false case Checking => false case WantP => false case Denied => false case OverK2 => false
    case _ => pc.p
  }

  predicate HoldsK(pc: Pc) {
    match pc
    case OverK(_) => true case OverK2 => true
    case Fresh => false case Checking => false case WantP => false case OverP => false case WantK(_) => false case Denied => false
    case _ => pc.k
  }

  predicate CountedP(pc: Pc) { (pc.Recording? || pc.Recorded? || pc.Unrecorded?) && pc.pr }

  predicate CountedK(pc: Pc) { (pc.Recorded? || pc.Unrecorded?) && pc.kr }

  predicate LetThrough(pc: Pc) { pc.Admitted? || pc.Recording? || pc.Recorded? || pc.Unrecorded? }

  function One(b: bool): nat { if b then 1 else 0 }

  /** How often one request is counted in one row. */
  function Charge(r: Request, sl: Slot): nat {
    match sl.tier
    case Project(id) => if r.project != id then 0
      else One(HoldsP(r.pc) && r.minute == sl.minute) + One(CountedP(r.pc) && r.pc.at == sl.minute)
    case Key(id) => if r.key != Some(id) then 0
      else One(HoldsK(r.pc) && r.minute == sl.minute) + One(CountedK(r.pc) && r.pc.at == sl.minute)
  }

  /** The request has passed the tier's limit in that minute and not been turned away since. */
  function Passed(r: Request, sl: Slot): nat {
    match sl.tier
    case Project(id) => One(r.project == id && r.minute == sl.minute && HoldsP(r.pc) && !r.pc.OverP? && !r.pc.Broken?)
    case Key(id) => One(r.key == Some(id) && r.minute == sl.minute && HoldsK(r.pc) && LetThrough(r.pc))
  }

  function Charged(rs: seq<Request>, sl: Slot): nat {
    if |rs| == 0 then 0 else Charge(rs[0], sl) + Charged(rs[1..], sl)
  }

  /** The same for a request whose own cap is at most `v`. */
  function PassedUpTo(r: Request, sl: Slot, v: nat): nat {
    if CapOf(r, sl) <= v then Passed(r, sl) else 0
  }

  function AllPassed(rs: seq<Request>, sl: Slot, v: nat): nat {
    if |rs| == 0 then 0 else PassedUpTo(rs[0], sl, v) + AllPassed(rs[1..], sl, v)
  }

  /** Requests let through that occupy the row: by reservation or by being counted there. */
  function Occupants(rs: seq<Request>, sl: Slot): nat {
    if |rs| == 0 then 0 else (if LetThrough(rs[0].pc) then Charge(rs[0], sl) else 0) + Occupants(rs[1..], sl)
  }

  lemma {:induction false} SumsUpdate(rs: seq<Request>, i: nat, r: Request, sl: Slot, v: nat)
    requires i < |rs|
    ensures Charged(rs[i := r], sl) == Charged(rs, sl) - Charge(rs[i], sl) + Charge(r, sl)
    ensures AllPassed(rs[i := r], sl, v) == AllPassed(rs, sl, v) - PassedUpTo(rs[i], sl, v) + PassedUpTo(r, sl, v)
    ensures Charged(rs, sl) >= Charge(rs[i], sl)
  {
    if i == 0 {
      assert rs[i := r][1..] == rs[1..];
    } else {
      assert rs[i := r][1..] == rs[1..][i - 1 := r];
      SumsUpdate(rs[1..], i - 1, r, sl, v);
    }
  }

  lemma {:induction false} PassedAreCharged(rs: seq<Request>, sl: Slot, v: nat)
    ensures AllPassed(rs, sl, v) <= Charged(rs, sl)
  {
    if |rs| > 0 {
      PassedAreCharged(rs[1..], sl, v);
    }
  }

  lemma {:induction false} NothingCharged(rs: seq<Request>, sl: Slot, v: nat)
    requires forall i :: 0 <= i < |rs| ==> rs[i].pc.Fresh?
    ensures Charged(rs, sl) == AllPassed(rs, sl, v) == 0
  {
    if |rs| > 0 {
      NothingCharged(rs[1..], sl, v);
    }
  }

  // ----- the invariant

  /** A slot is held only under a limit, and whoever is let through holds one wherever there is one. */
  ghost predicate Sound(r: Request) {
    && (HoldsP(r.pc) ==> ProjectLimited(r))
    && (HoldsK(r.pc) ==> KeyLimited(r))
    && (r.pc.WantK? ==> KeyLimited(r))
    && (r.pc.WantP? ==> ProjectLimited(r))
    && ((r.pc.WantK? || LetThrough(r.pc)) ==> r.pc.p == ProjectLimited(r))
    && (LetThrough(r.pc) ==> r.pc.k == KeyLimited(r))
    && (r.pc.Recording? || r.pc.Recorded? ==> r.pc.pr == !r.pc.p)
    && (r.pc.Recorded? ==> r.pc.kr == (r.key.Some? && !r.pc.k))
  }

  ghost predicate RowOk(s: State, sl: Slot) {
    && Read(s, sl) == Charged(s.reqs, sl)
    && (forall v: nat :: AllPassed(s.reqs, sl, v) <= v)
  }

  ghost predicate Inv(s: State) {
    && (forall i :: 0 <= i < |s.reqs| ==> Sound(s.reqs[i]))
    && (forall sl :: RowOk(s, sl))
  }

  lemma StepSound(s: State, a: Action)
    requires Enabled(s, a) && Sound(s.reqs[a.i])
    ensures Sound(NextRequest(s, a))
  {
  }

  function Delta(e: Effect, sl: Slot): int {
    match e
    case NoEffect => 0
    case Up(x) => if x == sl then 1 else 0
    case Down(x) => if x == sl then -1 else 0
  }

  lemma StepChargesProject(s: State, a: Action, id: int, minute: int)
    requires Enabled(s, a) && Sound(s.reqs[a.i])
    ensures var sl := Slot(Project(id), minute);
      Charge(NextRequest(s, a), sl) == Charge(s.reqs[a.i], sl) + Delta(EffectOf(s, a), sl)
  {
  }

  lemma StepChargesKey(s: State, a: Action, id: int, minute: int)
    requires Enabled(s, a) && Sound(s.reqs[a.i])
    ensures var sl := Slot(Key(id), minute);
      Charge(NextRequest(s, a), sl) == Charge(s.reqs[a.i], sl) + Delta(EffectOf(s, a), sl)
  {
  }

  /** What a statement adds to a row is what its request is charged more or less. */
  lemma StepCharge(s: State, a: Action, sl: Slot)
    requires Enabled(s, a) && Sound(s.reqs[a.i])
    ensures Charge(NextRequest(s, a), sl) == Charge(s.reqs[a.i], sl) + Delta(EffectOf(s, a), sl)
  {
    match sl.tier
    case Project(id) => StepChargesProject(s, a, id, sl.minute);
    case Key(id) => StepChargesKey(s, a, id, sl.minute);
  }

  /** A request newly passes a limit only within it. */
  lemma StepPassed(s: State, a: Action, sl: Slot)
    requires Enabled(s, a) && Sound(s.reqs[a.i])
    ensures Passed(NextRequest(s, a), sl) <= Passed(s.reqs[a.i], sl)
         || (Passed(NextRequest(s, a), sl) == Passed(s.reqs[a.i], sl) + 1 && Read(s, sl) + 1 <= CapOf(s.reqs[a.i], sl))
  {
  }

  lemma StepRow(s: State, a: Action, sl: Slot)
    requires Enabled(s, a) && Sound(s.reqs[a.i]) && RowOk(s, sl)
    ensures RowOk(Apply(s, a), sl)
  {
    StepCharge(s, a, sl);
    SumsUpdate(s.reqs, a.i, NextRequest(s, a), sl, 0);
    DoReads(s, EffectOf(s, a), sl);
    forall v: nat ensures AllPassed(Apply(s, a).reqs, sl, v) <= v {
      StepPassedUpTo(s, a, sl, v);
    }
  }

  lemma StepPassedUpTo(s: State, a: Action, sl: Slot, v: nat)
    requires Enabled(s, a) && Sound(s.reqs[a.i]) && Read(s, sl) == Charged(s.reqs, sl) && AllPassed(s.reqs, sl, v) <= v
    ensures AllPassed(Apply(s, a).reqs, sl, v) <= v
  {
    StepPassed(s, a, sl);
    SumsUpdate(s.reqs, a.i, NextRequest(s, a), sl, v);
    PassedAreCharged(s.reqs, sl, v);
  }

  /** A release that has something to release subtracts exactly one. */
  lemma DoReads(s: State, e: Effect, sl: Slot)
    requires Read(s, sl) + Delta(e, sl) >= 0
    ensures Read(State(Do(s, e), s.reqs), sl) == Read(s, sl) + Delta(e, sl)
  {
  }

  lemma StepInv(s: State, a: Action)
    requires Inv(s) && Enabled(s, a)
    ensures Inv(Apply(s, a))
  {
    StepSound(s, a);
    forall sl ensures RowOk(Apply(s, a), sl) {
      StepRow(s, a, sl);
    }
  }

  // ----- runs

  ghost predicate IsRun(states: seq<State>, acts: seq<Action>) {
    && |states| == |acts| + 1
    && states[0].counters == map[] && (forall i :: 0 <= i < |states[0].reqs| ==> states[0].reqs[i].pc.Fresh?)
    && (forall k :: 0 <= k < |acts| ==> Enabled(states[k], acts[k]) && states[k + 1] == Apply(states[k], acts[k]))
  }

  lemma {:induction false} RunInv(states: seq<State>, acts: seq<Action>, k: nat)
    requires IsRun(states, acts) && k < |states|
    ensures Inv(states[k])
  {
    if k == 0 {
      forall sl ensures RowOk(states[0], sl) {
        forall v: nat ensures AllPassed(states[0].reqs, sl, v) <= v && Charged(states[0].reqs, sl) == 0 {
          NothingCharged(states[0].reqs, sl, v);
        }
        NothingCharged(states[0].reqs, sl, 0);
      }
    } else {
      RunInv(states, acts, k - 1);
      StepInv(states[k - 1], acts[k - 1]);
    }
  }

  /** Requests of one minute let through under a cap of at most `v`. */
  function Through(rs: seq<Request>, sl: Slot, v: nat): nat {
    if |rs| == 0 then 0 else (if LetThrough(rs[0].pc) then PassedUpTo(rs[0], sl, v) else 0) + Through(rs[1..], sl, v)
  }

  lemma {:induction false} ThroughHavePassed(rs: seq<Request>, sl: Slot, v: nat)
    ensures Through(rs, sl, v) <= AllPassed(rs, sl, v)
  {
    if |rs| > 0 {
      ThroughHavePassed(rs[1..], sl, v);
    }
  }

  /** In every state of every run, whatever failed and whatever caps the requests carry: of one minute of one tier
      no more requests are ever let through under caps of at most `v` than `v`. Where all carry the same cap this
      is every request the cap applies to. */
  lemma NeverAboveLimit(states: seq<State>, acts: seq<Action>, k: nat, sl: Slot, v: nat)
    requires IsRun(states, acts) && k < |states|
    ensures Through(states[k].reqs, sl, v) <= v
  {
    RunInv(states, acts, k);
    assert RowOk(states[k], sl);
    ThroughHavePassed(states[k].reqs, sl, v);
  }

  /** A reservation is turned away exactly when the limit's worth of requests is already charged to the
      row, counting those that are about to give their slot back. */
  lemma TurnedAwayIffFull(states: seq<State>, acts: seq<Action>, k: nat)
    requires IsRun(states, acts) && k < |acts|
    ensures var s, r := states[k], states[k].reqs[acts[k].i];
      && (acts[k].ReserveP? ==> (NextPc(s, acts[k]).OverP? <==> Charged(s.reqs, PSlot(r)) >= r.caps.project))
      && (acts[k].ReserveK? ==> (NextPc(s, acts[k]).OverK? <==> Charged(s.reqs, KSlot(r)) >= r.caps.key))
  {
    RunInv(states, acts, k);
    var r := states[k].reqs[acts[k].i];
    assert RowOk(states[k], PSlot(r));
    if acts[k].ReserveK? {
      assert RowOk(states[k], KSlot(r));
    }
  }

  /** No check is in flight and none ended in a store error. */
  ghost predicate Settled(s: State) {
    forall i :: 0 <= i < |s.reqs| ==> var pc := s.reqs[i].pc; pc.Fresh? || pc.Denied? || LetThrough(pc)
  }

  lemma {:induction false} OnlyOccupants(rs: seq<Request>, sl: Slot)
    requires forall i :: 0 <= i < |rs| ==> rs[i].pc.Fresh? || rs[i].pc.Denied? || LetThrough(rs[i].pc)
    ensures Charged(rs, sl) == Occupants(rs, sl)
  {
    if |rs| > 0 {
      OnlyOccupants(rs[1..], sl);
    }
  }

  /** Once the checks have finished without store errors no row holds a phantom: it counts exactly the
      requests that were let through and still occupy it. */
  lemma NoPhantomSlots(states: seq<State>, acts: seq<Action>, k: nat, sl: Slot)
    requires IsRun(states, acts) && k < |states| && Settled(states[k])
    ensures Read(states[k], sl) == Occupants(states[k].reqs, sl)
  {
    RunInv(states, acts, k);
    assert RowOk(states[k], sl);
    OnlyOccupants(states[k].reqs, sl);
  }

  /** A recorded request is counted once in its project and once in its key, in exactly one minute each:
      the minute of its check under a limit, the minute of its recording without one. */
  lemma CountedOncePerTier(states: seq<State>, acts: seq<Action>, k: nat, i: nat, minute: int)
    requires IsRun(states, acts) && k < |states| && i < |states[k].reqs| && states[k].reqs[i].pc.Recorded?
    ensures var r := states[k].reqs[i];
      && Charge(r, Slot(Project(r.project), minute))
         == One(minute == if ProjectLimited(r) then r.minute else r.pc.at)
      && (r.key.Some? ==>
            Charge(r, Slot(Key(r.key.value), minute)) == One(minute == if KeyLimited(r) then r.minute else r.pc.at))
  {
    RunInv(states, acts, k);
    assert Sound(states[k].reqs[i]);
  }
}
