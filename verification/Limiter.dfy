/** The check and the recording of one request as the code runs them (internal/limits/limits.go: CheckSubject,
    rollback, RecordSubject), statement by statement against the store. Each run is a path of the machine in Limits,
    so what is proved there for every interleaving is about this code. */
module Limiter {
  import opened Basics
  import opened Limits

  /** Where a list of actions leads, if each is enabled in turn. */
  ghost function Steps(s: State, acts: seq<Action>): Option<State> {
    if acts == [] then Some(s)
    else
      match Steps(s, acts[..|acts| - 1])
      case None => None
      case Some(t) => if Enabled(t, acts[|acts| - 1]) then Some(Apply(t, acts[|acts| - 1])) else None
  }

  lemma StepOn(s: State, acts: seq<Action>, t: State, a: Action)
    requires Steps(s, acts) == Some(t) && Enabled(t, a)
    ensures Steps(s, acts + [a]) == Some(Apply(t, a))
  {
    assert (acts + [a])[..|acts|] == acts;
  }

  /** What one request's statements add to a row is what the request is charged with in it. */
  lemma {:induction false} StepsConserve(s: State, acts: seq<Action>, sl: Slot)
    requires Steps(s, acts).Some? && |s.reqs| == 1 && Sound(s.reqs[0]) && Read(s, sl) >= Charge(s.reqs[0], sl)
    ensures var t := Steps(s, acts).value;
      && |t.reqs| == 1 && Sound(t.reqs[0])
      && Read(t, sl) - Charge(t.reqs[0], sl) == Read(s, sl) - Charge(s.reqs[0], sl)
  {
    if acts != [] {
      var before, a := acts[..|acts| - 1], acts[|acts| - 1];
      StepsConserve(s, before, sl);
      var t := Steps(s, before).value;
      StepSound(t, a);
      StepCharge(t, a, sl);
      DoReads(t, EffectOf(t, a), sl);
    }
  }

  /** The table after a statement that adds to a row, or takes from it down to zero. */
  function Raised(counters: map<Slot, int>, sl: Slot): map<Slot, int> {
    counters[sl := (if sl in counters then counters[sl] else 0) + 1]
  }

  function Lowered(counters: map<Slot, int>, sl: Slot): map<Slot, int> {
    var n := (if sl in counters then counters[sl] else 0) - 1;
    counters[sl := if n > 0 then n else 0]
  }

  /** How a statement goes: well, without effect, or with its effect and an error all the same. */
  datatype Fault = Fine | Lost | Blurred

  /** The usage tables. How its statements go is told with each. */
  class Store {
    var counters: map<Slot, int>

    method Reserve(sl: Slot, f: Fault) returns (n: Option<int>)
      modifies this
      ensures n == if f.Fine? then Some(old(Get(sl)) + 1) else None
      ensures counters == if f.Lost? then old(counters) else Raised(old(counters), sl)
    {
      n := None;
      if !f.Lost? {
        counters := counters[sl := Get(sl) + 1];
      }
      if f.Fine? {
        n := Some(Get(sl));
      }
    }

    method Release(sl: Slot, f: Fault) returns (ok: bool)
      modifies this
      ensures ok <==> f.Fine?
      ensures counters == if f.Lost? then old(counters) else Lowered(old(counters), sl)
    {
      if !f.Lost? {
        var n := Get(sl) - 1;
        counters := counters[sl := if n > 0 then n else 0];
      }
      ok := f.Fine?;
    }

    /** Adds usage to a row, and the request itself where it still has to be counted. */
    method Record(sl: Slot, countRequest: bool, f: Fault) returns (ok: bool)
      modifies this
      ensures ok <==> f.Fine?
      ensures counters == if countRequest && !f.Lost? then Raised(old(counters), sl) else old(counters)
    {
      if countRequest && !f.Lost? {
        counters := counters[sl := Get(sl) + 1];
      }
      ok := f.Fine?;
    }

    function Get(sl: Slot): int
      reads this
    {
      if sl in counters then counters[sl] else 0
    }
  }

  // ---- The check ----

  /** What the caller gets: reserved says that the project's minute slot is held. */
  datatype Decision = Allowed(reserved: bool) | Refused | Failed

  /** A path of the machine that ends with the store as it is now. */
  ghost predicate Follows(start: State, acts: seq<Action>, now: State, counters: map<Slot, int>) {
    Steps(start, acts) == Some(now) && now.counters == counters && |now.reqs| == 1
  }

  /** One more statement of the request. */
  lemma Goes(start: State, acts: seq<Action>, now: State, a: Action)
    requires Steps(start, acts) == Some(now) && |now.reqs| == 1 && Enabled(now, a)
    ensures var t := Apply(now, a);
      && Follows(start, acts + [a], t, Do(now, EffectOf(now, a)))
      && t.reqs[0] == NextRequest(now, a)
  {
    StepOn(start, acts, now, a);
  }

  // Each store statement of the check, as one step of the machine.

  lemma ReservedProject(now: State, sl: Slot, answered: bool, applied: bool, a: Action)
    requires |now.reqs| == 1 && now.reqs[0].pc.WantP? && sl == PSlot(now.reqs[0]) && (answered ==> applied)
    requires a == if answered then ReserveP(0) else ReservePFails(0, applied)
    ensures Enabled(now, a) && Do(now, EffectOf(now, a)) == if applied then Raised(now.counters, sl) else now.counters
    ensures var pc := NextPc(now, a);
      if answered
      then pc == if Read(now, sl) + 1 > now.reqs[0].caps.project then OverP else AfterProject(now.reqs[0], true)
      else pc.Broken?
  {
  }

  lemma ReservedKey(now: State, sl: Slot, answered: bool, applied: bool, a: Action)
    requires |now.reqs| == 1 && now.reqs[0].pc.WantK? && now.reqs[0].key.Some? && sl == KSlot(now.reqs[0]) && (answered ==> applied)
    requires a == if answered then ReserveK(0) else ReserveKFails(0, applied)
    ensures Enabled(now, a) && Do(now, EffectOf(now, a)) == if applied then Raised(now.counters, sl) else now.counters
    ensures var pc, p := NextPc(now, a), now.reqs[0].pc.p;
      if answered then pc == if Read(now, sl) + 1 > now.reqs[0].caps.key then OverK(p) else Admitted(p, true)
      else if p then pc.FailK? && pc.p else pc.Broken?
  {
  }

  lemma ReleasedProject(now: State, sl: Slot, ok: bool, applied: bool, a: Action)
    requires |now.reqs| == 1 && GivesBackP(now.reqs[0].pc) && sl == PSlot(now.reqs[0]) && (ok ==> applied)
    requires a == if ok then ReleaseP(0) else ReleasePFails(0, applied)
    ensures Enabled(now, a) && Do(now, EffectOf(now, a)) == if applied then Lowered(now.counters, sl) else now.counters
    ensures var pc, was := NextPc(now, a), now.reqs[0].pc;
      if !ok || was.FailK? then pc.Broken? else pc == if was.OverP? then Denied else OverK2
  {
  }

  lemma ReleasedKey(now: State, sl: Slot, ok: bool, applied: bool, a: Action)
    requires |now.reqs| == 1 && GivesBackK(now.reqs[0].pc) && now.reqs[0].key.Some? && sl == KSlot(now.reqs[0]) && (ok ==> applied)
    requires a == if ok then ReleaseK(0) else ReleaseKFails(0, applied)
    ensures Enabled(now, a) && Do(now, EffectOf(now, a)) == if applied then Lowered(now.counters, sl) else now.counters
    ensures var pc := NextPc(now, a); if ok then pc.Denied? else pc.Broken?
  {
  }

  method ReserveProject(store: Store, sl: Slot, f: Fault, ghost start: State, ghost acts: seq<Action>, ghost now: State)
    returns (n: Option<int>, ghost acts': seq<Action>, ghost now': State)
    requires Follows(start, acts, now, store.counters) && now.reqs[0].pc.WantP? && sl == PSlot(now.reqs[0])
    modifies store
    ensures Follows(start, acts', now', store.counters) && now'.reqs[0] == now.reqs[0].(pc := now'.reqs[0].pc)
    ensures n == if f.Fine? then Some(old(store.Get(sl)) + 1) else None
    ensures forall x :: x != sl ==> store.Get(x) == old(store.Get(x))
    ensures n.None? ==> now'.reqs[0].pc.Broken?
    ensures n.Some? ==>
      now'.reqs[0].pc == if n.value > now.reqs[0].caps.project then OverP else AfterProject(now.reqs[0], true)
  {
    n := store.Reserve(sl, f);
    ghost var applied := !f.Lost?;
    ghost var a := if n.Some? then ReserveP(0) else ReservePFails(0, applied);
    ReservedProject(now, sl, n.Some?, applied, a);
    Goes(start, acts, now, a);
    acts', now' := acts + [a], Apply(now, a);
  }

  method ReserveKey(store: Store, sl: Slot, f: Fault, ghost start: State, ghost acts: seq<Action>, ghost now: State)
    returns (n: Option<int>, ghost acts': seq<Action>, ghost now': State)
    requires Follows(start, acts, now, store.counters)
    requires now.reqs[0].pc.WantK? && now.reqs[0].key.Some? && sl == KSlot(now.reqs[0])
    modifies store
    ensures Follows(start, acts', now', store.counters) && now'.reqs[0] == now.reqs[0].(pc := now'.reqs[0].pc)
    ensures n == if f.Fine? then Some(old(store.Get(sl)) + 1) else None
    ensures n.None? ==> if now.reqs[0].pc.p then now'.reqs[0].pc.FailK? && now'.reqs[0].pc.p else now'.reqs[0].pc.Broken?
    ensures n.Some? ==>
      now'.reqs[0].pc == if n.value > now.reqs[0].caps.key then OverK(now.reqs[0].pc.p) else Admitted(now.reqs[0].pc.p, true)
  {
    n := store.Reserve(sl, f);
    ghost var applied := !f.Lost?;
    ghost var a := if n.Some? then ReserveK(0) else ReserveKFails(0, applied);
    ReservedKey(now, sl, n.Some?, applied, a);
    Goes(start, acts, now, a);
    acts', now' := acts + [a], Apply(now, a);
  }

  method ReleaseProject(store: Store, sl: Slot, f: Fault, ghost start: State, ghost acts: seq<Action>, ghost now: State)
    returns (ok: bool, ghost acts': seq<Action>, ghost now': State)
    requires Follows(start, acts, now, store.counters) && GivesBackP(now.reqs[0].pc) && sl == PSlot(now.reqs[0])
    modifies store
    ensures Follows(start, acts', now', store.counters) && now'.reqs[0] == now.reqs[0].(pc := now'.reqs[0].pc)
    ensures ok <==> f.Fine?
    ensures forall x :: x != sl ==> store.Get(x) == old(store.Get(x))
    ensures !ok || now.reqs[0].pc.FailK? ==> now'.reqs[0].pc.Broken?
    ensures ok && !now.reqs[0].pc.FailK? ==> now'.reqs[0].pc == if now.reqs[0].pc.OverP? then Denied else OverK2
  {
    ok := store.Release(sl, f);
    ghost var applied := !f.Lost?;
    ghost var a := if ok then ReleaseP(0) else ReleasePFails(0, applied);
    ReleasedProject(now, sl, ok, applied, a);
    Goes(start, acts, now, a);
    acts', now' := acts + [a], Apply(now, a);
  }

  method ReleaseKey(store: Store, sl: Slot, f: Fault, ghost start: State, ghost acts: seq<Action>, ghost now: State)
    returns (ok: bool, ghost acts': seq<Action>, ghost now': State)
    requires Follows(start, acts, now, store.counters)
    requires GivesBackK(now.reqs[0].pc) && now.reqs[0].key.Some? && sl == KSlot(now.reqs[0])
    modifies store
    ensures Follows(start, acts', now', store.counters) && now'.reqs[0] == now.reqs[0].(pc := now'.reqs[0].pc)
    ensures ok <==> f.Fine?
    ensures if ok then now'.reqs[0].pc.Denied? else now'.reqs[0].pc.Broken?
  {
    ok := store.Release(sl, f);
    ghost var applied := !f.Lost?;
    ghost var a := if ok then ReleaseK(0) else ReleaseKFails(0, applied);
    ReleasedKey(now, sl, ok, applied, a);
    Goes(start, acts, now, a);
    acts', now' := acts + [a], Apply(now, a);
  }

  /** How the statements of one check go, should they be made. */
  datatype Faults = Faults(reserveP: Fault, reserveK: Fault, releaseP: Fault, releaseK: Fault)

  predicate AllFine(fs: Faults) {
    fs.reserveP.Fine? && fs.reserveK.Fine? && fs.releaseP.Fine? && fs.releaseK.Fine?
  }

  /** Gives back the slots a refused request had taken, the project's first; the first failure ends it. */
  method Rollback(store: Store, projectSlot: Slot, keySlot: Option<Slot>, project: bool, key: bool,
                  fs: Faults, ghost start: State, ghost acts: seq<Action>, ghost now: State)
    returns (ok: bool, ghost acts': seq<Action>, ghost now': State)
    requires Follows(start, acts, now, store.counters)
    requires projectSlot == PSlot(now.reqs[0]) && (key ==> now.reqs[0].key.Some? && keySlot == Some(KSlot(now.reqs[0])))
    requires if key then now.reqs[0].pc == OverK(project)
             else project && (now.reqs[0].pc.OverP? || (now.reqs[0].pc.FailK? && now.reqs[0].pc.p))
    modifies store
    ensures Follows(start, acts', now', store.counters) && now'.reqs[0] == now.reqs[0].(pc := now'.reqs[0].pc)
    ensures if ok && !now.reqs[0].pc.FailK? then now'.reqs[0].pc.Denied? else now'.reqs[0].pc.Broken?
    ensures ok <==> (project ==> fs.releaseP.Fine?) && (key ==> fs.releaseK.Fine?)
    ensures !key ==> forall x :: x != projectSlot ==> store.Get(x) == old(store.Get(x))
  {
    ok, acts', now' := true, acts, now;
    if project {
      ok, acts', now' := ReleaseProject(store, projectSlot, fs.releaseP, start, acts', now');
    }
    if ok && key && keySlot.Some? {
      ok, acts', now' := ReleaseKey(store, keySlot.value, fs.releaseK, start, acts', now');
    }
  }

  /** The project's slot; goOn says that the check goes on to the key. */
  method TakeProjectSlot(store: Store, sl: Slot, cap: nat, fs: Faults, ghost start: State, ghost acts: seq<Action>, ghost now: State)
    returns (d: Decision, goOn: bool, ghost acts': seq<Action>, ghost now': State)
    requires Follows(start, acts, now, store.counters) && now.reqs[0].pc.WantP? && cap == now.reqs[0].caps.project && sl == PSlot(now.reqs[0])
    modifies store
    ensures Follows(start, acts', now', store.counters) && now'.reqs[0] == now.reqs[0].(pc := now'.reqs[0].pc)
    ensures if goOn then now'.reqs[0].pc == AfterProject(now.reqs[0], true) else Ends(now'.reqs[0].pc, d)
    ensures goOn <==> fs.reserveP.Fine? && old(store.Get(sl)) < cap
    ensures !goOn ==> d == if fs.reserveP.Fine? && fs.releaseP.Fine? then Refused else Failed
    ensures forall x :: x != sl ==> store.Get(x) == old(store.Get(x))
  {
    var n;
    n, acts', now' := ReserveProject(store, sl, fs.reserveP, start, acts, now);
    d, goOn := Failed, false;
    if n.Some? {
      if n.value > cap {
        var ok;
        ok, acts', now' := Rollback(store, sl, None, true, false, fs, start, acts', now');
        d := if ok then Refused else Failed;
      } else {
        goOn := true;
      }
    }
  }

  /** The decision says where the request stands. */
  predicate Ends(pc: Pc, d: Decision) {
    match d
    case Allowed(reserved) => pc.Admitted? && pc.p == reserved
    case Refused => pc.Denied?
    case Failed => pc.Broken?
  }

  /** The key's slot, and with it the end of the check. */
  method TakeKeySlot(store: Store, projectSlot: Slot, sl: Slot, cap: nat, reserved: bool,
                     fs: Faults, ghost start: State, ghost acts: seq<Action>, ghost now: State)
    returns (d: Decision, ghost acts': seq<Action>, ghost now': State)
    requires Follows(start, acts, now, store.counters)
    requires var r := now.reqs[0];
      r.pc == WantK(reserved) && cap == r.caps.key && r.key.Some? && projectSlot == PSlot(r) && sl == KSlot(r)
    modifies store
    ensures Follows(start, acts', now', store.counters) && now'.reqs[0] == now.reqs[0].(pc := now'.reqs[0].pc)
    ensures Ends(now'.reqs[0].pc, d)
    ensures d == if !fs.reserveK.Fine? then Failed
                 else if old(store.Get(sl)) < cap then Allowed(reserved)
                 else if (reserved ==> fs.releaseP.Fine?) && fs.releaseK.Fine? then Refused else Failed
  {
    var n;
    n, acts', now' := ReserveKey(store, sl, fs.reserveK, start, acts, now);
    var ok;
    if n.None? {
      if reserved {
        ok, acts', now' := Rollback(store, projectSlot, Some(sl), true, false, fs, start, acts', now');
      }
      d := Failed;
    } else if n.value > cap {
      ok, acts', now' := Rollback(store, projectSlot, Some(sl), reserved, true, fs, start, acts', now');
      d := if ok then Refused else Failed;
    } else {
      d := Allowed(reserved);
    }
  }

  lemma TokensChecked(start: State, a: Action)
    requires |start.reqs| == 1 && start.reqs[0].pc.Checking? && (a == ReadFails(0) || a == DenyTokens(0) || a == PassTokens(0))
    ensures Enabled(start, a) && Follows(start, [a], Apply(start, a), start.counters)
    ensures var r, r' := start.reqs[0], Apply(start, a).reqs[0];
      && r' == r.(pc := r'.pc)
      && (a.ReadFails? ==> r'.pc.Broken?) && (a.DenyTokens? ==> r'.pc.Denied?)
      && (a.PassTokens? ==> r'.pc == if ProjectLimited(r) then WantP else AfterProject(r, false))
  {
    Goes(start, [], start, a);
    assert [] + [a] == [a];
  }

  /** The slots of both tiers, in order, where there is a limit. */
  method TakeSlots(store: Store, projectSlot: Slot, keySlot: Option<Slot>, caps: Caps,
                   fs: Faults, ghost start: State, ghost acts: seq<Action>, ghost now: State)
    returns (d: Decision, ghost acts': seq<Action>, ghost now': State)
    requires Follows(start, acts, now, store.counters)
    requires var r := now.reqs[0];
      && r.pc == (if ProjectLimited(r) then WantP else AfterProject(r, false))
      && projectSlot == PSlot(r) && keySlot == (if r.key.Some? then Some(KSlot(r)) else None) && caps == r.caps
    modifies store
    ensures Follows(start, acts', now', store.counters) && Ends(now'.reqs[0].pc, d)
    ensures AllFine(fs) ==> !d.Failed?
    ensures AllFine(fs) ==>
      (d.Refused? <==> (|| (caps.project > 0 && old(store.Get(projectSlot)) >= caps.project)
                        || (keySlot.Some? && caps.key > 0 && old(store.Get(keySlot.value)) >= caps.key)))
  {
    acts', now' := acts, now;
    var goOn := true;
    var reserved := caps.project > 0;
    if reserved {
      d, goOn, acts', now' := TakeProjectSlot(store, projectSlot, caps.project, fs, start, acts', now');
    }
    if goOn {
      if keySlot.Some? && caps.key > 0 {
        d, acts', now' := TakeKeySlot(store, projectSlot, keySlot.value, caps.key, reserved, fs, start, acts', now');
      } else {
        d := Allowed(reserved);
      }
    }
  }

  /** The whole check of a request against a store nobody else touches meanwhile. Its statements are a path of the
      machine, and each counter moves by exactly what the request holds at the end: nothing when it was refused, one
      slot of every limited tier when it was let through. With usage read, statements that go well and token budgets
      not spent, it is refused exactly when the project's or the key's requests of the minute are used up. */
  method CheckSubject(store: Store, project: int, key: Option<int>, caps: Caps, minute: int, read: bool, overBudget: bool, fs: Faults)
    returns (d: Decision, ghost acts: seq<Action>, ghost out: Request)
    modifies store
    ensures Steps(State(old(store.counters), [Request(project, key, caps, minute, Checking)]), acts) == Some(State(store.counters, [out]))
    ensures Ends(out.pc, d)
    ensures forall sl :: old(store.Get(sl)) >= 0 ==> store.Get(sl) == old(store.Get(sl)) + Charge(out, sl)
    ensures d.Refused? ==> forall sl :: old(store.Get(sl)) >= 0 ==> store.Get(sl) == old(store.Get(sl))
    ensures d.Allowed? ==> out.pc == Admitted(ProjectLimited(out), KeyLimited(out))
    ensures !read ==> d.Failed?
    ensures read && overBudget ==> d.Refused?
    ensures read && AllFine(fs) ==> !d.Failed?
    ensures read && !overBudget && AllFine(fs) ==>
      (d.Refused? <==> (|| (caps.project > 0 && old(store.Get(Slot(Project(project), minute))) >= caps.project)
                        || (key.Some? && caps.key > 0 && old(store.Get(Slot(Key(key.value), minute))) >= caps.key)))
  {
    ghost var r := Request(project, key, caps, minute, Checking);
    ghost var start := State(store.counters, [r]);
    ghost var now;
    var projectSlot := Slot(Project(project), minute);
    var keySlot := if key.Some? then Some(Slot(Key(key.value), minute)) else None;
    ghost var a := if !read then ReadFails(0) else if overBudget then DenyTokens(0) else PassTokens(0);
    TokensChecked(start, a);
    acts, now := [a], Apply(start, a);
    if !read || overBudget {
      d := if read then Refused else Failed;
    } else {
      d, acts, now := TakeSlots(store, projectSlot, keySlot, caps, fs, start, acts, now);
    }
    out := now.reqs[0];
    assert now == State(store.counters, [out]);
    Accounts(start, acts, now);
  }

  /** The path of a request that started its check with nothing. */
  lemma Accounts(start: State, acts: seq<Action>, now: State)
    requires Steps(start, acts) == Some(now) && |start.reqs| == 1 && start.reqs[0].pc.Checking?
    ensures |now.reqs| == 1 && Sound(now.reqs[0])
    ensures forall sl :: Read(start, sl) >= 0 ==> Read(now, sl) == Read(start, sl) + Charge(now.reqs[0], sl)
  {
    forall sl | Read(start, sl) >= 0 ensures Read(now, sl) == Read(start, sl) + Charge(now.reqs[0], sl) {
      StepsConserve(start, acts, sl);
    }
    StaysSound(start, acts);
  }

  lemma {:induction false} StaysSound(s: State, acts: seq<Action>)
    requires Steps(s, acts).Some? && |s.reqs| == 1 && Sound(s.reqs[0])
    ensures var t := Steps(s, acts).value; |t.reqs| == 1 && Sound(t.reqs[0])
  {
    if acts != [] {
      StaysSound(s, acts[..|acts| - 1]);
      StepSound(Steps(s, acts[..|acts| - 1]).value, acts[|acts| - 1]);
    }
  }

  // ---- The recording ----

  lemma RecordedProject(now: State, sl: Slot, countRequest: bool, ok: bool, applied: bool, a: Action)
    requires |now.reqs| == 1 && now.reqs[0].pc.Admitted? && sl.tier == Project(now.reqs[0].project) && (ok ==> applied)
    requires countRequest == !now.reqs[0].pc.p && a == if ok then RecordP(0, sl.minute) else RecordPFails(0, sl.minute, applied)
    ensures Enabled(now, a)
    ensures Do(now, EffectOf(now, a)) == if applied && countRequest then Raised(now.counters, sl) else now.counters
    ensures var pc := NextPc(now, a);
      if ok then pc.Recording? && pc.at == sl.minute else pc.Unrecorded?
  {
  }

  lemma RecordedKey(now: State, sl: Slot, ok: bool, applied: bool, a: Action)
    requires |now.reqs| == 1 && now.reqs[0].pc.Recording? && now.reqs[0].key.Some? && (ok ==> applied)
    requires sl == Slot(Key(now.reqs[0].key.value), now.reqs[0].pc.at) && a == if ok then RecordK(0) else RecordKFails(0, applied)
    ensures Enabled(now, a)
    ensures Do(now, EffectOf(now, a)) == if applied && now.reqs[0].caps.key == 0 then Raised(now.counters, sl) else now.counters
    ensures var pc := NextPc(now, a); if ok then pc.Recorded? else pc.Unrecorded?
  {
  }

  method RecordProject(store: Store, sl: Slot, countRequest: bool, f: Fault, ghost now: State)
    returns (ok: bool, ghost acts: seq<Action>, ghost now': State)
    requires now.counters == store.counters && |now.reqs| == 1 && now.reqs[0].pc.Admitted?
    requires sl.tier == Project(now.reqs[0].project) && countRequest == !now.reqs[0].pc.p
    modifies store
    ensures Follows(now, acts, now', store.counters) && now'.reqs[0] == now.reqs[0].(pc := now'.reqs[0].pc)
    ensures ok <==> f.Fine?
    ensures var pc := now'.reqs[0].pc; if ok then pc.Recording? && pc.at == sl.minute else pc.Unrecorded?
  {
    ok := store.Record(sl, countRequest, f);
    ghost var applied := !f.Lost?;
    ghost var a := if ok then RecordP(0, sl.minute) else RecordPFails(0, sl.minute, applied);
    RecordedProject(now, sl, countRequest, ok, applied, a);
    Goes(now, [], now, a);
    acts, now' := [] + [a], Apply(now, a);
  }

  method RecordKeyTier(store: Store, sl: Slot, cap: nat, f: Fault, ghost start: State, ghost acts: seq<Action>, ghost now: State)
    returns (ok: bool, ghost acts': seq<Action>, ghost now': State)
    requires Follows(start, acts, now, store.counters) && now.reqs[0].pc.Recording? && now.reqs[0].key.Some?
    requires sl == Slot(Key(now.reqs[0].key.value), now.reqs[0].pc.at) && cap == now.reqs[0].caps.key
    modifies store
    ensures Follows(start, acts', now', store.counters) && now'.reqs[0] == now.reqs[0].(pc := now'.reqs[0].pc)
    ensures ok <==> f.Fine?
    ensures if ok then now'.reqs[0].pc.Recorded? else now'.reqs[0].pc.Unrecorded?
  {
    ok := store.Record(sl, cap == 0, f);
    ghost var applied := !f.Lost?;
    ghost var a := if ok then RecordK(0) else RecordKFails(0, applied);
    RecordedKey(now, sl, ok, applied, a);
    Goes(start, acts, now, a);
    acts', now' := acts + [a], Apply(now, a);
  }

  /** Without a key there is nothing more to count. */
  lemma NoKeyRecorded(start: State, acts: seq<Action>, now: State)
    requires Steps(start, acts) == Some(now) && |now.reqs| == 1 && now.reqs[0].pc.Recording? && now.reqs[0].key.None?
    ensures Enabled(now, RecordK(0)) && Follows(start, acts + [RecordK(0)], Apply(now, RecordK(0)), now.counters)
    ensures Apply(now, RecordK(0)).reqs[0].pc.Recorded?
  {
    Goes(start, acts, now, RecordK(0));
  }

  /** Adds a finished request to both tiers. A path of the machine again. */
  method RecordSubject(store: Store, project: int, key: Option<int>, caps: Caps, countRequest: bool, at: int,
                       fp: Fault, fk: Fault, ghost r: Request)
    returns (ok: bool, ghost acts: seq<Action>, ghost out: Request)
    requires r.pc.Admitted? && r.project == project && r.key == key && r.caps == caps && countRequest == !r.pc.p
    modifies store
    ensures Steps(State(old(store.counters), [r]), acts) == Some(State(store.counters, [out]))
    ensures if ok then out.pc.Recorded? else out.pc.Unrecorded?
    ensures ok <==> fp.Fine? && (key.Some? ==> fk.Fine?)
  {
    ghost var start := State(store.counters, [r]);
    ghost var now;
    ok, acts, now := RecordProject(store, Slot(Project(project), at), countRequest, fp, start);
    if ok && key.Some? {
      ok, acts, now := RecordKeyTier(store, Slot(Key(key.value), at), caps.key, fk, start, acts, now);
    } else if ok {
      NoKeyRecorded(start, acts, now);
      acts, now := acts + [RecordK(0)], Apply(now, RecordK(0));
    }
    out := now.reqs[0];
    assert now == State(store.counters, [out]);
  }
}
