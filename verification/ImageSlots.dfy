/** The fair, process-wide semaphore in front of image downloads
    (internal/provider/images.go: acquire, release, dequeue, wakeIfQueueEmpty, broadcast).

    Every critical section under the mutex, and every single operation on the semaphore channel
    outside it, is one atomic action of a state machine over any number of threads. A thread that
    left one action and has not begun the next sits in a program counter of its own, so all
    interleavings of the original are runs of the machine. A wake channel that is closed and
    replaced is a generation number: a thread parked on generation `g` wakes once the current
    generation has moved past `g`. */
module ImageSlots {

  type Tenant = string

  const DEFAULT_MAX_CONCURRENT := 16

  /** The semaphore's capacity; a setting of zero or less takes the default. */
  function MaxConcurrent(setting: int): (cap: nat)
    ensures cap > 0
  {
    if setting > 0 then setting else DEFAULT_MAX_CONCURRENT
  }

  /** How many slots one tenant may claim while somebody else is queueing. */
  function TenantShare(cap: nat): (share: nat)
    requires cap > 0
    ensures if cap == 1 then share == 1 else 1 <= share && 2 * share <= cap < 2 * (share + 1)
  {
    if cap / 2 > 0 then cap / 2 else 1
  }

  // ----- the data the threads share

  /** What the mutex protects, plus the number of tokens in the semaphore channel. */
  datatype Shared = Shared(
    sem: nat,
    inflight: map<Tenant, int>,
    queued: map<Tenant, int>,
    waiting: int,
    wake: nat)

  function Get(m: map<Tenant, int>, t: Tenant): int {
    if t in m then m[t] else 0
  }

  /** `m[t] - 1`, with the entry deleted once it reaches zero. */
  function Drop(m: map<Tenant, int>, t: Tenant): map<Tenant, int> {
    if Get(m, t) - 1 > 0 then m[t := Get(m, t) - 1] else m - {t}
  }

  function Total(sh: Shared, t: Tenant): int {
    Get(sh.inflight, t) + Get(sh.queued, t)
  }

  function Broadcast(sh: Shared): Shared {
    sh.(wake := sh.wake + 1)
  }

  datatype Verdict = MustQueue | GotSpare | MustPark

  /** The first critical section of acquire: claim a place in the queue while inside the share,
      otherwise take spare capacity if nobody entitled is queueing, otherwise park. */
  function EnterShared(cap: nat, sh: Shared, t: Tenant): (Shared, Verdict)
    requires cap > 0
  {
    if Total(sh, t) < TenantShare(cap) then
      (sh.(waiting := sh.waiting + 1, queued := sh.queued[t := Get(sh.queued, t) + 1]), MustQueue)
    else if sh.waiting == 0 && sh.sem < cap then
      (sh.(sem := sh.sem + 1, inflight := sh.inflight[t := Get(sh.inflight, t) + 1]), GotSpare)
    else
      (sh, MustPark)
  }

  /** The critical section after the semaphore send succeeded. */
  function BookShared(sh: Shared, t: Tenant): Shared {
    var booked := sh.(waiting := sh.waiting - 1, queued := Drop(sh.queued, t),
                      inflight := sh.inflight[t := Get(sh.inflight, t) + 1]);
    if booked.waiting == 0 then Broadcast(booked) else booked
  }

  /** The critical section of an acquirer whose wait ran out in the queue. */
  function AbandonShared(sh: Shared, t: Tenant): Shared {
    Broadcast(sh.(waiting := sh.waiting - 1, queued := Drop(sh.queued, t)))
  }

  /** The critical section of release, after the semaphore has been drained. */
  function ReturnShared(sh: Shared, t: Tenant): Shared {
    Broadcast(sh.(inflight := Drop(sh.inflight, t)))
  }

  // ----- the threads

  datatype Pc =
    | Idle                // not in acquire, holds nothing
    | Entering            // at the head of acquire's loop
    | Queued              // counted in queued, selecting between the semaphore and its timeout
    | GotSlot             // the semaphore send went through, not booked yet
    | GaveUp              // the timeout won, not dequeued yet
    | Parked(gen: nat)    // waits for wake generation `gen` to close, or for its timeout
    | Holding             // acquire returned, the download runs
    | Drained             // release has drained the semaphore, not booked yet

  datatype Thread = Thread(tenant: Tenant, pc: Pc)

  datatype State = State(sh: Shared, threads: seq<Thread>)

  datatype Action =
    | Start(i: nat, tenant: Tenant)
    | Enter(i: nat)
    | TakeSlot(i: nat)
    | QueueTimeout(i: nat)
    | Book(i: nat)
    | Abandon(i: nat)
    | WakeUp(i: nat)
    | ParkTimeout(i: nat)
    | Drain(i: nat)
    | Return(i: nat)

  predicate Enabled(cap: nat, s: State, a: Action) {
    a.i < |s.threads| &&
    var pc := s.threads[a.i].pc;
    match a
    case Start(_, _) => pc.Idle?
    case Enter(_) => pc.Entering?
    case TakeSlot(_) => pc.Queued? && s.sh.sem < cap
    case QueueTimeout(_) => pc.Queued?
    case Book(_) => pc.GotSlot?
    case Abandon(_) => pc.GaveUp?
    case WakeUp(_) => pc.Parked? && pc.gen != s.sh.wake
    case ParkTimeout(_) => pc.Parked?
    case Drain(_) => pc.Holding? && s.sh.sem > 0
    case Return(_) => pc.Drained?
  }

  function Move(s: State, i: nat, sh: Shared, pc: Pc): State
    requires i < |s.threads|
  {
    State(sh, s.threads[i := s.threads[i].(pc := pc)])
  }

  function Apply(cap: nat, s: State, a: Action): State
    requires cap > 0 && Enabled(cap, s, a)
  {
    var t := s.threads[a.i].tenant;
    match a
    case Start(i, tenant) => s.(threads := s.threads[i := Thread(tenant, Entering)])
    case Enter(i) =>
      var (sh, v) := EnterShared(cap, s.sh, t);
      Move(s, i, sh, match v case MustQueue => Queued case GotSpare => Holding case MustPark => Parked(sh.wake))
    case TakeSlot(i) => Move(s, i, s.sh.(sem := s.sh.sem + 1), GotSlot)
    case QueueTimeout(i) => Move(s, i, s.sh, GaveUp)
    case Book(i) => Move(s, i, BookShared(s.sh, t), Holding)
    case Abandon(i) => Move(s, i, AbandonShared(s.sh, t), Idle)
    case WakeUp(i) => Move(s, i, s.sh, Entering)
    case ParkTimeout(i) => Move(s, i, s.sh, Idle)
    case Drain(i) => Move(s, i, s.sh.(sem := s.sh.sem - 1), Drained)
    case Return(i) => Move(s, i, ReturnShared(s.sh, t), Idle)
  }

  // ----- counting threads

  datatype Role = Pending | PendingOf(t: Tenant) | BookedOf(t: Tenant) | SlotTaken | Holder

  predicate InQueue(pc: Pc) {
    pc.Queued? || pc.GotSlot? || pc.GaveUp?
  }

  predicate Plays(th: Thread, r: Role) {
    match r
    case Pending => InQueue(th.pc)
    case PendingOf(t) => th.tenant == t && InQueue(th.pc)
    case BookedOf(t) => th.tenant == t && (th.pc.Holding? || th.pc.Drained?)
    case SlotTaken => th.pc.GotSlot? || th.pc.Holding?
    case Holder => th.pc.Holding?
  }

  function One(b: bool): nat { if b then 1 else 0 }

  function Count(ts: seq<Thread>, r: Role): nat {
    if |ts| == 0 then 0 else One(Plays(ts[0], r)) + Count(ts[1..], r)
  }

  lemma {:induction false} CountUpdate(ts: seq<Thread>, i: nat, th: Thread, r: Role)
    requires i < |ts|
    ensures Count(ts[i := th], r) == Count(ts, r) - One(Plays(ts[i], r)) + One(Plays(th, r))
    ensures Count(ts, r) >= One(Plays(ts[i], r))
  {
    if i == 0 {
      assert ts[i := th][1..] == ts[1..];
    } else {
      assert ts[i := th][1..] == ts[1..][i - 1 := th];
      CountUpdate(ts[1..], i - 1, th, r);
    }
  }

  lemma {:induction false} CountZero(ts: seq<Thread>, r: Role)
    ensures Count(ts, r) == 0 <==> forall i :: 0 <= i < |ts| ==> !Plays(ts[i], r)
  {
    if |ts| > 0 {
      CountZero(ts[1..], r);
      assert forall i :: 0 < i < |ts| ==> ts[i] == ts[1..][i - 1];
      assert forall i :: 0 <= i < |ts| - 1 ==> ts[1..][i] == ts[i + 1];
    }
  }

  lemma {:induction false} CountMonotone(ts: seq<Thread>, r: Role, r': Role)
    requires forall th: Thread :: Plays(th, r) ==> Plays(th, r')
    ensures Count(ts, r) <= Count(ts, r')
  {
    if |ts| > 0 {
      CountMonotone(ts[1..], r, r');
    }
  }

  // ----- the invariant

  ghost predicate Tidy(m: map<Tenant, int>) {
    forall t :: t in m ==> m[t] > 0
  }

  /** Every counter says what the threads are doing. */
  ghost predicate Conserved(cap: nat, s: State) {
    && s.sh.sem == Count(s.threads, SlotTaken) <= cap
    && s.sh.waiting == Count(s.threads, Pending)
    && (forall t :: Get(s.sh.queued, t) == Count(s.threads, PendingOf(t)))
    && (forall t :: Get(s.sh.inflight, t) == Count(s.threads, BookedOf(t)))
    && Tidy(s.sh.queued) && Tidy(s.sh.inflight)
  }

  ghost predicate Releasing(s: State) {
    exists i :: 0 <= i < |s.threads| && s.threads[i].pc.Drained?
  }

  /** Nobody sleeps on the current wake channel next to something it is allowed to have. */
  ghost predicate NoLostWakeup(cap: nat, s: State)
    requires cap > 0
  {
    forall i :: 0 <= i < |s.threads| && s.threads[i].pc.Parked? ==>
      && s.threads[i].pc.gen <= s.sh.wake
      && (s.threads[i].pc.gen == s.sh.wake ==>
            && Total(s.sh, s.threads[i].tenant) >= TenantShare(cap)
            && (s.sh.waiting > 0 || s.sh.sem >= cap || Releasing(s)))
  }

  ghost predicate Inv(cap: nat, s: State)
    requires cap > 0
  {
    Conserved(cap, s) && NoLostWakeup(cap, s)
  }

  function Init(n: nat, tenant: Tenant): State {
    State(Shared(0, map[], map[], 0, 0), seq(n, _ => Thread(tenant, Idle)))
  }

  lemma InitInv(cap: nat, n: nat, tenant: Tenant)
    requires cap > 0
    ensures Inv(cap, Init(n, tenant))
  {
    var s := Init(n, tenant);
    forall r: Role ensures Count(s.threads, r) == 0 { CountZero(s.threads, r); }
  }

  /** How one thread's move shifts a count. */
  lemma CountAfter(cap: nat, s: State, a: Action, r: Role)
    requires cap > 0 && Enabled(cap, s, a)
    ensures var s' := Apply(cap, s, a);
      && |s'.threads| == |s.threads|
      && Count(s'.threads, r) == Count(s.threads, r) - One(Plays(s.threads[a.i], r)) + One(Plays(s'.threads[a.i], r))
      && Count(s.threads, r) >= One(Plays(s.threads[a.i], r))
  {
    var s' := Apply(cap, s, a);
    assert s'.threads == s.threads[a.i := s'.threads[a.i]];
    CountUpdate(s.threads, a.i, s'.threads[a.i], r);
  }

  lemma StepConservesTenant(cap: nat, s: State, a: Action, t: Tenant)
    requires cap > 0 && Enabled(cap, s, a)
    requires Get(s.sh.queued, t) == Count(s.threads, PendingOf(t))
    requires Get(s.sh.inflight, t) == Count(s.threads, BookedOf(t))
    ensures var s' := Apply(cap, s, a);
      && Get(s'.sh.queued, t) == Count(s'.threads, PendingOf(t))
      && Get(s'.sh.inflight, t) == Count(s'.threads, BookedOf(t))
  {
    CountAfter(cap, s, a, PendingOf(t));
    CountAfter(cap, s, a, BookedOf(t));
  }

  lemma StepConserves(cap: nat, s: State, a: Action)
    requires cap > 0 && Conserved(cap, s) && Enabled(cap, s, a)
    ensures Conserved(cap, Apply(cap, s, a))
  {
    CountAfter(cap, s, a, SlotTaken);
    CountAfter(cap, s, a, Pending);
    var s' := Apply(cap, s, a);
    forall t ensures Get(s'.sh.queued, t) == Count(s'.threads, PendingOf(t))
             ensures Get(s'.sh.inflight, t) == Count(s'.threads, BookedOf(t))
    {
      StepConservesTenant(cap, s, a, t);
    }
  }

  /** Nobody's total shrinks while the wake channel stays open. */
  lemma TotalKept(cap: nat, s: State, a: Action, t: Tenant)
    requires cap > 0 && Conserved(cap, s) && Enabled(cap, s, a) && Apply(cap, s, a).sh.wake == s.sh.wake
    ensures Total(Apply(cap, s, a).sh, t) >= Total(s.sh, t)
  {
    CountAfter(cap, s, a, PendingOf(s.threads[a.i].tenant));
  }

  /** A thread that stays parked on a wake channel nobody closed keeps its reason to sleep. */
  lemma StillBlocked(cap: nat, s: State, a: Action, j: nat)
    requires cap > 0 && Inv(cap, s) && Enabled(cap, s, a)
    requires j < |s.threads| && j != a.i && s.threads[j].pc == Parked(s.sh.wake)
    requires Apply(cap, s, a).sh.wake == s.sh.wake
    ensures var s' := Apply(cap, s, a);
      && Total(s'.sh, s.threads[j].tenant) >= TenantShare(cap)
      && (s'.sh.waiting > 0 || s'.sh.sem >= cap || Releasing(s'))
  {
    var s' := Apply(cap, s, a);
    TotalKept(cap, s, a, s.threads[j].tenant);
    CountAfter(cap, s, a, Pending);
    if a.Drain? {
      assert s'.threads[a.i].pc.Drained?;
    } else if s.sh.waiting <= 0 && s.sh.sem < cap {
      var d :| 0 <= d < |s.threads| && s.threads[d].pc.Drained?;
      assert s'.threads[d].pc.Drained?;
    }
  }

  lemma StepKeepsWakeups(cap: nat, s: State, a: Action)
    requires cap > 0 && Inv(cap, s) && Enabled(cap, s, a)
    ensures NoLostWakeup(cap, Apply(cap, s, a))
  {
    var s' := Apply(cap, s, a);
    forall j | 0 <= j < |s'.threads| && s'.threads[j].pc == Parked(s'.sh.wake)
      ensures Total(s'.sh, s'.threads[j].tenant) >= TenantShare(cap)
      ensures s'.sh.waiting > 0 || s'.sh.sem >= cap || Releasing(s')
    {
      if j != a.i {
        assert s'.threads[j] == s.threads[j];
        StillBlocked(cap, s, a, j);
      } else {
        CountAfter(cap, s, a, Pending);
      }
    }
  }

  lemma StepInv(cap: nat, s: State, a: Action)
    requires cap > 0 && Inv(cap, s) && Enabled(cap, s, a)
    ensures Inv(cap, Apply(cap, s, a))
  {
    StepConserves(cap, s, a);
    StepKeepsWakeups(cap, s, a);
  }

  // ----- runs

  /** `states` is what a scheduler that picks the actions `acts` walks through. */
  ghost predicate IsPath(cap: nat, states: seq<State>, acts: seq<Action>)
    requires cap > 0
  {
    && |states| == |acts| + 1
    && forall k :: 0 <= k < |acts| ==> Enabled(cap, states[k], acts[k]) && states[k + 1] == Apply(cap, states[k], acts[k])
  }

  ghost predicate IsRun(cap: nat, n: nat, tenant: Tenant, states: seq<State>, acts: seq<Action>)
    requires cap > 0
  {
    IsPath(cap, states, acts) && states[0] == Init(n, tenant)
  }

  lemma {:induction false} RunInv(cap: nat, n: nat, tenant: Tenant, states: seq<State>, acts: seq<Action>, k: nat)
    requires cap > 0 && IsRun(cap, n, tenant, states, acts) && k < |states|
    ensures Inv(cap, states[k])
  {
    if k == 0 {
      InitInv(cap, n, tenant);
    } else {
      RunInv(cap, n, tenant, states, acts, k - 1);
      StepInv(cap, states[k - 1], acts[k - 1]);
    }
  }

  // ----- conservation

  ghost function Sum(m: map<Tenant, int>): int {
    if m == map[] then 0 else var t :| t in m; m[t] + Sum(m - {t})
  }

  lemma {:induction false} SumWithout(m: map<Tenant, int>, t: Tenant)
    requires t in m
    ensures Sum(m) == m[t] + Sum(m - {t})
    decreases |m|
  {
    var u :| u in m && Sum(m) == m[u] + Sum(m - {u});
    if u != t {
      SumWithout(m - {u}, t);
      SumWithout(m - {t}, u);
      assert m - {u} - {t} == m - {t} - {u};
    }
  }

  lemma SumDrop(m: map<Tenant, int>, t: Tenant)
    requires t in m && m[t] > 0
    ensures Sum(Drop(m, t)) == Sum(m) - 1
  {
    SumWithout(m, t);
    if m[t] > 1 {
      SumWithout(Drop(m, t), t);
      assert Drop(m, t) - {t} == m - {t};
    }
  }

  /** The per-tenant queue counters add up to the number of pending threads. */
  lemma {:induction false} SumIsPending(ts: seq<Thread>, m: map<Tenant, int>)
    requires Tidy(m) && forall t :: Get(m, t) == Count(ts, PendingOf(t))
    ensures Sum(m) == Count(ts, Pending)
  {
    if |ts| == 0 {
      assert forall t :: t in m ==> Get(m, t) == Count(ts, PendingOf(t));
      assert m == map[];
    } else {
      var m' := if Plays(ts[0], Pending) then Drop(m, ts[0].tenant) else m;
      forall t ensures Get(m', t) == Count(ts[1..], PendingOf(t)) {
        assert Get(m, t) == Count(ts, PendingOf(t));
      }
      SumIsPending(ts[1..], m');
      if Plays(ts[0], Pending) {
        assert Get(m, ts[0].tenant) == Count(ts, PendingOf(ts[0].tenant));
        SumDrop(m, ts[0].tenant);
      }
    }
  }

  /** In every state of every run: waiting is the sum of queued, inflight counts the tenant's holders
      and its threads in mid-release, and never more than the configured number of slots is held. */
  lemma SlotsAreConserved(cap: nat, n: nat, tenant: Tenant, states: seq<State>, acts: seq<Action>, k: nat, t: Tenant)
    requires cap > 0 && IsRun(cap, n, tenant, states, acts) && k < |states|
    ensures var s := states[k];
      && s.sh.waiting == Sum(s.sh.queued) == Count(s.threads, Pending)
      && Get(s.sh.inflight, t) == Count(s.threads, BookedOf(t))
      && Count(s.threads, Holder) <= s.sh.sem <= cap
  {
    RunInv(cap, n, tenant, states, acts, k);
    SumIsPending(states[k].threads, states[k].sh.queued);
    CountMonotone(states[k].threads, Holder, SlotTaken);
  }

  /** A release never blocks: the semaphore holds a token for every holder. */
  lemma ReleaseNeverBlocks(cap: nat, s: State, i: nat)
    requires cap > 0 && Inv(cap, s) && i < |s.threads| && s.threads[i].pc.Holding?
    ensures Enabled(cap, s, Drain(i))
  {
    CountZero(s.threads, SlotTaken);
    assert Plays(s.threads[i], SlotTaken);
  }

  // ----- fairness

  /** A step lifts a tenant past its share only while nobody entitled is queueing. */
  lemma PassesShareOnlyAlone(cap: nat, s: State, a: Action, t: Tenant)
    requires cap > 0 && Inv(cap, s) && Enabled(cap, s, a)
    requires Total(Apply(cap, s, a).sh, t) > Total(s.sh, t)
    ensures a.Enter? && s.threads[a.i].tenant == t
    ensures Total(Apply(cap, s, a).sh, t) == Total(s.sh, t) + 1
    ensures Total(Apply(cap, s, a).sh, t) > TenantShare(cap) ==>
      s.sh.waiting == 0 && forall i :: 0 <= i < |s.threads| ==> !InQueue(s.threads[i].pc)
  {
    CountAfter(cap, s, a, PendingOf(s.threads[a.i].tenant));
    CountZero(s.threads, Pending);
  }

  /** Over a whole run: a tenant above its share got there by a step taken when nobody was queueing,
      and has been above its share ever since. */
  lemma {:induction false} AboveShareWitness(cap: nat, n: nat, tenant: Tenant, states: seq<State>, acts: seq<Action>,
                                             k: nat, t: Tenant) returns (j: nat)
    requires cap > 0 && IsRun(cap, n, tenant, states, acts) && k < |states|
    requires Total(states[k].sh, t) > TenantShare(cap)
    ensures j < k && states[j].sh.waiting == 0 && acts[j].Enter?
    ensures acts[j].i < |states[j].threads| && states[j].threads[acts[j].i].tenant == t
    ensures Total(states[j].sh, t) == TenantShare(cap)
    ensures forall i :: j < i <= k ==> Total(states[i].sh, t) > TenantShare(cap)
  {
    RunInv(cap, n, tenant, states, acts, k - 1);
    if Total(states[k - 1].sh, t) > TenantShare(cap) {
      j := AboveShareWitness(cap, n, tenant, states, acts, k - 1, t);
    } else {
      PassesShareOnlyAlone(cap, states[k - 1], acts[k - 1], t);
      j := k - 1;
    }
  }

  // ----- progress

  predicate Acquiring(pc: Pc) {
    pc.Entering? || InQueue(pc) || pc.Parked?
  }

  /** Nothing can happen but a new request, a finished download or a timeout. */
  ghost predicate Quiet(cap: nat, s: State) {
    forall a :: Enabled(cap, s, a) ==> a.Start? || a.Drain? || a.QueueTimeout? || a.ParkTimeout?
  }

  /** No lost wake-up, as its consequence: once things have come to rest, an acquirer is left waiting
      only if every one of the `cap` slots is in use by a download. */
  lemma WaitsOnlyForFullSlots(cap: nat, s: State, w: nat)
    requires cap > 0 && Inv(cap, s) && Quiet(cap, s)
    requires w < |s.threads| && Acquiring(s.threads[w].pc)
    ensures Count(s.threads, Holder) == cap
  {
    forall i | 0 <= i < |s.threads|
      ensures !s.threads[i].pc.Entering? && !s.threads[i].pc.GotSlot? && !s.threads[i].pc.GaveUp? && !s.threads[i].pc.Drained?
      ensures s.threads[i].pc.Parked? ==> s.threads[i].pc.gen == s.sh.wake
      ensures s.threads[i].pc.Queued? ==> s.sh.sem >= cap
    {
      assert !Enabled(cap, s, Enter(i)) && !Enabled(cap, s, Book(i)) && !Enabled(cap, s, Abandon(i));
      assert !Enabled(cap, s, Return(i)) && !Enabled(cap, s, WakeUp(i)) && !Enabled(cap, s, TakeSlot(i));
    }
    CountZero(s.threads, Pending);
    SameCount(s.threads);
  }

  lemma {:induction false} SameCount(ts: seq<Thread>)
    requires forall i :: 0 <= i < |ts| ==> !ts[i].pc.GotSlot?
    ensures Count(ts, SlotTaken) == Count(ts, Holder)
  {
    if |ts| > 0 {
      SameCount(ts[1..]);
    }
  }

  /** With no slot held or being released, an acquirer can always take a step that is no timeout. */
  lemma SomebodyCanStep(cap: nat, s: State, w: nat)
    requires cap > 0 && Inv(cap, s)
    requires w < |s.threads| && Acquiring(s.threads[w].pc)
    requires forall i :: 0 <= i < |s.threads| ==> !s.threads[i].pc.Holding? && !s.threads[i].pc.Drained?
    ensures exists a :: Enabled(cap, s, a) && Acquiring(s.threads[a.i].pc) && !a.QueueTimeout? && !a.ParkTimeout?
  {
    CountZero(s.threads, Holder);
    if Quiet(cap, s) {
      WaitsOnlyForFullSlots(cap, s, w);
      assert false;
    }
    var a :| Enabled(cap, s, a) && !a.Start? && !a.Drain? && !a.QueueTimeout? && !a.ParkTimeout?;
    assert Acquiring(s.threads[a.i].pc);
  }

  /** What a thread still has to do before it holds a slot, is idle or waits for somebody else. */
  function Work(pc: Pc): nat {
    match pc
    case Idle => 0 case Holding => 0
    case Drained => 1 case GaveUp => 1 case GotSlot => 1
    case Queued => 2
    case Entering => 3 case Parked(_) => 3
  }

  function Restless(pc: Pc, wake: nat): nat {
    match pc
    case Entering => 1
    case Parked(g) => if g == wake then 0 else 2
    case _ => 0
  }

  function TotalWork(ts: seq<Thread>): nat {
    if |ts| == 0 then 0 else Work(ts[0].pc) + TotalWork(ts[1..])
  }

  function TotalRestless(ts: seq<Thread>, wake: nat): (r: nat)
    ensures r <= 2 * |ts|
  {
    if |ts| == 0 then 0 else Restless(ts[0].pc, wake) + TotalRestless(ts[1..], wake)
  }

  function Measure(s: State): nat {
    TotalWork(s.threads) * (2 * |s.threads| + 1) + TotalRestless(s.threads, s.sh.wake)
  }

  lemma {:induction false} TotalsUpdate(ts: seq<Thread>, i: nat, th: Thread, wake: nat)
    requires i < |ts|
    ensures TotalWork(ts[i := th]) == TotalWork(ts) - Work(ts[i].pc) + Work(th.pc)
    ensures TotalRestless(ts[i := th], wake) == TotalRestless(ts, wake) - Restless(ts[i].pc, wake) + Restless(th.pc, wake)
  {
    if i == 0 {
      assert ts[i := th][1..] == ts[1..];
    } else {
      assert ts[i := th][1..] == ts[1..][i - 1 := th];
      TotalsUpdate(ts[1..], i - 1, th, wake);
    }
  }

  lemma LessWork(w: nat, w': nat, k: nat, r: nat, r': nat)
    requires w' < w && r' < k
    ensures w' * k + r' < w * k + r
  {
    assert (w' + 1) * k <= w * k;
  }

  /** Every action that neither starts a request nor ends a download uses up the measure. */
  lemma StepUsesMeasure(cap: nat, s: State, a: Action)
    requires cap > 0 && Inv(cap, s) && Enabled(cap, s, a) && !a.Start? && !a.Drain?
    ensures Measure(Apply(cap, s, a)) < Measure(s)
  {
    var s' := Apply(cap, s, a);
    assert s'.threads == s.threads[a.i := s'.threads[a.i]];
    TotalsUpdate(s.threads, a.i, s'.threads[a.i], s.sh.wake);
    if Work(s'.threads[a.i].pc) < Work(s.threads[a.i].pc) {
      LessWork(TotalWork(s.threads), TotalWork(s'.threads), 2 * |s.threads| + 1,
               TotalRestless(s.threads, s.sh.wake), TotalRestless(s'.threads, s'.sh.wake));
    }
  }

  /** So from any reachable state the acquirers come to rest within `Measure` steps, whatever the
      scheduler does, unless requests keep arriving or downloads keep ending. */
  lemma {:induction false} ComesToRest(cap: nat, states: seq<State>, acts: seq<Action>)
    requires cap > 0 && IsPath(cap, states, acts) && Inv(cap, states[0])
    requires forall k :: 0 <= k < |acts| ==> !acts[k].Start? && !acts[k].Drain?
    ensures |acts| <= Measure(states[0])
  {
    if |acts| > 0 {
      StepInv(cap, states[0], acts[0]);
      StepUsesMeasure(cap, states[0], acts[0]);
      ComesToRest(cap, states[1..], acts[1..]);
    }
  }

  // ----- the object itself

  /** The mutable fetcher. Each method is a critical section or a part of one, run with the mutex held. */
  class ImageFetcher {
    const cap: nat
    var sem: nat
    var inflight: map<Tenant, int>
    var queued: map<Tenant, int>
    var waiting: int
    var wake: nat

    function View(): Shared
      reads this
    {
      Shared(sem, inflight, queued, waiting, wake)
    }

    constructor (maxConcurrent: int)
      ensures cap == MaxConcurrent(maxConcurrent) > 0
      ensures forall n, tenant :: Init(n, tenant).sh == View()
    {
      cap := MaxConcurrent(maxConcurrent);
      sem, inflight, queued, waiting, wake := 0, map[], map[], 0, 0;
    }

    method EnterLocked(tenant: Tenant) returns (v: Verdict)
      requires cap > 0
      modifies this
      ensures (View(), v) == EnterShared(cap, old(View()), tenant)
    {
      if Get(inflight, tenant) + Get(queued, tenant) < TenantShare(cap) {
        waiting := waiting + 1;
        queued := queued[tenant := Get(queued, tenant) + 1];
        return MustQueue;
      }
      if waiting == 0 && sem < cap {
        sem := sem + 1;
        inflight := inflight[tenant := Get(inflight, tenant) + 1];
        return GotSpare;
      }
      return MustPark;
    }

    method Dequeue(tenant: Tenant)
      modifies this`queued
      ensures queued == Drop(old(queued), tenant)
    {
      var n := Get(queued, tenant) - 1;
      if n > 0 {
        queued := queued[tenant := n];
      } else {
        queued := queued - {tenant};
      }
    }

    method BroadcastLocked()
      modifies this`wake
      ensures View() == Broadcast(old(View()))
    {
      wake := wake + 1;
    }

    method WakeIfQueueEmpty()
      modifies this`wake
      ensures View() == if old(waiting) == 0 then Broadcast(old(View())) else old(View())
    {
      if waiting == 0 {
        BroadcastLocked();
      }
    }

    method BookLocked(tenant: Tenant)
      modifies this
      ensures View() == BookShared(old(View()), tenant)
    {
      waiting := waiting - 1;
      Dequeue(tenant);
      inflight := inflight[tenant := Get(inflight, tenant) + 1];
      WakeIfQueueEmpty();
    }

    method AbandonLocked(tenant: Tenant)
      modifies this
      ensures View() == AbandonShared(old(View()), tenant)
    {
      waiting := waiting - 1;
      Dequeue(tenant);
      BroadcastLocked();
    }

    method ReturnLocked(tenant: Tenant)
      modifies this
      ensures View() == ReturnShared(old(View()), tenant)
    {
      var n := Get(inflight, tenant) - 1;
      if n > 0 {
        inflight := inflight[tenant := n];
      } else {
        inflight := inflight - {tenant};
      }
      BroadcastLocked();
    }
  }
}
