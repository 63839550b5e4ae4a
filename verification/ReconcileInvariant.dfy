/** The invariant of reconcile runs and desired-state writes, and its proof, one atomic step at a time. */
module ReconcileInvariant {
  import opened Basics
  import opened Lifecycle
  import opened Leases
  import opened Reconciler

  // ----- per tenant -----

  /** Bookkeeping of one stored resource. */
  ghost predicate Bookkeeping(r: TenantResource) {
    && r.status.observedGeneration <= r.generation
    && DistinctCheckpoints(r.status.checkpoints)
    && (forall c :: c in r.status.checkpoints ==> c.generation <= r.generation)
    && CountKind(r.status.conditions, "Ready") <= 1
    && (r.status.retryAt.Some? ==> r.status.phase == Degraded)
  }

  predicate Terminal(phase: Phase) { phase == Ready || phase == Suspended }

  ghost predicate AllCheckpointed(checkpoints: seq<Checkpoint>, plan: seq<PlannedStep>, count: nat, generation: nat)
    requires count <= |plan|
  {
    forall k :: 0 <= k < count ==> Checkpointed(checkpoints, plan[k], generation)
  }

  /** An active tenant ends Ready, a suspended one Suspended. */
  ghost predicate Reached(desired: DesiredState, phase: Phase) {
    (desired == Active ==> phase == Ready) && (desired == Suspend ==> phase == Suspended)
  }

  /** A run starts by Suspending exactly a tenant to be suspended, by Resuming exactly one to be active that
      was read Suspended or Suspending, and by Reconciling any other. */
  ghost predicate Entered(base: TenantResource, phase: Phase) {
    && (phase == Suspending <==> base.spec.desired == Suspend)
    && (phase == Resuming <==>
          base.spec.desired != Suspend && (base.status.phase == Suspended || base.status.phase == Suspending))
    && (phase == Suspending || phase == Resuming || phase == Reconciling)
  }

  /** The Ready condition of a run that succeeded says what the tenant was brought to, and when. */
  ghost predicate SaysReached(r: TenantResource, now: int) {
    && (r.spec.desired == Active ==>
          Condition("Ready", ConditionTrue, "ReconcileSucceeded", "The tenant runtime is ready.", r.generation, now)
            in r.status.conditions)
    && (r.spec.desired == Suspend ==>
          Condition("Ready", ConditionFalse, "TenantSuspended", "The tenant runtime is suspended.", r.generation, now)
            in r.status.conditions)
  }

  /** A resource that reports an up-to-date terminal phase really is at the end of its plan. */
  ghost predicate HonestTerminal(r: TenantResource, plan: seq<PlannedStep>) {
    Terminal(r.status.phase) && r.status.observedGeneration == r.generation ==>
      && Reached(r.spec.desired, r.status.phase)
      && r.status.currentStep == ""
      && AllCheckpointed(r.status.checkpoints, plan, |plan|, r.generation)
  }

  /** The history ends at the stored resource and its versions go up one by one. */
  ghost predicate Versioned(h: seq<Commit>, r: TenantResource) {
    && |h| <= r.resourceVersion
    && (forall j :: 0 <= j < |h| ==> h[j].resource.resourceVersion == r.resourceVersion - (|h| - 1 - j))
    && (h != [] ==> h[|h| - 1].resource == r)
  }

  ghost predicate TenantOk(w: World, id: TenantId) {
    && id in w.resources && id in w.history && id in w.plans
    && w.resources[id].tenantId == id
    && w.resources[id].Valid()
    && Bookkeeping(w.resources[id])
    && HonestTerminal(w.resources[id], w.plans[id])
    && Versioned(w.history[id], w.resources[id])
  }

  // ----- per run -----

  /** What the j-th write of a run left behind, for the writes before the last. */
  ghost predicate WriteOk(f: Frame, j: nat, r: TenantResource) {
    && r.spec == f.base.spec && r.generation == f.base.generation
    && Entered(f.base, r.status.phase)
    && r.status.retryAt.None?
    && r.status.failureCount == f.base.status.failureCount
    && (j == 0 ==> r.status.currentStep == "")
    && (j % 2 == 1 && j / 2 < |f.plan| && f.plan[j / 2].Step? ==> r.status.currentStep == f.plan[j / 2].name)
    && (j % 2 == 0 && j > 0 ==> r.status.currentStep == "")
    && (j / 2 <= |f.plan| ==> AllCheckpointed(r.status.checkpoints, f.plan, j / 2, r.generation))
  }

  /** The first `made` entries after `start` are this run's own writes, in order. */
  ghost predicate Chain(rid: nat, f: Frame, h: seq<Commit>, made: nat) {
    && f.start + made <= |h|
    && forall i :: f.start <= i < f.start + made ==>
         && h[i].author == ByRun(rid)
         && h[i].resource.resourceVersion == f.base.resourceVersion + 1 + (i - f.start)
         && WriteOk(f, i - f.start, h[i].resource)
  }

  /** From `from` on, only desired-state writers committed. */
  ghost predicate OnlyWriters(h: seq<Commit>, from: nat, to: nat) {
    forall j :: from <= j < to && j < |h| ==> h[j].author == BySpecWriter
  }

  ghost predicate FrameOk(w: World, rid: nat, run: Run, f: Frame, made: nat) {
    && run.tenant in w.resources && run.tenant in w.history
    && (f.plan == [] || ValidPlan(f.plan))
    && (var h, r := w.history[run.tenant], w.resources[run.tenant];
        && f.current.tenantId == run.tenant
        && f.current.Valid() && Bookkeeping(f.current)
        && f.current.spec == f.base.spec && f.current.generation == f.base.generation
        && Chain(rid, f, h, made)
        && OnlyWriters(h, f.start + made, |h|)
        && f.base.resourceVersion + made == f.current.resourceVersion
        && f.current.resourceVersion == r.resourceVersion - (|h| - f.start - made)
        && (|h| == f.start + made ==> r == f.current)
        && (made == 0 ==> f.current == f.base)
        && (made > 0 ==> h[f.start + made - 1].resource == f.current))
  }

  ghost predicate HoldsLease(w: World, run: Run, lease: nat) {
    Live(w.leases, lease) && w.leases.issued[lease].tenant == run.tenant
  }

  /** The lease a run holds at its present point, if any. */
  function LeaseOf(pc: Pc): Option<nat> {
    match pc
    case AtAcquire => None
    case AtGet(lease) => Some(lease)
    case AtStart(f) => Some(f.lease)
    case AtLoop(f) => Some(f.lease)
    case AtMark(f) => Some(f.lease)
    case AtEnsure(f) => Some(f.lease)
    case AtCheckpoint(f, _) => Some(f.lease)
    case AtFinish(f) => Some(f.lease)
    case AtFail(f, _, _, _) => Some(f.lease)
    case AtRelease(lease, _, _) => Some(lease)
    case Returned(_, _) => None
  }

  /** The last write of a successful run. */
  ghost predicate FinalWrite(f: Frame, r: TenantResource) {
    && r.spec == f.base.spec && r.generation == f.base.generation
    && Reached(f.base.spec.desired, r.status.phase)
    && r.status.observedGeneration == r.generation
    && r.status.currentStep == "" && r.status.failureCount == 0 && r.status.retryAt.None?
    && AllCheckpointed(r.status.checkpoints, f.plan, |f.plan|, r.generation)
    && SaysReached(r, f.clock.now)
  }

  /** The step at which a run fails after `made` writes: planning, or the step it had marked. */
  ghost predicate FailingStep(f: Frame, made: nat, name: string) {
    || (made == 0 && name == "plan")
    || (made == 2 + 2 * f.index && f.HasStep() && name == f.plan[f.index].name)
  }

  /** The write of a run that records a failure after `made` writes: the failing step, one more failure,
      a condition that says why, and the time of the next try exactly if the failure is retryable. */
  ghost predicate FailureWrite(f: Frame, r: TenantResource, result: RunResult, made: nat)
    requires result.error.Some? && result.error.value.StepFailed?
  {
    var failure := result.error.value.failure;
    && FailingStep(f, made, r.status.currentStep)
    && Condition("Ready", ConditionFalse, failure.code, failure.safeMessage, f.base.generation, f.clock.later)
         in r.status.conditions
    && failure.code != "" && failure.safeMessage != ""
    && (made == 0 ==> failure == StepError("INVALID_PLAN", "The tenant lifecycle plan is invalid.", false))
    && r.status.retryAt == (if failure.retryable then Some(f.clock.now + Backoff(r.status.failureCount)) else None)
    && r.spec == f.base.spec && r.generation == f.base.generation
    && r.status.phase == Degraded == result.phase
    && r.status.failureCount == (f.base.status.failureCount + 1) % 0x1_0000_0000
    && result.requeue == failure.retryable == r.status.retryAt.Some?
    && result.requeueAfter == (if failure.retryable then Backoff(r.status.failureCount) else 0)
  }

  /** `made` writes of the run, then, up to the outcome, its closing write or only desired-state writes. */
  ghost predicate Settled(rid: nat, f: Frame, closedAt: nat, result: RunResult, h: seq<Commit>, made: nat)
    requires closedAt <= |h|
  {
    && Chain(rid, f, h, made)
    && (result.error.None? || result.error.value.StepFailed? ==>
          && closedAt == f.start + made + 1
          && h[closedAt - 1].author == ByRun(rid)
          && h[closedAt - 1].resource.resourceVersion == f.base.resourceVersion + made + 1)
    && (result.error.None? ==> made == 2 * |f.plan| + 1 && FinalWrite(f, h[closedAt - 1].resource))
    && (result.error.Some? && result.error.value.StepFailed? ==>
        FailureWrite(f, h[closedAt - 1].resource, result, made))
    && (result.error.Some? && !result.error.value.StepFailed? ==>
          && f.start + made <= closedAt
          && OnlyWriters(h, f.start + made, closedAt)
          && (result.error == Some(Repo(Conflict)) || result.error == Some(Repo(Cancelled)))
          && (result.error == Some(Repo(Conflict)) ==> result.requeue && closedAt > f.start + made))
  }

  /** Everything a finished run's result says about the writes of its tenant. */
  ghost predicate OutcomeOk(rid: nat, f: Frame, closedAt: nat, result: RunResult, h: seq<Commit>) {
    closedAt <= |h| && exists made: nat :: Settled(rid, f, closedAt, result, h, made)
  }

  /** The frame of a run that is still working on its plan. */
  function FrameAt(pc: Pc): Option<Frame> {
    match pc
    case AtStart(f) => Some(f)
    case AtLoop(f) => Some(f)
    case AtMark(f) => Some(f)
    case AtEnsure(f) => Some(f)
    case AtCheckpoint(f, _) => Some(f)
    case AtFinish(f) => Some(f)
    case AtFail(f, _, _, _) => Some(f)
    case _ => None
  }

  /** How many writes a run at this point has made: one to start, two for each finished step,
      one more between a step's mark and its checkpoint. */
  function MadeAt(pc: Pc): nat
    requires FrameAt(pc).Some?
  {
    var f := FrameAt(pc).value;
    if pc.AtStart? || (pc.AtFail? && !pc.midway) then 0
    else if pc.AtLoop? || pc.AtMark? || pc.AtFinish? then 1 + 2 * f.index
    else 2 + 2 * f.index
  }

  ghost predicate IndexOk(pc: Pc)
    requires FrameAt(pc).Some?
  {
    var f := FrameAt(pc).value;
    if pc.AtStart? then f.plan != [] && f.index == 0
    else if pc.AtFinish? then f.plan != [] && f.index == |f.plan|
    else if pc.AtFail? then
      && pc.failure.code != "" && pc.failure.safeMessage != ""
      && if pc.midway then f.HasStep() && pc.stepName == f.plan[f.index].name
         else pc.stepName == "plan"
              && pc.failure == StepError("INVALID_PLAN", "The tenant lifecycle plan is invalid.", false)
    else f.index < |f.plan|
  }

  ghost predicate RunOk(w: World, rid: nat) {
    && rid in w.runs
    && var run := w.runs[rid];
       && (LeaseOf(run.pc).Some? ==> HoldsLease(w, run, LeaseOf(run.pc).value))
       && (FrameAt(run.pc).Some? ==>
             IndexOk(run.pc) && FrameOk(w, rid, run, FrameAt(run.pc).value, MadeAt(run.pc)))
       && (run.pc.AtRelease? || run.pc.Returned? ==> ClosingOk(w, rid, run, run.pc.closing, run.pc.result))
  }

  ghost predicate ClosingOk(w: World, rid: nat, run: Run, closing: Closing, result: RunResult) {
    match closing
    case Unread => result.error.Some? && !result.error.value.StepFailed?
    case Finished(f, closedAt) =>
      run.tenant in w.history && OutcomeOk(rid, f, closedAt, result, w.history[run.tenant])
  }

  /** Distinct runs hold distinct leases, and every live lease is held by a run. */
  ghost predicate Separate(w: World) {
    && (forall a: nat, b: nat :: a in w.runs && b in w.runs && a != b && LeaseOf(w.runs[a].pc).Some? ==>
          LeaseOf(w.runs[a].pc) != LeaseOf(w.runs[b].pc))
    && (forall k: nat :: Live(w.leases, k) ==> exists a: nat :: a in w.runs && LeaseOf(w.runs[a].pc) == Some(k))
  }

  ghost predicate Inv(w: World) {
    && Exclusive(w.leases)
    && Separate(w)
    && (forall id :: id in w.resources ==> TenantOk(w, id))
    && (forall rid: nat :: rid in w.runs ==> RunOk(w, rid))
  }

  // ----- one compare-and-swap -----

  /** A run's write is accepted exactly when it is not cancelled and nobody wrote since its last look. */
  lemma CasOutcome(w: World, rid: nat, run: Run, f: Frame, made: nat, status: Status)
    requires FrameOk(w, rid, run, f, made) && TenantOk(w, run.tenant)
    requires !status.phase.UnknownPhase? && status.observedGeneration <= f.current.generation
    ensures var (v, r) := Cas(w, rid, run, f.current, status);
            var h := w.history[run.tenant];
            && (r.Ok? <==> !run.cancelled && |h| == f.start + made)
            && (r.Ok? ==>
                  && r.value == f.current.(status := status, resourceVersion := f.current.resourceVersion + 1)
                  && v == w.(resources := w.resources[run.tenant := r.value],
                             history := w.history[run.tenant := h + [Commit(ByRun(rid), r.value)]]))
            && (r.Err? ==> v == w && r.error == if run.cancelled then Cancelled else Conflict)
  {
  }

  /** What survives when a tenant's history grows. */
  lemma OutcomeKept(rid: nat, f: Frame, closedAt: nat, result: RunResult, h: seq<Commit>, g: seq<Commit>)
    requires OutcomeOk(rid, f, closedAt, result, h) && h <= g
    ensures OutcomeOk(rid, f, closedAt, result, g)
  {
    var made: nat :| Settled(rid, f, closedAt, result, h, made);
    assert Settled(rid, f, closedAt, result, g, made);
  }

  // ----- each step keeps the run's own invariant -----

  /** Only the entries of tenant `id` may have changed, and its history only grew. */
  ghost predicate DataLocal(w: World, v: World, id: TenantId) {
    && v.resources.Keys == w.resources.Keys
    && (forall x :: x in w.resources && x != id ==> v.resources[x] == w.resources[x])
    && w.history.Keys <= v.history.Keys <= w.history.Keys + {id} && w.plans.Keys <= v.plans.Keys
    && (forall x :: x in w.history && x != id ==> v.history[x] == w.history[x])
    && (forall x :: x in w.plans && x != id ==> v.plans[x] == w.plans[x])
    && (id in w.history ==> w.history[id] <= v.history[id])
    && (id in w.history && id in w.resources ==>
          v.resources[id].resourceVersion - w.resources[id].resourceVersion == |v.history[id]| - |w.history[id]|)
  }

  /** Either nothing was written, or one status of tenant `id`, recorded under the run's name. */
  ghost predicate StatusWrite(w: World, v: World, rid: nat, id: TenantId) {
    || (v.resources == w.resources && v.history == w.history)
    || (&& id in w.resources && id in v.resources && id in v.history
        && v.resources[id] == w.resources[id].(status := v.resources[id].status,
                                               resourceVersion := w.resources[id].resourceVersion + 1)
        && v.history[id] == HistoryOf(w, id) + [Commit(ByRun(rid), v.resources[id])])
  }

  ghost predicate RunsLocal(w: World, v: World, rid: nat)
    requires rid in w.runs
  {
    && v.runs.Keys == w.runs.Keys
    && v.runs[rid].tenant == w.runs[rid].tenant
    && (forall k :: k in w.runs && k != rid ==> v.runs[k] == w.runs[k])
  }

  /** Leases other than the run's own stay as they are. */
  ghost predicate LeasesLocal(w: World, v: World, own: Option<nat>) {
    && |w.leases.issued| <= |v.leases.issued|
    && (forall k: nat :: Live(w.leases, k) && own != Some(k) ==>
          Live(v.leases, k) && v.leases.issued[k] == w.leases.issued[k])
  }

  /** What a step of run `rid` may change: its own point, its tenant's entry and its own lease. */
  ghost predicate Local(w: World, v: World, rid: nat)
    requires rid in w.runs
  {
    && RunsLocal(w, v, rid)
    && DataLocal(w, v, w.runs[rid].tenant) && StatusWrite(w, v, rid, w.runs[rid].tenant)
    && LeasesLocal(w, v, LeaseOf(w.runs[rid].pc))
    && (LeaseOf(w.runs[rid].pc).None? ==> v.resources == w.resources && v.history == w.history && v.plans == w.plans)
  }

  /** Closing without a write, after a conflict, a cancellation or a refusal. */
  lemma CloseKeeps(w: World, rid: nat, run: Run, f: Frame, made: nat, result: RunResult)
    requires rid in w.runs && w.runs[rid] == run && TenantOk(w, run.tenant) && FrameOk(w, rid, run, f, made)
    requires HoldsLease(w, run, f.lease)
    requires result.error == Some(Repo(Conflict)) || result.error == Some(Repo(Cancelled))
    requires result.error == Some(Repo(Conflict)) ==> result.requeue && |w.history[run.tenant]| > f.start + made
    ensures RunOk(Close(w, rid, run, f, result), rid)
    ensures TenantOk(Close(w, rid, run, f, result), run.tenant)
  {
    var h := w.history[run.tenant];
    assert Settled(rid, f, |h|, result, h, made);
  }

  lemma ChainGrows(rid: nat, f: Frame, made: nat, h: seq<Commit>, g: Frame)
    requires Chain(rid, f, h, made) && |h| == f.start + made
    requires g == f.(index := g.index, current := g.current)
    requires g.current.resourceVersion == f.base.resourceVersion + made + 1
    requires WriteOk(f, made, g.current)
    ensures Chain(rid, g, h + [Commit(ByRun(rid), g.current)], made + 1)
  {
    var h' := h + [Commit(ByRun(rid), g.current)];
    forall i | f.start <= i < f.start + made + 1
      ensures h'[i].author == ByRun(rid)
              && h'[i].resource.resourceVersion == f.base.resourceVersion + 1 + (i - f.start)
              && WriteOk(g, i - f.start, h'[i].resource)
    {
      if i < |h| {
        assert h'[i] == h[i];
        assert WriteOk(f, i - f.start, h[i].resource);
      } else {
        assert WriteOk(f, made, h'[i].resource);
      }
    }
  }

  /** One more accepted write that keeps the run going. */
  lemma WriteKeeps(w: World, rid: nat, run: Run, f: Frame, made: nat, g: Frame)
    requires rid in w.runs && w.runs[rid] == run && TenantOk(w, run.tenant) && FrameOk(w, rid, run, f, made)
    requires |w.history[run.tenant]| == f.start + made
    requires g == f.(index := g.index, current := g.current)
    requires g.current == f.current.(status := g.current.status, resourceVersion := f.current.resourceVersion + 1)
    requires Bookkeeping(g.current) && g.current.Valid() && !Terminal(g.current.status.phase)
    requires WriteOk(f, made, g.current)
    ensures var next := g.current;
            var v := w.(resources := w.resources[run.tenant := next],
                        history := w.history[run.tenant := w.history[run.tenant] + [Commit(ByRun(rid), next)]]);
            FrameOk(v, rid, run, g, made + 1) && TenantOk(v, run.tenant)
  {
    ChainGrows(rid, f, made, w.history[run.tenant], g);
  }

  /** The histories that an ending write settles. */
  lemma SettledByWrite(
    rid: nat, f: Frame, made: nat, h: seq<Commit>, next: TenantResource, clock: Clock, result: RunResult)
    requires Chain(rid, f, h, made) && |h| == f.start + made
    requires next.resourceVersion == f.base.resourceVersion + made + 1
    requires result.error.None? || result.error.value.StepFailed?
    requires result.error.None? ==> made == 2 * |f.plan| + 1 && FinalWrite(f.(clock := clock), next)
    requires result.error.Some? ==> FailureWrite(f.(clock := clock), next, result, made)
    ensures OutcomeOk(rid, f.(current := next, clock := clock), |h| + 1, result, h + [Commit(ByRun(rid), next)])
  {
    hide Chain, FinalWrite, FailureWrite;
    var g, h' := f.(current := next, clock := clock), h + [Commit(ByRun(rid), next)];
    ChainBefore(rid, f, g, made, h, Commit(ByRun(rid), next));
    SameClosing(f.(clock := clock), next, result, made);
    assert Settled(rid, g, |h'|, result, h', made);
  }

  /** The writes of a run stay its writes when one more is made, whatever it is. */
  lemma ChainBefore(rid: nat, f: Frame, g: Frame, made: nat, h: seq<Commit>, commit: Commit)
    requires Chain(rid, f, h, made) && |h| == f.start + made && g == f.(current := g.current, clock := g.clock)
    ensures Chain(rid, g, h + [commit], made)
  {
    var h' := h + [commit];
    forall i | f.start <= i < f.start + made
      ensures h'[i].author == ByRun(rid)
              && h'[i].resource.resourceVersion == f.base.resourceVersion + 1 + (i - f.start)
              && WriteOk(g, i - f.start, h'[i].resource)
    {
      assert h'[i] == h[i];
      assert WriteOk(f, i - f.start, h[i].resource);
    }
  }

  /** What the last write is like does not depend on what the run held before it. */
  lemma SameClosing(f: Frame, next: TenantResource, result: RunResult, made: nat)
    ensures FinalWrite(f, next) ==> FinalWrite(f.(current := next), next)
    ensures result.error.Some? && result.error.value.StepFailed? && FailureWrite(f, next, result, made) ==>
              FailureWrite(f.(current := next), next, result, made)
  {
  }

  /** The accepted write that ends a run. */
  lemma LastIsHonest(
    f: Frame, made: nat, next: TenantResource, clock: Clock, result: RunResult, plan: seq<PlannedStep>)
    requires result.error.None? || result.error.value.StepFailed?
    requires result.error.None? ==> FinalWrite(f.(clock := clock), next)
    requires result.error.Some? ==> FailureWrite(f.(clock := clock), next, result, made)
    ensures HonestTerminal(next, if result.error.None? then f.plan else plan)
  {
    hide FailureCondition, FailingStep, WriteOk, TerminalCondition, SaysReached;
  }

  lemma VersionedGrows(h: seq<Commit>, before: TenantResource, commit: Commit)
    requires Versioned(h, before) && commit.resource.resourceVersion == before.resourceVersion + 1
    ensures Versioned(h + [commit], commit.resource)
  {
  }

  lemma LastWriteKeeps(
    w: World, rid: nat, run: Run, f: Frame, made: nat, next: TenantResource, clock: Clock, result: RunResult)
    requires rid in w.runs && w.runs[rid] == run && TenantOk(w, run.tenant) && FrameOk(w, rid, run, f, made)
    requires HoldsLease(w, run, f.lease)
    requires |w.history[run.tenant]| == f.start + made
    requires next == f.current.(status := next.status, resourceVersion := f.current.resourceVersion + 1)
    requires Bookkeeping(next) && next.Valid()
    requires result.error.None? || result.error.value.StepFailed?
    requires result.error.None? ==> made == 2 * |f.plan| + 1 && FinalWrite(f.(clock := clock), next)
    requires result.error.Some? ==> FailureWrite(f.(clock := clock), next, result, made)
    ensures var h := w.history[run.tenant] + [Commit(ByRun(rid), next)];
            var plans := if result.error.None? then w.plans[run.tenant := f.plan] else w.plans;
            var v := w.(resources := w.resources[run.tenant := next], history := w.history[run.tenant := h],
                        plans := plans);
            var u := Close(v, rid, run, f.(current := next, clock := clock), result);
            RunOk(u, rid) && TenantOk(u, run.tenant)
  {
    hide FailureCondition, FailingStep, WriteOk, OutcomeOk, TerminalCondition, ValidTenantId, FailureWrite, FinalWrite,
         HonestTerminal, Versioned, Bookkeeping;
    LastIsHonest(f, made, next, clock, result, w.plans[run.tenant]);
    VersionedGrows(w.history[run.tenant], f.current, Commit(ByRun(rid), next));
    SettledByWrite(rid, f, made, w.history[run.tenant], next, clock, result);
  }

  ghost predicate Here(w: World, rid: nat) {
    rid in w.runs && RunOk(w, rid) && TenantOk(w, w.runs[rid].tenant)
  }

  /** Moving a run to a point that fits its frame. */
  lemma ArriveKeeps(w: World, rid: nat, run: Run, g: Frame, made: nat, pc: Pc)
    requires rid in w.runs && w.runs[rid] == run && HoldsLease(w, run, g.lease)
    requires FrameOk(w, rid, run, g, made) && TenantOk(w, run.tenant)
    requires FrameAt(pc) == Some(g) && LeaseOf(pc) == Some(g.lease) && IndexOk(pc) && MadeAt(pc) == made
    ensures Here(Goto(w, rid, run, pc), rid)
  {
  }

  function Written(w: World, rid: nat, id: TenantId, next: TenantResource): World
    requires id in w.history
  {
    w.(resources := w.resources[id := next], history := w.history[id := w.history[id] + [Commit(ByRun(rid), next)]])
  }

  /** An accepted write followed by the move to the next point. */
  lemma WriteArrives(w: World, rid: nat, run: Run, f: Frame, made: nat, g: Frame, pc: Pc)
    requires rid in w.runs && w.runs[rid] == run && TenantOk(w, run.tenant) && FrameOk(w, rid, run, f, made)
    requires HoldsLease(w, run, f.lease)
    requires |w.history[run.tenant]| == f.start + made
    requires g == f.(index := g.index, current := g.current)
    requires g.current == f.current.(status := g.current.status, resourceVersion := f.current.resourceVersion + 1)
    requires Bookkeeping(g.current) && g.current.Valid() && !Terminal(g.current.status.phase)
    requires WriteOk(f, made, g.current)
    requires FrameAt(pc) == Some(g) && LeaseOf(pc) == Some(g.lease) && IndexOk(pc) && MadeAt(pc) == made + 1
    ensures Here(Goto(Written(w, rid, run.tenant, g.current), rid, run, pc), rid)
  {
    WriteKeeps(w, rid, run, f, made, g);
    ArriveKeeps(Written(w, rid, run.tenant, g.current), rid, run, g, made + 1, pc);
  }

  /** What a run knows about its tenant does not depend on its flags or on other runs. */
  lemma FrameUnmoved(w: World, v: World, rid: nat, run: Run, f: Frame, g: Frame, made: nat)
    requires FrameOk(w, rid, run, f, made)
    requires v.resources == w.resources && v.history == w.history
    requires g == f.(changed := g.changed)
    ensures FrameOk(v, rid, run, g, made)
  {
    hide Bookkeeping, ValidPlan, OnlyWriters, WriteOk, Chain;
    ChainRenamed(rid, f, g, w.history[run.tenant], made);
  }

  lemma ChainRenamed(rid: nat, f: Frame, g: Frame, h: seq<Commit>, made: nat)
    requires Chain(rid, f, h, made) && g == f.(changed := g.changed)
    ensures Chain(rid, g, h, made)
  {
    forall i | f.start <= i < f.start + made ensures WriteOk(g, i - f.start, h[i].resource) {
      assert WriteOk(f, i - f.start, h[i].resource);
    }
  }

  /** A move that writes nothing. */
  lemma MoveArrives(w: World, rid: nat, run: Run, f: Frame, g: Frame, made: nat, pc: Pc)
    requires rid in w.runs && w.runs[rid] == run && HoldsLease(w, run, f.lease)
    requires FrameOk(w, rid, run, f, made) && TenantOk(w, run.tenant)
    requires g == f.(changed := g.changed)
    requires FrameAt(pc) == Some(g) && LeaseOf(pc) == Some(g.lease) && IndexOk(pc) && MadeAt(pc) == made
    ensures Here(Goto(w, rid, run, pc), rid)
  {
    FrameUnmoved(w, w, rid, run, f, g, made);
    ArriveKeeps(w, rid, run, g, made, pc);
  }

  /** The outcome of a compare-and-swap whose success leads to `pc`. */
  function Attempt(w: World, rid: nat, run: Run, f: Frame, status: Status, changed: bool, pc: Pc): World {
    var (v, r) := Cas(w, rid, run, f.current, status);
    match r
    case Err(e) => Close(v, rid, run, f, ConflictResult(e, changed))
    case Ok(_) => Goto(v, rid, run, pc)
  }

  /** Trying to write keeps the invariant whether the write lands, conflicts or is cancelled. */
  lemma AttemptKeeps(w: World, rid: nat, run: Run, f: Frame, made: nat, g: Frame, changed: bool, pc: Pc)
    requires rid in w.runs && w.runs[rid] == run && TenantOk(w, run.tenant) && FrameOk(w, rid, run, f, made)
    requires HoldsLease(w, run, f.lease)
    requires g == f.(index := g.index, current := g.current)
    requires g.current == f.current.(status := g.current.status, resourceVersion := f.current.resourceVersion + 1)
    requires Bookkeeping(g.current) && g.current.Valid() && !Terminal(g.current.status.phase)
    requires WriteOk(f, made, g.current)
    requires FrameAt(pc) == Some(g) && LeaseOf(pc) == Some(g.lease) && IndexOk(pc) && MadeAt(pc) == made + 1
    ensures Here(Attempt(w, rid, run, f, g.current.status, changed, pc), rid)
    ensures var r := Cas(w, rid, run, f.current, g.current.status).1; r.Ok? ==> r.value == g.current
  {
    var (v, r) := Cas(w, rid, run, f.current, g.current.status);
    CasOutcome(w, rid, run, f, made, g.current.status);
    if r.Ok? {
      WriteArrives(w, rid, run, f, made, g, pc);
    } else {
      CloseKeeps(w, rid, run, f, made, ConflictResult(r.error, changed));
    }
  }

  /** The outcome of a compare-and-swap whose success ends the run with `result`. */
  function AttemptLast(
    w: World, rid: nat, run: Run, f: Frame, next: TenantResource, clock: Clock, changed: bool, result: RunResult): World
  {
    var (v, r) := Cas(w, rid, run, f.current, next.status);
    match r
    case Err(e) => Close(v, rid, run, f, ConflictResult(e, changed))
    case Ok(_) =>
      Close(if result.error.None? then v.(plans := v.plans[run.tenant := f.plan]) else v, rid, run,
            f.(current := next, clock := clock), result)
  }

  lemma AttemptLastKeeps(
    w: World, rid: nat, run: Run, f: Frame, made: nat, next: TenantResource, clock: Clock, changed: bool,
    result: RunResult)
    requires rid in w.runs && w.runs[rid] == run && TenantOk(w, run.tenant) && FrameOk(w, rid, run, f, made)
    requires HoldsLease(w, run, f.lease)
    requires next == f.current.(status := next.status, resourceVersion := f.current.resourceVersion + 1)
    requires Bookkeeping(next) && next.Valid()
    requires result.error.None? || result.error.value.StepFailed?
    requires result.error.None? ==> made == 2 * |f.plan| + 1 && FinalWrite(f.(clock := clock), next)
    requires result.error.Some? ==> FailureWrite(f.(clock := clock), next, result, made)
    ensures Here(AttemptLast(w, rid, run, f, next, clock, changed, result), rid)
    ensures var r := Cas(w, rid, run, f.current, next.status).1; r.Ok? ==> r.value == next
  {
    var (v, r) := Cas(w, rid, run, f.current, next.status);
    CasOutcome(w, rid, run, f, made, next.status);
    if r.Ok? {
      LastWriteKeeps(w, rid, run, f, made, next, clock, result);
    } else {
      CloseKeeps(w, rid, run, f, made, ConflictResult(r.error, changed));
    }
  }

  // ----- what each write leaves in the resource -----

  function Proposed(r: TenantResource, status: Status): TenantResource {
    r.(status := status, resourceVersion := r.resourceVersion + 1)
  }

  lemma StartedWrite(f: Frame)
    requires f.current.Valid() && Bookkeeping(f.current) && f.current == f.base
    ensures var next := Proposed(f.current, StartedStatus(f.current));
            Bookkeeping(next) && next.Valid() && WriteOk(f, 0, next) && !Terminal(next.status.phase)
  {
  }

  lemma MarkedWrite(f: Frame)
    requires f.HasStep() && f.current.Valid() && Bookkeeping(f.current) && WriteOk(f, 2 * f.index, f.current)
    ensures var next := Proposed(f.current, MarkedStatus(f.current, f.plan[f.index].name));
            && Bookkeeping(next) && next.Valid() && WriteOk(f, 1 + 2 * f.index, next)
            && !Terminal(next.status.phase)
  {
  }

  lemma CheckpointCovers(checkpoints: seq<Checkpoint>, plan: seq<PlannedStep>, k: nat, generation: nat, c: Checkpoint)
    requires k < |plan| && plan[k].Step?
    requires DistinctCheckpoints(checkpoints) && AllCheckpointed(checkpoints, plan, k, generation)
    requires c.step == plan[k].name && c.version == plan[k].version && c.generation == generation
    ensures DistinctCheckpoints(SetCheckpoint(checkpoints, c))
    ensures AllCheckpointed(SetCheckpoint(checkpoints, c), plan, k + 1, generation)
  {
    SetCheckpointKeeps(checkpoints, c);
    forall i | 0 <= i < k ensures Checkpointed(SetCheckpoint(checkpoints, c), plan[i], generation) {
      SetCheckpointCovers(checkpoints, c, plan[i], generation);
    }
    assert c in SetCheckpoint(checkpoints, c);
  }

  lemma CheckpointedWrite(f: Frame, observed: bool, now: int)
    requires f.HasStep() && f.current.Valid() && Bookkeeping(f.current) && WriteOk(f, 1 + 2 * f.index, f.current)
    ensures var next := Proposed(f.current, CheckpointedStatus(f.current, f.plan[f.index], observed, now));
            && Bookkeeping(next) && next.Valid() && WriteOk(f, 2 + 2 * f.index, next)
            && !Terminal(next.status.phase)
  {
    CheckpointCovers(f.current.status.checkpoints, f.plan, f.index, f.current.generation,
                     StepCheckpoint(f.current, f.plan[f.index], observed, now));
  }

  lemma FinishedWrite(f: Frame, now: int, later: int)
    requires f.current.Valid() && Bookkeeping(f.current) && WriteOk(f, 2 * |f.plan|, f.current)
    ensures var next := Proposed(f.current, FinishedStatus(f.current, now));
            Bookkeeping(next) && next.Valid() && FinalWrite(f.(clock := Clock(now, later)), next)
  {
    SetConditionCounts(f.current.status.conditions, TerminalCondition(f.current, now), READY_CONDITION);
  }

  lemma FailedWrite(f: Frame, made: nat, stepName: string, failure: StepError, now: int, later: int, result: RunResult)
    requires f.current.Valid() && Bookkeeping(f.current)
    requires f.current.spec == f.base.spec && f.current.generation == f.base.generation
    requires f.current.status.failureCount == f.base.status.failureCount
    requires result == FailureResult(f, failure, result.changed) && FailingStep(f, made, stepName)
    requires failure.code != "" && failure.safeMessage != ""
    requires made == 0 ==> failure == StepError("INVALID_PLAN", "The tenant lifecycle plan is invalid.", false)
    ensures var next := Proposed(f.current, FailedStatus(f.current, stepName, failure, now, later));
            Bookkeeping(next) && next.Valid() && FailureWrite(f.(clock := Clock(now, later)), next, result, made)
  {
    hide Backoff, TerminalCondition, ValidTenantId;
    SetConditionCounts(f.current.status.conditions, FailureCondition(f.current, failure, later), READY_CONDITION);
  }

  function FailureResult(f: Frame, failure: StepError, changed: bool): RunResult {
    RunResult(changed, failure.retryable, if failure.retryable then Backoff(NextFailureCount(f.current)) else 0,
              Degraded, Some(StepFailed(failure)))
  }

  lemma CurrentOk(w: World, rid: nat, run: Run, f: Frame, made: nat)
    requires FrameOk(w, rid, run, f, made)
    ensures f.current.Valid() && Bookkeeping(f.current)
    ensures f.plan == [] || ValidPlan(f.plan)
    ensures f.current.spec == f.base.spec && f.current.generation == f.base.generation
    ensures f.current.status.failureCount == f.base.status.failureCount
    ensures if made > 0 then WriteOk(f, made - 1, f.current) else f.current == f.base
  {
    if made > 0 { assert WriteOk(f, made - 1, w.history[run.tenant][f.start + made - 1].resource); }
  }

  // ----- the steps of a run -----

  lemma StartKeeps(w: World, rid: nat)
    requires Here(w, rid) && w.runs[rid].pc.AtStart?
    ensures Here(AdvanceStart(w, rid, w.runs[rid], w.runs[rid].pc.frame), rid)
  {
    hide FrameOk, TenantOk, WriteOk, Bookkeeping, SetCheckpoint, SetCondition;
    var run := w.runs[rid];
    var f := run.pc.frame;
    CurrentOk(w, rid, run, f, 0);
    var next := Proposed(f.current, StartedStatus(f.current));
    StartedWrite(f);
    AttemptKeeps(w, rid, run, f, 0, f.(current := next), false, AtLoop(f.(current := next)));
  }

  lemma LoopKeeps(w: World, rid: nat, c: Choice)
    requires Here(w, rid) && w.runs[rid].pc.AtLoop?
    ensures Here(Advance(w, rid, c), rid)
  {
    var run := w.runs[rid];
    var f := run.pc.frame;
    if run.cancelled {
      CloseKeeps(w, rid, run, f, 1 + 2 * f.index,
                 RunResult(f.changed, true, 0, f.current.status.phase, Some(Repo(Cancelled))));
    } else {
      MoveArrives(w, rid, run, f, f, MadeAt(run.pc), AtMark(f));
    }
  }

  lemma MarkKeeps(w: World, rid: nat)
    requires Here(w, rid) && w.runs[rid].pc.AtMark?
    ensures var f := w.runs[rid].pc.frame;
            f.HasStep() && Here(AdvanceMark(w, rid, w.runs[rid], f), rid)
  {
    hide FrameOk, TenantOk, WriteOk, Bookkeeping, SetCheckpoint, SetCondition;
    var run := w.runs[rid];
    var f := run.pc.frame;
    CurrentOk(w, rid, run, f, MadeAt(run.pc));
    var next := Proposed(f.current, MarkedStatus(f.current, f.plan[f.index].name));
    MarkedWrite(f);
    AttemptKeeps(w, rid, run, f, MadeAt(run.pc), f.(current := next), f.changed, AtEnsure(f.(current := next)));
  }

  lemma EnsureKeeps(w: World, rid: nat, c: Choice)
    requires Here(w, rid) && w.runs[rid].pc.AtEnsure?
    ensures var f := w.runs[rid].pc.frame;
            f.HasStep() && Here(AdvanceEnsure(w, rid, w.runs[rid], f, c), rid)
  {
    hide WriteOk, TenantOk, Bookkeeping, Chain;
    var run := w.runs[rid];
    var f := run.pc.frame;
    var g := f.(changed := f.changed || c.observed);
    match c.fault
    case Some(fault) => MoveArrives(w, rid, run, f, g, MadeAt(run.pc),
                                    AtFail(g, f.plan[f.index].name, ClassifyFailure(fault), true));
    case None => MoveArrives(w, rid, run, f, g, MadeAt(run.pc), AtCheckpoint(g, c.observed));
  }

  lemma CheckpointKeeps(w: World, rid: nat, c: Choice)
    requires Here(w, rid) && w.runs[rid].pc.AtCheckpoint?
    ensures var f := w.runs[rid].pc.frame;
            f.HasStep() && Here(AdvanceCheckpoint(w, rid, w.runs[rid], f, w.runs[rid].pc.observed, c), rid)
  {
    hide FrameOk, TenantOk, WriteOk, Bookkeeping, SetCheckpoint, SetCondition;
    var run := w.runs[rid];
    var f := run.pc.frame;
    CurrentOk(w, rid, run, f, MadeAt(run.pc));
    var next := Proposed(f.current, CheckpointedStatus(f.current, f.plan[f.index], run.pc.observed, c.now));
    var g := f.(index := f.index + 1, current := next);
    CheckpointedWrite(f, run.pc.observed, c.now);
    AttemptKeeps(w, rid, run, f, MadeAt(run.pc), g, f.changed, if g.index < |g.plan| then AtLoop(g) else AtFinish(g));
  }

  lemma FinishKeeps(w: World, rid: nat, c: Choice)
    requires Here(w, rid) && w.runs[rid].pc.AtFinish?
    ensures Here(AdvanceFinish(w, rid, w.runs[rid], w.runs[rid].pc.frame, c), rid)
  {
    hide FrameOk, TenantOk, WriteOk, Bookkeeping, SetCheckpoint, SetCondition;
    var run := w.runs[rid];
    var f := run.pc.frame;
    CurrentOk(w, rid, run, f, MadeAt(run.pc));
    var next := Proposed(f.current, FinishedStatus(f.current, c.now));
    FinishedWrite(f, c.now, c.later);
    AttemptLastKeeps(w, rid, run, f, MadeAt(run.pc), next, Clock(c.now, c.later), f.changed,
                     RunResult(f.changed, false, 0, next.status.phase, None));
  }

  lemma FailKeeps(w: World, rid: nat, c: Choice)
    requires Here(w, rid) && w.runs[rid].pc.AtFail?
    ensures var pc := w.runs[rid].pc;
            Here(AdvanceFail(w, rid, w.runs[rid], pc.frame, pc.stepName, pc.failure, pc.midway, c), rid)
  {
    hide FrameOk, TenantOk, WriteOk, Bookkeeping, SetCheckpoint, SetCondition;
    var run := w.runs[rid];
    var f, failure, changed := run.pc.frame, run.pc.failure, run.pc.midway && run.pc.frame.changed;
    var next := Proposed(f.current, FailedStatus(f.current, run.pc.stepName, failure, c.now, c.later));
    var made := MadeAt(run.pc);
    CurrentOk(w, rid, run, f, made);
    FailedWrite(f, made, run.pc.stepName, failure, c.now, c.later, FailureResult(f, failure, changed));
    AttemptLastKeeps(w, rid, run, f, made, next, Clock(c.now, c.later), changed, FailureResult(f, failure, changed));
  }

  /** A run that has just read the resource has written nothing, and holds what is stored. */
  lemma FirstFrame(w: World, v: World, rid: nat, run: Run, f: Frame)
    requires v.resources == w.resources && v.history == w.history
    requires run.tenant in w.resources && TenantOk(w, run.tenant) && (f.plan == [] || ValidPlan(f.plan))
    requires f.base == f.current == w.resources[run.tenant] && f.start == |HistoryOf(w, run.tenant)|
    ensures FrameOk(v, rid, run, f, 0)
  {
    hide ValidPlan, HonestTerminal, Bookkeeping;
  }

  lemma GetKeeps(w: World, rid: nat, c: Choice)
    requires rid in w.runs && RunOk(w, rid) && w.runs[rid].pc.AtGet?
    requires w.runs[rid].tenant in w.resources ==> TenantOk(w, w.runs[rid].tenant)
    ensures var v := AdvanceGet(w, rid, w.runs[rid], w.runs[rid].pc.lease, c);
            RunOk(v, rid) && v.resources == w.resources && v.history == w.history && v.plans == w.plans
  {
    hide Cas, HonestTerminal, SetCheckpoint, FrameOk, TenantOk;
    var run := w.runs[rid];
    var v := AdvanceGet(w, rid, run, run.pc.lease, c);
    match Read(w.resources, run.cancelled, run.tenant)
    case Err(_) =>
    case Ok(r) =>
      var f := Frame(run.pc.lease, |HistoryOf(w, run.tenant)|, r, [], 0, r, false, UNREAD_CLOCK);
      FirstFrame(w, v, rid, v.runs[rid], f);
      if c.plan.Some? && ValidPlan(c.plan.value) { FirstFrame(w, v, rid, v.runs[rid], f.(plan := c.plan.value)); }
  }

  // ----- the runs that did not move -----

  lemma CasLocal(w: World, rid: nat, run: Run, f: Frame, status: Status)
    requires run.tenant == f.current.tenantId
    ensures var v := Cas(w, rid, run, f.current, status).0;
            && v.runs == w.runs && v.leases == w.leases
            && DataLocal(w, v, run.tenant) && StatusWrite(w, v, rid, run.tenant)
  {
  }

  /** A step between acquiring and releasing: it moves the run, perhaps writes its tenant, and keeps its lease. */
  ghost predicate Inner(w: World, v: World, rid: nat)
    requires rid in w.runs
  {
    && RunsLocal(w, v, rid)
    && DataLocal(w, v, w.runs[rid].tenant) && StatusWrite(w, v, rid, w.runs[rid].tenant)
    && v.leases == w.leases
    && LeaseOf(v.runs[rid].pc) == LeaseOf(w.runs[rid].pc)
  }

  lemma GotoInner(w: World, u: World, rid: nat, pc: Pc)
    requires rid in w.runs && u.runs == w.runs && u.leases == w.leases
    requires DataLocal(w, u, w.runs[rid].tenant) && StatusWrite(w, u, rid, w.runs[rid].tenant)
    requires LeaseOf(pc) == LeaseOf(w.runs[rid].pc)
    ensures Inner(w, Goto(u, rid, w.runs[rid], pc), rid)
  {
  }

  lemma StartInner(w: World, rid: nat, f: Frame)
    requires rid in w.runs && w.runs[rid].pc == AtStart(f) && f.current.tenantId == w.runs[rid].tenant
    ensures Inner(w, AdvanceStart(w, rid, w.runs[rid], f), rid)
  {
    hide Cas, DataLocal, StatusWrite, SetCheckpoint, SetCondition;
    var u := Cas(w, rid, w.runs[rid], f.current, StartedStatus(f.current)).0;
    var v := AdvanceStart(w, rid, w.runs[rid], f);
    CasLocal(w, rid, w.runs[rid], f, StartedStatus(f.current));
    GotoInner(w, u, rid, v.runs[rid].pc);
  }

  lemma MarkInner(w: World, rid: nat, f: Frame)
    requires rid in w.runs && w.runs[rid].pc == AtMark(f) && f.current.tenantId == w.runs[rid].tenant && f.HasStep()
    ensures Inner(w, AdvanceMark(w, rid, w.runs[rid], f), rid)
  {
    hide Cas, DataLocal, StatusWrite, SetCheckpoint, SetCondition;
    var u := Cas(w, rid, w.runs[rid], f.current, MarkedStatus(f.current, f.plan[f.index].name)).0;
    var v := AdvanceMark(w, rid, w.runs[rid], f);
    CasLocal(w, rid, w.runs[rid], f, MarkedStatus(f.current, f.plan[f.index].name));
    GotoInner(w, u, rid, v.runs[rid].pc);
  }

  lemma CheckpointInner(w: World, rid: nat, f: Frame, observed: bool, c: Choice)
    requires rid in w.runs && w.runs[rid].pc == AtCheckpoint(f, observed) && f.current.tenantId == w.runs[rid].tenant
    requires f.HasStep()
    ensures Inner(w, AdvanceCheckpoint(w, rid, w.runs[rid], f, observed, c), rid)
  {
    hide Cas, DataLocal, StatusWrite, SetCheckpoint, SetCondition;
    var u := Cas(w, rid, w.runs[rid], f.current, CheckpointedStatus(f.current, f.plan[f.index], observed, c.now)).0;
    var v := AdvanceCheckpoint(w, rid, w.runs[rid], f, observed, c);
    CasLocal(w, rid, w.runs[rid], f, CheckpointedStatus(f.current, f.plan[f.index], observed, c.now));
    GotoInner(w, u, rid, v.runs[rid].pc);
  }

  lemma FinishInner(w: World, rid: nat, f: Frame, c: Choice)
    requires rid in w.runs && w.runs[rid].pc == AtFinish(f) && f.current.tenantId == w.runs[rid].tenant
    ensures Inner(w, AdvanceFinish(w, rid, w.runs[rid], f, c), rid)
  {
    hide Cas, SetCondition, DataLocal, StatusWrite, SetCheckpoint, FinishedStatus, HistoryOf;
    var (u, r) := Cas(w, rid, w.runs[rid], f.current, FinishedStatus(f.current, c.now));
    CasLocal(w, rid, w.runs[rid], f, FinishedStatus(f.current, c.now));
    var t := if r.Ok? then u.(plans := u.plans[w.runs[rid].tenant := f.plan]) else u;
    GotoInner(w, t, rid, AdvanceFinish(w, rid, w.runs[rid], f, c).runs[rid].pc);
  }

  lemma FailInner(w: World, rid: nat, f: Frame, stepName: string, failure: StepError, midway: bool, c: Choice)
    requires rid in w.runs && w.runs[rid].pc == AtFail(f, stepName, failure, midway)
    requires f.current.tenantId == w.runs[rid].tenant
    ensures Inner(w, AdvanceFail(w, rid, w.runs[rid], f, stepName, failure, midway, c), rid)
  {
    hide Cas, DataLocal, StatusWrite, SetCheckpoint, SetCondition;
    var u := Cas(w, rid, w.runs[rid], f.current, FailedStatus(f.current, stepName, failure, c.now, c.later)).0;
    var v := AdvanceFail(w, rid, w.runs[rid], f, stepName, failure, midway, c);
    CasLocal(w, rid, w.runs[rid], f, FailedStatus(f.current, stepName, failure, c.now, c.later));
    GotoInner(w, u, rid, v.runs[rid].pc);
  }

  lemma QuietInner(w: World, rid: nat, pc: Pc)
    requires rid in w.runs && LeaseOf(pc) == LeaseOf(w.runs[rid].pc)
    ensures Inner(w, w, rid) && Inner(w, Goto(w, rid, w.runs[rid], pc), rid)
  {
  }

  lemma GetInner(w: World, rid: nat, c: Choice)
    requires rid in w.runs && w.runs[rid].pc.AtGet?
    ensures Inner(w, Advance(w, rid, c), rid)
  {
    hide ValidPlan, Inner;
    hide AdvanceStart, AdvanceMark, AdvanceCheckpoint, AdvanceFinish, AdvanceFail, Cas;
    QuietInner(w, rid, Advance(w, rid, c).runs[rid].pc);
  }

  lemma PauseInner(w: World, rid: nat, c: Choice)
    requires rid in w.runs && (w.runs[rid].pc.AtLoop? || w.runs[rid].pc.AtEnsure?)
    ensures Inner(w, Advance(w, rid, c), rid)
  {
    hide Inner;
    hide AdvanceGet, AdvanceStart, AdvanceMark, AdvanceCheckpoint, AdvanceFinish, AdvanceFail, Cas;
    QuietInner(w, rid, Advance(w, rid, c).runs[rid].pc);
  }

  lemma AdvanceInner(w: World, rid: nat, c: Choice)
    requires rid in w.runs && RunOk(w, rid)
    requires !w.runs[rid].pc.AtAcquire? && !w.runs[rid].pc.AtRelease?
    ensures Inner(w, Advance(w, rid, c), rid)
  {
    hide Chain, OnlyWriters, Bookkeeping, ClosingOk, ValidPlan, Cas, Inner, Versioned, HoldsLease;
    hide AdvanceStart, AdvanceMark, AdvanceCheckpoint, AdvanceFinish, AdvanceFail;
    QuietInner(w, rid, w.runs[rid].pc);
    match w.runs[rid].pc
    case AtGet(_) => GetInner(w, rid, c);
    case AtLoop(_) => PauseInner(w, rid, c);
    case AtEnsure(_) => PauseInner(w, rid, c);
    case AtStart(f) => StartInner(w, rid, f);
    case AtMark(f) => if f.HasStep() { MarkInner(w, rid, f); }
    case AtCheckpoint(f, observed) => if f.HasStep() { CheckpointInner(w, rid, f, observed, c); }
    case AtFinish(f) => FinishInner(w, rid, f, c);
    case AtFail(f, stepName, failure, midway) => FailInner(w, rid, f, stepName, failure, midway, c);
    case _ =>
  }

  /** A step of one run disturbs no other run: a run that holds a lease works on another tenant,
      and a returned run's outcome is about history already written. */
  lemma FrameTenant(w: World, rid: nat, run: Run)
    requires FrameAt(run.pc).Some? && FrameOk(w, rid, run, FrameAt(run.pc).value, MadeAt(run.pc))
    ensures run.tenant in w.resources && run.tenant in w.history
  {
    hide Chain, OnlyWriters, Bookkeeping, ValidPlan;
  }

  lemma FrameElsewhere(w: World, v: World, rid: nat, run: Run, f: Frame, made: nat)
    requires FrameOk(w, rid, run, f, made)
    requires run.tenant in v.resources && v.resources[run.tenant] == w.resources[run.tenant]
    requires run.tenant in v.history && v.history[run.tenant] == w.history[run.tenant]
    ensures FrameOk(v, rid, run, f, made)
  {
    hide Chain, OnlyWriters, Bookkeeping, ValidPlan;
  }

  lemma OtherKept(w: World, v: World, rid: nat, other: nat)
    requires Inv(w) && rid in w.runs && other in w.runs && other != rid
    requires Local(w, v, rid)
    ensures RunOk(v, other)
  {
    hide FrameOk, OutcomeOk, TenantOk;
    assert RunOk(w, rid) && RunOk(w, other);
    var run, mover := w.runs[other], w.runs[rid];
    if run.pc.Returned? {
      if run.pc.closing.Finished? && run.tenant == mover.tenant {
        OutcomeKept(other, run.pc.closing.frame, run.pc.closing.closedAt, run.pc.result,
                    w.history[run.tenant], v.history[run.tenant]);
      }
    } else if LeaseOf(run.pc).Some? && LeaseOf(mover.pc).Some? {
      assert Live(w.leases, LeaseOf(run.pc).value) && Live(w.leases, LeaseOf(mover.pc).value);
      assert run.tenant != mover.tenant;
    }
    if FrameAt(run.pc).Some? {
      FrameTenant(w, other, run);
      FrameElsewhere(w, v, other, run, FrameAt(run.pc).value, MadeAt(run.pc));
    }
  }

  // ----- every action, every run of actions -----

  lemma AcquireLocal(w: World, rid: nat)
    requires Inv(w) && rid in w.runs && w.runs[rid].pc.AtAcquire?
    ensures var v := AdvanceAcquire(w, rid, w.runs[rid]);
            Local(w, v, rid) && Exclusive(v.leases) && Separate(v)
  {
    hide RunOk, TenantOk, Exclusive, Separate;
    AcquireExclusive(w.leases, w.runs[rid].cancelled, w.runs[rid].tenant);
    AcquireSeparate(w, rid);
  }

  lemma AcquireSeparate(w: World, rid: nat)
    requires Inv(w) && rid in w.runs && w.runs[rid].pc.AtAcquire?
    ensures Separate(AdvanceAcquire(w, rid, w.runs[rid]))
  {
    hide RunOk, TenantOk, Exclusive, Separate;
    LeasesIssued(w);
    AcquireStaysSeparate(w, rid);
  }

  lemma AcquireStaysSeparate(w: World, rid: nat)
    requires Separate(w) && rid in w.runs && w.runs[rid].pc.AtAcquire?
    requires forall k: nat :: k in w.runs && LeaseOf(w.runs[k].pc).Some? ==>
        LeaseOf(w.runs[k].pc).value < |w.leases.issued|
    ensures Separate(AdvanceAcquire(w, rid, w.runs[rid]))
  {
    hide Live, AdvanceAcquire;
    AcquiredAreHeld(w, rid);
    AcquiredAreDistinct(w, rid);
  }

  lemma AcquiredAreDistinct(w: World, rid: nat)
    requires Separate(w) && rid in w.runs && w.runs[rid].pc.AtAcquire?
    requires forall k: nat :: k in w.runs && LeaseOf(w.runs[k].pc).Some? ==>
        LeaseOf(w.runs[k].pc).value < |w.leases.issued|
    ensures var v := AdvanceAcquire(w, rid, w.runs[rid]);
            forall a: nat, b: nat :: a in v.runs && b in v.runs && a != b && LeaseOf(v.runs[a].pc).Some? ==>
              LeaseOf(v.runs[a].pc) != LeaseOf(v.runs[b].pc)
  {
    hide Live;
  }

  lemma AcquiredAreHeld(w: World, rid: nat)
    requires Separate(w) && rid in w.runs && w.runs[rid].pc.AtAcquire?
    ensures var v := AdvanceAcquire(w, rid, w.runs[rid]);
            forall k: nat :: Live(v.leases, k) ==> exists a: nat :: a in v.runs && LeaseOf(v.runs[a].pc) == Some(k)
  {
    var v := AdvanceAcquire(w, rid, w.runs[rid]);
    forall k: nat | Live(v.leases, k) ensures exists a: nat :: a in v.runs && LeaseOf(v.runs[a].pc) == Some(k) {
      if k < |w.leases.issued| {
        assert Live(w.leases, k);
        var a: nat :| a in w.runs && LeaseOf(w.runs[a].pc) == Some(k);
        assert a in v.runs && v.runs[a] == w.runs[a];
      } else {
        assert LeaseOf(v.runs[rid].pc) == Some(k);
      }
    }
  }

  lemma LeasesIssued(w: World)
    requires Inv(w)
    ensures forall k: nat :: k in w.runs && LeaseOf(w.runs[k].pc).Some? ==>
              LeaseOf(w.runs[k].pc).value < |w.leases.issued|
  {
    hide FrameOk, ClosingOk, TenantOk, Exclusive;
    forall k: nat | k in w.runs && LeaseOf(w.runs[k].pc).Some?
      ensures LeaseOf(w.runs[k].pc).value < |w.leases.issued|
    {
      assert RunOk(w, k);
    }
  }

  lemma AcquireKeeps(w: World, rid: nat)
    requires rid in w.runs && w.runs[rid].pc.AtAcquire?
    ensures RunOk(AdvanceAcquire(w, rid, w.runs[rid]), rid)
  {
  }

  lemma ReleaseLocal(w: World, rid: nat, c: Choice)
    requires Inv(w) && rid in w.runs && w.runs[rid].pc.AtRelease?
    ensures var v := Advance(w, rid, c);
            Local(w, v, rid) && Exclusive(v.leases) && Separate(v) && RunOk(v, rid)
  {
    hide FrameOk, OutcomeOk, TenantOk, Exclusive, Separate;
    assert RunOk(w, rid);
    ReleaseExclusive(w.leases, w.runs[rid].pc.lease);
    ReleaseSeparate(w, rid, c);
  }

  lemma ReleaseSeparate(w: World, rid: nat, c: Choice)
    requires Inv(w) && rid in w.runs && w.runs[rid].pc.AtRelease?
    ensures Separate(Advance(w, rid, c))
  {
    hide FrameOk, OutcomeOk, TenantOk, Exclusive, Separate, Advance;
    assert RunOk(w, rid);
    ReleaseStaysSeparate(w, rid, c);
  }

  lemma ReleaseStaysSeparate(w: World, rid: nat, c: Choice)
    requires Separate(w) && Exclusive(w.leases) && rid in w.runs && w.runs[rid].pc.AtRelease?
    requires HoldsLease(w, w.runs[rid], w.runs[rid].pc.lease)
    ensures Separate(Advance(w, rid, c))
  {
    hide Exclusive, Live;
    ReleasedAreHeld(w, rid, c);
  }

  lemma ReleasedAreHeld(w: World, rid: nat, c: Choice)
    requires Separate(w) && Exclusive(w.leases) && rid in w.runs && w.runs[rid].pc.AtRelease?
    requires HoldsLease(w, w.runs[rid], w.runs[rid].pc.lease)
    ensures var v := Advance(w, rid, c);
            forall k: nat :: Live(v.leases, k) ==> exists a: nat :: a in v.runs && LeaseOf(v.runs[a].pc) == Some(k)
  {
    hide Exclusive;
    ReleaseExclusive(w.leases, w.runs[rid].pc.lease);
    var v := Advance(w, rid, c);
    forall k: nat | Live(v.leases, k) ensures exists a: nat :: a in v.runs && LeaseOf(v.runs[a].pc) == Some(k) {
      assert Live(w.leases, k);
      var a: nat :| a in w.runs && LeaseOf(w.runs[a].pc) == Some(k);
      assert a in v.runs && v.runs[a] == w.runs[a];
    }
  }

  lemma InnerLocal(w: World, v: World, rid: nat)
    requires Inv(w) && rid in w.runs && Inner(w, v, rid)
    requires LeaseOf(w.runs[rid].pc).None? ==>
        v.resources == w.resources && v.history == w.history && v.plans == w.plans
    ensures Local(w, v, rid) && Exclusive(v.leases) && Separate(v)
  {
    hide RunOk, TenantOk, Exclusive;
  }

  /** The moving run's own invariant and its tenant's, whatever the step. */
  lemma MoverKept(w: World, rid: nat, c: Choice)
    requires Inv(w) && rid in w.runs && !w.runs[rid].pc.AtAcquire? && !w.runs[rid].pc.AtRelease?
    ensures var v := Advance(w, rid, c);
            && RunOk(v, rid)
            && (w.runs[rid].tenant in v.resources ==> TenantOk(v, w.runs[rid].tenant))
            && (w.runs[rid].pc.Returned? ==> v == w)
  {
    hide FrameOk, ClosingOk, TenantOk, HoldsLease, AdvanceStart, AdvanceMark, AdvanceCheckpoint, AdvanceFinish,
         AdvanceFail, DataLocal, StatusWrite;
    assert RunOk(w, rid);
    AdvanceInner(w, rid, c);
    var run := w.runs[rid];
    if run.tenant in w.resources { assert TenantOk(w, run.tenant); }
    if FrameAt(run.pc).Some? { HereAtFrame(w, rid); }
    match run.pc
    case AtGet(_) => GetKeeps(w, rid, c); GetLeavesTenant(w, rid, c);
    case AtStart(_) => StartKeeps(w, rid);
    case AtLoop(_) => LoopKeeps(w, rid, c);
    case AtMark(_) => MarkKeeps(w, rid);
    case AtEnsure(_) => EnsureKeeps(w, rid, c);
    case AtCheckpoint(_, _) => CheckpointKeeps(w, rid, c);
    case AtFinish(_) => FinishKeeps(w, rid, c);
    case AtFail(_, _, _, _) => FailKeeps(w, rid, c);
    case Returned(_, _) =>
  }

  lemma HereAtFrame(w: World, rid: nat)
    requires Inv(w) && rid in w.runs && FrameAt(w.runs[rid].pc).Some?
    ensures Here(w, rid)
  {
    assert RunOk(w, rid);
    assert TenantOk(w, w.runs[rid].tenant);
  }

  lemma GetLeavesTenant(w: World, rid: nat, c: Choice)
    requires rid in w.runs && w.runs[rid].pc.AtGet?
    ensures var v := AdvanceGet(w, rid, w.runs[rid], w.runs[rid].pc.lease, c);
            TenantOk(w, w.runs[rid].tenant) ==> TenantOk(v, w.runs[rid].tenant)
  {
  }

  lemma MoveKeepsInv(w: World, rid: nat, c: Choice)
    requires Inv(w) && rid in w.runs
    ensures Inv(Advance(w, rid, c))
  {
    hide RunOk, TenantOk, Exclusive, Inner, FrameOk, ClosingOk, Advance;
    var v := Advance(w, rid, c);
    var run := w.runs[rid];
    MoveEffect(w, rid, c);
    forall id | id in v.resources ensures TenantOk(v, id) {
      assert TenantOk(w, id);
      if id != run.tenant { TenantKept(w, v, rid, id); }
    }
    forall k: nat | k in v.runs ensures RunOk(v, k) {
      if k != rid { OtherKept(w, v, rid, k); }
    }
  }

  lemma TenantKept(w: World, v: World, rid: nat, id: TenantId)
    requires rid in w.runs && Local(w, v, rid) && id != w.runs[rid].tenant && TenantOk(w, id)
    ensures TenantOk(v, id)
  {
  }

  /** A step, all told: it is local, and the mover and its tenant stay in order. */
  lemma MoveEffect(w: World, rid: nat, c: Choice)
    requires Inv(w) && rid in w.runs
    ensures var v := Advance(w, rid, c);
            && Local(w, v, rid) && Exclusive(v.leases) && Separate(v) && RunOk(v, rid)
            && (w.runs[rid].tenant in v.resources ==> TenantOk(v, w.runs[rid].tenant))
  {
    hide TenantOk, Exclusive, Inner, FrameOk, ClosingOk, Local, AdvanceGet;
    assert RunOk(w, rid);
    if w.runs[rid].pc.AtAcquire? {
      AcquireLocal(w, rid);
      AcquireKeeps(w, rid);
      LeavesTenants(w, rid, c);
    } else if w.runs[rid].pc.AtRelease? {
      ReleaseLocal(w, rid, c);
      LeavesTenants(w, rid, c);
    } else {
      AdvanceInner(w, rid, c);
      MoverKept(w, rid, c);
      if w.runs[rid].pc.Returned? { LeavesTenants(w, rid, c); }
      InnerLocal(w, Advance(w, rid, c), rid);
    }
  }

  lemma LeavesTenants(w: World, rid: nat, c: Choice)
    requires Inv(w) && rid in w.runs
    requires w.runs[rid].pc.AtAcquire? || w.runs[rid].pc.AtRelease? || w.runs[rid].pc.Returned?
    ensures var v := Advance(w, rid, c);
            && v.resources == w.resources && v.history == w.history && v.plans == w.plans
            && (w.runs[rid].tenant in v.resources ==> TenantOk(v, w.runs[rid].tenant))
  {
    hide RunOk, Exclusive;
    if w.runs[rid].tenant in w.resources { assert TenantOk(w, w.runs[rid].tenant); }
  }

  lemma SpecWriteTenant(w: World, cancelled: bool, id: TenantId, expected: nat, spec: Spec)
    requires TenantOk(w, id)
    ensures TenantOk(UpdateDesiredState(w, cancelled, id, expected, spec), id)
  {
    hide Cas;
    var v := UpdateDesiredState(w, cancelled, id, expected, spec);
    if v != w {
      assert v.resources[id].Valid();
    }
  }

  lemma SpecWriteLocal(w: World, cancelled: bool, id: TenantId, expected: nat, spec: Spec)
    ensures var v := UpdateDesiredState(w, cancelled, id, expected, spec);
            && DataLocal(w, v, id) && v.plans == w.plans && v.leases == w.leases && v.runs == w.runs
            && (v != w && id in w.history ==>
                  && id in w.resources && id in v.resources && id in v.history
                  && |v.history[id]| == |w.history[id]| + 1
                  && v.history[id][|w.history[id]|].author == BySpecWriter
                  && v.resources[id].resourceVersion == w.resources[id].resourceVersion + 1)
  {
  }

  /** A desired-state write leaves each run's view valid: it only adds to what came after the run's last look. */
  lemma SpecWriteFrame(w: World, v: World, rid: nat, run: Run, f: Frame, made: nat)
    requires FrameOk(w, rid, run, f, made)
    requires v.resources.Keys == w.resources.Keys && run.tenant in v.history
    requires w.history[run.tenant] <= v.history[run.tenant]
    requires |v.history[run.tenant]| == |w.history[run.tenant]| + 1
    requires v.history[run.tenant][|w.history[run.tenant]|].author == BySpecWriter
    requires v.resources[run.tenant].resourceVersion == w.resources[run.tenant].resourceVersion + 1
    ensures FrameOk(v, rid, run, f, made)
  {
    hide WriteOk, Bookkeeping, ValidPlan;
    var h, g := w.history[run.tenant], v.history[run.tenant];
    assert forall i :: 0 <= i < |h| ==> g[i] == h[i];
  }

  lemma SpecWriteKeepsInv(w: World, cancelled: bool, id: TenantId, expected: nat, spec: Spec)
    requires Inv(w)
    ensures Inv(UpdateDesiredState(w, cancelled, id, expected, spec))
  {
    hide TenantOk, FrameOk, OutcomeOk, Exclusive, UpdateDesiredState;
    var v := UpdateDesiredState(w, cancelled, id, expected, spec);
    SpecWriteLocal(w, cancelled, id, expected, spec);
    if v != w {
      forall x | x in v.resources ensures TenantOk(v, x) {
        assert TenantOk(w, x);
        if x == id { SpecWriteTenant(w, cancelled, id, expected, spec); } else { SpecWriteOther(w, v, id, x); }
      }
      forall rid: nat | rid in v.runs ensures RunOk(v, rid) {
        assert RunOk(w, rid);
        SpecWriteRun(w, v, id, rid);
      }
    }
  }

  lemma SpecWriteOther(w: World, v: World, id: TenantId, x: TenantId)
    requires TenantOk(w, x) && x != id && DataLocal(w, v, id)
    ensures TenantOk(v, x)
  {
  }

  lemma SpecWriteRun(w: World, v: World, id: TenantId, rid: nat)
    requires Inv(w) && RunOk(w, rid) && DataLocal(w, v, id) && v.leases == w.leases && v.runs == w.runs
    requires id in w.history ==>
               && id in w.resources && id in v.resources && id in v.history
               && |v.history[id]| == |w.history[id]| + 1
               && v.history[id][|w.history[id]|].author == BySpecWriter
               && v.resources[id].resourceVersion == w.resources[id].resourceVersion + 1
    ensures RunOk(v, rid)
  {
    hide TenantOk, Settled, Exclusive, Chain, OnlyWriters, Bookkeeping;
    var run := w.runs[rid];
    if FrameAt(run.pc).Some? {
      if run.tenant == id {
        SpecWriteFrame(w, v, rid, run, FrameAt(run.pc).value, MadeAt(run.pc));
      }
    } else if (run.pc.AtRelease? || run.pc.Returned?) && run.pc.closing.Finished? {
      OutcomeKept(rid, run.pc.closing.frame, run.pc.closing.closedAt, run.pc.result,
                  w.history[run.tenant], v.history[run.tenant]);
    }
  }
}
