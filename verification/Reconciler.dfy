/** The pieces of one reconcile run, and the run as a machine that makes one
    mutex-protected call (or one Step.Ensure) per step. */
module Reconciler {
  import opened Basics
  import opened Lifecycle
  import opened Leases

  const READY_CONDITION := "Ready"
  const SECOND := 1_000_000_000
  const COUNT_LIMIT := 0x1_0000_0000

  datatype PlannedStep = NilStep | Step(name: string, version: string)

  datatype StepError = StepError(code: string, safeMessage: string, retryable: bool)

  /** The error of Step.Ensure: a StepError somewhere in its chain, or anything else. */
  datatype Fault = Classified(failure: StepError) | Opaque

  datatype RunError = LeaseRefused(lease: LeaseError) | Repo(repo: RepoError) | StepFailed(failure: StepError)

  datatype RunResult = RunResult(changed: bool, requeue: bool, requeueAfter: nat, phase: Phase, error: Option<RunError>)

  // ----- plans -----

  predicate ValidPlan(steps: seq<PlannedStep>) {
    && steps != []
    && (forall i :: 0 <= i < |steps| ==> steps[i].Step? && steps[i].name != "" && steps[i].version != "")
    && (forall i, j :: 0 <= i < j < |steps| ==> steps[i].name != steps[j].name)
  }

  method ValidatePlan(steps: seq<PlannedStep>) returns (ok: bool)
    ensures ok <==> ValidPlan(steps)
  {
    if |steps| == 0 { return false; }
    var seen: set<string> := {};
    for k := 0 to |steps|
      invariant forall i :: 0 <= i < k ==> steps[i].Step? && steps[i].name != "" && steps[i].version != ""
      invariant forall name :: name in seen <==> exists i :: 0 <= i < k && steps[i].Step? && steps[i].name == name
      invariant forall i, j :: 0 <= i < j < k ==> steps[i].name != steps[j].name
    {
      var step := steps[k];
      if step.NilStep? { return false; }
      if step.name == "" || step.version == "" { return false; }
      if step.name in seen { return false; }
      seen := seen + {step.name};
    }
    return true;
  }

  // ----- checkpoints and conditions -----

  predicate SameCheckpoint(a: Checkpoint, b: Checkpoint) {
    a.step == b.step && a.version == b.version && a.generation == b.generation
  }

  /** Overwrites the first checkpoint of the same step, version and generation, or appends. */
  function SetCheckpoint(checkpoints: seq<Checkpoint>, c: Checkpoint): (r: seq<Checkpoint>)
    ensures c in r
    ensures forall d :: d in r ==> d == c || d in checkpoints
  {
    if checkpoints == [] then [c]
    else if SameCheckpoint(checkpoints[0], c) then [c] + checkpoints[1..]
    else [checkpoints[0]] + SetCheckpoint(checkpoints[1..], c)
  }

  lemma {:induction false} SetCheckpointAt(checkpoints: seq<Checkpoint>, k: nat, c: Checkpoint)
    requires k <= |checkpoints|
    requires forall i :: 0 <= i < k ==> !SameCheckpoint(checkpoints[i], c)
    ensures k < |checkpoints| && SameCheckpoint(checkpoints[k], c) ==>
              SetCheckpoint(checkpoints, c) == checkpoints[k := c]
    ensures k == |checkpoints| ==> SetCheckpoint(checkpoints, c) == checkpoints + [c]
  {
    if k > 0 {
      SetCheckpointAt(checkpoints[1..], k - 1, c);
    }
  }

  method UpsertCheckpoint(checkpoints: seq<Checkpoint>, c: Checkpoint) returns (result: seq<Checkpoint>)
    ensures result == SetCheckpoint(checkpoints, c)
  {
    result := checkpoints;
    for k := 0 to |result|
      invariant result == checkpoints
      invariant forall i :: 0 <= i < k ==> !SameCheckpoint(checkpoints[i], c)
    {
      if result[k].step == c.step && result[k].version == c.version && result[k].generation == c.generation {
        SetCheckpointAt(checkpoints, k, c);
        result := result[k := c];
        return;
      }
    }
    SetCheckpointAt(checkpoints, |checkpoints|, c);
    result := result + [c];
  }

  predicate DistinctCheckpoints(checkpoints: seq<Checkpoint>) {
    forall i, j :: 0 <= i < j < |checkpoints| ==> !SameCheckpoint(checkpoints[i], checkpoints[j])
  }

  predicate Checkpointed(checkpoints: seq<Checkpoint>, step: PlannedStep, generation: nat) {
    && step.Step?
    && exists c ::
         c in checkpoints && c.step == step.name && c.version == step.version && c.generation == generation
  }

  lemma {:induction false} SetCheckpointKeeps(checkpoints: seq<Checkpoint>, c: Checkpoint)
    requires DistinctCheckpoints(checkpoints)
    ensures DistinctCheckpoints(SetCheckpoint(checkpoints, c))
    ensures forall d :: d in checkpoints && !SameCheckpoint(d, c) ==> d in SetCheckpoint(checkpoints, c)
  {
    if checkpoints != [] && !SameCheckpoint(checkpoints[0], c) {
      var rest := checkpoints[1..];
      SetCheckpointKeeps(rest, c);
      var r := SetCheckpoint(rest, c);
      forall j | 0 <= j < |r| ensures !SameCheckpoint(checkpoints[0], r[j]) {
        assert r[j] in r;
      }
    } else if checkpoints != [] {
      forall d | d in checkpoints && !SameCheckpoint(d, c) ensures d in SetCheckpoint(checkpoints, c) {
        assert d in checkpoints[1..];
      }
    }
  }

  lemma SetCheckpointCovers(checkpoints: seq<Checkpoint>, c: Checkpoint, step: PlannedStep, generation: nat)
    requires DistinctCheckpoints(checkpoints)
    requires Checkpointed(checkpoints, step, generation)
    ensures Checkpointed(SetCheckpoint(checkpoints, c), step, generation)
  {
    SetCheckpointKeeps(checkpoints, c);
    var d :| d in checkpoints && d.step == step.name && d.version == step.version && d.generation == generation;
    if SameCheckpoint(d, c) {
      assert c in SetCheckpoint(checkpoints, c);
    } else {
      assert d in SetCheckpoint(checkpoints, c);
    }
  }

  function SetCondition(conditions: seq<Condition>, c: Condition): seq<Condition> {
    if conditions == [] then [c]
    else if conditions[0].kind == c.kind then [c] + conditions[1..]
    else [conditions[0]] + SetCondition(conditions[1..], c)
  }

  lemma {:induction false} SetConditionAt(conditions: seq<Condition>, k: nat, c: Condition)
    requires k <= |conditions|
    requires forall i :: 0 <= i < k ==> conditions[i].kind != c.kind
    ensures k < |conditions| && conditions[k].kind == c.kind ==> SetCondition(conditions, c) == conditions[k := c]
    ensures k == |conditions| ==> SetCondition(conditions, c) == conditions + [c]
  {
    if k > 0 {
      SetConditionAt(conditions[1..], k - 1, c);
    }
  }

  method UpsertCondition(conditions: seq<Condition>, c: Condition) returns (result: seq<Condition>)
    ensures result == SetCondition(conditions, c)
  {
    result := conditions;
    for k := 0 to |result|
      invariant result == conditions
      invariant forall i :: 0 <= i < k ==> conditions[i].kind != c.kind
    {
      if result[k].kind == c.kind {
        SetConditionAt(conditions, k, c);
        result := result[k := c];
        return;
      }
    }
    SetConditionAt(conditions, |conditions|, c);
    result := result + [c];
  }

  function CountKind(conditions: seq<Condition>, kind: string): nat {
    if conditions == [] then 0
    else (if conditions[0].kind == kind then 1 else 0) + CountKind(conditions[1..], kind)
  }

  /** Setting a condition leaves it present once if there was at most one, and other kinds alone. */
  lemma {:induction false} SetConditionCounts(conditions: seq<Condition>, c: Condition, kind: string)
    ensures c in SetCondition(conditions, c)
    ensures CountKind(SetCondition(conditions, c), kind) ==
            if kind == c.kind && CountKind(conditions, kind) == 0 then 1 else CountKind(conditions, kind)
  {
    if conditions != [] {
      var r := SetCondition(conditions, c);
      if conditions[0].kind == c.kind {
        assert r[1..] == conditions[1..];
      } else {
        SetConditionCounts(conditions[1..], c, kind);
        assert r[1..] == SetCondition(conditions[1..], c);
      }
    }
  }

  // ----- phases, failures and backoff -----

  function StartingPhase(r: TenantResource): Phase {
    if r.spec.desired == Suspend then Suspending
    else if r.status.phase == Suspended || r.status.phase == Suspending then Resuming
    else Reconciling
  }

  function TerminalPhase(desired: DesiredState): Phase {
    if desired == Suspend then Suspended else Ready
  }

  function ReadinessCondition(desired: DesiredState): ConditionStatus {
    if desired == Suspend then ConditionFalse else ConditionTrue
  }

  function TerminalReason(desired: DesiredState): string {
    if desired == Suspend then "TenantSuspended" else "ReconcileSucceeded"
  }

  function TerminalMessage(desired: DesiredState): string {
    if desired == Suspend then "The tenant runtime is suspended." else "The tenant runtime is ready."
  }

  function ClassifyFailure(fault: Fault): StepError {
    match fault
    case Classified(f) =>
      StepError(if f.code == "" then "STEP_FAILED" else f.code,
                if f.safeMessage == "" then "A tenant lifecycle step failed." else f.safeMessage,
                f.retryable)
    case Opaque => StepError("STEP_FAILED", "A tenant lifecycle step failed.", true)
  }

  const INVALID_PLAN := StepError("INVALID_PLAN", "The tenant lifecycle plan is invalid.", false)

  function Pow2(n: nat): nat {
    if n == 0 then 1 else 2 * Pow2(n - 1)
  }

  /** The delay before the next try, in nanoseconds. */
  function Backoff(failures: nat): nat {
    if failures == 0 then 0
    else SECOND * Pow2(if failures - 1 > 6 then 6 else failures - 1)
  }

  lemma {:induction false} Pow2Grows(m: nat, n: nat)
    requires m <= n
    ensures Pow2(m) <= Pow2(n)
  {
    if m < n { Pow2Grows(m, n - 1); }
  }

  /** The delay is the smaller of 2^(k-1) and 64 seconds. */
  lemma BackoffDoublesToAMinute(k: nat)
    requires k > 0
    ensures Backoff(k) == SECOND * (if Pow2(k - 1) < 64 then Pow2(k - 1) else 64)
  {
    assert Pow2(6) == 64 by { assert Pow2(3) == 8; }
    if k - 1 <= 6 { Pow2Grows(k - 1, 6); } else { Pow2Grows(6, k - 1); }
  }

  // ----- the status each write proposes -----

  function StartedStatus(r: TenantResource): Status {
    r.status.(phase := StartingPhase(r), currentStep := "", retryAt := None)
  }

  function MarkedStatus(r: TenantResource, step: string): Status {
    r.status.(currentStep := step)
  }

  function StepCheckpoint(r: TenantResource, step: PlannedStep, changed: bool, now: int): Checkpoint
    requires step.Step?
  {
    Checkpoint(step.name, step.version, r.generation, changed, now)
  }

  function CheckpointedStatus(r: TenantResource, step: PlannedStep, changed: bool, now: int): Status
    requires step.Step?
  {
    r.status.(currentStep := "",
              checkpoints := SetCheckpoint(r.status.checkpoints, StepCheckpoint(r, step, changed, now)))
  }

  function TerminalCondition(r: TenantResource, now: int): Condition {
    Condition(READY_CONDITION, ReadinessCondition(r.spec.desired), TerminalReason(r.spec.desired),
              TerminalMessage(r.spec.desired), r.generation, now)
  }

  function FailureCondition(r: TenantResource, failure: StepError, later: int): Condition {
    Condition(READY_CONDITION, ConditionFalse, failure.code, failure.safeMessage, r.generation, later)
  }

  function FinishedStatus(r: TenantResource, now: int): Status {
    r.status.(observedGeneration := r.generation, currentStep := "", failureCount := 0, retryAt := None,
              phase := TerminalPhase(r.spec.desired),
              conditions := SetCondition(r.status.conditions, TerminalCondition(r, now)))
  }

  function NextFailureCount(r: TenantResource): nat {
    (r.status.failureCount + 1) % COUNT_LIMIT
  }

  function FailedStatus(r: TenantResource, step: string, failure: StepError, now: int, later: int): Status {
    r.status.(phase := Degraded, currentStep := step, failureCount := NextFailureCount(r),
              retryAt := if failure.retryable then Some(now + Backoff(NextFailureCount(r))) else None,
              conditions := SetCondition(r.status.conditions, FailureCondition(r, failure, later)))
  }

  // ----- one run -----

  /** Two readings of the clock, one after the other. */
  datatype Clock = Clock(now: int, later: int)

  const UNREAD_CLOCK := Clock(0, 0)

  /** The local variables of a run after its read: `start` is how many writes the tenant had seen,
      `clock` what the clock showed the write that ended the run. */
  datatype Frame = Frame(
    lease: nat, start: nat, base: TenantResource, plan: seq<PlannedStep>,
    index: nat, current: TenantResource, changed: bool, clock: Clock)
  {
    predicate HasStep() { index < |plan| && plan[index].Step? }
  }

  /** What a run had read and how many writes the tenant had seen when its outcome was fixed. */
  datatype Closing = Unread | Finished(frame: Frame, closedAt: nat)

  datatype Pc =
    | AtAcquire
    | AtGet(lease: nat)
    | AtStart(frame: Frame)
    | AtLoop(frame: Frame)
    | AtMark(frame: Frame)
    | AtEnsure(frame: Frame)
    | AtCheckpoint(frame: Frame, observed: bool)
    | AtFinish(frame: Frame)
    | AtFail(frame: Frame, stepName: string, failure: StepError, midway: bool)
    | AtRelease(lease: nat, closing: Closing, result: RunResult)
    | Returned(closing: Closing, result: RunResult)

  datatype Run = Run(tenant: TenantId, cancelled: bool, pc: Pc)

  datatype Author = ByRun(rid: nat) | BySpecWriter

  datatype Commit = Commit(author: Author, resource: TenantResource)

  /** Shared state, plus two histories: the accepted writes of each tenant in order, and
      the plan behind each tenant's last successful run. */
  datatype World = World(
    resources: Table, leases: LeaseTable,
    history: map<TenantId, seq<Commit>>, plans: map<TenantId, seq<PlannedStep>>,
    runs: map<nat, Run>)

  function HistoryOf(w: World, id: TenantId): seq<Commit> {
    if id in w.history then w.history[id] else []
  }

  /** Whatever the run cannot control: the plan, what Ensure saw, and the clock. */
  datatype Choice = Choice(plan: Option<seq<PlannedStep>>, observed: bool, fault: Option<Fault>, now: int, later: int)

  function ConflictResult(error: RepoError, changed: bool): RunResult {
    RunResult(changed, error == Conflict, 0, BlankPhase, Some(Repo(error)))
  }

  function Cas(w: World, rid: nat, run: Run, current: TenantResource, status: Status)
    : (World, Result<TenantResource, RepoError>)
  {
    var (table, r) := CasStatus(w.resources, run.cancelled, current.tenantId, current.resourceVersion, status);
    match r
    case Err(_) => (w, r)
    case Ok(next) =>
      (w.(resources := table,
          history := w.history[current.tenantId := HistoryOf(w, current.tenantId) + [Commit(ByRun(rid), next)]]), r)
  }

  function Goto(w: World, rid: nat, run: Run, pc: Pc): World {
    w.(runs := w.runs[rid := run.(pc := pc)])
  }

  function Close(w: World, rid: nat, run: Run, f: Frame, result: RunResult): World {
    Goto(w, rid, run, AtRelease(f.lease, Finished(f, |HistoryOf(w, run.tenant)|), result))
  }

  /** One atomic step of run `rid`. */
  function Advance(w: World, rid: nat, c: Choice): World
    requires rid in w.runs
  {
    var run := w.runs[rid];
    match run.pc
    case AtAcquire => AdvanceAcquire(w, rid, run)
    case AtGet(lease) => AdvanceGet(w, rid, run, lease, c)
    case AtStart(f) => AdvanceStart(w, rid, run, f)
    case AtLoop(f) =>
      if run.cancelled
      then Close(w, rid, run, f, RunResult(f.changed, true, 0, f.current.status.phase, Some(Repo(Cancelled))))
      else Goto(w, rid, run, AtMark(f))
    case AtMark(f) => if f.HasStep() then AdvanceMark(w, rid, run, f) else w
    case AtEnsure(f) => if f.HasStep() then AdvanceEnsure(w, rid, run, f, c) else w
    case AtCheckpoint(f, observed) => if f.HasStep() then AdvanceCheckpoint(w, rid, run, f, observed, c) else w
    case AtFinish(f) => AdvanceFinish(w, rid, run, f, c)
    case AtFail(f, stepName, failure, midway) => AdvanceFail(w, rid, run, f, stepName, failure, midway, c)
    case AtRelease(lease, closing, result) =>
      if lease < |w.leases.issued|
      then Goto(w, rid, run, Returned(closing, result)).(leases := Release(w.leases, lease))
      else w
    case Returned(_, _) => w
  }

  function AdvanceAcquire(w: World, rid: nat, run: Run): World {
    var (leases, r) := Acquire(w.leases, run.cancelled, run.tenant);
    match r
    case Ok(lease) => Goto(w, rid, run, AtGet(lease)).(leases := leases)
    case Err(e) =>
      Goto(w, rid, run, Returned(Unread, RunResult(false, e.LeaseHeld?, 0, BlankPhase, Some(LeaseRefused(e)))))
  }

  function AdvanceGet(w: World, rid: nat, run: Run, lease: nat, c: Choice): World {
    match Read(w.resources, run.cancelled, run.tenant)
    case Err(e) =>
      Goto(w, rid, run, AtRelease(lease, Unread, RunResult(false, false, 0, BlankPhase, Some(Repo(e)))))
    case Ok(r) =>
      if !r.Valid() then
        Goto(w, rid, run, AtRelease(lease, Unread, RunResult(false, false, 0, BlankPhase, Some(Repo(InvalidResource)))))
      else
        var f := Frame(lease, |HistoryOf(w, run.tenant)|, r, [], 0, r, false, UNREAD_CLOCK);
        if c.plan.Some? && ValidPlan(c.plan.value)
        then Goto(w, rid, run, AtStart(f.(plan := c.plan.value)))
        else Goto(w, rid, run, AtFail(f, "plan", INVALID_PLAN, false))
  }

  function AdvanceStart(w: World, rid: nat, run: Run, f: Frame): World {
    var (v, r) := Cas(w, rid, run, f.current, StartedStatus(f.current));
    match r
    case Err(e) => Close(v, rid, run, f, ConflictResult(e, false))
    case Ok(next) => Goto(v, rid, run, AtLoop(f.(current := next)))
  }

  function AdvanceMark(w: World, rid: nat, run: Run, f: Frame): World
    requires f.HasStep()
  {
    var (v, r) := Cas(w, rid, run, f.current, MarkedStatus(f.current, f.plan[f.index].name));
    match r
    case Err(e) => Close(v, rid, run, f, ConflictResult(e, f.changed))
    case Ok(next) => Goto(v, rid, run, AtEnsure(f.(current := next)))
  }

  function AdvanceEnsure(w: World, rid: nat, run: Run, f: Frame, c: Choice): World
    requires f.HasStep()
  {
    var g := f.(changed := f.changed || c.observed);
    match c.fault
    case Some(fault) => Goto(w, rid, run, AtFail(g, f.plan[f.index].name, ClassifyFailure(fault), true))
    case None => Goto(w, rid, run, AtCheckpoint(g, c.observed))
  }

  function AdvanceCheckpoint(w: World, rid: nat, run: Run, f: Frame, observed: bool, c: Choice): World
    requires f.HasStep()
  {
    var (v, r) := Cas(w, rid, run, f.current, CheckpointedStatus(f.current, f.plan[f.index], observed, c.now));
    match r
    case Err(e) => Close(v, rid, run, f, ConflictResult(e, f.changed))
    case Ok(next) =>
      var g := f.(index := f.index + 1, current := next);
      Goto(v, rid, run, if g.index < |g.plan| then AtLoop(g) else AtFinish(g))
  }

  function AdvanceFinish(w: World, rid: nat, run: Run, f: Frame, c: Choice): World {
    var (v, r) := Cas(w, rid, run, f.current, FinishedStatus(f.current, c.now));
    match r
    case Err(e) => Close(v, rid, run, f, ConflictResult(e, f.changed))
    case Ok(next) =>
      Close(v.(plans := v.plans[run.tenant := f.plan]), rid, run, f.(current := next, clock := Clock(c.now, c.later)),
            RunResult(f.changed, false, 0, next.status.phase, None))
  }

  function AdvanceFail(
    w: World, rid: nat, run: Run, f: Frame, stepName: string, failure: StepError, midway: bool, c: Choice)
    : World
  {
    var changed := midway && f.changed;
    var (v, r) := Cas(w, rid, run, f.current, FailedStatus(f.current, stepName, failure, c.now, c.later));
    match r
    case Err(e) => Close(v, rid, run, f, ConflictResult(e, changed))
    case Ok(next) =>
      var delay := if failure.retryable then Backoff(NextFailureCount(f.current)) else 0;
      Close(v, rid, run, f.(current := next, clock := Clock(c.now, c.later)),
            RunResult(changed, failure.retryable, delay, next.status.phase, Some(StepFailed(failure))))
  }

  // ----- every interleaving -----

  datatype Action =
    | Spawn(rid: nat, tenant: TenantId)
    | Cancel(rid: nat)
    | Move(rid: nat, choice: Choice)
    | UpdateDesired(cancelled: bool, tenant: TenantId, expected: nat, spec: Spec)

  function UpdateDesiredState(w: World, cancelled: bool, id: TenantId, expected: nat, spec: Spec): World {
    var (table, r) := WriteSpec(w.resources, cancelled, id, expected, spec);
    if r.Err? || table == w.resources then w
    else w.(resources := table, history := w.history[id := HistoryOf(w, id) + [Commit(BySpecWriter, table[id])]])
  }

  function Next(w: World, a: Action): World {
    match a
    case Spawn(rid, tenant) => if rid in w.runs then w else w.(runs := w.runs[rid := Run(tenant, false, AtAcquire)])
    case Cancel(rid) => if rid in w.runs then w.(runs := w.runs[rid := w.runs[rid].(cancelled := true)]) else w
    case Move(rid, choice) => if rid in w.runs then Advance(w, rid, choice) else w
    case UpdateDesired(cancelled, tenant, expected, spec) => UpdateDesiredState(w, cancelled, tenant, expected, spec)
  }

  function Exec(w: World, actions: seq<Action>): World
    decreases |actions|
  {
    if actions == [] then w else Exec(Next(w, actions[0]), actions[1..])
  }
}
