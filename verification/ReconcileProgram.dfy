/** Reconcile as the controller writes it, run against the repository and the lease manager while
    other runs, other writers and a cancellation act before each of its calls. It does exactly what the
    step machine of one run does. */
module ReconcileProgram {
  import opened Basics
  import opened Lifecycle
  import opened Leases
  import opened Reconciler
  import opened ReconcileInvariant
  import opened ReconcileSafety

  /** What happens just before one call of the run, and what the call then meets. */
  datatype Turn = Turn(cancel: bool, others: seq<Action>, choice: Choice)

  const QUIET := Turn(false, [], Choice(None, false, None, 0, 0))

  /** The number of the program's run; any others may be under way beside it. */
  const SELF: nat := 0

  /** An action of another run or of a writer of desired states. */
  predicate Foreign(a: Action) {
    a.UpdateDesired? || a.rid != SELF
  }

  predicate AllForeign(others: seq<Action>) {
    forall k :: 0 <= k < |others| ==> Foreign(others[k])
  }

  ghost predicate ForeignScript(script: seq<Turn>) {
    forall k :: 0 <= k < |script| ==> AllForeign(script[k].others)
  }

  function TurnAt(script: seq<Turn>, k: nat): Turn {
    if k < |script| then script[k] else QUIET
  }

  function Interfere(w: World, turn: Turn): World {
    Exec(if turn.cancel then Next(w, Cancel(SELF)) else w, turn.others)
  }

  /** The world after `k` turns, each an interference and then one step of the run. */
  function Drive(w: World, script: seq<Turn>, k: nat): World {
    if k == 0 then w
    else Next(Interfere(Drive(w, script, k - 1), TurnAt(script, k - 1)), Move(SELF, TurnAt(script, k - 1).choice))
  }

  // ----- a scripted run is one of the interleavings -----

  function Schedule(script: seq<Turn>, k: nat): seq<Action> {
    if k == 0 then []
    else
      var turn := TurnAt(script, k - 1);
      Schedule(script, k - 1) + (if turn.cancel then [Cancel(SELF)] else []) + turn.others + [Move(SELF, turn.choice)]
  }

  lemma {:induction false} DriveIsExec(w: World, script: seq<Turn>, k: nat)
    ensures Drive(w, script, k) == Exec(w, Schedule(script, k))
  {
    hide Next;
    if k > 0 {
      var turn := TurnAt(script, k - 1);
      var cancel: seq<Action> := if turn.cancel then [Cancel(SELF)] else [];
      var move := [Move(SELF, turn.choice)];
      DriveIsExec(w, script, k - 1);
      var u := Drive(w, script, k - 1);
      ExecAppend(w, Schedule(script, k - 1), cancel);
      ExecAppend(w, Schedule(script, k - 1) + cancel, turn.others);
      ExecAppend(w, Schedule(script, k - 1) + cancel + turn.others, move);
      assert Exec(u, cancel) == if turn.cancel then Next(u, Cancel(SELF)) else u;
      var x := Exec(Exec(u, cancel), turn.others);
      assert Exec(x, move) == Next(x, Move(SELF, turn.choice));
    }
  }

  // ----- the calls of any run -----

  /** The compare-and-swap that a run makes at its present point, if it makes one. */
  function SwapOf(pc: Pc, c: Choice): Option<(TenantResource, Status)> {
    match pc
    case AtStart(f) => Some((f.current, StartedStatus(f.current)))
    case AtMark(f) => if f.HasStep() then Some((f.current, MarkedStatus(f.current, f.plan[f.index].name))) else None
    case AtCheckpoint(f, observed) =>
      if f.HasStep() then Some((f.current, CheckpointedStatus(f.current, f.plan[f.index], observed, c.now))) else None
    case AtFinish(f) => Some((f.current, FinishedStatus(f.current, c.now)))
    case AtFail(f, stepName, failure, _) =>
        Some((f.current, FailedStatus(f.current, stepName, failure, c.now, c.later)))
    case _ => None
  }

  lemma CasEffect(w: World, rid: nat, run: Run, current: TenantResource, status: Status)
    ensures var v := Cas(w, rid, run, current, status).0;
            && v.runs == w.runs && v.leases == w.leases
            && v.resources == CasStatus(w.resources, run.cancelled, current.tenantId, current.resourceVersion, status).0
  {
  }

  /** What a step shares with other runs is the effect of that compare-and-swap, and of nothing else. */
  ghost predicate Shares(w: World, v: World, run: Run, swap: Option<(TenantResource, Status)>) {
    && v.leases == w.leases
    && match swap
       case None => v.resources == w.resources
       case Some((r, status)) =>
         v.resources == CasStatus(w.resources, run.cancelled, r.tenantId, r.resourceVersion, status).0
  }

  lemma EarlySwapShares(w: World, rid: nat, c: Choice)
    requires rid in w.runs && SwapOf(w.runs[rid].pc, c).Some?
    requires w.runs[rid].pc.AtStart? || w.runs[rid].pc.AtMark? || w.runs[rid].pc.AtCheckpoint?
    ensures Shares(w, Advance(w, rid, c), w.runs[rid], SwapOf(w.runs[rid].pc, c))
  {
    hide Cas, CasStatus, StartedStatus, MarkedStatus, CheckpointedStatus, FinishedStatus, FailedStatus, Backoff,
         ClassifyFailure, ValidPlan;
    var swap := SwapOf(w.runs[rid].pc, c).value;
    CasEffect(w, rid, w.runs[rid], swap.0, swap.1);
  }

  lemma LateSwapShares(w: World, rid: nat, c: Choice)
    requires rid in w.runs && SwapOf(w.runs[rid].pc, c).Some?
    requires w.runs[rid].pc.AtFinish? || w.runs[rid].pc.AtFail?
    ensures Shares(w, Advance(w, rid, c), w.runs[rid], SwapOf(w.runs[rid].pc, c))
  {
    hide Cas, CasStatus, StartedStatus, MarkedStatus, CheckpointedStatus, FinishedStatus, FailedStatus, Backoff,
         ClassifyFailure, ValidPlan;
    var swap := SwapOf(w.runs[rid].pc, c).value;
    CasEffect(w, rid, w.runs[rid], swap.0, swap.1);
  }

  lemma QuietShares(w: World, rid: nat, c: Choice)
    requires rid in w.runs && SwapOf(w.runs[rid].pc, c).None?
    requires !w.runs[rid].pc.AtAcquire? && !w.runs[rid].pc.AtRelease?
    ensures Shares(w, Advance(w, rid, c), w.runs[rid], SwapOf(w.runs[rid].pc, c))
  {
    hide Cas, CasStatus, StartedStatus, MarkedStatus, CheckpointedStatus, FinishedStatus, FailedStatus, Backoff,
         ClassifyFailure, ValidPlan, AdvanceStart, AdvanceMark, AdvanceCheckpoint, AdvanceFinish, AdvanceFail;
  }

  lemma MoveShares(w: World, rid: nat, c: Choice)
    requires rid in w.runs && !w.runs[rid].pc.AtAcquire? && !w.runs[rid].pc.AtRelease?
    ensures Shares(w, Advance(w, rid, c), w.runs[rid], SwapOf(w.runs[rid].pc, c))
  {
    hide Advance, Shares;
    if SwapOf(w.runs[rid].pc, c).None? {
      QuietShares(w, rid, c);
    } else if w.runs[rid].pc.AtFinish? || w.runs[rid].pc.AtFail? {
      LateSwapShares(w, rid, c);
    } else {
      EarlySwapShares(w, rid, c);
    }
  }

  /** No run came or went, and this one, if another moved, is where it was. */
  predicate Stands(w: World, v: World, rid: nat, k: nat) {
    (k in v.runs <==> k in w.runs) && (k in w.runs && k != rid ==> v.runs[k] == w.runs[k])
  }

  lemma EarlySwapStands(w: World, rid: nat, c: Choice, k: nat)
    requires rid in w.runs && (w.runs[rid].pc.AtStart? || w.runs[rid].pc.AtMark? || w.runs[rid].pc.AtCheckpoint?)
    ensures Stands(w, Advance(w, rid, c), rid, k)
  {
    hide Cas, CasStatus, StartedStatus, MarkedStatus, CheckpointedStatus, FinishedStatus, FailedStatus, Backoff,
         ClassifyFailure, ValidPlan, Acquire, Release;
    var swap := SwapOf(w.runs[rid].pc, c);
    if swap.Some? { CasEffect(w, rid, w.runs[rid], swap.value.0, swap.value.1); }
  }

  lemma LateSwapStands(w: World, rid: nat, c: Choice, k: nat)
    requires rid in w.runs && (w.runs[rid].pc.AtFinish? || w.runs[rid].pc.AtFail?)
    ensures Stands(w, Advance(w, rid, c), rid, k)
  {
    hide Cas, CasStatus, StartedStatus, MarkedStatus, CheckpointedStatus, FinishedStatus, FailedStatus, Backoff,
         ClassifyFailure, ValidPlan, Acquire, Release;
    var swap := SwapOf(w.runs[rid].pc, c);
    if swap.Some? { CasEffect(w, rid, w.runs[rid], swap.value.0, swap.value.1); }
  }

  lemma QuietStands(w: World, rid: nat, c: Choice, k: nat)
    requires rid in w.runs && SwapOf(w.runs[rid].pc, c).None?
    ensures Stands(w, Advance(w, rid, c), rid, k)
  {
    hide Cas, CasStatus, StartedStatus, MarkedStatus, CheckpointedStatus, FinishedStatus, FailedStatus, Backoff,
         ClassifyFailure, ValidPlan, Acquire, Release, AdvanceStart, AdvanceMark, AdvanceCheckpoint, AdvanceFinish,
         AdvanceFail;
  }

  /** A step moves its own run and no other. */
  lemma MoveStands(w: World, rid: nat, c: Choice, k: nat)
    requires rid in w.runs
    ensures Stands(w, Advance(w, rid, c), rid, k)
  {
    hide Advance, Stands;
    if SwapOf(w.runs[rid].pc, c).None? {
      QuietStands(w, rid, c, k);
    } else if w.runs[rid].pc.AtFinish? || w.runs[rid].pc.AtFail? {
      LateSwapStands(w, rid, c, k);
    } else {
      EarlySwapStands(w, rid, c, k);
    }
  }

  lemma ForeignLeavesSelf(w: World, a: Action)
    requires Foreign(a) && SELF in w.runs
    ensures SELF in Next(w, a).runs && Next(w, a).runs[SELF] == w.runs[SELF]
  {
    hide Advance, WriteSpec;
    if a.Move? && a.rid in w.runs { MoveStands(w, a.rid, a.choice, SELF); }
  }

  /** Stands in for a resource that was never read. */
  const EMPTY := TenantResource("", "", 0, 0, Spec(Active), Status(0, BlankPhase, "", [], [], 0, None))

  // ----- the program -----

  class Controller {
    const repository: MemoryRepository
    const leases: MemoryLeaseManager
    const script: seq<Turn>
    var position: nat
    var cancelled: bool
    var choice: Choice
    ghost const origin: World
    // The step machine and the leases handed out, from which the other runs take their calls; what the
    // program's own run does depends on neither.
    var world: World
    var handed: seq<MemoryLease>

    ghost predicate Coupled(tenant: TenantId)
      reads this, repository, leases, leases.issued
    {
      && leases.Valid() && handed == leases.issued && ForeignScript(script)
      && SELF in world.runs && world.runs[SELF].tenant == tenant && world.runs[SELF].cancelled == cancelled
      && world.resources == repository.resources
      && world.leases == leases.Contents()
    }

    /** Between calls: the world is where `position` turns lead. */
    ghost predicate Resting(tenant: TenantId)
      reads this, repository, leases, leases.issued
    {
      Coupled(tenant) && world == Drive(origin, script, position)
    }

    /** Just before a call: the interference of this turn is over. */
    ghost predicate Poised(tenant: TenantId)
      reads this, repository, leases, leases.issued
    {
      && Coupled(tenant)
      && position > 0
      && world == Interfere(Drive(origin, script, position - 1), TurnAt(script, position - 1))
      && choice == TurnAt(script, position - 1).choice
    }

    /** Leases are only added, and the added ones are new. */
    twostate predicate Later()
      reads this
    {
      old(handed) <= handed && forall i :: |old(handed)| <= i < |handed| ==> fresh(handed[i])
    }

    constructor (repository: MemoryRepository, leases: MemoryLeaseManager, handed: seq<MemoryLease>, script: seq<Turn>,
                 tenant: TenantId, w: World)
      requires leases.Valid() && handed == leases.issued && ForeignScript(script)
      requires w.resources == repository.resources && w.leases == leases.Contents() && SELF !in w.runs
      ensures this.repository == repository && this.leases == leases && this.handed == handed && this.script == script
      ensures Resting(tenant) && world == origin == Next(w, Spawn(SELF, tenant)) && position == 0
    {
      this.repository, this.leases, this.handed, this.script := repository, leases, handed, script;
      position, cancelled, choice := 0, false, QUIET.choice;
      origin, world := Next(w, Spawn(SELF, tenant)), Next(w, Spawn(SELF, tenant));
    }

    /** Another run makes the call it has come to. */
    method OtherMoves(rid: nat, c: Choice, ghost tenant: TenantId)
      requires Coupled(tenant) && rid in world.runs && rid != SELF
      modifies this`world, this`handed, repository, leases, handed
      ensures Coupled(tenant) && Later() && world == Next(old(world), Move(rid, c))
    {
      hide Advance, CasStatus, Acquire, Release;
      var run := world.runs[rid];
      ForeignLeavesSelf(world, Move(rid, c));
      if run.pc.AtAcquire? {
        AcquireStep(world, rid, c);
        var acquired := leases.AcquireLease(run.cancelled, run.tenant);
        if acquired.Ok? { handed := handed + [acquired.value]; }
      } else if run.pc.AtRelease? {
        ReleaseStep(world, rid, c);
        if run.pc.lease < |handed| { handed[run.pc.lease].ReleaseLease(run.pc.lease); }
      } else {
        MoveShares(world, rid, c);
        var swap := SwapOf(run.pc, c);
        if swap.Some? {
          var (resource, status) := swap.value;
          var _ := repository.CompareAndSwapStatus(run.cancelled, resource.tenantId, resource.resourceVersion, status);
        }
      }
      world := Advance(world, rid, c);
    }

    /** Another run, or a writer of desired states, takes one action. */
    method OtherActs(a: Action, ghost tenant: TenantId)
      requires Coupled(tenant) && Foreign(a)
      modifies this`world, this`handed, repository, leases, handed
      ensures Coupled(tenant) && Later() && world == Next(old(world), a) && world.runs[SELF] == old(world.runs[SELF])
    {
      hide Advance, WriteSpec;
      ForeignLeavesSelf(world, a);
      if a.Move? {
        if a.rid in world.runs { OtherMoves(a.rid, a.choice, tenant); }
        return;
      }
      if a.UpdateDesired? {
        UpdateDesiredStateEffect(world, a.cancelled, a.tenant, a.expected, a.spec);
        var _ := repository.UpdateSpec(a.cancelled, a.tenant, a.expected, a.spec);
      }
      world := Next(world, a);
    }

    method OthersAct(others: seq<Action>, ghost tenant: TenantId)
      requires Coupled(tenant) && AllForeign(others)
      modifies this`world, this`handed, repository, leases, handed
      ensures Coupled(tenant) && Later() && world == Exec(old(world), others)
      ensures world.runs[SELF] == old(world.runs[SELF])
    {
      hide Next;
      for k := 0 to |others|
        invariant Coupled(tenant) && Later()
        invariant world == Exec(old(world), others[..k]) && world.runs[SELF] == old(world.runs[SELF])
      {
        ghost var before := world;
        OtherActs(others[k], tenant);
        assert others[..k + 1] == others[..k] + [others[k]];
        ExecAppend(old(world), others[..k], [others[k]]);
        assert Exec(before, [others[k]]) == Next(before, others[k]);
      }
      assert others[..|others|] == others;
    }

    /** Other runs, other writers and a cancellation take their turn. */
    method Pause(ghost tenant: TenantId)
      requires Resting(tenant)
      modifies this`position, this`cancelled, this`choice, this`world, this`handed, repository, leases, handed
      ensures Poised(tenant) && Later() && position == old(position) + 1
      ensures world.runs[SELF].pc == old(world.runs[SELF].pc)
    {
      hide Drive, Exec;
      var turn := TurnAt(script, position);
      cancelled := cancelled || turn.cancel;
      choice := turn.choice;
      position := position + 1;
      if turn.cancel { world := Next(world, Cancel(SELF)); }
      OthersAct(turn.others, tenant);
    }

    /** The world takes the step of a call that changed nothing shared. */
    method Tick(ghost tenant: TenantId)
      requires Poised(tenant) && Quiet(world, Advance(world, SELF, choice))
      modifies this`world
      ensures Resting(tenant) && world == Advance(old(world), SELF, choice)
    {
      hide Drive, Interfere, Advance, ForeignScript, MemoryLeaseManager.Valid, MemoryLeaseManager.Contents;
      Turned(origin, script, position);
      world := Advance(world, SELF, choice);
    }

    /** The compare-and-swap call, and the step the world takes with it. */
    method Swap(ghost tenant: TenantId, resource: TenantResource, status: Status)
      returns (r: Result<TenantResource, RepoError>)
      requires Poised(tenant) && Swaps(world, Advance(world, SELF, choice), resource, status)
      modifies this`world, repository
      ensures Resting(tenant) && world == Advance(old(world), SELF, choice)
      ensures r == CasStatus(old(world).resources, cancelled, resource.tenantId, resource.resourceVersion, status).1
    {
      hide Drive, Interfere, Advance, CasStatus, ForeignScript, MemoryLeaseManager.Valid, MemoryLeaseManager.Contents;
      r := repository.CompareAndSwapStatus(cancelled, resource.tenantId, resource.resourceVersion, status);
      Turned(origin, script, position);
      world := Advance(world, SELF, choice);
    }

    method RecordFailure(ghost tenant: TenantId, resource: TenantResource, stepName: string, fault: Fault,
                         ghost f: Frame, ghost midway: bool)
      returns (result: RunResult)
      requires Resting(tenant) && f.current == resource
      requires world.runs[SELF].pc == AtFail(f, stepName, ClassifyFailure(fault), midway)
      modifies this`position, this`cancelled, this`choice, this`world, this`handed, repository, leases, handed
      ensures Later() && Resting(tenant)
      ensures Releasing(world.runs[SELF].pc, f.lease, result.(changed := midway && f.changed))
      ensures !result.changed
    {
      hide Drive, CasStatus, Interfere, Advance, Backoff, ClassifyFailure, SetCondition, ForeignScript,
           MemoryLeaseManager.Valid, MemoryLeaseManager.Contents;
      var failure := ClassifyFailure(fault);
      Pause(tenant);
      var status := resource.status;
      status := status.(phase := Degraded, currentStep := stepName);
      status := status.(failureCount := (status.failureCount + 1) % COUNT_LIMIT, retryAt := None);
      result := RunResult(false, false, 0, Degraded, None);
      if failure.retryable {
        var delay := Backoff(status.failureCount);
        status := status.(retryAt := Some(choice.now + delay));
        result := result.(requeue := true, requeueAfter := delay);
      }
      var conditions := UpsertCondition(status.conditions,
        Condition(READY_CONDITION, ConditionFalse, failure.code, failure.safeMessage, resource.generation,
                  choice.later));
      status := status.(conditions := conditions);
      FailStep(world, f, stepName, failure, midway, choice);
      var updated := Swap(tenant, resource, status);
      if updated.Err? { return ConflictResult(updated.error, false); }
      result := result.(phase := updated.value.status.phase, error := Some(StepFailed(failure)));
    }

    /** Reads the tenant and plans; answers the frame's resource and plan, or an early result. */
    method ReadAndPlan(tenant: TenantId, ghost lease: nat)
      returns (outcome: Option<RunResult>, resource: TenantResource, steps: seq<PlannedStep>)
      requires Resting(tenant) && world.runs[SELF].pc == AtGet(lease)
      modifies this`position, this`cancelled, this`choice, this`world, this`handed, repository, leases, handed
      ensures Later() && Resting(tenant)
      ensures outcome.Some? ==> Releasing(world.runs[SELF].pc, lease, outcome.value)
      ensures outcome.None? ==>
                && world.runs[SELF].pc.AtStart?
                && var f := world.runs[SELF].pc.frame;
                   f == Frame(lease, f.start, resource, steps, 0, resource, false, UNREAD_CLOCK) && ValidPlan(steps)
    {
      hide Drive, CasStatus, Interfere, Advance, ValidPlan, ForeignScript, MemoryLeaseManager.Valid,
           MemoryLeaseManager.Contents;
      resource, steps, outcome := EMPTY, [], None;
      Pause(tenant);
      var read := repository.Get(cancelled, tenant);
      var planned := choice.plan;
      ghost var start := |HistoryOf(world, tenant)|;
      GetStep(world, lease, choice);
      Tick(tenant);
      if read.Err? {
        outcome := Some(RunResult(false, false, 0, BlankPhase, Some(Repo(read.error))));
        return;
      }
      resource := read.value;
      if !resource.Valid() {
        outcome := Some(RunResult(false, false, 0, BlankPhase, Some(Repo(InvalidResource))));
        return;
      }
      var valid := false;
      if planned.Some? {
        steps := planned.value;
        valid := ValidatePlan(steps);
      }
      if !valid {
        var failed := RecordFailure(tenant, resource, "plan", Classified(INVALID_PLAN),
                                    Frame(lease, start, resource, [], 0, resource, false, UNREAD_CLOCK), false);
        outcome := Some(failed);
      }
    }

    /** The head of the loop: stop if cancelled, otherwise mark the step as current. */
    method Mark(tenant: TenantId, step: PlannedStep, first: TenantResource, changed: bool, ghost f: Frame)
      returns (outcome: Option<RunResult>, resource: TenantResource)
      requires Resting(tenant) && world.runs[SELF].pc == AtLoop(f) && f.HasStep() && f.plan[f.index] == step
      requires f.current == first && f.changed == changed
      modifies this`position, this`cancelled, this`choice, this`world, this`handed, repository, leases, handed
      ensures Later() && Resting(tenant)
      ensures outcome.Some? ==> Releasing(world.runs[SELF].pc, f.lease, outcome.value)
      ensures outcome.None? ==> world.runs[SELF].pc == AtEnsure(f.(current := resource))
    {
      hide Drive, CasStatus, Interfere, Advance, ForeignScript, MemoryLeaseManager.Valid, MemoryLeaseManager.Contents;
      resource := first;
      Pause(tenant);
      LoopStep(world, f, choice);
      Tick(tenant);
      if cancelled {
        return Some(RunResult(changed, true, 0, resource.status.phase, Some(Repo(Cancelled)))), resource;
      }
      Pause(tenant);
      var status := resource.status.(currentStep := step.name);
      MarkStep(world, f, choice);
      var swapped := Swap(tenant, resource, status);
      if swapped.Err? { return Some(ConflictResult(swapped.error, changed)), resource; }
      return None, swapped.value;
    }

    /** The rest of the loop: ensure the step, then record its checkpoint or its failure. */
    method EnsureAndCheckpoint(tenant: TenantId, step: PlannedStep, first: TenantResource, before: bool, ghost f: Frame)
      returns (outcome: Option<RunResult>, resource: TenantResource, changed: bool)
      requires Resting(tenant) && world.runs[SELF].pc == AtEnsure(f) && f.HasStep() && f.plan[f.index] == step
      requires f.current == first && f.changed == before
      modifies this`position, this`cancelled, this`choice, this`world, this`handed, repository, leases, handed
      ensures Later() && Resting(tenant)
      ensures outcome.Some? ==> Releasing(world.runs[SELF].pc, f.lease, outcome.value)
      ensures outcome.None? ==>
                var g := f.(index := f.index + 1, current := resource, changed := changed);
                world.runs[SELF].pc == if g.index < |g.plan| then AtLoop(g) else AtFinish(g)
    {
      hide Drive, CasStatus, Interfere, Advance, SetCheckpoint, ForeignScript, MemoryLeaseManager.Valid,
           MemoryLeaseManager.Contents;
      resource := first;
      Pause(tenant);
      var observed, fault := choice.observed, choice.fault;
      EnsureStep(world, f, choice);
      Tick(tenant);
      changed := before || observed;
      ghost var g := f.(changed := changed);
      if fault.Some? {
        var failed := RecordFailure(tenant, resource, step.name, fault.value, g, true);
        return Some(failed.(changed := changed)), resource, changed;
      }
      outcome, resource := RecordCheckpoint(tenant, step, resource, changed, observed, g);
    }

    /** The end of the loop: the step is no longer current and has its checkpoint. */
    method RecordCheckpoint(
      tenant: TenantId, step: PlannedStep, first: TenantResource, changed: bool, observed: bool, ghost g: Frame)
      returns (outcome: Option<RunResult>, resource: TenantResource)
      requires Resting(tenant) && world.runs[SELF].pc == AtCheckpoint(g, observed) && g.HasStep()
      requires g.plan[g.index] == step
      requires g.current == first && g.changed == changed
      modifies this`position, this`cancelled, this`choice, this`world, this`handed, repository, leases, handed
      ensures Later() && Resting(tenant)
      ensures outcome.Some? ==> Releasing(world.runs[SELF].pc, g.lease, outcome.value)
      ensures outcome.None? ==>
                var h := g.(index := g.index + 1, current := resource);
                world.runs[SELF].pc == if h.index < |h.plan| then AtLoop(h) else AtFinish(h)
    {
      hide Drive, CasStatus, Interfere, Advance, SetCheckpoint, ForeignScript, MemoryLeaseManager.Valid,
           MemoryLeaseManager.Contents;
      Pause(tenant);
      var status := first.status.(currentStep := "");
      var checkpoints := UpsertCheckpoint(status.checkpoints,
        Checkpoint(step.name, step.version, first.generation, observed, choice.now));
      status := status.(checkpoints := checkpoints);
      CheckpointStep(world, g, observed, choice);
      var swapped := Swap(tenant, first, status);
      if swapped.Err? { return Some(ConflictResult(swapped.error, changed)), first; }
      return None, swapped.value;
    }

    /** The loop over the plan: either an early result, or the last resource and whether anything changed. */
    method RunSteps(tenant: TenantId, steps: seq<PlannedStep>, first: TenantResource, ghost g: Frame)
      returns (outcome: Option<RunResult>, resource: TenantResource, changed: bool)
      requires Resting(tenant) && world.runs[SELF].pc == AtLoop(g)
      requires g.plan == steps && ValidPlan(steps) && g.index == 0 && g.current == first && !g.changed
      modifies this`position, this`cancelled, this`choice, this`world, this`handed, repository, leases, handed
      ensures Later() && Resting(tenant)
      ensures outcome.Some? ==> Releasing(world.runs[SELF].pc, g.lease, outcome.value)
      ensures outcome.None? ==>
                world.runs[SELF].pc == AtFinish(g.(index := |steps|, current := resource, changed := changed))
    {
      hide Drive, Interfere, ForeignScript, MemoryLeaseManager.Valid, MemoryLeaseManager.Contents;
      resource, changed, outcome := first, false, None;
      for k := 0 to |steps|
        invariant Later() && Resting(tenant) && outcome.None?
        invariant var f := g.(index := k, current := resource, changed := changed);
                  world.runs[SELF].pc == if k < |steps| then AtLoop(f) else AtFinish(f)
      {
        ghost var f := g.(index := k, current := resource, changed := changed);
        outcome, resource := Mark(tenant, steps[k], resource, changed, f);
        if outcome.Some? { return; }
        f := f.(current := resource);
        outcome, resource, changed := EnsureAndCheckpoint(tenant, steps[k], resource, changed, f);
        if outcome.Some? { return; }
      }
    }

    /** Moves the tenant out of any terminal phase before the first step. */
    method Begin(tenant: TenantId, first: TenantResource, ghost f: Frame)
      returns (outcome: Option<RunResult>, resource: TenantResource)
      requires Resting(tenant) && world.runs[SELF].pc == AtStart(f) && f.current == first
      modifies this`position, this`cancelled, this`choice, this`world, this`handed, repository, leases, handed
      ensures Later() && Resting(tenant)
      ensures outcome.Some? ==> Releasing(world.runs[SELF].pc, f.lease, outcome.value)
      ensures outcome.None? ==> world.runs[SELF].pc == AtLoop(f.(current := resource))
    {
      hide Drive, CasStatus, Interfere, Advance, ForeignScript, MemoryLeaseManager.Valid, MemoryLeaseManager.Contents;
      resource := first;
      Pause(tenant);
      var status := resource.status;
      status := status.(phase := StartingPhase(resource));
      status := status.(currentStep := "");
      status := status.(retryAt := None);
      StartStep(world, f, choice);
      var swapped := Swap(tenant, resource, status);
      if swapped.Err? { return Some(ConflictResult(swapped.error, false)), resource; }
      return None, swapped.value;
    }

    /** The terminal write. */
    method Complete(tenant: TenantId, resource: TenantResource, changed: bool, ghost f: Frame)
      returns (result: RunResult)
      requires Resting(tenant) && world.runs[SELF].pc == AtFinish(f) && f.current == resource && f.changed == changed
      modifies this`position, this`cancelled, this`choice, this`world, this`handed, repository, leases, handed
      ensures Later() && Resting(tenant) && Releasing(world.runs[SELF].pc, f.lease, result)
    {
      hide Drive, CasStatus, Interfere, Advance, ForeignScript, MemoryLeaseManager.Valid, MemoryLeaseManager.Contents;
      Pause(tenant);
      var status := resource.status;
      status := status.(observedGeneration := resource.generation);
      status := status.(currentStep := "", failureCount := 0, retryAt := None);
      status := status.(phase := TerminalPhase(resource.spec.desired));
      var conditions := UpsertCondition(status.conditions,
        Condition(READY_CONDITION, ReadinessCondition(resource.spec.desired), TerminalReason(resource.spec.desired),
                  TerminalMessage(resource.spec.desired), resource.generation, choice.now));
      status := status.(conditions := conditions);
      FinishStep(world, f, choice);
      var swapped := Swap(tenant, resource, status);
      if swapped.Err? { return ConflictResult(swapped.error, changed); }
      return RunResult(changed, false, 0, swapped.value.status.phase, None);
    }

    /** What Reconcile does while it holds the lease. */
    method ReconcileHeld(tenant: TenantId, ghost lease: nat) returns (result: RunResult)
      requires Resting(tenant) && world.runs[SELF].pc == AtGet(lease)
      modifies this`position, this`cancelled, this`choice, this`world, this`handed, repository, leases, handed
      ensures Later() && Resting(tenant) && Releasing(world.runs[SELF].pc, lease, result)
    {
      hide Drive, ValidPlan, ForeignScript, MemoryLeaseManager.Valid, MemoryLeaseManager.Contents;
      var outcome, resource, steps := ReadAndPlan(tenant, lease);
      if outcome.Some? { return outcome.value; }
      ghost var f := world.runs[SELF].pc.frame;
      outcome, resource := Begin(tenant, resource, f);
      if outcome.Some? { return outcome.value; }
      f := f.(current := resource);
      var changed;
      outcome, resource, changed := RunSteps(tenant, steps, resource, f);
      if outcome.Some? { return outcome.value; }
      result := Complete(tenant, resource, changed, f.(index := |steps|, current := resource, changed := changed));
    }

    method AcquireTurn(tenant: TenantId) returns (acquired: Result<MemoryLease, LeaseError>, ghost index: nat)
      requires Resting(tenant) && world.runs[SELF].pc == AtAcquire
      modifies this`position, this`cancelled, this`choice, this`world, this`handed, repository, leases, handed
      ensures Later() && Resting(tenant)
      ensures acquired.Ok? ==>
                && world.runs[SELF].pc == AtGet(index) && fresh(acquired.value)
                && acquired.value.manager == leases && index < |leases.issued| && leases.issued[index] == acquired.value
      ensures acquired.Err? ==>
                && world.runs[SELF].pc.Returned?
                && world.runs[SELF].pc.result ==
                   RunResult(false, acquired.error.LeaseHeld?, 0, BlankPhase, Some(LeaseRefused(acquired.error)))
    {
      hide Drive, Interfere, Advance, ForeignScript;
      Pause(tenant);
      index := |world.leases.issued|;
      AcquireStep(world, SELF, choice);
      acquired := leases.AcquireLease(cancelled, tenant);
      if acquired.Ok? { handed := handed + [acquired.value]; }
      Turned(origin, script, position);
      world := Advance(world, SELF, choice);
    }

    method ReleaseTurn(tenant: TenantId, lease: MemoryLease, ghost index: nat)
      requires Resting(tenant) && world.runs[SELF].pc.AtRelease? && world.runs[SELF].pc.lease == index
      requires lease.manager == leases && index < |leases.issued| && leases.issued[index] == lease
      modifies this`position, this`cancelled, this`choice, this`world, this`handed, repository, leases, handed
      ensures Later() && Resting(tenant) && world.runs[SELF].pc.Returned?
      ensures world.runs[SELF].pc.result == old(world.runs[SELF].pc.result)
    {
      hide Drive, Interfere, Advance, Release, ForeignScript;
      Pause(tenant);
      ReleaseStep(world, SELF, choice);
      lease.ReleaseLease(index);
      Turned(origin, script, position);
      world := Advance(world, SELF, choice);
    }

    /** One reconcile of a tenant, from lease to release. */
    method Reconcile(tenant: TenantId) returns (result: RunResult)
      requires Resting(tenant) && world.runs[SELF].pc == AtAcquire
      modifies this`position, this`cancelled, this`choice, this`world, this`handed, repository, leases, handed
      ensures Later() && Resting(tenant)
      ensures world.runs[SELF].pc.Returned? && world.runs[SELF].pc.result == result
    {
      hide Drive, ForeignScript, MemoryLeaseManager.Valid, MemoryLeaseManager.Contents;
      var acquired, index := AcquireTurn(tenant);
      if acquired.Err? {
        return RunResult(false, acquired.error.LeaseHeld?, 0, BlankPhase, Some(LeaseRefused(acquired.error)));
      }
      var lease := acquired.value;
      result := ReconcileHeld(tenant, index);
      ReleaseTurn(tenant, lease, index);
    }
  }

  /** A stored table that a run may start from. */
  ghost predicate Startable(table: Table, plans: map<TenantId, seq<PlannedStep>>) {
    table.Keys <= plans.Keys
    && forall id :: id in table ==>
         && table[id].tenantId == id && table[id].Valid()
         && Bookkeeping(table[id]) && HonestTerminal(table[id], plans[id])
  }

  /** A whole reconcile among other runs, which hold leases and take steps of their own between any two
      of its calls, and with whatever writers the script holds: the program ends where an interleaving of
      the step machine ends, so everything proved of those holds of it. It holds no lease in the end. */
  method ServeAmong(repository: MemoryRepository, leases: MemoryLeaseManager, handed: seq<MemoryLease>,
                    script: seq<Turn>, tenant: TenantId, w: World, ghost start: World, ghost before: seq<Action>)
    returns (result: RunResult, ghost actions: seq<Action>)
    requires Initial(start) && w == Exec(start, before) && SELF !in w.runs && ForeignScript(script)
    requires leases.Valid() && leases.Contents() == w.leases && leases.issued == handed
    requires repository.resources == w.resources
    modifies repository, leases, handed
    ensures var v := Exec(start, before + [Spawn(SELF, tenant)] + actions);
            && v.resources == repository.resources && leases.Valid() && leases.Contents() == v.leases
            && SELF in v.runs && v.runs[SELF].pc.Returned? && v.runs[SELF].pc.result == result
            && forall id :: id in leases.held <==> exists a: nat :: a != SELF && RunHolds(v, a, id)
    ensures exists k: nat :: actions == Schedule(script, k)
  {
    hide Drive, Initial, Exec;
    var controller := new Controller(repository, leases, handed, script, tenant, w);
    result := controller.Reconcile(tenant);
    actions := Schedule(script, controller.position);
    DriveIsExec(controller.origin, script, controller.position);
    SpawnedThen(start, before, tenant, actions);
    HeldByOthers(start, before + [Spawn(SELF, tenant)] + actions);
  }

  lemma SpawnedThen(start: World, before: seq<Action>, tenant: TenantId, actions: seq<Action>)
    ensures Exec(start, before + [Spawn(SELF, tenant)] + actions)
            == Exec(Next(Exec(start, before), Spawn(SELF, tenant)), actions)
  {
    hide Next;
    var spawn := [Spawn(SELF, tenant)];
    ExecAppend(start, before + spawn, actions);
    ExecAppend(start, before, spawn);
    assert Exec(Exec(start, before), spawn) == Next(Exec(start, before), spawn[0]);
  }

  /** With its own run over, only other runs hold tenants. */
  lemma HeldByOthers(start: World, actions: seq<Action>)
    requires Initial(start)
    requires var v := Exec(start, actions); SELF in v.runs && v.runs[SELF].pc.Returned?
    ensures var v := Exec(start, actions);
            forall id :: id in v.leases.held <==> exists a: nat :: a != SELF && RunHolds(v, a, id)
  {
    hide Exec, Initial;
    var v := Exec(start, actions);
    forall id ensures id in v.leases.held <==> exists a: nat :: a != SELF && RunHolds(v, a, id) {
      HeldExactlyByRuns(start, actions, id);
      assert !RunHolds(v, SELF, id);
      if a: nat :| RunHolds(v, a, id) { assert a != SELF; }
    }
  }

  /** Nobody else reconciles; others only write desired states. */
  ghost predicate OnlyWritersAct(script: seq<Turn>) {
    forall k :: 0 <= k < |script| ==> forall i :: 0 <= i < |script[k].others| ==> script[k].others[i].UpdateDesired?
  }

  /** The same for a controller that is alone: in the end nothing is held. */
  method Serve(repository: MemoryRepository, leases: MemoryLeaseManager, script: seq<Turn>, tenant: TenantId,
               plans: map<TenantId, seq<PlannedStep>>)
    returns (result: RunResult, ghost start: World, ghost actions: seq<Action>)
    requires leases.Valid() && leases.Contents() == LeaseTable({}, [])
    requires Startable(repository.resources, plans) && OnlyWritersAct(script)
    modifies repository, leases
    ensures Initial(start) && start.resources == old(repository.resources)
    ensures var v := Exec(Next(start, Spawn(SELF, tenant)), actions);
            && v.resources == repository.resources
            && SELF in v.runs && v.runs[SELF].pc.Returned? && v.runs[SELF].pc.result == result
            && v.leases.held == leases.held == {}
  {
    hide Bookkeeping, HonestTerminal;
    var w := World(repository.resources, LeaseTable({}, []), map id | id in repository.resources :: [], plans, map[]);
    start := w;
    StartsInitially(start);
    result, actions := ServeAmong(repository, leases, [], script, tenant, w, start, []);
    SpawnedThen(start, [], tenant, actions);
    ghost var k: nat :| actions == Schedule(script, k);
    forall a: nat ensures a in Exec(Next(start, Spawn(SELF, tenant)), actions).runs <==> a == SELF {
      StaysAlone(Next(start, Spawn(SELF, tenant)), script, k, a);
    }
  }

  /** No run is ever added. */
  lemma {:induction false} StaysAlone(w: World, script: seq<Turn>, k: nat, rid: nat)
    requires OnlyWritersAct(script)
    ensures rid in Exec(w, Schedule(script, k)).runs <==> rid in w.runs
  {
    hide Next, Exec;
    if k == 0 {
      NoneAdded(w, [], rid);
    } else {
      var turn := TurnAt(script, k - 1);
      var cancel: seq<Action> := if turn.cancel then [Cancel(SELF)] else [];
      var last := cancel + turn.others + [Move(SELF, turn.choice)];
      StaysAlone(w, script, k - 1, rid);
      ExecAppend(w, Schedule(script, k - 1), last);
      assert Schedule(script, k) == Schedule(script, k - 1) + last;
      NoneAdded(Exec(w, Schedule(script, k - 1)), last, rid);
    }
  }

  lemma {:induction false} NoneAdded(w: World, actions: seq<Action>, rid: nat)
    requires forall i :: 0 <= i < |actions| ==> !actions[i].Spawn?
    ensures rid in Exec(w, actions).runs <==> rid in w.runs
    decreases |actions|
  {
    hide Next;
    if actions != [] {
      NothingSpawned(w, actions[0], rid);
      NoneAdded(Next(w, actions[0]), actions[1..], rid);
    }
  }

  lemma NothingSpawned(w: World, a: Action, rid: nat)
    requires !a.Spawn?
    ensures rid in Next(w, a).runs <==> rid in w.runs
  {
    hide Advance, WriteSpec;
    if a.Move? && a.rid in w.runs { MoveStands(w, a.rid, a.choice, rid); }
  }

  lemma StartsInitially(start: World)
    requires Startable(start.resources, start.plans)
    requires start.leases == LeaseTable({}, [])
    requires start.runs == map[] && start.history == map id | id in start.resources :: []
    ensures Initial(start) && Exec(start, []) == start
  {
    hide Bookkeeping, HonestTerminal;
  }

  predicate Releasing(pc: Pc, lease: nat, result: RunResult) {
    pc.AtRelease? && pc.lease == lease && pc.result == result
  }

  lemma Turned(w: World, script: seq<Turn>, position: nat)
    requires position > 0
    ensures var u := Interfere(Drive(w, script, position - 1), TurnAt(script, position - 1));
            SELF in u.runs ==> Advance(u, SELF, TurnAt(script, position - 1).choice) == Drive(w, script, position)
  {
  }

  /** The run is where it was or moved on; the rest of the world is untouched. */
  ghost predicate Quiet(w: World, v: World) {
    && v.resources == w.resources && v.leases == w.leases && SameRun(w, v)
  }

  ghost predicate SameRun(w: World, v: World) {
    && SELF in w.runs && SELF in v.runs
    && v.runs[SELF].tenant == w.runs[SELF].tenant && v.runs[SELF].cancelled == w.runs[SELF].cancelled
  }

  /** The step writes the repository as a compare-and-swap of this status does. */
  ghost predicate Swaps(w: World, v: World, resource: TenantResource, status: Status) {
    && SameRun(w, v)
    && v.leases == w.leases
    && v.resources == CasStatus(w.resources, w.runs[SELF].cancelled, resource.tenantId, resource.resourceVersion,
                                status).0
  }

  /** Where a compare-and-swap step takes the run. */
  ghost predicate Leads(
    w: World, v: World, f: Frame, status: Status, accepted: TenantResource -> Pc, refused: RepoError -> RunResult)
    requires SELF in w.runs && SELF in v.runs
  {
    var r := CasStatus(w.resources, w.runs[SELF].cancelled, f.current.tenantId, f.current.resourceVersion, status).1;
    && (r.Ok? ==> v.runs[SELF].pc == accepted(r.value))
    && (r.Err? ==> Releasing(v.runs[SELF].pc, f.lease, refused(r.error)))
  }

  lemma UpdateDesiredStateEffect(w: World, cancelled: bool, id: TenantId, expected: nat, spec: Spec)
    ensures var v := UpdateDesiredState(w, cancelled, id, expected, spec);
            && v.resources == WriteSpec(w.resources, cancelled, id, expected, spec).0
            && v.runs == w.runs && v.leases == w.leases
  {
  }

  lemma AcquireStep(w: World, rid: nat, c: Choice)
    requires rid in w.runs && w.runs[rid].pc == AtAcquire
    ensures var v, run := Advance(w, rid, c), w.runs[rid];
            var (leases, r) := Acquire(w.leases, run.cancelled, run.tenant);
            && v.resources == w.resources && v.leases == leases
            && v.runs == w.runs[rid := run.(pc := v.runs[rid].pc)]
            && (r.Ok? ==> v.runs[rid].pc == AtGet(r.value))
            && (r.Err? ==>
                  && v.runs[rid].pc.Returned?
                  && v.runs[rid].pc.result == RunResult(false, r.error.LeaseHeld?, 0, BlankPhase,
                                                        Some(LeaseRefused(r.error))))
  {
  }

  lemma ReleaseStep(w: World, rid: nat, c: Choice)
    requires rid in w.runs && w.runs[rid].pc.AtRelease?
    ensures var v, run := Advance(w, rid, c), w.runs[rid];
            && v.resources == w.resources
            && if run.pc.lease < |w.leases.issued| then
                 && v.leases == Release(w.leases, run.pc.lease)
                 && v.runs == w.runs[rid := run.(pc := Returned(run.pc.closing, run.pc.result))]
               else v == w
  {
  }

  lemma GetStep(w: World, lease: nat, c: Choice)
    requires SELF in w.runs && w.runs[SELF].pc == AtGet(lease)
    ensures var v, run := Advance(w, SELF, c), w.runs[SELF];
            var r := Read(w.resources, run.cancelled, run.tenant);
            && Quiet(w, v)
            && (r.Err? ==> Releasing(v.runs[SELF].pc, lease,
                                     RunResult(false, false, 0, BlankPhase, Some(Repo(r.error)))))
            && (r.Ok? && !r.value.Valid() ==>
                  Releasing(v.runs[SELF].pc, lease,
                            RunResult(false, false, 0, BlankPhase, Some(Repo(InvalidResource)))))
            && (r.Ok? && r.value.Valid() ==>
                  var f := Frame(lease, |HistoryOf(w, run.tenant)|, r.value, [], 0, r.value, false, UNREAD_CLOCK);
                  v.runs[SELF].pc == if c.plan.Some? && ValidPlan(c.plan.value) then AtStart(f.(plan := c.plan.value))
                                     else AtFail(f, "plan", INVALID_PLAN, false))
  {
    hide ValidPlan;
  }

  lemma StartStep(w: World, f: Frame, c: Choice)
    requires SELF in w.runs && w.runs[SELF].pc == AtStart(f)
    ensures Swaps(w, Advance(w, SELF, c), f.current, StartedStatus(f.current))
    ensures Leads(w, Advance(w, SELF, c), f, StartedStatus(f.current),
                    r => AtLoop(f.(current := r)), e => ConflictResult(e, false))
  {
  }

  lemma LoopStep(w: World, f: Frame, c: Choice)
    requires SELF in w.runs && w.runs[SELF].pc == AtLoop(f)
    ensures var v, run := Advance(w, SELF, c), w.runs[SELF];
            && Quiet(w, v)
            && (run.cancelled ==> Releasing(v.runs[SELF].pc, f.lease,
                                            RunResult(f.changed, true, 0, f.current.status.phase,
                                                      Some(Repo(Cancelled)))))
            && (!run.cancelled ==> v.runs[SELF].pc == AtMark(f))
  {
  }

  lemma MarkStep(w: World, f: Frame, c: Choice)
    requires SELF in w.runs && w.runs[SELF].pc == AtMark(f) && f.HasStep()
    ensures Swaps(w, Advance(w, SELF, c), f.current, MarkedStatus(f.current, f.plan[f.index].name))
    ensures Leads(w, Advance(w, SELF, c), f, MarkedStatus(f.current, f.plan[f.index].name),
                    r => AtEnsure(f.(current := r)), e => ConflictResult(e, f.changed))
  {
  }

  lemma EnsureStep(w: World, f: Frame, c: Choice)
    requires SELF in w.runs && w.runs[SELF].pc == AtEnsure(f) && f.HasStep()
    ensures var v, run, g := Advance(w, SELF, c), w.runs[SELF], f.(changed := f.changed || c.observed);
            && Quiet(w, v)
            && v.runs[SELF].pc == if c.fault.Some?
                                  then AtFail(g, f.plan[f.index].name, ClassifyFailure(c.fault.value), true)
                                  else AtCheckpoint(g, c.observed)
  {
  }

  lemma CheckpointStep(w: World, f: Frame, observed: bool, c: Choice)
    requires SELF in w.runs && w.runs[SELF].pc == AtCheckpoint(f, observed) && f.HasStep()
    ensures Swaps(w, Advance(w, SELF, c), f.current, CheckpointedStatus(f.current, f.plan[f.index], observed, c.now))
    ensures Leads(w, Advance(w, SELF, c), f, CheckpointedStatus(f.current, f.plan[f.index], observed, c.now),
                    r => var g := f.(index := f.index + 1, current := r);
                         if g.index < |g.plan| then AtLoop(g) else AtFinish(g),
                    e => ConflictResult(e, f.changed))
  {
  }

  lemma FinishStep(w: World, f: Frame, c: Choice)
    requires SELF in w.runs && w.runs[SELF].pc == AtFinish(f)
    ensures var v := Advance(w, SELF, c);
            Swaps(w, v, f.current, FinishedStatus(f.current, c.now)) &&
            Leads(w, v, f, FinishedStatus(f.current, c.now),
                    r => AtRelease(f.lease, Finished(f.(current := r, clock := Clock(c.now, c.later)),
                                                     |HistoryOf(v, v.runs[SELF].tenant)|),
                                   RunResult(f.changed, false, 0, r.status.phase, None)),
                    e => ConflictResult(e, f.changed))
  {
  }

  lemma FailStep(w: World, f: Frame, stepName: string, failure: StepError, midway: bool, c: Choice)
    requires SELF in w.runs && w.runs[SELF].pc == AtFail(f, stepName, failure, midway)
    ensures var v := Advance(w, SELF, c);
            Swaps(w, v, f.current, FailedStatus(f.current, stepName, failure, c.now, c.later)) &&
            Leads(w, v, f, FailedStatus(f.current, stepName, failure, c.now, c.later),
                    r => AtRelease(f.lease, Finished(f.(current := r, clock := Clock(c.now, c.later)),
                                                     |HistoryOf(v, v.runs[SELF].tenant)|),
                                   RunResult(midway && f.changed, failure.retryable,
                                             if failure.retryable then Backoff(NextFailureCount(f.current)) else 0,
                                             r.status.phase, Some(StepFailed(failure)))),
                    e => ConflictResult(e, midway && f.changed))
  {
  }
}
