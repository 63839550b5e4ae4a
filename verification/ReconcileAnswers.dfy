/** What a run may answer in any interleaving, for each way it can end, and that a cancelled run stops writing. */
module ReconcileAnswers {
  import opened Basics
  import opened Lifecycle
  import opened Leases
  import opened Reconciler
  import opened ReconcileInvariant
  import opened ReconcileSafety

  /** A checkpoint of the k-th step at this generation that says something was changed. */
  ghost predicate ChangedAt(checkpoints: seq<Checkpoint>, step: PlannedStep, generation: nat) {
    && step.Step?
    && exists c :: c in checkpoints && c.step == step.name && c.version == step.version && c.generation == generation
                   && c.changed
  }

  /** Some step that the run has recorded changed something. */
  ghost predicate RecordedChange(r: TenantResource, plan: seq<PlannedStep>, n: nat) {
    exists k :: 0 <= k < n && k < |plan| && ChangedAt(r.status.checkpoints, plan[k], r.generation)
  }

  /** The local flag of a run is that of its recorded steps, and of the Ensure that is not recorded yet. */
  ghost predicate Tally(pc: Pc) {
    FrameAt(pc).Some? ==>
      var f := FrameAt(pc).value;
      var recorded := RecordedChange(f.current, f.plan, f.index);
      match pc
      case AtStart(_) => !f.changed && f.index == 0
      case AtCheckpoint(_, observed) => f.changed == (recorded || observed)
      case AtFail(_, _, _, midway) => if midway then recorded ==> f.changed else !f.changed && f.plan == []
      case _ => f.changed == recorded
  }

  /** What the answer of a run says, for each way it can end. */
  ghost predicate Answers(closing: Closing, result: RunResult) {
    && (result.error.None? ==>
          && closing.Finished? && !result.requeue && result.requeueAfter == 0
          && Reached(closing.frame.base.spec.desired, result.phase)
          && result.changed == RecordedChange(closing.frame.current, closing.frame.plan, |closing.frame.plan|))
    && (closing.Unread? ==>
          && result.error.Some? && !result.changed && result.requeueAfter == 0 && result.phase.BlankPhase?
          && (result.requeue <==> result.error == Some(LeaseRefused(LeaseHeld)))
          && result.error != Some(Repo(Conflict)) && !result.error.value.StepFailed?)
    && (closing.Finished? ==>
          && (result.error.Some? ==> !result.error.value.LeaseRefused?)
          && (RecordedChange(closing.frame.current, closing.frame.plan, closing.frame.index) ==> result.changed)
          && (closing.frame.plan == [] ==> !result.changed)
          && (closing.frame.current == closing.frame.base ==> !result.changed)
          && (result.error.Some? && result.error.value.Repo? ==>
                && result.requeueAfter == 0
                && (result.error == Some(Repo(Conflict)) ==> result.requeue && result.phase.BlankPhase?)
                && (result.error != Some(Repo(Conflict)) ==>
                      if result.requeue then Entered(closing.frame.base, result.phase) else result.phase.BlankPhase?)))
  }

  ghost predicate AnswerOk(pc: Pc) {
    && Tally(pc)
    && (pc.AtRelease? || pc.Returned? ==> Answers(pc.closing, pc.result))
  }

  ghost predicate Arrives(v: World, rid: nat) { rid in v.runs && AnswerOk(v.runs[rid].pc) }

  lemma EdgeAnswers(w: World, rid: nat, c: Choice)
    requires rid in w.runs && RunOk(w, rid) && AnswerOk(w.runs[rid].pc)
    requires w.runs[rid].pc.AtAcquire? || w.runs[rid].pc.AtRelease? || w.runs[rid].pc.Returned?
    ensures Arrives(Advance(w, rid, c), rid)
  {
    hide FrameOk, ClosingOk, RecordedChange, Entered, Reached, Release;
  }

  lemma GetAnswers(w: World, rid: nat, c: Choice)
    requires rid in w.runs && w.runs[rid].pc.AtGet?
    ensures Arrives(Advance(w, rid, c), rid)
  {
    hide ChangedAt, ValidPlan, Entered, Reached;
  }

  lemma EnsureAnswers(w: World, rid: nat, c: Choice)
    requires rid in w.runs && w.runs[rid].pc.AtEnsure? && AnswerOk(w.runs[rid].pc)
    ensures Arrives(Advance(w, rid, c), rid)
  {
    hide RecordedChange, ClassifyFailure;
  }

  /** What is known of the frame of a run that is about to write. */
  lemma WriterFacts(w: World, rid: nat, status: Status)
    requires Inv(w) && rid in w.runs && FrameAt(w.runs[rid].pc).Some? && !status.phase.UnknownPhase?
    requires status.observedGeneration <= FrameAt(w.runs[rid].pc).value.current.generation
    ensures var run := w.runs[rid];
            var f, made := FrameAt(run.pc).value, MadeAt(run.pc);
            && IndexOk(run.pc) && f.current.Valid() && Bookkeeping(f.current)
            && f.current.generation == f.base.generation && f.current.spec == f.base.spec
            && (f.plan == [] || ValidPlan(f.plan))
            && (made == 0 ==> f.current == f.base) && f.base.resourceVersion <= f.current.resourceVersion
            && (made > 0 ==> Entered(f.base, f.current.status.phase) && f.current != f.base)
            && var (v, r) := Cas(w, rid, run, f.current, status);
               && (r.Ok? ==> r.value == Proposed(f.current, status) && v.runs == w.runs)
               && (r.Err? ==> v == w && (r.error == Cancelled || r.error == Conflict))
  {
    hide TenantOk, Exclusive, Separate, Cas, ValidPlan, HoldsLease;
    var run := w.runs[rid];
    assert RunOk(w, rid);
    var f, made := FrameAt(run.pc).value, MadeAt(run.pc);
    CurrentOk(w, rid, run, f, made);
    MadeVersions(w, rid, run, f, made);
    assert TenantOk(w, run.tenant);
    CasOutcome(w, rid, run, f, made, status);
  }

  lemma MadeVersions(w: World, rid: nat, run: Run, f: Frame, made: nat)
    requires FrameOk(w, rid, run, f, made)
    ensures run.tenant in w.resources && f.base.resourceVersion + made == f.current.resourceVersion
  {
    hide Chain, OnlyWriters, Bookkeeping, ValidTenantId, ValidPlan;
  }

  lemma StartAnswers(w: World, rid: nat)
    requires Inv(w) && rid in w.runs && w.runs[rid].pc.AtStart? && AnswerOk(w.runs[rid].pc)
    ensures Arrives(AdvanceStart(w, rid, w.runs[rid], w.runs[rid].pc.frame), rid)
  {
    hide Inv, Cas, ChangedAt, Bookkeeping, ValidPlan, Entered, Reached;
    var f := w.runs[rid].pc.frame;
    StatusIsFit(w, rid);
    WriterFacts(w, rid, StartedStatus(f.current));
  }

  lemma StatusIsFit(w: World, rid: nat)
    requires Inv(w) && rid in w.runs && FrameAt(w.runs[rid].pc).Some?
    ensures var f := FrameAt(w.runs[rid].pc).value;
            f.current.status.observedGeneration <= f.current.generation && !f.current.status.phase.UnknownPhase?
  {
    hide TenantOk, Exclusive, Separate, Bookkeeping, Chain, OnlyWriters, HoldsLease, ValidPlan, ValidTenantId;
    assert RunOk(w, rid);
  }

  lemma LoopAnswers(w: World, rid: nat, c: Choice)
    requires Inv(w) && rid in w.runs && w.runs[rid].pc.AtLoop? && AnswerOk(w.runs[rid].pc)
    ensures Arrives(Advance(w, rid, c), rid)
  {
    hide Inv, Cas, RecordedChange, Bookkeeping, ValidPlan, Entered, Reached;
    var f := w.runs[rid].pc.frame;
    StatusIsFit(w, rid);
    WriterFacts(w, rid, f.current.status);
  }

  lemma MarkAnswers(w: World, rid: nat)
    requires Inv(w) && rid in w.runs && w.runs[rid].pc.AtMark? && AnswerOk(w.runs[rid].pc)
    requires w.runs[rid].pc.frame.HasStep()
    ensures Arrives(AdvanceMark(w, rid, w.runs[rid], w.runs[rid].pc.frame), rid)
  {
    hide Inv, Cas, RecordedChange, Bookkeeping, Entered, Reached, ValidPlan, ValidTenantId;
    var f := w.runs[rid].pc.frame;
    StatusIsFit(w, rid);
    var status := MarkedStatus(f.current, f.plan[f.index].name);
    WriterFacts(w, rid, status);
    SameRecord(f.current, Proposed(f.current, status), f.plan, f.index);
  }

  lemma SameRecord(r: TenantResource, next: TenantResource, plan: seq<PlannedStep>, n: nat)
    requires next.generation == r.generation && next.status.checkpoints == r.status.checkpoints
    ensures RecordedChange(next, plan, n) == RecordedChange(r, plan, n)
  {
  }

  lemma CheckpointAnswers(w: World, rid: nat, c: Choice)
    requires Inv(w) && rid in w.runs && w.runs[rid].pc.AtCheckpoint? && AnswerOk(w.runs[rid].pc)
    requires w.runs[rid].pc.frame.HasStep()
    ensures Arrives(AdvanceCheckpoint(w, rid, w.runs[rid], w.runs[rid].pc.frame, w.runs[rid].pc.observed, c), rid)
  {
    hide Inv, Cas, RecordedChange, Bookkeeping, Entered, Reached, SetCheckpoint, ValidPlan, ValidTenantId;
    var f, observed := w.runs[rid].pc.frame, w.runs[rid].pc.observed;
    StatusIsFit(w, rid);
    var status := CheckpointedStatus(f.current, f.plan[f.index], observed, c.now);
    WriterFacts(w, rid, status);
    OneMoreRecord(f.current, Proposed(f.current, status), f.plan, f.index, observed, c.now);
  }

  lemma OneMoreRecord(
    r: TenantResource, next: TenantResource, plan: seq<PlannedStep>, n: nat, observed: bool, now: int)
    requires ValidPlan(plan) && n < |plan| && Bookkeeping(r) && next.generation == r.generation
    requires next.status.checkpoints ==
             SetCheckpoint(r.status.checkpoints, Checkpoint(plan[n].name, plan[n].version, r.generation, observed, now))
    ensures RecordedChange(next, plan, n + 1) <==> RecordedChange(r, plan, n) || observed
  {
    hide SetCheckpoint, ChangedAt;
    var c := Checkpoint(plan[n].name, plan[n].version, r.generation, observed, now);
    SetCheckpointKeeps(r.status.checkpoints, c);
    forall k | 0 <= k <= n
      ensures ChangedAt(next.status.checkpoints, plan[k], r.generation)
              == if k == n then observed else ChangedAt(r.status.checkpoints, plan[k], r.generation)
    {
      RecordAt(r.status.checkpoints, next.status.checkpoints, plan[k], c, r.generation);
    }
  }

  lemma RecordAt(old': seq<Checkpoint>, new': seq<Checkpoint>, step: PlannedStep, c: Checkpoint, generation: nat)
    requires step.Step? && c.generation == generation && new' == SetCheckpoint(old', c) && DistinctCheckpoints(new')
    requires forall d :: d in old' && !SameCheckpoint(d, c) ==> d in new'
    requires step.name == c.step ==> step.version == c.version
    ensures ChangedAt(new', step, generation) == if step.name == c.step then c.changed
                                                 else ChangedAt(old', step, generation)
  {
    hide SetCheckpoint;
    if step.name == c.step {
      forall d | d in new' && SameCheckpoint(d, c) ensures d == c {
        var i :| 0 <= i < |new'| && new'[i] == d;
        var j :| 0 <= j < |new'| && new'[j] == c;
        assert !(i < j) && !(j < i);
      }
    }
  }

  lemma RefusedAnswers(f: Frame, at: nat, e: RepoError, changed: bool)
    requires e == Cancelled || e == Conflict
    requires RecordedChange(f.current, f.plan, f.index) ==> changed
    requires f.plan == [] || f.current == f.base ==> !changed
    ensures Answers(Finished(f, at), ConflictResult(e, changed))
  {
    hide RecordedChange, Entered;
  }

  lemma EndedAnswers(f: Frame, at: nat, result: RunResult)
    requires RecordedChange(f.current, f.plan, f.index) ==> result.changed
    requires f.plan == [] ==> !result.changed
    requires f.current != f.base && (result.error.Some? ==> result.error.value.StepFailed?)
    requires result.error.None? ==>
               && !result.requeue && result.requeueAfter == 0 && Reached(f.base.spec.desired, result.phase)
               && result.changed == RecordedChange(f.current, f.plan, |f.plan|)
    ensures Answers(Finished(f, at), result)
  {
    hide RecordedChange, Entered, Reached;
  }

  lemma LastStatuses(r: TenantResource, c: Choice, stepName: string, failure: StepError)
    ensures var status := FinishedStatus(r, c.now);
            && status.checkpoints == r.status.checkpoints && !status.phase.UnknownPhase?
            && status.observedGeneration == r.generation && Reached(r.spec.desired, status.phase)
    ensures var status := FailedStatus(r, stepName, failure, c.now, c.later);
            && status.checkpoints == r.status.checkpoints && status.phase == Degraded
            && status.observedGeneration == r.status.observedGeneration
  {
    hide SetCondition, Backoff;
  }

  lemma FinishAnswers(w: World, rid: nat, c: Choice)
    requires Inv(w) && rid in w.runs && w.runs[rid].pc.AtFinish? && AnswerOk(w.runs[rid].pc)
    ensures Arrives(AdvanceFinish(w, rid, w.runs[rid], w.runs[rid].pc.frame, c), rid)
  {
    hide Inv, Cas, RecordedChange, Bookkeeping, Entered, Answers, ValidTenantId, ValidPlan, Reached, FinishedStatus,
         TenantResource.Valid;
    var run := w.runs[rid];
    var f := run.pc.frame;
    StatusIsFit(w, rid);
    var status := FinishedStatus(f.current, c.now);
    LastStatuses(f.current, c, "", INVALID_PLAN);
    WriterFacts(w, rid, status);
    var next := Proposed(f.current, status);
    SameRecord(f.current, next, f.plan, f.index);
    var (v, r) := Cas(w, rid, run, f.current, status);
    if r.Err? {
      RefusedAnswers(f, |HistoryOf(v, run.tenant)|, r.error, f.changed);
    } else {
      EndedAnswers(f.(current := next, clock := Clock(c.now, c.later)), |HistoryOf(v, run.tenant)|,
                   RunResult(f.changed, false, 0, next.status.phase, None));
    }
  }

  lemma FailArrives(
    w: World, rid: nat, run: Run, f: Frame, stepName: string, failure: StepError, midway: bool, c: Choice)
    requires var status := FailedStatus(f.current, stepName, failure, c.now, c.later);
             var (v, r) := Cas(w, rid, run, f.current, status);
             && (r.Ok? ==> r.value == Proposed(f.current, status))
             && (r.Err? ==> r.error == Cancelled || r.error == Conflict)
    requires f.base.resourceVersion <= f.current.resourceVersion && (midway ==> f.plan != [] && f.current != f.base)
    requires if midway then RecordedChange(f.current, f.plan, f.index) ==> f.changed else f.plan == []
    ensures Arrives(AdvanceFail(w, rid, run, f, stepName, failure, midway, c), rid)
  {
    hide Cas, RecordedChange, Answers, Backoff, FailedStatus, HistoryOf, NextFailureCount, Entered;
    var status, changed := FailedStatus(f.current, stepName, failure, c.now, c.later), midway && f.changed;
    LastStatuses(f.current, c, stepName, failure);
    var next := Proposed(f.current, status);
    SameRecord(f.current, next, f.plan, f.index);
    NothingPlanned(f.current, f.index);
    var (v, r) := Cas(w, rid, run, f.current, status);
    if r.Err? {
      RefusedAnswers(f, |HistoryOf(v, run.tenant)|, r.error, changed);
    } else {
      var delay := if failure.retryable then Backoff(NextFailureCount(f.current)) else 0;
      EndedAnswers(f.(current := next, clock := Clock(c.now, c.later)), |HistoryOf(v, run.tenant)|,
                   RunResult(changed, failure.retryable, delay, next.status.phase, Some(StepFailed(failure))));
    }
  }

  lemma FailAnswers(w: World, rid: nat, c: Choice)
    requires Inv(w) && rid in w.runs && w.runs[rid].pc.AtFail? && AnswerOk(w.runs[rid].pc)
    ensures var pc := w.runs[rid].pc;
            Arrives(AdvanceFail(w, rid, w.runs[rid], pc.frame, pc.stepName, pc.failure, pc.midway, c), rid)
  {
    hide Inv, Cas, RecordedChange, Bookkeeping, Entered, Answers, ValidTenantId, ValidPlan, FailedStatus, Arrives,
         AdvanceFail, TenantResource.Valid;
    var pc := w.runs[rid].pc;
    StatusIsFit(w, rid);
    LastStatuses(pc.frame.current, c, pc.stepName, pc.failure);
    WriterFacts(w, rid, FailedStatus(pc.frame.current, pc.stepName, pc.failure, c.now, c.later));
    FailArrives(w, rid, w.runs[rid], pc.frame, pc.stepName, pc.failure, pc.midway, c);
  }
  lemma NothingPlanned(r: TenantResource, n: nat)
    ensures !RecordedChange(r, [], n)
  {
  }

  lemma MoveAnswers(w: World, rid: nat, c: Choice)
    requires Inv(w) && rid in w.runs && AnswerOk(w.runs[rid].pc)
    ensures Arrives(Advance(w, rid, c), rid)
  {
    hide Inv, AnswerOk, AdvanceStart, AdvanceMark, AdvanceCheckpoint, AdvanceFinish, AdvanceFail, AdvanceAcquire,
         AdvanceGet, Cas, Goto, Close, Release;
    InvOf(w, rid);
    var pc := w.runs[rid].pc;
    match pc
    case AtGet(_) => GetAnswers(w, rid, c);
    case AtStart(_) => StartAnswers(w, rid);
    case AtLoop(_) => LoopAnswers(w, rid, c);
    case AtMark(f) => if f.HasStep() { MarkAnswers(w, rid); }
    case AtEnsure(_) => EnsureAnswers(w, rid, c);
    case AtCheckpoint(f, _) => if f.HasStep() { CheckpointAnswers(w, rid, c); }
    case AtFinish(_) => FinishAnswers(w, rid, c);
    case AtFail(_, _, _, _) => FailAnswers(w, rid, c);
    case _ => EdgeAnswers(w, rid, c);
  }

  lemma InvOf(w: World, rid: nat)
    requires Inv(w) && rid in w.runs
    ensures RunOk(w, rid)
  {
  }

  // ----- every interleaving -----

  ghost predicate AllAnswer(w: World) {
    forall rid: nat :: rid in w.runs ==> AnswerOk(w.runs[rid].pc)
  }

  lemma NextAnswers(w: World, a: Action)
    requires Inv(w) && AllAnswer(w)
    ensures AllAnswer(Next(w, a))
  {
    hide Inv, AnswerOk, Advance, WriteSpec, LeasesLocal, DataLocal, StatusWrite, RunOk, TenantOk;
    if a.Move? && a.rid in w.runs {
      MoveAnswers(w, a.rid, a.choice);
      MoveEffect(w, a.rid, a.choice);
    }
    assert AnswerOk(AtAcquire) by { NewAnswers(); }
  }

  lemma NewAnswers()
    ensures AnswerOk(AtAcquire)
  {
  }

  lemma {:induction false} ExecAnswers(w: World, actions: seq<Action>)
    requires Inv(w) && AllAnswer(w)
    ensures AllAnswer(Exec(w, actions))
    decreases |actions|
  {
    hide Inv, AllAnswer, Next;
    if actions != [] {
      NextKeepsInv(w, actions[0]);
      NextAnswers(w, actions[0]);
      ExecAnswers(Next(w, actions[0]), actions[1..]);
    }
  }

  /** In every interleaving, what each run that has returned answered. */
  lemma EveryAnswer(w: World, actions: seq<Action>, rid: nat)
    requires Initial(w) && rid in Exec(w, actions).runs && Exec(w, actions).runs[rid].pc.Returned?
    ensures var pc := Exec(w, actions).runs[rid].pc; Answers(pc.closing, pc.result)
  {
    hide Exec, Answers;
    InitialInv(w);
    ExecAnswers(w, actions);
    assert AnswerOk(Exec(w, actions).runs[rid].pc);
  }

  // ----- a cancelled run -----

  /** The tenant's history grew, and not by this run. */
  ghost predicate SilentOn(h: seq<Commit>, g: seq<Commit>, rid: nat) {
    h <= g && forall i :: |h| <= i < |g| ==> g[i].author != ByRun(rid)
  }

  ghost predicate Silent(w: World, v: World, rid: nat) {
    forall id :: SilentOn(HistoryOf(w, id), HistoryOf(v, id), rid)
  }

  /** The run stays cancelled and wrote nothing. */
  ghost predicate Mute(w: World, v: World, rid: nat) {
    v.history == w.history && rid in v.runs && v.runs[rid].cancelled
  }

  lemma CasRefuses(w: World, rid: nat, run: Run, r: TenantResource, status: Status)
    requires run.cancelled
    ensures Cas(w, rid, run, r, status) == (w, Err(Cancelled))
  {
  }

  lemma StartMute(w: World, rid: nat, c: Choice)
    requires rid in w.runs && w.runs[rid].cancelled && w.runs[rid].pc.AtStart?
    ensures Mute(w, Advance(w, rid, c), rid)
  {
    hide CasStatus, Backoff, StartedStatus, MarkedStatus, CheckpointedStatus, FinishedStatus, FailedStatus, ValidPlan,
         Acquire, Release, ClassifyFailure, TenantResource.Valid, Cas,
         AdvanceMark, AdvanceCheckpoint, AdvanceFinish, AdvanceFail, AdvanceGet, AdvanceAcquire, AdvanceEnsure;
    var f := w.runs[rid].pc.frame;
    CasRefuses(w, rid, w.runs[rid], f.current, StartedStatus(f.current));
  }

  lemma MarkMute(w: World, rid: nat, c: Choice)
    requires rid in w.runs && w.runs[rid].cancelled && w.runs[rid].pc.AtMark?
    ensures Mute(w, Advance(w, rid, c), rid)
  {
    hide CasStatus, Backoff, StartedStatus, MarkedStatus, CheckpointedStatus, FinishedStatus, FailedStatus, ValidPlan,
         Acquire, Release, ClassifyFailure, TenantResource.Valid, Cas,
         AdvanceStart, AdvanceCheckpoint, AdvanceFinish, AdvanceFail, AdvanceGet, AdvanceAcquire, AdvanceEnsure;
    var f := w.runs[rid].pc.frame;
    if f.HasStep() { CasRefuses(w, rid, w.runs[rid], f.current, MarkedStatus(f.current, f.plan[f.index].name)); }
  }

  lemma CheckpointMute(w: World, rid: nat, c: Choice)
    requires rid in w.runs && w.runs[rid].cancelled && w.runs[rid].pc.AtCheckpoint?
    ensures Mute(w, Advance(w, rid, c), rid)
  {
    hide CasStatus, Backoff, StartedStatus, MarkedStatus, CheckpointedStatus, FinishedStatus, FailedStatus, ValidPlan,
         Acquire, Release, ClassifyFailure, TenantResource.Valid, Cas,
         AdvanceStart, AdvanceMark, AdvanceFinish, AdvanceFail, AdvanceGet, AdvanceAcquire, AdvanceEnsure;
    var f, observed := w.runs[rid].pc.frame, w.runs[rid].pc.observed;
    if f.HasStep() {
      CasRefuses(w, rid, w.runs[rid], f.current, CheckpointedStatus(f.current, f.plan[f.index], observed, c.now));
    }
  }

  lemma FinishMute(w: World, rid: nat, c: Choice)
    requires rid in w.runs && w.runs[rid].cancelled && w.runs[rid].pc.AtFinish?
    ensures Mute(w, Advance(w, rid, c), rid)
  {
    hide CasStatus, Backoff, StartedStatus, MarkedStatus, CheckpointedStatus, FinishedStatus, FailedStatus, ValidPlan,
         Acquire, Release, ClassifyFailure, TenantResource.Valid, Cas,
         AdvanceStart, AdvanceMark, AdvanceCheckpoint, AdvanceFail, AdvanceGet, AdvanceAcquire, AdvanceEnsure;
    var f := w.runs[rid].pc.frame;
    CasRefuses(w, rid, w.runs[rid], f.current, FinishedStatus(f.current, c.now));
  }

  lemma FailMute(w: World, rid: nat, c: Choice)
    requires rid in w.runs && w.runs[rid].cancelled && w.runs[rid].pc.AtFail?
    ensures Mute(w, Advance(w, rid, c), rid)
  {
    hide CasStatus, Backoff, StartedStatus, MarkedStatus, CheckpointedStatus, FinishedStatus, FailedStatus, ValidPlan,
         Acquire, Release, ClassifyFailure, TenantResource.Valid, Cas,
         AdvanceStart, AdvanceMark, AdvanceCheckpoint, AdvanceFinish, AdvanceGet, AdvanceAcquire, AdvanceEnsure;
    var pc := w.runs[rid].pc;
    var f := pc.frame;
    CasRefuses(w, rid, w.runs[rid], f.current, FailedStatus(f.current, pc.stepName, pc.failure, c.now, c.later));
  }

  lemma CancelledMoves(w: World, rid: nat, c: Choice)
    requires rid in w.runs && w.runs[rid].cancelled
    ensures Mute(w, Advance(w, rid, c), rid)
  {
    match w.runs[rid].pc
    case AtStart(_) => StartMute(w, rid, c);
    case AtMark(_) => MarkMute(w, rid, c);
    case AtCheckpoint(_, _) => CheckpointMute(w, rid, c);
    case AtFinish(_) => FinishMute(w, rid, c);
    case AtFail(_, _, _, _) => FailMute(w, rid, c);
    case _ => OtherMute(w, rid, c);
  }

  lemma OtherMute(w: World, rid: nat, c: Choice)
    requires rid in w.runs && w.runs[rid].cancelled
    requires var pc := w.runs[rid].pc;
             pc.AtAcquire? || pc.AtGet? || pc.AtLoop? || pc.AtEnsure? || pc.AtRelease? || pc.Returned?
    ensures Mute(w, Advance(w, rid, c), rid)
  {
    hide CasStatus, Backoff, StartedStatus, MarkedStatus, CheckpointedStatus, FinishedStatus, FailedStatus, ValidPlan,
         Acquire, Release, ClassifyFailure, TenantResource.Valid, Cas,
         AdvanceStart, AdvanceMark, AdvanceCheckpoint, AdvanceFinish, AdvanceFail;
  }

  lemma SilentThrough(w: World, v: World, u: World, rid: nat)
    requires Silent(w, v, rid) && Silent(v, u, rid)
    ensures Silent(w, u, rid)
  {
    forall id ensures SilentOn(HistoryOf(w, id), HistoryOf(u, id), rid) {
      assert SilentOn(HistoryOf(w, id), HistoryOf(v, id), rid) && SilentOn(HistoryOf(v, id), HistoryOf(u, id), rid);
    }
  }

  lemma NextSilent(w: World, a: Action, rid: nat)
    requires Inv(w) && rid in w.runs && w.runs[rid].cancelled
    ensures var v := Next(w, a); Silent(w, v, rid) && rid in v.runs && v.runs[rid].cancelled
  {
    hide Inv, Advance, WriteSpec, LeasesLocal, DataLocal, RunOk, TenantOk;
    if a.Move? && a.rid in w.runs {
      if a.rid == rid {
        CancelledMoves(w, rid, a.choice);
      } else {
        MoveEffect(w, a.rid, a.choice);
        HistoriesStay(w, a.rid, a.choice);
      }
    }
  }

  /** A step of a run adds nothing to a history but its own commit, at the end. */
  lemma HistoriesStay(w: World, rid: nat, c: Choice)
    requires Inv(w) && rid in w.runs
    ensures forall id :: var h := HistoryOf(w, id); var g := HistoryOf(Advance(w, rid, c), id);
              g == h || (|g| == |h| + 1 && h <= g && g[|h|].author == ByRun(rid))
  {
    hide Inv, Advance, LeasesLocal, RunsLocal, RunOk, TenantOk;
    MoveEffect(w, rid, c);
  }

  lemma {:induction false} ExecSilent(w: World, actions: seq<Action>, rid: nat)
    requires Inv(w) && rid in w.runs && w.runs[rid].cancelled
    ensures Silent(w, Exec(w, actions), rid)
    decreases |actions|
  {
    hide Inv, Silent, Next;
    if actions == [] {
      SilentAtRest(w, rid);
    } else {
      NextKeepsInv(w, actions[0]);
      NextSilent(w, actions[0], rid);
      ExecSilent(Next(w, actions[0]), actions[1..], rid);
      SilentThrough(w, Next(w, actions[0]), Exec(w, actions), rid);
    }
  }

  lemma SilentAtRest(w: World, rid: nat)
    ensures Silent(w, w, rid)
  {
  }

  /** Once a run is cancelled, in whatever interleaving follows, it commits nothing any more. */
  lemma CancelledRunsStopWriting(
    w: World, before: seq<Action>, after: seq<Action>, rid: nat, id: TenantId, i: nat)
    requires Initial(w) && rid in Exec(w, before).runs && Exec(w, before).runs[rid].cancelled
    requires i < |HistoryOf(Exec(w, before + after), id)|
    requires HistoryOf(Exec(w, before + after), id)[i].author == ByRun(rid)
    ensures i < |HistoryOf(Exec(w, before), id)|
    ensures HistoryOf(Exec(w, before), id)[i] == HistoryOf(Exec(w, before + after), id)[i]
  {
    hide Exec, Inv, Initial;
    InitialInv(w);
    ExecKeepsInv(w, before);
    ExecAppend(w, before, after);
    ExecSilent(Exec(w, before), after, rid);
    assert SilentOn(HistoryOf(Exec(w, before), id), HistoryOf(Exec(w, before + after), id), rid);
  }

  /** A read that is cancelled, finds no tenant or finds one that is not valid ends the run with that error;
      nothing was written. */
  lemma UnreadableEndsTheRun(w: World, rid: nat, lease: nat, c: Choice)
    requires rid in w.runs && w.runs[rid].pc == AtGet(lease)
    ensures var run, v := w.runs[rid], Next(w, Move(rid, c));
            && v.resources == w.resources && v.history == w.history && rid in v.runs
            && (run.cancelled ==> Unreadable(v.runs[rid].pc, lease, Cancelled))
            && (!run.cancelled && run.tenant !in w.resources ==> Unreadable(v.runs[rid].pc, lease, NotFound))
            && (!run.cancelled && run.tenant in w.resources && !w.resources[run.tenant].Valid() ==>
                  Unreadable(v.runs[rid].pc, lease, InvalidResource))
  {
    hide ValidPlan;
  }

  predicate Unreadable(pc: Pc, lease: nat, error: RepoError) {
    pc == AtRelease(lease, Unread, RunResult(false, false, 0, BlankPhase, Some(Repo(error))))
  }
}
