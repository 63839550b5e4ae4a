/** A run that nobody disturbs, over a plan whose steps succeed, brings its tenant to its desired state. */
module ReconcileLiveness {
  import opened Basics
  import opened Lifecycle
  import opened Leases
  import opened Reconciler
  import opened ReconcileInvariant
  import opened ReconcileSafety

  /** The planner answers this plan and no step fails. */
  predicate Fits(c: Choice, plan: seq<PlannedStep>) {
    c.plan == Some(plan) && c.fault.None?
  }

  /** How far a run is from its end when every step succeeds. */
  function MovesLeft(pc: Pc, n: nat): int {
    match pc
    case AtAcquire => 4 * n + 5
    case AtGet(_) => 4 * n + 4
    case AtStart(_) => 4 * n + 3
    case AtLoop(f) => 4 * (n - f.index) + 2
    case AtMark(f) => 4 * (n - f.index) + 1
    case AtEnsure(f) => 4 * (n - f.index)
    case AtCheckpoint(f, _) => 4 * (n - f.index) - 1
    case AtFinish(_) => 2
    case AtFail(_, _, _, _) => 0
    case AtRelease(_, _, _) => 1
    case Returned(_, _) => 0
  }

  predicate Done(r: TenantResource) {
    && (r.spec.desired == Active ==> r.status.phase == Ready)
    && (r.spec.desired == Suspend ==> r.status.phase == Suspended)
    && r.status.observedGeneration == r.generation && r.status.currentStep == ""
  }

  /** The run works on this plan, nobody else wrote since its read, and nothing went wrong. */
  ghost predicate OnTrack(w: World, rid: nat, tenant: TenantId, plan: seq<PlannedStep>) {
    && rid in w.runs && tenant in w.resources && tenant in w.history
    && var run := w.runs[rid];
       && run.tenant == tenant && !run.cancelled && !run.pc.AtFail?
       && (run.pc.AtAcquire? ==> tenant !in w.leases.held)
       && (FrameAt(run.pc).Some? ==>
             FrameAt(run.pc).value.plan == plan && |w.history[tenant]| == FrameAt(run.pc).value.start + MadeAt(run.pc))
       && (run.pc.AtRelease? || run.pc.Returned? ==> run.pc.result.error.None? && Done(w.resources[tenant]))
  }

  /** What one move of such a run leads to. */
  ghost predicate Onward(w: World, rid: nat, c: Choice, tenant: TenantId, plan: seq<PlannedStep>)
    requires rid in w.runs
  {
    var v := Advance(w, rid, c);
    rid in v.runs && OnTrack(v, rid, tenant, plan)
        && MovesLeft(v.runs[rid].pc, |plan|) == MovesLeft(w.runs[rid].pc, |plan|) - 1
  }

  lemma EarlyOnward(w: World, rid: nat, c: Choice, tenant: TenantId, plan: seq<PlannedStep>)
    requires RunOk(w, rid) && TenantOk(w, tenant) && OnTrack(w, rid, tenant, plan) && ValidPlan(plan) && Fits(c, plan)
    requires w.runs[rid].pc.AtAcquire? || w.runs[rid].pc.AtGet? || w.runs[rid].pc.AtLoop? || w.runs[rid].pc.AtRelease?
    ensures Onward(w, rid, c, tenant, plan)
  {
    hide FrameOk, OutcomeOk, Bookkeeping, HonestTerminal, Versioned, ValidTenantId;
  }

  /** A write of such a run is accepted. */
  lemma WriteAccepted(w: World, rid: nat, tenant: TenantId, plan: seq<PlannedStep>, status: Status)
    requires RunOk(w, rid) && TenantOk(w, tenant) && OnTrack(w, rid, tenant, plan) && FrameAt(w.runs[rid].pc).Some?
    requires var f := FrameAt(w.runs[rid].pc).value;
             !status.phase.UnknownPhase? && status.observedGeneration <= f.current.generation
    ensures var f := FrameAt(w.runs[rid].pc).value;
            var next := f.current.(status := status, resourceVersion := f.current.resourceVersion + 1);
            var h := w.history[tenant] + [Commit(ByRun(rid), next)];
            Cas(w, rid, w.runs[rid], f.current, status)
              == (w.(resources := w.resources[tenant := next], history := w.history[tenant := h]), Ok(next))
  {
    hide FrameOk, TenantOk, Cas;
    CasOutcome(w, rid, w.runs[rid], FrameAt(w.runs[rid].pc).value, MadeAt(w.runs[rid].pc), status);
  }

  lemma StartOnward(w: World, rid: nat, c: Choice, tenant: TenantId, plan: seq<PlannedStep>)
    requires RunOk(w, rid) && TenantOk(w, tenant) && OnTrack(w, rid, tenant, plan) && ValidPlan(plan)
    requires w.runs[rid].pc.AtStart?
    ensures Onward(w, rid, c, tenant, plan)
  {
    hide FrameOk, TenantOk, Cas;
    var f := w.runs[rid].pc.frame;
    FrameFacts(w, rid, w.runs[rid], f, MadeAt(w.runs[rid].pc));
    WriteAccepted(w, rid, tenant, plan, StartedStatus(f.current));
  }

  lemma MarkOnward(w: World, rid: nat, c: Choice, tenant: TenantId, plan: seq<PlannedStep>)
    requires RunOk(w, rid) && TenantOk(w, tenant) && OnTrack(w, rid, tenant, plan) && ValidPlan(plan)
    requires w.runs[rid].pc.AtMark?
    ensures Onward(w, rid, c, tenant, plan)
  {
    hide FrameOk, TenantOk, Cas;
    var f := w.runs[rid].pc.frame;
    FrameFacts(w, rid, w.runs[rid], f, MadeAt(w.runs[rid].pc));
    WriteAccepted(w, rid, tenant, plan, MarkedStatus(f.current, plan[f.index].name));
  }

  lemma CheckpointOnward(w: World, rid: nat, c: Choice, tenant: TenantId, plan: seq<PlannedStep>)
    requires RunOk(w, rid) && TenantOk(w, tenant) && OnTrack(w, rid, tenant, plan) && ValidPlan(plan)
    requires w.runs[rid].pc.AtCheckpoint?
    ensures Onward(w, rid, c, tenant, plan)
  {
    hide FrameOk, TenantOk, Cas;
    var f := w.runs[rid].pc.frame;
    FrameFacts(w, rid, w.runs[rid], f, MadeAt(w.runs[rid].pc));
    WriteAccepted(w, rid, tenant, plan, CheckpointedStatus(f.current, plan[f.index], w.runs[rid].pc.observed, c.now));
  }

  lemma FinishOnward(w: World, rid: nat, c: Choice, tenant: TenantId, plan: seq<PlannedStep>)
    requires RunOk(w, rid) && TenantOk(w, tenant) && OnTrack(w, rid, tenant, plan) && ValidPlan(plan)
    requires w.runs[rid].pc.AtFinish?
    ensures Onward(w, rid, c, tenant, plan)
  {
    hide FrameOk, TenantOk, Cas;
    var f := w.runs[rid].pc.frame;
    FrameFacts(w, rid, w.runs[rid], f, MadeAt(w.runs[rid].pc));
    WriteAccepted(w, rid, tenant, plan, FinishedStatus(f.current, c.now));
  }

  lemma FrameFacts(w: World, rid: nat, run: Run, f: Frame, made: nat)
    requires FrameOk(w, rid, run, f, made)
    ensures f.current.Valid() && f.current.generation == f.base.generation && f.current.spec == f.base.spec
    ensures f.current.tenantId == run.tenant
  {
    hide Chain, OnlyWriters, Bookkeeping;
  }

  lemma StepOnward(w: World, rid: nat, c: Choice, tenant: TenantId, plan: seq<PlannedStep>)
    requires Inv(w) && OnTrack(w, rid, tenant, plan) && ValidPlan(plan) && Fits(c, plan) && !w.runs[rid].pc.Returned?
    ensures Onward(w, rid, c, tenant, plan)
  {
    hide RunOk, TenantOk, Onward, ValidPlan;
    assert RunOk(w, rid) && TenantOk(w, tenant);
    var pc := w.runs[rid].pc;
    if pc.AtEnsure? {
      EnsureOnward(w, rid, c, tenant, plan);
    } else if pc.AtAcquire? || pc.AtGet? || pc.AtLoop? || pc.AtRelease? {
      EarlyOnward(w, rid, c, tenant, plan);
    } else if pc.AtStart? {
      StartOnward(w, rid, c, tenant, plan);
    } else if pc.AtMark? {
      MarkOnward(w, rid, c, tenant, plan);
    } else if pc.AtCheckpoint? {
      CheckpointOnward(w, rid, c, tenant, plan);
    } else {
      FinishOnward(w, rid, c, tenant, plan);
    }
  }

  lemma EnsureOnward(w: World, rid: nat, c: Choice, tenant: TenantId, plan: seq<PlannedStep>)
    requires RunOk(w, rid) && OnTrack(w, rid, tenant, plan) && ValidPlan(plan) && Fits(c, plan)
    requires w.runs[rid].pc.AtEnsure?
    ensures Onward(w, rid, c, tenant, plan)
  {
    hide FrameOk;
  }

  function MovesOf(rid: nat, choices: seq<Choice>): seq<Action> {
    if choices == [] then [] else [Move(rid, choices[0])] + MovesOf(rid, choices[1..])
  }

  lemma {:induction false} MovesArrive(
    w: World, rid: nat, tenant: TenantId, plan: seq<PlannedStep>, choices: seq<Choice>)
    requires Inv(w) && OnTrack(w, rid, tenant, plan) && ValidPlan(plan) && forall c :: c in choices ==> Fits(c, plan)
    requires rid in w.runs && |choices| == MovesLeft(w.runs[rid].pc, |plan|)
    ensures var v := Exec(w, MovesOf(rid, choices));
            rid in v.runs && OnTrack(v, rid, tenant, plan) && v.runs[rid].pc.Returned?
    decreases |choices|
  {
    hide Inv, OnTrack, ValidPlan, Advance;
    var pc := w.runs[rid].pc;
    OnlyReturnedIsOver(w, rid, tenant, plan);
    if choices != [] {
      StepOnward(w, rid, choices[0], tenant, plan);
      MoveKeepsInv(w, rid, choices[0]);
      assert MovesOf(rid, choices)[1..] == MovesOf(rid, choices[1..]);
      MovesArrive(Advance(w, rid, choices[0]), rid, tenant, plan, choices[1..]);
    }
  }

  lemma OnlyReturnedIsOver(w: World, rid: nat, tenant: TenantId, plan: seq<PlannedStep>)
    requires Inv(w) && OnTrack(w, rid, tenant, plan)
    ensures rid in w.runs && (w.runs[rid].pc.Returned? <==> MovesLeft(w.runs[rid].pc, |plan|) == 0)
    ensures 0 <= MovesLeft(w.runs[rid].pc, |plan|)
  {
    hide FrameOk, ClosingOk, TenantOk, Exclusive, Separate;
    assert RunOk(w, rid);
  }

  /** From any reachable state, a run started for a tenant that is not held, over a valid n-step plan
      whose steps succeed, returns without an error after 4n+5 undisturbed moves, and leaves the
      tenant in the phase its desired state calls for, observed at its generation. */
  lemma UndisturbedRunSucceeds(
    w: World, actions: seq<Action>, rid: nat, tenant: TenantId, plan: seq<PlannedStep>, choices: seq<Choice>)
    requires Initial(w)
    requires var v := Exec(w, actions); rid !in v.runs && tenant in v.resources && tenant !in v.leases.held
    requires ValidPlan(plan) && |choices| == 4 * |plan| + 5 && forall c :: c in choices ==> Fits(c, plan)
    ensures var u := Exec(Next(Exec(w, actions), Spawn(rid, tenant)), MovesOf(rid, choices));
            && rid in u.runs && u.runs[rid].pc.Returned? && u.runs[rid].pc.result.error.None?
            && tenant in u.resources && Done(u.resources[tenant])
  {
    hide RunOk, Exclusive, Separate, Advance, ValidPlan;
    InitialInv(w);
    ExecKeepsInv(w, actions);
    var v := Exec(w, actions);
    assert TenantOk(v, tenant);
    NextKeepsInv(v, Spawn(rid, tenant));
    MovesArrive(Next(v, Spawn(rid, tenant)), rid, tenant, plan, choices);
  }
}
