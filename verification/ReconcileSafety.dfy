/** What holds after any interleaving of reconcile runs and desired-state writes. */
module ReconcileSafety {
  import opened Basics
  import opened Lifecycle
  import opened Leases
  import opened Reconciler
  import opened ReconcileInvariant

  /** No run has started; every stored resource is in order. */
  ghost predicate Initial(w: World) {
    && w.runs == map[]
    && w.leases == LeaseTable({}, [])
    && w.history.Keys == w.resources.Keys && w.resources.Keys <= w.plans.Keys
    && forall id :: id in w.resources ==>
         && w.history[id] == []
         && w.resources[id].tenantId == id && w.resources[id].Valid()
         && Bookkeeping(w.resources[id]) && HonestTerminal(w.resources[id], w.plans[id])
  }

  lemma NextKeepsInv(w: World, a: Action)
    requires Inv(w)
    ensures Inv(Next(w, a))
  {
    hide Inv, Advance, UpdateDesiredState;
    match a
    case Spawn(_, _) => OnlyRunsKeepsInv(w, Next(w, a));
    case Cancel(_) => OnlyRunsKeepsInv(w, Next(w, a));
    case Move(rid, choice) => if rid in w.runs { MoveKeepsInv(w, rid, choice); }
    case UpdateDesired(cancelled, tenant, expected, spec) => SpecWriteKeepsInv(w, cancelled, tenant, expected, spec);
  }

  /** New runs may start and cancellations may arrive at any time. */
  lemma OnlyRunsKeepsInv(w: World, v: World)
    requires Inv(w) && v == w.(runs := v.runs)
    requires w.runs.Keys <= v.runs.Keys
    requires forall k :: k in w.runs ==> v.runs[k].pc == w.runs[k].pc && v.runs[k].tenant == w.runs[k].tenant
    requires forall k :: k in v.runs && k !in w.runs ==> v.runs[k].pc.AtAcquire?
    ensures Inv(v)
  {
    hide TenantOk, FrameOk, OutcomeOk, Exclusive;
    forall k: nat | k in v.runs ensures RunOk(v, k) {
      if k in w.runs { assert RunOk(w, k); UnmovedKept(w, v, k, v.runs[k]); }
    }
    forall id | id in v.resources ensures TenantOk(v, id) { assert TenantOk(w, id); TenantUnmoved(w, v, id); }
  }

  lemma UnmovedKept(w: World, v: World, k: nat, run: Run)
    requires RunOk(w, k) && k in v.runs && v.runs[k] == run
    requires v.resources == w.resources && v.history == w.history && v.leases == w.leases
    requires run == w.runs[k].(cancelled := run.cancelled)
    ensures RunOk(v, k)
  {
  }

  lemma TenantUnmoved(w: World, v: World, id: TenantId)
    requires TenantOk(w, id)
    requires v.resources == w.resources && v.history == w.history && v.plans == w.plans
    ensures TenantOk(v, id)
  {
  }

  lemma InitialInv(w: World)
    requires Initial(w)
    ensures Inv(w)
  {
    forall id | id in w.resources ensures TenantOk(w, id) {}
  }

  lemma {:induction false} ExecKeepsInv(w: World, actions: seq<Action>)
    requires Inv(w)
    ensures Inv(Exec(w, actions))
    decreases |actions|
  {
    if actions != [] {
      NextKeepsInv(w, actions[0]);
      ExecKeepsInv(Next(w, actions[0]), actions[1..]);
    }
  }

  lemma {:induction false} ExecAppend(w: World, a: seq<Action>, b: seq<Action>)
    ensures Exec(w, a + b) == Exec(Exec(w, a), b)
    decreases |a|
  {
    if a == [] {
      assert a + b == b;
    } else {
      assert (a + b)[1..] == a[1..] + b;
      ExecAppend(Next(w, a[0]), a[1..], b);
    }
  }

  // ----- versions and generations over a whole run of actions -----

  function Before(first: TenantResource, h: seq<Commit>, j: nat): TenantResource
    requires j <= |h|
  {
    if j == 0 then first else h[j - 1].resource
  }

  /** Each accepted write, of either kind, relative to the resource it replaced. */
  ghost predicate WriteShape(c: Commit, before: TenantResource) {
    && c.resource.resourceVersion == before.resourceVersion + 1
    && c.resource.tenantId == before.tenantId && c.resource.provisioningKey == before.provisioningKey
    && (c.author.ByRun? ==> c.resource.spec == before.spec && c.resource.generation == before.generation)
    && (c.author.BySpecWriter? ==>
          && c.resource.spec != before.spec && c.resource.generation == before.generation + 1
          && c.resource.status == before.status)
  }

  ghost predicate Shaped(w0: World, w: World) {
    && w.resources.Keys == w0.resources.Keys && w.resources.Keys <= w.history.Keys
    && forall id :: id in w.resources ==> ShapedTenant(w0.resources[id], w.resources[id], w.history[id])
  }

  ghost predicate ShapedTenant(first: TenantResource, last: TenantResource, h: seq<Commit>) {
    && (forall j :: 0 <= j < |h| ==> WriteShape(h[j], Before(first, h, j)))
    && last == Before(first, h, |h|)
  }

  lemma ShapedGrows(first: TenantResource, last: TenantResource, h: seq<Commit>, c: Commit)
    requires ShapedTenant(first, last, h) && WriteShape(c, last)
    ensures ShapedTenant(first, c.resource, h + [c])
  {
    hide WriteShape;
    var g := h + [c];
    forall j | 0 <= j < |g| ensures WriteShape(g[j], Before(first, g, j)) {
      if j < |h| { assert WriteShape(h[j], Before(first, h, j)) && Before(first, g, j) == Before(first, h, j); }
    }
  }

  lemma MoveShaped(w0: World, w: World, v: World, rid: nat)
    requires Shaped(w0, w) && rid in w.runs && Local(w, v, rid)
    ensures Shaped(w0, v)
  {
    hide LeasesLocal, RunsLocal, ShapedTenant;
    var id := w.runs[rid].tenant;
    if v.history != w.history {
      StatusShape(w.resources[id], Commit(ByRun(rid), v.resources[id]));
      ShapedGrows(w0.resources[id], w.resources[id], w.history[id], Commit(ByRun(rid), v.resources[id]));
    }
  }

  lemma StatusShape(before: TenantResource, c: Commit)
    requires c.author.ByRun?
    requires c.resource == before.(status := c.resource.status, resourceVersion := before.resourceVersion + 1)
    ensures WriteShape(c, before)
  {
  }

  lemma SpecShaped(w0: World, w: World, cancelled: bool, id: TenantId, expected: nat, spec: Spec)
    requires Shaped(w0, w)
    ensures Shaped(w0, UpdateDesiredState(w, cancelled, id, expected, spec))
  {
    hide ShapedTenant;
    var v := UpdateDesiredState(w, cancelled, id, expected, spec);
    if v != w {
      ShapedGrows(w0.resources[id], w.resources[id], w.history[id], Commit(BySpecWriter, v.resources[id]));
    }
  }

  lemma NextShaped(w0: World, w: World, a: Action)
    requires Inv(w) && Shaped(w0, w)
    ensures Shaped(w0, Next(w, a))
  {
    hide Inv, Advance, UpdateDesiredState, ShapedTenant, Local;
    match a
    case Move(rid, c) => if rid in w.runs { MoveEffect(w, rid, c); MoveShaped(w0, w, Advance(w, rid, c), rid); }
    case UpdateDesired(cancelled, id, expected, spec) => SpecShaped(w0, w, cancelled, id, expected, spec);
    case _ =>
  }

  lemma {:induction false} ExecShaped(w0: World, w: World, actions: seq<Action>)
    requires Inv(w) && Shaped(w0, w)
    ensures Shaped(w0, Exec(w, actions))
    decreases |actions|
  {
    if actions != [] {
      NextKeepsInv(w, actions[0]);
      NextShaped(w0, w, actions[0]);
      ExecShaped(w0, Next(w, actions[0]), actions[1..]);
    }
  }

  lemma ShapedAt(first: TenantResource, last: TenantResource, h: seq<Commit>, j: nat)
    requires ShapedTenant(first, last, h) && j < |h|
    ensures h[j].resource.resourceVersion == Before(first, h, j).resourceVersion + 1
    ensures h[j].resource.generation >= Before(first, h, j).generation
  {
    assert WriteShape(h[j], Before(first, h, j));
  }

  lemma {:induction false} ShapedVersion(first: TenantResource, last: TenantResource, h: seq<Commit>, j: nat)
    requires ShapedTenant(first, last, h) && j <= |h|
    ensures Before(first, h, j).resourceVersion == first.resourceVersion + j
    ensures first.generation <= Before(first, h, j).generation
  {
    hide ShapedTenant;
    if j > 0 {
      ShapedVersion(first, last, h, j - 1);
      ShapedAt(first, last, h, j - 1);
    }
  }

  lemma ShapedFacts(first: TenantResource, last: TenantResource, h: seq<Commit>, j: nat)
    requires ShapedTenant(first, last, h) && j < |h|
    ensures h[j].resource.resourceVersion == first.resourceVersion + 1 + j
    ensures WriteShape(h[j], Before(first, h, j)) && last == Before(first, h, |h|)
  {
    ShapedVersion(first, last, h, j + 1);
  }

  lemma InitialShaped(w: World)
    requires Initial(w)
    ensures Shaped(w, w)
  {
  }

  /** Every accepted write raises the version by one; a run changes only the status, and a
      desired-state write only the desired state, by one generation. */
  lemma VersionsGoUpByOne(w: World, actions: seq<Action>, id: TenantId, j: nat)
    requires Initial(w) && id in w.resources
    requires var h := HistoryOf(Exec(w, actions), id); j < |h|
    ensures var v := Exec(w, actions);
            && id in v.resources && id in v.history
            && v.resources[id] == Before(w.resources[id], v.history[id], |v.history[id]|)
            && v.history[id][j].resource.resourceVersion == w.resources[id].resourceVersion + 1 + j
            && WriteShape(v.history[id][j], Before(w.resources[id], v.history[id], j))
  {
    hide Inv, Bookkeeping, HonestTerminal, WriteShape, ShapedTenant, Exec;
    InitialInv(w);
    InitialShaped(w);
    ExecShaped(w, w, actions);
    var v := Exec(w, actions);
    ShapedFacts(w.resources[id], v.resources[id], v.history[id], j);
  }

  // ----- no desired-state write is lost -----

  /** A desired-state write takes effect exactly if it is not cancelled, was sent for the stored version,
      and asks for another, known state; then it is the next version and generation of that tenant. */
  lemma DesiredWriteTakesEffect(w: World, cancelled: bool, id: TenantId, expected: nat, spec: Spec)
    ensures var v := Next(w, UpdateDesired(cancelled, id, expected, spec));
            if && !cancelled && id in w.resources && expected == w.resources[id].resourceVersion
               && !spec.desired.UnknownDesired? && spec != w.resources[id].spec
            then
              && v.resources == w.resources[id := v.resources[id]] && v.runs == w.runs && v.plans == w.plans
              && v.resources[id] == w.resources[id].(spec := spec, generation := w.resources[id].generation + 1,
                                                     resourceVersion := expected + 1)
              && v.history == w.history[id := HistoryOf(w, id) + [Commit(BySpecWriter, v.resources[id])]]
            else v == w
  {
  }

  /** The action is a desired-state write for the version it found, and for the state it left. */
  predicate SentFor(a: Action, id: TenantId, found: TenantResource, left: TenantResource) {
    && a.UpdateDesired? && a.tenant == id && !a.cancelled
    && a.expected == found.resourceVersion && a.spec == left.spec != found.spec
  }

  /** Some action of the run made the j-th commit of the tenant, as a desired-state write. */
  ghost predicate CameFrom(w: World, actions: seq<Action>, id: TenantId, j: nat, k: nat)
    requires id in w.resources
  {
    var h := HistoryOf(Exec(w, actions), id);
    && j < |h| && k < |actions| && |HistoryOf(Exec(w, actions[..k]), id)| == j
    && SentFor(actions[k], id, Before(w.resources[id], h, j), h[j].resource)
  }

  lemma LastAction(w: World, actions: seq<Action>)
    requires actions != []
    ensures var n := |actions| - 1; Exec(w, actions) == Next(Exec(w, actions[..n]), actions[n])
  {
    hide Next;
    var n := |actions| - 1;
    assert actions == actions[..n] + [actions[n]];
    ExecAppend(w, actions[..n], [actions[n]]);
    var v := Exec(w, actions[..n]);
    assert Exec(v, [actions[n]]) == Next(v, actions[n]);
  }

  lemma NextHistory(w: World, a: Action, id: TenantId)
    requires Inv(w) && id in w.resources
    ensures var h, g := HistoryOf(w, id), HistoryOf(Next(w, a), id);
            || g == h
            || (&& |g| == |h| + 1 && h <= g
                && (g[|h|].author.BySpecWriter? ==> SentFor(a, id, w.resources[id], g[|h|].resource)))
  {
    hide Inv, Advance, LeasesLocal, RunsLocal, RunOk, TenantOk;
    if a.Move? && a.rid in w.runs { MoveEffect(w, a.rid, a.choice); }
  }

  /** Every desired-state commit came from a write sent for exactly the version that it replaced: no
      update is overwritten unseen. */
  lemma {:induction false} NoUpdateIsLost(w: World, actions: seq<Action>, id: TenantId, j: nat)
    requires Initial(w) && id in w.resources
    requires var h := HistoryOf(Exec(w, actions), id); j < |h| && h[j].author.BySpecWriter?
    ensures exists k: nat :: CameFrom(w, actions, id, j, k)
    decreases |actions|
  {
    hide Inv, Initial, Next, WriteShape;
    InitialInv(w);
    if actions == [] {
      NothingYet(w, id);
    } else {
      var n := |actions| - 1;
      var front := actions[..n];
      var h, g := HistoryOf(Exec(w, front), id), HistoryOf(Exec(w, actions), id);
      ExecKeepsInv(w, front);
      LastAction(w, actions);
      ResourceIsLast(w, front, id);
      NextHistory(Exec(w, front), actions[n], id);
      if j < |h| {
        NoUpdateIsLost(w, front, id, j);
        var k: nat :| CameFrom(w, front, id, j, k);
        assert front[..k] == actions[..k];
        assert CameFrom(w, actions, id, j, k);
      } else {
        assert Before(w.resources[id], g, j) == Before(w.resources[id], h, j);
        assert CameFrom(w, actions, id, j, n);
      }
    }
  }

  lemma NothingYet(w: World, id: TenantId)
    requires Initial(w) && id in w.resources
    ensures HistoryOf(Exec(w, []), id) == []
  {
  }

  lemma ResourceIsLast(w: World, actions: seq<Action>, id: TenantId)
    requires Initial(w) && id in w.resources
    ensures var v := Exec(w, actions);
            && id in v.resources
            && v.resources[id] == Before(w.resources[id], HistoryOf(v, id), |HistoryOf(v, id)|)
  {
    hide Inv, Bookkeeping, HonestTerminal, Exec, WriteShape;
    InitialInv(w);
    InitialShaped(w);
    ExecShaped(w, w, actions);
    assert ShapedTenant(w.resources[id], Exec(w, actions).resources[id], Exec(w, actions).history[id]);
  }

  // ----- whose writes are whose -----

  /** Whether the i-th write of its tenant can be one that a run at this point has made. */
  predicate Within(pc: Pc, i: nat) {
    if FrameAt(pc).Some? then FrameAt(pc).value.start <= i
    else (pc.AtRelease? || pc.Returned?) && pc.closing.Finished? && pc.closing.frame.start <= i < pc.closing.closedAt
  }

  ghost predicate WrittenWithin(w: World, author: Author, id: TenantId, i: nat) {
    author.ByRun? ==> author.rid in w.runs && w.runs[author.rid].tenant == id && Within(w.runs[author.rid].pc, i)
  }

  /** Every write by a run is one of its tenant, made between its read and its outcome. */
  ghost predicate OwnWrites(w: World) {
    forall id, i: nat :: id in w.history && i < |w.history[id]| ==> WrittenWithin(w, w.history[id][i].author, id, i)
  }

  /** Where a compare-and-swap takes the run: on with the same frame, or to an outcome fixed after it. */
  ghost predicate GoesOn(pc: Pc, f: Frame, closedAt: nat) {
    || (FrameAt(pc).Some? && FrameAt(pc).value.start == f.start)
    || (pc.AtRelease? && pc.closing.Finished? && pc.closing.frame.start == f.start && pc.closing.closedAt == closedAt)
  }

  lemma CloseGoesOn(w: World, rid: nat, run: Run, f: Frame, result: RunResult)
    ensures var v := Close(w, rid, run, f, result);
            rid in v.runs && GoesOn(v.runs[rid].pc, f, |HistoryOf(v, run.tenant)|)
  {
  }

  ghost predicate Continues(v: World, rid: nat, run: Run, f: Frame) {
    rid in v.runs && GoesOn(v.runs[rid].pc, f, |HistoryOf(v, run.tenant)|)
  }

  lemma StartGoesOn(w: World, rid: nat, run: Run, f: Frame)
    ensures Continues(AdvanceStart(w, rid, run, f), rid, run, f)
  {
    hide Cas, Close, StartedStatus;
    var (v, r) := Cas(w, rid, run, f.current, StartedStatus(f.current));
    if r.Err? { CloseGoesOn(v, rid, run, f, ConflictResult(r.error, false)); }
  }

  lemma MarkGoesOn(w: World, rid: nat, run: Run, f: Frame)
    requires f.HasStep()
    ensures Continues(AdvanceMark(w, rid, run, f), rid, run, f)
  {
    hide Cas, Close, MarkedStatus;
    var (v, r) := Cas(w, rid, run, f.current, MarkedStatus(f.current, f.plan[f.index].name));
    if r.Err? { CloseGoesOn(v, rid, run, f, ConflictResult(r.error, f.changed)); }
  }

  lemma CheckpointGoesOn(w: World, rid: nat, run: Run, f: Frame, observed: bool, c: Choice)
    requires f.HasStep()
    ensures Continues(AdvanceCheckpoint(w, rid, run, f, observed, c), rid, run, f)
  {
    hide Cas, Close, CheckpointedStatus;
    var (v, r) := Cas(w, rid, run, f.current, CheckpointedStatus(f.current, f.plan[f.index], observed, c.now));
    if r.Err? { CloseGoesOn(v, rid, run, f, ConflictResult(r.error, f.changed)); }
  }

  lemma FinishGoesOn(w: World, rid: nat, run: Run, f: Frame, c: Choice)
    ensures Continues(AdvanceFinish(w, rid, run, f, c), rid, run, f)
  {
    hide Cas, FinishedStatus;
  }

  lemma FailGoesOn(
    w: World, rid: nat, run: Run, f: Frame, stepName: string, failure: StepError, midway: bool, c: Choice)
    ensures Continues(AdvanceFail(w, rid, run, f, stepName, failure, midway, c), rid, run, f)
  {
    hide Cas, FailedStatus, Backoff;
  }

  lemma WriterGoesOn(w: World, rid: nat, f: Frame, c: Choice)
    requires rid in w.runs && FrameAt(w.runs[rid].pc) == Some(f)
    ensures Continues(Advance(w, rid, c), rid, w.runs[rid], f)
  {
    hide AdvanceStart, AdvanceMark, AdvanceCheckpoint, AdvanceFinish, AdvanceFail, Close;
    var run := w.runs[rid];
    match run.pc
    case AtStart(_) => StartGoesOn(w, rid, run, f);
    case AtLoop(_) => CloseGoesOn(w, rid, run, f,
                                  RunResult(f.changed, true, 0, f.current.status.phase, Some(Repo(Cancelled))));
    case AtMark(_) => if f.HasStep() { MarkGoesOn(w, rid, run, f); }
    case AtCheckpoint(_, observed) => if f.HasStep() { CheckpointGoesOn(w, rid, run, f, observed, c); }
    case AtFinish(_) => FinishGoesOn(w, rid, run, f, c);
    case AtFail(_, stepName, failure, midway) => FailGoesOn(w, rid, run, f, stepName, failure, midway, c);
    case _ =>
  }

  lemma FrameStart(w: World, rid: nat, f: Frame)
    requires rid in w.runs && RunOk(w, rid) && FrameAt(w.runs[rid].pc) == Some(f)
    ensures f.start <= |HistoryOf(w, w.runs[rid].tenant)| && f.current.tenantId == w.runs[rid].tenant
  {
    hide WriteOk, OnlyWriters, Bookkeeping, ClosingOk, HoldsLease, ValidPlan;
  }

  lemma HistoryGrows(w: World, rid: nat, c: Choice)
    requires Inv(w) && rid in w.runs
    ensures |HistoryOf(w, w.runs[rid].tenant)| <= |HistoryOf(Advance(w, rid, c), w.runs[rid].tenant)|
  {
    hide Inv, RunOk, TenantOk, Exclusive, Separate, Advance, LeasesLocal;
    MoveEffect(w, rid, c);
  }

  ghost predicate StillWithin(v: World, rid: nat, i: nat) { rid in v.runs && Within(v.runs[rid].pc, i) }

  /** A step keeps what its run may have written before it, and takes in what it writes itself. */
  lemma AdvanceWithin(w: World, rid: nat, c: Choice, i: nat)
    requires Inv(w) && rid in w.runs && RunOk(w, rid)
    requires var n := |HistoryOf(w, w.runs[rid].tenant)|;
             || (i < n && Within(w.runs[rid].pc, i))
             || (i == n < |HistoryOf(Advance(w, rid, c), w.runs[rid].tenant)|)
    ensures StillWithin(Advance(w, rid, c), rid, i)
  {
    hide Inv, RunOk, Advance;
    var run := w.runs[rid];
    HistoryGrows(w, rid, c);
    if FrameAt(run.pc).Some? {
      var f := FrameAt(run.pc).value;
      FrameStart(w, rid, f);
      WriterGoesOn(w, rid, f, c);
    } else {
      OthersWriteNothing(w, rid, c);
    }
  }

  lemma OthersWriteNothing(w: World, rid: nat, c: Choice)
    requires rid in w.runs && FrameAt(w.runs[rid].pc).None?
    ensures Advance(w, rid, c).history == w.history
    ensures var v, pc := Advance(w, rid, c), w.runs[rid].pc;
            rid in v.runs && (pc.AtRelease? || pc.Returned? ==>
              (v.runs[rid].pc.AtRelease? || v.runs[rid].pc.Returned?) && v.runs[rid].pc.closing == pc.closing)
  {
    hide Acquire, Release, Read, ValidPlan;
  }

  lemma MoveKeepsOwnWrites(w: World, rid: nat, c: Choice)
    requires Inv(w) && OwnWrites(w) && rid in w.runs
    ensures OwnWrites(Advance(w, rid, c))
  {
    hide Inv, RunOk, TenantOk, Exclusive, Separate, Advance, Within, LeasesLocal;
    var v, tenant := Advance(w, rid, c), w.runs[rid].tenant;
    MoveEffect(w, rid, c);
    forall id, i: nat | id in v.history && i < |v.history[id]|
      ensures WrittenWithin(v, v.history[id][i].author, id, i) {
      var author := v.history[id][i].author;
      if author.ByRun? {
        if i < |HistoryOf(w, id)| {
          assert w.history[id][i] == v.history[id][i] && WrittenWithin(w, author, id, i);
        } else {
          assert id == tenant && author == ByRun(rid);
        }
        if author.rid == rid {
          MoverOk(w, rid);
          AdvanceWithin(w, rid, c, i);
        }
      }
    }
  }

  lemma MoverOk(w: World, rid: nat)
    requires Inv(w) && rid in w.runs
    ensures RunOk(w, rid)
  {
  }

  lemma NextKeepsOwnWrites(w: World, a: Action)
    requires Inv(w) && OwnWrites(w)
    ensures OwnWrites(Next(w, a))
  {
    hide Inv, Advance, Within, WriteSpec;
    var v := Next(w, a);
    match a
    case Move(rid, c) => if rid in w.runs { MoveKeepsOwnWrites(w, rid, c); }
    case _ =>
      forall id, i: nat | id in v.history && i < |v.history[id]|
        ensures WrittenWithin(v, v.history[id][i].author, id, i) {
        if i < |HistoryOf(w, id)| {
          assert w.history[id][i] == v.history[id][i] && WrittenWithin(w, v.history[id][i].author, id, i);
        }
      }
  }

  lemma {:induction false} ExecKeepsOwnWrites(w: World, actions: seq<Action>)
    requires Inv(w) && OwnWrites(w)
    ensures OwnWrites(Exec(w, actions))
    decreases |actions|
  {
    hide Inv, OwnWrites, Next;
    if actions != [] {
      NextKeepsInv(w, actions[0]);
      NextKeepsOwnWrites(w, actions[0]);
      ExecKeepsOwnWrites(Next(w, actions[0]), actions[1..]);
    }
  }

  /** In every reachable state a run wrote only its own tenant, nothing before its read, and nothing
      after its outcome was fixed. */
  lemma WritesEndWithTheRun(w: World, actions: seq<Action>, rid: nat, id: TenantId, i: nat)
    requires Initial(w) && rid in Exec(w, actions).runs && id in Exec(w, actions).history
    requires i < |Exec(w, actions).history[id]| && Exec(w, actions).history[id][i].author == ByRun(rid)
    ensures var run := Exec(w, actions).runs[rid];
            && run.tenant == id && Within(run.pc, i)
            && (run.pc.AtRelease? || run.pc.Returned? ==>
                  run.pc.closing.Finished? && run.pc.closing.frame.start <= i < run.pc.closing.closedAt)
            && (FrameAt(run.pc).Some? ==> FrameAt(run.pc).value.start <= i)
            && !run.pc.AtAcquire? && !run.pc.AtGet?
  {
    hide Exec;
    InitialInv(w);
    assert OwnWrites(w);
    ExecKeepsOwnWrites(w, actions);
    assert WrittenWithin(Exec(w, actions), ByRun(rid), id, i);
  }

  // ----- the main results -----

  /** In every reachable state an up-to-date Ready or Suspended tenant has the phase its desired
      state calls for, no step in progress, and a checkpoint of this generation for every step of
      the plan behind it. */
  lemma ReachableTerminalIsHonest(w: World, actions: seq<Action>, id: TenantId)
    requires Initial(w) && id in Exec(w, actions).resources
    ensures var v := Exec(w, actions);
            var r := v.resources[id];
            && id in v.plans
            && (Terminal(r.status.phase) && r.status.observedGeneration == r.generation ==>
                  && (r.status.phase == Ready <==> r.spec.desired == Active)
                  && (r.status.phase == Suspended <==> r.spec.desired == Suspend)
                  && r.status.currentStep == ""
                  && forall k :: 0 <= k < |v.plans[id]| ==>
                       Checkpointed(r.status.checkpoints, v.plans[id][k], r.generation))
  {
    InitialInv(w);
    ExecKeepsInv(w, actions);
    assert TenantOk(Exec(w, actions), id);
  }

  /** In every reachable state the bookkeeping of each tenant is in order. */
  lemma ReachableBookkeeping(w: World, actions: seq<Action>, id: TenantId)
    requires Initial(w) && id in Exec(w, actions).resources
    ensures var r := Exec(w, actions).resources[id];
            && r.Valid() && r.tenantId == id
            && r.status.observedGeneration <= r.generation
            && (forall i, j :: 0 <= i < j < |r.status.checkpoints| ==>
                  !SameCheckpoint(r.status.checkpoints[i], r.status.checkpoints[j]))
            && (forall c :: c in r.status.checkpoints ==> c.generation <= r.generation)
            && CountKind(r.status.conditions, "Ready") <= 1
            && (r.status.retryAt.Some? ==> r.status.phase == Degraded)
  {
    InitialInv(w);
    ExecKeepsInv(w, actions);
    assert TenantOk(Exec(w, actions), id);
  }

  lemma ReturnedOutcome(w: World, actions: seq<Action>, rid: nat)
    requires Initial(w) && rid in Exec(w, actions).runs
    requires var pc := Exec(w, actions).runs[rid].pc; pc.Returned? && pc.closing.Finished?
    ensures var v := Exec(w, actions);
            var pc := v.runs[rid].pc;
            && v.runs[rid].tenant in v.history
            && OutcomeOk(rid, pc.closing.frame, pc.closing.closedAt, pc.result, v.history[v.runs[rid].tenant])
  {
    InitialInv(w);
    ExecKeepsInv(w, actions);
    assert RunOk(Exec(w, actions), rid);
  }

  lemma SameSpec(f: Frame, j: nat, r: TenantResource)
    ensures WriteOk(f, j, r) || FinalWrite(f, r) ==> r.spec == f.base.spec && r.generation == f.base.generation
  {
  }

  /** A run over an n-step plan that succeeds made 2n+2 writes, of consecutive versions right after
      the version it read and with nobody else's write among them: the start, a mark and a checkpoint
      for each step in plan order, and the end, for the very desired state it planned from. */
  lemma SuccessIsOneUnbrokenChain(w: World, actions: seq<Action>, rid: nat)
    requires Initial(w) && rid in Exec(w, actions).runs
    requires var pc := Exec(w, actions).runs[rid].pc; pc.Returned? && pc.result.error.None?
    ensures var v := Exec(w, actions);
            var pc := v.runs[rid].pc;
            && pc.closing.Finished? && v.runs[rid].tenant in v.history
            && var f, h, n := pc.closing.frame, v.history[v.runs[rid].tenant], |pc.closing.frame.plan|;
               && f.start + 2 * n + 2 <= |h|
               && (forall i :: f.start <= i < f.start + 2 * n + 2 ==>
                     && h[i].author == ByRun(rid)
                     && h[i].resource.resourceVersion == f.base.resourceVersion + 1 + (i - f.start)
                     && h[i].resource.spec == f.base.spec && h[i].resource.generation == f.base.generation)
               && (forall i :: f.start <= i < f.start + 2 * n + 1 ==> WriteOk(f, i - f.start, h[i].resource))
               && FinalWrite(f, h[f.start + 2 * n + 1].resource)
  {
    hide WriteOk, FinalWrite, FailureWrite, FrameOk, TenantOk, Exec, Exclusive, Initial, Separate;
    InitialInv(w);
    ExecKeepsInv(w, actions);
    assert RunOk(Exec(w, actions), rid);
    var v := Exec(w, actions);
    var closing := v.runs[rid].pc.closing;
    var h := v.history[v.runs[rid].tenant];
    var made: nat :| Settled(rid, closing.frame, closing.closedAt, v.runs[rid].pc.result, h, made);
    var f, n := closing.frame, |closing.frame.plan|;
    forall i | f.start <= i < f.start + 2 * n + 2
      ensures h[i].author == ByRun(rid)
              && h[i].resource.resourceVersion == f.base.resourceVersion + 1 + (i - f.start)
              && h[i].resource.spec == f.base.spec && h[i].resource.generation == f.base.generation
              && (i < f.start + 2 * n + 1 ==> WriteOk(f, i - f.start, h[i].resource))
    {
      SameSpec(f, i - f.start, h[i].resource);
    }
  }

  /** Whether a changed desired state was committed between a run's read and its outcome. */
  ghost predicate Overtaken(h: seq<Commit>, f: Frame, closedAt: nat) {
    exists i :: f.start <= i < closedAt && i < |h| && h[i].author == BySpecWriter
  }

  /** A changed desired state between a run's read and its outcome ends the run in a requeued
      conflict, or in a context error if it was cancelled first, with no terminal write of its own.
      A conflict in turn always means such a change, and nothing else ever ends a run that read. */
  lemma ConflictExactlyWhenOvertaken(w: World, actions: seq<Action>, rid: nat)
    requires Initial(w) && rid in Exec(w, actions).runs
    requires var pc := Exec(w, actions).runs[rid].pc; pc.Returned? && pc.closing.Finished?
    ensures var v := Exec(w, actions);
            var pc := v.runs[rid].pc;
            var f, closedAt, error := pc.closing.frame, pc.closing.closedAt, pc.result.error;
            && v.runs[rid].tenant in v.history
            && var h := v.history[v.runs[rid].tenant];
               && closedAt <= |h|
               && (error == Some(Repo(Conflict)) ==> Overtaken(h, f, closedAt) && pc.result.requeue)
               && (Overtaken(h, f, closedAt) ==>
                     && (error == Some(Repo(Conflict)) || error == Some(Repo(Cancelled)))
                     && forall i :: 0 <= i < |h| && h[i].author == ByRun(rid) ==> !Terminal(h[i].resource.status.phase))
               && (error.None? || error.value.StepFailed? || error.value.Repo?)
               && (forall i :: f.start <= i < closedAt ==> h[i].author == ByRun(rid) || h[i].author == BySpecWriter)
  {
    ReturnedOutcome(w, actions, rid);
    var v := Exec(w, actions);
    var pc := v.runs[rid].pc;
    var h := v.history[v.runs[rid].tenant];
    var f, closedAt := pc.closing.frame, pc.closing.closedAt;
    var made: nat :| Settled(rid, f, closedAt, pc.result, h, made);
    if pc.result.error == Some(Repo(Conflict)) {
      assert h[f.start + made].author == BySpecWriter;
    }
    forall i | 0 <= i < |h| && h[i].author == ByRun(rid) && Overtaken(h, f, closedAt)
      ensures !Terminal(h[i].resource.status.phase)
    {
      WritesEndWithTheRun(w, actions, rid, v.runs[rid].tenant, i);
      assert i < f.start + made;
      assert WriteOk(f, i - f.start, h[i].resource);
    }
  }

  /** A run that ends in a step failure wrote Degraded last, with one more failure on the count it
      read and a retry exactly if the failure is retryable. */
  lemma FailureIsRecorded(w: World, actions: seq<Action>, rid: nat)
    requires Initial(w) && rid in Exec(w, actions).runs
    requires var pc := Exec(w, actions).runs[rid].pc;
             pc.Returned? && pc.result.error.Some? && pc.result.error.value.StepFailed?
    ensures var v := Exec(w, actions);
            var pc := v.runs[rid].pc;
            && pc.closing.Finished? && v.runs[rid].tenant in v.history
            && var f, h, closedAt := pc.closing.frame, v.history[v.runs[rid].tenant], pc.closing.closedAt;
               && f.start < closedAt <= |h|
               && (forall i :: f.start <= i < closedAt ==> h[i].author == ByRun(rid))
               && FailureWrite(f, h[closedAt - 1].resource, pc.result, closedAt - f.start - 1)
  {
    hide Exec, Initial, FrameOk, TenantOk, FailureWrite;
    InitialInv(w);
    ExecKeepsInv(w, actions);
    assert RunOk(Exec(w, actions), rid);
    var v := Exec(w, actions);
    var closing := v.runs[rid].pc.closing;
    var made: nat :| Settled(rid, closing.frame, closing.closedAt, v.runs[rid].pc.result, v.history[v.runs[rid].tenant],
                             made);
  }

  /** Two runs of one tenant are never both between acquiring and releasing their lease. */
  lemma RunsNeverOverlap(w: World, actions: seq<Action>, a: nat, b: nat)
    requires Initial(w) && a != b
    requires var v := Exec(w, actions);
             && a in v.runs && b in v.runs
             && LeaseOf(v.runs[a].pc).Some? && LeaseOf(v.runs[b].pc).Some?
    ensures Exec(w, actions).runs[a].tenant != Exec(w, actions).runs[b].tenant
  {
    hide FrameOk, ClosingOk, TenantOk;
    InitialInv(w);
    ExecKeepsInv(w, actions);
    assert RunOk(Exec(w, actions), a) && RunOk(Exec(w, actions), b);
  }

  ghost predicate RunHolds(w: World, a: nat, id: TenantId) {
    a in w.runs && LeaseOf(w.runs[a].pc).Some? && w.runs[a].tenant == id
  }

  /** The held tenants are exactly those of the runs between acquiring and releasing. */
  lemma HeldExactlyByRuns(w: World, actions: seq<Action>, id: TenantId)
    requires Initial(w)
    ensures var v := Exec(w, actions); id in v.leases.held <==> exists a: nat :: RunHolds(v, a, id)
  {
    hide FrameOk, ClosingOk, TenantOk;
    InitialInv(w);
    ExecKeepsInv(w, actions);
    var v := Exec(w, actions);
    if id in v.leases.held {
      var k: nat :| Live(v.leases, k) && v.leases.issued[k].tenant == id;
      var a: nat :| a in v.runs && LeaseOf(v.runs[a].pc) == Some(k);
      assert RunOk(v, a) && RunHolds(v, a, id);
    }
    if a: nat :| RunHolds(v, a, id) {
      assert RunOk(v, a);
    }
  }

  /** Once every run has returned, or has yet to start, no tenant is held. */
  lemma NothingHeldAtRest(w: World, actions: seq<Action>)
    requires Initial(w)
    requires forall a: nat, id :: !RunHolds(Exec(w, actions), a, id)
    ensures Exec(w, actions).leases.held == {}
  {
    hide Exec, Initial, RunHolds;
    forall id ensures id !in Exec(w, actions).leases.held {
      HeldExactlyByRuns(w, actions, id);
    }
  }
}
