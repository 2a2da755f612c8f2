/** What the success of a request means: if nothing else undeploys or removes the fragment, then at
    the end of each stage's wait every service of that stage and of all stages before it is running.
    Also here: what the entry's counters are after the stages have been merged into it, and which
    undeployments of a fragment take the namespace with them. */
module StagedSuccess {
  import opened Entities
  import opened MonitorModel
  import opened Deployment

  /** The operation is no undeployment and no removal of the fragment or its application. */
  ghost predicate Spares(op: Op, f: string, app: string) {
    match op
    case OpAddEntry(g, entry) => g == f ==> entry.appInstanceId == app && entry.status != FragmentTerminating
    case OpSetEntryStatus(g, status) => g == f ==> status != FragmentTerminating
    case OpSetAppStatus(a, status) => a == app ==> status != FragmentTerminating
    case OpRemoveEntry(g) => g != f
    case _ => true
  }

  ghost predicate AllSpare(ops: seq<Op>, f: string, app: string) {
    forall op | op in ops :: Spares(op, f, app)
  }

  ghost predicate AttemptSpares(a: Attempt, f: string, app: string) {
    && AllSpare(a.deploying, f, app) && AllSpare(a.undeploying, f, app)
    && forall tick | tick in a.ticks :: AllSpare(tick, f, app)
  }

  ghost predicate StagesSpare(w: nat -> StageWorld, f: string, app: string) {
    forall i: nat, n: nat :: AllSpare(w(i).building, f, app) && AttemptSpares(w(i).attempts(n), f, app)
  }

  /** If the fragment is monitored, then as one of the application's that is not going away. */
  ghost predicate Ours(st: State, f: string, app: string) {
    f in st ==> st[f].appInstanceId == app && st[f].status != FragmentTerminating
  }

  /** The fragment is monitored with at least these services. */
  ghost predicate Holds(st: State, f: string, app: string, ids: set<string>) {
    f in st && Ours(st, f, app) && ids <= st[f].services.Keys
  }

  ghost predicate AllRunning(st: State, f: string, ids: set<string>) {
    f in st && forall s | s in ids :: s in st[f].services && st[f].services[s].status == ServiceRunning
  }

  lemma StepSpares(st: State, op: Op, f: string, app: string, ids: set<string>)
    requires Spares(op, f, app) && Ours(st, f, app)
    ensures Ours(Step(st, op), f, app)
    ensures Holds(st, f, app, ids) ==> Holds(Step(st, op), f, app, ids)
  {
  }

  lemma {:induction false} RunSpares(st: State, ops: seq<Op>, f: string, app: string, ids: set<string>)
    requires AllSpare(ops, f, app) && Ours(st, f, app)
    ensures Ours(Run(st, ops), f, app)
    ensures Holds(st, f, app, ids) ==> Holds(Run(st, ops), f, app, ids)
    decreases |ops|
  {
    if ops != [] {
      assert Spares(ops[0], f, app);
      StepSpares(st, ops[0], f, app, ids);
      RunSpares(Step(st, ops[0]), ops[1..], f, app, ids);
    }
  }

  lemma {:induction false} WaitHolds(st: State, f: string, ticks: seq<seq<Op>>, app: string, ids: set<string>)
    requires forall tick | tick in ticks :: AllSpare(tick, f, app)
    requires Holds(st, f, app, ids)
    ensures Holds(Wait(st, f, ticks).state, f, app, ids)
    decreases |ticks|
  {
    if ticks != [] {
      assert ticks[0] in ticks;
      RunSpares(st, ticks[0], f, app, ids);
      var checked := UpdateAppStatus(Run(st, ticks[0]), f);
      assert Holds(checked, f, app, ids);
      WaitHolds(checked, f, ticks[1..], app, ids);
    }
  }

  lemma TryHolds(st: State, f: string, a: Attempt, app: string, ids: set<string>)
    requires AttemptSpares(a, f, app) && Holds(st, f, app, ids)
    ensures Holds(TryStage(st, f, a).state, f, app, ids)
    ensures TryStage(st, f, a).result == Ready ==> AllRunning(TryStage(st, f, a).state, f, ids)
  {
    var started := SetEntryStatus(st, f, FragmentDeploying);
    RunSpares(started, a.deploying, f, app, ids);
    var deployed := Run(started, a.deploying);
    var waiting := if a.deployOk then deployed else SetEntryStatus(deployed, f, FragmentRetrying);
    WaitHolds(waiting, f, a.ticks, app, ids);
    if Wait(waiting, f, a.ticks).result == Ready {
      ReadyMeansRunning(waiting, f, a.ticks);
    }
  }

  lemma {:induction false} LoopHolds(st: State, f: string, i: nat, attempts: nat -> Attempt, retries: nat, maxRetries: int,
                                     app: string, ids: set<string>)
    requires Holds(st, f, app, ids) && forall n: nat :: AttemptSpares(attempts(n), f, app)
    ensures var out := LoopStage(st, f, i, attempts, retries, maxRetries);
            out.ok ==> Holds(out.state, f, app, ids) && AllRunning(out.state, f, ids)
    decreases maxRetries - retries
  {
    if retries < maxRetries {
      var a := attempts(retries);
      TryHolds(st, f, a, app, ids);
      var waited := TryStage(st, f, a);
      if waited.result != Ready && a.undeployOk {
        RunSpares(waited.state, a.undeploying, f, app, ids);
        LoopHolds(Run(waited.state, a.undeploying), f, i, attempts, retries + 1, maxRetries, app, ids);
      }
    }
  }

  /** The services of the first `k` stages. */
  function IdsUpTo(stages: seq<Stage>, k: nat): set<string>
    requires k <= |stages|
  {
    if k == 0 then {} else IdsUpTo(stages, k - 1) + Ids(stages[k - 1])
  }

  lemma {:induction false} IdsOfStage(stages: seq<Stage>, k: nat, j: nat, s: string)
    requires j < k <= |stages| && s in stages[j].services
    ensures s in IdsUpTo(stages, k)
  {
    if j < k - 1 {
      IdsOfStage(stages, k - 1, j, s);
    }
  }

  /** The monitor is ready for the i-th stage: the services of the stages before it are there. */
  ghost predicate ReadyFor(st: State, req: Request, i: nat)
    requires i <= |req.stages|
  {
    && Ours(st, req.fragmentId, req.appInstanceId)
    && (i > 0 ==> Holds(st, req.fragmentId, req.appInstanceId, IdsUpTo(req.stages, i)))
  }

  lemma StageHolds(st: State, req: Request, namespace: string, w: nat -> StageWorld, i: nat, loop: Outcome)
    requires i < |req.stages| && ReadyFor(st, req, i)
    requires StagesSpare(w, req.fragmentId, req.appInstanceId)
    requires loop == StageLoop(st, req, namespace, w, i) && loop.ok
    ensures ReadyFor(loop.state, req, i + 1) && AllRunning(loop.state, req.fragmentId, IdsUpTo(req.stages, i + 1))
  {
    var f, app := req.fragmentId, req.appInstanceId;
    assert AllSpare(w(i).building, f, app) by {
      assert AttemptSpares(w(i).attempts(0), f, app);
    }
    RunSpares(st, w(i).building, f, app, IdsUpTo(req.stages, i));
    LoopHolds(Entered(st, req, namespace, w, i), f, i, w(i).attempts, 0, MaxRetries(req.policy), app,
              IdsUpTo(req.stages, i + 1));
  }

  /** At `p` the wait of the k-th stage ends well, with all these services running. */
  ghost predicate Together(trace: seq<Event>, p: nat, k: nat, f: string, ids: set<string>) {
    p < |trace| && Succeeds(trace[p], k) && AllRunning(trace[p].at, f, ids)
  }

  ghost predicate EverTogether(out: Outcome, k: nat, f: string, ids: set<string>) {
    exists p: nat :: Together(out.trace, p, k, f, ids)
  }

  /** The wait of the k-th stage ends well, with everything up to it running. */
  ghost predicate StageSucceeds(out: Outcome, req: Request, k: nat)
    requires k < |req.stages|
  {
    EverTogether(out, k, req.fragmentId, IdsUpTo(req.stages, k + 1))
  }

  lemma TogetherLater(out: Outcome, head: seq<Event>, rest: Outcome, req: Request, k: nat)
    requires k < |req.stages| && out == rest.After(head) && StageSucceeds(rest, req, k)
    ensures StageSucceeds(out, req, k)
  {
    var ids := IdsUpTo(req.stages, k + 1);
    var q: nat :| Together(rest.trace, q, k, req.fragmentId, ids);
    assert Together(out.trace, q + |head|, k, req.fragmentId, ids);
  }

  lemma TogetherFirst(out: Outcome, loop: Outcome, rest: Outcome, i: nat, f: string, ids: set<string>)
    requires out == rest.After([Build(i, true)] + loop.trace)
    requires AboutStage(loop, i) && loop.ok && AllRunning(loop.state, f, ids)
    ensures EverTogether(out, i, f, ids)
  {
    assert out.trace[|loop.trace|] == loop.trace[|loop.trace| - 1];
    assert Together(out.trace, |loop.trace|, i, f, ids);
  }

  /** A run of the stages that succeeds begins with a stage that is built and succeeds; the others run
      on from the state it leaves. */
  lemma Unfolded(st: State, req: Request, namespace: string, w: nat -> StageWorld, i: nat, out: Outcome)
    returns (loop: Outcome, rest: Outcome)
    requires i < |req.stages| && out == RunStages(st, req, namespace, w, i) && out.ok
    ensures loop == StageLoop(st, req, namespace, w, i) && loop.ok
    ensures rest == RunStages(loop.state, req, namespace, w, i + 1) && rest.ok
    ensures out == rest.After([Build(i, true)] + loop.trace)
  {
    loop := StageLoop(st, req, namespace, w, i);
    rest := RunStages(loop.state, req, namespace, w, i + 1);
  }

  /** From a state that is ready for it, the i-th stage and those after it come to this, and succeed. */
  ghost predicate SucceedsFrom(st: State, req: Request, namespace: string, w: nat -> StageWorld, i: nat, out: Outcome)
    requires i <= |req.stages|
  {
    && ReadyFor(st, req, i) && StagesSpare(w, req.fragmentId, req.appInstanceId)
    && out == RunStages(st, req, namespace, w, i) && out.ok
  }

  lemma StageTogether(st: State, req: Request, namespace: string, w: nat -> StageWorld, i: nat, out: Outcome)
    requires i < |req.stages| && SucceedsFrom(st, req, namespace, w, i, out)
    ensures StageSucceeds(out, req, i)
  {
    var loop, rest := Unfolded(st, req, namespace, w, i, out);
    StageHolds(st, req, namespace, w, i, loop);
    var entered, attempts := Entered(st, req, namespace, w, i), w(i).attempts;
    LoopEvents(entered, req.fragmentId, i, attempts, 0, MaxRetries(req.policy));
    TogetherFirst(out, loop, rest, i, req.fragmentId, IdsUpTo(req.stages, i + 1));
  }

  lemma NextSucceeds(st: State, req: Request, namespace: string, w: nat -> StageWorld, i: nat, out: Outcome)
    requires i < |req.stages| && SucceedsFrom(st, req, namespace, w, i, out)
    ensures var next := StageLoop(st, req, namespace, w, i).state;
            SucceedsFrom(next, req, namespace, w, i + 1, RunStages(next, req, namespace, w, i + 1))
  {
    var loop, rest := Unfolded(st, req, namespace, w, i, out);
    StageHolds(st, req, namespace, w, i, loop);
  }

  lemma LaterStageTogether(st: State, req: Request, namespace: string, w: nat -> StageWorld, i: nat, k: nat, out: Outcome)
    requires i < k < |req.stages| && SucceedsFrom(st, req, namespace, w, i, out)
    requires StageSucceeds(RunStages(StageLoop(st, req, namespace, w, i).state, req, namespace, w, i + 1), req, k)
    ensures StageSucceeds(out, req, k)
  {
    var loop, rest := Unfolded(st, req, namespace, w, i, out);
    TogetherLater(out, [Build(i, true)] + loop.trace, rest, req, k);
  }

  /** `out` is what the stages from the i-th on come to, and they all succeed: the wait of the k-th
      ends with everything up to it running. */
  lemma {:induction false} StagesSucceedTogether(st: State, req: Request, namespace: string, w: nat -> StageWorld,
                                                 i: nat, k: nat, out: Outcome)
    requires i <= k < |req.stages| && SucceedsFrom(st, req, namespace, w, i, out)
    ensures StageSucceeds(out, req, k)
    decreases |req.stages| - i
  {
    if i == k {
      StageTogether(st, req, namespace, w, i, out);
    } else {
      var next := StageLoop(st, req, namespace, w, i).state;
      NextSucceeds(st, req, namespace, w, i, out);
      StagesSucceedTogether(next, req, namespace, w, i + 1, k, RunStages(next, req, namespace, w, i + 1));
      LaterStageTogether(st, req, namespace, w, i, k, out);
    }
  }

  /** At `p` the wait of the k-th stage ends well, with every service of that stage and of every stage
      before it running. */
  ghost predicate RunningTogether(trace: seq<Event>, p: nat, req: Request, k: nat)
    requires k < |req.stages|
  {
    && p < |trace| && Succeeds(trace[p], k)
    && forall j: nat, s | j <= k && s in req.stages[j].services ::
         && HasService(trace[p].at, req.fragmentId, s)
         && trace[p].at[req.fragmentId].services[s].status == ServiceRunning
  }

  lemma SuccessfulStages(st: State, req: Request, w: World) returns (rest: Outcome)
    requires ProcessRequest(st, req, w).ok
    ensures w.namespace.Some? && rest.ok
    ensures rest == RunStages(Run(st, w.preparing), req, w.namespace.value, w.stages, 0)
    ensures ProcessRequest(st, req, w) == rest.After([Prepare(true)])
  {
    rest := RunStages(Run(st, w.preparing), req, w.namespace.value, w.stages, 0);
  }

  lemma AfterPreparing(rest: Outcome, req: Request, k: nat) returns (p: nat)
    requires k < |req.stages| && StageSucceeds(rest, req, k)
    ensures RunningTogether(rest.After([Prepare(true)]).trace, p, req, k)
  {
    var out, ids := rest.After([Prepare(true)]), IdsUpTo(req.stages, k + 1);
    TogetherLater(out, [Prepare(true)], rest, req, k);
    p :| Together(out.trace, p, k, req.fragmentId, ids);
    forall j: nat, s | j <= k && s in req.stages[j].services
      ensures s in ids
    {
      IdsOfStage(req.stages, k + 1, j, s);
    }
  }

  /** Staged success is cumulative: when a request succeeds and nothing else undeploys or removes its
      fragment, then for each stage there is one moment, the end of its wait, at which every service
      of that stage and of every stage before it is running. */
  lemma StagedSuccessIsCumulative(st: State, req: Request, w: World, k: nat) returns (p: nat)
    requires ProcessRequest(st, req, w).ok && k < |req.stages|
    requires Ours(st, req.fragmentId, req.appInstanceId)
    requires AllSpare(w.preparing, req.fragmentId, req.appInstanceId)
    requires StagesSpare(w.stages, req.fragmentId, req.appInstanceId)
    ensures RunningTogether(ProcessRequest(st, req, w).trace, p, req, k)
  {
    var prepared := Run(st, w.preparing);
    RunSpares(st, w.preparing, req.fragmentId, req.appInstanceId, {});
    var rest := SuccessfulStages(st, req, w);
    StagesSucceedTogether(prepared, req, w.namespace.value, w.stages, 0, k, rest);
    p := AfterPreparing(rest, req, k);
  }

  // ---------- The entry's counters ----------

  /** The monitor after the entries of the first `k` stages were added, and nothing else happened. */
  function Merged(st: State, namespace: string, req: Request, k: nat): State
    requires k <= |req.stages|
  {
    if k == 0 then st
    else AddEntry(Merged(st, namespace, req, k - 1), req.fragmentId, MonitoringData(namespace, req, k - 1))
  }

  ghost predicate Counted(entry: Entry, ids: set<string>, surplus: int) {
    && entry.services.Keys == ids
    && entry.numPendingChecks == |entry.services|
    && entry.totalServices == |entry.services| + surplus
  }

  /** The pending checks count every service once. The total starts as the number of services of all
      stages and is then increased by each service that a later stage brings, so it is the number of
      services exactly if all of them, without repetition, are in the first stage. */
  lemma {:induction false} MergedCounters(st: State, namespace: string, req: Request, k: nat)
    requires req.fragmentId !in st && 0 < k <= |req.stages|
    ensures var merged := Merged(st, namespace, req, k);
            && req.fragmentId in merged
            && Counted(merged[req.fragmentId], IdsUpTo(req.stages, k), TotalServices(req.stages) - |Ids(req.stages[0])|)
            && (merged[req.fragmentId].totalServices == |merged[req.fragmentId].services| <==>
                TotalServices(req.stages) == |Ids(req.stages[0])|)
  {
    if k == 1 {
      FirstCounted(namespace, req);
    } else {
      MergedCounters(st, namespace, req, k - 1);
      var before := Merged(st, namespace, req, k - 1)[req.fragmentId];
      NextCounted(before, MonitoringData(namespace, req, k - 1), IdsUpTo(req.stages, k - 1), Ids(req.stages[k - 1]),
                  TotalServices(req.stages) - |Ids(req.stages[0])|);
    }
  }

  lemma FirstCounted(namespace: string, req: Request)
    requires req.stages != []
    ensures Counted(MonitoringData(namespace, req, 0), IdsUpTo(req.stages, 1), TotalServices(req.stages) - |Ids(req.stages[0])|)
  {
    var entry := MonitoringData(namespace, req, 0);
    assert IdsUpTo(req.stages, 0) == {};
    assert entry.services.Keys == Ids(req.stages[0]) == IdsUpTo(req.stages, 1);
    assert |entry.services| == |entry.services.Keys|;
  }

  lemma NextCounted(before: Entry, added: Entry, ids: set<string>, more: set<string>, surplus: int)
    requires Counted(before, ids, surplus) && added.services.Keys == more
    ensures Counted(AppendServices(before, added), ids + more, surplus)
  {
    var after := AppendServices(before, added);
    var news := NewServices(before, added);
    assert after.services.Keys == ids + more;
    assert ids + more == ids + news && ids !! news;
    assert |after.services| == |after.services.Keys| == |ids| + |news|;
    assert |before.services| == |before.services.Keys|;
  }

  lemma TwoStages()
    ensures var stages := [Stage(["s"]), Stage(["t"])];
            IdsUpTo(stages, 2) == {"s", "t"} && |IdsUpTo(stages, 2)| == 2 && |Ids(stages[0])| == 1 && TotalServices(stages) == 2
  {
    var stages := [Stage(["s"]), Stage(["t"])];
    assert Ids(stages[0]) == {"s"} && Ids(stages[1]) == {"t"};
    assert IdsUpTo(stages, 0) == {};
    assert IdsUpTo(stages, 1) == {} + {"s"};
    assert IdsUpTo(stages, 2) == {} + {"s"} + {"t"};
    assert "s"[0] != "t"[0];
    assert stages[1..] == [Stage(["t"])] && stages[1..][1..] == [];
  }

  /** Two stages of one service each: the total is three. */
  lemma TotalIsTooLarge(st: State, namespace: string)
    requires "f" !in st
    ensures var req := Request("f", "app", [Stage(["s"]), Stage(["t"])], NoRollback);
            var merged := Merged(st, namespace, req, 2);
            "f" in merged && |merged["f"].services| == 2 && merged["f"].totalServices == 3
  {
    MergedCounters(st, namespace, Request("f", "app", [Stage(["s"]), Stage(["t"])], NoRollback), 2);
    TwoStages();
  }

  // ---------- The total, whatever happens between the stages ----------

  /** Like Merged, with the operations of other users of the monitor before each stage. */
  function MergedAmong(st: State, namespace: string, req: Request, between: nat -> seq<Op>, k: nat): State
    requires k <= |req.stages|
  {
    if k == 0 then st
    else AddEntry(Run(MergedAmong(st, namespace, req, between, k - 1), between(k - 1)), req.fragmentId,
                  MonitoringData(namespace, req, k - 1))
  }

  /** The operation is no undeployment and no removal of the fragment, and adds no services to it. */
  ghost predicate LeavesServices(op: Op, f: string, app: string) {
    Spares(op, f, app) && (op.OpAddEntry? ==> op.f != f)
  }

  lemma StepLeavesServices(st: State, op: Op, f: string, app: string)
    requires LeavesServices(op, f, app) && Ours(st, f, app)
    ensures Ours(Step(st, op), f, app) && (f in Step(st, op) <==> f in st)
    ensures f in st ==> Step(st, op)[f].services.Keys == st[f].services.Keys && Step(st, op)[f].totalServices == st[f].totalServices
  {
  }

  lemma {:induction false} RunLeavesServices(st: State, ops: seq<Op>, f: string, app: string)
    requires Ours(st, f, app) && forall op | op in ops :: LeavesServices(op, f, app)
    ensures Ours(Run(st, ops), f, app) && (f in Run(st, ops) <==> f in st)
    ensures f in st ==>
              Run(st, ops)[f].services.Keys == st[f].services.Keys && Run(st, ops)[f].totalServices == st[f].totalServices
    decreases |ops|
  {
    if ops != [] {
      assert ops[0] in ops;
      StepLeavesServices(st, ops[0], f, app);
      RunLeavesServices(Step(st, ops[0]), ops[1..], f, app);
    }
  }

  /** The fragment has exactly these services, and its total is off by this much. */
  ghost predicate Totalled(st: State, f: string, app: string, ids: set<string>, surplus: int) {
    && Ours(st, f, app) && f in st
    && st[f].services.Keys == ids && st[f].totalServices == |ids| + surplus
  }

  lemma OthersKeepTotal(st: State, ops: seq<Op>, f: string, app: string, ids: set<string>, surplus: int)
    requires Totalled(st, f, app, ids, surplus) && forall op | op in ops :: LeavesServices(op, f, app)
    ensures Totalled(Run(st, ops), f, app, ids, surplus)
  {
    RunLeavesServices(st, ops, f, app);
  }

  lemma NextTotal(st: State, f: string, app: string, ids: set<string>, surplus: int, added: Entry)
    requires Totalled(st, f, app, ids, surplus)
    ensures Totalled(AddEntry(st, f, added), f, app, ids + added.services.Keys, surplus)
  {
    var news := NewServices(st[f], added);
    assert ids + added.services.Keys == ids + news && ids !! news;
    assert AppendServices(st[f], added).services.Keys == ids + added.services.Keys;
  }

  lemma FirstTotal(st: State, ops: seq<Op>, namespace: string, req: Request)
    requires req.fragmentId !in st && req.stages != []
    requires forall op | op in ops :: LeavesServices(op, req.fragmentId, req.appInstanceId)
    ensures Totalled(AddEntry(Run(st, ops), req.fragmentId, MonitoringData(namespace, req, 0)), req.fragmentId,
                     req.appInstanceId, IdsUpTo(req.stages, 1), TotalServices(req.stages) - |Ids(req.stages[0])|)
  {
    RunLeavesServices(st, ops, req.fragmentId, req.appInstanceId);
    FirstCounted(namespace, req);
  }

  /** Recounts, status changes, new resources and notifications between the stages change nothing about
      the total: it is the number of services of all stages, plus those that later stages brought. */
  lemma {:induction false} TotalAmongOthers(st: State, namespace: string, req: Request, between: nat -> seq<Op>, k: nat)
    requires req.fragmentId !in st && 0 < k <= |req.stages|
    requires forall i: nat, op | op in between(i) :: LeavesServices(op, req.fragmentId, req.appInstanceId)
    ensures Totalled(MergedAmong(st, namespace, req, between, k), req.fragmentId, req.appInstanceId,
                     IdsUpTo(req.stages, k), TotalServices(req.stages) - |Ids(req.stages[0])|)
  {
    if k == 1 {
      FirstTotal(st, between(0), namespace, req);
    } else {
      TotalAmongOthers(st, namespace, req, between, k - 1);
      var surplus := TotalServices(req.stages) - |Ids(req.stages[0])|;
      var before := MergedAmong(st, namespace, req, between, k - 1);
      var added := MonitoringData(namespace, req, k - 1);
      OthersKeepTotal(before, between(k - 1), req.fragmentId, req.appInstanceId, IdsUpTo(req.stages, k - 1), surplus);
      NextTotal(Run(before, between(k - 1)), req.fragmentId, req.appInstanceId, IdsUpTo(req.stages, k - 1), surplus, added);
      assert added.services.Keys == Ids(req.stages[k - 1]);
    }
  }
}
