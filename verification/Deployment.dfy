/** The staged deployment of a fragment as a value: what processRequest and its retry loop do to the
    monitor, and which calls they make, for every outcome of the executor and for everything other
    users of the monitor may do meanwhile. */
module Deployment {
  import opened Entities
  import opened MonitorModel

  /** A stage, as the identifiers of its service instances. */
  datatype Stage = Stage(services: seq<string>)

  datatype RollbackPolicy = NoRollback | AlwaysRetry | LimitedRetry | UnknownPolicy

  datatype Request = Request(fragmentId: string, appInstanceId: string, stages: seq<Stage>, policy: RollbackPolicy)

  const NO_RETRIES := 1
  const MAX_STAGE_RETRIES := 3
  const UNLIMITED_STAGE_RETRIES := -1

  function MaxRetries(policy: RollbackPolicy): int {
    match policy
    case NoRollback => NO_RETRIES
    case AlwaysRetry => UNLIMITED_STAGE_RETRIES
    case LimitedRetry => MAX_STAGE_RETRIES
    case UnknownPolicy => NO_RETRIES
  }

  // ---------- What is not decided here ----------

  /** The outcome of one attempt to deploy a stage, and what all users of the monitor do to it while
      the stage is deployed, before each check of the wait, and while it is undeployed. The wait
      times out after its last tick. */
  datatype Attempt = Attempt(
    deployOk: bool, deploying: seq<Op>,
    ticks: seq<seq<Op>>,
    undeployOk: bool, undeploying: seq<Op>)

  datatype StageWorld = StageWorld(
    buildOk: bool, building: seq<Op>,
    attempts: nat -> Attempt,
    cleanUpOk: bool, cleaningUp: seq<Op>)

  /** A failed preparation may leave something to undeploy. */
  datatype World = World(
    namespace: Option<string>,
    prepareOk: bool, preparing: seq<Op>, leftover: bool, leftoverOk: bool,
    stages: nat -> StageWorld)

  // ---------- Waiting ----------

  datatype WaitResult = Ready | TimedOut | NotMonitored

  datatype Waited = Waited(state: State, result: WaitResult)

  /** Check at each tick whether the fragment has pending checks left. */
  function Wait(st: State, f: string, ticks: seq<seq<Op>>): Waited
    decreases |ticks|
  {
    if ticks == [] then Waited(st, TimedOut)
    else
      var checked := UpdateAppStatus(Run(st, ticks[0]), f);
      if f !in checked then Waited(checked, NotMonitored)
      else if checked[f].numPendingChecks == 0 then Waited(checked, Ready)
      else Wait(checked, f, ticks[1..])
  }

  /** A wait that ends well ends at a tick at which every service of the fragment is running. */
  lemma {:induction false} ReadyMeansRunning(st: State, f: string, ticks: seq<seq<Op>>)
    requires Wait(st, f, ticks).result == Ready
    ensures var at := Wait(st, f, ticks).state;
            f in at && forall s | s in at[f].services :: at[f].services[s].status == ServiceRunning
    decreases |ticks|
  {
    var before := Run(st, ticks[0]);
    var checked := UpdateAppStatus(before, f);
    if checked[f].numPendingChecks == 0 {
      assert NotRunningServices(before[f].services) == {};
      forall s | s in checked[f].services
        ensures checked[f].services[s].status == ServiceRunning
      {
        assert s !in NotRunningServices(before[f].services);
      }
    } else {
      ReadyMeansRunning(checked, f, ticks[1..]);
    }
  }

  /** What is seen at the k-th check of a wait, after those before it. */
  function SeenAt(st: State, f: string, ticks: seq<seq<Op>>, k: nat): State
    requires k < |ticks|
    decreases k
  {
    var seen := Run(st, ticks[0]);
    if k == 0 then seen else SeenAt(UpdateAppStatus(seen, f), f, ticks[1..], k - 1)
  }

  predicate AllUp(st: State, f: string) {
    f in st && forall s | s in st[f].services :: st[f].services[s].status == ServiceRunning
  }

  /** A check goes by without an end of the wait. */
  predicate GoesOn(st: State, f: string) {
    f in st && !AllUp(st, f)
  }

  lemma CheckedIsUp(st: State, f: string)
    requires f in st
    ensures UpdateAppStatus(st, f)[f].numPendingChecks == 0 <==> AllUp(st, f)
  {
    if NotRunningServices(st[f].services) == {} {
      forall s | s in st[f].services
        ensures st[f].services[s].status == ServiceRunning
      {
        assert s !in NotRunningServices(st[f].services);
      }
    } else {
      var s :| s in NotRunningServices(st[f].services);
    }
  }

  /** The k-th check is the first at which all services are running or the fragment is not monitored. */
  ghost predicate EndsAt(st: State, f: string, ticks: seq<seq<Op>>, k: nat) {
    && k < |ticks| && !GoesOn(SeenAt(st, f, ticks, k), f)
    && forall j: nat | j < k :: GoesOn(SeenAt(st, f, ticks, j), f)
  }

  /** A wait goes by the first check at which all services are running, or at which the fragment is not
      monitored: it ends well at the one, and with that error at the other. If there is neither, then time
      runs out. */
  lemma WaitEnds(st: State, f: string, ticks: seq<seq<Op>>)
    ensures Wait(st, f, ticks).result == Ready <==> exists k: nat :: EndsAt(st, f, ticks, k) && AllUp(SeenAt(st, f, ticks, k), f)
    ensures Wait(st, f, ticks).result == NotMonitored <==> exists k: nat :: EndsAt(st, f, ticks, k) && f !in SeenAt(st, f, ticks, k)
    ensures Wait(st, f, ticks).result == TimedOut <==> forall k: nat | k < |ticks| :: GoesOn(SeenAt(st, f, ticks, k), f)
  {
    var end := FirstEnd(st, f, ticks);
    if end.Some? {
      WaitEndsAt(st, f, ticks, end.value);
      assert !GoesOn(SeenAt(st, f, ticks, end.value), f);
      forall k: nat | EndsAt(st, f, ticks, k)
        ensures k == end.value
      {
        OneEnd(st, f, ticks, k, end.value);
      }
    }
  }

  lemma OneEnd(st: State, f: string, ticks: seq<seq<Op>>, k: nat, l: nat)
    requires EndsAt(st, f, ticks, k) && EndsAt(st, f, ticks, l)
    ensures k == l
  {
    var first, second := SeenAt(st, f, ticks, k), SeenAt(st, f, ticks, l);
    assert k < l ==> GoesOn(first, f);
    assert l < k ==> GoesOn(second, f);
  }

  lemma {:induction false} FirstEnd(st: State, f: string, ticks: seq<seq<Op>>) returns (end: Option<nat>)
    ensures end.Some? ==> EndsAt(st, f, ticks, end.value)
    ensures end == None ==>
              && (forall k: nat | k < |ticks| :: GoesOn(SeenAt(st, f, ticks, k), f))
              && Wait(st, f, ticks).result == TimedOut
    decreases |ticks|
  {
    if ticks == [] {
      end := None;
    } else if !GoesOn(SeenAt(st, f, ticks, 0), f) {
      end := Some(0);
    } else {
      var next := UpdateAppStatus(Run(st, ticks[0]), f);
      CheckedIsUp(Run(st, ticks[0]), f);
      var later := FirstEnd(next, f, ticks[1..]);
      end := if later.Some? then Some(later.value + 1) else None;
      forall k: nat | 0 < k < |ticks|
        ensures SeenAt(st, f, ticks, k) == SeenAt(next, f, ticks[1..], k - 1)
      {
      }
    }
  }

  lemma {:induction false} WaitEndsAt(st: State, f: string, ticks: seq<seq<Op>>, k: nat)
    requires EndsAt(st, f, ticks, k)
    ensures Wait(st, f, ticks).result == if AllUp(SeenAt(st, f, ticks, k), f) then Ready else NotMonitored
    decreases k
  {
    var seen := Run(st, ticks[0]);
    assert SeenAt(st, f, ticks, 0) == seen;
    if f in seen {
      CheckedIsUp(seen, f);
    }
    if k > 0 {
      assert GoesOn(seen, f);
      var next := UpdateAppStatus(seen, f);
      forall j: nat | j < k
        ensures SeenAt(st, f, ticks, j + 1) == SeenAt(next, f, ticks[1..], j)
      {
      }
      WaitEndsAt(next, f, ticks[1..], k - 1);
    }
  }

  // ---------- The retry loop of one stage ----------

  /** What the deployment of a fragment does, in order. */
  datatype Event =
    | Prepare(ok: bool)
    | UndeployLeftover(ok: bool)
    | Build(stage: nat, ok: bool)
    | Deploy(stage: nat, ok: bool)
    | EndWait(stage: nat, at: State, result: WaitResult)
    | UndeployStage(stage: nat, ok: bool)
    | CleanUp(ok: bool)
    | FailFragment

  datatype Outcome = Outcome(state: State, trace: seq<Event>, ok: bool)
  {
    /** The same outcome, after these events. */
    function After(events: seq<Event>): Outcome {
      Outcome(state, events + trace, ok)
    }
  }

  lemma AfterAfter(out: Outcome, before: seq<Event>, events: seq<Event>)
    ensures out.After(events).After(before) == out.After(before + events)
  {
    assert before + (events + out.trace) == before + events + out.trace;
  }

  /** One attempt up to the end of its wait. */
  function TryStage(st: State, f: string, a: Attempt): Waited {
    var deployed := Run(SetEntryStatus(st, f, FragmentDeploying), a.deploying);
    Wait(if a.deployOk then deployed else SetEntryStatus(deployed, f, FragmentRetrying), f, a.ticks)
  }

  /** While it is tried the fragment is marked as deploying, and once the deployment has failed as
      retrying; that alone terminates no service. The wait begins from there. */
  lemma TryMarks(st: State, f: string, a: Attempt) returns (started: State, waiting: State)
    ensures TryStage(st, f, a) == Wait(waiting, f, a.ticks)
    ensures f in st ==> f in started && started[f].status == FragmentDeploying && started[f].services == st[f].services
    ensures a.deployOk ==> waiting == Run(started, a.deploying)
    ensures !a.deployOk && f in Run(started, a.deploying) ==>
              && f in waiting && waiting[f].status == FragmentRetrying
              && waiting[f].services == Run(started, a.deploying)[f].services
    ensures forall g | g != f :: (g in started <==> g in st) && (g in st ==> started[g] == st[g])
  {
    started := SetEntryStatus(st, f, FragmentDeploying);
    var deployed := Run(started, a.deploying);
    waiting := if a.deployOk then deployed else SetEntryStatus(deployed, f, FragmentRetrying);
  }

  function LoopStage(st: State, f: string, i: nat, attempts: nat -> Attempt, retries: nat, maxRetries: int): Outcome
    decreases maxRetries - retries
  {
    if retries >= maxRetries then Outcome(st, [], false)
    else
      var a := attempts(retries);
      var waited := TryStage(st, f, a);
      var attempt := [Deploy(i, a.deployOk), EndWait(i, waited.state, waited.result)];
      if waited.result == Ready then Outcome(waited.state, attempt, true)
      else
        var undeployed := Run(waited.state, a.undeploying);
        if !a.undeployOk then Outcome(undeployed, attempt + [UndeployStage(i, false)], false)
        else LoopStage(undeployed, f, i, attempts, retries + 1, maxRetries).After(attempt + [UndeployStage(i, true)])
  }

  /** At `p` the trace has an attempt whose wait failed and whose undeployment had this outcome. */
  predicate FailedAttempt(trace: seq<Event>, p: nat, i: nat, undeployOk: bool) {
    && p + 3 <= |trace|
    && trace[p].Deploy? && trace[p].stage == i
    && trace[p + 1].EndWait? && trace[p + 1].stage == i && trace[p + 1].result != Ready
    && trace[p + 2] == UndeployStage(i, undeployOk)
  }

  /** A loop with this many attempts to make went through `k` failed attempts that were undeployed;
      then either through one whose wait ended well, and only then it succeeded; or through one that
      could not be undeployed; or there were no attempts left. */
  ghost predicate LoopShape(out: Outcome, i: nat, k: nat, attempts: nat) {
    && (forall j: nat | j < k :: FailedAttempt(out.trace, 3 * j, i, true))
    && (if out.ok then
          k < attempts && |out.trace| == 3 * k + 2
          && out.trace[3 * k].Deploy? && out.trace[3 * k].stage == i && out.trace[3 * k + 1] == EndWait(i, out.state, Ready)
        else if |out.trace| == 3 * k then k == attempts
        else k < attempts && |out.trace| == 3 * k + 3 && FailedAttempt(out.trace, 3 * k, i, false))
  }

  function Left(retries: nat, maxRetries: int): nat {
    if retries < maxRetries then maxRetries - retries else 0
  }

  lemma {:induction false} LoopTrace(st: State, f: string, i: nat, attempts: nat -> Attempt, retries: nat, maxRetries: int)
    returns (k: nat)
    ensures LoopShape(LoopStage(st, f, i, attempts, retries, maxRetries), i, k, Left(retries, maxRetries))
    decreases maxRetries - retries
  {
    k := 0;
    if retries < maxRetries {
      var a := attempts(retries);
      var waited := TryStage(st, f, a);
      if waited.result != Ready && a.undeployOk {
        var undeployed := Run(waited.state, a.undeploying);
        var n := LoopTrace(undeployed, f, i, attempts, retries + 1, maxRetries);
        k := n + 1;
        OneMoreAttempt(LoopStage(undeployed, f, i, attempts, retries + 1, maxRetries), i, n, Left(retries + 1, maxRetries),
                       [Deploy(i, a.deployOk), EndWait(i, waited.state, waited.result)] + [UndeployStage(i, true)]);
      }
    }
  }

  lemma OneMoreAttempt(rest: Outcome, i: nat, n: nat, attempts: nat, attempt: seq<Event>)
    requires LoopShape(rest, i, n, attempts) && |attempt| == 3 && FailedAttempt(attempt, 0, i, true)
    ensures LoopShape(rest.After(attempt), i, n + 1, attempts + 1)
  {
    var out := rest.After(attempt);
    assert out.trace[3..] == rest.trace;
    forall j: nat | j < n + 1
      ensures FailedAttempt(out.trace, 3 * j, i, true)
    {
      if j > 0 {
        Shifted(out.trace, rest.trace, 3 * (j - 1), i, true);
      }
    }
    if !rest.ok && |rest.trace| != 3 * n {
      Shifted(out.trace, rest.trace, 3 * n, i, false);
    }
  }

  lemma Shifted(trace: seq<Event>, rest: seq<Event>, p: nat, i: nat, undeployOk: bool)
    requires |trace| >= 3 && trace[3..] == rest && FailedAttempt(rest, p, i, undeployOk)
    ensures FailedAttempt(trace, p + 3, i, undeployOk)
  {
    assert trace[p + 3] == rest[p] && trace[p + 4] == rest[p + 1] && trace[p + 5] == rest[p + 2];
  }

  /** The loop makes an attempt exactly if its bound is positive. The bound -1, which is meant to
      retry for ever, is none: the loop then fails without having tried. */
  lemma TriesOnlyWithPositiveBound(st: State, f: string, i: nat, attempts: nat -> Attempt, maxRetries: int)
    ensures var out := LoopStage(st, f, i, attempts, 0, maxRetries);
            && (out.trace == [] <==> maxRetries <= 0)
            && (maxRetries <= 0 ==> !out.ok && out.state == st)
  {
  }

  // ---------- The request ----------

  function Ids(stage: Stage): set<string> {
    set s | s in stage.services
  }

  function TotalServices(stages: seq<Stage>): nat {
    if stages == [] then 0 else |stages[0].services| + TotalServices(stages[1..])
  }

  function AllServices(stages: seq<Stage>): seq<string> {
    if stages == [] then [] else stages[0].services + AllServices(stages[1..])
  }

  /** Services are counted as often as the stages name them. */
  lemma {:induction false} TotalCountsRepeated(stages: seq<Stage>)
    ensures TotalServices(stages) == |AllServices(stages)|
  {
    if stages != [] {
      TotalCountsRepeated(stages[1..]);
    }
  }

  /** The entry by which the services of one stage enter the monitor. */
  function MonitoringData(namespace: string, req: Request, i: nat): Entry
    requires i < |req.stages|
  {
    Entry(req.appInstanceId, namespace, map s | s in Ids(req.stages[i]) :: NewService(),
          FragmentWaiting, true, |Ids(req.stages[i])|, TotalServices(req.stages))
  }

  /** What is monitored when the i-th stage is about to be deployed. */
  function Entered(st: State, req: Request, namespace: string, w: nat -> StageWorld, i: nat): State
    requires i < |req.stages|
  {
    AddEntry(Run(st, w(i).building), req.fragmentId, MonitoringData(namespace, req, i))
  }

  function StageLoop(st: State, req: Request, namespace: string, w: nat -> StageWorld, i: nat): Outcome
    requires i < |req.stages|
  {
    LoopStage(Entered(st, req, namespace, w, i), req.fragmentId, i, w(i).attempts, 0, MaxRetries(req.policy))
  }

  /** From the i-th stage on. */
  function RunStages(st: State, req: Request, namespace: string, w: nat -> StageWorld, i: nat): Outcome
    requires i <= |req.stages|
    decreases |req.stages| - i
  {
    var f := req.fragmentId;
    if i == |req.stages| then Outcome(st, [], true)
    else
      if !w(i).buildOk then
        Outcome(SetEntryStatus(Run(st, w(i).building), f, FragmentError), [Build(i, false), FailFragment], false)
      else
        var out := StageLoop(st, req, namespace, w, i);
        if out.ok then
          RunStages(out.state, req, namespace, w, i + 1).After([Build(i, true)] + out.trace)
        else
          Outcome(SetEntryStatus(Run(out.state, w(i).cleaningUp), f, FragmentError),
                  [Build(i, true)] + out.trace + [CleanUp(w(i).cleanUpOk), FailFragment], false)
  }

  function ProcessRequest(st: State, req: Request, w: World): Outcome {
    if w.namespace == None then Outcome(st, [], false)
    else
      var prepared := Run(st, w.preparing);
      if w.prepareOk then RunStages(prepared, req, w.namespace.value, w.stages, 0).After([Prepare(true)])
      else
        Outcome(SetEntryStatus(prepared, req.fragmentId, FragmentError),
                [Prepare(false)] + (if w.leftover then [UndeployLeftover(w.leftoverOk)] else []) + [FailFragment], false)
  }

  // ---------- Safety of a request ----------

  /** The event begins work on the stage. */
  predicate Begins(e: Event, j: nat) {
    (e.Build? || e.Deploy?) && e.stage == j
  }

  predicate Succeeds(e: Event, j: nat) {
    e.EndWait? && e.stage == j && e.result == Ready
  }

  /** No stage is begun before the one before it has succeeded. */
  ghost predicate InOrder(trace: seq<Event>, first: nat) {
    forall p, j: nat | 0 <= p < |trace| && Begins(trace[p], j) ::
      j >= first && (j > first ==> exists q :: 0 <= q < p && Succeeds(trace[q], j - 1))
  }

  /** A clean-up, or the failure of the fragment, is the end. */
  ghost predicate EndsOnFailure(out: Outcome) {
    && (forall p | 0 <= p < |out.trace| && out.trace[p].CleanUp? :: p == |out.trace| - 2 && !out.ok)
    && (forall p | 0 <= p < |out.trace| && out.trace[p].FailFragment? :: p == |out.trace| - 1 && !out.ok)
  }

  function Deploys(trace: seq<Event>): nat {
    if trace == [] then 0 else (if trace[0].Deploy? then 1 else 0) + Deploys(trace[1..])
  }

  lemma {:induction false} DeploysOfConcat(a: seq<Event>, b: seq<Event>)
    ensures Deploys(a + b) == Deploys(a) + Deploys(b)
  {
    if a == [] {
      assert a + b == b;
    } else {
      assert (a + b)[1..] == a[1..] + b;
      DeploysOfConcat(a[1..], b);
    }
  }

  lemma DeploysOfAttempt(trace: seq<Event>)
    requires |trace| >= 2 && trace[0].Deploy? && !trace[1].Deploy?
    ensures Deploys(trace) == 1 + Deploys(trace[2..])
  {
    assert trace[1..][1..] == trace[2..];
  }

  /** The loop never deploys more often than its bound. */
  lemma {:induction false} LoopDeploys(st: State, f: string, i: nat, attempts: nat -> Attempt, retries: nat, maxRetries: int)
    ensures Deploys(LoopStage(st, f, i, attempts, retries, maxRetries).trace) <= Left(retries, maxRetries)
    decreases maxRetries - retries
  {
    if retries < maxRetries {
      var a := attempts(retries);
      var waited := TryStage(st, f, a);
      var out := LoopStage(st, f, i, attempts, retries, maxRetries);
      DeploysOfAttempt(out.trace);
      if waited.result != Ready {
        assert out.trace[2..][1..] == out.trace[3..];
        if a.undeployOk {
          var undeployed := Run(waited.state, a.undeploying);
          LoopDeploys(undeployed, f, i, attempts, retries + 1, maxRetries);
          assert out.trace[3..] == LoopStage(undeployed, f, i, attempts, retries + 1, maxRetries).trace;
        }
      }
    }
  }

  /** Everything in the trace of a stage's loop is about that stage, nothing in it builds, and a
      wait ends well only at the very end, which is when the loop succeeds. */
  ghost predicate AboutStage(out: Outcome, i: nat) {
    && (forall e | e in out.trace :: (e.Deploy? || e.EndWait? || e.UndeployStage?) && e.stage == i)
    && (forall p | 0 <= p < |out.trace| && Succeeds(out.trace[p], i) :: out.ok && p == |out.trace| - 1)
    && (out.ok ==> out.trace != [] && out.trace[|out.trace| - 1] == EndWait(i, out.state, Ready))
  }

  lemma AboutStageToo(rest: Outcome, i: nat, attempt: seq<Event>)
    requires AboutStage(rest, i)
    requires forall e | e in attempt :: (e.Deploy? || e.EndWait? || e.UndeployStage?) && e.stage == i && !Succeeds(e, i)
    ensures AboutStage(rest.After(attempt), i)
  {
    var out := rest.After(attempt);
    forall p | 0 <= p < |attempt|
      ensures out.trace[p] in attempt
    {
    }
  }

  lemma {:induction false} LoopEvents(st: State, f: string, i: nat, attempts: nat -> Attempt, retries: nat, maxRetries: int)
    ensures AboutStage(LoopStage(st, f, i, attempts, retries, maxRetries), i)
    decreases maxRetries - retries
  {
    if retries < maxRetries {
      var a := attempts(retries);
      var waited := TryStage(st, f, a);
      if waited.result != Ready && a.undeployOk {
        var undeployed := Run(waited.state, a.undeploying);
        LoopEvents(undeployed, f, i, attempts, retries + 1, maxRetries);
        AboutStageToo(LoopStage(undeployed, f, i, attempts, retries + 1, maxRetries), i,
                      [Deploy(i, a.deployOk), EndWait(i, waited.state, waited.result)] + [UndeployStage(i, true)]);
      }
    }
  }

  ghost predicate Succeeded(trace: seq<Event>, j: nat) {
    exists q :: 0 <= q < |trace| && Succeeds(trace[q], j)
  }

  /** The trace of the stages from the i-th on, when the i-th succeeds. */
  lemma StageThenRest(st: State, req: Request, namespace: string, w: nat -> StageWorld, i: nat)
    returns (head: seq<Event>, rest: Outcome)
    requires i < |req.stages| && w(i).buildOk
    requires StageLoop(st, req, namespace, w, i).ok
    ensures var loop := StageLoop(st, req, namespace, w, i);
            && rest == RunStages(loop.state, req, namespace, w, i + 1)
            && RunStages(st, req, namespace, w, i) == rest.After(head)
    ensures head != [] && Succeeds(head[|head| - 1], i)
    ensures forall e | e in head :: (e.Build? || e.Deploy? || e.EndWait? || e.UndeployStage?) && e.stage == i
    ensures Deploys(head) <= Left(0, MaxRetries(req.policy))
  {
    var entered := Entered(st, req, namespace, w, i);
    var loop := StageLoop(st, req, namespace, w, i);
    LoopEvents(entered, req.fragmentId, i, w(i).attempts, 0, MaxRetries(req.policy));
    LoopDeploys(entered, req.fragmentId, i, w(i).attempts, 0, MaxRetries(req.policy));
    head := [Build(i, true)] + loop.trace;
    rest := RunStages(loop.state, req, namespace, w, i + 1);
    assert head[1..] == loop.trace;
  }

  /** The trace of the stages from the i-th on, when the i-th fails. */
  lemma StageThenFailure(st: State, req: Request, namespace: string, w: nat -> StageWorld, i: nat)
    returns (head: seq<Event>, last: Event)
    requires i < |req.stages|
    requires w(i).buildOk ==>
               !StageLoop(st, req, namespace, w, i).ok
    ensures var out := RunStages(st, req, namespace, w, i);
            && !out.ok && out.trace == head + [last, FailFragment]
            && (req.fragmentId in out.state ==> out.state[req.fragmentId].status == FragmentError)
    ensures last == if w(i).buildOk then CleanUp(w(i).cleanUpOk) else Build(i, false)
    ensures forall e | e in head :: (e.Build? || e.Deploy? || e.EndWait? || e.UndeployStage?) && e.stage == i && !Succeeds(e, i)
    ensures Deploys(head + [last, FailFragment]) <= Left(0, MaxRetries(req.policy))
  {
    var entered := Entered(st, req, namespace, w, i);
    if w(i).buildOk {
      var loop := StageLoop(st, req, namespace, w, i);
      LoopEvents(entered, req.fragmentId, i, w(i).attempts, 0, MaxRetries(req.policy));
      LoopDeploys(entered, req.fragmentId, i, w(i).attempts, 0, MaxRetries(req.policy));
      head, last := [Build(i, true)] + loop.trace, CleanUp(w(i).cleanUpOk);
      assert head[1..] == loop.trace;
    } else {
      head, last := [], Build(i, false);
    }
    DeploysOfConcat(head, [last, FailFragment]);
    assert [last, FailFragment][1..] == [FailFragment];
    assert Deploys([FailFragment]) == 0;
    assert RunStages(st, req, namespace, w, i).trace == head + [last, FailFragment];
  }

  /** Begun in order; failure is the end; never more attempts than the policy allows; and success is
      the success of every stage. */
  ghost predicate Safe(out: Outcome, first: nat, stages: nat, retries: nat)
    requires first <= stages
  {
    && InOrder(out.trace, first)
    && EndsOnFailure(out)
    && Deploys(out.trace) <= retries * (stages - first)
    && (out.ok <==> forall j: nat | first <= j < stages :: Succeeded(out.trace, j))
  }

  lemma Budget(retries: nat, stages: nat)
    requires stages > 0
    ensures retries * stages == retries + retries * (stages - 1) >= retries
  {
  }

  lemma InOrderRest(head: seq<Event>, rest: seq<Event>, i: nat)
    requires InOrder(rest, i + 1) && head != [] && Succeeds(head[|head| - 1], i)
    requires forall e | e in head :: (e.Build? || e.Deploy? || e.EndWait? || e.UndeployStage?) && e.stage == i
    ensures InOrder(head + rest, i)
  {
    var trace, n := head + rest, |head|;
    assert Succeeds(trace[n - 1], i);
    forall p, j: nat | 0 <= p < |trace| && Begins(trace[p], j)
      ensures j >= i && (j > i ==> exists q :: 0 <= q < p && Succeeds(trace[q], j - 1))
    {
      if p < n {
        assert trace[p] in head;
      } else if j > i + 1 {
        var q :| 0 <= q < p - n && Succeeds(rest[q], j - 1);
        assert trace[q + n] == rest[q];
      }
    }
  }

  lemma EndsLater(head: seq<Event>, rest: Outcome)
    requires EndsOnFailure(rest) && forall e | e in head :: e.Build? || e.Deploy? || e.EndWait? || e.UndeployStage?
    ensures EndsOnFailure(rest.After(head))
  {
    var out := rest.After(head);
    forall p | 0 <= p < |head|
      ensures out.trace[p] in head
    {
    }
  }

  lemma SafeRest(head: seq<Event>, rest: Outcome, i: nat, stages: nat, retries: nat)
    requires i < stages && Safe(rest, i + 1, stages, retries)
    requires head != [] && Succeeds(head[|head| - 1], i)
    requires forall e | e in head :: (e.Build? || e.Deploy? || e.EndWait? || e.UndeployStage?) && e.stage == i
    requires Deploys(head) <= retries
    ensures Safe(rest.After(head), i, stages, retries)
  {
    var out := rest.After(head);
    InOrderRest(head, rest.trace, i);
    assert Succeeds(out.trace[|head| - 1], i);
    EndsLater(head, rest);
    DeploysOfConcat(head, rest.trace);
    Budget(retries, stages - i);
    forall j: nat | i < j < stages
      ensures Succeeded(out.trace, j) <==> Succeeded(rest.trace, j)
    {
      SucceededAfter(head, rest.trace, i, j);
    }
  }

  lemma SucceededAfter(head: seq<Event>, rest: seq<Event>, i: nat, j: nat)
    requires j != i && forall e | e in head :: e.EndWait? ==> e.stage == i
    ensures Succeeded(head + rest, j) <==> Succeeded(rest, j)
  {
    if Succeeded(rest, j) {
      var q :| 0 <= q < |rest| && Succeeds(rest[q], j);
      assert (head + rest)[q + |head|] == rest[q];
    }
    if Succeeded(head + rest, j) {
      forall k | 0 <= k < |head|
        ensures (head + rest)[k] in head
      {
      }
      var q :| 0 <= q < |head + rest| && Succeeds((head + rest)[q], j);
      assert rest[q - |head|] == (head + rest)[q];
    }
  }

  lemma SafeFailure(out: Outcome, head: seq<Event>, last: Event, i: nat, stages: nat, retries: nat)
    requires i < stages && !out.ok && out.trace == head + [last, FailFragment]
    requires forall e | e in head :: (e.Build? || e.Deploy? || e.EndWait? || e.UndeployStage?) && e.stage == i && !Succeeds(e, i)
    requires last.CleanUp? || last == Build(i, false)
    requires Deploys(out.trace) <= retries
    ensures Safe(out, i, stages, retries)
  {
    forall p | 0 <= p < |head|
      ensures out.trace[p] in head
    {
    }
    Budget(retries, stages - i);
    assert !Succeeded(out.trace, i);
  }

  lemma SafeNothing(st: State, stages: nat, retries: nat)
    ensures Safe(Outcome(st, [], true), stages, stages, retries)
  {
  }

  /** What the stages from the i-th on come to is safe, within the retries of the request's policy. */
  ghost predicate SafeFrom(out: Outcome, req: Request, i: nat)
    requires i <= |req.stages|
  {
    Safe(out, i, |req.stages|, Left(0, MaxRetries(req.policy)))
  }

  lemma SafeStage(st: State, req: Request, namespace: string, w: nat -> StageWorld, i: nat, out: Outcome)
    requires i < |req.stages| && w(i).buildOk && StageLoop(st, req, namespace, w, i).ok
    requires SafeFrom(RunStages(StageLoop(st, req, namespace, w, i).state, req, namespace, w, i + 1), req, i + 1)
    requires out == RunStages(st, req, namespace, w, i)
    ensures SafeFrom(out, req, i)
  {
    var head, rest := StageThenRest(st, req, namespace, w, i);
    SafeRest(head, rest, i, |req.stages|, Left(0, MaxRetries(req.policy)));
  }

  lemma SafeFailedStage(st: State, req: Request, namespace: string, w: nat -> StageWorld, i: nat, out: Outcome)
    requires i < |req.stages| && (w(i).buildOk ==> !StageLoop(st, req, namespace, w, i).ok)
    requires out == RunStages(st, req, namespace, w, i)
    ensures SafeFrom(out, req, i)
  {
    var head, last := StageThenFailure(st, req, namespace, w, i);
    SafeFailure(out, head, last, i, |req.stages|, Left(0, MaxRetries(req.policy)));
  }

  lemma SafeEnd(st: State, req: Request, namespace: string, w: nat -> StageWorld, out: Outcome)
    requires out == RunStages(st, req, namespace, w, |req.stages|)
    ensures SafeFrom(out, req, |req.stages|)
  {
    SafeNothing(st, |req.stages|, Left(0, MaxRetries(req.policy)));
  }

  lemma {:induction false} StagesSafe(st: State, req: Request, namespace: string, w: nat -> StageWorld, i: nat, out: Outcome)
    requires i <= |req.stages| && out == RunStages(st, req, namespace, w, i)
    ensures SafeFrom(out, req, i)
    decreases |req.stages| - i
  {
    if i == |req.stages| {
      SafeEnd(st, req, namespace, w, out);
    } else if w(i).buildOk && StageLoop(st, req, namespace, w, i).ok {
      var next := StageLoop(st, req, namespace, w, i).state;
      StagesSafe(next, req, namespace, w, i + 1, RunStages(next, req, namespace, w, i + 1));
      SafeStage(st, req, namespace, w, i, out);
    } else {
      SafeFailedStage(st, req, namespace, w, i, out);
    }
  }

  /** In the end the fragment is marked as failed; just before, the preparation was cleaned up,
      unless the last stage could not even be built. */
  predicate MarkedAsFailed(out: Outcome, f: string) {
    var n := |out.trace|;
    && n >= 2 && out.trace[n - 1] == FailFragment
    && (out.trace[n - 2].CleanUp? || (out.trace[n - 2].Build? && !out.trace[n - 2].ok))
    && (f in out.state ==> out.state[f].status == FragmentError)
  }

  lemma MarkedLater(head: seq<Event>, rest: Outcome, f: string)
    requires MarkedAsFailed(rest, f)
    ensures MarkedAsFailed(rest.After(head), f)
  {
  }

  lemma LaterStageFails(st: State, req: Request, namespace: string, w: nat -> StageWorld, i: nat, out: Outcome)
    requires i < |req.stages| && w(i).buildOk && StageLoop(st, req, namespace, w, i).ok
    requires MarkedAsFailed(RunStages(StageLoop(st, req, namespace, w, i).state, req, namespace, w, i + 1), req.fragmentId)
    requires out == RunStages(st, req, namespace, w, i)
    ensures MarkedAsFailed(out, req.fragmentId)
  {
    var head, rest := StageThenRest(st, req, namespace, w, i);
    MarkedLater(head, rest, req.fragmentId);
  }

  lemma FailedStageMarks(st: State, req: Request, namespace: string, w: nat -> StageWorld, i: nat, out: Outcome)
    requires i < |req.stages| && (w(i).buildOk ==> !StageLoop(st, req, namespace, w, i).ok)
    requires out == RunStages(st, req, namespace, w, i)
    ensures MarkedAsFailed(out, req.fragmentId)
  {
    var head, last := StageThenFailure(st, req, namespace, w, i);
  }

  lemma {:induction false} StagesFailure(st: State, req: Request, namespace: string, w: nat -> StageWorld, i: nat, out: Outcome)
    requires i <= |req.stages| && out == RunStages(st, req, namespace, w, i) && !out.ok
    ensures MarkedAsFailed(out, req.fragmentId)
    decreases |req.stages| - i
  {
    if w(i).buildOk && StageLoop(st, req, namespace, w, i).ok {
      var next := StageLoop(st, req, namespace, w, i).state;
      StagesFailure(next, req, namespace, w, i + 1, RunStages(next, req, namespace, w, i + 1));
      LaterStageFails(st, req, namespace, w, i, out);
    } else {
      FailedStageMarks(st, req, namespace, w, i, out);
    }
  }

  /** A request is carried out stage by stage, deploys at most three times per stage, succeeds
      exactly if it can be prepared and every stage succeeds, and otherwise ends with the fragment
      marked as failed. Only a missing namespace fails it without a mark. */
  ghost predicate SafeRequest(out: Outcome, req: Request, w: World) {
    && InOrder(out.trace, 0)
    && EndsOnFailure(out)
    && Deploys(out.trace) <= MAX_STAGE_RETRIES * |req.stages|
    && (out.ok <==> w.namespace.Some? && w.prepareOk && forall j: nat | j < |req.stages| :: Succeeded(out.trace, j))
    && (!out.ok && w.namespace.Some? ==> out.trace != [] && out.trace[|out.trace| - 1] == FailFragment)
    && (!out.ok && w.namespace.Some? && w.prepareOk ==> MarkedAsFailed(out, req.fragmentId))
  }

  lemma RequestIsSafe(st: State, req: Request, w: World)
    ensures SafeRequest(ProcessRequest(st, req, w), req, w)
  {
    if w.namespace.Some? && w.prepareOk {
      var prepared := Run(st, w.preparing);
      var rest := RunStages(prepared, req, w.namespace.value, w.stages, 0);
      StagesSafe(prepared, req, w.namespace.value, w.stages, 0, rest);
      if !rest.ok {
        StagesFailure(prepared, req, w.namespace.value, w.stages, 0, rest);
      }
      PreparedRequest(rest, req, w);
    } else if w.namespace.Some? {
      FailedPreparation(st, req, w);
    }
  }

  lemma PreparedRequest(rest: Outcome, req: Request, w: World)
    requires w.namespace.Some? && w.prepareOk && SafeFrom(rest, req, 0)
    requires !rest.ok ==> MarkedAsFailed(rest, req.fragmentId)
    ensures SafeRequest(rest.After([Prepare(true)]), req, w)
  {
    AfterPreparation(rest);
    Fewer(Left(0, MaxRetries(req.policy)), |req.stages|);
    if !rest.ok {
      MarkedLater([Prepare(true)], rest, req.fragmentId);
    }
  }

  lemma FailedPreparation(st: State, req: Request, w: World)
    requires w.namespace.Some? && !w.prepareOk
    ensures Deploys(ProcessRequest(st, req, w).trace) == 0
  {
    var leftover := if w.leftover then [UndeployLeftover(w.leftoverOk)] else [];
    assert leftover != [] ==> leftover[1..] == [];
    assert [FailFragment][1..] == [] && [Prepare(false)][1..] == [];
    DeploysOfConcat([Prepare(false)], leftover);
    DeploysOfConcat([Prepare(false)] + leftover, [FailFragment]);
  }

  lemma Fewer(retries: nat, stages: nat)
    requires retries <= MAX_STAGE_RETRIES
    ensures retries * stages <= MAX_STAGE_RETRIES * stages
  {
  }

  lemma AfterPreparation(rest: Outcome)
    requires InOrder(rest.trace, 0) && EndsOnFailure(rest)
    ensures InOrder(rest.After([Prepare(true)]).trace, 0) && EndsOnFailure(rest.After([Prepare(true)]))
    ensures Deploys(rest.After([Prepare(true)]).trace) == Deploys(rest.trace)
    ensures forall j: nat :: Succeeded(rest.After([Prepare(true)]).trace, j) <==> Succeeded(rest.trace, j)
  {
    var trace := rest.After([Prepare(true)]).trace;
    assert trace[1..] == rest.trace;
    forall p, j: nat | 0 <= p < |trace| && Begins(trace[p], j) && j > 0
      ensures exists q :: 0 <= q < p && Succeeds(trace[q], j - 1)
    {
      var q :| 0 <= q < p - 1 && Succeeds(rest.trace[q], j - 1);
      assert trace[q + 1] == rest.trace[q];
    }
    forall j: nat
      ensures Succeeded(trace, j) <==> Succeeded(rest.trace, j)
    {
      AnyAfter(rest.trace, j);
    }
  }

  lemma AnyAfter(rest: seq<Event>, j: nat)
    ensures Succeeded([Prepare(true)] + rest, j) <==> Succeeded(rest, j)
  {
    SucceededAfter([Prepare(true)], rest, j + 1, j);
  }

  /** Asked to retry for ever, a request never deploys: its first stage fails as soon as it is built. */
  lemma AlwaysRetryNeverDeploys(st: State, req: Request, w: World)
    requires req.policy == AlwaysRetry
    ensures Deploys(ProcessRequest(st, req, w).trace) == 0
    ensures req.stages != [] ==> !ProcessRequest(st, req, w).ok
  {
    if w.namespace.Some? && w.prepareOk {
      var rest := RunStages(Run(st, w.preparing), req, w.namespace.value, w.stages, 0);
      StagesSafe(Run(st, w.preparing), req, w.namespace.value, w.stages, 0, rest);
      AfterPreparation(rest);
    } else if w.namespace.Some? {
      FailedPreparation(st, req, w);
    }
  }
}
