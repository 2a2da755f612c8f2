/** How often the policies let a stage be tried, and which requests succeed: said without the loop and
    without its bound, in terms of attempts that end well and of the events that are seen. */
module Retries {
  import opened Entities
  import opened MonitorModel
  import opened Deployment

  // ---------- Which requests succeed ----------

  /** Attempt `from` to the one before `n` fail and are undeployed, and the wait of attempt `n` ends well,
      in this state. */
  ghost predicate EndsWell(st: State, f: string, attempts: nat -> Attempt, from: nat, n: nat, end: State)
    decreases n - from
  {
    && from <= n
    && var a := attempts(from);
    var waited := TryStage(st, f, a);
    if from == n then waited.result == Ready && end == waited.state
    else waited.result != Ready && a.undeployOk && EndsWell(Run(waited.state, a.undeploying), f, attempts, from + 1, n, end)
  }

  lemma {:induction false} LoopComesTo(st: State, f: string, i: nat, attempts: nat -> Attempt, retries: nat, maxRetries: int)
    returns (n: nat)
    requires LoopStage(st, f, i, attempts, retries, maxRetries).ok
    ensures retries <= n < maxRetries
    ensures EndsWell(st, f, attempts, retries, n, LoopStage(st, f, i, attempts, retries, maxRetries).state)
    decreases maxRetries - retries
  {
    var a := attempts(retries);
    var waited := TryStage(st, f, a);
    if waited.result == Ready {
      n := retries;
    } else {
      n := LoopComesTo(Run(waited.state, a.undeploying), f, i, attempts, retries + 1, maxRetries);
    }
  }

  lemma {:induction false} LoopEndsWell(st: State, f: string, i: nat, attempts: nat -> Attempt, retries: nat, maxRetries: int,
                                        n: nat, end: State)
    requires n < maxRetries && EndsWell(st, f, attempts, retries, n, end)
    ensures LoopStage(st, f, i, attempts, retries, maxRetries).ok
    ensures LoopStage(st, f, i, attempts, retries, maxRetries).state == end
    decreases maxRetries - retries
  {
    var a := attempts(retries);
    if retries < n {
      LoopEndsWell(Run(TryStage(st, f, a).state, a.undeploying), f, i, attempts, retries + 1, maxRetries, n, end);
    }
  }

  /** One of the first `tries` attempts at the i-th stage ends well, in this state. */
  ghost predicate StageWorks(st: State, req: Request, namespace: string, w: nat -> StageWorld, i: nat, tries: nat, end: State)
    requires i < |req.stages|
  {
    w(i).buildOk
    && exists n: nat :: n < tries && EndsWell(Entered(st, req, namespace, w, i), req.fragmentId, w(i).attempts, 0, n, end)
  }

  /** From the i-th on, one of the first `tries` attempts at each stage ends well. */
  ghost predicate StagesWork(st: State, req: Request, namespace: string, w: nat -> StageWorld, i: nat, tries: nat)
    requires i <= |req.stages|
    decreases |req.stages| - i
  {
    i < |req.stages| ==>
      exists end: State :: StageWorks(st, req, namespace, w, i, tries, end) && StagesWork(end, req, namespace, w, i + 1, tries)
  }

  lemma StageWorksInLoop(st: State, req: Request, namespace: string, w: nat -> StageWorld, i: nat, tries: nat, end: State)
    requires i < |req.stages| && tries == Left(0, MaxRetries(req.policy))
    ensures StageWorks(st, req, namespace, w, i, tries, end) <==>
            w(i).buildOk && StageLoop(st, req, namespace, w, i).ok && StageLoop(st, req, namespace, w, i).state == end
  {
    var entered, f, bound := Entered(st, req, namespace, w, i), req.fragmentId, MaxRetries(req.policy);
    if w(i).buildOk && StageLoop(st, req, namespace, w, i).ok {
      var n := LoopComesTo(entered, f, i, w(i).attempts, 0, bound);
    }
    if n: nat :| n < tries && EndsWell(entered, f, w(i).attempts, 0, n, end) {
      LoopEndsWell(entered, f, i, w(i).attempts, 0, bound, n, end);
    }
  }

  lemma FirstStageOk(st: State, req: Request, namespace: string, w: nat -> StageWorld, i: nat, out: Outcome)
    requires i < |req.stages| && out == RunStages(st, req, namespace, w, i)
    ensures out.ok <==>
            w(i).buildOk && StageLoop(st, req, namespace, w, i).ok
            && RunStages(StageLoop(st, req, namespace, w, i).state, req, namespace, w, i + 1).ok
  {
  }

  lemma {:induction false} RunWorks(st: State, req: Request, namespace: string, w: nat -> StageWorld, i: nat, tries: nat, out: Outcome)
    requires i <= |req.stages| && tries == Left(0, MaxRetries(req.policy)) && out == RunStages(st, req, namespace, w, i)
    ensures out.ok <==> StagesWork(st, req, namespace, w, i, tries)
    decreases |req.stages| - i
  {
    if i < |req.stages| {
      var next := StageLoop(st, req, namespace, w, i).state;
      FirstStageOk(st, req, namespace, w, i, out);
      RunWorks(next, req, namespace, w, i + 1, tries, RunStages(next, req, namespace, w, i + 1));
      FirstStageWorks(st, req, namespace, w, i, tries);
    }
  }

  lemma FirstStageWorks(st: State, req: Request, namespace: string, w: nat -> StageWorld, i: nat, tries: nat)
    requires i < |req.stages| && tries == Left(0, MaxRetries(req.policy))
    ensures StagesWork(st, req, namespace, w, i, tries) <==>
            w(i).buildOk && StageLoop(st, req, namespace, w, i).ok
            && StagesWork(StageLoop(st, req, namespace, w, i).state, req, namespace, w, i + 1, tries)
  {
    forall end: State
      ensures StageWorks(st, req, namespace, w, i, tries, end) <==>
              w(i).buildOk && StageLoop(st, req, namespace, w, i).ok && end == StageLoop(st, req, namespace, w, i).state
    {
      StageWorksInLoop(st, req, namespace, w, i, tries, end);
    }
    if w(i).buildOk && StageLoop(st, req, namespace, w, i).ok {
      assert StageWorks(st, req, namespace, w, i, tries, StageLoop(st, req, namespace, w, i).state);
    }
  }

  /** What a request needs to succeed, if each stage may be tried that often. */
  ghost predicate RequestWorks(st: State, req: Request, w: World, tries: nat) {
    w.namespace.Some? && w.prepareOk && StagesWork(Run(st, w.preparing), req, w.namespace.value, w.stages, 0, tries)
  }

  /** A request succeeds exactly if its preparation does, and for each stage one of the attempts it may
      make ends well, those before having failed and been undeployed: the first, or one of the first
      three under limited retries. Asked to always retry, no stage succeeds. */
  lemma RequestSucceeds(st: State, req: Request, w: World)
    ensures req.policy in {NoRollback, UnknownPolicy} ==> (ProcessRequest(st, req, w).ok <==> RequestWorks(st, req, w, 1))
    ensures req.policy == LimitedRetry ==> (ProcessRequest(st, req, w).ok <==> RequestWorks(st, req, w, 3))
    ensures req.policy == AlwaysRetry ==> (ProcessRequest(st, req, w).ok <==> RequestWorks(st, req, w, 0))
  {
    if w.namespace.Some? && w.prepareOk {
      var prepared := Run(st, w.preparing);
      RunWorks(prepared, req, w.namespace.value, w.stages, 0, Left(0, MaxRetries(req.policy)),
               RunStages(prepared, req, w.namespace.value, w.stages, 0));
    }
  }

  // ---------- How often a stage is deployed ----------

  function DeploysOf(trace: seq<Event>, j: nat): nat {
    if trace == [] then 0 else (if trace[0].Deploy? && trace[0].stage == j then 1 else 0) + DeploysOf(trace[1..], j)
  }

  lemma {:induction false} DeploysOfBoth(a: seq<Event>, b: seq<Event>, j: nat)
    ensures DeploysOf(a + b, j) == DeploysOf(a, j) + DeploysOf(b, j)
  {
    if a == [] {
      assert a + b == b;
    } else {
      assert (a + b)[1..] == a[1..] + b;
      DeploysOfBoth(a[1..], b, j);
    }
  }

  lemma {:induction false} NoDeploys(trace: seq<Event>, j: nat)
    requires forall e | e in trace :: !(e.Deploy? && e.stage == j)
    ensures DeploysOf(trace, j) == 0
  {
    if trace != [] {
      NoDeploys(trace[1..], j);
    }
  }

  /** A stage is deployed only if it is built; then at least once if it may be at all, never more often
      than it may, and just as often if it neither succeeds nor fails to be undeployed. */
  ghost predicate Tried(trace: seq<Event>, j: nat, tries: nat) {
    && DeploysOf(trace, j) <= tries
    && (Build(j, true) !in trace ==> DeploysOf(trace, j) == 0)
    && (Build(j, true) in trace && tries > 0 ==> DeploysOf(trace, j) > 0)
    && (Build(j, true) in trace && !Succeeded(trace, j) && UndeployStage(j, false) !in trace ==> DeploysOf(trace, j) == tries)
  }

  /** The trace of a loop, which is about the i-th stage only. */
  ghost predicate LoopTried(out: Outcome, i: nat, tries: nat) {
    && DeploysOf(out.trace, i) <= tries
    && (tries > 0 ==> DeploysOf(out.trace, i) > 0)
    && (!out.ok && UndeployStage(i, false) !in out.trace ==> DeploysOf(out.trace, i) == tries)
  }

  lemma OneMoreTry(rest: Outcome, i: nat, tries: nat, attempt: seq<Event>, deployOk: bool, at: State, result: WaitResult)
    requires LoopTried(rest, i, tries)
    requires attempt == [Deploy(i, deployOk), EndWait(i, at, result), UndeployStage(i, true)]
    ensures LoopTried(rest.After(attempt), i, tries + 1)
  {
    DeploysOfBoth(attempt, rest.trace, i);
    DeploysOfAttempts(attempt, i);
    assert UndeployStage(i, false) in rest.trace ==> UndeployStage(i, false) in attempt + rest.trace;
  }

  lemma DeploysOfAttempts(attempt: seq<Event>, i: nat)
    requires 2 <= |attempt| <= 3 && attempt[0].Deploy? && attempt[0].stage == i && forall k | 0 < k < |attempt| :: !attempt[k].Deploy?
    ensures DeploysOf(attempt, i) == 1
  {
    NoDeploys(attempt[1..], i);
  }

  lemma {:induction false} LoopTries(st: State, f: string, i: nat, attempts: nat -> Attempt, retries: nat, maxRetries: int, out: Outcome)
    requires out == LoopStage(st, f, i, attempts, retries, maxRetries)
    ensures LoopTried(out, i, Left(retries, maxRetries))
    decreases maxRetries - retries
  {
    if retries < maxRetries {
      var a := attempts(retries);
      var waited := TryStage(st, f, a);
      var attempt := [Deploy(i, a.deployOk), EndWait(i, waited.state, waited.result)];
      if waited.result == Ready {
        DeploysOfAttempts(attempt, i);
      } else if a.undeployOk {
        var undeployed := Run(waited.state, a.undeploying);
        var rest := LoopStage(undeployed, f, i, attempts, retries + 1, maxRetries);
        LoopTries(undeployed, f, i, attempts, retries + 1, maxRetries, rest);
        assert attempt + [UndeployStage(i, true)] == [Deploy(i, a.deployOk), EndWait(i, waited.state, waited.result), UndeployStage(i, true)];
        OneMoreTry(rest, i, Left(retries + 1, maxRetries), attempt + [UndeployStage(i, true)], a.deployOk, waited.state, waited.result);
      } else {
        DeploysOfAttempts(attempt + [UndeployStage(i, false)], i);
        assert out.trace[2] == UndeployStage(i, false);
      }
    }
  }

  // ---------- Over all stages ----------

  /** No event of a stage before the i-th. */
  ghost predicate FromStage(trace: seq<Event>, i: nat) {
    forall e | e in trace && (e.Build? || e.Deploy? || e.EndWait? || e.UndeployStage?) :: e.stage >= i
  }

  /** What comes before and after the loop of the i-th stage is not about that stage, except its building. */
  lemma TriedHere(trace: seq<Event>, loop: Outcome, rest: seq<Event>, i: nat, tries: nat)
    requires trace == [Build(i, true)] + loop.trace + rest
    requires LoopTried(loop, i, tries) && AboutStage(loop, i)
    requires loop.ok || !Succeeded(rest, i)
    requires FromStage(rest, i + 1)
    ensures Tried(trace, i, tries)
  {
    DeploysOfBoth([Build(i, true)] + loop.trace, rest, i);
    DeploysOfBoth([Build(i, true)], loop.trace, i);
    NoDeploys([Build(i, true)], i);
    NoDeploys(rest, i);
    assert UndeployStage(i, false) in loop.trace ==> UndeployStage(i, false) in trace;
    if loop.ok {
      assert trace[|loop.trace|] == loop.trace[|loop.trace| - 1];
      assert Succeeds(trace[|loop.trace|], i);
    }
  }

  /** For another stage, only what comes after matters. */
  lemma TriedLater(trace: seq<Event>, head: seq<Event>, rest: seq<Event>, i: nat, j: nat, tries: nat)
    requires trace == head + rest && Tried(rest, j, tries) && j != i
    requires forall e | e in head && (e.Build? || e.Deploy? || e.EndWait? || e.UndeployStage?) :: e.stage == i
    ensures Tried(trace, j, tries)
  {
    DeploysOfBoth(head, rest, j);
    NoDeploys(head, j);
    SucceededAfter(head, rest, i, j);
    assert Build(j, true) in trace ==> Build(j, true) in rest;
    assert UndeployStage(j, false) in rest ==> UndeployStage(j, false) in trace;
  }

  lemma NothingTried(trace: seq<Event>, j: nat, tries: nat)
    requires forall e | e in trace :: !e.Deploy? && e != Build(j, true)
    ensures Tried(trace, j, tries)
  {
    NoDeploys(trace, j);
  }

  lemma StageIsTried(st: State, req: Request, namespace: string, w: nat -> StageWorld, i: nat, j: nat, tries: nat, rest: Outcome)
    requires i < |req.stages| && w(i).buildOk && tries == Left(0, MaxRetries(req.policy))
    requires StageLoop(st, req, namespace, w, i).ok
    requires rest == RunStages(StageLoop(st, req, namespace, w, i).state, req, namespace, w, i + 1)
    requires FromStage(rest.trace, i + 1) && (j != i ==> Tried(rest.trace, j, tries))
    ensures FromStage(RunStages(st, req, namespace, w, i).trace, i) && Tried(RunStages(st, req, namespace, w, i).trace, j, tries)
  {
    var loop := StageLoop(st, req, namespace, w, i);
    var entered, bound := Entered(st, req, namespace, w, i), MaxRetries(req.policy);
    LoopTries(entered, req.fragmentId, i, w(i).attempts, 0, bound, loop);
    LoopEvents(entered, req.fragmentId, i, w(i).attempts, 0, bound);
    var trace := [Build(i, true)] + loop.trace + rest.trace;
    assert RunStages(st, req, namespace, w, i).trace == trace;
    if j == i {
      TriedHere(trace, loop, rest.trace, i, tries);
    } else {
      TriedLater(trace, [Build(i, true)] + loop.trace, rest.trace, i, j, tries);
    }
  }

  lemma FailedStageIsTried(st: State, req: Request, namespace: string, w: nat -> StageWorld, i: nat, j: nat, tries: nat)
    requires i < |req.stages| && tries == Left(0, MaxRetries(req.policy))
    requires w(i).buildOk ==> !StageLoop(st, req, namespace, w, i).ok
    ensures FromStage(RunStages(st, req, namespace, w, i).trace, i) && Tried(RunStages(st, req, namespace, w, i).trace, j, tries)
  {
    var trace := RunStages(st, req, namespace, w, i).trace;
    if !w(i).buildOk {
      NothingTried(trace, j, tries);
    } else {
      var loop := StageLoop(st, req, namespace, w, i);
      var entered, bound := Entered(st, req, namespace, w, i), MaxRetries(req.policy);
      LoopTries(entered, req.fragmentId, i, w(i).attempts, 0, bound, loop);
      LoopEvents(entered, req.fragmentId, i, w(i).attempts, 0, bound);
      var rest := [CleanUp(w(i).cleanUpOk), FailFragment];
      assert trace == [Build(i, true)] + loop.trace + rest;
      NothingTried(rest, j, tries);
      if j == i {
        TriedHere(trace, loop, rest, i, tries);
      } else {
        TriedLater(trace, [Build(i, true)] + loop.trace, rest, i, j, tries);
      }
    }
  }

  lemma {:induction false} StagesTried(st: State, req: Request, namespace: string, w: nat -> StageWorld, i: nat, j: nat, tries: nat)
    requires i <= |req.stages| && tries == Left(0, MaxRetries(req.policy))
    ensures FromStage(RunStages(st, req, namespace, w, i).trace, i) && Tried(RunStages(st, req, namespace, w, i).trace, j, tries)
    decreases |req.stages| - i
  {
    if i == |req.stages| {
      NothingTried([], j, tries);
    } else if w(i).buildOk && StageLoop(st, req, namespace, w, i).ok {
      var next := StageLoop(st, req, namespace, w, i).state;
      StagesTried(next, req, namespace, w, i + 1, j, tries);
      StageIsTried(st, req, namespace, w, i, j, tries, RunStages(next, req, namespace, w, i + 1));
    } else {
      FailedStageIsTried(st, req, namespace, w, i, j, tries);
    }
  }

  lemma PreparedTried(rest: seq<Event>, j: nat, tries: nat)
    requires Tried(rest, j, tries)
    ensures Tried([Prepare(true)] + rest, j, tries)
  {
    TriedLater([Prepare(true)] + rest, [Prepare(true)], rest, j + 1, j, tries);
  }

  lemma RequestTried(st: State, req: Request, w: World, j: nat)
    ensures Tried(ProcessRequest(st, req, w).trace, j, Left(0, MaxRetries(req.policy)))
  {
    var trace, tries := ProcessRequest(st, req, w).trace, Left(0, MaxRetries(req.policy));
    if w.namespace.Some? && w.prepareOk {
      var prepared := Run(st, w.preparing);
      StagesTried(prepared, req, w.namespace.value, w.stages, 0, j, tries);
      PreparedTried(RunStages(prepared, req, w.namespace.value, w.stages, 0).trace, j, tries);
    } else {
      NothingTried(trace, j, tries);
    }
  }

  /** A stage that is built is tried once under no or an unknown policy, whatever comes of it; under
      limited retries up to three times, and just three times if no wait ends well and every undeployment
      succeeds; and never if it is to be retried always. */
  lemma PolicyDecidesTries(st: State, req: Request, w: World, j: nat)
    ensures var trace := ProcessRequest(st, req, w).trace;
            && (req.policy in {NoRollback, UnknownPolicy} ==> DeploysOf(trace, j) == if Build(j, true) in trace then 1 else 0)
            && (req.policy == LimitedRetry ==>
                  && DeploysOf(trace, j) <= 3
                  && (Build(j, true) in trace && !Succeeded(trace, j) && UndeployStage(j, false) !in trace ==>
                        DeploysOf(trace, j) == 3))
            && (req.policy == AlwaysRetry ==> DeploysOf(trace, j) == 0)
  {
    RequestTried(st, req, w, j);
  }

  // ---------- What a request does to the monitor ----------

  /** With a stage its services enter the monitor: those that are not there yet scheduled, to be reported,
      and with no resource; of a fragment that is there already nothing else changes. */
  lemma StageEnters(st: State, req: Request, namespace: string, w: nat -> StageWorld, i: nat, s: string)
    requires i < |req.stages|
    ensures var f, before, after := req.fragmentId, Run(st, w(i).building), Entered(st, req, namespace, w, i);
            && (HasService(after, f, s) <==> HasService(before, f, s) || s in req.stages[i].services)
            && (HasService(before, f, s) ==> after[f].services[s] == before[f].services[s])
            && (HasService(after, f, s) && !HasService(before, f, s) ==>
                  var service := after[f].services[s];
                  && service.status == ServiceScheduled && service.newStatus
                  && service.resources == map[] && service.numPendingChecks == 0 && service.endpoints == [])
            && (f in before ==> after[f].status == before[f].status && after[f].newStatus == before[f].newStatus)
            && (f !in before ==>
                  && after[f].status == FragmentWaiting && after[f].newStatus
                  && after[f].appInstanceId == req.appInstanceId && after[f].namespace == namespace)
  {
  }

  /** A request without a namespace does nothing; one whose preparation fails marks its fragment, and
      undeploys what is left over exactly if something is. */
  lemma UnpreparedRequest(st: State, req: Request, w: World)
    requires w.namespace == None || !w.prepareOk
    ensures var out := ProcessRequest(st, req, w);
            && !out.ok
            && (w.namespace == None ==> out.trace == [] && out.state == st)
            && (w.namespace.Some? ==>
                  && out.state == SetEntryStatus(Run(st, w.preparing), req.fragmentId, FragmentError)
                  && out.trace == if w.leftover then [Prepare(false), UndeployLeftover(w.leftoverOk), FailFragment]
                                  else [Prepare(false), FailFragment])
  {
  }

  /** A stage that fails marks the fragment: right after its building, or after what others did while it
      was deployed in vain and the preparation was cleaned up. */
  lemma FailedStageLeaves(st: State, req: Request, namespace: string, w: nat -> StageWorld, i: nat)
    requires i < |req.stages|
    ensures var after, loop := RunStages(st, req, namespace, w, i).state, StageLoop(st, req, namespace, w, i);
            && (!w(i).buildOk ==> after == SetEntryStatus(Run(st, w(i).building), req.fragmentId, FragmentError))
            && (w(i).buildOk && !loop.ok ==>
                  after == SetEntryStatus(Run(loop.state, w(i).cleaningUp), req.fragmentId, FragmentError))
  {
  }
}
