/** The deployment manager over the real monitor. The executor and the other goroutines answer as a
    World says; every call to the executor is recorded. */
module Manager {
  import opened Entities
  import opened M = MonitorModel
  import opened MonitoredInstances
  import opened Environment
  import opened D = Deployment
  import opened Undeployment

  /** Check at every tick whether something is pending, until the timeout. */
  method WaitPendingChecks(m: MemoryMonitoredInstances, fragmentId: string, ticks: seq<seq<Op>>)
    returns (result: WaitResult)
    requires m.Valid()
    modifies m, m.repr
    ensures m.Valid() && fresh(m.repr - old(m.repr))
    ensures Waited(m.value, result) == Wait(old(m.value), fragmentId, ticks)
  {
    for i := 0 to |ticks|
      invariant m.Valid() && fresh(m.repr - old(m.repr))
      invariant Wait(old(m.value), fragmentId, ticks) == Wait(m.value, fragmentId, ticks[i..])
    {
      var pending := Check(m, fragmentId, ticks[i]);
      assert ticks[i..][1..] == ticks[i + 1..];
      if pending == None {
        return NotMonitored;
      }
      if pending.value == 0 {
        return Ready;
      }
    }
    return TimedOut;
  }

  /** One tick: the number of pending checks, if the fragment is monitored. */
  method Check(m: MemoryMonitoredInstances, fragmentId: string, before: seq<Op>) returns (pending: Option<int>)
    requires m.Valid()
    modifies m, m.repr
    ensures m.Valid() && fresh(m.repr - old(m.repr))
    ensures m.value == M.UpdateAppStatus(Run(old(m.value), before), fragmentId)
    ensures pending == if fragmentId in m.value then Some(m.value[fragmentId].numPendingChecks) else None
  {
    ApplyAll(m, before);
    m.UpdateAppStatus(fragmentId);
    var monitoredEntry := m.GetEntry(fragmentId);
    if monitoredEntry == null {
      return None;
    }
    assert m.EntryValid(fragmentId);
    return Some(monitoredEntry.numPendingChecks);
  }

  class DeploymentManager {
    const monitored: MemoryMonitoredInstances
    ghost var trace: seq<Event>

    constructor (monitored: MemoryMonitoredInstances)
      ensures this.monitored == monitored && trace == []
    {
      this.monitored, trace := monitored, [];
    }

    /** The monitor's objects do not include this manager. */
    ghost predicate Valid()
      reads monitored, monitored.repr
    {
      monitored.Valid() && this !in monitored.repr
    }

    ghost method Record(events: seq<Event>)
      requires Valid()
      modifies this`trace
      ensures Valid() && trace == old(trace) + events
    {
      trace := trace + events;
    }

    /** Deploy and wait. */
    method TryStage(f: string, i: nat, a: Attempt) returns (result: WaitResult)
      requires Valid()
      modifies monitored, monitored.repr, this`trace
      ensures Valid() && fresh(monitored.repr - old(monitored.repr))
      ensures Waited(monitored.value, result) == D.TryStage(old(monitored.value), f, a)
      ensures trace == old(trace) + [Deploy(i, a.deployOk), EndWait(i, monitored.value, result)]
    {
      monitored.SetEntryStatus(f, FragmentDeploying);
      ApplyAll(monitored, a.deploying);
      if !a.deployOk {
        monitored.SetEntryStatus(f, FragmentRetrying);
      }
      result := WaitPendingChecks(monitored, f, a.ticks);
      Record([Deploy(i, a.deployOk), EndWait(i, monitored.value, result)]);
    }

    method UndeployStage(i: nat, a: Attempt) returns (ok: bool)
      requires Valid()
      modifies monitored, monitored.repr, this`trace
      ensures Valid() && fresh(monitored.repr - old(monitored.repr))
      ensures monitored.value == Run(old(monitored.value), a.undeploying) && ok == a.undeployOk
      ensures trace == old(trace) + [Event.UndeployStage(i, ok)]
    {
      ApplyAll(monitored, a.undeploying);
      ok := a.undeployOk;
      Record([Event.UndeployStage(i, ok)]);
    }

    method DeploymentLoopStage(f: string, i: nat, attempts: nat -> Attempt, maxRetries: int) returns (ok: bool)
      requires Valid()
      modifies monitored, monitored.repr, this`trace
      ensures Valid() && fresh(monitored.repr - old(monitored.repr))
      ensures Outcome(monitored.value, trace, ok) ==
              LoopStage(old(monitored.value), f, i, attempts, 0, maxRetries).After(old(trace))
    {
      ghost var goal := LoopStage(monitored.value, f, i, attempts, 0, maxRetries).After(trace);
      var retries := 0;
      while retries < maxRetries
        invariant Valid() && fresh(monitored.repr - old(monitored.repr))
        invariant goal == LoopStage(monitored.value, f, i, attempts, retries, maxRetries).After(trace)
      {
        LoopStep(monitored.value, f, i, attempts, retries, maxRetries, trace);
        var result := TryStage(f, i, attempts(retries));
        if result == Ready {
          return true;
        }
        ok := UndeployStage(i, attempts(retries));
        if !ok {
          return false;
        }
        retries := retries + 1;
      }
      return false;
    }

    /** The entry of a stage: a new object for each service, filed under the service's identifier. */
    method GetMonitoringData(namespace: string, req: Request, i: nat) returns (toReturn: MonitoredAppEntry)
      requires i < |req.stages|
      ensures fresh(toReturn) && fresh(toReturn.services.Values)
      ensures toReturn.Valid() && toReturn.fragmentId == req.fragmentId
      ensures toReturn.value == MonitoringData(namespace, req, i)
    {
      var services, values := NewServiceEntries(req.fragmentId, req.stages[i]);
      var totalNumberServices := 0;
      for k := 0 to |req.stages|
        invariant totalNumberServices + TotalServices(req.stages[k..]) == TotalServices(req.stages)
      {
        totalNumberServices := totalNumberServices + |req.stages[k].services|;
        assert req.stages[k..][1..] == req.stages[k + 1..];
      }
      SameSize(services, values);
      assert values.Keys == Ids(req.stages[i]);
      toReturn := new MonitoredAppEntry(
        req.fragmentId,
        Entry(req.appInstanceId, namespace, values, FragmentWaiting, true, |services|, totalNumberServices),
        services);
    }

    method NewServiceEntries(f: string, stage: Stage)
      returns (services: map<string, MonitoredServiceEntry>, values: map<string, Service>)
      ensures fresh(services.Values) && services.Keys == values.Keys
      ensures values == map s | s in Ids(stage) :: NewService()
      ensures forall s | s in services ::
          && services[s].serviceInstanceId == s && services[s].fragmentId == f
          && services[s].View() == values[s]
    {
      services, values := map[], map[];
      for k := 0 to |stage.services|
        invariant forall s :: s in services <==> s in stage.services[..k]
        invariant forall s :: s in values <==> s in stage.services[..k]
        invariant forall s | s in services ::
            && fresh(services[s]) && services[s].serviceInstanceId == s && services[s].fragmentId == f
            && services[s].View() == values[s] == NewService()
      {
        var s := stage.services[k];
        var service := new MonitoredServiceEntry(f, s, NewService());
        services, values := services[s := service], values[s := NewService()];
        assert stage.services[..k + 1] == stage.services[..k] + [s];
      }
      assert stage.services[..|stage.services|] == stage.services;
    }

    method FailFragment(f: string)
      requires Valid()
      modifies monitored, monitored.repr, this`trace
      ensures Valid() && fresh(monitored.repr - old(monitored.repr))
      ensures monitored.value == M.SetEntryStatus(old(monitored.value), f, FragmentError)
      ensures trace == old(trace) + [Event.FailFragment]
    {
      monitored.SetEntryStatus(f, FragmentError);
      Record([Event.FailFragment]);
    }

    /** Build the i-th stage and have it monitored. */
    method BuildStage(req: Request, namespace: string, w: nat -> StageWorld, i: nat) returns (ok: bool)
      requires Valid() && i < |req.stages|
      modifies monitored, monitored.repr, this`trace
      ensures Valid() && fresh(monitored.repr - old(monitored.repr))
      ensures ok == w(i).buildOk && trace == old(trace) + [Build(i, ok)]
      ensures monitored.value == if ok then Entered(old(monitored.value), req, namespace, w, i)
                                 else Run(old(monitored.value), w(i).building)
    {
      ApplyAll(monitored, w(i).building);
      ok := w(i).buildOk;
      Record([Build(i, ok)]);
      if ok {
        EnterStage(req, namespace, i);
      }
    }

    method EnterStage(req: Request, namespace: string, i: nat)
      requires Valid() && i < |req.stages|
      modifies monitored, monitored.repr
      ensures Valid() && fresh(monitored.repr - old(monitored.repr))
      ensures monitored.value == M.AddEntry(old(monitored.value), req.fragmentId, MonitoringData(namespace, req, i))
    {
      var data := GetMonitoringData(namespace, req, i);
      monitored.AddEntry(data);
    }

    /** One round of the loop of ProcessRequest. */
    method ExecuteStage(req: Request, namespace: string, w: nat -> StageWorld, i: nat) returns (ok: bool)
      requires Valid() && i < |req.stages|
      modifies monitored, monitored.repr, this`trace
      ensures Valid() && fresh(monitored.repr - old(monitored.repr))
      ensures RunStages(old(monitored.value), req, namespace, w, i).After(old(trace)) ==
              if ok then RunStages(monitored.value, req, namespace, w, i + 1).After(trace)
              else Outcome(monitored.value, trace, false)
    {
      StageStep(monitored.value, req, namespace, w, i, trace);
      ok := BuildStage(req, namespace, w, i);
      if !ok {
        FailFragment(req.fragmentId);
        return;
      }
      ok := FinishStage(req.fragmentId, i, w(i), MaxRetries(req.policy));
    }

    /** Deploy the stage that was built; clean up if that fails in the end. */
    method FinishStage(f: string, i: nat, w: StageWorld, maxRetries: int) returns (ok: bool)
      requires Valid()
      modifies monitored, monitored.repr, this`trace
      ensures Valid() && fresh(monitored.repr - old(monitored.repr))
      ensures var loop := LoopStage(old(monitored.value), f, i, w.attempts, 0, maxRetries).After(old(trace));
              && ok == loop.ok
              && monitored.value == (if ok then loop.state else M.SetEntryStatus(Run(loop.state, w.cleaningUp), f, FragmentError))
              && trace == if ok then loop.trace else loop.trace + [CleanUp(w.cleanUpOk)] + [Event.FailFragment]
    {
      ok := DeploymentLoopStage(f, i, w.attempts, maxRetries);
      if !ok {
        CleanUpAndFail(f, w);
      }
    }

    method CleanUpAndFail(f: string, w: StageWorld)
      requires Valid()
      modifies monitored, monitored.repr, this`trace
      ensures Valid() && fresh(monitored.repr - old(monitored.repr))
      ensures monitored.value == M.SetEntryStatus(Run(old(monitored.value), w.cleaningUp), f, FragmentError)
      ensures trace == old(trace) + [CleanUp(w.cleanUpOk)] + [Event.FailFragment]
    {
      ApplyAll(monitored, w.cleaningUp);
      Record([CleanUp(w.cleanUpOk)]);
      FailFragment(f);
    }

    /** The loop of ProcessRequest. */
    method ExecuteStages(req: Request, namespace: string, w: nat -> StageWorld) returns (ok: bool)
      requires Valid()
      modifies monitored, monitored.repr, this`trace
      ensures Valid() && fresh(monitored.repr - old(monitored.repr))
      ensures Outcome(monitored.value, trace, ok) == RunStages(old(monitored.value), req, namespace, w, 0).After(old(trace))
    {
      ghost var goal := RunStages(monitored.value, req, namespace, w, 0).After(trace);
      for i := 0 to |req.stages|
        invariant Valid() && fresh(monitored.repr - old(monitored.repr))
        invariant goal == RunStages(monitored.value, req, namespace, w, i).After(trace)
      {
        ok := ExecuteStage(req, namespace, w, i);
        if !ok {
          return;
        }
      }
      return true;
    }

    method ProcessRequest(req: Request, w: World) returns (ok: bool)
      requires Valid()
      modifies monitored, monitored.repr, this`trace
      ensures Valid() && fresh(monitored.repr - old(monitored.repr))
      ensures Outcome(monitored.value, trace, ok) == D.ProcessRequest(old(monitored.value), req, w).After(old(trace))
    {
      if w.namespace == None {
        return false;
      }
      PrepareStep(monitored.value, req, w, trace);
      ok := PrepareEnvironment(w);
      if !ok {
        FailFragment(req.fragmentId);
        return;
      }
      ok := ExecuteStages(req, w.namespace.value, w.stages);
    }

    /** Prepare for the deployment; what a failed preparation leaves behind is undeployed. */
    method PrepareEnvironment(w: World) returns (ok: bool)
      requires Valid()
      modifies monitored, monitored.repr, this`trace
      ensures Valid() && fresh(monitored.repr - old(monitored.repr))
      ensures ok == w.prepareOk && monitored.value == Run(old(monitored.value), w.preparing)
      ensures trace == Prepared(old(trace), w)
    {
      ApplyAll(monitored, w.preparing);
      ok := w.prepareOk;
      Record([Prepare(ok)]);
      if !ok && w.leftover {
        Record([UndeployLeftover(w.leftoverOk)]);
      }
    }

    /** Undeploy a whole application: its fragments are terminating whether or not that works. */
    method Undeploy(appInstanceId: string, undeployOk: bool) returns (ok: bool)
      requires Valid()
      modifies monitored, monitored.repr
      ensures Valid() && fresh(monitored.repr - old(monitored.repr))
      ensures ok == undeployOk
      ensures monitored.value == M.SetAppStatus(old(monitored.value), appInstanceId, FragmentTerminating)
    {
      monitored.SetAppStatus(appInstanceId, FragmentTerminating);
      ok := undeployOk;
    }

    /** Undeploy one fragment, and the namespace too if the application then looks like terminating. */
    method UndeployFragment(fragmentId: string, appInstanceId: string, undeployOk: bool)
      returns (ok: bool, namespaceToo: bool)
      requires Valid()
      modifies monitored, monitored.repr
      ensures Valid() && fresh(monitored.repr - old(monitored.repr))
      ensures monitored.value == M.SetEntryStatus(old(monitored.value), fragmentId, FragmentTerminating)
      ensures ok == (fragmentId in old(monitored.value) && undeployOk)
      ensures fragmentId !in old(monitored.value) ==> !namespaceToo
      ensures fragmentId in old(monitored.value) ==> NamespaceMayFollow(monitored.value, appInstanceId, namespaceToo)
    {
      var entry := monitored.GetEntry(fragmentId);
      if entry == null {
        return false, false;
      }
      namespaceToo := Terminate(fragmentId, appInstanceId);
      ok := undeployOk;
    }

    /** Mark the fragment, and decide by what the application looks like then. */
    method Terminate(fragmentId: string, appInstanceId: string) returns (namespaceToo: bool)
      requires Valid()
      modifies monitored, monitored.repr
      ensures Valid() && fresh(monitored.repr - old(monitored.repr))
      ensures monitored.value == M.SetEntryStatus(old(monitored.value), fragmentId, FragmentTerminating)
      ensures NamespaceMayFollow(monitored.value, appInstanceId, namespaceToo)
    {
      monitored.SetEntryStatus(fragmentId, FragmentTerminating);
      namespaceToo := DecideOnNamespace(appInstanceId);
    }

    method DecideOnNamespace(appInstanceId: string) returns (follows: bool)
      requires Valid()
      ensures NamespaceMayFollow(monitored.value, appInstanceId, follows)
    {
      var appStatus := monitored.GetAppStatus(appInstanceId);
      follows := NamespaceFollows(appStatus);
    }
  }

  /** One round of the retry loop, with the trace growing at its end instead of its beginning. */
  lemma LoopStep(st: State, f: string, i: nat, attempts: nat -> Attempt, retries: nat, maxRetries: int, before: seq<Event>)
    requires retries < maxRetries
    ensures var a := attempts(retries);
            var waited := D.TryStage(st, f, a);
            var trace := before + [Deploy(i, a.deployOk), EndWait(i, waited.state, waited.result)];
            var undeployed := Run(waited.state, a.undeploying);
            LoopStage(st, f, i, attempts, retries, maxRetries).After(before) ==
            if waited.result == Ready then Outcome(waited.state, trace, true)
            else if !a.undeployOk then Outcome(undeployed, trace + [Event.UndeployStage(i, false)], false)
            else LoopStage(undeployed, f, i, attempts, retries + 1, maxRetries).After(trace + [Event.UndeployStage(i, true)])
  {
    var a := attempts(retries);
    var waited := D.TryStage(st, f, a);
    var attempt := [Deploy(i, a.deployOk), EndWait(i, waited.state, waited.result)];
    var undeployed := Run(waited.state, a.undeploying);
    AfterAfter(LoopStage(undeployed, f, i, attempts, retries + 1, maxRetries), before, attempt + [Event.UndeployStage(i, true)]);
    assert before + (attempt + [Event.UndeployStage(i, a.undeployOk)]) == before + attempt + [Event.UndeployStage(i, a.undeployOk)];
  }

  /** One stage of a request, in the same way. */
  lemma StageStep(st: State, req: Request, namespace: string, w: nat -> StageWorld, i: nat, before: seq<Event>)
    requires i < |req.stages|
    ensures var built := before + [Build(i, w(i).buildOk)];
            var loop := StageLoop(st, req, namespace, w, i);
            RunStages(st, req, namespace, w, i).After(before) ==
            if !w(i).buildOk then
              Outcome(M.SetEntryStatus(Run(st, w(i).building), req.fragmentId, FragmentError), built + [Event.FailFragment], false)
            else if loop.ok then
              RunStages(loop.state, req, namespace, w, i + 1).After(loop.After(built).trace)
            else
              Outcome(M.SetEntryStatus(Run(loop.state, w(i).cleaningUp), req.fragmentId, FragmentError),
                      loop.After(built).trace + [CleanUp(w(i).cleanUpOk)] + [Event.FailFragment], false)
  {
    var loop := StageLoop(st, req, namespace, w, i);
    if w(i).buildOk && loop.ok {
      Regroup(before, [Build(i, true)], loop.trace, RunStages(loop.state, req, namespace, w, i + 1));
    } else if w(i).buildOk {
      FailureTrace(before, Build(i, true), loop.trace, CleanUp(w(i).cleanUpOk));
    } else {
      assert before + [Build(i, false), Event.FailFragment] == before + [Build(i, false)] + [Event.FailFragment];
    }
  }

  lemma Regroup(before: seq<Event>, build: seq<Event>, trace: seq<Event>, rest: Outcome)
    ensures rest.After(build + trace).After(before) == rest.After(before + build + trace)
  {
    assert before + (build + trace + rest.trace) == before + build + trace + rest.trace;
  }

  lemma FailureTrace(before: seq<Event>, build: Event, trace: seq<Event>, cleanUp: Event)
    ensures before + ([build] + trace + [cleanUp, Event.FailFragment]) ==
            before + [build] + trace + [cleanUp] + [Event.FailFragment]
  {
  }

  /** The trace once the environment is prepared, or what was left of it undeployed. */
  function Prepared(before: seq<Event>, w: World): seq<Event> {
    var prepared := before + [Prepare(w.prepareOk)];
    if !w.prepareOk && w.leftover then prepared + [UndeployLeftover(w.leftoverOk)] else prepared
  }

  /** The preparation of a request, in the same way. */
  lemma PrepareStep(st: State, req: Request, w: World, before: seq<Event>)
    requires w.namespace.Some?
    ensures var prepared := Prepared(before, w);
            D.ProcessRequest(st, req, w).After(before) ==
            if w.prepareOk then RunStages(Run(st, w.preparing), req, w.namespace.value, w.stages, 0).After(prepared)
            else Outcome(M.SetEntryStatus(Run(st, w.preparing), req.fragmentId, FragmentError),
                         prepared + [Event.FailFragment], false)
  {
    AfterAfter(RunStages(Run(st, w.preparing), req, w.namespace.value, w.stages, 0), before, [Prepare(true)]);
    var undone := if w.leftover then [UndeployLeftover(w.leftoverOk)] else [];
    assert before + ([Prepare(false)] + undone + [Event.FailFragment]) ==
           before + [Prepare(false)] + undone + [Event.FailFragment];
    assert before + [Prepare(false)] + [] == before + [Prepare(false)];
  }
}
