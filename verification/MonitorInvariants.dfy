/** What the redundant parts of the monitored state - counters, derived statuses, sizes - keep
    having to do with a plain recount, in one step and over whole runs. */
module MonitorInvariants {
  import opened Entities
  import opened Totals
  import opened MonitorModel

  // ---------- Pending checks ----------

  /** The counter of a service is the number of its resources that are not running. */
  ghost predicate Conserved(service: Service) {
    service.numPendingChecks == |NotRunningResources(service.resources)|
  }

  ghost predicate AllConserved(st: State) {
    forall f, s | HasService(st, f, s) :: Conserved(st[f].services[s])
  }

  /** When an operation keeps the counters right, as a condition on what it is called with: entries
      bring in counted services only, resources do not enter as running, and the monitor-level
      removal finds nothing to remove. */
  ghost predicate KeepsCount(st: State, op: Op) {
    match op
    case OpAddEntry(f, entry) =>
      forall s | s in entry.services && !HasService(st, f, s) :: Conserved(entry.services[s])
    case OpAddPendingResource(f, s, u, status) =>
      HasService(st, f, s) && !HasResource(st, f, s, u) ==> status != ServiceRunning
    case OpRemovePendingResource(f, s, u) => !HasResource(st, f, s, u)
    case _ => true
  }

  lemma AddResourceConserves(service: Service, u: string, status: NalejServiceStatus)
    requires Conserved(service)
    ensures Conserved(AddResource(service, u, status)) <==> (u in service.resources || status != ServiceRunning)
  {
    if u !in service.resources {
      var before, after := NotRunningResources(service.resources), NotRunningResources(AddResource(service, u, status).resources);
      if status != ServiceRunning {
        assert after == before + {u};
      } else {
        assert after == before;
      }
    }
  }

  lemma UpdateResourceConserves(service: Service, u: string, status: NalejServiceStatus, endpoints: seq<EndpointInstance>)
    requires u in service.resources && Conserved(service)
    ensures Conserved(UpdateResource(service, u, status, endpoints))
  {
    if service.resources[u].status != status {
      var changed := ChangeResource(service, u, status, endpoints);
      ChangeResourceConserves(service.resources, changed.resources, u);
    }
  }

  /** Only the resource `u` changed. */
  lemma ChangeResourceConserves(before: map<string, Resource>, after: map<string, Resource>, u: string)
    requires u in before && before.Keys == after.Keys && forall r | r in before && r != u :: after[r] == before[r]
    ensures |NotRunningResources(after)| ==
            |NotRunningResources(before)| + RunningCheck(before[u].status) - RunningCheck(after[u].status)
  {
    var open, open' := NotRunningResources(before), NotRunningResources(after);
    if u in open && u !in open' {
      OneMore(open', open, u);
    } else if u !in open && u in open' {
      OneMore(open, open', u);
    } else {
      assert open' == open;
    }
  }

  lemma OneMore(less: set<string>, more: set<string>, u: string)
    requires u !in less && forall r :: r in more <==> r in less || r == u
    ensures |more| == |less| + 1
  {
    assert more == less + {u};
  }

  lemma RemoveResourceBreaks(entry: Entry, s: string, u: string)
    requires s in entry.services && u in entry.services[s].resources && Conserved(entry.services[s])
    ensures !Conserved(RemoveResource(entry, s, u).services[s])
  {
    var after := RemoveResource(entry, s, u).services[s];
    assert NotRunningResources(after.resources) == NotRunningResources(entry.services[s].resources);
  }

  /** One step keeps every counter right exactly if it is called as KeepsCount says. */
  lemma StepConserves(st: State, op: Op)
    requires AllConserved(st)
    ensures AllConserved(Step(st, op)) <==> KeepsCount(st, op)
  {
    var st' := Step(st, op);
    match op {
      case OpAddEntry(f, entry) =>
        forall s | s in entry.services && !HasService(st, f, s)
          ensures HasService(st', f, s) && st'[f].services[s] == entry.services[s]
        {
        }
      case OpAddPendingResource(f, s, u, status) =>
        if HasService(st, f, s) {
          AddResourceConserves(st[f].services[s], u, status);
          assert HasService(st', f, s) && st'[f].services[s] == AddResource(st[f].services[s], u, status);
        }
      case OpRemovePendingResource(f, s, u) =>
        if HasResource(st, f, s, u) {
          RemoveResourceBreaks(st[f], s, u);
          assert HasService(st', f, s);
        }
      case OpSetResourceStatus(f, s, u, status, endpoints) =>
        if HasResource(st, f, s, u) {
          UpdateResourceConserves(st[f].services[s], u, status, endpoints);
        }
      case _ =>
    }
  }

  /** The operations as the program calls them: entries and resources enter as the deployment
      loop makes them, and nothing removes a pending resource through the monitor. */
  ghost predicate Regular(op: Op) {
    match op
    case OpAddEntry(f, entry) =>
      entry.status != FragmentTerminating && forall s | s in entry.services :: entry.services[s] == NewService()
    case OpAddPendingResource(f, s, u, status) => status == ServiceScheduled
    case OpRemovePendingResource(f, s, u) => false
    case _ => true
  }

  lemma {:induction false} RunConserves(st: State, ops: seq<Op>)
    requires AllConserved(st) && forall op | op in ops :: Regular(op)
    ensures AllConserved(Run(st, ops))
    decreases |ops|
  {
    if ops != [] {
      var op := ops[0];
      assert Regular(op);
      assert NotRunningResources(NewService().resources) == {};
      StepConserves(st, op);
      RunConserves(Step(st, op), ops[1..]);
    }
  }

  /** In every reachable state each counter is a recount, and so never negative. */
  lemma ReachableConserved(ops: seq<Op>, f: string, s: string)
    requires forall op | op in ops :: Regular(op)
    requires HasService(Run(map[], ops), f, s)
    ensures var service := Run(map[], ops)[f].services[s];
            service.numPendingChecks == |NotRunningResources(service.resources)| >= 0
  {
    RunConserves(map[], ops);
  }

  // ---------- Statuses against counters ----------

  /** A change of a resource leaves its service running exactly if every resource is running or
      terminating, and with no check pending exactly if every resource is running. */
  lemma StatusAfterChange(service: Service, u: string, status: NalejServiceStatus, endpoints: seq<EndpointInstance>)
    requires u in service.resources && service.resources[u].status != status && Conserved(service)
    ensures var after := UpdateResource(service, u, status, endpoints);
            && (after.status == ServiceRunning <==>
                forall r | r in after.resources :: after.resources[r].status in {ServiceRunning, ServiceTerminating})
            && (after.numPendingChecks == 0 <==>
                forall r | r in after.resources :: after.resources[r].status == ServiceRunning)
            && (after.status == ServiceError <==>
                exists r :: r in after.resources && after.resources[r].status == ServiceError)
            && after.status != ServiceTerminating
  {
    var after := UpdateResource(service, u, status, endpoints);
    var all := ResourceStatuses(after.resources);
    UpdateResourceConserves(service, u, status, endpoints);
    forall r | r in after.resources
      ensures after.resources[r].status in all
    {
    }
    if after.status == ServiceRunning {
      forall r | r in after.resources
        ensures after.resources[r].status in {ServiceRunning, ServiceTerminating}
      {
        assert after.resources[r].status in all;
        RunningFromRank(after.resources[r].status);
      }
    } else {
      assert after.status in all;
    }
    if after.numPendingChecks == 0 {
      assert NotRunningResources(after.resources) == {};
      forall r | r in after.resources
        ensures after.resources[r].status == ServiceRunning
      {
        assert r !in NotRunningResources(after.resources);
      }
    } else {
      var r :| r in NotRunningResources(after.resources);
    }
  }

  ghost predicate SomeResource(service: Service, status: NalejServiceStatus) {
    exists r :: r in service.resources && service.resources[r].status == status
  }

  /** What a change of a resource does, status by status: the resource has the new status, the others
      keep theirs, and the service has the gravest: an error, else a scheduled, waiting or deploying one
      of any of them, else it is running. The endpoints are appended. */
  lemma ServiceAfterChange(service: Service, u: string, status: NalejServiceStatus, endpoints: seq<EndpointInstance>)
    requires u in service.resources && service.resources[u].status != status
    ensures var after := UpdateResource(service, u, status, endpoints);
            && after.resources.Keys == service.resources.Keys
            && (forall r | r in after.resources ::
                  after.resources[r].status == if r == u then status else service.resources[r].status)
            && (after.status == ServiceError <==> SomeResource(after, ServiceError))
            && (after.status == ServiceScheduled <==>
                SomeResource(after, ServiceScheduled) && !SomeResource(after, ServiceError))
            && (after.status == ServiceWaiting <==>
                SomeResource(after, ServiceWaiting) && !SomeResource(after, ServiceError) && !SomeResource(after, ServiceScheduled))
            && (after.status == ServiceDeploying <==>
                SomeResource(after, ServiceDeploying) && !SomeResource(after, ServiceError)
                && !SomeResource(after, ServiceScheduled) && !SomeResource(after, ServiceWaiting))
            && (after.newStatus <==> service.newStatus || after.status != service.status)
            && after.endpoints == service.endpoints + endpoints
  {
    var after := UpdateResource(service, u, status, endpoints);
    Severity(ResourceStatuses(after.resources));
    forall t
      ensures SomeResource(after, t) <==> t in ResourceStatuses(after.resources)
    {
    }
  }

  lemma RunningFromRank(status: NalejServiceStatus)
    requires ServiceRunning.Rank() <= status.Rank() && status != ServiceError
    ensures status in {ServiceRunning, ServiceTerminating}
  {
    match status {
      case ServiceScheduled =>
      case _ =>
    }
  }

  /** Right after a change, and with nothing terminating, running means no pending check. */
  lemma RunningIffNothingPending(service: Service, u: string, status: NalejServiceStatus, endpoints: seq<EndpointInstance>)
    requires u in service.resources && service.resources[u].status != status && Conserved(service)
    requires forall r | r in service.resources && r != u :: service.resources[r].status != ServiceTerminating
    requires status != ServiceTerminating
    ensures var after := UpdateResource(service, u, status, endpoints);
            after.status == ServiceRunning <==> after.numPendingChecks == 0
  {
    StatusAfterChange(service, u, status, endpoints);
    var after := UpdateResource(service, u, status, endpoints);
    assert forall r | r in after.resources :: after.resources[r].status != ServiceTerminating;
  }

  /** A service that has resources and no pending check is running. */
  ghost predicate Settled(service: Service) {
    service.resources != map[] && NotRunningResources(service.resources) == {} ==> service.status == ServiceRunning
  }

  /** Nothing overwrites the status of services from above. */
  ghost predicate LeavesServices(op: Op) {
    && !op.OpSetAppStatus?
    && (op.OpSetEntryStatus? ==> op.fragmentStatus != FragmentTerminating)
  }

  ghost predicate Sound(st: State) {
    AllConserved(st) && forall f, s | HasService(st, f, s) :: Settled(st[f].services[s])
  }

  lemma StepSettles(st: State, op: Op)
    requires Sound(st) && Regular(op) && LeavesServices(op)
    ensures Sound(Step(st, op))
  {
    StepConserves(st, op);
    forall f, s | HasService(Step(st, op), f, s)
      ensures Settled(Step(st, op)[f].services[s])
    {
      ServiceSettles(st, op, f, s);
    }
  }

  lemma ServiceSettles(st: State, op: Op, f: string, s: string)
    requires Sound(st) && Regular(op) && LeavesServices(op) && HasService(Step(st, op), f, s)
    ensures Settled(Step(st, op)[f].services[s])
  {
    assert NotRunningResources(NewService().resources) == {};
    assert HasService(st, f, s) ==> Conserved(st[f].services[s]) && Settled(st[f].services[s]);
    var st' := Step(st, op);
    match op {
      case OpAddPendingResource(g, t, u, status) =>
        if HasService(st, g, t) && !HasResource(st, g, t, u) {
          assert u in NotRunningResources(st'[g].services[t].resources);
        }
      case OpSetResourceStatus(g, t, u, status, endpoints) =>
        if HasResource(st, g, t, u) && st[g].services[t].resources[u].status != status {
          ChangeSettles(st[g].services[t], u, status, endpoints);
        }
      case _ =>
    }
  }

  lemma ChangeSettles(service: Service, u: string, status: NalejServiceStatus, endpoints: seq<EndpointInstance>)
    requires u in service.resources && service.resources[u].status != status && Conserved(service)
    ensures Settled(UpdateResource(service, u, status, endpoints))
  {
    StatusAfterChange(service, u, status, endpoints);
    var after := UpdateResource(service, u, status, endpoints);
    assert forall r | r in after.resources :: r in NotRunningResources(after.resources) || after.resources[r].status == ServiceRunning;
  }

  /** Over every run that never forces a status onto services, a service with resources and zero
      pending checks is running. */
  lemma {:induction false} RunSettles(st: State, ops: seq<Op>, f: string, s: string)
    requires Sound(st) && forall op | op in ops :: Regular(op) && LeavesServices(op)
    requires HasService(Run(st, ops), f, s)
    ensures var service := Run(st, ops)[f].services[s];
            service.resources != map[] && service.numPendingChecks == 0 ==> service.status == ServiceRunning
    decreases |ops|
  {
    if ops == [] {
      assert Conserved(st[f].services[s]) && Settled(st[f].services[s]);
    } else {
      assert Regular(ops[0]) && LeavesServices(ops[0]);
      StepSettles(st, ops[0]);
      RunSettles(Step(st, ops[0]), ops[1..], f, s);
    }
  }

  ghost predicate SomeService(entry: Entry, status: NalejServiceStatus) {
    exists t :: t in entry.services && entry.services[t].status == status
  }

  /** After a change of a resource, the fragment's status is never terminating or retrying; it is an
      error exactly if a service is in error, else waiting exactly if one is scheduled or waiting, else
      deploying exactly if one is; and done exactly if every service is running or terminating. */
  lemma FragmentStatusAfterChange(st: State, f: string, s: string, u: string, status: NalejServiceStatus,
                                  endpoints: seq<EndpointInstance>)
    requires HasResource(st, f, s, u) && st[f].services[s].resources[u].status != status
    ensures var entry := SetResourceStatus(st, f, s, u, status, endpoints)[f];
            && entry.status !in {FragmentTerminating, FragmentRetrying}
            && (entry.status == FragmentError <==> SomeService(entry, ServiceError))
            && (entry.status == FragmentWaiting <==>
                !SomeService(entry, ServiceError) && (SomeService(entry, ServiceScheduled) || SomeService(entry, ServiceWaiting)))
            && (entry.status == FragmentDeploying <==>
                SomeService(entry, ServiceDeploying) && !SomeService(entry, ServiceError)
                && !SomeService(entry, ServiceScheduled) && !SomeService(entry, ServiceWaiting))
            && (entry.status == FragmentDone <==>
                forall t | t in entry.services :: entry.services[t].status in {ServiceRunning, ServiceTerminating})
  {
    var entry := SetResourceStatus(st, f, s, u, status, endpoints)[f];
    var all := ServiceStatuses(entry.services);
    Severity(all);
    forall t
      ensures SomeService(entry, t) <==> t in all
    {
    }
    forall t | t in entry.services
      ensures entry.services[t].status in all
    {
    }
  }

  /** Forcing a status on an application puts it on each of its fragments, and what it means for services
      on theirs, flagging those that change; a fragment that has the status already is left alone. */
  lemma ForcedStatuses(st: State, app: string, status: FragmentStatus, f: string, s: string)
    requires HasService(st, f, s)
    ensures HasService(SetAppStatus(st, app, status), f, s)
    ensures var was, now := st[f], SetAppStatus(st, app, status)[f];
            if was.appInstanceId != app || was.status == status then now == was
            else
              && now.status == status && now.newStatus
              && (status == FragmentWaiting ==> now.services[s].status == ServiceWaiting)
              && (status == FragmentDeploying ==> now.services[s].status == ServiceDeploying)
              && (status == FragmentRetrying ==> now.services[s].status == ServiceDeploying)
              && (status == FragmentDone ==> now.services[s].status == ServiceRunning)
              && (status == FragmentError ==> now.services[s].status == ServiceError)
              && (status == FragmentTerminating ==> now.services[s].status == ServiceTerminating)
              && (now.services[s].newStatus <==> was.services[s].newStatus || now.services[s].status != was.services[s].status)
              && now.services[s].resources == was.services[s].resources
  {
  }

  // ---------- Sizes ----------

  /** Adding an entry is a union biased to what is there; adding it again changes nothing. */
  lemma AddEntryIsUnion(st: State, f: string, added: Entry)
    ensures var st' := AddEntry(st, f, added);
            && (forall s | HasService(st, f, s) :: HasService(st', f, s) && st'[f].services[s] == st[f].services[s])
            && (forall s | s in added.services && !HasService(st, f, s) ::
                  HasService(st', f, s) && st'[f].services[s] == added.services[s])
            && (forall s | HasService(st', f, s) :: HasService(st, f, s) || s in added.services)
            && AddEntry(st', f, added) == st'
  {
    var st' := AddEntry(st, f, added);
    AppendTwice(st'[f], added);
    assert AddEntry(st', f, added) == st';
  }

  /** The number of services grows by the services that are new, and so do the entry's own
      counters when the fragment is known. */
  lemma AddEntryGrowth(st: State, f: string, added: Entry)
    ensures var st' := AddEntry(st, f, added);
            var news := set s | s in added.services && !HasService(st, f, s);
            && NumServices(st') == NumServices(st) + |news|
            && (f in st ==>
                  && st'[f].numPendingChecks == st[f].numPendingChecks + |news|
                  && st'[f].totalServices == st[f].totalServices + |news|)
  {
    var st' := AddEntry(st, f, added);
    var news := set s | s in added.services && !HasService(st, f, s);
    if f in st {
      assert news == NewServices(st[f], added);
      UnionSize(st'[f].services.Keys, st[f].services.Keys, news);
    } else {
      assert news == added.services.Keys;
    }
    ChangedEntrySize(st, f, st'[f]);
  }

  lemma UnionSize(all: set<string>, olds: set<string>, news: set<string>)
    requires all == olds + news && olds !! news
    ensures |all| == |olds| + |news|
  {
  }

  lemma AppendTwice(entry: Entry, added: Entry)
    requires added.services.Keys <= entry.services.Keys
    ensures AppendServices(entry, added) == entry
  {
    assert NewServices(entry, added) == {};
    assert added.services + entry.services == entry.services;
  }

  lemma ChangedEntrySize(st: State, f: string, entry: Entry)
    ensures NumServices(st[f := entry]) == NumServices(st) - (if f in st then |st[f].services| else 0) + |entry.services|
  {
    var sizes := map g | g in st :: |st[g].services|;
    var st' := st[f := entry];
    var sizes' := map g | g in st' :: |st'[g].services|;
    assert sizes' == sizes[f := |entry.services|];
    TotalUpdate(sizes, f, |entry.services|);
  }

  /** Removing an entry takes away exactly its services and resources. */
  lemma RemoveEntryShrinks(st: State, f: string)
    requires f in st
    ensures NumServices(RemoveEntry(st, f)) == NumServices(st) - |st[f].services|
    ensures NumResources(RemoveEntry(st, f)) == NumResources(st) - NumResourcesOfEntry(st[f])
  {
    var rest := RemoveEntry(st, f);
    TotalWithout(map g | g in st :: |st[g].services|, map g | g in rest :: |rest[g].services|, f);
    TotalWithout(map g | g in st :: NumResourcesOfEntry(st[g]), map g | g in rest :: NumResourcesOfEntry(rest[g]), f);
  }

  ghost function OnlyTerminating(st: State): State {
    map f | f in st && st[f].status == FragmentTerminating :: st[f]
  }

  /** A notification round removes exactly the terminating entries: what they held is what the
      sizes lose. */
  lemma DropTerminatingShrinks(st: State)
    ensures NumServices(st) == NumServices(DropTerminating(st)) + NumServices(OnlyTerminating(st))
    ensures NumResources(st) == NumResources(DropTerminating(st)) + NumResources(OnlyTerminating(st))
  {
    var kept, gone := DropTerminating(st), OnlyTerminating(st);
    TotalSplit(map f | f in st :: |st[f].services|,
               map f | f in kept :: |kept[f].services|,
               map f | f in gone :: |gone[f].services|);
    TotalSplit(map f | f in st :: NumResourcesOfEntry(st[f]),
               map f | f in kept :: NumResourcesOfEntry(kept[f]),
               map f | f in gone :: NumResourcesOfEntry(gone[f]));
  }

  // ---------- What operations touch ----------

  /** The operation is about this fragment. */
  predicate Concerns(op: Op, st: State, f: string) {
    match op
    case OpAddEntry(g, _) => f == g
    case OpSetEntryStatus(g, _) => f == g
    case OpSetAppStatus(app, _) => f in st && st[f].appInstanceId == app
    case OpUpdateAppStatus(g) => f == g
    case OpAddPendingResource(g, _, _, _) => f == g
    case OpRemovePendingResource(g, _, _) => f == g
    case OpSetResourceStatus(g, _, _, _, _) => f == g
    case OpDropTerminating => f in st && st[f].status == FragmentTerminating
    case OpResetUnnotified => f in st && PendingServices(st[f]) != {}
    case OpRemoveEntry(g) => f == g
  }

  /** No operation touches a fragment it is not about - a clearing of flags only takes an entry's own,
      if it has no services - and none changes the application or the namespace of any. */
  lemma OthersStay(st: State, op: Op, f: string)
    ensures !Concerns(op, st, f) ==>
              && (f in Step(st, op) <==> f in st)
              && (f in st && st[f].services.Keys != {} ==> Step(st, op)[f] == st[f])
    ensures f in st && f in Step(st, op) ==>
              Step(st, op)[f].appInstanceId == st[f].appInstanceId && Step(st, op)[f].namespace == st[f].namespace
  {
    if op == OpResetUnnotified && f in st && st[f].services.Keys != {} && PendingServices(st[f]) == {} {
      var s :| s in st[f].services;
      assert s !in PendingServices(st[f]);
      forall t | t in st[f].services
        ensures Unflag(st[f]).services[t] == st[f].services[t]
      {
        assert t !in PendingServices(st[f]);
      }
      assert Unflag(st[f]).services == st[f].services;
    }
  }

  /** An error of SetResourceStatus names the outermost level that is missing. */
  lemma MissingLevel(st: State, f: string, s: string, u: string)
    requires !HasResource(st, f, s, u)
    ensures Missing(st, f, s, u) == AppNotMonitored <==> f !in st
    ensures Missing(st, f, s, u) == ResourceNotMonitored <==> HasService(st, f, s)
  {
  }

  /** A resource that is running is not waited for. */
  ghost predicate NoneWaitedInVain(st: State) {
    forall f, s, u | HasResource(st, f, s, u) ::
      var r := st[f].services[s].resources[u];
      r.status == ServiceRunning ==> !r.pending
  }

  lemma {:induction false} RunWaitsForNone(st: State, ops: seq<Op>)
    requires NoneWaitedInVain(st) && forall op | op in ops :: Regular(op)
    ensures NoneWaitedInVain(Run(st, ops))
    decreases |ops|
  {
    if ops != [] {
      assert Regular(ops[0]);
      StepWaitsForNone(st, ops[0]);
      RunWaitsForNone(Step(st, ops[0]), ops[1..]);
    }
  }

  lemma StepWaitsForNone(st: State, op: Op)
    requires NoneWaitedInVain(st) && Regular(op)
    ensures NoneWaitedInVain(Step(st, op))
  {
    forall f, s, u | HasResource(Step(st, op), f, s, u)
      ensures var r := Step(st, op)[f].services[s].resources[u];
              r.status == ServiceRunning ==> !r.pending
    {
      if HasResource(st, f, s, u) {
        var r := st[f].services[s].resources[u];
      }
    }
  }

  /** A new resource is waited for until it runs, and then never again: however it is added, changed and
      added again, it is pending exactly if it was never running since it was first added. */
  lemma WaitedUntilRunning(service: Service, u: string, added: NalejServiceStatus, status: NalejServiceStatus,
                           endpoints: seq<EndpointInstance>)
    requires u !in service.resources
    ensures var once := AddResource(service, u, added);
            && once.resources == service.resources[u := Resource(added, true)]
            && once.numPendingChecks == service.numPendingChecks + 1
            && AddResource(once, u, status) == once
            && (status != added ==>
                  var changed := UpdateResource(once, u, status, endpoints);
                  && (changed.resources[u].pending <==> status != ServiceRunning)
                  && forall again: NalejServiceStatus | again != status ::
                       UpdateResource(changed, u, again, []).resources[u].pending <==>
                       status != ServiceRunning && again != ServiceRunning)
  {
  }

  /** The removal of a resource at the level of the monitor: it is not waited for any more, but keeps its
      status; one check less for its service, and one for the entry exactly if that was the service's
      last. */
  lemma RemovalFulfils(st: State, f: string, s: string, u: string)
    requires HasResource(st, f, s, u)
    ensures var before, after := st[f], RemovePendingResource(st, f, s, u)[f];
            && HasResource(RemovePendingResource(st, f, s, u), f, s, u)
            && !after.services[s].resources[u].pending
            && after.services[s].resources[u].status == before.services[s].resources[u].status
            && after.services[s].numPendingChecks == before.services[s].numPendingChecks - 1
            && after.numPendingChecks ==
               (if before.services[s].numPendingChecks == 1 then before.numPendingChecks - 1 else before.numPendingChecks)
            && after.services[s].status == before.services[s].status && after.status == before.status
  {
  }

  /** A recount of the entry's checks is zero exactly if every service is running, and one more if one
      more is not. */
  lemma RecountCounts(st: State, f: string, s: string)
    requires HasService(st, f, s)
    ensures var checks := UpdateAppStatus(st, f)[f].numPendingChecks;
            var without := st[f := st[f].(services := map t | t in st[f].services && t != s :: st[f].services[t])];
            && checks == UpdateAppStatus(without, f)[f].numPendingChecks + (if st[f].services[s].status == ServiceRunning then 0 else 1)
            && checks >= 0
            && UpdateAppStatus(st, f)[f].services == st[f].services
  {
    var all := NotRunningServices(st[f].services);
    var rest := NotRunningServices(map t | t in st[f].services && t != s :: st[f].services[t]);
    assert all == if st[f].services[s].status == ServiceRunning then rest else rest + {s};
  }
}
