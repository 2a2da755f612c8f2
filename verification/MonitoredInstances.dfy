/** The in-memory monitor as the objects it is made of: an entry per fragment, each holding the
    objects of its services. Every method is proved against the function of MonitorModel of the
    same name: the ghost field `value` is the value that the object stands for, and `Valid` ties
    it to the real fields.

    Ownership needs no extra state. An object's identifiers never change, and the maps file each
    object under its own identifiers, so no object can be in two places. */
module MonitoredInstances {
  import opened Entities
  import opened M = MonitorModel
  import opened Totals

  class MonitoredServiceEntry {
    const fragmentId: string
    const serviceInstanceId: string
    var resources: map<string, Resource>
    var status: NalejServiceStatus
    var newStatus: bool
    var numPendingChecks: int
    var endpoints: seq<EndpointInstance>

    constructor (fragmentId: string, serviceInstanceId: string, service: Service)
      ensures this.fragmentId == fragmentId && this.serviceInstanceId == serviceInstanceId
      ensures View() == service
    {
      this.fragmentId, this.serviceInstanceId := fragmentId, serviceInstanceId;
      resources, status, newStatus := service.resources, service.status, service.newStatus;
      numPendingChecks, endpoints := service.numPendingChecks, service.endpoints;
    }

    ghost function View(): Service
      reads this
    {
      Service(resources, status, newStatus, numPendingChecks, endpoints)
    }

    method AddPendingResource(uid: string, resourceStatus: NalejServiceStatus)
      modifies this`resources, this`numPendingChecks
      ensures View() == AddResource(old(View()), uid, resourceStatus)
    {
      if uid in resources {
        return;
      }
      resources := resources[uid := Resource(resourceStatus, true)];
      numPendingChecks := numPendingChecks + 1;
    }

    /** The resource is no more waited for. */
    method RemovePendingResource(uid: string)
      modifies this`resources, this`numPendingChecks
      ensures uid !in old(resources) ==> View() == old(View())
      ensures uid in old(resources) ==>
                View() == old(View()).(resources := old(resources)[uid := old(resources)[uid].(pending := false)],
                                       numPendingChecks := old(numPendingChecks) - 1)
    {
      if uid !in resources {
        return;
      }
      resources := resources[uid := resources[uid].(pending := false)];
      numPendingChecks := numPendingChecks - 1;
    }

    /** The worst status among the resources, scanned in whatever order the map is iterated. */
    method WorstResourceStatus() returns (finalStatus: NalejServiceStatus)
      ensures finalStatus == Worst(ResourceStatuses(resources))
    {
      finalStatus := ServiceRunning;
      var todo := resources.Keys;
      ghost var seen: set<NalejServiceStatus> := {};
      while todo != {}
        invariant todo <= resources.Keys
        invariant ServiceError !in seen && finalStatus == Worst(seen)
        invariant seen <= ResourceStatuses(resources)
        invariant forall u | u in resources :: u in todo || resources[u].status in seen
        decreases todo
      {
        var u :| u in todo;
        ScanStep(seen, resources[u].status, finalStatus);
        assert resources[u].status in ResourceStatuses(resources);
        if resources[u].status == ServiceError {
          finalStatus := ServiceError;
          return;
        } else if resources[u].status.Rank() < finalStatus.Rank() {
          finalStatus := resources[u].status;
        }
        seen := seen + {resources[u].status};
        todo := todo - {u};
      }
      assert seen == ResourceStatuses(resources);
    }

    /** The part of the monitor's SetResourceStatus that concerns the service: the resource takes
        its new status, the checks are counted, and the service takes its worst resource's status. */
    method UpdateResource(uid: string, resourceStatus: NalejServiceStatus, newEndpoints: seq<EndpointInstance>)
      requires uid in resources && resources[uid].status != resourceStatus
      modifies this
      ensures View() == M.UpdateResource(old(View()), uid, resourceStatus, newEndpoints)
    {
      // A resource that leaves the running state is one more check to fulfil.
      if resources[uid].status == ServiceRunning {
        numPendingChecks := numPendingChecks + 1;
      }
      resources := resources[uid := resources[uid].(status := resourceStatus)];
      endpoints := endpoints + newEndpoints;
      if resources[uid].status == ServiceRunning {
        RemovePendingResource(uid);
      }
      assert View() == M.ChangeResource(old(View()), uid, resourceStatus, newEndpoints);
      var previousStatus := status;
      var finalStatus := WorstResourceStatus();
      if finalStatus != previousStatus {
        newStatus := true;
      }
      status := finalStatus;
    }
  }

  class MonitoredAppEntry {
    const fragmentId: string
    const appInstanceId: string
    const namespace: string
    var services: map<string, MonitoredServiceEntry>
    var status: FragmentStatus
    var newStatus: bool
    var numPendingChecks: int
    var totalServices: int
    ghost var value: Entry

    constructor (fragmentId: string, entry: Entry, services: map<string, MonitoredServiceEntry>)
      requires services.Keys == entry.services.Keys
      requires forall s | s in services ::
          && services[s].serviceInstanceId == s && services[s].fragmentId == fragmentId
          && services[s].View() == entry.services[s]
      ensures Valid() && this.fragmentId == fragmentId && value == entry && this.services == services
    {
      this.fragmentId, this.appInstanceId, this.namespace := fragmentId, entry.appInstanceId, entry.namespace;
      this.services, this.status, this.newStatus := services, entry.status, entry.newStatus;
      this.numPendingChecks, this.totalServices := entry.numPendingChecks, entry.totalServices;
      value := entry;
    }

    /** Each service is filed under its own identifiers. */
    ghost predicate Owned()
      reads this`services
    {
      forall s | s in services :: services[s].serviceInstanceId == s && services[s].fragmentId == fragmentId
    }

    ghost predicate Valid()
      reads this, services.Values
    {
      && Owned()
      && value.services.Keys == services.Keys
      && (forall s | s in services :: value.services[s] == services[s].View())
      && value.appInstanceId == appInstanceId && value.namespace == namespace
      && value.status == status && value.newStatus == newStatus
      && value.numPendingChecks == numPendingChecks && value.totalServices == totalServices
    }

    /** The entry has these statuses and services by now, and stands for them. */
    ghost method StandFor(entry: Entry)
      requires Owned() && entry.services.Keys == services.Keys
      requires forall s | s in services :: entry.services[s] == services[s].View()
      requires entry == Entry(appInstanceId, namespace, entry.services, status, newStatus, numPendingChecks, totalServices)
      modifies this`value
      ensures Valid() && value == entry
    {
      value := entry;
    }

    /** Add the services of another entry that this one does not have yet. */
    method AppendServices(added: MonitoredAppEntry)
      requires Valid() && added.Valid() && added.fragmentId == fragmentId
      modifies this`services, this`numPendingChecks, this`totalServices, this`value
      ensures Valid()
      ensures forall s | s in services ::
          || (s in old(services) && services[s] == old(services[s]))
          || (s in old(added.services) && services[s] == old(added.services)[s])
      ensures value == M.AppendServices(old(value), old(added.value))
    {
      ghost var mine, theirs := value, added.value;
      ghost var news := AppendMissing(added);
      assert news == NewServices(mine, theirs);
      value := M.AppendServices(mine, theirs);
      assert forall s :: s in value.services <==> s in mine.services || s in news;
      forall s | s in services
        ensures value.services[s] == services[s].View()
      {
      }
    }

    /** The loop of AppendServices. */
    method AppendMissing(added: MonitoredAppEntry) returns (ghost news: set<string>)
      requires added.Owned()
      modifies this`services, this`numPendingChecks, this`totalServices
      ensures forall s :: s in news <==> s in old(added.services) && s !in old(services)
      ensures forall s :: s in services <==> s in old(services) || s in news
      ensures forall s | s in old(services) :: services[s] == old(services)[s]
      ensures forall s | s in news :: services[s] == old(added.services)[s]
      ensures numPendingChecks == old(numPendingChecks) + |news|
      ensures totalServices == old(totalServices) + |news|
    {
      var theirs := added.services;
      var todo := theirs.Keys;
      news := {};
      while todo != {}
        invariant todo <= theirs.Keys
        invariant forall s :: s in news <==> s in theirs && s !in todo && s !in old(services)
        invariant forall s :: s in services <==> s in old(services) || s in news
        invariant forall s | s in old(services) :: services[s] == old(services)[s]
        invariant forall s | s in news :: services[s] == theirs[s]
        invariant numPendingChecks == old(numPendingChecks) + |news|
        invariant totalServices == old(totalServices) + |news|
        decreases todo
      {
        var s :| s in todo;
        var serv := theirs[s];
        if serv.serviceInstanceId !in services {
          services := services[serv.serviceInstanceId := serv];
          numPendingChecks := numPendingChecks + 1;
          totalServices := totalServices + 1;
          news := news + {s};
        }
        todo := todo - {s};
      }
    }

    /** The worst status among the services, in whatever order the map is iterated. */
    method WorstServiceStatus() returns (newAppStatus: NalejServiceStatus)
      requires Valid()
      ensures newAppStatus == Worst(ServiceStatuses(value.services))
    {
      newAppStatus := ServiceRunning;
      var todo := services.Keys;
      ghost var seen: set<NalejServiceStatus> := {};
      while todo != {}
        invariant todo <= services.Keys
        invariant ServiceError !in seen && newAppStatus == Worst(seen)
        invariant seen <= ServiceStatuses(value.services)
        invariant forall s | s in services :: s in todo || value.services[s].status in seen
        decreases todo
      {
        var s :| s in todo;
        assert value.services[s].status in ServiceStatuses(value.services);
        ScanStep(seen, services[s].status, newAppStatus);
        if services[s].status == ServiceError {
          newAppStatus := ServiceError;
          return;
        } else if services[s].status.Rank() < newAppStatus.Rank() {
          newAppStatus := services[s].status;
        }
        seen := seen + {services[s].status};
        todo := todo - {s};
      }
      assert seen == ServiceStatuses(value.services);
    }

    /** How many services are not running. */
    method CountNotRunning() returns (pendingServices: int)
      requires Valid()
      ensures pendingServices == |NotRunningServices(value.services)|
    {
      pendingServices := 0;
      var todo := services.Keys;
      ghost var counted: set<string> := {};
      while todo != {}
        invariant todo <= services.Keys
        invariant pendingServices == |counted|
        invariant forall s | s in counted :: s in services && s !in todo && services[s].status != ServiceRunning
        invariant forall s | s in services && s !in todo && services[s].status != ServiceRunning :: s in counted
        decreases todo
      {
        var s :| s in todo;
        if services[s].status != ServiceRunning {
          pendingServices := pendingServices + 1;
          counted := counted + {s};
        }
        todo := todo - {s};
      }
      assert counted == NotRunningServices(value.services);
    }

    /** Set the status; a terminating entry takes its services with it, without flagging them. */
    method SetStatus(newEntryStatus: FragmentStatus)
      requires Valid()
      modifies this`status, this`newStatus, this`value, services.Values`status
      ensures Valid()
      ensures value == SetStatusOfEntry(old(value), newEntryStatus)
    {
      if newEntryStatus != status {
        newStatus := true;
      }
      status := newEntryStatus;
      if status == FragmentTerminating {
        TerminateServices();
      }
      StandFor(SetStatusOfEntry(value, newEntryStatus));
    }

    method TerminateServices()
      requires Owned()
      modifies services.Values`status
      ensures forall s | s in services :: services[s].status == ServiceTerminating
    {
      var todo := services.Keys;
      while todo != {}
        invariant todo <= services.Keys
        invariant forall s | s in services && s !in todo :: services[s].status == ServiceTerminating
        decreases todo
      {
        var s :| s in todo;
        services[s].status := ServiceTerminating;
        todo := todo - {s};
      }
    }

    /** Set the status and force it onto every service, flagging those that change. */
    method ForceStatus(newEntryStatus: FragmentStatus)
      requires Valid()
      modifies this`status, this`newStatus, this`value, services.Values`status, services.Values`newStatus
      ensures Valid()
      ensures value == ForceEntry(old(value), newEntryStatus)
    {
      if newEntryStatus != status {
        newStatus := true;
        status := newEntryStatus;
        ForceServices(FragmentStatusToNalejServiceStatus(newEntryStatus));
        StandFor(ForceEntry(value, newEntryStatus));
      }
    }

    method ForceServices(forced: NalejServiceStatus)
      requires Owned()
      modifies services.Values`status, services.Values`newStatus
      ensures forall s | s in services :: services[s].status == forced
      ensures forall s | s in services ::
          services[s].newStatus == (old(services[s].newStatus) || old(services[s].status) != forced)
    {
      var todo := services.Keys;
      while todo != {}
        invariant todo <= services.Keys
        invariant forall s | s in services ::
            services[s].status == if s in todo then old(services[s].status) else forced
        invariant forall s | s in services ::
            services[s].newStatus == (old(services[s].newStatus) || (s !in todo && old(services[s].status) != forced))
        decreases todo
      {
        var s :| s in todo;
        if services[s].status != forced {
          services[s].status := forced;
          services[s].newStatus := true;
        }
        todo := todo - {s};
      }
    }

    method ResetFlags()
      requires Valid()
      modifies this`newStatus, this`value, services.Values`newStatus
      ensures Valid()
      ensures value == Unflag(old(value))
    {
      newStatus := false;
      var todo := services.Keys;
      while todo != {}
        invariant todo <= services.Keys
        invariant !newStatus && value == old(value)
        invariant forall s | s in services ::
            services[s].newStatus == (s in todo && old(services[s].newStatus))
        decreases todo
      {
        var s :| s in todo;
        if services[s].newStatus {
          services[s].newStatus := false;
        }
        todo := todo - {s};
      }
      StandFor(Unflag(value));
    }

    /** The services that the notifier has to report. */
    method FlaggedServices() returns (pendingServices: map<string, MonitoredServiceEntry>)
      requires Valid()
      ensures pendingServices.Keys == PendingServices(value)
      ensures forall s | s in pendingServices :: pendingServices[s] == services[s]
    {
      pendingServices := map[];
      var todo := services.Keys;
      while todo != {}
        invariant todo <= services.Keys
        invariant forall s :: s in pendingServices <==> s in PendingServices(value) && s !in todo
        invariant forall s | s in pendingServices :: pendingServices[s] == services[s]
        decreases todo
      {
        var s :| s in todo;
        var x := services[s];
        if newStatus || x.newStatus {
          pendingServices := pendingServices[x.serviceInstanceId := x];
        }
        todo := todo - {s};
      }
    }

    /** How many resources the services have together. */
    method CountResources() returns (accum: nat)
      requires Valid()
      ensures accum == NumResourcesOfEntry(value)
    {
      accum := 0;
      var todo := services.Keys;
      ghost var left := map s | s in value.services :: |value.services[s].resources|;
      while todo != {}
        invariant todo <= services.Keys && left.Keys == todo
        invariant forall s | s in todo :: left[s] == |services[s].resources|
        invariant accum + Total(left) == NumResourcesOfEntry(value)
        decreases todo
      {
        var s :| s in todo;
        TotalRemove(left, s);
        accum := accum + |services[s].resources|;
        left := left - {s};
        todo := todo - {s};
      }
    }

    /** One service was changed through its own methods. */
    ghost method ServiceChanged(s: string)
      requires Owned() && s in services && value.services.Keys == services.Keys
      requires forall t | t in services && t != s :: value.services[t] == services[t].View()
      requires value.appInstanceId == appInstanceId && value.namespace == namespace
      requires value.status == status && value.newStatus == newStatus
      requires value.numPendingChecks == numPendingChecks && value.totalServices == totalServices
      modifies this`value
      ensures Valid()
      ensures value == old(value).(services := old(value).services[s := services[s].View()])
    {
      value := value.(services := value.services[s := services[s].View()]);
    }

    method AddPendingResource(s: string, uid: string, resourceStatus: NalejServiceStatus)
      requires Valid() && s in services
      modifies this`value, services[s]
      ensures Valid()
      ensures value == old(value).(services :=
                old(value).services[s := AddResource(old(value).services[s], uid, resourceStatus)])
    {
      services[s].AddPendingResource(uid, resourceStatus);
      ServiceChanged(s);
    }

    method RemovePendingResource(s: string, uid: string)
      requires Valid() && s in services && uid in services[s].resources
      modifies this`value, this`numPendingChecks, services[s]
      ensures Valid()
      ensures value == RemoveResource(old(value), s, uid)
    {
      services[s].RemovePendingResource(uid);
      ServiceChanged(s);
      if services[s].numPendingChecks == 0 {
        FulfilCheck();
      }
    }

    method FulfilCheck()
      requires Valid()
      modifies this`value, this`numPendingChecks
      ensures Valid()
      ensures value == old(value).(numPendingChecks := old(value).numPendingChecks - 1)
    {
      numPendingChecks := numPendingChecks - 1;
      value := value.(numPendingChecks := value.numPendingChecks - 1);
    }

    /** The service takes the change, and the entry the worst status of its services. */
    method UpdateResource(s: string, uid: string, resourceStatus: NalejServiceStatus, newEndpoints: seq<EndpointInstance>)
      requires Valid() && s in services
      requires uid in services[s].resources && services[s].resources[uid].status != resourceStatus
      modifies this`value, this`status, services[s]
      ensures Valid()
      ensures value == WithService(old(value), s,
                                   M.UpdateResource(old(value).services[s], uid, resourceStatus, newEndpoints))
    {
      services[s].UpdateResource(uid, resourceStatus, newEndpoints);
      ServiceChanged(s);
      TakeWorstStatus();
    }

    method TakeWorstStatus()
      requires Valid()
      modifies this`value, this`status
      ensures Valid()
      ensures value == old(value).(status := ServicesToFragmentStatus(Worst(ServiceStatuses(old(value).services))))
    {
      var newAppStatus := WorstServiceStatus();
      status := ServicesToFragmentStatus(newAppStatus);
      value := value.(status := ServicesToFragmentStatus(newAppStatus));
    }

    /** Recount the services that are not running. */
    method Recount()
      requires Valid()
      modifies this`value, this`numPendingChecks
      ensures Valid()
      ensures value == old(value).(numPendingChecks := |NotRunningServices(old(value).services)|)
    {
      var pendingServices := CountNotRunning();
      if numPendingChecks != pendingServices {
        numPendingChecks := pendingServices;
        value := value.(numPendingChecks := pendingServices);
      }
    }
  }

  /** What the notifier is given about one fragment: a copy of the entry's own fields, and the
      flagged services themselves, not copies of them. */
  datatype Notification = Notification(
    fragmentId: string,
    status: FragmentStatus,
    services: map<string, MonitoredServiceEntry>)

  /** The notification says about fragment `f` what its entry and its flagged services say. */
  ghost predicate Reports(n: Notification, f: string, entry: Entry)
    reads n.services.Values
  {
    && n.fragmentId == f && n.status == entry.status
    && n.services.Keys == PendingServices(entry)
    && forall s | s in n.services :: n.services[s].View() == entry.services[s]
  }

  /** The notifications are about exactly the fragments with something to report, each once. */
  ghost predicate AreNotifications(ns: seq<Notification>, st: State)
    reads set n, x | n in ns && x in n.services.Values :: x
  {
    && (forall i | 0 <= i < |ns| ::
          && ns[i].fragmentId in st && Reports(ns[i], ns[i].fragmentId, st[ns[i].fragmentId])
          && ns[i].services != map[])
    && (forall i, j | 0 <= i < j < |ns| :: ns[i].fragmentId != ns[j].fragmentId)
    && (forall f | f in st && PendingServices(st[f]) != {} ::
          exists i :: 0 <= i < |ns| && ns[i].fragmentId == f)
  }

  class MemoryMonitoredInstances {
    var monitoredEntries: map<string, MonitoredAppEntry>
    ghost var value: State
    ghost var repr: set<object>

    constructor ()
      ensures Valid() && value == map[] && repr == {}
    {
      monitoredEntries := map[];
      value, repr := map[], {};
    }

    /** Entry `f` is filed under its own identifier and stands for `value[f]`. */
    ghost predicate EntryValid(f: string)
      requires f in monitoredEntries && f in value
      reads this, repr
    {
      && monitoredEntries[f] in repr
      && (forall s | s in monitoredEntries[f].services :: monitoredEntries[f].services[s] in repr)
      && monitoredEntries[f].fragmentId == f
      && monitoredEntries[f].Valid()
      && monitoredEntries[f].value == value[f]
    }

    ghost predicate Valid()
      reads this, repr
    {
      && this !in repr
      && value.Keys == monitoredEntries.Keys
      && forall f | f in monitoredEntries :: EntryValid(f)
    }

    /** One entry was changed through its own methods. */
    ghost method EntryChanged(f: string)
      requires this !in repr && value.Keys == monitoredEntries.Keys && f in monitoredEntries
      requires monitoredEntries[f].fragmentId == f && monitoredEntries[f].Valid() && monitoredEntries[f] in repr
      requires forall s | s in monitoredEntries[f].services :: monitoredEntries[f].services[s] in repr
      requires forall g | g in monitoredEntries && g != f :: EntryValid(g)
      modifies this`value
      ensures Valid()
      ensures value == old(value)[f := monitoredEntries[f].value]
    {
      value := value[f := monitoredEntries[f].value];
      forall g | g in monitoredEntries
        ensures EntryValid(g)
      {
      }
    }

    /** No other entry shares an object with entry `f`: the identifiers differ. */
    twostate lemma OthersUntouched(f: string)
      requires old(Valid()) && f in old(monitoredEntries)
      requires value == old(value) && monitoredEntries == old(monitoredEntries) && repr == old(repr)
      requires forall o | o in repr && o != monitoredEntries[f] && o !in old(monitoredEntries[f].services).Values :: unchanged(o)
      ensures forall g | g in monitoredEntries && g != f :: EntryValid(g)
    {
      assert old(EntryValid(f));
      forall g | g in monitoredEntries && g != f
        ensures EntryValid(g)
      {
        assert old(EntryValid(g));
        assert unchanged(monitoredEntries[g]);
        forall s | s in monitoredEntries[g].services
          ensures unchanged(monitoredEntries[g].services[s])
        {
          assert monitoredEntries[g].services[s].fragmentId == g;
        }
      }
    }

    method SetEntryStatus(fragmentId: string, status: FragmentStatus)
      requires Valid()
      modifies this`value, repr
      ensures Valid()
      ensures value == M.SetEntryStatus(old(value), fragmentId, status)
    {
      if fragmentId in monitoredEntries {
        assert EntryValid(fragmentId);
        monitoredEntries[fragmentId].SetStatus(status);
        OthersUntouched(fragmentId);
        EntryChanged(fragmentId);
      }
    }

    method UpdateAppStatus(fragmentId: string)
      requires Valid()
      modifies this`value, repr
      ensures Valid()
      ensures value == M.UpdateAppStatus(old(value), fragmentId)
    {
      if fragmentId in monitoredEntries {
        assert EntryValid(fragmentId);
        monitoredEntries[fragmentId].Recount();
        OthersUntouched(fragmentId);
        EntryChanged(fragmentId);
      }
    }

    method AddPendingResource(fragmentId: string, serviceInstanceId: string, uid: string, status: NalejServiceStatus)
      returns (added: bool)
      requires Valid()
      modifies this`value, repr
      ensures Valid()
      ensures added == HasService(old(value), fragmentId, serviceInstanceId)
      ensures value == M.AddPendingResource(old(value), fragmentId, serviceInstanceId, uid, status)
    {
      if fragmentId !in monitoredEntries {
        return false;
      }
      assert EntryValid(fragmentId);
      if serviceInstanceId !in monitoredEntries[fragmentId].services {
        return false;
      }
      monitoredEntries[fragmentId].AddPendingResource(serviceInstanceId, uid, status);
      OthersUntouched(fragmentId);
      EntryChanged(fragmentId);
      return true;
    }

    method RemovePendingResource(fragmentId: string, serviceInstanceId: string, uid: string) returns (removed: bool)
      requires Valid()
      modifies this`value, repr
      ensures Valid()
      ensures removed == HasResource(old(value), fragmentId, serviceInstanceId, uid)
      ensures value == M.RemovePendingResource(old(value), fragmentId, serviceInstanceId, uid)
    {
      if fragmentId !in monitoredEntries {
        return false;
      }
      assert EntryValid(fragmentId);
      if serviceInstanceId !in monitoredEntries[fragmentId].services {
        return false;
      }
      if uid !in monitoredEntries[fragmentId].services[serviceInstanceId].resources {
        return false;
      }
      monitoredEntries[fragmentId].RemovePendingResource(serviceInstanceId, uid);
      OthersUntouched(fragmentId);
      EntryChanged(fragmentId);
      return true;
    }

    method IsMonitoredResource(fragmentId: string, serviceInstanceId: string, uid: string) returns (monitored: bool)
      requires Valid()
      ensures monitored == HasResource(value, fragmentId, serviceInstanceId, uid)
    {
      if fragmentId !in monitoredEntries {
        return false;
      }
      assert EntryValid(fragmentId);
      if serviceInstanceId !in monitoredEntries[fragmentId].services {
        return false;
      }
      return uid in monitoredEntries[fragmentId].services[serviceInstanceId].resources;
    }

    /** The look-ups that SetResourceStatus starts with. */
    method Find(fragmentId: string, serviceInstanceId: string, uid: string) returns (err: Option<MonitorError>)
      requires Valid()
      ensures err.None? <==> HasResource(value, fragmentId, serviceInstanceId, uid)
      ensures err.Some? ==> err.value == Missing(value, fragmentId, serviceInstanceId, uid)
      ensures err.None? ==> value[fragmentId].services[serviceInstanceId] ==
                            monitoredEntries[fragmentId].services[serviceInstanceId].View()
    {
      if fragmentId !in monitoredEntries {
        return Some(AppNotMonitored);
      }
      assert EntryValid(fragmentId);
      if serviceInstanceId !in monitoredEntries[fragmentId].services {
        return Some(ServiceNotMonitored);
      }
      if uid !in monitoredEntries[fragmentId].services[serviceInstanceId].resources {
        return Some(ResourceNotMonitored);
      }
      return None;
    }

    method SetResourceStatus(fragmentId: string, serviceInstanceId: string, uid: string,
                             status: NalejServiceStatus, endpoints: seq<EndpointInstance>)
      returns (err: Option<MonitorError>)
      requires Valid()
      modifies this`value, repr
      ensures Valid()
      ensures err.None? <==> HasResource(old(value), fragmentId, serviceInstanceId, uid)
      ensures err.Some? ==> err.value == Missing(old(value), fragmentId, serviceInstanceId, uid)
      ensures value == M.SetResourceStatus(old(value), fragmentId, serviceInstanceId, uid, status, endpoints)
    {
      err := Find(fragmentId, serviceInstanceId, uid);
      if err.Some? {
        return;
      }
      assert EntryValid(fragmentId);
      // Nothing changes if the status is the one it has.
      if monitoredEntries[fragmentId].services[serviceInstanceId].resources[uid].status == status {
        return;
      }
      ChangeResourceStatus(fragmentId, serviceInstanceId, uid, status, endpoints);
    }

    /** The second part of SetResourceStatus: there is a new status to set. */
    method ChangeResourceStatus(f: string, s: string, uid: string, status: NalejServiceStatus, endpoints: seq<EndpointInstance>)
      requires Valid() && HasResource(value, f, s, uid) && value[f].services[s].resources[uid].status != status
      modifies this`value, repr
      ensures Valid()
      ensures value == M.SetResourceStatus(old(value), f, s, uid, status, endpoints)
    {
      assert EntryValid(f);
      var e := monitoredEntries[f];
      e.UpdateResource(s, uid, status, endpoints);
      OthersUntouched(f);
      EntryChanged(f);
    }

    /** A new fragment is filed as it is; a known one gets the services it does not have yet. */
    method AddEntry(toAdd: MonitoredAppEntry)
      requires Valid() && toAdd.Valid()
      modifies this, repr
      ensures Valid()
      ensures repr == old(repr) + {toAdd} + old(toAdd.services).Values
      ensures value == M.AddEntry(old(value), toAdd.fragmentId, old(toAdd.value))
    {
      Adopt(toAdd);
      if toAdd.fragmentId !in monitoredEntries {
        FileEntry(toAdd);
      } else {
        assert old(EntryValid(toAdd.fragmentId));
        AppendToEntry(toAdd);
      }
    }

    ghost method Adopt(toAdd: MonitoredAppEntry)
      requires Valid()
      modifies this`repr
      ensures Valid() && repr == old(repr) + {toAdd} + toAdd.services.Values
    {
      repr := repr + {toAdd} + toAdd.services.Values;
      forall f | f in monitoredEntries
        ensures EntryValid(f)
      {
      }
    }

    method FileEntry(toAdd: MonitoredAppEntry)
      requires Valid() && toAdd.Valid() && toAdd.fragmentId !in monitoredEntries
      requires toAdd in repr && toAdd.services.Values <= repr
      modifies this`monitoredEntries, this`value
      ensures Valid() && value == old(value)[toAdd.fragmentId := toAdd.value]
    {
      monitoredEntries := monitoredEntries[toAdd.fragmentId := toAdd];
      value := value[toAdd.fragmentId := toAdd.value];
      forall f | f in monitoredEntries
        ensures EntryValid(f)
      {
      }
    }

    method AppendToEntry(toAdd: MonitoredAppEntry)
      requires Valid() && toAdd.Valid() && toAdd.fragmentId in monitoredEntries
      requires toAdd in repr && toAdd.services.Values <= repr
      modifies this`value, monitoredEntries[toAdd.fragmentId]
      ensures Valid()
      ensures value == old(value)[toAdd.fragmentId :=
                M.AppendServices(old(value)[toAdd.fragmentId], old(toAdd.value))]
    {
      var f := toAdd.fragmentId;
      assert EntryValid(f);
      monitoredEntries[f].AppendServices(toAdd);
      OthersUntouched(f);
      EntryChanged(f);
    }

    method GetEntry(fragmentId: string) returns (entry: MonitoredAppEntry?)
      requires Valid()
      ensures entry == null <==> fragmentId !in value
      ensures entry != null ==> fragmentId in monitoredEntries && entry == monitoredEntries[fragmentId]
    {
      if fragmentId !in monitoredEntries {
        return null;
      }
      return monitoredEntries[fragmentId];
    }

    method SetAppStatus(appInstanceId: string, status: FragmentStatus)
      requires Valid()
      modifies this`value, repr
      ensures Valid()
      ensures value == M.SetAppStatus(old(value), appInstanceId, status)
    {
      ghost var target := M.SetAppStatus(value, appInstanceId, status);
      var todo := monitoredEntries.Keys;
      while todo != {}
        invariant Valid() && Between(old(value), target, value, todo)
        decreases todo
      {
        var f :| f in todo;
        BetweenNext(old(value), target, value, todo, f);
        ForceEntryStatus(f, appInstanceId, status);
        todo := todo - {f};
      }
      BetweenEnds(old(value), target, value);
    }

    /** One round of the loop of SetAppStatus. */
    method ForceEntryStatus(f: string, appInstanceId: string, status: FragmentStatus)
      requires Valid() && f in monitoredEntries
      modifies this`value, repr
      ensures Valid() && f in old(value)
      ensures value == old(value)[f := ForceEntryOf(old(value)[f], appInstanceId, status)]
    {
      assert EntryValid(f);
      if monitoredEntries[f].appInstanceId == appInstanceId {
        monitoredEntries[f].ForceStatus(status);
        OthersUntouched(f);
        EntryChanged(f);
      }
    }

    /** The status of whichever fragment of the application the iteration meets first. */
    method GetAppStatus(appInstanceId: string) returns (status: Option<FragmentStatus>)
      requires Valid()
      ensures AppStatusAnswer(value, appInstanceId, status)
    {
      var todo := monitoredEntries.Keys;
      while todo != {}
        invariant todo <= monitoredEntries.Keys
        invariant forall f | f in value && f !in todo :: value[f].appInstanceId != appInstanceId
        decreases todo
      {
        var f :| f in todo;
        assert EntryValid(f);
        if monitoredEntries[f].appInstanceId == appInstanceId {
          return Some(monitoredEntries[f].status);
        }
        todo := todo - {f};
      }
      return None;
    }

    method ResetServicesUnnotifiedStatus()
      requires Valid()
      modifies this`value, repr
      ensures Valid()
      ensures value == ResetUnnotified(old(value))
    {
      ghost var target := ResetUnnotified(value);
      var todo := monitoredEntries.Keys;
      while todo != {}
        invariant Valid() && Between(old(value), target, value, todo)
        decreases todo
      {
        var f :| f in todo;
        BetweenNext(old(value), target, value, todo, f);
        ResetEntry(f);
        todo := todo - {f};
      }
      BetweenEnds(old(value), target, value);
    }

    /** One round of the loop of ResetServicesUnnotifiedStatus. */
    method ResetEntry(f: string)
      requires Valid() && f in monitoredEntries
      modifies this`value, repr
      ensures Valid() && f in old(value)
      ensures value == old(value)[f := Unflag(old(value)[f])]
    {
      assert EntryValid(f);
      monitoredEntries[f].ResetFlags();
      OthersUntouched(f);
      EntryChanged(f);
    }

    /** Only these entries stay. */
    method Keep(rest: map<string, MonitoredAppEntry>)
      requires Valid()
      requires forall f | f in rest :: f in monitoredEntries && rest[f] == monitoredEntries[f]
      modifies this`monitoredEntries, this`value
      ensures Valid() && monitoredEntries == rest
      ensures value.Keys == rest.Keys && forall f | f in rest :: value[f] == old(value)[f]
    {
      ghost var kept := map f | f in rest :: value[f];
      monitoredEntries, value := rest, kept;
      forall f | f in rest
        ensures EntryValid(f)
      {
        assert old(EntryValid(f));
      }
    }

    method RemoveEntry(fragmentId: string) returns (removed: bool)
      requires Valid()
      modifies this`monitoredEntries, this`value
      ensures Valid()
      ensures removed == (fragmentId in old(value))
      ensures value == M.RemoveEntry(old(value), fragmentId)
    {
      removed := fragmentId in monitoredEntries;
      if removed {
        var rest := map f | f in monitoredEntries && f != fragmentId :: monitoredEntries[f];
        Keep(rest);
      }
      assert value == M.RemoveEntry(old(value), fragmentId);
    }

    method GetNumFragments() returns (n: nat)
      requires Valid()
      ensures n == |value|
    {
      return |monitoredEntries|;
    }

    /** Counts the distinct fragment identifiers of the entries, which is what their map is keyed by. */
    method GetNumApps() returns (n: nat)
      requires Valid()
      ensures n == |value|
    {
      var list: set<string> := {};
      var todo := monitoredEntries.Keys;
      while todo != {}
        invariant todo <= monitoredEntries.Keys
        invariant forall f :: f in list <==> f in monitoredEntries && f !in todo
        decreases todo
      {
        var f :| f in todo;
        assert EntryValid(f);
        if monitoredEntries[f].fragmentId !in list {
          list := list + {monitoredEntries[f].fragmentId};
        }
        todo := todo - {f};
      }
      assert list == value.Keys;
      return |list|;
    }

    method GetNumServices() returns (accum: nat)
      requires Valid()
      ensures accum == NumServices(value)
    {
      accum := 0;
      var todo := monitoredEntries.Keys;
      ghost var sizes := map f | f in value :: |value[f].services|;
      ghost var left := sizes;
      while todo != {}
        invariant Valid() && todo <= monitoredEntries.Keys
        invariant forall f :: f in left <==> f in todo
        invariant forall f | f in todo :: left[f] == sizes[f]
        invariant accum + Total(left) == Total(sizes)
        decreases todo
      {
        var f :| f in todo;
        var n := CountEntryServices(f);
        TotalRemove(left, f);
        accum := accum + n;
        left := left - {f};
        todo := todo - {f};
      }
      assert left == map[];
    }

    method CountEntryServices(f: string) returns (n: nat)
      requires Valid() && f in monitoredEntries
      ensures Valid() && n == |value[f].services|
    {
      assert EntryValid(f);
      SameSize(monitoredEntries[f].services, value[f].services);
      n := |monitoredEntries[f].services|;
    }

    method GetNumResources() returns (accum: nat)
      requires Valid()
      ensures accum == NumResources(value)
    {
      accum := 0;
      var todo := monitoredEntries.Keys;
      ghost var sizes := map f | f in value :: NumResourcesOfEntry(value[f]);
      ghost var left := sizes;
      while todo != {}
        invariant Valid() && todo <= monitoredEntries.Keys
        invariant forall f :: f in left <==> f in todo
        invariant forall f | f in todo :: left[f] == sizes[f]
        invariant accum + Total(left) == Total(sizes)
        decreases todo
      {
        var f :| f in todo;
        var n := CountEntryResources(f);
        TotalRemove(left, f);
        accum := accum + n;
        left := left - {f};
        todo := todo - {f};
      }
      assert left == map[];
    }

    method CountEntryResources(f: string) returns (n: nat)
      requires Valid() && f in monitoredEntries
      ensures Valid() && n == NumResourcesOfEntry(value[f])
    {
      assert EntryValid(f);
      n := monitoredEntries[f].CountResources();
    }

    /** Collect what is to be notified; entries that are terminating are dropped from the monitor. */
    method GetPendingNotifications() returns (toReturn: seq<Notification>)
      requires Valid()
      modifies this`monitoredEntries, this`value
      ensures Valid()
      ensures value == DropTerminating(old(value))
      ensures AreNotifications(toReturn, old(value))
    {
      var toRemove: set<string>;
      toReturn, toRemove := Collect();
      RemoveEntries(toRemove);
      OnlyTerminatingRemoved(old(value), value, toRemove);
    }

    method RemoveEntries(toRemove: set<string>)
      requires Valid()
      modifies this`monitoredEntries, this`value
      ensures Valid()
      ensures forall f :: f in value <==> f in old(value) && f !in toRemove
      ensures forall f | f in value :: value[f] == old(value)[f]
    {
      var todo := toRemove;
      while todo != {}
        invariant Valid() && todo <= toRemove
        invariant forall f :: f in value <==> f in old(value) && (f in todo || f !in toRemove)
        invariant forall f | f in value :: value[f] == old(value)[f]
        decreases todo
      {
        var f :| f in todo;
        var _ := RemoveEntry(f);
        todo := todo - {f};
      }
    }

    /** The read-only part of GetPendingNotifications. */
    method Collect() returns (toReturn: seq<Notification>, toRemove: set<string>)
      requires Valid()
      ensures forall f :: f in toRemove <==> f in value && value[f].status == FragmentTerminating
      ensures AreNotifications(toReturn, value)
    {
      toReturn, toRemove := [], {};
      var todo := monitoredEntries.Keys;
      ghost var done: State := map[];
      while todo != {}
        invariant Valid() && Collected(value, todo, done, toReturn, toRemove)
        decreases todo
      {
        var f :| f in todo;
        var n := CollectEntry(f);
        CollectedNext(value, todo, done, toReturn, toRemove, f, n);
        if n.status == FragmentTerminating {
          toRemove := toRemove + {f};
        }
        if |n.services| > 0 {
          toReturn := toReturn + [n];
        }
        done := done[f := value[f]];
        todo := todo - {f};
      }
      CollectedAll(value, done, toReturn, toRemove);
    }

    method CollectEntry(f: string) returns (n: Notification)
      requires Valid() && f in monitoredEntries
      ensures Valid() && Reports(n, f, value[f])
    {
      assert EntryValid(f);
      var pendingServices := monitoredEntries[f].FlaggedServices();
      n := Notification(monitoredEntries[f].fragmentId, monitoredEntries[f].status, pendingServices);
    }
  }

  /** A loop that changes entry by entry has still to treat these on its way to the target. */
  ghost predicate Between(before: State, target: State, now: State, todo: set<string>) {
    && todo <= before.Keys && before.Keys == target.Keys == now.Keys
    && forall f | f in now :: now[f] == if f in todo then before[f] else target[f]
  }

  lemma BetweenNext(before: State, target: State, now: State, todo: set<string>, f: string)
    requires Between(before, target, now, todo) && f in todo
    ensures f in before && now[f] == before[f] && Between(before, target, now[f := target[f]], todo - {f})
  {
  }

  lemma BetweenEnds(before: State, target: State, now: State)
    requires Between(before, target, now, {})
    ensures now == target
  {
  }

  lemma OnlyTerminatingRemoved(before: State, now: State, removed: set<string>)
    requires forall f :: f in removed <==> f in before && before[f].status == FragmentTerminating
    requires forall f :: f in now <==> f in before && f !in removed
    requires forall f | f in now :: now[f] == before[f]
    ensures now == DropTerminating(before)
  {
  }

  /** The entries that are done are those of the state that are not to do; of these the notifications are
      in the list, and the terminating ones are to be removed. */
  ghost predicate Collected(st: State, todo: set<string>, done: State, ns: seq<Notification>, toRemove: set<string>)
    reads set n, x | n in ns && x in n.services.Values :: x
  {
    && todo <= st.Keys
    && (forall f :: f in done <==> f in st && f !in todo)
    && (forall f | f in done :: done[f] == st[f])
    && (forall f :: f in toRemove <==> f in done && done[f].status == FragmentTerminating)
    && AreNotifications(ns, done)
  }

  lemma CollectedNext(st: State, todo: set<string>, done: State, ns: seq<Notification>, toRemove: set<string>,
                      f: string, n: Notification)
    requires Collected(st, todo, done, ns, toRemove) && f in todo && Reports(n, f, st[f])
    ensures Collected(st, todo - {f}, done[f := st[f]], if |n.services| > 0 then ns + [n] else ns,
                      if n.status == FragmentTerminating then toRemove + {f} else toRemove)
  {
    OneMore(ns, done, n, f, st[f]);
  }

  lemma CollectedAll(st: State, done: State, ns: seq<Notification>, toRemove: set<string>)
    requires Collected(st, {}, done, ns, toRemove)
    ensures forall f :: f in toRemove <==> f in st && st[f].status == FragmentTerminating
    ensures AreNotifications(ns, st)
  {
    assert done == st;
  }

  lemma OneMore(ns: seq<Notification>, st: State, n: Notification, f: string, entry: Entry)
    requires AreNotifications(ns, st) && f !in st && Reports(n, f, entry)
    ensures AreNotifications(if |n.services| > 0 then ns + [n] else ns, st[f := entry])
  {
    var after := if |n.services| > 0 then ns + [n] else ns;
    assert |n.services| > 0 <==> n.services != map[];
    if n.services != map[] {
      assert after[|ns|] == n;
    } else {
      assert PendingServices(entry) == n.services.Keys == {};
    }
    var st' := st[f := entry];
    forall g | g in st' && PendingServices(st'[g]) != {}
      ensures exists i :: 0 <= i < |after| && after[i].fragmentId == g
    {
      if g != f {
        var i :| 0 <= i < |ns| && ns[i].fragmentId == g;
        assert after[i] == ns[i];
      }
    }
  }

  lemma SameSize<A, B>(m: map<string, A>, n: map<string, B>)
    requires m.Keys == n.Keys
    ensures |m| == |n|
  {
  }
}
