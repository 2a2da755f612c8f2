/** The other users of the monitor: event handlers, the notifier, other requests. Whatever they do
    between two steps of one goroutine is a list of operations on the shared monitor. */
module Environment {
  import opened M = MonitorModel
  import opened MonitoredInstances

  /** Build the object that stands for an entry. */
  method NewEntry(f: string, entry: Entry) returns (e: MonitoredAppEntry)
    ensures fresh(e) && fresh(e.services.Values)
    ensures e.Valid() && e.fragmentId == f && e.value == entry
  {
    var services: map<string, MonitoredServiceEntry> := map[];
    var todo := entry.services.Keys;
    while todo != {}
      invariant todo <= entry.services.Keys
      invariant forall s :: s in services <==> s in entry.services && s !in todo
      invariant forall s | s in services ::
          && fresh(services[s])
          && services[s].serviceInstanceId == s && services[s].fragmentId == f
          && services[s].View() == entry.services[s]
      decreases todo
    {
      var s :| s in todo;
      var service := new MonitoredServiceEntry(f, s, entry.services[s]);
      services := services[s := service];
      todo := todo - {s};
    }
    e := new MonitoredAppEntry(f, entry, services);
  }

  method AddNewEntry(m: MemoryMonitoredInstances, f: string, entry: Entry)
    requires m.Valid()
    modifies m, m.repr
    ensures m.Valid() && fresh(m.repr - old(m.repr))
    ensures m.value == M.AddEntry(old(m.value), f, entry)
  {
    var e := NewEntry(f, entry);
    m.AddEntry(e);
  }

  predicate OnResources(op: Op) {
    op.OpAddPendingResource? || op.OpRemovePendingResource? || op.OpSetResourceStatus?
  }

  method ApplyToResources(m: MemoryMonitoredInstances, op: Op)
    requires m.Valid() && OnResources(op)
    modifies m`value, m.repr
    ensures m.Valid()
    ensures m.value == Step(old(m.value), op)
  {
    if op.OpSetResourceStatus? {
      var _ := m.SetResourceStatus(op.f, op.s, op.u, op.status, op.endpoints);
    } else if op.OpAddPendingResource? {
      var _ := m.AddPendingResource(op.f, op.s, op.u, op.status);
    } else {
      var _ := m.RemovePendingResource(op.f, op.s, op.u);
    }
  }

  method Apply(m: MemoryMonitoredInstances, op: Op)
    requires m.Valid()
    modifies m, m.repr
    ensures m.Valid() && fresh(m.repr - old(m.repr))
    ensures m.value == Step(old(m.value), op)
  {
    if OnResources(op) {
      ApplyToResources(m, op);
      return;
    }
    match op {
      case OpAddEntry(f, entry) => AddNewEntry(m, f, entry);
      case OpSetEntryStatus(f, status) => m.SetEntryStatus(f, status);
      case OpSetAppStatus(app, status) => m.SetAppStatus(app, status);
      case OpUpdateAppStatus(f) => m.UpdateAppStatus(f);
      case OpDropTerminating => var _ := m.GetPendingNotifications();
      case OpResetUnnotified => m.ResetServicesUnnotifiedStatus();
      case OpRemoveEntry(f) => var _ := m.RemoveEntry(f);
    }
  }

  method ApplyAll(m: MemoryMonitoredInstances, ops: seq<Op>)
    requires m.Valid()
    modifies m, m.repr
    ensures m.Valid() && fresh(m.repr - old(m.repr))
    ensures m.value == Run(old(m.value), ops)
  {
    for i := 0 to |ops|
      invariant m.Valid() && fresh(m.repr - old(m.repr))
      invariant Run(old(m.value), ops) == Run(m.value, ops[i..])
    {
      Apply(m, ops[i]);
      assert ops[i..][1..] == ops[i + 1..];
    }
  }
}
