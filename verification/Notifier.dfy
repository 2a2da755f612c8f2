/** The notifier tells the conductor about services whose status is new: take a snapshot of what is
    flagged, send it, clear the flags. Here: what the conductor knows after a round, and what can go
    wrong when the three parts of a round are not one step. */
module Notifier {
  import opened Entities
  import opened MonitorModel

  /** A service, named by its fragment and its own identifier. */
  type ServiceKey = (string, string)

  /** The monitor, and the last status of each service that the conductor was told. */
  datatype System = System(monitor: State, told: map<ServiceKey, NalejServiceStatus>)

  /** The conductor knows the status of the service. */
  predicate Known(sys: System, f: string, s: string)
    requires HasService(sys.monitor, f, s)
  {
    (f, s) in sys.told && sys.told[(f, s)] == sys.monitor[f].services[s].status
  }

  predicate Flagged(st: State, f: string, s: string) {
    HasService(st, f, s) && s in PendingServices(st[f])
  }

  /** A terminating entry has terminated its services, or something is flagged. */
  predicate Terminated(st: State, f: string, s: string)
    requires HasService(st, f, s)
  {
    st[f].status == FragmentTerminating ==>
      st[f].services[s].status == ServiceTerminating || Flagged(st, f, s)
  }

  /** No service update is lost: the conductor knows it, or it is flagged to be sent. */
  ghost predicate NothingLost(sys: System) {
    forall f, s | HasService(sys.monitor, f, s) ::
      (Known(sys, f, s) || Flagged(sys.monitor, f, s)) && Terminated(sys.monitor, f, s)
  }

  /** Operations of the monitor's other users. Only the notifier removes entries and clears flags,
      and an added entry's services come flagged. */
  ghost predicate Mutator(op: Op) {
    match op
    case OpAddEntry(f, entry) => forall s | s in entry.services :: entry.services[s].newStatus
    case OpDropTerminating => false
    case OpResetUnnotified => false
    case OpRemoveEntry(f) => false
    case _ => true
  }

  /** What a mutator can do to one service. */
  lemma MutatorFlagsChanges(st: State, op: Op, f: string, s: string)
    requires Mutator(op) && HasService(Step(st, op), f, s)
    requires HasService(st, f, s) ==> Terminated(st, f, s)
    ensures !HasService(st, f, s) ==> Flagged(Step(st, op), f, s)
    ensures Flagged(st, f, s) ==> Flagged(Step(st, op), f, s)
    ensures HasService(st, f, s) && Step(st, op)[f].services[s].status != st[f].services[s].status ==>
              Flagged(Step(st, op), f, s)
    ensures Terminated(Step(st, op), f, s)
  {
  }

  /** Nothing is flagged without a reason: the service is new, or its status or that of its fragment has
      changed. */
  lemma FlagsHaveReasons(st: State, op: Op, f: string, s: string)
    requires Mutator(op) && Flagged(Step(st, op), f, s) && !Flagged(st, f, s)
    ensures HasService(st, f, s) ==>
              Step(st, op)[f].services[s].status != st[f].services[s].status || Step(st, op)[f].status != st[f].status
  {
  }

  /** Setting the status of an entry flags all its services or none: exactly if the status is new. That
      its services are terminated by it flags none of them. */
  lemma SetStatusFlags(st: State, f: string, status: FragmentStatus, s: string)
    requires HasService(st, f, s)
    ensures var after := SetEntryStatus(st, f, status);
            && (Flagged(after, f, s) <==> Flagged(st, f, s) || status != st[f].status)
            && after[f].services[s] ==
               st[f].services[s].(status := if status == FragmentTerminating then ServiceTerminating else st[f].services[s].status)
  {
  }

  lemma MutatorKeepsServices(st: State, op: Op, f: string, s: string)
    requires Mutator(op) && HasService(st, f, s)
    ensures HasService(Step(st, op), f, s)
  {
  }

  /** One step of any other user of the monitor loses no update. */
  lemma MutatorLosesNothing(sys: System, op: Op)
    requires NothingLost(sys) && Mutator(op)
    ensures NothingLost(sys.(monitor := Step(sys.monitor, op)))
  {
    var sys' := sys.(monitor := Step(sys.monitor, op));
    forall f, s | HasService(sys'.monitor, f, s)
      ensures (Known(sys', f, s) || Flagged(sys'.monitor, f, s)) && Terminated(sys'.monitor, f, s)
    {
      MutatorFlagsChanges(sys.monitor, op, f, s);
    }
  }

  // ---------- A round as one step ----------

  ghost function PendingKeys(st: State): set<ServiceKey> {
    set f, s | f in st && s in PendingServices(st[f]) :: (f, s)
  }

  /** What is sent about the services of the fragments whose request is delivered. */
  ghost function Sent(st: State, delivered: set<string>): map<ServiceKey, NalejServiceStatus> {
    map k | k in PendingKeys(st) && k.0 in delivered :: st[k.0].services[k.1].status
  }

  /** A round that nothing interrupts. With nothing to send it ends before the flags are cleared. */
  ghost function UpdateStatus(sys: System, delivered: set<string>): System {
    var left := DropTerminating(sys.monitor);
    if PendingKeys(sys.monitor) == {} then sys.(monitor := left)
    else System(ResetUnnotified(left), sys.told + Sent(sys.monitor, delivered))
  }

  /** A round with nothing to send only drops the terminating entries, and leaves the flags of entries
      without services alone. */
  lemma QuietRound(sys: System, delivered: set<string>)
    requires forall f | f in sys.monitor :: PendingServices(sys.monitor[f]) == {}
    ensures var after := UpdateStatus(sys, delivered);
            && after.told == sys.told
            && (forall f :: f in after.monitor <==> f in sys.monitor && sys.monitor[f].status != FragmentTerminating)
            && (forall f | f in after.monitor :: after.monitor[f] == sys.monitor[f])
  {
    assert PendingKeys(sys.monitor) == {};
  }

  /** After a round whose requests are delivered the conductor knows the status of every service
      that was monitored when it began - also of those whose entry it dropped - and nothing is lost. */
  lemma RoundTellsEverything(sys: System, delivered: set<string>)
    requires NothingLost(sys) && sys.monitor.Keys <= delivered
    ensures var sys' := UpdateStatus(sys, delivered);
            && (forall f, s | HasService(sys.monitor, f, s) ::
                  (f, s) in sys'.told && sys'.told[(f, s)] == sys.monitor[f].services[s].status)
            && (forall f, s | HasService(sys'.monitor, f, s) :: Known(sys', f, s))
            && NothingLost(sys')
  {
    var sys' := UpdateStatus(sys, delivered);
    forall f, s | HasService(sys.monitor, f, s)
      ensures (f, s) in sys'.told && sys'.told[(f, s)] == sys.monitor[f].services[s].status
    {
      assert Known(sys, f, s) || Flagged(sys.monitor, f, s);
      assert Flagged(sys.monitor, f, s) <==> (f, s) in PendingKeys(sys.monitor);
    }
  }

  /** A failed request is logged and the flags are cleared all the same, so its updates are gone:
      after any round a service is known exactly if it was known before, or was flagged and its
      fragment's request was delivered. */
  lemma RoundTellsWhatIsDelivered(sys: System, delivered: set<string>, f: string, s: string)
    requires NothingLost(sys) && HasService(UpdateStatus(sys, delivered).monitor, f, s)
    ensures Known(UpdateStatus(sys, delivered), f, s) <==>
            Known(sys, f, s) || (Flagged(sys.monitor, f, s) && f in delivered)
    ensures PendingKeys(sys.monitor) != {} ==> !Flagged(UpdateStatus(sys, delivered).monitor, f, s)
  {
    assert Flagged(sys.monitor, f, s) <==> (f, s) in PendingKeys(sys.monitor);
  }

  datatype Event = Change(op: Op) | Round

  ghost function Next(sys: System, event: Event): System {
    match event
    case Change(op) => sys.(monitor := Step(sys.monitor, op))
    case Round => UpdateStatus(sys, sys.monitor.Keys)
  }

  ghost function RunEvents(sys: System, events: seq<Event>): System
    decreases |events|
  {
    if events == [] then sys else RunEvents(Next(sys, events[0]), events[1..])
  }

  /** Over every run of changes and delivered rounds no service update is lost. */
  lemma {:induction false} RunLosesNothing(sys: System, events: seq<Event>)
    requires NothingLost(sys)
    requires forall e | e in events :: e.Change? ==> Mutator(e.op)
    ensures NothingLost(RunEvents(sys, events))
    decreases |events|
  {
    if events != [] {
      match events[0] {
        case Change(op) =>
          assert events[0] in events;
          MutatorLosesNothing(sys, op);
        case Round =>
          RoundTellsEverything(sys, sys.monitor.Keys);
      }
      RunLosesNothing(Next(sys, events[0]), events[1..]);
    }
  }

  // ---------- The status of the fragment itself ----------

  /** The statuses of the resources once `u` has this one. */
  function StatusesWith(resources: map<string, Resource>, u: string, status: NalejServiceStatus): set<NalejServiceStatus> {
    set r | r in resources :: if r == u then status else resources[r].status
  }

  /** The fragment's status is recomputed with every change of a resource, but only services are
      flagged. From an entry with nothing flagged, the status moves unannounced exactly if the worst
      of the resources is still the status of the service, and the status of the entry was not the one
      that its services stand for. */
  lemma FragmentStatusMovesUnannounced(st: State, f: string, s: string, u: string, status: NalejServiceStatus,
                                       endpoints: seq<EndpointInstance>)
    requires HasResource(st, f, s, u) && st[f].services[s].resources[u].status != status
    requires PendingServices(st[f]) == {}
    ensures var st' := SetResourceStatus(st, f, s, u, status, endpoints);
            (st'[f].status != st[f].status && PendingServices(st'[f]) == {}) <==>
            (Worst(StatusesWith(st[f].services[s].resources, u, status)) == st[f].services[s].status
             && st[f].status != ServicesToFragmentStatus(Worst(ServiceStatuses(st[f].services))))
  {
    var st' := SetResourceStatus(st, f, s, u, status, endpoints);
    var before, after := st[f].services[s], st'[f].services[s];
    assert after == UpdateResource(before, u, status, endpoints);
    assert s !in PendingServices(st[f]);
    UpdatedStatus(before, u, status, endpoints);
    if after.status == before.status {
      forall t | t in st'[f].services
        ensures t !in PendingServices(st'[f]) && st'[f].services[t].status == st[f].services[t].status
      {
        assert t !in PendingServices(st[f]);
      }
      assert ServiceStatuses(st'[f].services) == ServiceStatuses(st[f].services);
    } else {
      assert s in PendingServices(st'[f]);
    }
  }

  lemma UpdatedStatus(service: Service, u: string, status: NalejServiceStatus, endpoints: seq<EndpointInstance>)
    requires u in service.resources && service.resources[u].status != status
    ensures UpdateResource(service, u, status, endpoints).status == Worst(StatusesWith(service.resources, u, status))
  {
    var changed := ChangeResource(service, u, status, endpoints);
    forall r | r in service.resources
      ensures changed.resources[r].status == if r == u then status else service.resources[r].status
    {
    }
    assert ResourceStatuses(changed.resources) == StatusesWith(service.resources, u, status);
  }

  // ---------- The statuses of fragments the conductor is told ----------

  /** What is sent about the fragments themselves: the status of each that has a service to report. */
  ghost function SentFragments(st: State, delivered: set<string>): map<string, FragmentStatus> {
    map f | f in st && PendingServices(st[f]) != {} && f in delivered :: st[f].status
  }

  /** The monitor, the last status of each fragment that the conductor was told, and the fragments
      whose status has moved unannounced since. */
  datatype Report = Report(monitor: State, told: map<string, FragmentStatus>, moved: set<string>)

  /** The fragments whose status one step moves with nothing flagged. */
  ghost function MovedSilently(st: State, st': State): set<string> {
    set f | f in st && f in st' && st'[f].status != st[f].status && PendingServices(st'[f]) == {}
  }

  ghost function NextReport(r: Report, event: Event): Report {
    match event
    case Change(op) =>
      Report(Step(r.monitor, op), r.told, r.moved + MovedSilently(r.monitor, Step(r.monitor, op)))
    case Round =>
      Report(UpdateStatus(System(r.monitor, map[]), r.monitor.Keys).monitor,
             r.told + SentFragments(r.monitor, r.monitor.Keys),
             set f | f in r.moved && f in r.monitor && PendingServices(r.monitor[f]) == {})
  }

  ghost function RunReport(r: Report, events: seq<Event>): Report
    decreases |events|
  {
    if events == [] then r else RunReport(NextReport(r, events[0]), events[1..])
  }

  /** The conductor knows the status, or will be told, or it moved unannounced; of a fragment without
      services it is told nothing. */
  ghost predicate Reported(r: Report, f: string)
    requires f in r.monitor
  {
    || (f in r.told && r.told[f] == r.monitor[f].status)
    || PendingServices(r.monitor[f]) != {}
    || f in r.moved
    || r.monitor[f].services.Keys == {}
  }

  ghost predicate AllReported(r: Report) {
    forall f | f in r.monitor :: Reported(r, f)
  }

  lemma PendingStays(st: State, op: Op, f: string)
    requires Mutator(op) && f in st && f in Step(st, op) && PendingServices(st[f]) != {}
    ensures PendingServices(Step(st, op)[f]) != {}
  {
    var s :| s in PendingServices(st[f]);
    assert Flagged(st, f, s);
    MutatorFlagsServices(st, op, f, s);
    assert s in PendingServices(Step(st, op)[f]);
  }

  lemma MutatorFlagsServices(st: State, op: Op, f: string, s: string)
    requires Mutator(op) && Flagged(st, f, s)
    ensures Flagged(Step(st, op), f, s)
  {
  }

  /** What a mutator can do to an entry with nothing flagged. */
  lemma MutatorMovesStatus(st: State, op: Op, f: string)
    requires Mutator(op) && f in Step(st, op)
    ensures var entry := Step(st, op)[f];
            PendingServices(entry) != {} || entry.services.Keys == {}
            || (f in st && st[f].services.Keys != {} && (entry.status == st[f].status || f in MovedSilently(st, Step(st, op))))
  {
    var entry := Step(st, op)[f];
    if s :| s in entry.services {
      if f !in st || s !in st[f].services {
        assert Flagged(Step(st, op), f, s) by {
          NewServicesAreFlagged(st, op, f, s);
        }
        assert s in PendingServices(entry);
      }
    }
  }

  lemma NewServicesAreFlagged(st: State, op: Op, f: string, s: string)
    requires Mutator(op) && HasService(Step(st, op), f, s) && !HasService(st, f, s)
    ensures Flagged(Step(st, op), f, s)
  {
  }

  lemma ChangeReports(r: Report, op: Op)
    requires AllReported(r) && Mutator(op)
    ensures AllReported(NextReport(r, Change(op)))
  {
    var r' := NextReport(r, Change(op));
    forall f | f in r'.monitor
      ensures Reported(r', f)
    {
      MutatorMovesStatus(r.monitor, op, f);
      if f in r.monitor && PendingServices(r.monitor[f]) != {} {
        PendingStays(r.monitor, op, f);
      }
      assert f in r.monitor ==> Reported(r, f);
    }
  }

  lemma RoundReports(r: Report)
    requires AllReported(r)
    ensures AllReported(NextReport(r, Round))
  {
    var r' := NextReport(r, Round);
    forall f | f in r'.monitor
      ensures Reported(r', f)
    {
      RoundKeepsEntry(r.monitor, f);
      assert Reported(r, f);
      if PendingServices(r.monitor[f]) != {} {
        assert f in SentFragments(r.monitor, r.monitor.Keys);
      }
    }
  }

  /** A round tells the status of exactly the fragments that have a service to report. */
  lemma RoundTellsFragments(r: Report, f: string)
    requires f in r.monitor
    ensures var after := NextReport(r, Round);
            if PendingServices(r.monitor[f]) != {} then f in after.told && after.told[f] == r.monitor[f].status
            else (f in after.told <==> f in r.told) && (f in r.told ==> after.told[f] == r.told[f])
  {
  }

  lemma RoundKeepsEntry(st: State, f: string)
    requires f in UpdateStatus(System(st, map[]), st.Keys).monitor
    ensures f in st
    ensures var left := UpdateStatus(System(st, map[]), st.Keys).monitor;
            left[f].status == st[f].status && left[f].services.Keys == st[f].services.Keys
  {
  }

  /** Over every run of changes and delivered rounds, the conductor knows the status of each fragment,
      or something of it is flagged, or the status moved unannounced since it was last reported, or the
      fragment has no services. */
  lemma {:induction false} RunReportsFragments(r: Report, events: seq<Event>)
    requires AllReported(r)
    requires forall e | e in events :: e.Change? ==> Mutator(e.op)
    ensures AllReported(RunReport(r, events))
    decreases |events|
  {
    if events != [] {
      match events[0] {
        case Change(op) =>
          assert events[0] in events;
          ChangeReports(r, op);
        case Round =>
          RoundReports(r);
      }
      RunReportsFragments(NextReport(r, events[0]), events[1..]);
    }
  }

  lemma {:induction false} RunReportOneMore(r: Report, events: seq<Event>, e: Event)
    ensures RunReport(r, events + [e]) == NextReport(RunReport(r, events), e)
    decreases |events|
  {
    if events == [] {
      assert events + [e] == [e] && [e][1..] == [];
    } else {
      assert (events + [e])[0] == events[0] && (events + [e])[1..] == events[1..] + [e];
      RunReportOneMore(NextReport(r, events[0]), events[1..], e);
    }
  }

  const NOTHING := Report(map[], map[], {})

  /** A service with two resources; the first has this status, the second is scheduled. */
  function TwoResources(first: NalejServiceStatus, newStatus: bool): Service {
    Service(map["u1" := Resource(first, true), "u2" := Resource(ServiceScheduled, true)], ServiceScheduled, newStatus, 2, [])
  }

  function OneServiceEntry(service: Service, status: FragmentStatus, newStatus: bool): Entry {
    Entry("app", "ns", map["s" := service], status, newStatus, 1, 1)
  }

  lemma Replaced<V>(k: string, a: V, b: V)
    ensures map[k := a][k := b] == map[k := b]
  {
  }

  lemma ResourcesAdded(status: FragmentStatus)
    ensures var empty := map["f" := OneServiceEntry(NewService(), status, true)];
            var one := AddPendingResource(empty, "f", "s", "u1", ServiceScheduled);
            AddPendingResource(one, "f", "s", "u2", ServiceScheduled) ==
            map["f" := OneServiceEntry(TwoResources(ServiceScheduled, true), status, true)]
  {
    var first := AddResource(NewService(), "u1", ServiceScheduled);
    var second := AddResource(first, "u2", ServiceScheduled);
    assert second.resources == TwoResources(ServiceScheduled, true).resources;
    Replaced("s", NewService(), first);
    Replaced("s", first, second);
    Replaced("f", OneServiceEntry(NewService(), status, true), OneServiceEntry(first, status, true));
    Replaced("f", OneServiceEntry(first, status, true), OneServiceEntry(second, status, true));
  }

  /** The fragment is deployed. */
  lemma Deployed() returns (events: seq<Event>, r: Report)
    ensures forall e | e in events :: e.Change? ==> Mutator(e.op)
    ensures r == RunReport(NOTHING, events)
    ensures r.monitor == map["f" := OneServiceEntry(TwoResources(ServiceScheduled, true), FragmentDeploying, true)]
  {
    var entered := OpAddEntry("f", OneServiceEntry(NewService(), FragmentWaiting, true));
    var e1, e2 := Change(entered), Change(OpAddPendingResource("f", "s", "u1", ServiceScheduled));
    var e3, e4 := Change(OpAddPendingResource("f", "s", "u2", ServiceScheduled)), Change(OpSetEntryStatus("f", FragmentDeploying));
    events := [] + [e1] + [e2] + [e3] + [e4];
    RunReportOneMore(NOTHING, [], e1);
    RunReportOneMore(NOTHING, [] + [e1], e2);
    RunReportOneMore(NOTHING, [] + [e1] + [e2], e3);
    RunReportOneMore(NOTHING, [] + [e1] + [e2] + [e3], e4);
    r := RunReport(NOTHING, events);
    ResourcesAdded(FragmentWaiting);
    Replaced("f", OneServiceEntry(TwoResources(ServiceScheduled, true), FragmentWaiting, true),
             OneServiceEntry(TwoResources(ServiceScheduled, true), FragmentDeploying, true));
  }

  /** A delivered round with one fragment, which has a flagged service. */
  lemma RoundOfOne(r: Report, f: string, entry: Entry, s: string)
    requires r.monitor == map[f := entry] && entry.status != FragmentTerminating && s in PendingServices(entry)
    ensures NextReport(r, Round).monitor == map[f := Unflag(entry)]
    ensures NextReport(r, Round).told == r.told[f := entry.status]
  {
    assert (f, s) in PendingKeys(r.monitor);
    assert DropTerminating(r.monitor) == r.monitor;
    assert ResetUnnotified(r.monitor) == map[f := Unflag(entry)];
    assert SentFragments(r.monitor, r.monitor.Keys) == map[f := entry.status];
    PlusOne(r.told, f, entry.status);
  }

  lemma PlusOne<V>(a: map<string, V>, k: string, v: V)
    ensures a + map[k := v] == a[k := v]
  {
  }

  lemma Unflagged(status: FragmentStatus)
    ensures Unflag(OneServiceEntry(TwoResources(ServiceScheduled, true), status, true)) ==
            OneServiceEntry(TwoResources(ServiceScheduled, false), status, false)
  {
    assert Unflag(OneServiceEntry(TwoResources(ServiceScheduled, true), status, true)).services ==
           map["s" := TwoResources(ServiceScheduled, false)];
  }

  /** A round reports it as deploying. */
  lemma ReportedAsDeploying() returns (events: seq<Event>, r: Report)
    ensures forall e | e in events :: e.Change? ==> Mutator(e.op)
    ensures r == RunReport(NOTHING, events)
    ensures r.monitor == map["f" := OneServiceEntry(TwoResources(ServiceScheduled, false), FragmentDeploying, false)]
    ensures "f" in r.told && r.told["f"] == FragmentDeploying
  {
    var before, r0 := Deployed();
    RunReportOneMore(NOTHING, before, Round);
    events, r := before + [Round], NextReport(r0, Round);
    RoundOfOne(r0, "f", OneServiceEntry(TwoResources(ServiceScheduled, true), FragmentDeploying, true), "s");
    Unflagged(FragmentDeploying);
  }

  lemma OneUp()
    ensures var services := map["s" := TwoResources(ServiceScheduled, false)];
            && Worst(StatusesWith(services["s"].resources, "u1", ServiceRunning)) == ServiceScheduled
            && ServiceStatuses(services) == {ServiceScheduled}
  {
    var services := map["s" := TwoResources(ServiceScheduled, false)];
    var resources := services["s"].resources;
    assert "u2" in resources && resources["u2"].status == ServiceScheduled;
    assert ServiceScheduled in StatusesWith(resources, "u1", ServiceRunning);
    assert ServiceError !in StatusesWith(resources, "u1", ServiceRunning);
    assert services["s"].status == ServiceScheduled;
  }

  lemma MovesSilently(st: State)
    requires st == map["f" := OneServiceEntry(TwoResources(ServiceScheduled, false), FragmentDeploying, false)]
    ensures var st' := SetResourceStatus(st, "f", "s", "u1", ServiceRunning, []);
            "f" in st' && st'["f"].status == FragmentWaiting && PendingServices(st'["f"]) == {}
  {
    OneUp();
    assert PendingServices(st["f"]) == {};
    FragmentStatusMovesUnannounced(st, "f", "s", "u1", ServiceRunning, []);
    var service := st["f"].services["s"];
    UpdatedStatus(service, "u1", ServiceRunning, []);
    var st' := SetResourceStatus(st, "f", "s", "u1", ServiceRunning, []);
    assert st'["f"].services == map["s" := UpdateResource(service, "u1", ServiceRunning, [])];
    assert ServiceStatuses(st'["f"].services) == {ServiceScheduled};
  }

  /** Then its first resource comes up: the service stays scheduled, the fragment goes from deploying to
      waiting, nothing is flagged, and the conductor keeps taking it for deploying. */
  lemma SilentMoveIsReachable() returns (events: seq<Event>, r: Report)
    ensures forall e | e in events :: e.Change? ==> Mutator(e.op)
    ensures r == RunReport(NOTHING, events) && "f" in r.monitor && "f" in r.told
    ensures r.told["f"] == FragmentDeploying && r.monitor["f"].status == FragmentWaiting
    ensures PendingServices(r.monitor["f"]) == {}
  {
    var before, r0 := ReportedAsDeploying();
    var up := Change(OpSetResourceStatus("f", "s", "u1", ServiceRunning, []));
    RunReportOneMore(NOTHING, before, up);
    events, r := before + [up], NextReport(r0, up);
    MovesSilently(r0.monitor);
  }
}
