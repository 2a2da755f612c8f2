/** The monitored instances as a value: fragments, their services, their platform resources, and
    what each operation of the in-memory monitor does to that value. The classes of
    MonitoredInstances are proved against these functions; everything that is claimed of a run is
    proved of them. Textual information is left out of the state. */
module MonitorModel {
  import opened Entities
  import opened Totals

  datatype Resource = Resource(status: NalejServiceStatus, pending: bool)

  datatype Service = Service(
    resources: map<string, Resource>,
    status: NalejServiceStatus,
    newStatus: bool,
    numPendingChecks: int,
    endpoints: seq<EndpointInstance>)

  datatype Entry = Entry(
    appInstanceId: string,
    namespace: string,
    services: map<string, Service>,
    status: FragmentStatus,
    newStatus: bool,
    numPendingChecks: int,
    totalServices: int)

  /** Fragment identifier to entry. */
  type State = map<string, Entry>

  datatype MonitorError = AppNotMonitored | ServiceNotMonitored | ResourceNotMonitored

  // ---------- Derived values ----------

  function ResourceStatuses(resources: map<string, Resource>): set<NalejServiceStatus> {
    set u | u in resources :: resources[u].status
  }

  function ServiceStatuses(services: map<string, Service>): set<NalejServiceStatus> {
    set s | s in services :: services[s].status
  }

  /** The resources of a service that are not running. */
  function NotRunningResources(resources: map<string, Resource>): set<string> {
    set u | u in resources && resources[u].status != ServiceRunning
  }

  /** The services of an entry that are not running. */
  function NotRunningServices(services: map<string, Service>): set<string> {
    set s | s in services && services[s].status != ServiceRunning
  }

  predicate HasService(st: State, f: string, s: string) {
    f in st && s in st[f].services
  }

  predicate HasResource(st: State, f: string, s: string, u: string) {
    HasService(st, f, s) && u in st[f].services[s].resources
  }

  /** Why a resource cannot be found, checked from the fragment downwards. */
  function Missing(st: State, f: string, s: string, u: string): MonitorError
    requires !HasResource(st, f, s, u)
  {
    if f !in st then AppNotMonitored
    else if s !in st[f].services then ServiceNotMonitored
    else ResourceNotMonitored
  }

  /** The services of an entry that the notifier has to report. */
  function PendingServices(entry: Entry): set<string> {
    set s | s in entry.services && (entry.newStatus || entry.services[s].newStatus)
  }

  ghost function NumServices(st: State): nat {
    Total(map f | f in st :: |st[f].services|)
  }

  ghost function NumResourcesOfEntry(entry: Entry): nat {
    Total(map s | s in entry.services :: |entry.services[s].resources|)
  }

  ghost function NumResources(st: State): nat {
    Total(map f | f in st :: NumResourcesOfEntry(st[f]))
  }

  // ---------- Operations on one service ----------

  function NewService(): Service {
    Service(map[], ServiceScheduled, true, 0, [])
  }

  function AddResource(service: Service, u: string, status: NalejServiceStatus): Service {
    if u in service.resources then service
    else service.(resources := service.resources[u := Resource(status, true)],
                  numPendingChecks := service.numPendingChecks + 1)
  }

  /** The check that a running resource has fulfilled. */
  function RunningCheck(status: NalejServiceStatus): int {
    if status == ServiceRunning then 1 else 0
  }

  /** A resource takes a new status; the service's own status is not looked at yet. */
  function ChangeResource(service: Service, u: string, status: NalejServiceStatus,
                          endpoints: seq<EndpointInstance>): Service
    requires u in service.resources
  {
    var before := service.resources[u];
    service.(
    resources := service.resources[u := Resource(status, before.pending && status != ServiceRunning)],
    numPendingChecks := service.numPendingChecks + RunningCheck(before.status) - RunningCheck(status),
    endpoints := service.endpoints + endpoints)
  }

  /** The service takes the worst status of its resources and is flagged if that is new. */
  function Recompute(service: Service): Service {
    var worst := Worst(ResourceStatuses(service.resources));
    service.(status := worst, newStatus := service.newStatus || worst != service.status)
  }

  function UpdateResource(service: Service, u: string, status: NalejServiceStatus,
                          endpoints: seq<EndpointInstance>): Service
    requires u in service.resources
  {
    if service.resources[u].status == status then service
    else Recompute(ChangeResource(service, u, status, endpoints))
  }

  // ---------- Operations on one entry ----------

  function NewServices(current: Entry, added: Entry): set<string> {
    set s | s in added.services && s !in current.services
  }

  function WithServices(current: Entry, services: map<string, Service>, news: int): Entry {
    current.(services := services,
             numPendingChecks := current.numPendingChecks + news,
             totalServices := current.totalServices + news)
  }

  /** Add the services that the entry does not have yet. */
  function AppendServices(current: Entry, added: Entry): Entry {
    WithServices(current, added.services + current.services, |NewServices(current, added)|)
  }

  function TerminateServices(services: map<string, Service>): map<string, Service> {
    map s | s in services :: services[s].(status := ServiceTerminating)
  }

  function ForceServices(services: map<string, Service>, status: NalejServiceStatus): map<string, Service> {
    map s | s in services ::
      services[s].(status := status, newStatus := services[s].newStatus || services[s].status != status)
  }

  function SetStatusOfEntry(entry: Entry, status: FragmentStatus): Entry {
    entry.(newStatus := entry.newStatus || status != entry.status,
           status := status,
           services := if status == FragmentTerminating then TerminateServices(entry.services) else entry.services)
  }

  function ForceEntry(entry: Entry, status: FragmentStatus): Entry {
    if entry.status == status then entry
    else entry.(newStatus := true, status := status,
                services := ForceServices(entry.services, FragmentStatusToNalejServiceStatus(status)))
  }

  /** The monitor-level removal: one check less, whatever the resource's status and flag. */
  function RemoveResource(entry: Entry, s: string, u: string): Entry
    requires s in entry.services && u in entry.services[s].resources
  {
    var service := entry.services[s];
    var left := service.numPendingChecks - 1;
    var resources := service.resources[u := service.resources[u].(pending := false)];
    entry.(services := entry.services[s := service.(resources := resources, numPendingChecks := left)],
           numPendingChecks := entry.numPendingChecks - if left == 0 then 1 else 0)
  }

  function ForceEntryOf(entry: Entry, app: string, status: FragmentStatus): Entry {
    if entry.appInstanceId == app then ForceEntry(entry, status) else entry
  }

  function WithService(entry: Entry, s: string, service: Service): Entry {
    var services := entry.services[s := service];
    entry.(services := services, status := ServicesToFragmentStatus(Worst(ServiceStatuses(services))))
  }

  function Unflag(entry: Entry): Entry {
    entry.(newStatus := false,
           services := map s | s in entry.services :: entry.services[s].(newStatus := false))
  }

  // ---------- Operations of the monitor ----------

  function AddEntry(st: State, f: string, added: Entry): State {
    if f in st then st[f := AppendServices(st[f], added)] else st[f := added]
  }

  function SetEntryStatus(st: State, f: string, status: FragmentStatus): State {
    if f in st then st[f := SetStatusOfEntry(st[f], status)] else st
  }

  function SetAppStatus(st: State, app: string, status: FragmentStatus): State {
    map f | f in st :: ForceEntryOf(st[f], app, status)
  }

  function UpdateAppStatus(st: State, f: string): State {
    if f in st then st[f := st[f].(numPendingChecks := |NotRunningServices(st[f].services)|)] else st
  }

  function AddPendingResource(st: State, f: string, s: string, u: string, status: NalejServiceStatus): State {
    if HasService(st, f, s)
    then st[f := st[f].(services := st[f].services[s := AddResource(st[f].services[s], u, status)])]
    else st
  }

  function RemovePendingResource(st: State, f: string, s: string, u: string): State {
    if HasResource(st, f, s, u) then st[f := RemoveResource(st[f], s, u)] else st
  }

  function SetResourceStatus(st: State, f: string, s: string, u: string, status: NalejServiceStatus,
                             endpoints: seq<EndpointInstance>): State
  {
    if HasResource(st, f, s, u) && st[f].services[s].resources[u].status != status
    then st[f := WithService(st[f], s, UpdateResource(st[f].services[s], u, status, endpoints))]
    else st
  }

  /** The part of a notification round that changes the monitor: terminating entries go. */
  function DropTerminating(st: State): State {
    map f | f in st && st[f].status != FragmentTerminating :: st[f]
  }

  function ResetUnnotified(st: State): State {
    map f | f in st :: Unflag(st[f])
  }

  function RemoveEntry(st: State, f: string): State {
    map g | g in st && g != f :: st[g]
  }

  /** What may be said of the status of an application: the status of any one of its fragments. */
  ghost predicate AppStatusAnswer(st: State, app: string, answer: Option<FragmentStatus>) {
    match answer
    case None => forall f | f in st :: st[f].appInstanceId != app
    case Some(status) => exists f :: f in st && st[f].appInstanceId == app && st[f].status == status
  }

  // ---------- Runs ----------

  datatype Op =
    | OpAddEntry(f: string, entry: Entry)
    | OpSetEntryStatus(f: string, fragmentStatus: FragmentStatus)
    | OpSetAppStatus(app: string, fragmentStatus: FragmentStatus)
    | OpUpdateAppStatus(f: string)
    | OpAddPendingResource(f: string, s: string, u: string, status: NalejServiceStatus)
    | OpRemovePendingResource(f: string, s: string, u: string)
    | OpSetResourceStatus(f: string, s: string, u: string, status: NalejServiceStatus, endpoints: seq<EndpointInstance>)
    | OpDropTerminating
    | OpResetUnnotified
    | OpRemoveEntry(f: string)

  function Step(st: State, op: Op): State {
    match op
    case OpAddEntry(f, entry) => AddEntry(st, f, entry)
    case OpSetEntryStatus(f, status) => SetEntryStatus(st, f, status)
    case OpSetAppStatus(app, status) => SetAppStatus(st, app, status)
    case OpUpdateAppStatus(f) => UpdateAppStatus(st, f)
    case OpAddPendingResource(f, s, u, status) => AddPendingResource(st, f, s, u, status)
    case OpRemovePendingResource(f, s, u) => RemovePendingResource(st, f, s, u)
    case OpSetResourceStatus(f, s, u, status, endpoints) => SetResourceStatus(st, f, s, u, status, endpoints)
    case OpDropTerminating => DropTerminating(st)
    case OpResetUnnotified => ResetUnnotified(st)
    case OpRemoveEntry(f) => RemoveEntry(st, f)
  }

  function Run(st: State, ops: seq<Op>): State
    decreases |ops|
  {
    if ops == [] then st else Run(Step(st, ops[0]), ops[1..])
  }

  lemma {:induction false} RunOneMore(st: State, ops: seq<Op>, op: Op)
    ensures Run(st, ops + [op]) == Step(Run(st, ops), op)
    decreases |ops|
  {
    if ops == [] {
      assert ([op])[1..] == [];
      assert ops + [op] == [op];
    } else {
      assert (ops + [op])[0] == ops[0] && (ops + [op])[1..] == ops[1..] + [op];
      RunOneMore(Step(st, ops[0]), ops[1..], op);
    }
  }
}
