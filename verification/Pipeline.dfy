/** From a change in the cluster to the status of a monitored resource: the transport of events with
    the handlers of the Kubernetes controller at its end, while other users of the monitor are at work.
    Everything may happen between any two steps. */
module Pipeline {
  import opened Entities
  import opened Events
  import opened M = MonitorModel
  import opened Controller
  import opened T = Transport
  import Q = WorkQueue

  /** The transport and the monitor. The rest is history: `home` is the one name under which each unique
      identifier was ever used; `gaveUp` the names of which an event was given up, and `orphaned` those
      whose fragment was removed, since their object last changed or was handled. */
  datatype Pipeline = Pipeline(
    t: Transport<Object>,
    monitor: State,
    home: map<string, Ref>,
    gaveUp: set<Ref>,
    orphaned: set<Ref>)

  datatype Move =
    | Store(ref: Ref, obj: Object, action: Action)
    | Delete(ref: Ref, marker: bool)
    | Announce(i: nat)
    | Take
    | Fetch(cleaned: bool)
    | Handle
    | Settle
    | Delay(event: Event)
    | Mutate(op: Op)

  /** An object keeps its unique identifier, and no other object ever gets it. Only the handlers set
      the status of resources. */
  ghost predicate Enabled(p: Pipeline, a: Move) {
    match a
    case Store(r, obj, action) =>
      && action != EventDelete && obj.GetKind() == r.kind
      && (obj.meta.uid !in p.home || (r in p.t.store && p.t.store[r].meta.uid == obj.meta.uid))
    case Delete(r, _) => r in p.t.store
    case Announce(i) => CanAnnounce(p.t, i)
    case Take => p.t.worker.Free? && p.t.q.queue != []
    case Fetch(_) => p.t.worker.Got?
    case Handle => p.t.worker.Fetched?
    case Settle => p.t.worker.Finished?
    case Delay(e) => e in p.t.q.waiting
    case Mutate(op) => !op.OpSetResourceStatus?
  }

  function AfterStore(p: Pipeline, r: Ref, obj: Object, action: Action): Pipeline {
    p.(t := T.Put(p.t, r, obj, action), home := p.home[obj.meta.uid := r], gaveUp := p.gaveUp - {r},
       orphaned := p.orphaned - {r})
  }

  function AfterDelete(p: Pipeline, r: Ref, marker: bool): Pipeline
    requires r in p.t.store
  {
    p.(t := T.Remove(p.t, r, marker))
  }

  function AfterAnnounce(p: Pipeline, i: nat): Pipeline
    requires i < |p.t.notices|
  {
    p.(t := T.Announce(p.t, i))
  }

  function AfterTake(p: Pipeline): Pipeline
    requires p.t.q.queue != []
  {
    p.(t := T.Take(p.t))
  }

  function AfterFetch(p: Pipeline, cleaned: bool): Pipeline
    requires p.t.worker.Got?
  {
    p.(t := T.Fetch(p.t, cleaned))
  }

  /** The handler was called for the object that is in the store now, and succeeded. */
  predicate HandledCurrent(p: Pipeline, ok: bool) {
    && p.t.worker.Fetched? && p.t.worker.obj.Some? && ok
    && var e := p.t.worker.event;
    && e.action != EventDelete && e.ref in p.t.store && p.t.store[e.ref] == p.t.worker.obj.value
  }

  function AfterHandle(p: Pipeline): Pipeline
    requires p.t.worker.Fetched?
  {
    var e := p.t.worker.event;
    if p.t.worker.obj.None? then p.(t := p.t.(worker := Finished(e, false)))
    else if p.t.worker.obj.value.GetKind() != e.ref.kind then p.(t := p.t.(worker := Panicked(e)))
    else
      var result := Controller.Handle(p.monitor, p.t.worker.obj.value, e.action);
      p.(t := p.t.(worker := Finished(e, result.ok)), monitor := result.state,
         gaveUp := if HandledCurrent(p, result.ok) then p.gaveUp - {e.ref} else p.gaveUp,
         orphaned := if HandledCurrent(p, result.ok) then p.orphaned - {e.ref} else p.orphaned)
  }

  function AfterSettle(p: Pipeline): Pipeline
    requires p.t.worker.Finished?
  {
    var e := p.t.worker.event;
    p.(t := T.Settle(p.t),
       gaveUp := if GivesUp(p.t) && e.action != EventDelete then p.gaveUp + {e.ref} else p.gaveUp)
  }

  function AfterDelay(p: Pipeline, e: Event): Pipeline {
    p.(t := T.Delay(p.t, e))
  }

  function AfterMutate(p: Pipeline, op: Op): Pipeline {
    var after := M.Step(p.monitor, op);
    p.(monitor := after,
       orphaned := p.orphaned + set r | r in p.t.store && p.t.store[r].meta.fragmentId in p.monitor
                                        && p.t.store[r].meta.fragmentId !in after)
  }

  function Act(p: Pipeline, a: Move): Pipeline
    requires Enabled(p, a)
  {
    match a
    case Store(r, obj, action) => AfterStore(p, r, obj, action)
    case Delete(r, marker) => AfterDelete(p, r, marker)
    case Announce(i) => AfterAnnounce(p, i)
    case Take => AfterTake(p)
    case Fetch(cleaned) => AfterFetch(p, cleaned)
    case Handle => AfterHandle(p)
    case Settle => AfterSettle(p)
    case Delay(e) => AfterDelay(p, e)
    case Mutate(op) => AfterMutate(p, op)
  }

  // ---------- The invariant ----------

  /** The event will still be handled for the object that is in the store now. */
  ghost predicate Pending(p: Pipeline, e: Event) {
    || (exists n :: n in p.t.notices && n.event == e)
    || e in p.t.q.dirty || e in p.t.q.waiting
    || p.t.worker == Got(e) || p.t.worker == Finished(e, false)
    || (p.t.worker.Fetched? && p.t.worker.event == e && e.ref in p.t.store && p.t.worker.obj == Some(p.t.store[e.ref]))
  }

  /** Some announcement of the object, other than of a deletion, is pending. */
  ghost predicate Live(p: Pipeline, r: Ref) {
    Pending(p, Event(r, EventAdd)) || Pending(p, Event(r, EventUpdate))
  }

  /** The resource of the object is up to date, or will be looked at again, or there is a reason. */
  ghost predicate Fine(p: Pipeline, r: Ref)
    requires r in p.t.store
  {
    || Synced(p.monitor, p.t.store[r])
    || Live(p, r)
    || r in p.gaveUp
    || p.t.worker.Panicked?
    || r in p.orphaned
  }

  /** Each unique identifier is used at its home only; what was deleted is not in the store. */
  ghost predicate AtHome(p: Pipeline) {
    && (forall r | r in p.t.store :: Resides(p, p.t.store[r]) && p.home[p.t.store[r].meta.uid] == r)
    && (forall k | k in p.t.deleted :: Gone(p, k, p.t.deleted[k]))
    && (forall n | n in p.t.notices && n.gone.Some? :: Gone(p, n.event.ref.key, n.gone.value))
  }

  ghost predicate Resides(p: Pipeline, obj: Object) {
    obj.meta.uid in p.home && p.home[obj.meta.uid].kind == obj.GetKind()
  }

  ghost predicate Gone(p: Pipeline, key: string, obj: Object) {
    && Resides(p, obj)
    && var r := p.home[obj.meta.uid];
    && r.key == key
    && (r in p.t.store ==> p.t.store[r].meta.uid != obj.meta.uid)
  }

  /** What the worker fetched is current, or gone, or else it has changed since and is live. */
  ghost predicate FetchedInv(p: Pipeline) {
    p.t.worker.Fetched? && p.t.worker.obj.Some? ==>
      var obj := p.t.worker.obj.value;
      && Resides(p, obj)
      && var r := p.home[obj.meta.uid];
      && r.key == p.t.worker.event.ref.key
      && (r in p.t.store && p.t.store[r].meta.uid == obj.meta.uid && p.t.store[r] != obj ==> Live(p, r))
      && (r != p.t.worker.event.ref && r in p.t.store ==> p.t.store[r].meta.uid != obj.meta.uid)
  }

  ghost predicate Inv(p: Pipeline) {
    WorkerInv(p.t) && AtHome(p) && FetchedInv(p) && forall r | r in p.t.store :: Fine(p, r)
  }

  lemma StoreKeeps(p: Pipeline, r: Ref, obj: Object, action: Action)
    requires Inv(p) && Enabled(p, Store(r, obj, action))
    ensures Inv(AfterStore(p, r, obj, action))
  {
    var p' := AfterStore(p, r, obj, action);
    StoreIsLive(p, r, obj, action);
    forall s | s in p'.t.store
      ensures Fine(p', s)
    {
      if s != r {
        assert Fine(p, s);
        if Live(p, s) {
          LiveStays(p, p', s);
        }
      }
    }
    StoreKeepsHome(p, r, obj, action);
    if p.t.worker.Fetched? && p.t.worker.event.ref != r && Live(p, p.t.worker.event.ref) {
      LiveStays(p, p', p.t.worker.event.ref);
    }
  }

  lemma StoreIsLive(p: Pipeline, r: Ref, obj: Object, action: Action)
    requires action != EventDelete
    ensures Live(AfterStore(p, r, obj, action), r)
  {
    var n := Notice(Event(r, action), None);
    assert n in AfterStore(p, r, obj, action).t.notices;
    assert Pending(AfterStore(p, r, obj, action), Event(r, action));
  }

  lemma StoreKeepsHome(p: Pipeline, r: Ref, obj: Object, action: Action)
    requires AtHome(p) && Enabled(p, Store(r, obj, action))
    ensures AtHome(AfterStore(p, r, obj, action))
  {
    var p' := AfterStore(p, r, obj, action);
    forall s | s in p'.t.store
      ensures Resides(p', p'.t.store[s]) && p'.home[p'.t.store[s].meta.uid] == s
    {
      assert s != r ==> Resides(p, p.t.store[s]);
    }
    forall k | k in p'.t.deleted
      ensures Gone(p', k, p'.t.deleted[k])
    {
      assert Gone(p, k, p.t.deleted[k]);
    }
    forall n | n in p'.t.notices && n.gone.Some?
      ensures Gone(p', n.event.ref.key, n.gone.value)
    {
      assert n in p.t.notices;
    }
  }

  /** Nothing that concerns the name gets lost. */
  lemma LiveStays(p: Pipeline, p': Pipeline, r: Ref)
    requires Live(p, r)
    requires forall n | n in p.t.notices :: n in p'.t.notices
    requires p'.t.q == p.t.q && p'.t.worker == p.t.worker
    requires r in p.t.store ==> r in p'.t.store && p'.t.store[r] == p.t.store[r]
    ensures Live(p', r)
  {
  }

  lemma DeleteKeeps(p: Pipeline, r: Ref, marker: bool)
    requires Inv(p) && Enabled(p, Delete(r, marker))
    ensures Inv(AfterDelete(p, r, marker))
  {
    var p' := AfterDelete(p, r, marker);
    forall s | s in p'.t.store
      ensures Fine(p', s)
    {
      assert Fine(p, s);
      if Live(p, s) {
        LiveStays(p, p', s);
      }
    }
    if p.t.worker.Fetched? && p.t.worker.event.ref != r && Live(p, p.t.worker.event.ref) {
      LiveStays(p, p', p.t.worker.event.ref);
    }
  }

  lemma AnnounceKeepsPending(p: Pipeline, i: nat, e: Event)
    requires i < |p.t.notices| && Pending(p, e)
    ensures Pending(AfterAnnounce(p, i), e)
  {
    var p' := AfterAnnounce(p, i);
    if n :| n in p.t.notices && n.event == e {
      if n == p.t.notices[i] {
        assert e in p'.t.q.dirty;
      } else {
        assert n in p'.t.notices;
      }
    }
  }

  lemma AnnounceKeeps(p: Pipeline, i: nat)
    requires Inv(p) && Enabled(p, Announce(i))
    ensures Inv(AfterAnnounce(p, i))
  {
    var p' := AfterAnnounce(p, i);
    StepsKeepWorker(p.t, i, p.t.notices[i].event);
    AnnounceKeepsHome(p, i);
    forall e | Pending(p, e)
      ensures Pending(p', e)
    {
      AnnounceKeepsPending(p, i, e);
    }
    forall r | r in p'.t.store
      ensures Fine(p', r)
    {
      assert Fine(p, r);
    }
  }

  lemma AnnounceKeepsHome(p: Pipeline, i: nat)
    requires AtHome(p) && i < |p.t.notices|
    ensures AtHome(AfterAnnounce(p, i))
  {
    var p' := AfterAnnounce(p, i);
    var n := p.t.notices[i];
    assert n in p.t.notices && forall m | m in p'.t.notices :: m in p.t.notices;
    forall k | k in p'.t.deleted
      ensures Gone(p', k, p'.t.deleted[k])
    {
      assert k in p.t.deleted ==> Gone(p, k, p.t.deleted[k]);
    }
    forall m | m in p'.t.notices && m.gone.Some?
      ensures Gone(p', m.event.ref.key, m.gone.value)
    {
      assert Gone(p, m.event.ref.key, m.gone.value);
    }
  }

  /** A step that leaves the store and the monitor alone and loses no pending event keeps the rest. */
  lemma StaysFine(p: Pipeline, p': Pipeline, r: Ref)
    requires r in p.t.store && Fine(p, r) && p'.t.store == p.t.store && p'.monitor == p.monitor
    requires p.gaveUp <= p'.gaveUp && p'.orphaned == p.orphaned
    requires p.t.worker.Panicked? ==> p'.t.worker.Panicked?
    requires forall e: Event | e.ref == r && e.action != EventDelete && Pending(p, e) :: Pending(p', e) || r in p'.gaveUp
    ensures Fine(p', r)
  {
  }

  lemma TakeKeeps(p: Pipeline)
    requires Inv(p) && Enabled(p, Take)
    ensures Inv(AfterTake(p))
  {
    StepsKeepWorker(p.t, |p.t.notices|, p.t.q.queue[0]);
    forall r | r in p.t.store
      ensures Fine(AfterTake(p), r)
    {
      StaysFine(p, AfterTake(p), r);
    }
  }

  lemma FetchKeeps(p: Pipeline, cleaned: bool)
    requires Inv(p) && Enabled(p, Fetch(cleaned))
    ensures Inv(AfterFetch(p, cleaned))
  {
    var p' := AfterFetch(p, cleaned);
    forall r | r in p.t.store
      ensures Fine(p', r)
    {
      StaysFine(p, p', r);
    }
    FetchKeepsHome(p, cleaned);
  }

  lemma FetchKeepsHome(p: Pipeline, cleaned: bool)
    requires AtHome(p) && p.t.worker.Got?
    ensures AtHome(AfterFetch(p, cleaned)) && FetchedInv(AfterFetch(p, cleaned))
  {
    var r := p.t.worker.event.ref;
    if r in p.t.store {
      assert Resides(p, p.t.store[r]);
    } else if r.key in p.t.deleted {
      assert Gone(p, r.key, p.t.deleted[r.key]);
    }
  }

  lemma DelayKeeps(p: Pipeline, e: Event)
    requires Inv(p) && Enabled(p, Delay(e))
    ensures Inv(AfterDelay(p, e))
  {
    StepsKeepWorker(p.t, |p.t.notices|, e);
    SameHome(p, AfterDelay(p, e));
    forall r | r in p.t.store
      ensures Fine(AfterDelay(p, e), r)
    {
      StaysFine(p, AfterDelay(p, e), r);
    }
  }

  lemma SettleKeeps(p: Pipeline)
    requires Inv(p) && Enabled(p, Settle)
    ensures Inv(AfterSettle(p))
  {
    StepsKeepWorker(p.t, |p.t.notices|, p.t.worker.event);
    forall r | r in p.t.store
      ensures Fine(AfterSettle(p), r)
    {
      SettleKeepsPending(p);
      StaysFine(p, AfterSettle(p), r);
    }
  }

  /** A failed event is delayed or given up; no other event is touched. */
  lemma SettleKeepsPending(p: Pipeline)
    requires p.t.worker.Finished?
    ensures forall e: Event | Pending(p, e) ::
              Pending(AfterSettle(p), e) || e.action == EventDelete || e.ref in AfterSettle(p).gaveUp
  {
  }

  /** What the other users of the monitor do to a resource: nothing, unless its fragment goes. */
  lemma MutateKeepsSynced(st: State, op: Op, obj: Object)
    requires !op.OpSetResourceStatus? && Synced(st, obj)
    ensures Synced(M.Step(st, op), obj) || (obj.meta.fragmentId in st && obj.meta.fragmentId !in M.Step(st, op))
  {
  }

  lemma MutateKeeps(p: Pipeline, op: Op)
    requires Inv(p) && Enabled(p, Mutate(op))
    ensures Inv(AfterMutate(p, op))
  {
    var p' := AfterMutate(p, op);
    forall r | r in p'.t.store
      ensures Fine(p', r)
    {
      assert Fine(p, r);
      if Synced(p.monitor, p.t.store[r]) {
        MutateKeepsSynced(p.monitor, op, p.t.store[r]);
      } else if Live(p, r) {
        LiveStays(p, p', r);
      }
    }
  }

  lemma HandleKeeps(p: Pipeline)
    requires Inv(p) && Enabled(p, Handle)
    ensures Inv(AfterHandle(p))
  {
    HandleKeepsWorker(p);
    SameHome(p, AfterHandle(p));
    forall r | r in AfterHandle(p).t.store
      ensures Fine(AfterHandle(p), r)
    {
      if r == p.t.worker.event.ref {
        HandleKeepsOwn(p);
      } else {
        HandleKeepsOther(p, r);
      }
    }
  }

  lemma HandleKeepsWorker(p: Pipeline)
    requires WorkerInv(p.t) && p.t.worker.Fetched?
    ensures WorkerInv(AfterHandle(p).t) && !AfterHandle(p).t.worker.Fetched?
  {
  }

  /** Where objects are at home depends on the stores and what is to be announced of them only. */
  lemma SameHome(p: Pipeline, p': Pipeline)
    requires AtHome(p) && p'.home == p.home && p'.t.store == p.t.store && p'.t.deleted == p.t.deleted
    requires forall n | n in p'.t.notices :: n in p.t.notices
    ensures AtHome(p')
  {
    forall k | k in p'.t.deleted
      ensures Gone(p', k, p'.t.deleted[k])
    {
      assert Gone(p, k, p.t.deleted[k]);
    }
    forall n | n in p'.t.notices && n.gone.Some?
      ensures Gone(p', n.event.ref.key, n.gone.value)
    {
      assert Gone(p, n.event.ref.key, n.gone.value);
    }
  }

  /** The object whose event is handled: it is now up to date, or the handler failed and the event is
      about to be retried, or the handler saw what the object no longer is. */
  lemma HandleKeepsOwn(p: Pipeline)
    requires Inv(p) && Enabled(p, Handle) && p.t.worker.event.ref in p.t.store
    ensures Fine(AfterHandle(p), p.t.worker.event.ref)
  {
    var e, r := p.t.worker.event, p.t.worker.event.ref;
    assert Fine(p, r);
    if p.t.worker.obj.Some? && p.t.worker.obj.value.GetKind() == r.kind {
      if p.t.store[r].meta.uid != p.t.worker.obj.value.meta.uid {
        HandleSparesOthers(p.monitor, p.t.worker.obj.value, e.action, p.t.store[r]);
      } else if p.t.store[r] == p.t.worker.obj.value {
        HandleCurrent(p);
      }
    }
  }

  lemma HandleCurrent(p: Pipeline)
    requires p.t.worker.Fetched? && p.t.worker.event.ref in p.t.store && Fine(p, p.t.worker.event.ref)
    requires p.t.worker.obj == Some(p.t.store[p.t.worker.event.ref])
    ensures Fine(AfterHandle(p), p.t.worker.event.ref)
  {
    if p.t.worker.event.action != EventDelete {
      HandleSyncs(p.monitor, p.t.worker.obj.value, p.t.worker.event.action);
    }
  }

  lemma HandleKeepsOther(p: Pipeline, r: Ref)
    requires Inv(p) && Enabled(p, Handle) && r in p.t.store && p.t.worker.event.ref != r
    ensures Fine(AfterHandle(p), r)
  {
    assert Fine(p, r);
    if p.t.worker.obj.Some? {
      HandleSparesOthers(p.monitor, p.t.worker.obj.value, p.t.worker.event.action, p.t.store[r]);
    }
  }

  lemma ActKeeps(p: Pipeline, a: Move)
    requires Inv(p) && Enabled(p, a)
    ensures Inv(Act(p, a))
  {
    match a
    case Store(r, obj, action) => StoreKeeps(p, r, obj, action);
    case Delete(r, marker) => DeleteKeeps(p, r, marker);
    case Announce(i) => AnnounceKeeps(p, i);
    case Take => TakeKeeps(p);
    case Fetch(cleaned) => FetchKeeps(p, cleaned);
    case Handle => HandleKeeps(p);
    case Settle => SettleKeeps(p);
    case Delay(e) => DelayKeeps(p, e);
    case Mutate(op) => MutateKeeps(p, op);
  }

  // ---------- Convergence ----------

  const START := Pipeline(T.Start(), map[], map[], {}, {})

  /** These moves lead from one state to the other. */
  ghost predicate Leads(p: Pipeline, moves: seq<Move>, q: Pipeline)
    decreases |moves|
  {
    if moves == [] then p == q else Enabled(p, moves[0]) && Leads(Act(p, moves[0]), moves[1..], q)
  }

  lemma {:induction false} RunKeeps(p: Pipeline, moves: seq<Move>, q: Pipeline)
    requires Leads(p, moves, q) && Inv(p)
    ensures Inv(q)
    decreases |moves|
  {
    if moves != [] {
      ActKeeps(p, moves[0]);
      RunKeeps(Act(p, moves[0]), moves[1..], q);
    }
  }

  /** Convergence: however updates were coalesced, delayed and interleaved with other users of the
      monitor, once nothing is left to do, the resource of every object in the cluster has the status
      that the object as it is now gives it. The exceptions are objects of which an event was given
      up, or whose fragment was removed, since they last changed or were handled. */
  lemma QuietMeansSynced(moves: seq<Move>, p: Pipeline, r: Ref)
    requires Leads(START, moves, p) && Quiet(p.t)
    requires r in p.t.store && r !in p.gaveUp && r !in p.orphaned
    ensures Synced(p.monitor, p.t.store[r])
  {
    RunKeeps(START, moves, p);
    assert Fine(p, r);
  }

  /** So with nothing left to do, what is to be seen of each deployment, service and ingress in the
      cluster is what its resource shows. */
  lemma QuietMeansShown(moves: seq<Move>, p: Pipeline, r: Ref)
    requires Leads(START, moves, p) && Quiet(p.t)
    requires r in p.t.store && r !in p.gaveUp && r !in p.orphaned
    ensures var obj := p.t.store[r];
            match obj
            case Deployment(_, _, _, _) =>
              HasOwnResource(p.monitor, obj) && TellsDeployment(StatusOf(p.monitor, obj), obj)
            case Service(_, _, _, _, _) =>
              !Unaddressed(obj) ==> HasOwnResource(p.monitor, obj) && StatusOf(p.monitor, obj) == ServiceRunning
            case Ingress(_, _, _, _) =>
              Reachable(obj) ==> HasOwnResource(p.monitor, obj) && StatusOf(p.monitor, obj) == ServiceRunning
  {
    QuietMeansSynced(moves, p, r);
    SyncedMeansShown(p.monitor, p.t.store[r]);
  }

  /** Nothing is excused without its reason: an event of the object, not of a deletion, failed for the
      sixth time; or an operation removed the fragment of an object in the store. */
  lemma ExcusesAreReal(p: Pipeline, a: Move, r: Ref)
    requires Enabled(p, a)
    ensures r !in p.gaveUp ==>
              (r in Act(p, a).gaveUp <==>
               && a == Settle && p.t.worker.event.ref == r && p.t.worker.event.action != EventDelete
               && !p.t.worker.ok && Q.NumRequeues(p.t.q, p.t.worker.event) >= 5)
    ensures r !in p.orphaned ==>
              (r in Act(p, a).orphaned <==>
               && a.Mutate? && r in p.t.store
               && p.t.store[r].meta.fragmentId in p.monitor && p.t.store[r].meta.fragmentId !in Act(p, a).monitor)
    ensures a.Store? && a.ref == r ==> r !in Act(p, a).gaveUp && r !in Act(p, a).orphaned
  {
  }

  /** An event is handled well exactly if there is an object of its kind, and the handler has nothing to do
      for it or its resource is monitored; without an object it fails and the monitor is left alone. */
  lemma HandledWell(p: Pipeline)
    requires p.t.worker.Fetched? && (p.t.worker.obj.Some? ==> p.t.worker.obj.value.GetKind() == p.t.worker.event.ref.kind)
    ensures var e, after := p.t.worker.event, AfterHandle(p);
            match p.t.worker.obj
            case None => after.t.worker == Finished(e, false) && after.monitor == p.monitor
            case Some(obj) =>
              after.t.worker ==
              Finished(e, HasOwnResource(p.monitor, obj) || e.action == EventDelete
                          || (obj.Service? && Unaddressed(obj)) || (obj.Ingress? && !Reachable(obj)))
  {
    if p.t.worker.obj.Some? {
      var obj := p.t.worker.obj.value;
      if HasOwnResource(p.monitor, obj) {
        HandlersReact(p.monitor, obj, p.t.worker.event.action);
      } else {
        HandlersFail(p.monitor, obj, p.t.worker.event.action);
      }
    }
  }

  // ---------- Panic ----------

  /** The handling of an event panics exactly if its object is no longer stored and the last object
      deleted under the same key was of another kind. */
  lemma PanicsOnForeignDeletion(p: Pipeline, cleaned: bool)
    requires Inv(p) && p.t.worker.Got?
    ensures var r := p.t.worker.event.ref;
            AfterHandle(AfterFetch(p, cleaned)).t.worker.Panicked? <==>
            r !in p.t.store && r.key in p.t.deleted && p.t.deleted[r.key].GetKind() != r.kind
  {
    var r := p.t.worker.event.ref;
    if r in p.t.store {
      assert Resides(p, p.t.store[r]);
    }
  }

  const DEPLOYMENT := Ref(DeploymentKind, "ns/name")
  const SERVICE := Ref(ServiceKind, "ns/name")
  const DEPLOYED := Deployment(Meta("f", "s", "u1"), 0, 1, [])
  const SERVED := Object.Service(Meta("f", "s", "u2"), OtherPurpose, ClusterIP, [], [])

  lemma LeadsOneMore(p: Pipeline, moves: seq<Move>, q: Pipeline, a: Move)
    requires Leads(p, moves, q) && Enabled(q, a)
    ensures Leads(p, moves + [a], Act(q, a))
  {
    assert [a][1..] == [];
    assert Leads(Act(q, a), [a][1..], Act(q, a));
    LeadsOn(p, moves, q, [a], Act(q, a));
  }

  /** The first half of the run: the deployment is announced, the service is created. */
  lemma BothThere() returns (moves: seq<Move>, p: Pipeline)
    ensures Leads(START, moves, p) && p.t.worker.Free?
    ensures p.t.q == Q.Add(Q.Empty(), Event(DEPLOYMENT, EventAdd))
    ensures p.t.store == map[DEPLOYMENT := DEPLOYED, SERVICE := SERVED]
    ensures p.t.notices == [Notice(Event(SERVICE, EventAdd), None)]
  {
    var p1 := Act(START, Store(DEPLOYMENT, DEPLOYED, EventAdd));
    LeadsOneMore(START, [], START, Store(DEPLOYMENT, DEPLOYED, EventAdd));
    LeadsOneMore(START, [] + [Store(DEPLOYMENT, DEPLOYED, EventAdd)], p1, Announce(0));
    var p2 := Act(p1, Announce(0));
    moves := [] + [Store(DEPLOYMENT, DEPLOYED, EventAdd)] + [Announce(0)] + [Store(SERVICE, SERVED, EventAdd)];
    LeadsOneMore(START, [] + [Store(DEPLOYMENT, DEPLOYED, EventAdd)] + [Announce(0)], p2, Store(SERVICE, SERVED, EventAdd));
    p := Act(p2, Store(SERVICE, SERVED, EventAdd));
  }

  /** The second half: both go, and the service is announced as gone. */
  lemma BothGone(moves: seq<Move>, p: Pipeline) returns (more: seq<Move>, q: Pipeline)
    requires Leads(START, moves, p) && p.t.worker.Free?
    requires p.t.q == Q.Add(Q.Empty(), Event(DEPLOYMENT, EventAdd))
    requires p.t.store == map[DEPLOYMENT := DEPLOYED, SERVICE := SERVED]
    requires p.t.notices == [Notice(Event(SERVICE, EventAdd), None)]
    ensures Leads(START, more, q) && q.t.worker.Free? && q.t.q.queue != [] && q.t.q.queue[0] == Event(DEPLOYMENT, EventAdd)
    ensures DEPLOYMENT !in q.t.store && DEPLOYMENT.key in q.t.deleted && q.t.deleted[DEPLOYMENT.key] == SERVED
  {
    LeadsOneMore(START, moves, p, Delete(SERVICE, false));
    var p1 := Act(p, Delete(SERVICE, false));
    LeadsOneMore(START, moves + [Delete(SERVICE, false)], p1, Announce(0));
    var p2 := Act(p1, Announce(0));
    LeadsOneMore(START, moves + [Delete(SERVICE, false)] + [Announce(0)], p2, Announce(0));
    var p3 := Act(p2, Announce(0));
    more := moves + [Delete(SERVICE, false)] + [Announce(0)] + [Announce(0)] + [Delete(DEPLOYMENT, false)];
    LeadsOneMore(START, moves + [Delete(SERVICE, false)] + [Announce(0)] + [Announce(0)], p3, Delete(DEPLOYMENT, false));
    q := Act(p3, Delete(DEPLOYMENT, false));
  }

  /** A deployment and a service of one name are created and deleted before the worker gets to the
      first event: it then hands the service to the handler of deployments. */
  lemma PanicIsReachable() returns (moves: seq<Move>, q: Pipeline)
    ensures Leads(START, moves, q) && q.t.worker.Panicked?
  {
    var there, p := BothThere();
    var gone, g := BothGone(there, p);
    LeadsOneMore(START, gone, g, Take);
    LeadsOneMore(START, gone + [Take], Act(g, Take), Fetch(true));
    var fetched := Act(Act(g, Take), Fetch(true));
    LeadsOneMore(START, gone + [Take] + [Fetch(true)], fetched, Handle);
    moves, q := gone + [Take] + [Fetch(true)] + [Handle], Act(fetched, Handle);
  }

  lemma {:induction false} LeadsOn(p: Pipeline, moves: seq<Move>, q: Pipeline, more: seq<Move>, r: Pipeline)
    requires Leads(p, moves, q) && Leads(q, more, r)
    ensures Leads(p, moves + more, r)
    decreases |moves|
  {
    if moves == [] {
      assert moves + more == more;
    } else {
      assert (moves + more)[0] == moves[0] && (moves + more)[1..] == moves[1..] + more;
      LeadsOn(Act(p, moves[0]), moves[1..], q, more, r);
    }
  }
}
