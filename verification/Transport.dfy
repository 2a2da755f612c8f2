/** How a change in the cluster reaches a handler. The informer changes its store, then announces the
    change; announcements are queued by object name and kind of change, so they coalesce; the worker
    takes one, fetches the object as it is by then, handles it and settles it. What an object is, and
    what handling it does, is left to the users of this module. */
module Transport {
  import opened Entities
  import opened Events
  import Q = WorkQueue

  /** A worker panics when its handler gets an object of another kind. */
  datatype Worker<+O> =
    | Free
    | Got(event: Event)
    | Fetched(event: Event, obj: Option<O>)
    | Finished(event: Event, ok: bool)
    | Panicked(event: Event)

  /** A change in the store that is not announced yet; the object is the one that was deleted. */
  datatype Notice<+O> = Notice(event: Event, gone: Option<O>)

  /** The informers' stores, what they have still to announce, the dispatcher's store of deleted objects
      - which goes by the key alone, whatever the kind - its queue and its worker. */
  datatype Transport<O> = Transport(
    store: map<Ref, O>,
    notices: seq<Notice<O>>,
    deleted: map<string, O>,
    q: Q.Queue,
    worker: Worker<O>)

  function Start<O>(): Transport<O> {
    Transport(map[], [], map[], Q.Empty(), Free)
  }

  function Put<O>(t: Transport<O>, r: Ref, obj: O, action: Action): Transport<O> {
    t.(store := t.store[r := obj], notices := t.notices + [Notice(Event(r, action), None)])
  }

  /** An informer that was away when the object went announces a marker instead of the object; the
      dispatcher can make no event of a marker and drops it. */
  function Remove<O>(t: Transport<O>, r: Ref, marker: bool): Transport<O>
    requires r in t.store
  {
    t.(store := map s | s in t.store && s != r :: t.store[s],
       notices := if marker then t.notices else t.notices + [Notice(Event(r, EventDelete), Some(t.store[r]))])
  }

  /** Each kind has its own informer, which announces in order. */
  predicate CanAnnounce<O>(t: Transport<O>, i: nat) {
    i < |t.notices| && forall j | 0 <= j < i :: t.notices[j].event.ref.kind != t.notices[i].event.ref.kind
  }

  /** OnAdd, OnUpdate or OnDelete. */
  function Announce<O>(t: Transport<O>, i: nat): Transport<O>
    requires i < |t.notices|
  {
    var n := t.notices[i];
    t.(notices := t.notices[..i] + t.notices[i + 1..], q := Q.Add(t.q, n.event),
       deleted := if n.gone.Some? then t.deleted[n.event.ref.key := n.gone.value] else t.deleted)
  }

  function Take<O>(t: Transport<O>): Transport<O>
    requires t.q.queue != []
  {
    t.(q := Q.Get(t.q), worker := Got(t.q.queue[0]))
  }

  /** The current object, or else the deleted one under that key. */
  function FetchObj<O>(t: Transport<O>, r: Ref): Option<O> {
    if r in t.store then Some(t.store[r]) else if r.key in t.deleted then Some(t.deleted[r.key]) else None
  }

  /** The deleted object is removed from its store, or it is kept: that depends on what that store
      makes of being given a key where it expects an object. */
  function Fetch<O>(t: Transport<O>, cleaned: bool): Transport<O>
    requires t.worker.Got?
  {
    var r := t.worker.event.ref;
    t.(worker := Fetched(t.worker.event, FetchObj(t, r)),
       deleted := if r in t.store || !cleaned then t.deleted else map k | k in t.deleted && k != r.key :: t.deleted[k])
  }

  /** A fetch forgets a deleted object exactly if it is cleaned up after and returns that object, for an
      event whose own object is gone. */
  lemma FetchForgets<O>(t: Transport<O>, cleaned: bool, key: string)
    requires t.worker.Got? && key in t.deleted
    ensures var r := t.worker.event.ref;
            && (key !in Fetch(t, cleaned).deleted <==> cleaned && r !in t.store && r.key == key)
            && (key !in Fetch(t, cleaned).deleted ==> Fetch(t, cleaned).worker == Fetched(t.worker.event, Some(t.deleted[key])))
            && (key in Fetch(t, cleaned).deleted ==> Fetch(t, cleaned).deleted[key] == t.deleted[key])
  {
  }

  function Settle<O>(t: Transport<O>): Transport<O>
    requires t.worker.Finished?
  {
    t.(worker := Free, q := Q.Settle(t.q, t.worker.event, t.worker.ok))
  }

  /** Settling gives the event up. */
  predicate GivesUp<O>(t: Transport<O>) {
    t.worker.Finished? && !t.worker.ok && Q.NumRequeues(t.q, t.worker.event) >= Q.MAX_RETRIES
  }

  function Delay<O>(t: Transport<O>, e: Event): Transport<O> {
    t.(q := Q.Elapse(t.q, e))
  }

  /** The single worker is all that processes. */
  ghost predicate WorkerInv<O>(t: Transport<O>) {
    Q.Valid(t.q) && t.q.processing == if t.worker.Free? then {} else {t.worker.event}
  }

  /** Nothing is left to do. */
  predicate Quiet<O>(t: Transport<O>) {
    t.notices == [] && t.q.dirty == {} && t.q.waiting == {} && t.worker.Free?
  }

  lemma StepsKeepWorker<O>(t: Transport<O>, i: nat, e: Event)
    requires WorkerInv(t)
    ensures i < |t.notices| ==> WorkerInv(Announce(t, i))
    ensures t.worker.Free? && t.q.queue != [] ==> WorkerInv(Take(t))
    ensures t.worker.Finished? ==> WorkerInv(Settle(t))
    ensures WorkerInv(Delay(t, e))
  {
    if i < |t.notices| {
      Q.AddKeepsValid(t.q, t.notices[i].event);
    }
    Q.OperationsKeepValid(t.q, e, true);
    if t.worker.Finished? {
      Q.OperationsKeepValid(t.q, t.worker.event, t.worker.ok);
    }
  }
}
