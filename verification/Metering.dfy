/** The metrics at the end of the transport of events: how far what is counted as running is from the
    objects there are, in every run. Announcements that coalesce, that are given up, or that cannot be
    made into an event are remembered, because they are all that the count can miss. */
module Metering {
  import opened Entities
  import opened Events
  import opened Metrics
  import opened MetricsTranslator
  import opened T = Transport
  import Q = WorkQueue

  /** An object as the translator sees it, and whether it is younger than the program. */
  datatype Item = Item(obj: Object, afterStartup: bool)

  /** The transport and the collected metrics; the rest is history. */
  datatype Meter = Meter(
    t: Transport<Item>,
    metrics: Metrics,
    coalesced: seq<Event>,
    gaveUp: seq<Event>,
    missed: seq<Event>)

  datatype Move =
    | Store(ref: Ref, item: Item)
    | Delete(ref: Ref, marker: bool)
    | Announce(i: nat)
    | Take
    | Fetch(cleaned: bool)
    | Handle
    | Settle
    | Delay(event: Event)

  /** What the objects of each name count for; neither the type of a service nor the labels that decide
      about it change. */
  type Counting = Ref -> Option<string>

  ghost predicate Enabled(m: Meter, a: Move, counts: Counting) {
    match a
    case Store(r, item) => item.obj.GetKind() == r.kind && MetricOf(item.obj) == counts(r)
    case Delete(r, _) => r in m.t.store
    case Announce(i) => CanAnnounce(m.t, i)
    case Take => m.t.worker.Free? && m.t.q.queue != []
    case Fetch(_) => m.t.worker.Got?
    case Handle => m.t.worker.Fetched?
    case Settle => m.t.worker.Finished?
    case Delay(e) => e in m.t.q.waiting
  }

  /** An informer announces what is new in its store as added, and what was there as updated. */
  function AfterStore(m: Meter, r: Ref, item: Item): Meter {
    m.(t := T.Put(m.t, r, item, if r in m.t.store then EventUpdate else EventAdd))
  }

  function AfterDelete(m: Meter, r: Ref, marker: bool): Meter
    requires r in m.t.store
  {
    m.(t := T.Remove(m.t, r, marker), missed := if marker then m.missed + [Event(r, EventDelete)] else m.missed)
  }

  /** The event is already to be handled: it makes no second one. */
  function Merged(m: Meter, e: Event, merges: bool): seq<Event> {
    if merges then m.coalesced + [e] else m.coalesced
  }

  function AfterAnnounce(m: Meter, i: nat): Meter
    requires i < |m.t.notices|
  {
    var e := m.t.notices[i].event;
    m.(t := T.Announce(m.t, i), coalesced := Merged(m, e, e in m.t.q.dirty))
  }

  function AfterHandle(m: Meter): Meter
    requires m.t.worker.Fetched?
  {
    var e := m.t.worker.event;
    if m.t.worker.obj.None? then m.(t := m.t.(worker := Finished(e, false)))
    else if m.t.worker.obj.value.obj.GetKind() != e.ref.kind then m.(t := m.t.(worker := Panicked(e)))
    else
      var item := m.t.worker.obj.value;
      m.(t := m.t.(worker := Finished(e, true)),
         metrics := CollectAll(m.metrics, CallsFor(item.obj, e.action, item.afterStartup)))
  }

  function AfterSettle(m: Meter): Meter
    requires m.t.worker.Finished?
  {
    var e := m.t.worker.event;
    m.(t := T.Settle(m.t),
       gaveUp := if GivesUp(m.t) then m.gaveUp + [e] else m.gaveUp,
       coalesced := Merged(m, e, !m.t.worker.ok && !GivesUp(m.t) && e in m.t.q.waiting))
  }

  function AfterDelay(m: Meter, e: Event): Meter {
    m.(t := T.Delay(m.t, e), coalesced := Merged(m, e, e in m.t.q.dirty))
  }

  function Act(m: Meter, a: Move, counts: Counting): Meter
    requires Enabled(m, a, counts)
  {
    match a
    case Store(r, item) => AfterStore(m, r, item)
    case Delete(r, marker) => AfterDelete(m, r, marker)
    case Announce(i) => AfterAnnounce(m, i)
    case Take => m.(t := T.Take(m.t))
    case Fetch(cleaned) => m.(t := T.Fetch(m.t, cleaned))
    case Handle => AfterHandle(m)
    case Settle => AfterSettle(m)
    case Delay(e) => AfterDelay(m, e)
  }

  // ---------- Counting events ----------

  /** What is counted: events of one action about objects that count for one type of metric. */
  datatype Sort = Sort(action: Action, t: string)

  predicate Is(e: Event, sort: Sort, counts: Counting) {
    e.action == sort.action && counts(e.ref) == Some(sort.t)
  }

  function One(e: Event, sort: Sort, counts: Counting): nat {
    if Is(e, sort, counts) then 1 else 0
  }

  function InSeq(es: seq<Event>, sort: Sort, counts: Counting): nat {
    if es == [] then 0 else InSeq(es[..|es| - 1], sort, counts) + One(es[|es| - 1], sort, counts)
  }

  ghost function InSet(es: set<Event>, sort: Sort, counts: Counting): nat {
    |set e | e in es && Is(e, sort, counts)|
  }

  function Noticed(notices: seq<Notice<Item>>): seq<Event> {
    seq(|notices|, i requires 0 <= i < |notices| => notices[i].event)
  }

  /** The event that the worker holds and has not handled. */
  function Held(worker: Worker<Item>, sort: Sort, counts: Counting): nat {
    if worker.Free? || (worker.Finished? && worker.ok) then 0 else One(worker.event, sort, counts)
  }

  /** The announcements that are on their way. */
  ghost function Unhandled(m: Meter, sort: Sort, counts: Counting): nat {
    InSeq(Noticed(m.t.notices), sort, counts) + InSet(m.t.q.dirty, sort, counts) + InSet(m.t.q.waiting, sort, counts)
    + Held(m.t.worker, sort, counts)
  }

  /** The announcements that no handler will ever see. */
  function Lost(m: Meter, sort: Sort, counts: Counting): nat {
    InSeq(m.coalesced, sort, counts) + InSeq(m.gaveUp, sort, counts) + InSeq(m.missed, sort, counts)
  }

  ghost function Open(m: Meter, sort: Sort, counts: Counting): nat {
    Unhandled(m, sort, counts) + Lost(m, sort, counts)
  }

  ghost function LiveObjects(m: Meter, t: string, counts: Counting): set<Ref> {
    set r | r in m.t.store && counts(r) == Some(t)
  }

  lemma InSeqOne(es: seq<Event>, e: Event, sort: Sort, counts: Counting)
    ensures InSeq(es + [e], sort, counts) == InSeq(es, sort, counts) + One(e, sort, counts)
  {
    assert (es + [e])[..|es|] == es;
  }

  lemma {:induction false} InSeqConcat(a: seq<Event>, b: seq<Event>, sort: Sort, counts: Counting)
    ensures InSeq(a + b, sort, counts) == InSeq(a, sort, counts) + InSeq(b, sort, counts)
  {
    if b == [] {
      assert a + b == a;
    } else {
      var c := b[..|b| - 1];
      InSeqConcat(a, c, sort, counts);
      assert (a + b)[..|a + b| - 1] == a + c;
    }
  }

  lemma InSeqWithout(es: seq<Event>, i: nat, sort: Sort, counts: Counting)
    requires i < |es|
    ensures InSeq(es, sort, counts) == InSeq(es[..i] + es[i + 1..], sort, counts) + One(es[i], sort, counts)
  {
    assert es == (es[..i] + [es[i]]) + es[i + 1..];
    InSeqConcat(es[..i] + [es[i]], es[i + 1..], sort, counts);
    InSeqConcat(es[..i], es[i + 1..], sort, counts);
    InSeqOne(es[..i], es[i], sort, counts);
  }

  lemma InSetOne(es: set<Event>, e: Event, sort: Sort, counts: Counting)
    requires e !in es
    ensures InSet(es + {e}, sort, counts) == InSet(es, sort, counts) + One(e, sort, counts)
  {
    var before := set d | d in es && Is(d, sort, counts);
    var after := set d | d in es + {e} && Is(d, sort, counts);
    if Is(e, sort, counts) {
      assert after == before + {e};
    } else {
      assert after == before;
    }
  }

  lemma InSetWithout(es: set<Event>, e: Event, sort: Sort, counts: Counting)
    requires e in es
    ensures InSet(es, sort, counts) == InSet(es - {e}, sort, counts) + One(e, sort, counts)
  {
    InSetOne(es - {e}, e, sort, counts);
    assert es - {e} + {e} == es;
  }

  // ---------- What a move does to the open announcements ----------

  lemma StoreOpens(m: Meter, r: Ref, item: Item, sort: Sort, counts: Counting)
    ensures Open(AfterStore(m, r, item), sort, counts) ==
            Open(m, sort, counts) + One(Event(r, if r in m.t.store then EventUpdate else EventAdd), sort, counts)
  {
    var e := Event(r, if r in m.t.store then EventUpdate else EventAdd);
    assert Noticed(AfterStore(m, r, item).t.notices) == Noticed(m.t.notices) + [e];
    InSeqOne(Noticed(m.t.notices), e, sort, counts);
  }

  lemma DeleteOpens(m: Meter, r: Ref, marker: bool, sort: Sort, counts: Counting)
    requires r in m.t.store
    ensures Open(AfterDelete(m, r, marker), sort, counts) == Open(m, sort, counts) + One(Event(r, EventDelete), sort, counts)
  {
    var e := Event(r, EventDelete);
    if marker {
      InSeqOne(m.missed, e, sort, counts);
    } else {
      assert Noticed(AfterDelete(m, r, marker).t.notices) == Noticed(m.t.notices) + [e];
      InSeqOne(Noticed(m.t.notices), e, sort, counts);
    }
  }

  /** What is added to the queue becomes dirty, or is remembered as coalesced. */
  lemma AddOpens(m: Meter, e: Event, sort: Sort, counts: Counting)
    ensures InSet(Q.Add(m.t.q, e).dirty, sort, counts) + InSeq(Merged(m, e, e in m.t.q.dirty), sort, counts) ==
            InSet(m.t.q.dirty, sort, counts) + InSeq(m.coalesced, sort, counts) + One(e, sort, counts)
  {
    if e in m.t.q.dirty {
      InSeqOne(m.coalesced, e, sort, counts);
    } else {
      InSetOne(m.t.q.dirty, e, sort, counts);
    }
  }

  lemma AnnounceOpens(m: Meter, i: nat, sort: Sort, counts: Counting)
    requires i < |m.t.notices|
    ensures Open(AfterAnnounce(m, i), sort, counts) == Open(m, sort, counts)
  {
    var es := Noticed(m.t.notices);
    AddOpens(m, es[i], sort, counts);
    InSeqWithout(es, i, sort, counts);
    assert Noticed(AfterAnnounce(m, i).t.notices) == es[..i] + es[i + 1..];
  }

  lemma TakeOpens(m: Meter, sort: Sort, counts: Counting)
    requires WorkerInv(m.t) && m.t.worker.Free? && m.t.q.queue != []
    ensures Open(m.(t := T.Take(m.t)), sort, counts) == Open(m, sort, counts)
  {
    assert m.t.q.queue[0] in m.t.q.queue;
    InSetWithout(m.t.q.dirty, m.t.q.queue[0], sort, counts);
  }

  /** The worker moves on, and metrics are collected. */
  lemma WorkerOpens(m: Meter, worker: Worker<Item>, metrics: Metrics, sort: Sort, counts: Counting)
    ensures Open(m.(t := m.t.(worker := worker), metrics := metrics), sort, counts) ==
            Open(m, sort, counts) - Held(m.t.worker, sort, counts) + Held(worker, sort, counts)
  {
  }

  lemma HandleOpens(m: Meter, sort: Sort, counts: Counting)
    requires m.t.worker.Fetched?
    ensures var worker := AfterHandle(m).t.worker;
            Open(m, sort, counts) == Open(AfterHandle(m), sort, counts)
              + if worker.Finished? && worker.ok then One(worker.event, sort, counts) else 0
  {
    var m' := AfterHandle(m);
    assert m' == m.(t := m.t.(worker := m'.t.worker), metrics := m'.metrics);
    WorkerOpens(m, m'.t.worker, m'.metrics, sort, counts);
  }

  lemma SettledQueue(q: Q.Queue, e: Event, ok: bool)
    ensures Q.Settle(q, e, ok).dirty == q.dirty
    ensures Q.Settle(q, e, ok).waiting == if !ok && Q.NumRequeues(q, e) < Q.MAX_RETRIES then q.waiting + {e} else q.waiting
  {
  }

  /** What is delayed is delayed anew, or is remembered as coalesced. */
  lemma RetryOpens(m: Meter, e: Event, sort: Sort, counts: Counting)
    ensures InSet(m.t.q.waiting + {e}, sort, counts) + InSeq(Merged(m, e, e in m.t.q.waiting), sort, counts) ==
            InSet(m.t.q.waiting, sort, counts) + InSeq(m.coalesced, sort, counts) + One(e, sort, counts)
  {
    if e in m.t.q.waiting {
      assert m.t.q.waiting + {e} == m.t.q.waiting;
      InSeqOne(m.coalesced, e, sort, counts);
    } else {
      InSetOne(m.t.q.waiting, e, sort, counts);
    }
  }

  lemma SettleOpens(m: Meter, sort: Sort, counts: Counting)
    requires m.t.worker.Finished?
    ensures Open(AfterSettle(m), sort, counts) == Open(m, sort, counts)
  {
    var e := m.t.worker.event;
    var m' := AfterSettle(m);
    SettledQueue(m.t.q, e, m.t.worker.ok);
    InSeqOne(m.gaveUp, e, sort, counts);
    RetryOpens(m, e, sort, counts);
    assert m'.t.notices == m.t.notices && m'.missed == m.missed && m'.t.q.dirty == m.t.q.dirty;
    assert Held(m'.t.worker, sort, counts) == 0;
    assert Held(m.t.worker, sort, counts) == if m.t.worker.ok then 0 else One(e, sort, counts);
  }

  lemma DelayOpens(m: Meter, e: Event, sort: Sort, counts: Counting)
    requires e in m.t.q.waiting
    ensures Open(AfterDelay(m, e), sort, counts) == Open(m, sort, counts)
  {
    InSetWithout(m.t.q.waiting, e, sort, counts);
    AddOpens(m, e, sort, counts);
  }

  // ---------- The law ----------

  /** The object counts for what objects of its name count for. */
  predicate Fits(item: Item, key: string, counts: Counting) {
    MetricOf(item.obj) == counts(Ref(item.obj.GetKind(), key))
  }

  ghost predicate AllFit(m: Meter, counts: Counting) {
    && (forall r | r in m.t.store :: Fits(m.t.store[r], r.key, counts))
    && (forall k | k in m.t.deleted :: Fits(m.t.deleted[k], k, counts))
    && (forall n | n in m.t.notices && n.gone.Some? :: Fits(n.gone.value, n.event.ref.key, counts))
    && (m.t.worker.Fetched? && m.t.worker.obj.Some? ==> Fits(m.t.worker.obj.value, m.t.worker.event.ref.key, counts))
  }

  /** What is counted as running is what is live, less the additions and plus the deletions that are
      still open. */
  ghost predicate Balanced(m: Meter, t: string, counts: Counting) {
    Get(m.metrics, t).running ==
    |LiveObjects(m, t, counts)| - Open(m, Sort(EventAdd, t), counts) + Open(m, Sort(EventDelete, t), counts)
  }

  ghost predicate Inv(m: Meter, counts: Counting) {
    WorkerInv(m.t) && AllFit(m, counts) && forall t :: Balanced(m, t, counts)
  }

  lemma StepsKeepFit(m: Meter, a: Move, counts: Counting)
    requires AllFit(m, counts) && Enabled(m, a, counts)
    ensures AllFit(Act(m, a, counts), counts)
  {
    match a
    case Store(r, item) =>
      StoreKeepsFit(m, r, item, counts);
    case Delete(r, marker) =>
      DeleteKeepsFit(m, r, marker, counts);
    case Announce(i) =>
      AnnounceKeepsFit(m, i, counts);
    case _ =>
  }

  lemma AnnounceKeepsFit(m: Meter, i: nat, counts: Counting)
    requires AllFit(m, counts) && i < |m.t.notices|
    ensures AllFit(AfterAnnounce(m, i), counts)
  {
    assert m.t.notices[i] in m.t.notices && forall n | n in AfterAnnounce(m, i).t.notices :: n in m.t.notices;
  }

  lemma StoreKeepsFit(m: Meter, r: Ref, item: Item, counts: Counting)
    requires AllFit(m, counts) && Fits(item, r.key, counts)
    ensures AllFit(AfterStore(m, r, item), counts)
  {
  }

  lemma DeleteKeepsFit(m: Meter, r: Ref, marker: bool, counts: Counting)
    requires AllFit(m, counts) && r in m.t.store
    ensures AllFit(AfterDelete(m, r, marker), counts)
  {
    assert Fits(m.t.store[r], r.key, counts);
  }

  lemma StoreBalances(m: Meter, r: Ref, item: Item, t: string, counts: Counting)
    requires Balanced(m, t, counts)
    ensures Balanced(AfterStore(m, r, item), t, counts)
  {
    StoreOpens(m, r, item, Sort(EventAdd, t), counts);
    StoreOpens(m, r, item, Sort(EventDelete, t), counts);
    var live, now := LiveObjects(m, t, counts), LiveObjects(AfterStore(m, r, item), t, counts);
    if r !in m.t.store && counts(r) == Some(t) {
      assert now == live + {r};
    } else {
      assert now == live;
    }
  }

  lemma DeleteBalances(m: Meter, r: Ref, marker: bool, t: string, counts: Counting)
    requires Balanced(m, t, counts) && r in m.t.store
    ensures Balanced(AfterDelete(m, r, marker), t, counts)
  {
    DeleteOpens(m, r, marker, Sort(EventAdd, t), counts);
    DeleteOpens(m, r, marker, Sort(EventDelete, t), counts);
    var live, now := LiveObjects(m, t, counts), LiveObjects(AfterDelete(m, r, marker), t, counts);
    if counts(r) == Some(t) {
      assert live == now + {r};
    } else {
      assert live == now;
    }
  }

  lemma HandleBalances(m: Meter, t: string, counts: Counting)
    requires Balanced(m, t, counts) && AllFit(m, counts) && m.t.worker.Fetched?
    ensures Balanced(AfterHandle(m), t, counts)
  {
    HandleOpens(m, Sort(EventAdd, t), counts);
    HandleOpens(m, Sort(EventDelete, t), counts);
    var e := m.t.worker.event;
    if m.t.worker.obj.Some? && m.t.worker.obj.value.obj.GetKind() == e.ref.kind {
      var item := m.t.worker.obj.value;
      assert MetricOf(item.obj) == counts(e.ref);
      HandledChange(m.metrics, item, e.action, t);
    }
  }

  lemma HandledChange(ms: Metrics, item: Item, action: Action, t: string)
    ensures Get(CollectAll(ms, CallsFor(item.obj, action, item.afterStartup)), t).running ==
            Get(ms, t).running + Change(MetricOf(item.obj), action, t)
  {
    var of := MetricOf(item.obj);
    if of.Some? {
      TranslatedChange(ms, of.value, action, item.afterStartup, t);
    }
  }

  /** A move that opens and closes nothing, and leaves store and metrics alone. */
  lemma StaysBalanced(m: Meter, m': Meter, t: string, counts: Counting)
    requires Balanced(m, t, counts) && m'.t.store == m.t.store && m'.metrics == m.metrics
    requires forall action :: Open(m', Sort(action, t), counts) == Open(m, Sort(action, t), counts)
    ensures Balanced(m', t, counts)
  {
  }

  lemma MoveOpensNothing(m: Meter, a: Move, sort: Sort, counts: Counting)
    requires WorkerInv(m.t) && Enabled(m, a, counts) && !a.Store? && !a.Delete? && !a.Handle?
    ensures Open(Act(m, a, counts), sort, counts) == Open(m, sort, counts)
  {
    match a
    case Announce(i) => AnnounceOpens(m, i, sort, counts);
    case Take => TakeOpens(m, sort, counts);
    case Fetch(_) =>
    case Settle => SettleOpens(m, sort, counts);
    case Delay(e) => DelayOpens(m, e, sort, counts);
  }

  lemma ActBalances(m: Meter, a: Move, t: string, counts: Counting)
    requires Inv(m, counts) && Enabled(m, a, counts)
    ensures Balanced(Act(m, a, counts), t, counts)
  {
    assert Balanced(m, t, counts);
    match a
    case Store(r, item) => StoreBalances(m, r, item, t, counts);
    case Delete(r, marker) => DeleteBalances(m, r, marker, t, counts);
    case Handle => HandleBalances(m, t, counts);
    case _ =>
      forall action
        ensures Open(Act(m, a, counts), Sort(action, t), counts) == Open(m, Sort(action, t), counts)
      {
        MoveOpensNothing(m, a, Sort(action, t), counts);
      }
      StaysBalanced(m, Act(m, a, counts), t, counts);
  }

  lemma ActKeepsWorker(m: Meter, a: Move, counts: Counting)
    requires WorkerInv(m.t) && Enabled(m, a, counts)
    ensures WorkerInv(Act(m, a, counts).t)
  {
    match a
    case Announce(i) => StepsKeepWorker(m.t, i, m.t.notices[i].event);
    case Take => StepsKeepWorker(m.t, |m.t.notices|, m.t.q.queue[0]);
    case Settle => StepsKeepWorker(m.t, |m.t.notices|, m.t.worker.event);
    case Delay(e) => StepsKeepWorker(m.t, |m.t.notices|, e);
    case _ =>
  }

  lemma ActKeeps(m: Meter, a: Move, counts: Counting)
    requires Inv(m, counts) && Enabled(m, a, counts)
    ensures Inv(Act(m, a, counts), counts)
  {
    ActKeepsWorker(m, a, counts);
    StepsKeepFit(m, a, counts);
    forall t
      ensures Balanced(Act(m, a, counts), t, counts)
    {
      ActBalances(m, a, t, counts);
    }
  }

  const START := Meter(T.Start(), map[], [], [], [])

  ghost predicate Leads(m: Meter, moves: seq<Move>, n: Meter, counts: Counting)
    decreases |moves|
  {
    if moves == [] then m == n
    else Enabled(m, moves[0], counts) && Leads(Act(m, moves[0], counts), moves[1..], n, counts)
  }

  lemma {:induction false} RunKeeps(m: Meter, moves: seq<Move>, n: Meter, counts: Counting)
    requires Leads(m, moves, n, counts) && Inv(m, counts)
    ensures Inv(n, counts)
    decreases |moves|
  {
    if moves != [] {
      ActKeeps(m, moves[0], counts);
      RunKeeps(Act(m, moves[0], counts), moves[1..], n, counts);
    }
  }

  lemma StartBalances(counts: Counting)
    ensures Inv(START, counts)
  {
    forall t
      ensures Balanced(START, t, counts)
    {
      assert LiveObjects(START, t, counts) == {};
      assert forall sort :: InSet({}, sort, counts) == 0;
    }
  }

  /** In every run, at every moment: what is counted as running is what is live, less the additions and
      plus the deletions that are on their way or lost. */
  lemma RunningIsLiveLessOpen(moves: seq<Move>, m: Meter, t: string, counts: Counting)
    requires Leads(START, moves, m, counts)
    ensures Get(m.metrics, t).running ==
            |LiveObjects(m, t, counts)| - Open(m, Sort(EventAdd, t), counts) + Open(m, Sort(EventDelete, t), counts)
  {
    StartBalances(counts);
    RunKeeps(START, moves, m, counts);
    assert Balanced(m, t, counts);
  }

  /** Once nothing is left to do, only lost announcements make a difference; the count is right exactly
      if as many additions as deletions were coalesced away, given up or could not be made into events. */
  lemma QuietCountsLiveObjects(moves: seq<Move>, m: Meter, t: string, counts: Counting)
    requires Leads(START, moves, m, counts) && Quiet(m.t)
    ensures var adds, deletes := Lost(m, Sort(EventAdd, t), counts), Lost(m, Sort(EventDelete, t), counts);
            && Get(m.metrics, t).running == |LiveObjects(m, t, counts)| - adds + deletes
            && (Get(m.metrics, t).running == |LiveObjects(m, t, counts)| <==> adds == deletes)
  {
    RunningIsLiveLessOpen(moves, m, t, counts);
    QuietIsHandled(m, Sort(EventAdd, t), counts);
    QuietIsHandled(m, Sort(EventDelete, t), counts);
  }

  lemma QuietIsHandled(m: Meter, sort: Sort, counts: Counting)
    requires Quiet(m.t)
    ensures Unhandled(m, sort, counts) == 0
  {
    assert InSet({}, sort, counts) == 0;
  }

  // ---------- The exception is reachable ----------

  lemma {:induction false} LeadsOn(m: Meter, moves: seq<Move>, n: Meter, more: seq<Move>, o: Meter, counts: Counting)
    requires Leads(m, moves, n, counts) && Leads(n, more, o, counts)
    ensures Leads(m, moves + more, o, counts)
    decreases |moves|
  {
    if moves == [] {
      assert moves + more == more;
    } else {
      assert (moves + more)[0] == moves[0] && (moves + more)[1..] == moves[1..] + more;
      LeadsOn(Act(m, moves[0], counts), moves[1..], n, more, o, counts);
    }
  }

  lemma LeadsOneMore(m: Meter, moves: seq<Move>, n: Meter, a: Move, counts: Counting)
    requires Leads(m, moves, n, counts) && Enabled(n, a, counts)
    ensures Leads(m, moves + [a], Act(n, a, counts), counts)
  {
    assert [a][1..] == [];
    assert Leads(Act(n, a, counts), [a][1..], Act(n, a, counts), counts);
    LeadsOn(m, moves, n, [a], Act(n, a, counts), counts);
  }

  const NAMESPACE := Ref(NamespaceKind, "ns")
  const ITEM := Item(Namespace, true)
  const ADDED := Event(NAMESPACE, EventAdd)
  const GONE := Event(NAMESPACE, EventDelete)

  function ByKind(r: Ref): Option<string> {
    if r.kind == NamespaceKind then Some("fragments") else None
  }

  /** A namespace is created, deleted and created again before the worker gets to it. */
  lemma Recreated() returns (moves: seq<Move>, m: Meter)
    ensures Leads(START, moves, m, ByKind)
    ensures m.t.store == map[NAMESPACE := ITEM] && m.t.notices == [] && m.t.worker.Free? && m.metrics == map[]
    ensures m.t.q == Q.Add(Q.Add(Q.Empty(), ADDED), GONE)
    ensures m.coalesced == [ADDED] && m.gaveUp == [] && m.missed == []
  {
    var first, m1 := Announced(START, [], Store(NAMESPACE, ITEM));
    var second, m2 := Announced(m1, first, Move.Delete(NAMESPACE, false));
    moves, m := Announced(m2, second, Store(NAMESPACE, ITEM));
  }

  /** A change of the store and its announcement. */
  lemma Announced(m: Meter, moves: seq<Move>, a: Move) returns (more: seq<Move>, n: Meter)
    requires Leads(START, moves, m, ByKind) && m.t.notices == []
    requires a == Store(NAMESPACE, ITEM) || (a == Move.Delete(NAMESPACE, false) && NAMESPACE in m.t.store)
    ensures Leads(START, more, n, ByKind) && n.t.notices == []
    ensures var e := if a.Delete? then GONE else Event(NAMESPACE, if NAMESPACE in m.t.store then EventUpdate else EventAdd);
            && n.t.q == Q.Add(m.t.q, e) && n.coalesced == Merged(m, e, e in m.t.q.dirty)
            && n.t.store == if a.Delete? then m.t.store - {NAMESPACE} else m.t.store[NAMESPACE := ITEM]
    ensures n.t.worker == m.t.worker && n.metrics == m.metrics && n.gaveUp == m.gaveUp && n.missed == m.missed
  {
    LeadsOneMore(START, moves, m, a, ByKind);
    var changed := Act(m, a, ByKind);
    LeadsOneMore(START, moves + [a], changed, Announce(0), ByKind);
    more, n := moves + [a] + [Announce(0)], Act(changed, Announce(0), ByKind);
  }

  /** One round of the worker for the namespace, which is there. */
  lemma Worked(m: Meter, moves: seq<Move>, e: Event) returns (more: seq<Move>, n: Meter)
    requires Leads(START, moves, m, ByKind) && m.t.worker.Free? && m.t.q.queue != [] && m.t.q.queue[0] == e
    requires e.ref == NAMESPACE && m.t.store == map[NAMESPACE := ITEM]
    ensures Leads(START, more, n, ByKind) && n.t.worker.Free? && n.t.store == m.t.store && n.t.notices == m.t.notices
    ensures n.t.q == Q.Settle(Q.Get(m.t.q), e, true) && n.coalesced == m.coalesced && n.gaveUp == m.gaveUp && n.missed == m.missed
    ensures n.metrics == CollectAll(m.metrics, TranslatedCalls(e.action, "fragments", true))
  {
    LeadsOneMore(START, moves, m, Take, ByKind);
    var taken := Act(m, Take, ByKind);
    LeadsOneMore(START, moves + [Take], taken, Fetch(true), ByKind);
    var fetched := Act(taken, Fetch(true), ByKind);
    LeadsOneMore(START, moves + [Take] + [Fetch(true)], fetched, Handle, ByKind);
    var handled := Act(fetched, Handle, ByKind);
    LeadsOneMore(START, moves + [Take] + [Fetch(true)] + [Handle], handled, Settle, ByKind);
    more, n := moves + [Take] + [Fetch(true)] + [Handle] + [Settle], Act(handled, Settle, ByKind);
  }

  /** The second addition has coalesced with the first, so the namespace that is there is not counted. */
  lemma LiveObjectCanBeMissed() returns (moves: seq<Move>, m: Meter)
    ensures Leads(START, moves, m, ByKind) && Quiet(m.t)
    ensures LiveObjects(m, "fragments", ByKind) == {NAMESPACE} && Get(m.metrics, "fragments").running == 0
    ensures m.coalesced == [ADDED] && m.gaveUp == [] && m.missed == []
  {
    var first, m1 := Recreated();
    var second, m2 := Worked(m1, first, ADDED);
    moves, m := Worked(m2, second, GONE);
    TranslatedChange(map[], "fragments", EventAdd, true, "fragments");
    TranslatedChange(m2.metrics, "fragments", EventDelete, true, "fragments");
  }
}
