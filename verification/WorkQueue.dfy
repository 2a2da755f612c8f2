/** The rate limiting work queue of the event dispatcher, by its documented semantics: an item that
    is already waiting to be processed is not added twice, an item added while it is processed is
    queued again when that is done, and a delayed item is added when its delay is over. */
module WorkQueue {
  import opened Totals
  import opened Events

  /** `dirty` holds what needs processing: what is in `queue`, and what became dirty again while in
      `processing`. `waiting` holds what is delayed, `failures` how often an item was delayed. */
  datatype Queue = Queue(queue: seq<Event>, dirty: set<Event>, processing: set<Event>, waiting: set<Event>, failures: map<Event, nat>)

  function Empty(): Queue {
    Queue([], {}, {}, {}, map[])
  }

  /** The items in the queue are the dirty ones that are not being processed, each once. */
  ghost predicate Valid(q: Queue) {
    && (forall e :: e in q.queue <==> e in q.dirty && e !in q.processing)
    && (forall i, j | 0 <= i < j < |q.queue| :: q.queue[i] != q.queue[j])
  }

  function NumRequeues(q: Queue, e: Event): nat {
    if e in q.failures then q.failures[e] else 0
  }

  function Add(q: Queue, e: Event): Queue {
    if e in q.dirty then q
    else q.(dirty := q.dirty + {e}, queue := if e in q.processing then q.queue else q.queue + [e])
  }

  function Get(q: Queue): Queue
    requires q.queue != []
  {
    q.(queue := q.queue[1..], dirty := q.dirty - {q.queue[0]}, processing := q.processing + {q.queue[0]})
  }

  function Done(q: Queue, e: Event): Queue {
    q.(processing := q.processing - {e},
       queue := if e in q.dirty && e in q.processing then q.queue + [e] else q.queue)
  }

  function AddRateLimited(q: Queue, e: Event): Queue {
    q.(failures := q.failures[e := NumRequeues(q, e) + 1], waiting := q.waiting + {e})
  }

  function Forget(q: Queue, e: Event): Queue {
    q.(failures := map d | d in q.failures && d != e :: q.failures[d])
  }

  /** The delay of an item is over. */
  function Elapse(q: Queue, e: Event): Queue {
    Add(q.(waiting := q.waiting - {e}), e)
  }

  const MAX_RETRIES := 5

  /** How the worker finishes an item: a failure is retried until the retries are used up. */
  function Settle(q: Queue, e: Event, ok: bool): Queue {
    Done(if !ok && NumRequeues(q, e) < MAX_RETRIES then AddRateLimited(q, e) else Forget(q, e), e)
  }

  lemma OperationsKeepValid(q: Queue, e: Event, ok: bool)
    requires Valid(q)
    ensures Valid(Add(q, e)) && Valid(Elapse(q, e)) && Valid(Done(q, e)) && Valid(Settle(q, e, ok))
    ensures q.queue != [] ==> Valid(Get(q))
  {
    AddKeepsValid(q, e);
    AddKeepsValid(q.(waiting := q.waiting - {e}), e);
    DoneKeepsValid(q, e);
    DoneKeepsValid(if !ok && NumRequeues(q, e) < MAX_RETRIES then AddRateLimited(q, e) else Forget(q, e), e);
    if q.queue != [] {
      GetKeepsValid(q);
    }
  }

  lemma AddKeepsValid(q: Queue, e: Event)
    requires Valid(q)
    ensures Valid(Add(q, e))
  {
    if e !in q.dirty && e !in q.processing {
      assert Add(q, e).queue == q.queue + [e];
      assert e !in q.queue;
    }
  }

  lemma DoneKeepsValid(q: Queue, e: Event)
    requires Valid(q)
    ensures Valid(Done(q, e))
  {
    if e in q.dirty && e in q.processing {
      assert e !in q.queue;
    }
  }

  lemma GetKeepsValid(q: Queue)
    requires Valid(q) && q.queue != []
    ensures Valid(Get(q))
  {
    var e := q.queue[0];
    assert q.queue == [e] + q.queue[1..];
    assert e !in q.queue[1..];
    assert e in q.queue;
  }

  // ---------- Bounded retry ----------

  datatype QueueAction = Announced(e: Event) | Worked(ok: bool) | Elapsed(e: Event)

  predicate Possible(q: Queue, action: QueueAction) {
    match action
    case Announced(_) => true
    case Worked(_) => q.queue != []
    case Elapsed(e) => e in q.waiting
  }

  /** One event is added, one is taken and finished by the only worker, or one delay ends. */
  function Act(q: Queue, action: QueueAction): Queue
    requires Possible(q, action)
  {
    match action
    case Announced(e) => Add(q, e)
    case Worked(ok) => Settle(Get(q), q.queue[0], ok)
    case Elapsed(e) => Elapse(q, e)
  }

  ghost predicate IsQueueRun(qs: seq<Queue>, actions: seq<QueueAction>) {
    && |qs| == |actions| + 1
    && forall i | 0 <= i < |actions| :: Possible(qs[i], actions[i]) && qs[i + 1] == Act(qs[i], actions[i])
  }

  /** The i-th action is the handling of `e`. */
  predicate Handles(qs: seq<Queue>, actions: seq<QueueAction>, i: nat, e: Event)
    requires i < |qs| && i < |actions|
  {
    actions[i].Worked? && qs[i].queue != [] && qs[i].queue[0] == e
  }

  /** How often `e` was handled in the first `n` actions, since the queue last knew nothing of it. */
  function Tries(qs: seq<Queue>, actions: seq<QueueAction>, n: nat, e: Event): nat
    requires n <= |actions| && n < |qs|
  {
    if n == 0 || e !in qs[n].failures then 0
    else Tries(qs, actions, n - 1, e) + if Handles(qs, actions, n - 1, e) then 1 else 0
  }

  /** The requeues of an event are the times it was handled since it was last forgotten. They are
      never more than five. */
  lemma {:induction false} TriesAreRequeues(qs: seq<Queue>, actions: seq<QueueAction>, n: nat, e: Event)
    requires IsQueueRun(qs, actions) && qs[0] == Empty() && n <= |actions|
    ensures Tries(qs, actions, n, e) == NumRequeues(qs[n], e) <= 5
    ensures e in qs[n].failures ==> NumRequeues(qs[n], e) > 0
  {
    if n > 0 {
      TriesAreRequeues(qs, actions, n - 1, e);
      assert qs[n] == Act(qs[n - 1], actions[n - 1]);
    }
  }

  /** The i-th action is a handling of `e` after which the queue forgets it. */
  predicate Forgets(qs: seq<Queue>, actions: seq<QueueAction>, i: nat, e: Event)
    requires i + 1 < |qs| && i < |actions|
  {
    Handles(qs, actions, i, e) && e !in qs[i + 1].failures
  }

  /** A handling that fails is the last one exactly if five failed before it since the event was
      forgotten; else the event is delayed, to be handled again. One that succeeds is always the last. */
  lemma GivenUpAtTheSixth(qs: seq<Queue>, actions: seq<QueueAction>, n: nat, e: Event)
    requires IsQueueRun(qs, actions) && qs[0] == Empty() && n < |actions| && Handles(qs, actions, n, e)
    ensures Forgets(qs, actions, n, e) <==> actions[n].ok || Tries(qs, actions, n, e) == 5
    ensures !Forgets(qs, actions, n, e) ==> e in qs[n + 1].waiting
  {
    TriesAreRequeues(qs, actions, n, e);
    assert qs[n + 1] == Act(qs[n], actions[n]);
  }

  /** How often `e` is handled from the a-th action to just before the b-th. */
  function Handlings(qs: seq<Queue>, actions: seq<QueueAction>, a: nat, b: nat, e: Event): nat
    requires a <= b <= |actions| < |qs|
  {
    if a == b then 0
    else Handlings(qs, actions, a, b - 1, e) + if Handles(qs, actions, b - 1, e) then 1 else 0
  }

  lemma {:induction false} HandlingsAreRequeues(qs: seq<Queue>, actions: seq<QueueAction>, a: nat, b: nat, e: Event)
    requires IsQueueRun(qs, actions) && a <= b <= |actions|
    requires forall i | a <= i < b :: !Forgets(qs, actions, i, e)
    ensures Handlings(qs, actions, a, b, e) <= NumRequeues(qs[b], e)
  {
    if a < b {
      HandlingsAreRequeues(qs, actions, a, b - 1, e);
      assert qs[b] == Act(qs[b - 1], actions[b - 1]) && !Forgets(qs, actions, b - 1, e);
    }
  }

  /** In every run, in every stretch of actions of which only the last may forget the event - whatever
      else happens in between - it is handled at most six times. */
  lemma AtMostSixInARow(qs: seq<Queue>, actions: seq<QueueAction>, a: nat, b: nat, e: Event)
    requires IsQueueRun(qs, actions) && qs[0] == Empty() && a <= b <= |actions|
    requires forall i | a <= i < b - 1 :: !Forgets(qs, actions, i, e)
    ensures Handlings(qs, actions, a, b, e) <= 6
  {
    if a < b {
      HandlingsAreRequeues(qs, actions, a, b - 1, e);
      TriesAreRequeues(qs, actions, b - 1, e);
    }
  }

  // ---------- Draining ----------

  /** The work an event can still cause. An event may be dirty and delayed at once, and succeed while
      delayed, which forgets its failures; so a first try weighs twice as much as all tries. */
  function Weight(q: Queue, e: Event): (w: nat)
    ensures MAX_RETRIES < w <= 2 * MAX_RETRIES + 2
  {
    2 * MAX_RETRIES + 2 - if NumRequeues(q, e) < MAX_RETRIES then NumRequeues(q, e) else MAX_RETRIES
  }

  ghost function Weights(q: Queue, events: set<Event>): map<Event, nat> {
    map e | e in events :: Weight(q, e)
  }

  ghost function Work(q: Queue): nat {
    Total(Weights(q, q.dirty)) + Total(Weights(q, q.waiting))
  }

  /** A round of the worker, however it ends, leaves less work. */
  lemma RoundIsProgress(q: Queue, ok: bool)
    requires q.queue != [] && q.queue[0] in q.dirty && q.processing == {}
    ensures Work(Settle(Get(q), q.queue[0], ok)) < Work(q)
  {
    var e := q.queue[0];
    var q' := Settle(Get(q), e, ok);
    assert q'.dirty == q.dirty - {e};
    TotalWithout(Weights(q, q.dirty), Weights(q', q'.dirty), e);
    WaitingWeights(q, q', e);
  }

  /** Only the weight of `e` changes, and `e` is all that may be delayed anew. */
  lemma WaitingWeights(q: Queue, q': Queue, e: Event)
    requires q'.waiting == q.waiting || q'.waiting == q.waiting + {e}
    requires forall d | d in q.waiting && d != e :: Weight(q', d) == Weight(q, d)
    ensures Total(Weights(q', q'.waiting)) ==
            Total(Weights(q, q.waiting)) - (if e in q.waiting then Weight(q, e) else 0)
            + (if e in q'.waiting then Weight(q', e) else 0)
  {
    var before, after := Weights(q, q.waiting), Weights(q', q'.waiting);
    if e in q'.waiting {
      assert after == before[e := Weight(q', e)];
      TotalUpdate(before, e, Weight(q', e));
    } else {
      assert after == before;
    }
  }

  /** When a delay ends, no work is added and there is one delay less. */
  lemma ElapseIsProgress(q: Queue, e: Event)
    requires e in q.waiting
    ensures Work(Elapse(q, e)) <= Work(q) && |Elapse(q, e).waiting| < |q.waiting|
  {
    var q' := Elapse(q, e);
    TotalWithout(Weights(q, q.waiting), Weights(q', q'.waiting), e);
    DirtyWeights(q, e);
    assert q.waiting == q'.waiting + {e};
  }

  lemma DirtyWeights(q: Queue, e: Event)
    ensures Total(Weights(Elapse(q, e), Elapse(q, e).dirty)) <= Total(Weights(q, q.dirty)) + Weight(q, e)
  {
    var q' := Elapse(q, e);
    if e in q.dirty {
      assert Weights(q', q'.dirty) == Weights(q, q.dirty);
    } else {
      assert Weights(q', q'.dirty) == Weights(q, q.dirty)[e := Weight(q, e)];
      TotalUpdate(Weights(q, q.dirty), e, Weight(q, e));
    }
  }
}
