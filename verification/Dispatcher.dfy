/** The event dispatcher: the objects behind the pipeline, with the informers at rest. */
module Dispatcher {
  import opened Entities
  import opened Events
  import opened M = MonitorModel
  import opened MonitoredInstances
  import opened Controller
  import opened Q = WorkQueue
  import opened T = Transport
  import opened P = Pipeline

  class RateLimitingQueue {
    var queue: seq<Event>
    var dirty: set<Event>
    var processing: set<Event>
    var waiting: set<Event>
    var failures: map<Event, nat>

    constructor ()
      ensures View() == Q.Empty()
    {
      queue, dirty, processing, waiting, failures := [], {}, {}, {}, map[];
    }

    ghost function View(): Queue
      reads this
    {
      Queue(queue, dirty, processing, waiting, failures)
    }

    method Add(e: Event)
      modifies this
      ensures View() == Q.Add(old(View()), e)
    {
      if e in dirty {
        return;
      }
      dirty := dirty + {e};
      if e in processing {
        return;
      }
      queue := queue + [e];
    }

    method Get() returns (e: Event)
      requires |queue| > 0
      modifies this
      ensures e == old(queue[0]) && View() == Q.Get(old(View()))
    {
      e := queue[0];
      queue := queue[1..];
      processing := processing + {e};
      dirty := dirty - {e};
    }

    method Done(e: Event)
      requires e in processing
      modifies this
      ensures View() == Q.Done(old(View()), e)
    {
      processing := processing - {e};
      if e in dirty {
        queue := queue + [e];
      }
    }

    method AddRateLimited(e: Event)
      modifies this
      ensures View() == Q.AddRateLimited(old(View()), e)
    {
      var n := NumRequeues(e);
      failures := failures[e := n + 1];
      waiting := waiting + {e};
    }

    method Forget(e: Event)
      modifies this
      ensures View() == Q.Forget(old(View()), e)
    {
      failures := map d | d in failures && d != e :: failures[d];
    }

    function NumRequeues(e: Event): (n: nat)
      reads this
      ensures n == Q.NumRequeues(View(), e)
    {
      if e in failures then failures[e] else 0
    }

    method Elapse(e: Event)
      modifies this
      ensures View() == Q.Elapse(old(View()), e)
    {
      waiting := waiting - {e};
      Add(e);
    }
  }

  class EventDispatcher {
    const queue: RateLimitingQueue
    const controller: KubernetesController
    var indexers: map<Ref, Object>
    var deletedIndexer: map<string, Object>
    ghost var home: map<string, Ref>
    ghost var gaveUp: set<Ref>
    ghost var orphaned: set<Ref>

    constructor (controller: KubernetesController)
      ensures this.controller == controller && fresh(queue)
      ensures indexers == map[] && deletedIndexer == map[] && queue.View() == Q.Empty()
      ensures home == map[] && gaveUp == {} && orphaned == {}
    {
      this.controller := controller;
      queue := new RateLimitingQueue();
      indexers, deletedIndexer, home, gaveUp, orphaned := map[], map[], map[], {}, {};
    }

    ghost predicate Valid()
      reads this, controller.monitoredInstances, controller.monitoredInstances.repr
    {
      && controller.monitoredInstances.Valid()
      && this !in controller.monitoredInstances.repr && queue !in controller.monitoredInstances.repr
    }

    /** The transport, with every change announced and the worker between two events. */
    ghost function Line(): Transport<Object>
      reads this, queue
    {
      Transport(indexers, [], deletedIndexer, queue.View(), Free)
    }

    ghost function View(): Pipeline
      reads this, queue, controller.monitoredInstances
    {
      Pipeline(Line(), controller.monitoredInstances.value, home, gaveUp, orphaned)
    }

    /** OnAdd and OnUpdate. */
    method OnChange(ref: Ref, action: Action)
      requires action != EventDelete
      modifies queue
      ensures Line() == old(Line()).(q := Q.Add(old(queue.View()), Event(ref, action)))
    {
      queue.Add(Event(ref, action));
    }

    /** A deleted object is stored here because it is no longer available elsewhere. No event can be
        made of a marker that stands for an object that was missed. */
    method OnDelete(ref: Ref, obj: Option<Object>)
      modifies queue, this`deletedIndexer
      ensures Line() == if obj.None? then old(Line())
                        else old(Line()).(q := Q.Add(old(queue.View()), Event(ref, EventDelete)),
                                          deleted := old(deletedIndexer)[ref.key := obj.value])
    {
      if obj == None {
        return;
      }
      deletedIndexer := deletedIndexer[ref.key := obj.value];
      queue.Add(Event(ref, EventDelete));
    }

    method FetchObj(ref: Ref, cleaned: bool) returns (obj: Option<Object>)
      modifies this`deletedIndexer
      ensures obj == T.FetchObj(old(Line()), ref)
      ensures deletedIndexer == if ref in indexers || !cleaned then old(deletedIndexer)
                                else map k | k in old(deletedIndexer) && k != ref.key :: old(deletedIndexer)[k]
    {
      if ref in indexers {
        return Some(indexers[ref]);
      }
      if ref.key !in deletedIndexer {
        return None;
      }
      obj := Some(deletedIndexer[ref.key]);
      if cleaned {
        deletedIndexer := map k | k in deletedIndexer && k != ref.key :: deletedIndexer[k];
      }
    }

    /** How the worker finishes an event. */
    method Settle(event: Event, ok: bool)
      requires event in queue.processing
      modifies queue, this`gaveUp
      ensures queue.View() == Q.Settle(old(queue.View()), event, ok)
      ensures gaveUp == if !ok && Q.NumRequeues(old(queue.View()), event) >= MAX_RETRIES && event.action != EventDelete
                        then old(gaveUp) + {event.ref} else old(gaveUp)
    {
      if ok {
        queue.Forget(event);
      } else if queue.NumRequeues(event) < MAX_RETRIES {
        queue.AddRateLimited(event);
      } else {
        queue.Forget(event);
        if event.action != EventDelete {
          gaveUp := gaveUp + {event.ref};
        }
      }
      queue.Done(event);
    }

    /** The object was handled as it is in its store. */
    predicate Current(event: Event, obj: Object)
      reads this`indexers
    {
      event.action != EventDelete && event.ref in indexers && indexers[event.ref] == obj
    }

    /** Call the handler of the event's kind. */
    method CallHandler(event: Event, obj: Object) returns (ok: bool)
      requires Valid() && obj.GetKind() == event.ref.kind
      modifies this`gaveUp, this`orphaned, controller.monitoredInstances`value, controller.monitoredInstances.repr
      ensures Valid()
      ensures Handled(controller.monitoredInstances.value, ok) ==
              Controller.Handle(old(controller.monitoredInstances.value), obj, event.action)
      ensures gaveUp == if ok && Current(event, obj) then old(gaveUp) - {event.ref} else old(gaveUp)
      ensures orphaned == if ok && Current(event, obj) then old(orphaned) - {event.ref} else old(orphaned)
    {
      ok := controller.Dispatch(obj, event.action);
      if ok && Current(event, obj) {
        Excuse(event.ref);
      }
    }

    /** The object needs no excuse any more. */
    ghost method Excuse(ref: Ref)
      requires Valid()
      modifies this`gaveUp, this`orphaned
      ensures Valid()
      ensures gaveUp == old(gaveUp) - {ref} && orphaned == old(orphaned) - {ref}
    {
      gaveUp, orphaned := gaveUp - {ref}, orphaned - {ref};
    }

    /** The handler of the event's kind panics if it is given an object of another kind. */
    method Dispatch(event: Event, cleaned: bool) returns (ok: bool, panicked: bool)
      requires Valid()
      modifies this`deletedIndexer, this`gaveUp, this`orphaned, controller.monitoredInstances`value, controller.monitoredInstances.repr
      ensures Valid()
      ensures var handled := AfterHandle(AfterFetch(old(View()).(t := old(Line()).(worker := Got(event))), cleaned));
              if panicked then handled.t.worker.Panicked?
              else View().(t := Line().(worker := Finished(event, ok))) == handled
    {
      ok, panicked := false, false;
      var obj := FetchObj(event.ref, cleaned);
      assert AfterFetch(old(View()).(t := old(Line()).(worker := Got(event))), cleaned) ==
             View().(t := Line().(worker := Fetched(event, obj)));
      if obj.Some? {
        if obj.value.GetKind() != event.ref.kind {
          panicked := true;
        } else {
          ghost var before := View().(t := Line().(worker := Fetched(event, obj)));
          ok := CallHandler(event, obj.value);
          HandledAs(before, event, obj.value, Handled(controller.monitoredInstances.value, ok));
        }
      }
    }

    /** One round of the worker's loop. */
    method WorkerRound(cleaned: bool) returns (panicked: bool)
      requires Valid() && |queue.queue| > 0
      modifies this`deletedIndexer, this`gaveUp, this`orphaned, queue, controller.monitoredInstances`value, controller.monitoredInstances.repr
      ensures Valid()
      ensures panicked == Round(old(View()), cleaned).t.worker.Panicked?
      ensures !panicked ==> View() == Round(old(View()), cleaned)
    {
      var event := queue.Get();
      var ok;
      ok, panicked := Dispatch(event, cleaned);
      if !panicked {
        Settle(event, ok);
      }
    }

    /** The delay of some event is over. */
    method ElapseSome()
      requires Valid() && Inv(View()) && queue.waiting != {}
      modifies queue
      ensures Valid() && Inv(View())
      ensures Work(queue.View()) <= old(Work(queue.View())) && |queue.waiting| < old(|queue.waiting|)
    {
      var e :| e in queue.waiting;
      DelayKeeps(View(), e);
      ElapseIsProgress(queue.View(), e);
      queue.Elapse(e);
    }

    /** The worker's loop until nothing is queued or delayed, with no new announcements. Delays end
        whenever they like. Whether or not handlers succeed, this comes to an end; and unless the
        worker panics, every stored object's resource is then up to date or has its reason. */
    method Drain(cleaned: bool) returns (panicked: bool)
      requires Valid() && Inv(View())
      modifies this`deletedIndexer, this`gaveUp, this`orphaned, queue, controller.monitoredInstances`value, controller.monitoredInstances.repr
      ensures Valid()
      ensures !panicked ==> Inv(View()) && Quiet(Line())
      ensures !panicked ==> forall r | r in indexers && r !in gaveUp && r !in orphaned ::
                  Synced(controller.monitoredInstances.value, indexers[r])
    {
      panicked := false;
      while !panicked && (queue.queue != [] || queue.waiting != {})
        invariant Valid() && (!panicked ==> Inv(View()))
        decreases !panicked, Work(queue.View()), |queue.waiting|
      {
        if {
          case queue.queue != [] =>
            RoundKeeps(View(), cleaned);
            panicked := WorkerRound(cleaned);
          case queue.waiting != {} =>
            ElapseSome();
        }
      }
      if !panicked {
        Drained(View());
      }
    }
  }

  lemma HandledAs(p: Pipeline, e: Event, obj: Object, result: Handled)
    requires p.t.worker == Fetched(e, Some(obj)) && obj.GetKind() == e.ref.kind
    requires result == Controller.Handle(p.monitor, obj, e.action)
    ensures var current := result.ok && e.action != EventDelete && e.ref in p.t.store && p.t.store[e.ref] == obj;
            AfterHandle(p) ==
            Pipeline(p.t.(worker := Finished(e, result.ok)), result.state, p.home,
                     if current then p.gaveUp - {e.ref} else p.gaveUp,
                     if current then p.orphaned - {e.ref} else p.orphaned)
  {
  }

  /** Take, fetch, handle and settle, with nothing in between. */
  function Round(p: Pipeline, cleaned: bool): Pipeline
    requires p.t.q.queue != []
  {
    var handled := HandledRound(p, cleaned);
    if handled.t.worker.Panicked? then handled else AfterSettle(handled)
  }

  /** Up to the handling. */
  function HandledRound(p: Pipeline, cleaned: bool): Pipeline
    requires p.t.q.queue != []
  {
    AfterHandle(AfterFetch(AfterTake(p), cleaned))
  }

  lemma HandledKeeps(p: Pipeline, cleaned: bool)
    requires Inv(p) && p.t.worker.Free? && p.t.q.queue != []
    ensures var h := HandledRound(p, cleaned);
            Inv(h) && h.t.q == Q.Get(p.t.q) && (h.t.worker.Panicked? || (h.t.worker.Finished? && h.t.worker.event == p.t.q.queue[0]))
  {
    TakeKeeps(p);
    FetchKeeps(AfterTake(p), cleaned);
    HandleKeeps(AfterFetch(AfterTake(p), cleaned));
  }

  lemma RoundKeeps(p: Pipeline, cleaned: bool)
    requires Inv(p) && p.t.worker.Free? && p.t.q.queue != []
    ensures Inv(Round(p, cleaned))
    ensures !Round(p, cleaned).t.worker.Panicked? ==> Work(Round(p, cleaned).t.q) < Work(p.t.q)
  {
    HandledKeeps(p, cleaned);
    var h := HandledRound(p, cleaned);
    if !h.t.worker.Panicked? {
      SettleKeeps(h);
      SettledWork(p, h);
    }
  }

  lemma SettledWork(p: Pipeline, h: Pipeline)
    requires WorkerInv(p.t) && p.t.worker.Free? && p.t.q.queue != []
    requires h.t.q == Q.Get(p.t.q) && h.t.worker.Finished? && h.t.worker.event == p.t.q.queue[0]
    ensures Work(AfterSettle(h).t.q) < Work(p.t.q)
  {
    assert p.t.q.queue[0] in p.t.q.queue;
    RoundIsProgress(p.t.q, h.t.worker.ok);
  }

  lemma Drained(p: Pipeline)
    requires Inv(p) && p.t.notices == [] && p.t.worker.Free? && p.t.q.queue == [] && p.t.q.waiting == {}
    ensures Quiet(p.t)
    ensures forall r | r in p.t.store && r !in p.gaveUp && r !in p.orphaned ::
              Synced(p.monitor, p.t.store[r])
  {
    assert forall e :: e in p.t.q.dirty ==> e in p.t.q.queue;
    assert p.t.q.dirty == {};
    assert forall r | r in p.t.store :: Fine(p, r);
  }
}
