/** From events about objects to calls of the collector. */
module MetricsTranslator {
  import opened Entities
  import opened Metrics
  import opened Events

  /** What the translator looks at in an object. */
  datatype Object =
    | Deployment(labels: map<string, string>)
    | Namespace
    | PersistentVolumeClaim
    | Ingress
    | Service(loadBalancer: bool)
    | Pod
  {
    function GetKind(): Kind {
      match this
      case Deployment(_) => DeploymentKind
      case Namespace => NamespaceKind
      case PersistentVolumeClaim => PersistentVolumeClaimKind
      case Ingress => IngressKind
      case Service(_) => ServiceKind
      case Pod => PodKind
    }
  }

  const ORGANIZATION_LABEL := "nalej-organization"
  const FILTER_LABELS: map<string, string> := map["agent" := "zt-agent"]

  /** An organization's object that no filter applies to. */
  predicate AppInstance(labels: map<string, string>) {
    && ORGANIZATION_LABEL in labels
    && forall k | k in FILTER_LABELS :: k in labels ==> labels[k] != FILTER_LABELS[k]
  }

  method IsAppInstance(labels: map<string, string>) returns (ours: bool)
    ensures ours == AppInstance(labels)
  {
    if ORGANIZATION_LABEL !in labels {
      return false;
    }
    var todo := FILTER_LABELS.Keys;
    while todo != {}
      invariant todo <= FILTER_LABELS.Keys
      invariant forall k | k in FILTER_LABELS && k !in todo :: k in labels ==> labels[k] != FILTER_LABELS[k]
      decreases todo
    {
      var k :| k in todo;
      if k in labels && labels[k] == FILTER_LABELS[k] {
        return false;
      }
      todo := todo - {k};
    }
    return true;
  }

  /** The type of metric that the object counts for. */
  function MetricOf(obj: Object): Option<string> {
    match obj
    case Deployment(labels) => if AppInstance(labels) then Some("services") else None
    case Namespace => Some("fragments")
    case PersistentVolumeClaim => Some("volumes")
    case Ingress => Some("endpoints")
    case Service(loadBalancer) => if loadBalancer then Some("endpoints") else None
    case Pod => None
  }

  /** The call for an event: objects older than this program existed before it. */
  function TranslatedCalls(action: Action, t: string, afterStartup: bool): seq<Call> {
    match action
    case EventAdd => [if afterStartup then Create(t) else Existing(t)]
    case EventUpdate => []
    case EventDelete => [Delete(t)]
  }

  function CallsFor(obj: Object, action: Action, afterStartup: bool): seq<Call> {
    var t := MetricOf(obj);
    if t == None then [] else TranslatedCalls(action, t.value, afterStartup)
  }

  class Translator {
    const collector: MetricsProvider

    constructor (collector: MetricsProvider)
      ensures this.collector == collector
    {
      this.collector := collector;
    }

    method Translate(action: Action, t: string, afterStartup: bool)
      requires collector.Valid()
      modifies collector, collector.subsystems.Values
      ensures collector.Valid() && fresh(collector.subsystems.Values - old(collector.subsystems.Values))
      ensures collector.View() == CollectAll(old(collector.View()), TranslatedCalls(action, t, afterStartup))
    {
      ghost var before := collector.View();
      match action {
        case EventAdd =>
          if afterStartup {
            collector.Create(t);
          } else {
            collector.Existing(t);
          }
        case EventDelete => collector.Delete(t);
        case EventUpdate =>
      }
      OneCall(before, TranslatedCalls(action, t, afterStartup));
    }

    /** The handler of the object's kind. */
    method OnEvent(obj: Object, action: Action, afterStartup: bool)
      requires collector.Valid()
      modifies collector, collector.subsystems.Values
      ensures collector.Valid() && fresh(collector.subsystems.Values - old(collector.subsystems.Values))
      ensures collector.View() == CollectAll(old(collector.View()), CallsFor(obj, action, afterStartup))
    {
      match obj {
        case Deployment(labels) =>
          var ours := IsAppInstance(labels);
          if ours {
            Translate(action, "services", afterStartup);
          }
        case Namespace => Translate(action, "fragments", afterStartup);
        case PersistentVolumeClaim => Translate(action, "volumes", afterStartup);
        case Ingress => Translate(action, "endpoints", afterStartup);
        case Service(loadBalancer) =>
          if loadBalancer {
            Translate(action, "endpoints", afterStartup);
          }
        case Pod =>
      }
    }
  }

  lemma OneCall(ms: Metrics, calls: seq<Call>)
    requires |calls| <= 1
    ensures CollectAll(ms, calls) == if calls == [] then ms else Collect(ms, calls[0])
  {
    if calls != [] {
      assert calls[..0] == [];
    }
  }

  // ---------- Streams of events ----------

  datatype Occurrence = Occurrence(id: string, obj: Object, action: Action, afterStartup: bool)

  /** The objects that were added and not deleted since. */
  function Live(events: seq<Occurrence>): set<string> {
    if events == [] then {}
    else
      var before, e := Live(events[..|events| - 1]), events[|events| - 1];
      match e.action
      case EventAdd => before + {e.id}
      case EventUpdate => before
      case EventDelete => before - {e.id}
  }

  /** The additions of objects of a type that are there already. */
  function Again(events: seq<Occurrence>, counts: string -> Option<string>, t: string): nat {
    if events == [] then 0
    else
      var before, e := events[..|events| - 1], events[|events| - 1];
      Again(before, counts, t) + if e.action == EventAdd && counts(e.id) == Some(t) && e.id in Live(before) then 1 else 0
  }

  /** The deletions of objects of a type that are not there. */
  function Stray(events: seq<Occurrence>, counts: string -> Option<string>, t: string): nat {
    if events == [] then 0
    else
      var before, e := events[..|events| - 1], events[|events| - 1];
      Stray(before, counts, t) + if e.action == EventDelete && counts(e.id) == Some(t) && e.id !in Live(before) then 1 else 0
  }

  /** An object always counts for the same type of metric. */
  ghost predicate Stable(events: seq<Occurrence>, counts: string -> Option<string>) {
    forall e | e in events :: MetricOf(e.obj) == counts(e.id)
  }

  function Calls(events: seq<Occurrence>): seq<Call> {
    if events == [] then []
    else
      var e := events[|events| - 1];
      Calls(events[..|events| - 1]) + CallsFor(e.obj, e.action, e.afterStartup)
  }

  ghost function LiveOf(events: seq<Occurrence>, counts: string -> Option<string>, t: string): set<string> {
    set id | id in Live(events) && counts(id) == Some(t)
  }

  lemma {:induction false} CollectAllConcat(ms: Metrics, a: seq<Call>, b: seq<Call>)
    ensures CollectAll(ms, a + b) == CollectAll(CollectAll(ms, a), b)
  {
    if b == [] {
      assert a + b == a;
    } else {
      assert (a + b)[..|a + b| - 1] == a + b[..|b| - 1];
      CollectAllConcat(ms, a, b[..|b| - 1]);
    }
  }

  /** Over every stable stream of events that handlers see, what is counted as running is the number of
      live objects of the type, and what was added again, less what was deleted without being there. So
      it is that number exactly if those two are as many. */
  lemma {:induction false} RunningCountsLiveObjects(events: seq<Occurrence>, counts: string -> Option<string>, t: string)
    requires Stable(events, counts)
    ensures var running := Get(CollectAll(map[], Calls(events)), t).running;
            && running == |LiveOf(events, counts, t)| + Again(events, counts, t) - Stray(events, counts, t)
            && (running == |LiveOf(events, counts, t)| <==> Again(events, counts, t) == Stray(events, counts, t))
    decreases |events|
  {
    if events == [] {
      assert LiveOf(events, counts, t) == {};
    } else {
      var before, e := events[..|events| - 1], events[|events| - 1];
      assert events == before + [e];
      RunningCountsLiveObjects(before, counts, t);
      OneMoreEvent(before, events, e, counts, t);
      OneMoreCall(before, events, e, t);
    }
  }

  /** Which objects count for which type: an organization's deployments that are not the agent's, the
      namespaces, the volume claims, and what has an address outside. */
  predicate CountsFor(obj: Object, t: string) {
    || (t == "services" && obj.Deployment?
        && "nalej-organization" in obj.labels && !("agent" in obj.labels && obj.labels["agent"] == "zt-agent"))
    || (t == "fragments" && obj.Namespace?)
    || (t == "volumes" && obj.PersistentVolumeClaim?)
    || (t == "endpoints" && (obj.Ingress? || (obj.Service? && obj.loadBalancer)))
  }

  lemma CountsAsSaid(obj: Object, t: string)
    ensures MetricOf(obj) == Some(t) <==> CountsFor(obj, t)
  {
    assert |"services"| == 8 && |"fragments"| == |"endpoints"| == 9 && |"volumes"| == 7;
    assert "fragments"[0] != "endpoints"[0];
  }

  /** How many of the events are of this action, about an object that counts for the type, and younger
      than the program or not. */
  function Seen(events: seq<Occurrence>, action: Action, afterStartup: bool, t: string): nat {
    if events == [] then 0
    else
      var e := events[|events| - 1];
      Seen(events[..|events| - 1], action, afterStartup, t)
      + if e.action == action && e.afterStartup == afterStartup && CountsFor(e.obj, t) then 1 else 0
  }

  /** Over every stream of events: what is created are the additions of objects younger than the program;
      those of older ones are running without having been created; what is deleted are the deletions of
      either; and no event is counted as an error. */
  lemma {:induction false} CountersCountEvents(events: seq<Occurrence>, t: string)
    ensures var m := Get(CollectAll(map[], Calls(events)), t);
            && m.created == Seen(events, EventAdd, true, t)
            && m.deleted == Seen(events, EventDelete, true, t) + Seen(events, EventDelete, false, t)
            && m.running == m.created + Seen(events, EventAdd, false, t) - m.deleted
            && m.errors == 0
    decreases |events|
  {
    if events != [] {
      var before, e := events[..|events| - 1], events[|events| - 1];
      CountersCountEvents(before, t);
      var calls := CallsFor(e.obj, e.action, e.afterStartup);
      CollectAllConcat(map[], Calls(before), calls);
      CallsCount(CollectAll(map[], Calls(before)), e, t);
    }
  }

  /** What the calls for one event do to the metric. */
  lemma CallsCount(ms: Metrics, e: Occurrence, t: string)
    ensures var was, now := Get(ms, t), Get(CollectAll(ms, CallsFor(e.obj, e.action, e.afterStartup)), t);
            if !CountsFor(e.obj, t) || e.action == EventUpdate then now == was
            else if e.action == EventDelete then now == was.(deleted := was.deleted + 1, running := was.running - 1)
            else now == was.(created := was.created + if e.afterStartup then 1 else 0, running := was.running + 1)
  {
    CountsAsSaid(e.obj, t);
    var of := MetricOf(e.obj);
    if of.Some? {
      OneCall(ms, TranslatedCalls(e.action, of.value, e.afterStartup));
    }
  }

  /** By how much an event about an object that counts for `of` changes what is running of `t`. */
  function Change(of: Option<string>, action: Action, t: string): int {
    if of != Some(t) then 0
    else
      match action
      case EventAdd => 1
      case EventUpdate => 0
      case EventDelete => -1
  }

  lemma TranslatedChange(ms: Metrics, of: string, action: Action, afterStartup: bool, t: string)
    ensures Get(CollectAll(ms, TranslatedCalls(action, of, afterStartup)), t).running ==
            Get(ms, t).running + Change(Some(of), action, t)
  {
    OneCall(ms, TranslatedCalls(action, of, afterStartup));
  }

  lemma OneMoreCall(before: seq<Occurrence>, events: seq<Occurrence>, e: Occurrence, t: string)
    requires events == before + [e]
    ensures Get(CollectAll(map[], Calls(events)), t).running ==
            Get(CollectAll(map[], Calls(before)), t).running + Change(MetricOf(e.obj), e.action, t)
  {
    assert events[..|events| - 1] == before;
    var calls := CallsFor(e.obj, e.action, e.afterStartup);
    var ms := CollectAll(map[], Calls(before));
    CollectAllConcat(map[], Calls(before), calls);
    assert Calls(events) == Calls(before) + calls;
    var of := MetricOf(e.obj);
    if of.Some? {
      TranslatedChange(ms, of.value, e.action, e.afterStartup, t);
    }
  }

  lemma OneMoreLive(before: seq<Occurrence>, events: seq<Occurrence>, e: Occurrence, counts: string -> Option<string>, t: string)
    requires events == before + [e]
    ensures LiveOf(events, counts, t) ==
            if counts(e.id) != Some(t) || e.action == EventUpdate then LiveOf(before, counts, t)
            else if e.action == EventAdd then LiveOf(before, counts, t) + {e.id}
            else LiveOf(before, counts, t) - {e.id}
    ensures counts(e.id) == Some(t) ==> (e.id in LiveOf(before, counts, t) <==> e.id in Live(before))
  {
    assert events[..|events| - 1] == before;
  }

  lemma SizeWithOne(was: set<string>, id: string)
    ensures |was + {id}| == |was| + if id in was then 0 else 1
    ensures |was - {id}| == |was| - if id in was then 1 else 0
  {
    if id in was {
      assert was + {id} == was;
    } else {
      assert was - {id} == was;
    }
  }

  /** How one event changes the number of live objects that count, and of the two exceptions. */
  lemma OneMoreEvent(before: seq<Occurrence>, events: seq<Occurrence>, e: Occurrence, counts: string -> Option<string>, t: string)
    requires events == before + [e]
    ensures |LiveOf(events, counts, t)| + Again(events, counts, t) - Stray(events, counts, t) ==
            |LiveOf(before, counts, t)| + Again(before, counts, t) - Stray(before, counts, t) + Change(counts(e.id), e.action, t)
  {
    OneMoreLive(before, events, e, counts, t);
    SizeWithOne(LiveOf(before, counts, t), e.id);
    assert events[..|events| - 1] == before;
  }
}
