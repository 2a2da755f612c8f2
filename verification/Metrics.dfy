/** Platform metrics: counters per type of metric, kept as events come in; and the print and parse of
    their names. Counter values are integers. */
module Metrics {
  import opened Entities

  datatype Metric = Metric(created: int, deleted: int, errors: int, running: int)

  type Metrics = map<string, Metric>

  const ZERO := Metric(0, 0, 0, 0)

  // ---------- Counting ----------

  /** One call of the collector. */
  datatype Call = Create(t: string) | Existing(t: string) | Delete(t: string) | Error(t: string)

  function Get(ms: Metrics, t: string): Metric {
    if t in ms then ms[t] else ZERO
  }

  function Counted(m: Metric, call: Call): Metric {
    match call
    case Create(_) => m.(created := m.created + 1, running := m.running + 1)
    case Existing(_) => m.(running := m.running + 1)
    case Delete(_) => m.(deleted := m.deleted + 1, running := m.running - 1)
    case Error(_) => m.(errors := m.errors + 1)
  }

  function Collect(ms: Metrics, call: Call): Metrics {
    ms[call.t := Counted(Get(ms, call.t), call)]
  }

  function CollectAll(ms: Metrics, calls: seq<Call>): Metrics {
    if calls == [] then ms else Collect(CollectAll(ms, calls[..|calls| - 1]), calls[|calls| - 1])
  }

  /** How often this very call was made. */
  function Times(calls: seq<Call>, call: Call): nat {
    if calls == [] then 0 else Times(calls[..|calls| - 1], call) + if calls[|calls| - 1] == call then 1 else 0
  }

  /** In every run each counter is the number of its calls, and what is running is what was created
      or found existing, less what was deleted. */
  lemma {:induction false} RunningIsConserved(calls: seq<Call>, t: string)
    ensures var m := Get(CollectAll(map[], calls), t);
            && m.created == Times(calls, Create(t))
            && m.deleted == Times(calls, Delete(t))
            && m.errors == Times(calls, Error(t))
            && m.running == m.created + Times(calls, Existing(t)) - m.deleted
  {
    if calls != [] {
      RunningIsConserved(calls[..|calls| - 1], t);
    }
  }

  /** The collectors of one type of metric. */
  class Subsystem {
    const t: string
    var created: int
    var deleted: int
    var errors: int
    var running: int

    constructor (t: string)
      ensures this.t == t && View() == ZERO
    {
      this.t, created, deleted, errors, running := t, 0, 0, 0, 0;
    }

    ghost function View(): Metric
      reads this
    {
      Metric(created, deleted, errors, running)
    }
  }

  class MetricsProvider {
    var subsystems: map<string, Subsystem>

    constructor ()
      ensures Valid() && View() == map[]
    {
      subsystems := map[];
    }

    /** Each subsystem is filed under its own type, so no two types share one. */
    ghost predicate Valid()
      reads this
    {
      forall t | t in subsystems :: subsystems[t].t == t
    }

    ghost function View(): Metrics
      reads this, subsystems.Values
    {
      map t | t in subsystems :: subsystems[t].View()
    }

    method GetSubsystem(t: string) returns (subsystem: Subsystem)
      requires Valid()
      modifies this
      ensures Valid() && t in subsystems && subsystem == subsystems[t]
      ensures fresh(subsystems.Values - old(subsystems.Values))
      ensures View() == old(View())[t := Get(old(View()), t)]
    {
      if t !in subsystems {
        subsystem := new Subsystem(t);
        subsystems := subsystems[t := subsystem];
      } else {
        subsystem := subsystems[t];
      }
    }

    /** One subsystem was changed, which may be a new one. */
    lemma OneChanged(was: Metrics, before: Metrics, t: string, m: Metric)
      requires before == was[t := m] && before.Keys == subsystems.Keys
      requires forall s | s in subsystems && s != t :: subsystems[s].View() == before[s]
      ensures View() == was[t := subsystems[t].View()]
    {
    }

    method Create(t: string)
      requires Valid()
      modifies this, subsystems.Values
      ensures Valid() && fresh(subsystems.Values - old(subsystems.Values))
      ensures View() == Collect(old(View()), Call.Create(t))
    {
      var subsystem := GetSubsystem(t);
      ghost var before := View();
      subsystem.created := subsystem.created + 1;
      subsystem.running := subsystem.running + 1;
      OneChanged(old(View()), before, t, Get(old(View()), t));
    }

    method Existing(t: string)
      requires Valid()
      modifies this, subsystems.Values
      ensures Valid() && fresh(subsystems.Values - old(subsystems.Values))
      ensures View() == Collect(old(View()), Call.Existing(t))
    {
      var subsystem := GetSubsystem(t);
      ghost var before := View();
      subsystem.running := subsystem.running + 1;
      OneChanged(old(View()), before, t, Get(old(View()), t));
    }

    method Delete(t: string)
      requires Valid()
      modifies this, subsystems.Values
      ensures Valid() && fresh(subsystems.Values - old(subsystems.Values))
      ensures View() == Collect(old(View()), Call.Delete(t))
    {
      var subsystem := GetSubsystem(t);
      ghost var before := View();
      subsystem.deleted := subsystem.deleted + 1;
      subsystem.running := subsystem.running - 1;
      OneChanged(old(View()), before, t, Get(old(View()), t));
    }

    method Error(t: string)
      requires Valid()
      modifies this, subsystems.Values
      ensures Valid() && fresh(subsystems.Values - old(subsystems.Values))
      ensures View() == Collect(old(View()), Call.Error(t))
    {
      var subsystem := GetSubsystem(t);
      ghost var before := View();
      subsystem.errors := subsystem.errors + 1;
      OneChanged(old(View()), before, t, Get(old(View()), t));
    }
  }
}
