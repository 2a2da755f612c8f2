/** The notifier with its round split where the program splits it: the snapshot, the sending of each
    batch and the clearing of the flags are separate steps, and other goroutines use the monitor in
    between. A batch holds the flagged services themselves, so what is sent is what a service says
    when it is sent. */
module Interleaving {
  import opened Entities
  import opened MonitorModel
  import opened Notifier

  /** What one notification will send: the services of an entry that is still monitored, or the
      last statuses of an entry that the snapshot dropped. */
  datatype Batch =
    | Live(f: string, keys: set<string>)
    | Dropped(f: string, statuses: map<string, NalejServiceStatus>)

  datatype Phase = Idle | Sending(todo: seq<Batch>)

  /** `suspects` are the services whose status changed, or that were added, strictly between a
      snapshot and the reset of its round, and that were not sent since. */
  datatype Split = Split(sys: System, phase: Phase, suspects: set<ServiceKey>)

  datatype Action =
    | Mutate(op: Op)
    | Snapshot(batches: seq<Batch>)
    | Send
    | Reset

  ghost predicate BatchOf(batch: Batch, st: State) {
    && batch.f in st && PendingServices(st[batch.f]) != {}
    && match batch
       case Live(f, keys) => st[f].status != FragmentTerminating && keys == PendingServices(st[f])
       case Dropped(f, statuses) =>
         && st[f].status == FragmentTerminating
         && statuses == map s | s in PendingServices(st[f]) :: st[f].services[s].status
  }

  /** The batches are those of the flagged entries, in any order. */
  ghost predicate SnapshotOf(batches: seq<Batch>, st: State) {
    && (forall b | b in batches :: BatchOf(b, st))
    && (forall f | f in st && PendingServices(st[f]) != {} :: exists b :: b in batches && b.f == f)
  }

  ghost predicate Enabled(x: Split, action: Action) {
    match action
    case Mutate(op) => Mutator(op)
    case Snapshot(batches) => x.phase == Idle && SnapshotOf(batches, x.sys.monitor)
    case Send => x.phase.Sending? && x.phase.todo != []
    case Reset => x.phase == Sending([])
  }

  /** The services that a change of the monitor adds or gives another status. */
  ghost function Moved(st: State, st': State): set<ServiceKey> {
    set f, s | f in st' && s in st'[f].services &&
      (!HasService(st, f, s) || st[f].services[s].status != st'[f].services[s].status) :: (f, s)
  }

  ghost function Mutated(x: Split, op: Op): Split {
    var st' := Step(x.sys.monitor, op);
    Split(x.sys.(monitor := st'), x.phase,
          if x.phase == Idle then x.suspects else x.suspects + Moved(x.sys.monitor, st'))
  }

  /** With nothing flagged the round ends at the snapshot. */
  ghost function Snapped(x: Split, batches: seq<Batch>): Split {
    Split(x.sys.(monitor := DropTerminating(x.sys.monitor)),
          if batches == [] then Idle else Sending(batches), x.suspects)
  }

  ghost function Told(st: State, batch: Batch): map<ServiceKey, NalejServiceStatus> {
    match batch
    case Live(f, keys) => map k: ServiceKey | k in Keys(f, keys) && HasService(st, f, k.1) :: st[f].services[k.1].status
    case Dropped(f, statuses) => map k: ServiceKey | k in Keys(f, statuses.Keys) && k.1 in statuses :: statuses[k.1]
  }

  ghost function Keys(f: string, keys: set<string>): set<ServiceKey> {
    set s | s in keys :: (f, s)
  }

  ghost function SentFirst(x: Split): Split
    requires x.phase.Sending? && x.phase.todo != []
  {
    var batch := x.phase.todo[0];
    Split(x.sys.(told := x.sys.told + Told(x.sys.monitor, batch)), Sending(x.phase.todo[1..]),
          if batch.Live? then x.suspects - Keys(batch.f, batch.keys) else x.suspects)
  }

  ghost function Act(x: Split, action: Action): Split
    requires Enabled(x, action)
  {
    match action
    case Mutate(op) => Mutated(x, op)
    case Snapshot(batches) => Snapped(x, batches)
    case Send => SentFirst(x)
    case Reset => Split(x.sys.(monitor := ResetUnnotified(x.sys.monitor)), Idle, x.suspects)
  }

  /** A round with nothing flagged ends at its snapshot: no batch, nothing to send, and no flag cleared. */
  lemma QuietSnapshot(x: Split, batches: seq<Batch>)
    requires Enabled(x, Snapshot(batches))
    ensures batches == [] <==> forall f | f in x.sys.monitor :: PendingServices(x.sys.monitor[f]) == {}
    ensures batches == [] ==> Act(x, Snapshot(batches)).phase == Idle && !Enabled(Act(x, Snapshot(batches)), Reset)
    ensures batches != [] ==> Enabled(Act(x, Snapshot(batches)), Send)
  {
    if batches != [] {
      assert batches[0] in batches;
    }
  }

  /** What sending a batch tells: of a monitored fragment what the services say by now, and of a dropped
      one what they said last. A service that is told as it is now is no suspect any more. */
  lemma SendTells(x: Split, s: string)
    requires Enabled(x, Send)
    ensures var batch, after := x.phase.todo[0], Act(x, Send);
            var k := (batch.f, s);
            && after.sys.monitor == x.sys.monitor
            && (batch.Dropped? && s in batch.statuses ==> k in after.sys.told && after.sys.told[k] == batch.statuses[s])
            && (batch.Live? && s in batch.keys && HasService(x.sys.monitor, batch.f, s) ==>
                  k in after.sys.told && after.sys.told[k] == x.sys.monitor[batch.f].services[s].status)
            && (batch.Live? && s in batch.keys ==> k !in after.suspects)
  {
    var k := (x.phase.todo[0].f, s);
    assert x.phase.todo[0].Live? && s in x.phase.todo[0].keys ==> k in Keys(x.phase.todo[0].f, x.phase.todo[0].keys);
    assert x.phase.todo[0].Dropped? && s in x.phase.todo[0].statuses ==>
        k in Keys(x.phase.todo[0].f, x.phase.todo[0].statuses.Keys);
  }

  /** A service becomes a suspect only by being added, or given another status, during a round. */
  lemma SuspectsAreReal(x: Split, action: Action, f: string, s: string)
    requires Enabled(x, action) && (f, s) !in x.suspects
    ensures var after := Act(x, action);
            (f, s) in after.suspects <==>
            && action.Mutate? && x.phase != Idle && HasService(after.sys.monitor, f, s)
            && (HasService(x.sys.monitor, f, s) ==>
                  x.sys.monitor[f].services[s].status != after.sys.monitor[f].services[s].status)
  {
  }

  // ---------- The invariant ----------

  /** The service is in a live batch that is still to be sent. */
  ghost predicate Queued(x: Split, f: string, s: string) {
    x.phase.Sending? && exists b :: b in x.phase.todo && b.Live? && b.f == f && s in b.keys
  }

  /** Why the conductor may not know the status of a service. */
  ghost predicate Excused(x: Split, f: string, s: string) {
    || (f, s) in x.suspects
    || (if x.phase == Idle then Flagged(x.sys.monitor, f, s) else Queued(x, f, s))
  }

  /** A terminating entry has terminated this service. */
  predicate TerminatedToo(st: State, f: string, s: string)
    requires HasService(st, f, s)
  {
    st[f].status == FragmentTerminating ==> st[f].services[s].status == ServiceTerminating
  }

  /** Between rounds as in the undivided notifier; during a round only a service that was added
      after the snapshot can have been spared by a terminating entry. */
  ghost predicate TerminationInv(x: Split, f: string, s: string)
    requires HasService(x.sys.monitor, f, s)
  {
    if x.phase == Idle then Terminated(x.sys.monitor, f, s) || (f, s) in x.suspects
    else TerminatedToo(x.sys.monitor, f, s) || ((f, s) in x.suspects && !Queued(x, f, s))
  }

  ghost predicate ServiceInv(x: Split, f: string, s: string)
    requires HasService(x.sys.monitor, f, s)
  {
    (Known(x.sys, f, s) || Excused(x, f, s)) && TerminationInv(x, f, s)
  }

  /** During a round: queued services are monitored, a dropped entry that is monitored again was
      added after the snapshot, and no fragment is both live and dropped. */
  ghost predicate BatchesInv(x: Split) {
    x.phase.Sending? ==>
      && (forall b, s | b in x.phase.todo && b.Live? && s in b.keys :: HasService(x.sys.monitor, b.f, s))
      && (forall b, s | b in x.phase.todo && b.Dropped? && HasService(x.sys.monitor, b.f, s) :: (b.f, s) in x.suspects)
      && (forall b, c | b in x.phase.todo && c in x.phase.todo && b.Live? && c.Dropped? :: b.f != c.f)
  }

  ghost predicate Inv(x: Split) {
    (forall f, s | HasService(x.sys.monitor, f, s) :: ServiceInv(x, f, s)) && BatchesInv(x)
  }

  /** A change of the monitor does not make a service the exception to termination. */
  lemma MutatorTerminates(st: State, op: Op, f: string, s: string)
    requires Mutator(op) && HasService(st, f, s) && TerminatedToo(st, f, s)
    ensures HasService(Step(st, op), f, s) && TerminatedToo(Step(st, op), f, s)
  {
  }

  lemma MutateKeeps(x: Split, op: Op)
    requires Inv(x) && Mutator(op)
    ensures Inv(Mutated(x, op))
  {
    var x' := Mutated(x, op);
    var st, st' := x.sys.monitor, x'.sys.monitor;
    forall f, s | HasService(st, f, s)
      ensures HasService(st', f, s)
    {
      MutatorKeepsServices(st, op, f, s);
    }
    forall f, s | HasService(st', f, s)
      ensures ServiceInv(x', f, s)
    {
      if x.phase == Idle {
        IdleMutateKeeps(x, op, f, s);
      } else {
        SendingMutateKeeps(x, op, f, s);
      }
    }
    if x.phase.Sending? {
      forall b, s | b in x.phase.todo && b.Dropped? && HasService(st', b.f, s)
        ensures (b.f, s) in x'.suspects
      {
        assert HasService(st, b.f, s) || (b.f, s) in Moved(st, st');
      }
    }
  }

  lemma IdleMutateKeeps(x: Split, op: Op, f: string, s: string)
    requires Inv(x) && Mutator(op) && x.phase == Idle && HasService(Step(x.sys.monitor, op), f, s)
    ensures ServiceInv(Mutated(x, op), f, s)
  {
    var st := x.sys.monitor;
    if !HasService(st, f, s) || Terminated(st, f, s) {
      MutatorFlagsChanges(st, op, f, s);
    }
    assert HasService(st, f, s) ==> ServiceInv(x, f, s);
  }

  lemma SendingMutateKeeps(x: Split, op: Op, f: string, s: string)
    requires Inv(x) && Mutator(op) && x.phase.Sending? && HasService(Step(x.sys.monitor, op), f, s)
    ensures ServiceInv(Mutated(x, op), f, s)
  {
    var x' := Mutated(x, op);
    var st, st' := x.sys.monitor, x'.sys.monitor;
    if HasService(st, f, s) {
      assert ServiceInv(x, f, s);
      assert Queued(x', f, s) <==> Queued(x, f, s);
      if TerminatedToo(st, f, s) {
        MutatorTerminates(st, op, f, s);
      }
      assert st'[f].services[s].status != st[f].services[s].status ==> (f, s) in Moved(st, st');
    } else {
      assert (f, s) in Moved(st, st');
      assert !Queued(x', f, s);
    }
  }

  lemma SnapshotKeeps(x: Split, batches: seq<Batch>)
    requires Inv(x) && x.phase == Idle && SnapshotOf(batches, x.sys.monitor)
    ensures Inv(Snapped(x, batches))
  {
    var x' := Snapped(x, batches);
    forall f, s | HasService(x'.sys.monitor, f, s)
      ensures ServiceInv(x', f, s)
    {
      assert ServiceInv(x, f, s);
      if Flagged(x.sys.monitor, f, s) {
        var b :| b in batches && b.f == f;
        assert BatchOf(b, x.sys.monitor);
      }
    }
  }

  lemma SendKeeps(x: Split)
    requires Inv(x) && x.phase.Sending? && x.phase.todo != []
    ensures Inv(SentFirst(x))
  {
    var batch := x.phase.todo[0];
    var x' := SentFirst(x);
    assert batch in x.phase.todo;
    assert forall b | b in x'.phase.todo :: b in x.phase.todo;
    forall f, s | HasService(x'.sys.monitor, f, s)
      ensures ServiceInv(x', f, s)
    {
      assert ServiceInv(x, f, s);
      assert Queued(x', f, s) ==> Queued(x, f, s);
      SendKeepsService(x, f, s);
    }
  }

  lemma SendKeepsService(x: Split, f: string, s: string)
    requires Inv(x) && x.phase.Sending? && x.phase.todo != [] && HasService(x.sys.monitor, f, s)
    requires ServiceInv(x, f, s)
    ensures ServiceInv(SentFirst(x), f, s)
  {
    var batch := x.phase.todo[0];
    var x' := SentFirst(x);
    assert batch in x.phase.todo;
    if batch.Live? && batch.f == f && s in batch.keys {
      assert Queued(x, f, s);
      assert (f, s) in Keys(f, batch.keys);
      assert Known(x'.sys, f, s);
    } else {
      assert (f, s) in Told(x.sys.monitor, batch) ==> batch.Dropped? && batch.f == f;
      assert (f, s) in x.suspects ==> (f, s) in x'.suspects;
      if Queued(x, f, s) {
        var b :| b in x.phase.todo && b.Live? && b.f == f && s in b.keys;
        assert b != batch;
        assert b in x'.phase.todo;
      }
    }
  }

  /** Once everything is sent and the flags are cleared, the conductor knows the status of every
      service but the suspects: those whose status changed, or that were added, strictly between a
      snapshot and the reset of its round, and that were not sent since. */
  lemma ResetLeavesSuspects(x: Split, f: string, s: string)
    requires Inv(x) && x.phase == Sending([]) && HasService(Act(x, Reset).sys.monitor, f, s)
    ensures Known(Act(x, Reset).sys, f, s) || (f, s) in Act(x, Reset).suspects
    ensures !Flagged(Act(x, Reset).sys.monitor, f, s)
  {
    assert ServiceInv(x, f, s);
  }

  lemma ActKeeps(x: Split, action: Action)
    requires Inv(x) && Enabled(x, action)
    ensures Inv(Act(x, action))
  {
    match action {
      case Mutate(op) => MutateKeeps(x, op);
      case Snapshot(batches) => SnapshotKeeps(x, batches);
      case Send => SendKeeps(x);
      case Reset =>
        var x' := Act(x, Reset);
        forall f, s | HasService(x'.sys.monitor, f, s)
          ensures ServiceInv(x', f, s)
        {
          assert ServiceInv(x, f, s);
        }
    }
  }

  // ---------- Runs ----------

  ghost predicate IsRun(xs: seq<Split>, actions: seq<Action>) {
    && |xs| == |actions| + 1
    && forall i | 0 <= i < |actions| :: Enabled(xs[i], actions[i]) && xs[i + 1] == Act(xs[i], actions[i])
  }

  const START: Split := Split(System(map[], map[]), Idle, {})

  lemma {:induction false} RunKeeps(xs: seq<Split>, actions: seq<Action>, i: nat)
    requires IsRun(xs, actions) && Inv(xs[0]) && i < |xs|
    ensures Inv(xs[i])
  {
    if i > 0 {
      RunKeeps(xs, actions, i - 1);
      ActKeeps(xs[i - 1], actions[i - 1]);
    }
  }

  /** In every run, right after every reset. */
  lemma EveryResetTellsAllButSuspects(xs: seq<Split>, actions: seq<Action>, i: nat, f: string, s: string)
    requires IsRun(xs, actions) && xs[0] == START && i < |actions| && actions[i] == Reset
    requires HasService(xs[i + 1].sys.monitor, f, s)
    ensures Known(xs[i + 1].sys, f, s) || (f, s) in xs[i + 1].suspects
  {
    RunKeeps(xs, actions, i);
    ResetLeavesSuspects(xs[i], f, s);
  }

  /** A run in which no status moves during a round has no suspects, so every reset leaves the
      conductor knowing everything. */
  lemma {:induction false} QuietRoundsTellEverything(xs: seq<Split>, actions: seq<Action>, i: nat)
    requires IsRun(xs, actions) && xs[0] == START && i < |xs|
    requires forall j | 0 <= j < |actions| && actions[j].Mutate? && xs[j].phase.Sending? ::
               Moved(xs[j].sys.monitor, xs[j + 1].sys.monitor) == {}
    ensures xs[i].suspects == {}
    ensures i > 0 && actions[i - 1] == Reset ==>
              forall f, s | HasService(xs[i].sys.monitor, f, s) :: Known(xs[i].sys, f, s)
  {
    if i > 0 {
      QuietRoundsTellEverything(xs, actions, i - 1);
      assert xs[i] == Act(xs[i - 1], actions[i - 1]);
      if actions[i - 1] == Reset {
        forall f, s | HasService(xs[i].sys.monitor, f, s)
          ensures Known(xs[i].sys, f, s)
        {
          EveryResetTellsAllButSuspects(xs, actions, i - 1, f, s);
        }
      }
    }
  }

  // ---------- The exception is reachable ----------

  function OneService(status: NalejServiceStatus, newStatus: bool, checks: int): Entry {
    Entry("app", "ns",
          map["s" := Service(map["u" := Resource(status, status != ServiceRunning)], status, newStatus, checks, [])],
          ServicesToFragmentStatus(status), newStatus, 1, 1)
  }

  const ADD := Mutate(OpAddEntry("f", OneService(ServiceScheduled, true, 1)))
  const SNAPSHOT := Snapshot([Live("f", {"s"})])
  const COME_UP := Mutate(OpSetResourceStatus("f", "s", "u", ServiceRunning, []))

  lemma SentAsScheduled() returns (x1: Split, x2: Split, x3: Split)
    ensures Enabled(START, ADD) && x1 == Act(START, ADD)
    ensures Enabled(x1, SNAPSHOT) && x2 == Act(x1, SNAPSHOT)
    ensures Enabled(x2, Send) && x3 == Act(x2, Send)
    ensures x3.phase == Sending([]) && ("f", "s") in x3.sys.told && x3.sys.told[("f", "s")] == ServiceScheduled
    ensures x3.sys.monitor == map["f" := OneService(ServiceScheduled, true, 1)]
  {
    var before := OneService(ServiceScheduled, true, 1);
    var batches := [Live("f", {"s"})];
    x1 := Mutated(START, ADD.op);
    assert x1.sys.monitor == map["f" := before];
    assert PendingServices(before) == {"s"};
    assert SnapshotOf(batches, x1.sys.monitor) by {
      assert batches[0] in batches && batches[0].f == "f";
    }
    x2 := Snapped(x1, batches);
    assert x2.sys.monitor == x1.sys.monitor;
    x3 := SentFirst(x2);
    assert ("f", "s") in Keys("f", {"s"});
  }

  lemma ComesUp()
    ensures SetResourceStatus(map["f" := OneService(ServiceScheduled, true, 1)], "f", "s", "u", ServiceRunning, []) ==
            map["f" := OneService(ServiceRunning, true, 0)]
  {
    var before := OneService(ServiceScheduled, true, 1);
    var changed := ChangeResource(before.services["s"], "u", ServiceRunning, []);
    assert changed.resources["u"].status == ServiceRunning;
    assert ResourceStatuses(changed.resources) == {ServiceRunning};
    var services := before.services["s" := Recompute(changed)];
    assert services["s"].status == ServiceRunning;
    assert ServiceStatuses(services) == {ServiceRunning};
    assert changed.resources == OneService(ServiceRunning, true, 0).services["s"].resources;
    assert services["s"] == OneService(ServiceRunning, true, 0).services["s"];
    assert services == OneService(ServiceRunning, true, 0).services;
  }

  lemma NothingFlagged()
    ensures var st := ResetUnnotified(map["f" := OneService(ServiceRunning, true, 0)]);
            SnapshotOf([], st) && HasService(st, "f", "s") && st["f"].services["s"].status == ServiceRunning
  {
    var st := ResetUnnotified(map["f" := OneService(ServiceRunning, true, 0)]);
    assert PendingServices(st["f"]) == {};
  }

  lemma ComesUpUnseen(x3: Split) returns (x4: Split, x5: Split)
    requires x3.phase == Sending([]) && ("f", "s") in x3.sys.told && x3.sys.told[("f", "s")] == ServiceScheduled
    requires x3.sys.monitor == map["f" := OneService(ServiceScheduled, true, 1)]
    ensures Enabled(x3, COME_UP) && x4 == Act(x3, COME_UP)
    ensures Enabled(x4, Reset) && x5 == Act(x4, Reset) && x5.phase == Idle
    ensures HasService(x5.sys.monitor, "f", "s") && !Known(x5.sys, "f", "s") && SnapshotOf([], x5.sys.monitor)
  {
    ComesUp();
    NothingFlagged();
    x4 := Mutated(x3, COME_UP.op);
    x5 := Act(x4, Reset);
  }

  /** A service comes up after its batch was sent and before the flags are cleared: the conductor
      still takes it for scheduled, nothing is flagged, and the next round has nothing to send. */
  lemma UpdateCanBeLost() returns (x1: Split, x2: Split, x3: Split, x4: Split, x5: Split)
    ensures Enabled(START, ADD) && x1 == Act(START, ADD)
    ensures Enabled(x1, SNAPSHOT) && x2 == Act(x1, SNAPSHOT)
    ensures Enabled(x2, Send) && x3 == Act(x2, Send)
    ensures Enabled(x3, COME_UP) && x4 == Act(x3, COME_UP)
    ensures Enabled(x4, Reset) && x5 == Act(x4, Reset) && x5.phase == Idle
    ensures HasService(x5.sys.monitor, "f", "s") && !Known(x5.sys, "f", "s") && SnapshotOf([], x5.sys.monitor)
  {
    x1, x2, x3 := SentAsScheduled();
    x4, x5 := ComesUpUnseen(x3);
  }
}
