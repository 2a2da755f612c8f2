/** Metrics as the registry names them, and the parsing of those names. */
module MetricNames {
  import opened Entities
  import opened Metrics

  datatype Counter = CreatedCounter | DeletedCounter | ErrorsCounter | RunningCounter

  datatype FamilyType = CounterType | GaugeType | OtherType

  /** A metric family with the value of its only metric, if that is an integer in range. */
  datatype Family = Family(name: string, kind: FamilyType, value: Option<int>)

  function CounterName(c: Counter): string {
    match c
    case CreatedCounter => "created"
    case DeletedCounter => "deleted"
    case ErrorsCounter => "errors"
    case RunningCounter => "running"
  }

  /** The name of a collector; counters get the customary ending. */
  function CollectorName(c: Counter): string {
    CounterName(c) + if c == RunningCounter then "" else "_total"
  }

  /** The registry joins subsystem and name, unless the subsystem is empty. */
  function FullName(t: string, c: Counter): string {
    if t == "" then CollectorName(c) else t + "_" + CollectorName(c)
  }

  function Value(m: Metric, c: Counter): int {
    match c
    case CreatedCounter => m.created
    case DeletedCounter => m.deleted
    case ErrorsCounter => m.errors
    case RunningCounter => m.running
  }

  function WithValue(m: Metric, c: Counter, value: int): Metric {
    match c
    case CreatedCounter => m.(created := value)
    case DeletedCounter => m.(deleted := value)
    case ErrorsCounter => m.(errors := value)
    case RunningCounter => m.(running := value)
  }

  // ---------- Splitting ----------

  /** The parts between the underscores. */
  function Split(s: string): (parts: seq<string>)
    ensures |parts| >= 1
    ensures forall p | p in parts :: '_' !in p
  {
    if s == "" then [""]
    else
      var rest := Split(s[1..]);
      if s[0] == '_' then [""] + rest else [[s[0]] + rest[0]] + rest[1..]
  }

  lemma {:induction false} SplitFirst(a: string, s: string)
    requires '_' !in a
    ensures Split(a + "_" + s) == [a] + Split(s)
    ensures Split(a) == [a]
  {
    if a == "" {
      assert (a + "_" + s)[1..] == s;
    } else {
      SplitFirst(a[1..], s);
      assert (a + "_" + s)[1..] == a[1..] + "_" + s;
      assert a[0] in a && [a[0]] + a[1..] == a;
      assert ([a[1..]] + Split(s))[1..] == Split(s);
    }
  }

  // ---------- Parsing ----------

  /** The counter a part of a name stands for; other parts stand for none. */
  function CounterOf(part: string): Option<Counter> {
    if part == "created" then Some(CreatedCounter)
    else if part == "deleted" then Some(DeletedCounter)
    else if part == "errors" then Some(ErrorsCounter)
    else if part == "running" then Some(RunningCounter)
    else None
  }

  function ParseOne(ms: Metrics, f: Family): Option<Metrics> {
    var parts := Split(f.name);
    if |parts| < 2 || f.kind == OtherType || f.value == None then None
    else
      var m := Get(ms, parts[0]);
      var c := CounterOf(parts[1]);
      Some(ms[parts[0] := if c.Some? then WithValue(m, c.value, f.value.value) else m])
  }

  function Parse(fs: seq<Family>): Option<Metrics> {
    if fs == [] then Some(map[])
    else
      var before := Parse(fs[..|fs| - 1]);
      if before == None then None else ParseOne(before.value, fs[|fs| - 1])
  }

  method ParseMetrics(fs: seq<Family>) returns (parsed: Option<Metrics>)
    ensures parsed == Parse(fs)
  {
    var metrics: Metrics := map[];
    for i := 0 to |fs|
      invariant Parse(fs[..i]) == Some(metrics)
    {
      assert fs[..i + 1][..i] == fs[..i];
      var splits := Split(fs[i].name);
      if |splits| < 2 {
        StaysUnparsed(fs, i + 1);
        return None;
      }
      var metric := ZERO;
      if splits[0] in metrics {
        metric := metrics[splits[0]];
      }
      if fs[i].kind == OtherType || fs[i].value == None {
        StaysUnparsed(fs, i + 1);
        return None;
      }
      var value := fs[i].value.value;
      if splits[1] == "created" {
        metric := metric.(created := value);
      } else if splits[1] == "deleted" {
        metric := metric.(deleted := value);
      } else if splits[1] == "errors" {
        metric := metric.(errors := value);
      } else if splits[1] == "running" {
        metric := metric.(running := value);
      }
      metrics := metrics[splits[0] := metric];
    }
    assert fs[..|fs|] == fs;
    return Some(metrics);
  }

  lemma {:induction false} StaysUnparsed(fs: seq<Family>, i: nat)
    requires i <= |fs| && Parse(fs[..i]) == None
    ensures Parse(fs) == None
    decreases |fs|
  {
    if i == |fs| {
      assert fs[..i] == fs;
    } else {
      assert fs[..|fs| - 1][..i] == fs[..i];
      StaysUnparsed(fs[..|fs| - 1], i);
    }
  }

  lemma {:induction false} SplitCounts(s: string)
    ensures |Split(s)| >= 2 <==> '_' in s
  {
    if s != "" {
      SplitCounts(s[1..]);
      assert s == [s[0]] + s[1..];
    }
  }

  /** A family that cannot be read: its name has no second part, it is neither a counter nor a gauge, or
      its value is no integer. */
  predicate Unreadable(f: Family) {
    '_' !in f.name || f.kind !in {CounterType, GaugeType} || f.value == None
  }

  /** The value of the last family of a type whose second part names the counter; zero if there is none. */
  function LastValue(fs: seq<Family>, t: string, name: string): int {
    if fs == [] then 0
    else
      var f := fs[|fs| - 1];
      var parts := Split(f.name);
      if |parts| >= 2 && parts[0] == t && parts[1] == name && f.value.Some? then f.value.value
      else LastValue(fs[..|fs| - 1], t, name)
  }

  /** Parsing fails exactly if some family cannot be read. Else it finds the types that names begin with,
      also before a second part that names no counter, and of each counter the value that comes last. */
  lemma {:induction false} ParsedFamilies(fs: seq<Family>, t: string)
    ensures Parse(fs) == None <==> exists f :: f in fs && Unreadable(f)
    ensures Parse(fs).Some? ==>
              && (t in Parse(fs).value <==> exists f :: f in fs && Split(f.name)[0] == t)
              && Get(Parse(fs).value, t) == Metric(LastValue(fs, t, "created"), LastValue(fs, t, "deleted"),
                                                   LastValue(fs, t, "errors"), LastValue(fs, t, "running"))
  {
    if fs != [] {
      var before, last := fs[..|fs| - 1], fs[|fs| - 1];
      assert fs == before + [last];
      ParsedFamilies(before, t);
      SplitCounts(last.name);
      assert last in fs && forall f | f in before :: f in fs;
      if Parse(before).Some? && !Unreadable(last) {
        OneMoreParsed(Parse(before).value, last, t);
      }
    }
  }

  lemma OneMoreParsed(ms: Metrics, f: Family, t: string)
    requires |Split(f.name)| >= 2 && f.kind != OtherType && f.value.Some?
    ensures var parts := Split(f.name);
            var after := ParseOne(ms, f);
            && after.Some?
            && (t in after.value <==> t in ms || parts[0] == t)
            && (parts[0] != t ==> Get(after.value, t) == Get(ms, t))
            && (parts[0] == t ==>
                  Get(after.value, t) == Metric(if parts[1] == "created" then f.value.value else Get(ms, t).created,
                                                if parts[1] == "deleted" then f.value.value else Get(ms, t).deleted,
                                                if parts[1] == "errors" then f.value.value else Get(ms, t).errors,
                                                if parts[1] == "running" then f.value.value else Get(ms, t).running))
  {
    assert |"created"| == 7 && |"deleted"| == 7 && |"errors"| == 6 && |"running"| == 7;
    assert "created"[0] != "deleted"[0] && "created"[0] != "running"[0] && "deleted"[0] != "running"[0];
  }

  // ---------- Round trip ----------

  function FamilyOf(m: Metric, t: string, c: Counter): Family {
    Family(FullName(t, c), if c == RunningCounter then GaugeType else CounterType, Some(Value(m, c)))
  }

  /** The families of these collectors, in this order. */
  function Printed(ms: Metrics, order: seq<(string, Counter)>): seq<Family>
    requires forall p | p in order :: p.0 in ms
  {
    seq(|order|, i requires 0 <= i < |order| => FamilyOf(ms[order[i].0], order[i].0, order[i].1))
  }

  /** Every collector of every metric, in some order. */
  ghost predicate Lists(order: seq<(string, Counter)>, ms: Metrics) {
    && (forall p | p in order :: p.0 in ms)
    && (forall t, c | t in ms :: (t, c) in order)
  }

  predicate Plain(t: string) {
    t != "" && '_' !in t
  }

  lemma CollectorNameStarts(c: Counter)
    ensures Split(CollectorName(c))[0] == CounterName(c) != ""
  {
    var name := CounterName(c);
    assert '_' !in name;
    if c == RunningCounter {
      assert CollectorName(c) == name;
      SplitFirst(name, "");
    } else {
      assert CollectorName(c) == name + "_" + "total";
      SplitFirst(name, "total");
    }
  }

  lemma NameOfPlain(t: string, c: Counter)
    requires Plain(t)
    ensures Split(FullName(t, c))[0] == t && |Split(FullName(t, c))| >= 2
    ensures CounterOf(Split(FullName(t, c))[1]) == Some(c)
  {
    SplitFirst(t, CollectorName(c));
    CollectorNameStarts(c);
    CounterOfName(c);
  }

  lemma CounterOfName(c: Counter)
    ensures CounterOf(CounterName(c)) == Some(c)
  {
    assert |"deleted"| == |"created"| == |"running"| && "deleted"[0] != "created"[0];
    assert "running"[0] != "created"[0] && "running"[0] != "deleted"[0];
  }

  /** What is parsed after some collectors: their metrics, with their values and zeros otherwise. */
  ghost predicate Agrees(parsed: Metrics, ms: Metrics, order: seq<(string, Counter)>)
    requires forall p | p in order :: p.0 in ms
  {
    && (forall t :: t in parsed <==> exists c :: (t, c) in order)
    && (forall t, c | t in parsed :: Value(parsed[t], c) == if (t, c) in order then Value(ms[t], c) else 0)
  }

  lemma AgreesStep(parsed: Metrics, ms: Metrics, before: seq<(string, Counter)>, t: string, c: Counter)
    requires t in ms && forall p | p in before :: p.0 in ms
    requires Agrees(parsed, ms, before)
    ensures Agrees(parsed[t := WithValue(Get(parsed, t), c, Value(ms[t], c))], ms, before + [(t, c)])
  {
    var after := parsed[t := WithValue(Get(parsed, t), c, Value(ms[t], c))];
    var order := before + [(t, c)];
    assert order[|before|] == (t, c) && forall p | p in before :: p in order;
    forall d
      ensures Value(after[t], d) == if (t, d) in order then Value(ms[t], d) else 0
    {
      assert d != c ==> ((t, d) in order <==> (t, d) in before);
    }
  }

  lemma ParseOnePlain(parsed: Metrics, m: Metric, t: string, c: Counter)
    requires Plain(t)
    ensures ParseOne(parsed, FamilyOf(m, t, c)) == Some(parsed[t := WithValue(Get(parsed, t), c, Value(m, c))])
  {
    NameOfPlain(t, c);
  }

  lemma {:induction false} ParsePlain(ms: Metrics, order: seq<(string, Counter)>) returns (parsed: Metrics)
    requires forall p | p in order :: p.0 in ms && Plain(p.0)
    ensures Parse(Printed(ms, order)) == Some(parsed) && Agrees(parsed, ms, order)
    decreases |order|
  {
    if order == [] {
      parsed := map[];
    } else {
      var before, last := order[..|order| - 1], order[|order| - 1];
      assert order == before + [(last.0, last.1)];
      assert Printed(ms, order)[..|order| - 1] == Printed(ms, before);
      var sofar := ParsePlain(ms, before);
      ParseOnePlain(sofar, ms[last.0], last.0, last.1);
      AgreesStep(sofar, ms, before, last.0, last.1);
      parsed := sofar[last.0 := WithValue(Get(sofar, last.0), last.1, Value(ms[last.0], last.1))];
    }
  }

  /** Parsing in whatever order gives the metrics back exactly if no type of metric is empty or has an
      underscore. */
  lemma RoundTrip(ms: Metrics, order: seq<(string, Counter)>)
    requires Lists(order, ms)
    ensures Parse(Printed(ms, order)) == Some(ms) <==> forall t | t in ms :: Plain(t)
  {
    if forall t | t in ms :: Plain(t) {
      var parsed := ParsePlain(ms, order);
      forall t
        ensures t in parsed <==> t in ms
        ensures t in ms ==> parsed[t] == ms[t]
      {
        if t in ms {
          assert (t, CreatedCounter) in order && (t, DeletedCounter) in order;
          assert (t, ErrorsCounter) in order && (t, RunningCounter) in order;
          SameValues(parsed[t], ms[t]);
        }
      }
      assert parsed == ms;
    } else if Parse(Printed(ms, order)) == Some(ms) {
      forall t | t in ms
        ensures '_' !in t
      {
        ParsedFamilies(Printed(ms, order), t);
      }
      EmptyIsNotParsed(ms, order);
    }
  }

  lemma SameValues(m: Metric, n: Metric)
    requires forall c :: Value(m, c) == Value(n, c)
    ensures m == n
  {
    assert Value(m, CreatedCounter) == Value(n, CreatedCounter) && Value(m, DeletedCounter) == Value(n, DeletedCounter);
    assert Value(m, ErrorsCounter) == Value(n, ErrorsCounter) && Value(m, RunningCounter) == Value(n, RunningCounter);
  }

  /** No name without an underscore in its type gives the empty type. */
  lemma EmptyIsNotParsed(ms: Metrics, order: seq<(string, Counter)>)
    requires Lists(order, ms) && forall t | t in ms :: '_' !in t
    requires Parse(Printed(ms, order)).Some?
    ensures "" !in Parse(Printed(ms, order)).value
  {
    var fs := Printed(ms, order);
    forall f | f in fs
      ensures Split(f.name)[0] != ""
    {
      var i :| 0 <= i < |fs| && fs[i] == f;
      FirstPartIsNotEmpty(order[i].0, order[i].1);
    }
    ParsedFamilies(fs, "");
  }

  lemma FirstPartIsNotEmpty(t: string, c: Counter)
    requires '_' !in t
    ensures Split(FullName(t, c))[0] != ""
  {
    if t == "" {
      CollectorNameStarts(c);
    } else {
      NameOfPlain(t, c);
    }
  }
}
