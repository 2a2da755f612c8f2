/** The Istio decorator: every public rule for a service that is not deployed here gets a service and
    a virtual service that accept the rule's port. Calls to the cluster succeed. */
module Istio {
  import opened Entities

  datatype Rule = Rule(serviceName: string, targetPort: int)

  datatype ServicePort = ServicePort(port: int, targetPort: int, portNumber: int)

  /** A route with the ports it matches and the destination it leads to. */
  datatype TcpRoute = TcpRoute(matches: seq<int>, host: string, port: int)

  /** The services and virtual services of one namespace. */
  datatype ClusterState = ClusterState(services: map<string, seq<ServicePort>>, virtualServices: map<string, seq<TcpRoute>>)

  function Lower(c: char): char {
    if 'A' <= c <= 'Z' then (c as int + 32) as char else c
  }

  /** Lower case, without spaces. */
  function FormatName(name: string): string {
    if name == "" then "" else FormatChar(name[0]) + FormatName(name[1..])
  }

  function FormatChar(c: char): string {
    if c == ' ' then "" else [Lower(c)]
  }

  /** The conversion of a signed to an unsigned number of 32 bits. */
  function Uint32(port: int): int {
    port % 0x1_0000_0000
  }

  function NewPort(port: int): ServicePort {
    ServicePort(port, port, port)
  }

  function NewRoute(rule: Rule): TcpRoute {
    TcpRoute([Uint32(rule.targetPort)], FormatName(rule.serviceName), Uint32(rule.targetPort))
  }

  predicate HasPort(ports: seq<ServicePort>, port: int) {
    exists i :: 0 <= i < |ports| && ports[i].port == port
  }

  /** Looking at a route's first match fails if it has none. */
  predicate AllMatch(routes: seq<TcpRoute>) {
    forall i | 0 <= i < |routes| :: routes[i].matches != []
  }

  predicate HasRoute(routes: seq<TcpRoute>, port: int)
    requires AllMatch(routes)
  {
    exists i :: 0 <= i < |routes| && routes[i].matches[0] == port
  }

  function WithPort(ports: seq<ServicePort>, port: int): seq<ServicePort> {
    if HasPort(ports, port) then ports else ports + [NewPort(port)]
  }

  function WithRoute(routes: seq<TcpRoute>, rule: Rule): seq<TcpRoute>
    requires AllMatch(routes)
  {
    if HasRoute(routes, Uint32(rule.targetPort)) then routes else routes + [NewRoute(rule)]
  }

  function PortsOf(c: ClusterState, name: string): seq<ServicePort> {
    if name in c.services then c.services[name] else []
  }

  function RoutesOf(c: ClusterState, name: string): seq<TcpRoute> {
    if name in c.virtualServices then c.virtualServices[name] else []
  }

  /** What the cluster is like afterwards, and whether the program panicked on the way. */
  datatype Outcome = Outcome(state: ClusterState, panicked: bool)

  /** One rule: first its service, then its virtual service, where a route without a match panics. */
  function ApplyRule(c: ClusterState, deployed: seq<string>, rule: Rule): Outcome {
    var name := FormatName(rule.serviceName);
    if rule.serviceName in deployed then Outcome(c, false)
    else
      var served := c.(services := c.services[name := WithPort(PortsOf(c, name), rule.targetPort)]);
      if !AllMatch(RoutesOf(c, name)) then Outcome(served, true)
      else Outcome(served.(virtualServices := c.virtualServices[name := WithRoute(RoutesOf(c, name), rule)]), false)
  }

  function Decorate(c: ClusterState, deployed: seq<string>, rules: seq<Rule>): Outcome {
    if rules == [] then Outcome(c, false)
    else
      var before := Decorate(c, deployed, rules[..|rules| - 1]);
      if before.panicked then before else ApplyRule(before.state, deployed, rules[|rules| - 1])
  }

  // ---------- The methods ----------

  class Cluster {
    var services: map<string, seq<ServicePort>>
    var virtualServices: map<string, seq<TcpRoute>>

    constructor ()
      ensures View() == ClusterState(map[], map[])
    {
      services, virtualServices := map[], map[];
    }

    ghost function View(): ClusterState
      reads this
    {
      ClusterState(services, virtualServices)
    }
  }

  class IstioDecorator {
    const client: Cluster

    constructor (client: Cluster)
      ensures this.client == client
    {
      this.client := client;
    }

    method UpdateServicePorts(name: string, rule: Rule)
      requires name in client.services
      modifies client`services
      ensures client.services == old(client.services)[name := WithPort(old(client.services)[name], rule.targetPort)]
    {
      var ports := client.services[name];
      var found := false;
      for i := 0 to |ports|
        invariant !found && forall j | 0 <= j < i :: ports[j].port != rule.targetPort
      {
        if ports[i].port == rule.targetPort {
          found := true;
          break;
        }
      }
      if !found {
        client.services := client.services[name := ports + [NewPort(rule.targetPort)]];
      }
    }

    method UpdateVirtualServicePorts(name: string, rule: Rule) returns (panicked: bool)
      requires name in client.virtualServices
      modifies client`virtualServices
      ensures panicked <==> !AllMatch(old(client.virtualServices)[name])
      ensures panicked ==> client.virtualServices == old(client.virtualServices)
      ensures !panicked ==>
                client.virtualServices == old(client.virtualServices)[name := WithRoute(old(client.virtualServices)[name], rule)]
    {
      var routes := client.virtualServices[name];
      var found := false;
      for i := 0 to |routes|
        invariant AllMatch(routes[..i])
        invariant found <==> exists j :: 0 <= j < i && routes[j].matches[0] == Uint32(rule.targetPort)
      {
        if routes[i].matches == [] {
          return true;
        }
        if routes[i].matches[0] == Uint32(rule.targetPort) {
          found := true;
        }
      }
      if found {
        return false;
      }
      client.virtualServices := client.virtualServices[name := routes + [NewRoute(rule)]];
      return false;
    }

    /** One round of the loop over the rules. */
    method DecorateService(rule: Rule, deployed: seq<string>) returns (panicked: bool)
      modifies client
      ensures Outcome(client.View(), panicked) == ApplyRule(old(client.View()), deployed, rule)
    {
      var found := false;
      for i := 0 to |deployed|
        invariant !found && rule.serviceName !in deployed[..i]
      {
        if rule.serviceName == deployed[i] {
          found := true;
          break;
        }
      }
      assert !found ==> deployed[..|deployed|] == deployed;
      if found {
        return false;
      }
      var name := FormatName(rule.serviceName);
      assert [] + [NewPort(rule.targetPort)] == [NewPort(rule.targetPort)];
      assert [] + [NewRoute(rule)] == [NewRoute(rule)];
      if name !in client.services {
        client.services := client.services[name := [NewPort(rule.targetPort)]];
      } else {
        UpdateServicePorts(name, rule);
      }
      if name !in client.virtualServices {
        client.virtualServices := client.virtualServices[name := [NewRoute(rule)]];
        panicked := false;
      } else {
        panicked := UpdateVirtualServicePorts(name, rule);
      }
    }

    method DecorateServices(rules: seq<Rule>, deployed: seq<string>) returns (panicked: bool)
      modifies client
      ensures Outcome(client.View(), panicked) == Decorate(old(client.View()), deployed, rules)
    {
      for i := 0 to |rules|
        invariant Decorate(old(client.View()), deployed, rules[..i]) == Outcome(client.View(), false)
      {
        assert rules[..i + 1][..i] == rules[..i];
        panicked := DecorateService(rules[i], deployed);
        if panicked {
          StaysPanicked(old(client.View()), deployed, rules, i + 1);
          return;
        }
      }
      assert rules[..|rules|] == rules;
      return false;
    }
  }

  lemma {:induction false} StaysPanicked(c: ClusterState, deployed: seq<string>, rules: seq<Rule>, i: nat)
    requires i <= |rules| && Decorate(c, deployed, rules[..i]).panicked
    ensures Decorate(c, deployed, rules) == Decorate(c, deployed, rules[..i])
    decreases |rules|
  {
    if i == |rules| {
      assert rules[..i] == rules;
    } else {
      assert rules[..|rules| - 1][..i] == rules[..i];
      StaysPanicked(c, deployed, rules[..|rules| - 1], i);
    }
  }

  // ---------- What reconciliation achieves ----------

  /** The ports that the rules want of the service of this name. */
  ghost function Wanted(deployed: seq<string>, rules: seq<Rule>, name: string): set<int> {
    set r | r in rules && r.serviceName !in deployed && FormatName(r.serviceName) == name :: r.targetPort
  }

  /** The ports grew by exactly the wanted ones that were missing, each once. */
  ghost predicate PortsGrew(was: seq<ServicePort>, now: seq<ServicePort>, wanted: set<int>) {
    && was <= now
    && (forall p | p in wanted :: HasPort(now, p))
    && (forall i | |was| <= i < |now| ::
          now[i].port in wanted && now[i].targetPort == now[i].port && now[i].portNumber == now[i].port)
    && (forall i, j | 0 <= j < i && |was| <= i < |now| :: now[j].port != now[i].port)
  }

  /** The number of 32 bits without a sign that a port becomes in a route: itself, unless it has a sign. */
  predicate InRoute(port: int, p: int) {
    0 <= port < 0x1_0000_0000 && (port - p) % 0x1_0000_0000 == 0 && (0 <= p < 0x1_0000_0000 ==> port == p)
  }

  lemma UnsignedInRoute(p: int)
    ensures InRoute(Uint32(p), p)
  {
  }

  /** The route matches one wanted port only and leads to that port of the service. */
  ghost predicate LeadsTo(route: TcpRoute, name: string, wanted: set<int>) {
    exists p :: p in wanted && InRoute(route.port, p) && route.matches == [route.port] && route.host == name
  }

  ghost predicate RoutesTo(routes: seq<TcpRoute>, p: int)
    requires AllMatch(routes)
  {
    exists i :: 0 <= i < |routes| && InRoute(routes[i].matches[0], p)
  }

  ghost predicate RoutesGrew(was: seq<TcpRoute>, now: seq<TcpRoute>, name: string, wanted: set<int>) {
    && was <= now && AllMatch(now)
    && (forall p | p in wanted :: RoutesTo(now, p))
    && (forall i | |was| <= i < |now| :: LeadsTo(now[i], name, wanted))
    && (forall i, j | 0 <= j < i && |was| <= i < |now| :: now[j].matches[0] != now[i].matches[0])
  }

  lemma PortAdded(was: seq<ServicePort>, now: seq<ServicePort>, wanted: set<int>, port: int)
    requires PortsGrew(was, now, wanted)
    ensures PortsGrew(was, WithPort(now, port), wanted + {port})
  {
    var after := WithPort(now, port);
    if !HasPort(now, port) {
      assert after[|now|].port == port;
      forall p | p in wanted
        ensures HasPort(after, p)
      {
        var i :| 0 <= i < |now| && now[i].port == p;
        assert after[i].port == p;
      }
    }
  }

  lemma OneUnsigned(p: int, port: int)
    ensures InRoute(port, p) <==> port == Uint32(p)
  {
  }

  lemma HasItsRoute(routes: seq<TcpRoute>, p: int)
    requires AllMatch(routes)
    ensures RoutesTo(routes, p) <==> HasRoute(routes, Uint32(p))
  {
    forall i | 0 <= i < |routes|
      ensures InRoute(routes[i].matches[0], p) <==> routes[i].matches[0] == Uint32(p)
    {
      OneUnsigned(p, routes[i].matches[0]);
    }
  }

  lemma StillLeads(route: TcpRoute, name: string, wanted: set<int>, port: int)
    requires LeadsTo(route, name, wanted)
    ensures LeadsTo(route, name, wanted + {port})
  {
    var p :| p in wanted && InRoute(route.port, p) && route.matches == [route.port] && route.host == name;
    assert p in wanted + {port};
  }

  lemma RouteAdded(was: seq<TcpRoute>, now: seq<TcpRoute>, name: string, wanted: set<int>, rule: Rule)
    requires RoutesGrew(was, now, name, wanted) && name == FormatName(rule.serviceName)
    ensures RoutesGrew(was, WithRoute(now, rule), name, wanted + {rule.targetPort})
  {
    var after := WithRoute(now, rule);
    var port := Uint32(rule.targetPort);
    HasItsRoute(now, rule.targetPort);
    UnsignedInRoute(rule.targetPort);
    forall i | |was| <= i < |after|
      ensures LeadsTo(after[i], name, wanted + {rule.targetPort})
    {
      if i < |now| {
        StillLeads(now[i], name, wanted, rule.targetPort);
      } else {
        assert rule.targetPort in wanted + {rule.targetPort};
      }
    }
    if !HasRoute(now, port) {
      assert after[|now|].matches[0] == port;
      forall p | p in wanted
        ensures RoutesTo(after, p)
      {
        var i :| 0 <= i < |now| && InRoute(now[i].matches[0], p);
        assert InRoute(after[i].matches[0], p);
      }
    }
  }

  /** Both halves of the name grew as wanted, and exist exactly if they did or are wanted. */
  ghost predicate Reconciled(c: ClusterState, after: ClusterState, name: string, wanted: set<int>) {
    && (name in after.services <==> name in c.services || wanted != {})
    && (name in after.virtualServices <==> name in c.virtualServices || wanted != {})
    && PortsGrew(PortsOf(c, name), PortsOf(after, name), wanted)
    && (if wanted == {} then RoutesOf(after, name) == RoutesOf(c, name)
        else RoutesGrew(RoutesOf(c, name), RoutesOf(after, name), name, wanted))
  }

  lemma RuleReconciles(c: ClusterState, mid: ClusterState, deployed: seq<string>, rule: Rule, name: string, wanted: set<int>)
    requires Reconciled(c, mid, name, wanted) && !ApplyRule(mid, deployed, rule).panicked
    requires rule.serviceName !in deployed && name == FormatName(rule.serviceName)
    ensures Reconciled(c, ApplyRule(mid, deployed, rule).state, name, wanted + {rule.targetPort})
  {
    PortAdded(PortsOf(c, name), PortsOf(mid, name), wanted, rule.targetPort);
    assert RoutesGrew(RoutesOf(c, name), RoutesOf(mid, name), name, wanted);
    RouteAdded(RoutesOf(c, name), RoutesOf(mid, name), name, wanted, rule);
    assert rule.targetPort in wanted + {rule.targetPort};
  }

  lemma WantedStep(deployed: seq<string>, rules: seq<Rule>, name: string)
    requires rules != []
    ensures var before, rule := rules[..|rules| - 1], rules[|rules| - 1];
            Wanted(deployed, rules, name) ==
            Wanted(deployed, before, name)
            + if rule.serviceName !in deployed && FormatName(rule.serviceName) == name then {rule.targetPort} else {}
  {
    assert rules == rules[..|rules| - 1] + [rules[|rules| - 1]];
  }

  lemma OtherRule(c: ClusterState, mid: ClusterState, deployed: seq<string>, rule: Rule, name: string, wanted: set<int>)
    requires Reconciled(c, mid, name, wanted) && !ApplyRule(mid, deployed, rule).panicked
    requires rule.serviceName in deployed || name != FormatName(rule.serviceName)
    ensures Reconciled(c, ApplyRule(mid, deployed, rule).state, name, wanted)
  {
  }

  /** After a run over the rules that does not panic, the ports and routes of every name are the old
      ones followed by exactly those that rules for services deployed elsewhere want and that were
      missing, each once. */
  lemma {:induction false} DecorationReconciles(c: ClusterState, deployed: seq<string>, rules: seq<Rule>, name: string)
    requires !Decorate(c, deployed, rules).panicked
    ensures Reconciled(c, Decorate(c, deployed, rules).state, name, Wanted(deployed, rules, name))
    decreases |rules|
  {
    if rules == [] {
      NothingWanted(c, deployed, name);
    } else {
      var before, rule := rules[..|rules| - 1], rules[|rules| - 1];
      DecorationReconciles(c, deployed, before, name);
      WantedStep(deployed, rules, name);
      RuleKeepsReconciled(c, Decorate(c, deployed, before).state, deployed, rule, name, Wanted(deployed, before, name));
    }
  }

  lemma NothingWanted(c: ClusterState, deployed: seq<string>, name: string)
    ensures Reconciled(c, c, name, Wanted(deployed, [], name))
  {
    assert Wanted(deployed, [], name) == {};
  }

  lemma RuleKeepsReconciled(c: ClusterState, mid: ClusterState, deployed: seq<string>, rule: Rule, name: string, wanted: set<int>)
    requires Reconciled(c, mid, name, wanted) && !ApplyRule(mid, deployed, rule).panicked
    ensures Reconciled(c, ApplyRule(mid, deployed, rule).state, name,
                       wanted + if rule.serviceName !in deployed && FormatName(rule.serviceName) == name then {rule.targetPort} else {})
  {
    if rule.serviceName !in deployed && FormatName(rule.serviceName) == name {
      RuleReconciles(c, mid, deployed, rule, name, wanted);
    } else {
      OtherRule(c, mid, deployed, rule, name, wanted);
      assert wanted + {} == wanted;
    }
  }

  /** The rule has nothing left to do. */
  ghost predicate Satisfied(c: ClusterState, deployed: seq<string>, rule: Rule) {
    rule.serviceName !in deployed ==>
      var name := FormatName(rule.serviceName);
      && name in c.services && HasPort(c.services[name], rule.targetPort)
      && name in c.virtualServices && AllMatch(c.virtualServices[name])
      && RoutesTo(c.virtualServices[name], rule.targetPort)
  }

  lemma SatisfiedChangesNothing(c: ClusterState, deployed: seq<string>, rule: Rule)
    requires Satisfied(c, deployed, rule)
    ensures ApplyRule(c, deployed, rule) == Outcome(c, false)
  {
    var name := FormatName(rule.serviceName);
    if rule.serviceName !in deployed {
      HasItsRoute(c.virtualServices[name], rule.targetPort);
      assert c.services[name := c.services[name]] == c.services;
      assert c.virtualServices[name := c.virtualServices[name]] == c.virtualServices;
    }
  }

  lemma {:induction false} AllSatisfiedChangesNothing(c: ClusterState, deployed: seq<string>, rules: seq<Rule>)
    requires forall r | r in rules :: Satisfied(c, deployed, r)
    ensures Decorate(c, deployed, rules) == Outcome(c, false)
    decreases |rules|
  {
    if rules != [] {
      AllSatisfiedChangesNothing(c, deployed, rules[..|rules| - 1]);
      SatisfiedChangesNothing(c, deployed, rules[|rules| - 1]);
    }
  }

  /** Every rule for a service that is not deployed here is satisfied by one run, and a second run
      changes nothing. */
  lemma DecorationIsIdempotent(c: ClusterState, deployed: seq<string>, rules: seq<Rule>)
    requires !Decorate(c, deployed, rules).panicked
    ensures var after := Decorate(c, deployed, rules).state;
            && (forall r | r in rules :: Satisfied(after, deployed, r))
            && Decorate(after, deployed, rules) == Outcome(after, false)
  {
    var after := Decorate(c, deployed, rules).state;
    forall r | r in rules
      ensures Satisfied(after, deployed, r)
    {
      if r.serviceName !in deployed {
        var name := FormatName(r.serviceName);
        DecorationReconciles(c, deployed, rules, name);
        assert r.targetPort in Wanted(deployed, rules, name);
      }
    }
    AllSatisfiedChangesNothing(after, deployed, rules);
  }

  /** A run panics exactly if some rule for a service that is not deployed here meets a virtual
      service that had a route without a match to begin with. */
  lemma {:induction false} PanicsOnEmptyMatch(c: ClusterState, deployed: seq<string>, rules: seq<Rule>)
    ensures Decorate(c, deployed, rules).panicked <==>
            exists r :: r in rules && r.serviceName !in deployed && !AllMatch(RoutesOf(c, FormatName(r.serviceName)))
    decreases |rules|
  {
    if rules != [] {
      var before, rule := rules[..|rules| - 1], rules[|rules| - 1];
      assert rules == before + [rule];
      PanicsOnEmptyMatch(c, deployed, before);
      var name := FormatName(rule.serviceName);
      if !Decorate(c, deployed, before).panicked && rule.serviceName !in deployed {
        DecorationReconciles(c, deployed, before, name);
        var wanted := Wanted(deployed, before, name);
        if p :| p in wanted {
          var r :| r in before && r.serviceName !in deployed && FormatName(r.serviceName) == name;
        }
      }
    }
  }

  /** A run that panics has carried out the rules before the one that panics, and of that one the part
      about its service. */
  lemma {:induction false} PanickedRun(c: ClusterState, deployed: seq<string>, rules: seq<Rule>) returns (k: nat)
    requires Decorate(c, deployed, rules).panicked
    ensures k < |rules| && !Decorate(c, deployed, rules[..k]).panicked
    ensures var before := Decorate(c, deployed, rules[..k]).state;
            var name := FormatName(rules[k].serviceName);
            && rules[k].serviceName !in deployed && !AllMatch(RoutesOf(before, name))
            && Decorate(c, deployed, rules).state ==
               before.(services := before.services[name := WithPort(PortsOf(before, name), rules[k].targetPort)])
    decreases |rules|
  {
    k := |rules| - 1;
    if Decorate(c, deployed, rules[..k]).panicked {
      var n := k;
      k := PanickedRun(c, deployed, rules[..n]);
      assert rules[..n][..k] == rules[..k];
    }
  }

  /** A virtual service with such a route, and a rule for it. */
  lemma EmptyMatchPanics()
    ensures var c := ClusterState(map[], map["db" := [TcpRoute([], "db", 80)]]);
            Decorate(c, [], [Rule("db", 5432)]).panicked
  {
    var c := ClusterState(map[], map["db" := [TcpRoute([], "db", 80)]]);
    assert FormatName("db") == "db" by {
      assert "db"[1..] == "b" && "b"[1..] == "";
    }
    assert !AllMatch(RoutesOf(c, "db")) by {
      assert RoutesOf(c, "db")[0].matches == [];
    }
    PanicsOnEmptyMatch(c, [], [Rule("db", 5432)]);
    assert Rule("db", 5432) in [Rule("db", 5432)];
  }

  // ---------- Which rules are skipped ----------

  /** Services are deployed under their formatted names. */
  function DeployedNames(names: seq<string>): seq<string> {
    seq(|names|, i requires 0 <= i < |names| => FormatName(names[i]))
  }

  /** Without spaces and capital letters. */
  predicate IsFormatted(name: string) {
    forall i | 0 <= i < |name| :: name[i] != ' ' && !('A' <= name[i] <= 'Z')
  }

  lemma {:induction false} FormatMakesFormatted(name: string)
    ensures IsFormatted(FormatName(name))
  {
    if name != "" {
      FormatMakesFormatted(name[1..]);
    }
  }

  lemma {:induction false} FormattedIsKept(name: string)
    ensures FormatName(name) == name <==> IsFormatted(name)
  {
    if name != "" {
      FormattedIsKept(name[1..]);
      FormattedIsNotLonger(name[1..]);
      FirstIsKept(name, name[1..], FormatName(name[1..]));
    }
  }

  /** A name is kept exactly if its first character and the rest are. */
  lemma FirstIsKept(name: string, rest: string, formatted: string)
    requires name != "" && rest == name[1..] && |formatted| <= |rest| && (formatted == rest <==> IsFormatted(rest))
    ensures FormatChar(name[0]) + formatted == name <==> IsFormatted(name)
  {
    assert IsFormatted(name) <==> name[0] != ' ' && !('A' <= name[0] <= 'Z') && IsFormatted(rest) by {
      assert forall i | 0 <= i < |rest| :: rest[i] == name[i + 1];
    }
    assert name == [name[0]] + rest;
    if name[0] != ' ' {
      assert ([Lower(name[0])] + formatted)[1..] == formatted;
    }
  }

  /** What becomes of a name becomes of it letter by letter: a space goes, a capital letter becomes the
      small one of the same place in the alphabet, and everything else stays. */
  lemma FormattedByLetter(a: string, c: char, b: string)
    ensures FormatName(a + [c] + b) == FormatName(a) + FormatName([c]) + FormatName(b)
    ensures c == ' ' ==> FormatName([c]) == ""
    ensures c != ' ' && !('A' <= c <= 'Z') ==> FormatName([c]) == [c]
    ensures 'A' <= c <= 'Z' ==>
              |FormatName([c])| == 1 && 'a' <= FormatName([c])[0] <= 'z'
              && FormatName([c])[0] as int - 'a' as int == c as int - 'A' as int
  {
    FormatOfBoth(a + [c], b);
    FormatOfBoth(a, [c]);
    FormatOfOne(c);
  }

  lemma {:induction false} FormatOfBoth(a: string, b: string)
    ensures FormatName(a + b) == FormatName(a) + FormatName(b)
  {
    if a == "" {
      assert a + b == b;
    } else {
      assert (a + b)[1..] == a[1..] + b;
      FormatOfBoth(a[1..], b);
      Regroup(FormatChar(a[0]), FormatName(a[1..]), FormatName(b));
    }
  }

  lemma Regroup(a: string, b: string, c: string)
    ensures a + (b + c) == a + b + c
  {
  }

  lemma FormatOfOne(c: char)
    ensures FormatName([c]) == FormatChar(c)
  {
    assert [c][1..] == "";
  }

  lemma {:induction false} FormattedIsNotLonger(name: string)
    ensures |FormatName(name)| <= |name|
  {
    if name != "" {
      FormattedIsNotLonger(name[1..]);
    }
  }

  /** Rules are compared with deployed services by their raw name. A rule is skipped exactly if some
      service of the stage is deployed under that raw name; a rule that names a service of the stage is
      skipped exactly if that name is as it would be formatted. */
  lemma RawNamesAreNotSkipped(names: seq<string>, rule: Rule)
    ensures rule.serviceName in DeployedNames(names) <==> exists i :: 0 <= i < |names| && FormatName(names[i]) == rule.serviceName
    ensures rule.serviceName in names ==>
              (rule.serviceName in DeployedNames(names) <==> IsFormatted(rule.serviceName))
  {
    var deployed := DeployedNames(names);
    forall i | 0 <= i < |names|
      ensures deployed[i] == FormatName(names[i]) && deployed[i] in deployed && IsFormatted(deployed[i])
    {
      FormatMakesFormatted(names[i]);
    }
    FormattedIsKept(rule.serviceName);
    if rule.serviceName in names {
      var i :| 0 <= i < |names| && names[i] == rule.serviceName;
      assert deployed[i] == FormatName(rule.serviceName);
    }
  }

  /** So a rule for a deployed service whose name has a space or a capital letter adds its port and its
      route to that very service, unless there is a route without a match; if its name is as it would be
      formatted, nothing is done. */
  lemma DeployedServiceIsDecorated(c: ClusterState, names: seq<string>, rule: Rule)
    requires rule.serviceName in names
    ensures var after := ApplyRule(c, DeployedNames(names), rule);
            var name := FormatName(rule.serviceName);
            && name in DeployedNames(names)
            && (IsFormatted(rule.serviceName) ==> after == Outcome(c, false))
            && (!IsFormatted(rule.serviceName) ==>
                  && name in after.state.services && HasPort(after.state.services[name], rule.targetPort)
                  && (after.panicked <==> !AllMatch(RoutesOf(c, name))))
  {
    RawNamesAreNotSkipped(names, rule);
    var i :| 0 <= i < |names| && names[i] == rule.serviceName;
    assert DeployedNames(names)[i] == FormatName(rule.serviceName);
    var ports := PortsOf(c, FormatName(rule.serviceName));
    if !HasPort(ports, rule.targetPort) {
      assert WithPort(ports, rule.targetPort)[|ports|].port == rule.targetPort;
    }
  }
}
