/** The monitor helper: one round of notification over the real objects. */
module MonitorHelper {
  import opened Entities
  import opened M = MonitorModel
  import opened MonitoredInstances
  import opened N = Notifier

  /** How the conductor answers one request. */
  datatype Reply = Accepted | Unauthenticated | Failed

  /** A request is repeated once, after a new login, if the first try was not authenticated. */
  predicate Delivers(replies: (string, nat) -> Reply, f: string) {
    replies(f, 0) == Accepted || (replies(f, 0) == Unauthenticated && replies(f, 1) == Accepted)
  }

  /** What the conductor was told. */
  class Conductor {
    var services: map<ServiceKey, NalejServiceStatus>
    var fragments: map<string, FragmentStatus>

    constructor ()
      ensures services == map[] && fragments == map[]
    {
      services, fragments := map[], map[];
    }
  }

  class Helper {
    const client: Conductor
    const monitored: MemoryMonitoredInstances

    constructor (client: Conductor, monitored: MemoryMonitoredInstances)
      ensures this.client == client && this.monitored == monitored
    {
      this.client, this.monitored := client, monitored;
    }

    method SendUpdateService(f: string, list: map<ServiceKey, NalejServiceStatus>, replies: (string, nat) -> Reply)
      modifies client`services
      ensures client.services == if Delivers(replies, f) then old(client.services) + list else old(client.services)
    {
      var reply := replies(f, 0);
      if reply == Unauthenticated {
        reply := replies(f, 1);
      }
      if reply == Accepted {
        client.services := client.services + list;
      }
    }

    method SendFragmentStatus(f: string, status: FragmentStatus, replies: (string, nat) -> Reply)
      modifies client`fragments
      ensures client.fragments ==
              if Delivers(replies, f) then old(client.fragments)[f := status] else old(client.fragments)
    {
      var reply := replies(f, 0);
      if reply == Unauthenticated {
        reply := replies(f, 1);
      }
      if reply == Accepted {
        client.fragments := client.fragments[f := status];
      }
    }

    /** The list of updates of one notification, read from the services as they are now. */
    method ServiceUpdates(n: Notification) returns (list: map<ServiceKey, NalejServiceStatus>)
      ensures forall k :: k in list <==> k.0 == n.fragmentId && k.1 in n.services
      ensures forall k | k in list :: list[k] == n.services[k.1].status
    {
      list := map[];
      var todo := n.services.Keys;
      while todo != {}
        invariant todo <= n.services.Keys
        invariant forall k :: k in list <==> k.0 == n.fragmentId && k.1 in n.services && k.1 !in todo
        invariant forall k | k in list :: list[k] == n.services[k.1].status
        decreases todo
      {
        var s :| s in todo;
        list := list[(n.fragmentId, s) := n.services[s].status];
        todo := todo - {s};
      }
    }

    /** Snapshot, send, clear the flags - with nothing in between, and nothing at all to clear if
        there is nothing to send. */
    method UpdateStatus(serviceReplies: (string, nat) -> Reply, fragmentReplies: (string, nat) -> Reply)
      requires monitored.Valid() && client !in monitored.repr
      modifies monitored, monitored.repr, client
      ensures monitored.Valid() && monitored.repr == old(monitored.repr)
      ensures System(monitored.value, client.services) ==
              N.UpdateStatus(System(old(monitored.value), old(client.services)),
                             Deliveries(old(monitored.value), serviceReplies))
      ensures client.fragments ==
              old(client.fragments) + SentFragments(old(monitored.value), Deliveries(old(monitored.value), fragmentReplies))
    {
      ghost var st := monitored.value;
      var notificationPending := monitored.GetPendingNotifications();
      NothingToSend(notificationPending, st);
      RoundSends(notificationPending, st, client.services, Deliveries(st, serviceReplies), Deliveries(st, fragmentReplies));
      if |notificationPending| == 0 {
        return;
      }
      SendAndReset(notificationPending, st, serviceReplies, fragmentReplies);
    }

    /** The second part of UpdateStatus. */
    method SendAndReset(ns: seq<Notification>, ghost st: State, serviceReplies: (string, nat) -> Reply,
                        fragmentReplies: (string, nat) -> Reply)
      requires monitored.Valid() && client !in monitored.repr && AreNotifications(ns, st)
      modifies monitored`value, monitored.repr, client
      ensures monitored.Valid() && monitored.value == ResetUnnotified(old(monitored.value))
      ensures client.services == old(client.services) + Sent(st, Deliveries(st, serviceReplies))
      ensures client.fragments == old(client.fragments) + SentFragments(st, Deliveries(st, fragmentReplies))
    {
      SendAll(ns, st, serviceReplies, fragmentReplies);
      monitored.ResetServicesUnnotifiedStatus();
    }

    lemma NothingToSend(ns: seq<Notification>, st: State)
      requires AreNotifications(ns, st)
      ensures ns == [] <==> PendingKeys(st) == {}
      ensures ns == [] ==> forall f | f in st :: PendingServices(st[f]) == {}
    {
      if ns == [] {
        forall f | f in st
          ensures PendingServices(st[f]) == {}
        {
        }
      } else {
        var s :| s in ns[0].services;
        assert (ns[0].fragmentId, s) in PendingKeys(st);
      }
    }

    /** The sending loop of UpdateStatus. */
    method SendAll(ns: seq<Notification>, ghost st: State, serviceReplies: (string, nat) -> Reply,
                   fragmentReplies: (string, nat) -> Reply)
      requires AreNotifications(ns, st)
      modifies client
      ensures client.services == old(client.services) + Sent(st, Deliveries(st, serviceReplies))
      ensures client.fragments == old(client.fragments) + SentFragments(st, Deliveries(st, fragmentReplies))
    {
      for i := 0 to |ns|
        invariant AreNotifications(ns, st)
        invariant client.services == ServicesTold(ns, i, st, old(client.services), serviceReplies)
        invariant client.fragments == FragmentsTold(ns, i, st, old(client.fragments), fragmentReplies)
      {
        SendServices(ns, i, st, old(client.services), serviceReplies);
        SendFragment(ns, i, st, old(client.fragments), fragmentReplies);
      }
      ThroughAll(ns, st, serviceReplies);
      ThroughAll(ns, st, fragmentReplies);
    }

    /** One round of the sending loop, first half. */
    method SendServices(ns: seq<Notification>, i: nat, ghost st: State, ghost told: map<ServiceKey, NalejServiceStatus>,
                        replies: (string, nat) -> Reply)
      requires i < |ns| && AreNotifications(ns, st)
      requires client.services == ServicesTold(ns, i, st, told, replies)
      modifies client`services
      ensures client.services == ServicesTold(ns, i + 1, st, told, replies)
    {
      var list := ServiceUpdates(ns[i]);
      SendUpdateService(ns[i].fragmentId, list, replies);
      ThroughNext(ns, i, replies);
      SentOneMore(st, Through(ns[..i], replies), ns[i].fragmentId, list, told);
    }

    /** One round of the sending loop, second half. */
    method SendFragment(ns: seq<Notification>, i: nat, ghost st: State, ghost told: map<string, FragmentStatus>,
                        replies: (string, nat) -> Reply)
      requires i < |ns| && AreNotifications(ns, st)
      requires client.fragments == FragmentsTold(ns, i, st, told, replies)
      modifies client`fragments
      ensures client.fragments == FragmentsTold(ns, i + 1, st, told, replies)
    {
      SendFragmentStatus(ns[i].fragmentId, ns[i].status, replies);
      ghost var s :| s in ns[i].services;
      assert s in PendingServices(st[ns[i].fragmentId]);
      ThroughNext(ns, i, replies);
      OneMoreFragment(st, Through(ns[..i], replies), ns[i].fragmentId, told);
    }
  }

  /** What a round comes to with and without notifications. */
  lemma RoundSends(ns: seq<Notification>, st: State, told: map<ServiceKey, NalejServiceStatus>,
                   delivered: set<string>, fragments: set<string>)
    requires ns == [] <==> PendingKeys(st) == {}
    requires ns == [] ==> forall f | f in st :: PendingServices(st[f]) == {}
    ensures N.UpdateStatus(System(st, told), delivered) ==
            if ns == [] then System(DropTerminating(st), told)
            else System(ResetUnnotified(DropTerminating(st)), told + Sent(st, delivered))
    ensures ns == [] ==> SentFragments(st, fragments) == map[]
  {
  }

  /** The monitored fragments whose request is delivered. */
  ghost function Deliveries(st: State, replies: (string, nat) -> Reply): set<string> {
    set f | f in st && Delivers(replies, f)
  }

  /** A round tells a flagged service exactly if the conductor accepts the request of its fragment, or
      refuses it for want of a login and accepts it then; no other failure is met by another try. */
  lemma ToldByReplies(st: State, replies: (string, nat) -> Reply, f: string, s: string)
    requires Flagged(st, f, s)
    ensures (f, s) in Sent(st, Deliveries(st, replies)) <==>
            match replies(f, 0)
            case Accepted => true
            case Unauthenticated => replies(f, 1) == Accepted
            case Failed => false
  {
    assert (f, s) in PendingKeys(st);
  }

  /** The fragments whose request is delivered among those the sending loop has been through. */
  ghost function Through(ns: seq<Notification>, replies: (string, nat) -> Reply): set<string> {
    set n | n in ns && Delivers(replies, n.fragmentId) :: n.fragmentId
  }

  /** What the conductor was told after the first notifications, if it had been told this before. */
  ghost function ServicesTold(ns: seq<Notification>, i: nat, st: State, told: map<ServiceKey, NalejServiceStatus>,
                              replies: (string, nat) -> Reply): map<ServiceKey, NalejServiceStatus>
    requires i <= |ns|
  {
    told + Sent(st, Through(ns[..i], replies))
  }

  ghost function FragmentsTold(ns: seq<Notification>, i: nat, st: State, told: map<string, FragmentStatus>,
                               replies: (string, nat) -> Reply): map<string, FragmentStatus>
    requires i <= |ns|
  {
    told + SentFragments(st, Through(ns[..i], replies))
  }

  lemma ThroughNext(ns: seq<Notification>, i: nat, replies: (string, nat) -> Reply)
    requires i < |ns|
    ensures var f, before := ns[i].fragmentId, Through(ns[..i], replies);
            Through(ns[..i + 1], replies) == if Delivers(replies, f) then before + {f} else before
  {
    assert ns[..i + 1] == ns[..i] + [ns[i]];
  }

  /** Once it has been through all of them, nothing else has anything to send. */
  lemma ThroughAll(ns: seq<Notification>, st: State, replies: (string, nat) -> Reply)
    requires AreNotifications(ns, st)
    ensures forall told :: ServicesTold(ns, |ns|, st, told, replies) == told + Sent(st, Deliveries(st, replies))
    ensures forall told :: FragmentsTold(ns, |ns|, st, told, replies) == told + SentFragments(st, Deliveries(st, replies))
  {
    assert ns[..|ns|] == ns;
    forall f | f in st && PendingServices(st[f]) != {}
      ensures f in Through(ns, replies) <==> f in Deliveries(st, replies)
    {
      var i :| 0 <= i < |ns| && ns[i].fragmentId == f;
      assert ns[i] in ns;
    }
    SameSent(st, Through(ns, replies), Deliveries(st, replies));
  }

  lemma SentOneMore(st: State, done: set<string>, f: string, list: map<ServiceKey, NalejServiceStatus>,
                    told: map<ServiceKey, NalejServiceStatus>)
    requires f in st
    requires forall k :: k in list <==> k.0 == f && k.1 in PendingServices(st[f])
    requires forall k | k in list :: k.1 in st[f].services && list[k] == st[f].services[k.1].status
    ensures told + Sent(st, done + {f}) == (told + Sent(st, done)) + list
  {
    forall k | k in list
      ensures k in PendingKeys(st)
    {
      assert k == (f, k.1);
    }
    assert Sent(st, done + {f}) == Sent(st, done) + list;
    Regroup(told, Sent(st, done), list);
  }

  lemma Regroup<K, V>(a: map<K, V>, b: map<K, V>, c: map<K, V>)
    ensures a + (b + c) == (a + b) + c
  {
  }

  lemma LateUpdate<K, V>(a: map<K, V>, b: map<K, V>, k: K, v: V)
    ensures a + b[k := v] == (a + b)[k := v]
  {
  }

  lemma OneMoreFragment(st: State, done: set<string>, f: string, told: map<string, FragmentStatus>)
    requires f in st && PendingServices(st[f]) != {}
    ensures told + SentFragments(st, done + {f}) == (told + SentFragments(st, done))[f := st[f].status]
  {
    assert SentFragments(st, done + {f}) == SentFragments(st, done)[f := st[f].status];
    LateUpdate(told, SentFragments(st, done), f, st[f].status);
  }

  lemma SameSent(st: State, d: set<string>, e: set<string>)
    requires forall f | f in st && PendingServices(st[f]) != {} :: f in d <==> f in e
    ensures Sent(st, d) == Sent(st, e) && SentFragments(st, d) == SentFragments(st, e)
  {
    forall k | k in PendingKeys(st)
      ensures k.0 in d <==> k.0 in e
    {
      assert PendingServices(st[k.0]) != {};
    }
  }
}
