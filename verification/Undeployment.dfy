/** Whether the undeployment of a fragment takes the namespace of its application with it. That is
    decided by the status of one fragment of the application, whichever a map iteration meets first. */
module Undeployment {
  import opened Entities
  import opened MonitorModel

  function NamespaceFollows(appStatus: Option<FragmentStatus>): bool {
    appStatus == None || appStatus == Some(FragmentTerminating)
  }

  /** Some iteration order leads to this decision. */
  ghost predicate NamespaceMayFollow(st: State, app: string, decision: bool) {
    exists answer :: AppStatusAnswer(st, app, answer) && NamespaceFollows(answer) == decision
  }

  ghost predicate Terminating(st: State, app: string, f: string) {
    f in st && st[f].appInstanceId == app && st[f].status == FragmentTerminating
  }

  ghost predicate StillNeeded(st: State, app: string, f: string) {
    f in st && st[f].appInstanceId == app && st[f].status != FragmentTerminating
  }

  /** The namespace may be kept exactly if a fragment still needs it, and may go exactly if one is
      terminating or there is none. So a fragment that still needs it can lose it exactly if another
      is terminating - which the undeployed one is, if it is monitored under this application. */
  lemma NamespaceDecision(st: State, app: string)
    ensures NamespaceMayFollow(st, app, false) <==> exists f :: StillNeeded(st, app, f)
    ensures NamespaceMayFollow(st, app, true) <==>
            (exists f :: Terminating(st, app, f)) || !(exists f :: StillNeeded(st, app, f))
  {
    if f :| StillNeeded(st, app, f) {
      assert AppStatusAnswer(st, app, Some(st[f].status)) && !NamespaceFollows(Some(st[f].status));
    }
    if f :| Terminating(st, app, f) {
      assert AppStatusAnswer(st, app, Some(FragmentTerminating)) && NamespaceFollows(Some(FragmentTerminating));
    } else if !exists f :: StillNeeded(st, app, f) {
      forall f | f in st
        ensures st[f].appInstanceId != app
      {
        assert !StillNeeded(st, app, f) && !Terminating(st, app, f);
      }
      assert AppStatusAnswer(st, app, None) && NamespaceFollows(None);
    }
    if NamespaceMayFollow(st, app, true) {
      var answer :| AppStatusAnswer(st, app, answer) && NamespaceFollows(answer);
      if answer.Some? {
        var f :| f in st && st[f].appInstanceId == app && st[f].status == answer.value;
        assert Terminating(st, app, f);
      }
    }
    if NamespaceMayFollow(st, app, false) {
      var answer :| AppStatusAnswer(st, app, answer) && !NamespaceFollows(answer);
      var f :| f in st && st[f].appInstanceId == app && st[f].status == answer.value;
      assert StillNeeded(st, app, f);
    }
  }

  /** Undeploying a fragment of an application decides about the namespace in one way only exactly
      if no other fragment still needs it; undeploying the whole application always does. */
  lemma UndeploymentIsDecided(st: State, f: string, app: string)
    requires f in st && st[f].appInstanceId == app
    ensures NamespaceMayFollow(SetEntryStatus(st, f, FragmentTerminating), app, true)
    ensures NamespaceMayFollow(SetEntryStatus(st, f, FragmentTerminating), app, false) <==>
            exists g :: g != f && StillNeeded(st, app, g)
    ensures !NamespaceMayFollow(SetAppStatus(st, app, FragmentTerminating), app, false)
  {
    var after := SetEntryStatus(st, f, FragmentTerminating);
    NamespaceDecision(after, app);
    NamespaceDecision(SetAppStatus(st, app, FragmentTerminating), app);
    assert Terminating(after, app, f);
    forall g
      ensures StillNeeded(after, app, g) <==> g != f && StillNeeded(st, app, g)
    {
    }
  }

  /** An application of two running fragments, one of which is undeployed: the namespace that the other
      one still needs may be undeployed, and may be kept. */
  lemma EitherDecisionIsReachable() returns (st: State)
    ensures "f" in st && "g" in st && StillNeeded(SetEntryStatus(st, "f", FragmentTerminating), "app", "g")
    ensures NamespaceMayFollow(SetEntryStatus(st, "f", FragmentTerminating), "app", true)
    ensures NamespaceMayFollow(SetEntryStatus(st, "f", FragmentTerminating), "app", false)
  {
    var entry := Entry("app", "ns", map[], FragmentDone, false, 0, 0);
    st := map["f" := entry, "g" := entry];
    assert "f"[0] != "g"[0];
    assert StillNeeded(st, "app", "g");
    UndeploymentIsDecided(st, "f", "app");
  }
}
