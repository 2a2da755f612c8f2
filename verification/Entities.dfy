/** Statuses of services and fragments, the two equivalence tables between them, and the
    aggregation of several service-level statuses into one. */
module Entities {

  datatype Option<+T> = None | Some(value: T)

  /** The status of a service or of one of its platform resources. */
  datatype NalejServiceStatus =
    | ServiceScheduled
    | ServiceWaiting
    | ServiceDeploying
    | ServiceRunning
    | ServiceError
    | ServiceTerminating
  {
    /** The integer behind the status, by which the aggregation loops compare. */
    function Rank(): nat {
      match this
      case ServiceScheduled => 0
      case ServiceWaiting => 1
      case ServiceDeploying => 2
      case ServiceRunning => 3
      case ServiceError => 4
      case ServiceTerminating => 5
    }
  }

  /** The status of a deployment fragment. */
  datatype FragmentStatus =
    | FragmentWaiting
    | FragmentDeploying
    | FragmentDone
    | FragmentError
    | FragmentRetrying
    | FragmentTerminating

  datatype EndpointInstance = EndpointInstance(id: string, fqdn: string, port: int)

  /** The table ServicesToFragmentStatus. */
  function ServicesToFragmentStatus(status: NalejServiceStatus): FragmentStatus {
    match status
    case ServiceScheduled => FragmentWaiting
    case ServiceWaiting => FragmentWaiting
    case ServiceDeploying => FragmentDeploying
    case ServiceRunning => FragmentDone
    case ServiceError => FragmentError
    case ServiceTerminating => FragmentTerminating
  }

  /** The table FragmentStatusToNalejServiceStatus; retrying counts as deploying. */
  function FragmentStatusToNalejServiceStatus(status: FragmentStatus): NalejServiceStatus {
    match status
    case FragmentWaiting => ServiceWaiting
    case FragmentTerminating => ServiceTerminating
    case FragmentRetrying => ServiceDeploying
    case FragmentDeploying => ServiceDeploying
    case FragmentError => ServiceError
    case FragmentDone => ServiceRunning
  }

  /** The two tables are inverse on every status that both name, and disagree on exactly two:
      a scheduled service comes back as waiting, a retrying fragment as deploying. */
  lemma TablesAgree(service: NalejServiceStatus, fragment: FragmentStatus)
    ensures FragmentStatusToNalejServiceStatus(ServicesToFragmentStatus(service)) == service
            <==> service != ServiceScheduled
    ensures ServicesToFragmentStatus(FragmentStatusToNalejServiceStatus(fragment)) == fragment
            <==> fragment != FragmentRetrying
  {
    match service {
      case ServiceScheduled =>
      case _ =>
    }
  }

  /** The status of a whole from the statuses of its parts: an error wins; otherwise the least
      of running and the parts. A terminating part is above running and so never counts. */
  function Worst(parts: set<NalejServiceStatus>): (worst: NalejServiceStatus)
    ensures worst == ServiceError <==> ServiceError in parts
    ensures worst != ServiceTerminating
    ensures worst != ServiceRunning ==> worst in parts
    ensures worst != ServiceError ==> forall s | s in parts :: worst.Rank() <= s.Rank()
  {
    if ServiceError in parts then ServiceError
    else if ServiceScheduled in parts then ServiceScheduled
    else if ServiceWaiting in parts then ServiceWaiting
    else if ServiceDeploying in parts then ServiceDeploying
    else ServiceRunning
  }

  /** The order of severity, status by status: an error, then scheduled, waiting and deploying parts; the
      whole is running if there are none of these. */
  lemma Severity(parts: set<NalejServiceStatus>)
    ensures var worst := Worst(parts);
            && (worst == ServiceError <==> ServiceError in parts)
            && (worst == ServiceScheduled <==> ServiceScheduled in parts && ServiceError !in parts)
            && (worst == ServiceWaiting <==>
                ServiceWaiting in parts && ServiceError !in parts && ServiceScheduled !in parts)
            && (worst == ServiceDeploying <==>
                ServiceDeploying in parts && ServiceError !in parts && ServiceScheduled !in parts && ServiceWaiting !in parts)
            && (worst == ServiceRunning <==> parts <= {ServiceRunning, ServiceTerminating})
  {
    var worst := Worst(parts);
    if worst == ServiceRunning {
      forall s | s in parts
        ensures s in {ServiceRunning, ServiceTerminating}
      {
        match s {
          case ServiceRunning =>
          case _ =>
        }
      }
    }
  }

  /** Whatever a scan with an early exit on error has found, once it has seen a set of parts
      containing an error or all of them, is the aggregate: the scanning order is irrelevant. */
  lemma ScanStep(seen: set<NalejServiceStatus>, next: NalejServiceStatus, current: NalejServiceStatus)
    requires ServiceError !in seen && current == Worst(seen)
    ensures next == ServiceError ==> Worst(seen + {next}) == ServiceError
    ensures next != ServiceError && next.Rank() < current.Rank() ==> Worst(seen + {next}) == next
    ensures next != ServiceError && next.Rank() >= current.Rank() ==> Worst(seen + {next}) == current
  {
    var after := seen + {next};
    assert next in after && forall s | s in seen :: s in after;
    if next != ServiceError {
      assert ServiceError !in after;
    }
  }

  /** The kinds of condition a Kubernetes deployment reports. */
  datatype ConditionType = DeploymentAvailable | DeploymentProgressing | DeploymentReplicaFailure

  /** The status a deployment's conditions stand for. */
  ghost predicate Translates(conditions: seq<ConditionType>, status: NalejServiceStatus) {
    && (status == ServiceError <==> DeploymentReplicaFailure in conditions)
    && (status == ServiceRunning <==>
          conditions != [] && forall c | c in conditions :: c == DeploymentAvailable)
    && (status == ServiceDeploying <==>
          DeploymentReplicaFailure !in conditions && (conditions == [] || DeploymentProgressing in conditions))
  }

  /** The translation is total and has one outcome; it never yields the waiting status that the
      last branch of the translation is written for. */
  lemma {:induction false} TranslationIsTotal(conditions: seq<ConditionType>, s1: NalejServiceStatus, s2: NalejServiceStatus)
    requires Translates(conditions, s1) && Translates(conditions, s2)
    ensures s1 == s2
    ensures s1 in {ServiceError, ServiceRunning, ServiceDeploying}
  {
    if DeploymentReplicaFailure !in conditions && DeploymentProgressing !in conditions && conditions != [] {
      forall c | c in conditions ensures c == DeploymentAvailable {
        match c {
          case DeploymentAvailable =>
          case _ =>
        }
      }
    }
  }

  /** Count the conditions of each kind, then decide. */
  method KubernetesDeploymentStatusTranslation(conditions: seq<ConditionType>) returns (result: NalejServiceStatus)
    ensures Translates(conditions, result)
  {
    var running, progressing, error := 0, 0, 0;
    for i := 0 to |conditions|
      invariant running + progressing + error == i
      invariant running >= 0 && progressing >= 0 && error >= 0
      invariant error > 0 <==> DeploymentReplicaFailure in conditions[..i]
      invariant progressing > 0 <==> DeploymentProgressing in conditions[..i]
      invariant running == i <==> forall c | c in conditions[..i] :: c == DeploymentAvailable
    {
      assert conditions[..i + 1] == conditions[..i] + [conditions[i]];
      match conditions[i] {
        case DeploymentAvailable => running := running + 1;
        case DeploymentProgressing => progressing := progressing + 1;
        case DeploymentReplicaFailure => error := error + 1;
      }
    }
    assert conditions[..|conditions|] == conditions;
    if error > 0 {
      result := ServiceError;
    } else if |conditions| == 0 {
      result := ServiceDeploying;
    } else if running == |conditions| {
      assert conditions[0] in conditions;
      result := ServiceRunning;
    } else if progressing > 0 {
      result := ServiceDeploying;
    } else {
      result := ServiceWaiting;
      assert false;
    }
  }
}
