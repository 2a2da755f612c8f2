/** The Kubernetes controller: what the state of an object in the cluster says about the resource that
    is monitored for it. */
module Controller {
  import opened Entities
  import opened Events
  import opened M = MonitorModel
  import opened MonitoredInstances

  /** What the labels and the identity of an object say: which resource it is. */
  datatype Meta = Meta(fragmentId: string, serviceInstanceId: string, uid: string)

  datatype Purpose = DeviceGroupService | LoadBalancerService | OtherPurpose

  datatype ServiceType = LoadBalancer | NodePort | ClusterIP

  /** An entry of the status of a load balancer. */
  datatype IngressPoint = IngressPoint(hostname: string, ip: string)

  /** An object of one of the supported kinds; `endpoints` are those it serves when it is ready. */
  datatype Object =
    | Deployment(meta: Meta, unavailableReplicas: int, availableReplicas: int, conditions: seq<ConditionType>)
    | Service(meta: Meta, purpose: Purpose, serviceType: ServiceType, loadBalancer: seq<IngressPoint>, endpoints: seq<EndpointInstance>)
    | Ingress(meta: Meta, loadBalancer: seq<IngressPoint>, rules: nat, endpoints: seq<EndpointInstance>)
  {
    function GetKind(): Kind {
      match this
      case Deployment(_, _, _, _) => DeploymentKind
      case Service(_, _, _, _, _) => ServiceKind
      case Ingress(_, _, _, _) => IngressKind
    }

    function GetEndpoints(): seq<EndpointInstance> {
      if Deployment? then [] else endpoints
    }
  }

  /** The status that a deployment's conditions translate to. */
  function Translation(conditions: seq<ConditionType>): (status: NalejServiceStatus)
    ensures Translates(conditions, status)
  {
    if DeploymentReplicaFailure in conditions then ServiceError
    else if conditions == [] || DeploymentProgressing in conditions then ServiceDeploying
    else
      OnlyAvailable(conditions);
      ServiceRunning
  }

  lemma OnlyAvailable(conditions: seq<ConditionType>)
    requires DeploymentReplicaFailure !in conditions && DeploymentProgressing !in conditions
    ensures forall c | c in conditions :: c == DeploymentAvailable
  {
    forall c | c in conditions
      ensures c == DeploymentAvailable
    {
      match c {
        case DeploymentAvailable =>
        case _ =>
      }
    }
  }

  predicate AllAddressed(points: seq<IngressPoint>) {
    forall p | p in points :: p.hostname != "" && p.ip != ""
  }

  /** The status that an object in the cluster gives its resource, if it says anything. Only
      deployments ever leave the running state. */
  function Decision(obj: Object): Option<NalejServiceStatus> {
    match obj
    case Deployment(_, unavailable, available, conditions) =>
      Some(if unavailable == 0 && available > 0 then ServiceRunning else Translation(conditions))
    case Service(_, purpose, serviceType, loadBalancer, _) =>
      if purpose != OtherPurpose && serviceType == LoadBalancer && loadBalancer == [] then None else Some(ServiceRunning)
    case Ingress(_, loadBalancer, rules, _) =>
      if AllAddressed(loadBalancer) && rules > 0 then Some(ServiceRunning) else None
  }

  datatype Handled = Handled(state: State, ok: bool)

  /** What a handler does to the monitor. A handler fails if the resource is not monitored. */
  function Handle(st: State, obj: Object, action: Action): Handled {
    if action == EventDelete || Decision(obj) == None then Handled(st, true)
    else
      var m := obj.meta;
      Handled(M.SetResourceStatus(st, m.fragmentId, m.serviceInstanceId, m.uid, Decision(obj).value, obj.GetEndpoints()),
              HasResource(st, m.fragmentId, m.serviceInstanceId, m.uid))
  }

  /** The resource of the object has the status that the object gives it. */
  predicate Synced(st: State, obj: Object) {
    Decision(obj).Some? ==>
      && HasResource(st, obj.meta.fragmentId, obj.meta.serviceInstanceId, obj.meta.uid)
      && st[obj.meta.fragmentId].services[obj.meta.serviceInstanceId].resources[obj.meta.uid].status == Decision(obj).value
  }

  /** A handler that is not called for a deletion succeeds exactly if it leaves the resource with the
      object's status. */
  lemma HandleSyncs(st: State, obj: Object, action: Action)
    requires action != EventDelete
    ensures Handle(st, obj, action).ok <==> Synced(Handle(st, obj, action).state, obj)
  {
  }

  // ---------- What the handlers make of an object ----------

  /** All replicas that are there are available, and there are some. */
  predicate Replicated(obj: Object)
    requires obj.Deployment?
  {
    obj.unavailableReplicas == 0 && obj.availableReplicas > 0
  }

  /** A labelled load balancer that has no address yet. */
  predicate Unaddressed(obj: Object)
    requires obj.Service?
  {
    obj.purpose in {DeviceGroupService, LoadBalancerService} && obj.serviceType == LoadBalancer && obj.loadBalancer == []
  }

  /** There are rules, and every entry has an address and a name. */
  predicate Reachable(obj: Object)
    requires obj.Ingress?
  {
    obj.rules > 0 && forall p | p in obj.loadBalancer :: p.hostname != "" && p.ip != ""
  }

  predicate HasOwnResource(st: State, obj: Object) {
    HasResource(st, obj.meta.fragmentId, obj.meta.serviceInstanceId, obj.meta.uid)
  }

  function StatusOf(st: State, obj: Object): NalejServiceStatus
    requires HasOwnResource(st, obj)
  {
    st[obj.meta.fragmentId].services[obj.meta.serviceInstanceId].resources[obj.meta.uid].status
  }

  /** The status says of a deployment: running, if all replicas or all conditions are available; else
      an error, if some condition is a failure; else deploying, if there is none, or one in progress. */
  predicate TellsDeployment(status: NalejServiceStatus, obj: Object)
    requires obj.Deployment?
  {
    && (status == ServiceRunning <==>
        Replicated(obj) || (obj.conditions != [] && forall c | c in obj.conditions :: c == DeploymentAvailable))
    && (status == ServiceError <==> !Replicated(obj) && DeploymentReplicaFailure in obj.conditions)
    && (status == ServiceDeploying <==>
        !Replicated(obj) && DeploymentReplicaFailure !in obj.conditions
        && (obj.conditions == [] || DeploymentProgressing in obj.conditions))
  }

  /** The resource shows what is to be seen of the object. */
  predicate Shows(st: State, obj: Object) {
    match obj
    case Deployment(_, _, _, _) => HasOwnResource(st, obj) && TellsDeployment(StatusOf(st, obj), obj)
    case Service(_, _, _, _, _) => !Unaddressed(obj) ==> HasOwnResource(st, obj) && StatusOf(st, obj) == ServiceRunning
    case Ingress(_, _, _, _) => Reachable(obj) ==> HasOwnResource(st, obj) && StatusOf(st, obj) == ServiceRunning
  }

  /** A synced resource shows its object. */
  lemma SyncedMeansShown(st: State, obj: Object)
    ensures Synced(st, obj) <==> Shows(st, obj)
  {
    match obj {
      case Deployment(_, _, _, conditions) =>
        if HasOwnResource(st, obj) && TellsDeployment(StatusOf(st, obj), obj) && !Replicated(obj) {
          TranslationIsTotal(conditions, StatusOf(st, obj), Translation(conditions));
        }
      case _ =>
    }
  }

  /** What a handler does to a monitored resource: nothing for a deletion, a load balancer without an
      address, or an ingress that cannot be reached; else the resource takes the status that tells of
      the object, and the service the object's endpoints, unless it had that status. */
  lemma HandlersReact(st: State, obj: Object, action: Action)
    requires HasOwnResource(st, obj)
    ensures var after := Handle(st, obj, action).state;
            var silent := action == EventDelete || (obj.Service? && Unaddressed(obj)) || (obj.Ingress? && !Reachable(obj));
            && Handle(st, obj, action).ok
            && (silent ==> after == st)
            && (!silent ==>
                  && HasOwnResource(after, obj)
                  && (obj.Deployment? ==> TellsDeployment(StatusOf(after, obj), obj))
                  && (!obj.Deployment? ==> StatusOf(after, obj) == ServiceRunning)
                  && (StatusOf(st, obj) == StatusOf(after, obj) ==> after == st)
                  && (StatusOf(st, obj) != StatusOf(after, obj) ==>
                        var (f, s) := (obj.meta.fragmentId, obj.meta.serviceInstanceId);
                        after[f].services[s].endpoints ==
                        st[f].services[s].endpoints + if obj.Deployment? then [] else obj.endpoints))
  {
    if action != EventDelete {
      SyncedMeansShown(Handle(st, obj, action).state, obj);
    }
  }

  /** A handler that has anything to do fails exactly if the resource is not monitored, and then does
      nothing. */
  lemma HandlersFail(st: State, obj: Object, action: Action)
    requires !HasOwnResource(st, obj)
    ensures var silent := action == EventDelete || (obj.Service? && Unaddressed(obj)) || (obj.Ingress? && !Reachable(obj));
            Handle(st, obj, action) == Handled(st, silent)
  {
  }

  /** No handler touches any other resource. */
  lemma HandleSparesOthers(st: State, obj: Object, action: Action, other: Object)
    requires other.meta.uid != obj.meta.uid
    ensures Synced(Handle(st, obj, action).state, other) <==> Synced(st, other)
  {
  }

  class KubernetesController {
    const monitoredInstances: MemoryMonitoredInstances

    constructor (monitoredInstances: MemoryMonitoredInstances)
      ensures this.monitoredInstances == monitoredInstances
    {
      this.monitoredInstances := monitoredInstances;
    }

    method SetResourceStatus(m: Meta, status: NalejServiceStatus, endpoints: seq<EndpointInstance>) returns (ok: bool)
      requires monitoredInstances.Valid()
      modifies monitoredInstances`value, monitoredInstances.repr
      ensures monitoredInstances.Valid()
      ensures ok == HasResource(old(monitoredInstances.value), m.fragmentId, m.serviceInstanceId, m.uid)
      ensures monitoredInstances.value ==
              M.SetResourceStatus(old(monitoredInstances.value), m.fragmentId, m.serviceInstanceId, m.uid, status, endpoints)
    {
      var err := monitoredInstances.SetResourceStatus(m.fragmentId, m.serviceInstanceId, m.uid, status, endpoints);
      ok := err.None?;
    }

    method OnDeployment(dep: Object, action: Action) returns (ok: bool)
      requires monitoredInstances.Valid() && dep.Deployment?
      modifies monitoredInstances`value, monitoredInstances.repr
      ensures monitoredInstances.Valid()
      ensures Handled(monitoredInstances.value, ok) == Handle(old(monitoredInstances.value), dep, action)
    {
      if action == EventDelete {
        return true;
      }
      if dep.unavailableReplicas == 0 && dep.availableReplicas > 0 {
        ok := SetResourceStatus(dep.meta, ServiceRunning, []);
        return;
      }
      var foundStatus := KubernetesDeploymentStatusTranslation(dep.conditions);
      TranslationIsTotal(dep.conditions, foundStatus, Translation(dep.conditions));
      ok := SetResourceStatus(dep.meta, foundStatus, []);
    }

    method OnService(dep: Object, action: Action) returns (ok: bool)
      requires monitoredInstances.Valid() && dep.Service?
      modifies monitoredInstances`value, monitoredInstances.repr
      ensures monitoredInstances.Valid()
      ensures Handled(monitoredInstances.value, ok) == Handle(old(monitoredInstances.value), dep, action)
    {
      if action == EventDelete {
        return true;
      }
      if dep.purpose == DeviceGroupService {
        if dep.serviceType == LoadBalancer && |dep.loadBalancer| == 0 {
          return true;
        }
      } else if dep.purpose == LoadBalancerService {
        if dep.serviceType == LoadBalancer && |dep.loadBalancer| == 0 {
          return true;
        }
      }
      ok := SetResourceStatus(dep.meta, ServiceRunning, dep.endpoints);
    }

    method OnIngress(dep: Object, action: Action) returns (ok: bool)
      requires monitoredInstances.Valid() && dep.Ingress?
      modifies monitoredInstances`value, monitoredInstances.repr
      ensures monitoredInstances.Valid()
      ensures Handled(monitoredInstances.value, ok) == Handle(old(monitoredInstances.value), dep, action)
    {
      if action == EventDelete {
        return true;
      }
      var ready := true;
      for i := 0 to |dep.loadBalancer|
        invariant ready && AllAddressed(dep.loadBalancer[..i])
      {
        if dep.loadBalancer[i].hostname == "" || dep.loadBalancer[i].ip == "" {
          ready := false;
          break;
        }
      }
      assert ready ==> dep.loadBalancer[..|dep.loadBalancer|] == dep.loadBalancer;
      if ready && dep.rules > 0 {
        ok := SetResourceStatus(dep.meta, ServiceRunning, dep.endpoints);
        return;
      }
      return true;
    }

    /** The dispatcher's table of handlers. */
    method Dispatch(obj: Object, action: Action) returns (ok: bool)
      requires monitoredInstances.Valid()
      modifies monitoredInstances`value, monitoredInstances.repr
      ensures monitoredInstances.Valid()
      ensures Handled(monitoredInstances.value, ok) == Handle(old(monitoredInstances.value), obj, action)
    {
      match obj {
        case Deployment(_, _, _, _) => ok := OnDeployment(obj, action);
        case Service(_, _, _, _, _) => ok := OnService(obj, action);
        case Ingress(_, _, _, _) => ok := OnIngress(obj, action);
      }
    }
  }
}
