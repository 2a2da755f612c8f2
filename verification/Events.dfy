/** What the informers announce: objects by name, and what happened to them. */
module Events {

  datatype Kind =
    | DeploymentKind
    | ServiceKind
    | IngressKind
    | NamespaceKind
    | PersistentVolumeClaimKind
    | PodKind

  datatype Action = EventAdd | EventUpdate | EventDelete

  /** An object's name in the cluster. */
  datatype Ref = Ref(kind: Kind, key: string)

  /** An item of the queue. Updates of one object are the same item. */
  datatype Event = Event(ref: Ref, action: Action)
}
