/** The storage of services: the persistent volume claims that are created, the volumes of the
    deployments that refer to them by name, and the storage class that all of them share. */
module Storage {
  import opened Entities

  datatype StorageType = Ephemeral | ClusterLocal | ClusterReplica | ExperimentalClusterReplica | OtherStorage

  datatype StorageSpec = StorageSpec(kind: StorageType, mountPath: string)

  datatype Platform = Azure | Minikube | OtherPlatform

  datatype Service = Service(
    organizationId: string,
    appInstanceId: string,
    serviceGroupInstanceId: string,
    serviceId: string,
    serviceInstanceId: string,
    storage: seq<StorageSpec>)

  // ---------- Names ----------

  const MAX_NAME_LENGTH := 63

  function Digit(d: nat): (c: char)
    requires d < 10
    ensures c != '-'
  {
    ['0', '1', '2', '3', '4', '5', '6', '7', '8', '9'][d]
  }

  function Decimal(n: nat): (s: string)
    ensures s != "" && '-' !in s
  {
    if n < 10 then [Digit(n)] else Decimal(n / 10) + [Digit(n % 10)]
  }

  function Number(s: string): nat {
    if s == "" then 0
    else
      10 * Number(s[..|s| - 1])
      + if '0' <= s[|s| - 1] <= '9' then s[|s| - 1] as int - '0' as int else 0
  }

  /** The digits are those of the number in the decimal system, so no two numbers have the same. */
  lemma {:induction false} DecimalIsRead(n: nat)
    ensures Number(Decimal(n)) == n
    ensures forall c | c in Decimal(n) :: '0' <= c <= '9'
  {
    var s := Decimal(n);
    assert s[|s| - 1] == Digit(n % 10) && '0' <= Digit(n % 10) <= '9' && Digit(n % 10) as int - '0' as int == n % 10;
    if n < 10 {
      assert s[..|s| - 1] == "";
    } else {
      DecimalIsRead(n / 10);
      assert s[..|s| - 1] == Decimal(n / 10);
    }
  }

  lemma DecimalInjective(m: nat, n: nat)
    requires Decimal(m) == Decimal(n)
    ensures m == n
  {
    DecimalIsRead(m);
    DecimalIsRead(n);
  }

  function Pow10(k: nat): nat {
    if k == 0 then 1 else 10 * Pow10(k - 1)
  }

  lemma {:induction false} DecimalLength(n: nat, k: nat)
    requires k > 0 && n < Pow10(k)
    ensures |Decimal(n)| <= k
  {
    if n >= 10 {
      assert Pow10(k) == 10 * Pow10(k - 1);
      DecimalLength(n / 10, k - 1);
    }
  }

  /** The whole name, or its last 63 characters. */
  function GeneratePVCName(groupId: string, serviceId: string, index: string): string {
    var fullName := groupId + serviceId + "-" + index;
    if |fullName| > MAX_NAME_LENGTH then fullName[|fullName| - MAX_NAME_LENGTH..] else fullName
  }

  lemma NameEnds(groupId: string, serviceId: string, index: string)
    requires 0 < |index| < MAX_NAME_LENGTH
    ensures var name := GeneratePVCName(groupId, serviceId, index);
            && |index| < |name|
            && name[|name| - |index|..] == index && name[|name| - |index| - 1] == '-'
  {
  }

  /** The name of a claim is the end of its identifiers, a hyphen and its index: all of it, or 63
      characters. */
  lemma NameIsTheEnd(groupId: string, serviceId: string, index: string)
    ensures var full, name := groupId + serviceId + "-" + index, GeneratePVCName(groupId, serviceId, index);
            && |name| == (if |full| <= 63 then |full| else 63)
            && full[|full| - |name|..] == name
  {
  }

  lemma NoHyphenInEnd(name: string, b: string)
    requires |b| < |name| && name[|name| - |b|..] == b && '-' !in b
    ensures forall k | |name| - |b| <= k < |name| :: name[k] != '-'
  {
    forall k | |name| - |b| <= k < |name|
      ensures name[k] != '-'
    {
      assert name[k] == b[k - (|name| - |b|)];
    }
  }

  lemma DifferentEnds(name: string, a: string, b: string)
    requires |a| < |name| && name[|name| - |a|..] == a && name[|name| - |a| - 1] == '-'
    requires |b| < |name| && name[|name| - |b|..] == b && '-' !in b
    ensures |a| >= |b|
  {
    NoHyphenInEnd(name, b);
  }

  /** The largest index a loop can have in the program. */
  const MAX_INT := 0x7FFF_FFFF_FFFF_FFFF

  lemma IndexLength(i: nat)
    requires i <= MAX_INT
    ensures |Decimal(i)| <= 19
  {
    assert Pow10(5) == 100000;
    assert Pow10(10) == 10000000000;
    assert Pow10(15) == 1000000000000000;
    assert Pow10(19) == 10000000000000000000;
    DecimalLength(i, 19);
  }

  /** However much is cut off in front, the names for two indices of one service differ. */
  lemma NamesDiffer(groupId: string, serviceId: string, i: nat, j: nat)
    requires i <= MAX_INT && j <= MAX_INT
    requires GeneratePVCName(groupId, serviceId, Decimal(i)) == GeneratePVCName(groupId, serviceId, Decimal(j))
    ensures i == j
  {
    var name := GeneratePVCName(groupId, serviceId, Decimal(i));
    IndexLength(i);
    IndexLength(j);
    EndsDetermined(name, groupId, serviceId, Decimal(i), Decimal(j));
    DecimalInjective(i, j);
  }

  lemma EndsDetermined(name: string, groupId: string, serviceId: string, a: string, b: string)
    requires 0 < |a| < MAX_NAME_LENGTH && 0 < |b| < MAX_NAME_LENGTH && '-' !in a && '-' !in b
    requires name == GeneratePVCName(groupId, serviceId, a) == GeneratePVCName(groupId, serviceId, b)
    ensures a == b
  {
    NameEnds(groupId, serviceId, a);
    NameEnds(groupId, serviceId, b);
    DifferentEnds(name, a, b);
    DifferentEnds(name, b, a);
  }

  // ---------- Classes ----------

  function RemoveHyphens(s: string): string {
    if s == "" then "" else (if s[0] == '-' then "" else [s[0]]) + RemoveHyphens(s[1..])
  }

  function ExperimentalStorageClassName(s: Service): string {
    RemoveHyphens(s.organizationId) + RemoveHyphens(s.appInstanceId) + RemoveHyphens(s.serviceInstanceId)
  }

  /** The class for a type of storage; none is the empty string. */
  function GetStorageClass(platform: Platform, storage: StorageType, s: Service): string {
    match platform
    case Azure =>
      (match storage
       case ClusterLocal => "managed-premium"
       case ClusterReplica => "managed-premium"
       case ExperimentalClusterReplica => ExperimentalStorageClassName(s)
       case _ => "")
    case Minikube =>
      (match storage
       case ClusterLocal => "nalej-sc-local"
       case ClusterReplica => "nalej-sc-local-replica"
       case _ => "")
    case OtherPlatform => ""
  }

  /** The types for which a class is looked up at all. */
  predicate Handled(storage: StorageType) {
    storage in {ClusterLocal, ClusterReplica, ExperimentalClusterReplica}
  }

  predicate Supported(platform: Platform, s: Service, i: nat)
    requires i < |s.storage|
  {
    Handled(s.storage[i].kind) && GetStorageClass(platform, s.storage[i].kind, s) != ""
  }

  /** The one field that every claim's class points to. */
  class StorageClass {
    var name: string

    constructor ()
      ensures name == ""
    {
      name := "";
    }
  }

  datatype Pvc = Pvc(name: string, index: nat, shared: StorageClass)

  function PvcName(s: Service, i: nat): string {
    GeneratePVCName(s.serviceGroupInstanceId, s.serviceId, Decimal(i))
  }

  function PvcFor(s: Service, i: nat, shared: StorageClass): Pvc {
    Pvc(PvcName(s, i), i, shared)
  }

  /** The claims for the first `n` storages of a service. */
  function PvcsOf(platform: Platform, s: Service, shared: StorageClass, n: nat): seq<Pvc>
    requires n <= |s.storage|
  {
    if n == 0 then []
    else PvcsOf(platform, s, shared, n - 1)
         + if Supported(platform, s, n - 1) then [PvcFor(s, n - 1, shared)] else []
  }

  /** The classes that are looked up for the first `n` storages of a service, in order. */
  function ClassesOf(platform: Platform, s: Service, n: nat): seq<string>
    requires n <= |s.storage|
  {
    if n == 0 then []
    else ClassesOf(platform, s, n - 1)
         + if Handled(s.storage[n - 1].kind) then [GetStorageClass(platform, s.storage[n - 1].kind, s)] else []
  }

  function AllClasses(platform: Platform, services: seq<Service>): seq<string> {
    if services == [] then []
    else
      var last := services[|services| - 1];
      AllClasses(platform, services[..|services| - 1]) + ClassesOf(platform, last, |last.storage|)
  }

  function Last(classes: seq<string>, initial: string): string {
    if classes == [] then initial else classes[|classes| - 1]
  }

  lemma LastOfBoth(a: seq<string>, b: seq<string>, initial: string)
    ensures Last(a + b, initial) == Last(b, Last(a, initial))
  {
  }

  /** The claims per service identifier; of two services with one identifier the later one's claims. */
  function PvcsOfAll(platform: Platform, services: seq<Service>, shared: StorageClass): map<string, seq<Pvc>> {
    if services == [] then map[]
    else
      var last := services[|services| - 1];
      var before := PvcsOfAll(platform, services[..|services| - 1], shared);
      var pvcs := PvcsOf(platform, last, shared, |last.storage|);
      if pvcs == [] then before else before[last.serviceId := pvcs]
  }

  /** Building the claims of one more service, on top of claims and a class that were there. */
  lemma OneMoreService(platform: Platform, services: seq<Service>, k: nat, shared: StorageClass,
                       was: map<string, seq<Pvc>>, initial: string)
    requires k < |services|
    ensures var toAdd := PvcsOf(platform, services[k], shared, |services[k].storage|);
            var sofar := was + PvcsOfAll(platform, services[..k], shared);
            was + PvcsOfAll(platform, services[..k + 1], shared)
            == if toAdd == [] then sofar else sofar[services[k].serviceId := toAdd]
    ensures Last(AllClasses(platform, services[..k + 1]), initial)
            == Last(ClassesOf(platform, services[k], |services[k].storage|), Last(AllClasses(platform, services[..k]), initial))
  {
    assert services[..k + 1][..k] == services[..k];
    LastOfBoth(AllClasses(platform, services[..k]), ClassesOf(platform, services[k], |services[k].storage|), initial);
    var all := PvcsOfAll(platform, services[..k], shared);
    var toAdd := PvcsOf(platform, services[k], shared, |services[k].storage|);
    assert was + all[services[k].serviceId := toAdd] == (was + all)[services[k].serviceId := toAdd];
  }

  class DeployableStorage {
    const platform: Platform
    const shared: StorageClass
    var pvcs: map<string, seq<Pvc>>

    constructor (platform: Platform)
      ensures this.platform == platform && pvcs == map[] && fresh(shared) && shared.name == ""
    {
      this.platform, pvcs := platform, map[];
      shared := new StorageClass();
    }

    method BuildStorageForServices(s: Service) returns (toReturn: seq<Pvc>)
      modifies shared
      ensures toReturn == PvcsOf(platform, s, shared, |s.storage|)
      ensures shared.name == Last(ClassesOf(platform, s, |s.storage|), old(shared.name))
    {
      toReturn := [];
      for index := 0 to |s.storage|
        invariant toReturn == PvcsOf(platform, s, shared, index)
        invariant shared.name == Last(ClassesOf(platform, s, index), old(shared.name))
      {
        var storage := s.storage[index].kind;
        if storage == Ephemeral {
          continue;
        }
        if storage != ClusterLocal && storage != ClusterReplica && storage != ExperimentalClusterReplica {
          continue;
        }
        shared.name := GetStorageClass(platform, storage, s);
        if shared.name == "" {
          continue;
        }
        var pvcId := GeneratePVCName(s.serviceGroupInstanceId, s.serviceId, Decimal(index));
        toReturn := toReturn + [Pvc(pvcId, index, shared)];
      }
    }

    method Build(services: seq<Service>)
      modifies this, shared
      ensures pvcs == old(pvcs) + PvcsOfAll(platform, services, shared)
      ensures shared.name == Last(AllClasses(platform, services), old(shared.name))
    {
      for k := 0 to |services|
        invariant pvcs == old(pvcs) + PvcsOfAll(platform, services[..k], shared)
        invariant shared.name == Last(AllClasses(platform, services[..k]), old(shared.name))
      {
        var toAdd := BuildStorageForServices(services[k]);
        OneMoreService(platform, services, k, shared, old(pvcs), old(shared.name));
        if |toAdd| > 0 {
          pvcs := pvcs[services[k].serviceId := toAdd];
        }
      }
      assert services[..|services|] == services;
    }
  }

  // ---------- Claims and volumes agree ----------

  /** The volume a deployment gets for a storage: none of the cluster's, or a claim of that name. */
  function ClaimOf(s: Service, i: nat): Option<string>
    requires i < |s.storage|
  {
    if s.storage[i].kind == Ephemeral then None else Some(PvcName(s, i))
  }

  /** A volume of a deployment: the claim of that name, or an empty directory. */
  datatype Volume = Volume(name: string, claim: Option<string>)

  datatype VolumeMount = VolumeMount(name: string, mountPath: string)

  function VolumeName(i: nat): string {
    "vol-1" + Decimal(i)
  }

  /** The storage loop of the building of deployments. */
  method BuildVolumes(s: Service) returns (volumes: seq<Volume>, volumeMounts: seq<VolumeMount>)
    ensures |volumes| == |volumeMounts| == |s.storage|
    ensures forall i | 0 <= i < |s.storage| ::
        && volumes[i] == Volume(VolumeName(i), ClaimOf(s, i))
        && (volumes[i].claim == None <==> s.storage[i].kind == Ephemeral)
        && (volumes[i].claim.Some? ==>
              volumes[i].claim.value == GeneratePVCName(s.serviceGroupInstanceId, s.serviceId, Decimal(i)))
        && volumeMounts[i] == VolumeMount(volumes[i].name, s.storage[i].mountPath)
    ensures forall i, j | 0 <= i < j < |volumes| :: volumes[i].name != volumes[j].name
  {
    volumes, volumeMounts := [], [];
    for i := 0 to |s.storage|
      invariant |volumes| == |volumeMounts| == i
      invariant forall j | 0 <= j < i ::
          && volumes[j] == Volume(VolumeName(j), ClaimOf(s, j))
          && volumeMounts[j] == VolumeMount(volumes[j].name, s.storage[j].mountPath)
    {
      var v;
      if s.storage[i].kind == Ephemeral {
        v := Volume(VolumeName(i), None);
      } else {
        v := Volume(VolumeName(i), Some(GeneratePVCName(s.serviceGroupInstanceId, s.serviceId, Decimal(i))));
      }
      volumes := volumes + [v];
      volumeMounts := volumeMounts + [VolumeMount(v.name, s.storage[i].mountPath)];
    }
    forall i, j | 0 <= i < j < |volumes|
      ensures volumes[i].name != volumes[j].name
    {
      VolumeNamesDiffer(i, j);
    }
  }

  lemma VolumeNamesDiffer(i: nat, j: nat)
    ensures VolumeName(i) == VolumeName(j) ==> i == j
  {
    if VolumeName(i) == VolumeName(j) {
      assert VolumeName(i)[5..] == Decimal(i) && VolumeName(j)[5..] == Decimal(j);
      DecimalInjective(i, j);
    }
  }

  /** What it means for a claim to be among those for the first `n` storages of a service. */
  predicate IsPvcOf(platform: Platform, s: Service, shared: StorageClass, n: nat, p: Pvc)
    requires n <= |s.storage|
  {
    p.index < n && Supported(platform, s, p.index) && p == PvcFor(s, p.index, shared)
  }

  lemma OneMorePvc(platform: Platform, s: Service, shared: StorageClass, n: nat, before: seq<Pvc>, p: Pvc)
    requires 0 < n <= |s.storage|
    requires p in before <==> IsPvcOf(platform, s, shared, n - 1, p)
    ensures p in before + (if Supported(platform, s, n - 1) then [PvcFor(s, n - 1, shared)] else []) <==>
            IsPvcOf(platform, s, shared, n, p)
  {
    assert PvcFor(s, n - 1, shared).index == n - 1;
  }

  lemma {:induction false} PvcsAre(platform: Platform, s: Service, shared: StorageClass, n: nat, p: Pvc)
    requires n <= |s.storage|
    ensures p in PvcsOf(platform, s, shared, n) <==> IsPvcOf(platform, s, shared, n, p)
  {
    if n > 0 {
      PvcsAre(platform, s, shared, n - 1, p);
      OneMorePvc(platform, s, shared, n, PvcsOf(platform, s, shared, n - 1), p);
    }
  }

  /** Every claim that is created is the one its own volume refers to, and a volume's claim is missing
      exactly if its type of storage, or its class on this platform, is not supported. */
  lemma PvcsMatchClaims(platform: Platform, s: Service, shared: StorageClass, i: nat)
    requires i < |s.storage| <= MAX_INT
    ensures forall p | p in PvcsOf(platform, s, shared, |s.storage|) :: p.index < |s.storage| && ClaimOf(s, p.index) == Some(p.name)
    ensures ClaimOf(s, i).Some? ==>
              ((exists p :: p in PvcsOf(platform, s, shared, |s.storage|) && p.name == ClaimOf(s, i).value) <==>
               Supported(platform, s, i))
  {
    forall p | p in PvcsOf(platform, s, shared, |s.storage|)
      ensures p.index < |s.storage| && ClaimOf(s, p.index) == Some(p.name)
      ensures p.name == PvcName(s, i) ==> p.index == i && Supported(platform, s, i)
    {
      PvcsAre(platform, s, shared, |s.storage|, p);
      if p.name == PvcName(s, i) {
        NamesDiffer(s.serviceGroupInstanceId, s.serviceId, p.index, i);
      }
    }
    PvcsAre(platform, s, shared, |s.storage|, PvcFor(s, i, shared));
  }

  /** Which storages are supported: local and replicated ones on both platforms, and experimental ones
      on Azure, unless no identifier has anything but hyphens. */
  lemma SupportedKinds(platform: Platform, s: Service, i: nat)
    requires i < |s.storage|
    ensures Supported(platform, s, i) <==>
            var kind := s.storage[i].kind;
            || (kind in {ClusterLocal, ClusterReplica} && platform in {Azure, Minikube})
            || (kind == ExperimentalClusterReplica && platform == Azure
                && !(AllHyphens(s.organizationId) && AllHyphens(s.appInstanceId) && AllHyphens(s.serviceInstanceId)))
  {
    NothingButHyphens(s.organizationId);
    NothingButHyphens(s.appInstanceId);
    NothingButHyphens(s.serviceInstanceId);
    assert |"managed-premium"| > 0 && |"nalej-sc-local"| > 0 && |"nalej-sc-local-replica"| > 0;
  }

  predicate AllHyphens(s: string) {
    forall i | 0 <= i < |s| :: s[i] == '-'
  }

  lemma {:induction false} NothingButHyphens(s: string)
    ensures RemoveHyphens(s) == "" <==> AllHyphens(s)
  {
    if s != "" {
      NothingButHyphens(s[1..]);
      assert forall i | 0 <= i < |s| - 1 :: s[1..][i] == s[i + 1];
    }
  }

  // ---------- The shared class ----------

  /** What the claim for this storage should have, and what it has once everything is built. */
  predicate HasOwnClass(platform: Platform, s: Service, i: nat, final: string)
    requires i < |s.storage|
  {
    Supported(platform, s, i) ==> GetStorageClass(platform, s.storage[i].kind, s) == final
  }

  lemma {:induction false} ClassesAre(platform: Platform, s: Service, n: nat, c: string)
    requires n <= |s.storage|
    ensures c in ClassesOf(platform, s, n) <==>
            exists i :: 0 <= i < n && Handled(s.storage[i].kind) && GetStorageClass(platform, s.storage[i].kind, s) == c
  {
    if n > 0 {
      ClassesAre(platform, s, n - 1, c);
    }
  }

  lemma {:induction false} AllClassesAre(platform: Platform, services: seq<Service>, c: string)
    ensures c in AllClasses(platform, services) <==>
            exists k :: 0 <= k < |services| && c in ClassesOf(platform, services[k], |services[k].storage|)
  {
    if services != [] {
      AllClassesAre(platform, services[..|services| - 1], c);
    }
  }

  /** All claims point to one field, which ends up with the class that was looked up last. So every
      claim has the class of its own storage exactly if the classes of all supported storages of the
      stage are the one looked up last - which is no class at all if the last storage of a handled
      type is not supported. */
  lemma SharedClass(platform: Platform, services: seq<Service>)
    ensures var classes := AllClasses(platform, services);
            (forall k: nat, i: nat | k < |services| && i < |services[k].storage| ::
               HasOwnClass(platform, services[k], i, Last(classes, ""))) <==>
            (forall c | c in classes :: c == "" || c == Last(classes, ""))
  {
    var classes := AllClasses(platform, services);
    var final := Last(classes, "");
    if forall k: nat, i: nat | k < |services| && i < |services[k].storage| :: HasOwnClass(platform, services[k], i, final) {
      forall c | c in classes
        ensures c == "" || c == final
      {
        AllClassesAre(platform, services, c);
        var k :| 0 <= k < |services| && c in ClassesOf(platform, services[k], |services[k].storage|);
        ClassesAre(platform, services[k], |services[k].storage|, c);
        var i :| 0 <= i < |services[k].storage| && Handled(services[k].storage[i].kind)
                 && GetStorageClass(platform, services[k].storage[i].kind, services[k]) == c;
        assert HasOwnClass(platform, services[k], i, final);
      }
    }
    if forall c | c in classes :: c == "" || c == final {
      forall k: nat, i: nat | k < |services| && i < |services[k].storage|
        ensures HasOwnClass(platform, services[k], i, final)
      {
        if Supported(platform, services[k], i) {
          var c := GetStorageClass(platform, services[k].storage[i].kind, services[k]);
          ClassesAre(platform, services[k], |services[k].storage|, c);
          AllClassesAre(platform, services, c);
        }
      }
    }
  }

  /** On Azure only experimental storage has a class of its own, so without it the shared field does
      no harm. */
  lemma AzureWithoutExperiments(services: seq<Service>)
    requires forall k, i | 0 <= k < |services| && 0 <= i < |services[k].storage| ::
               services[k].storage[i].kind != ExperimentalClusterReplica
    ensures forall k: nat, i: nat | k < |services| && i < |services[k].storage| ::
              HasOwnClass(Azure, services[k], i, Last(AllClasses(Azure, services), ""))
  {
    var classes := AllClasses(Azure, services);
    forall c | c in classes
      ensures c == "managed-premium"
    {
      AllClassesAre(Azure, services, c);
      var k :| 0 <= k < |services| && c in ClassesOf(Azure, services[k], |services[k].storage|);
      ClassesAre(Azure, services[k], |services[k].storage|, c);
    }
    assert classes != [] ==> classes[|classes| - 1] in classes;
    assert forall c | c in classes :: c == Last(classes, "");
    SharedClass(Azure, services);
  }

  /** The last storage of the stage that a class is looked up for. */
  ghost predicate IsLastHandled(services: seq<Service>, k: nat, i: nat) {
    && k < |services| && i < |services[k].storage| && Handled(services[k].storage[i].kind)
    && (forall j | i < j < |services[k].storage| :: !Handled(services[k].storage[j].kind))
    && forall l, j | k < l < |services| && 0 <= j < |services[l].storage| :: !Handled(services[l].storage[j].kind)
  }

  lemma {:induction false} LastClassOf(platform: Platform, s: Service, n: nat, i: nat)
    requires i < n <= |s.storage| && Handled(s.storage[i].kind)
    requires forall j | i < j < n :: !Handled(s.storage[j].kind)
    ensures ClassesOf(platform, s, n) != []
    ensures Last(ClassesOf(platform, s, n), "") == GetStorageClass(platform, s.storage[i].kind, s)
  {
    if i < n - 1 {
      LastClassOf(platform, s, n - 1, i);
    }
  }

  lemma {:induction false} NoClasses(platform: Platform, s: Service, n: nat)
    requires n <= |s.storage| && forall j | 0 <= j < n :: !Handled(s.storage[j].kind)
    ensures ClassesOf(platform, s, n) == []
  {
    if n > 0 {
      NoClasses(platform, s, n - 1);
    }
  }

  lemma {:induction false} LastClass(platform: Platform, services: seq<Service>, k: nat, i: nat)
    requires IsLastHandled(services, k, i)
    ensures Last(AllClasses(platform, services), "") == GetStorageClass(platform, services[k].storage[i].kind, services[k])
  {
    var n := |services| - 1;
    if k < n {
      LastClass(platform, services[..n], k, i);
      NoClasses(platform, services[n], |services[n].storage|);
    } else {
      LastClassOf(platform, services[k], |services[k].storage|, i);
    }
  }

  lemma {:induction false} HyphensOfBoth(a: string, b: string)
    ensures RemoveHyphens(a + b) == RemoveHyphens(a) + RemoveHyphens(b)
  {
    if a == "" {
      assert a + b == b;
    } else {
      assert (a + b)[1..] == a[1..] + b;
      HyphensOfBoth(a[1..], b);
    }
  }

  /** Only hyphens are removed, each of them. */
  lemma HyphensByLetter(a: string, c: char, b: string)
    ensures RemoveHyphens(a + [c] + b) == RemoveHyphens(a) + (if c == '-' then "" else [c]) + RemoveHyphens(b)
  {
    HyphensOfBoth(a + [c], b);
    HyphensOfBoth(a, [c]);
    assert [c][1..] == "";
  }

  /** The class that every claim of a stage has in the end, by the last storage it was looked up for. */
  lemma ClassOfStage(platform: Platform, services: seq<Service>, k: nat, i: nat)
    requires IsLastHandled(services, k, i)
    ensures var final, kind, s := Last(AllClasses(platform, services), ""), services[k].storage[i].kind, services[k];
            && (platform == OtherPlatform ==> final == "")
            && (platform == Minikube && kind == ClusterLocal ==> final == "nalej-sc-local")
            && (platform == Minikube && kind == ClusterReplica ==> final == "nalej-sc-local-replica")
            && (platform == Minikube && kind == ExperimentalClusterReplica ==> final == "")
            && (platform == Azure && kind in {ClusterLocal, ClusterReplica} ==> final == "managed-premium")
            && (platform == Azure && kind == ExperimentalClusterReplica ==>
                  final == RemoveHyphens(s.organizationId + s.appInstanceId + s.serviceInstanceId))
  {
    LastClass(platform, services, k, i);
    var s := services[k];
    HyphensOfBoth(s.organizationId + s.appInstanceId, s.serviceInstanceId);
    HyphensOfBoth(s.organizationId, s.appInstanceId);
  }

  /** Every claim of the stage has the class of its own storage in the end. */
  ghost predicate AllHaveOwnClass(platform: Platform, services: seq<Service>) {
    forall k: nat, i: nat | k < |services| && i < |services[k].storage| ::
      HasOwnClass(platform, services[k], i, Last(AllClasses(platform, services), ""))
  }

  /** On Minikube: exactly if all local and replicated storages are of the kind of the last storage
      that a class was looked up for. */
  lemma SharedClassOnMinikube(services: seq<Service>, k: nat, i: nat)
    requires IsLastHandled(services, k, i)
    ensures AllHaveOwnClass(Minikube, services) <==>
            forall l: nat, j: nat | l < |services| && j < |services[l].storage|
                                    && services[l].storage[j].kind in {ClusterLocal, ClusterReplica} ::
              services[l].storage[j].kind == services[k].storage[i].kind
  {
    LastClass(Minikube, services, k, i);
    var final := Last(AllClasses(Minikube, services), "");
    assert |"nalej-sc-local"| != |"nalej-sc-local-replica"|;
    forall l: nat, j: nat | l < |services| && j < |services[l].storage|
      ensures HasOwnClass(Minikube, services[l], j, final) <==>
              (services[l].storage[j].kind in {ClusterLocal, ClusterReplica} ==>
                 services[l].storage[j].kind == services[k].storage[i].kind)
    {
    }
  }

  lemma {:induction false} NoHyphens(s: string)
    ensures '-' !in RemoveHyphens(s)
  {
    if s != "" {
      NoHyphens(s[1..]);
    }
  }

  lemma ExperimentalIsNotManaged(s: Service)
    ensures ExperimentalStorageClassName(s) != "managed-premium"
  {
    NoHyphens(s.organizationId);
    NoHyphens(s.appInstanceId);
    NoHyphens(s.serviceInstanceId);
    assert "managed-premium"[7] == '-';
  }

  /** Two storages get one class on Azure: both managed, or both experimental under one name. */
  predicate SameOnAzure(s: Service, kind: StorageType, other: Service, otherKind: StorageType) {
    if kind == ExperimentalClusterReplica
    then otherKind == ExperimentalClusterReplica && ExperimentalStorageClassName(s) == ExperimentalStorageClassName(other)
    else otherKind != ExperimentalClusterReplica
  }

  /** On Azure: exactly if every supported storage is managed like the last one that a class was looked
      up for, or is experimental like it and under its name. */
  lemma SharedClassOnAzure(services: seq<Service>, k: nat, i: nat)
    requires IsLastHandled(services, k, i)
    ensures AllHaveOwnClass(Azure, services) <==>
            forall l: nat, j: nat | l < |services| && j < |services[l].storage| && Supported(Azure, services[l], j) ::
              SameOnAzure(services[k], services[k].storage[i].kind, services[l], services[l].storage[j].kind)
  {
    LastClass(Azure, services, k, i);
    ExperimentalIsNotManaged(services[k]);
    var final := Last(AllClasses(Azure, services), "");
    forall l: nat, j: nat | l < |services| && j < |services[l].storage|
      ensures HasOwnClass(Azure, services[l], j, final) <==>
              (Supported(Azure, services[l], j) ==>
                 SameOnAzure(services[k], services[k].storage[i].kind, services[l], services[l].storage[j].kind))
    {
      ExperimentalIsNotManaged(services[l]);
    }
  }

  /** One local and one replicated storage on Minikube: the local one gets the replicated class. */
  lemma SharedClassIsWrong(s: Service)
    requires s.storage == [StorageSpec(ClusterLocal, "/a"), StorageSpec(ClusterReplica, "/b")]
    ensures Supported(Minikube, s, 0) && Supported(Minikube, s, 1)
    ensures !HasOwnClass(Minikube, s, 0, Last(AllClasses(Minikube, [s]), ""))
  {
    LastClass(Minikube, [s], 0, 1);
    assert |"nalej-sc-local"| != |"nalej-sc-local-replica"|;
  }

  // ---------- The claims of a stage ----------

  ghost predicate HasClaims(platform: Platform, s: Service) {
    exists i :: 0 <= i < |s.storage| && Supported(platform, s, i)
  }

  lemma ClaimsAreBuilt(platform: Platform, s: Service, shared: StorageClass)
    ensures PvcsOf(platform, s, shared, |s.storage|) != [] <==> HasClaims(platform, s)
  {
    var pvcs := PvcsOf(platform, s, shared, |s.storage|);
    if pvcs != [] {
      PvcsAre(platform, s, shared, |s.storage|, pvcs[0]);
    }
    if i :| 0 <= i < |s.storage| && Supported(platform, s, i) {
      PvcsAre(platform, s, shared, |s.storage|, PvcFor(s, i, shared));
    }
  }

  /** The service is the last of its identifier that has claims. */
  ghost predicate IsLast(platform: Platform, services: seq<Service>, j: nat) {
    && j < |services| && HasClaims(platform, services[j])
    && forall l | j < l < |services| && services[l].serviceId == services[j].serviceId :: !HasClaims(platform, services[l])
  }

  /** The claims of the services are known by the last ones of their identifiers. */
  ghost predicate KnownByLast(platform: Platform, services: seq<Service>, shared: StorageClass, id: string) {
    var all := PvcsOfAll(platform, services, shared);
    && (forall j: nat | IsLast(platform, services, j) && services[j].serviceId == id ::
          id in all && all[id] == PvcsOf(platform, services[j], shared, |services[j].storage|))
    && (id in all ==> exists j: nat :: IsLast(platform, services, j) && services[j].serviceId == id)
  }

  /** Of the services of one identifier, the last one that has claims has them built; those of an
      earlier one are replaced. */
  lemma {:induction false} LastServiceIsBuilt(platform: Platform, services: seq<Service>, shared: StorageClass, id: string)
    ensures KnownByLast(platform, services, shared, id)
  {
    if services != [] {
      var before, last := services[..|services| - 1], services[|services| - 1];
      assert services == before + [last];
      LastServiceIsBuilt(platform, before, shared, id);
      ClaimsAreBuilt(platform, last, shared);
      if last.serviceId == id && HasClaims(platform, last) {
        ReplacedByLast(platform, before, last, shared);
      } else {
        KeptBeforeLast(platform, before, last, shared, id);
      }
    }
  }

  /** A service with claims, at the end, is the only last one of its identifier. */
  lemma ReplacedByLast(platform: Platform, before: seq<Service>, last: Service, shared: StorageClass)
    requires HasClaims(platform, last) && PvcsOf(platform, last, shared, |last.storage|) != []
    ensures KnownByLast(platform, before + [last], shared, last.serviceId)
  {
    var services, n := before + [last], |before|;
    assert services[..n] == before && services[n] == last;
    assert IsLast(platform, services, n);
  }

  /** Otherwise nothing changes for the identifier. */
  lemma KeptBeforeLast(platform: Platform, before: seq<Service>, last: Service, shared: StorageClass, id: string)
    requires KnownByLast(platform, before, shared, id) && (last.serviceId == id ==> !HasClaims(platform, last))
    requires PvcsOf(platform, last, shared, |last.storage|) != [] <==> HasClaims(platform, last)
    ensures KnownByLast(platform, before + [last], shared, id)
  {
    var services, n := before + [last], |before|;
    assert services[..n] == before && services[n] == last;
    forall j: nat
      ensures IsLast(platform, services, j) && services[j].serviceId == id <==> IsLast(platform, before, j) && before[j].serviceId == id
    {
      SameLast(platform, before, last, id, j);
    }
    var all, was := PvcsOfAll(platform, services, shared), PvcsOfAll(platform, before, shared);
    assert id in all <==> id in was;
    assert id in all ==> all[id] == was[id];
  }

  lemma SameLast(platform: Platform, before: seq<Service>, last: Service, id: string, j: nat)
    requires last.serviceId == id ==> !HasClaims(platform, last)
    ensures var services := before + [last];
            (IsLast(platform, services, j) && services[j].serviceId == id) <==>
            (IsLast(platform, before, j) && before[j].serviceId == id)
  {
    var services := before + [last];
    if j < |before| {
      assert services[j] == before[j] && services[|before|] == last;
      assert forall l | j < l < |before| :: services[l] == before[l];
    }
  }

  /** A claim of this name is built for the stage. */
  ghost predicate Built(platform: Platform, services: seq<Service>, shared: StorageClass, name: string) {
    var all := PvcsOfAll(platform, services, shared);
    exists id, p :: id in all && p in all[id] && p.name == name
  }

  /** Some service that is the last of its identifier needs a claim of this name. */
  ghost predicate NeededByLast(platform: Platform, services: seq<Service>, name: string) {
    exists j: nat, m: nat :: IsLast(platform, services, j) && m < |services[j].storage|
                             && Supported(platform, services[j], m) && PvcName(services[j], m) == name
  }

  /** In a stage, the claim that a volume refers to is built exactly if some service that is the last
      of its identifier with any supported storage has that name at a supported storage. */
  lemma ClaimsOfStage(platform: Platform, services: seq<Service>, shared: StorageClass, k: nat, i: nat)
    requires k < |services| && i < |services[k].storage| && ClaimOf(services[k], i).Some?
    ensures Built(platform, services, shared, ClaimOf(services[k], i).value) <==>
            NeededByLast(platform, services, ClaimOf(services[k], i).value)
  {
    var name := ClaimOf(services[k], i).value;
    if Built(platform, services, shared, name) {
      BuiltIsNeeded(platform, services, shared, name);
    }
    if j: nat, m: nat :| IsLast(platform, services, j) && m < |services[j].storage|
                         && Supported(platform, services[j], m) && PvcName(services[j], m) == name {
      LastServiceIsBuilt(platform, services, shared, services[j].serviceId);
      PvcsAre(platform, services[j], shared, |services[j].storage|, PvcFor(services[j], m, shared));
    }
  }

  lemma BuiltIsNeeded(platform: Platform, services: seq<Service>, shared: StorageClass, name: string)
    requires Built(platform, services, shared, name)
    ensures NeededByLast(platform, services, name)
  {
    var all := PvcsOfAll(platform, services, shared);
    var id: string, p: Pvc :| id in all && p in all[id] && p.name == name;
    LastServiceIsBuilt(platform, services, shared, id);
    var j: nat :| IsLast(platform, services, j) && services[j].serviceId == id;
    PvcsAre(platform, services[j], shared, |services[j].storage|, p);
  }

  /** If the services of a stage have different identifiers, then the claims of each are built under its
      identifier, and the claim of a volume is among them exactly if it is supported. */
  lemma DistinctServicesHaveTheirClaims(platform: Platform, services: seq<Service>, shared: StorageClass, k: nat, i: nat)
    requires forall j, l | 0 <= j < l < |services| :: services[j].serviceId != services[l].serviceId
    requires k < |services| && i < |services[k].storage| <= MAX_INT && ClaimOf(services[k], i).Some?
    ensures var all := PvcsOfAll(platform, services, shared);
            var id := services[k].serviceId;
            Supported(platform, services[k], i) <==>
            id in all && exists p :: p in all[id] && p.name == ClaimOf(services[k], i).value
  {
    LastServiceIsBuilt(platform, services, shared, services[k].serviceId);
    PvcsMatchClaims(platform, services[k], shared, i);
    if Supported(platform, services[k], i) {
      assert IsLast(platform, services, k);
    }
  }

  /** Two services of one identifier in two groups, each with a local storage, on Minikube: both are
      supported, and the volume of the first is left without its claim. */
  lemma FirstServiceLosesItsClaim(shared: StorageClass) returns (a: Service, b: Service)
    ensures a.serviceId == b.serviceId && |a.storage| == |b.storage| == 1
    ensures Supported(Minikube, a, 0) && ClaimOf(a, 0).Some?
    ensures !Built(Minikube, [a, b], shared, ClaimOf(a, 0).value)
  {
    a := Service("o", "a", "g1", "svc", "i1", [StorageSpec(ClusterLocal, "/d")]);
    b := Service("o", "a", "g2", "svc", "i2", [StorageSpec(ClusterLocal, "/d")]);
    assert Supported(Minikube, a, 0) && Supported(Minikube, b, 0);
    ClaimsOfStage(Minikube, [a, b], shared, 0, 0);
    assert PvcName(a, 0) == "g1svc-0" && PvcName(b, 0) == "g2svc-0";
    assert "g1svc-0"[1] != "g2svc-0"[1];
    assert HasClaims(Minikube, b);
    assert !IsLast(Minikube, [a, b], 0) by {
      assert [a, b][1] == b;
    }
  }
}
