/** One reconcile run as a machine that makes one API call per step. The Go locals of
    `Reconcile` and `ConfigManager` are the fields of `Run`. */
module Worker {
  import opened Wrappers
  import opened NodeConfigTypes
  import opened Objects
  import opened ApiServer

  datatype Pc =
    | StoreCloudInit(data: string)             // create the cloud-init Secret
    | FindHost                                 // read the host
    | StoreCredentials(bmc: BMC)               // create the BMC Secret
    | CreateBareMetalHost(bmc: BMC)            // create the host
    | OwnCredentials(hostUid: nat)             // patch the owner of the BMC Secret
    | RemoveHost                               // delete an unavailable host
    | RemoveConfig                             // and then the NodeConfig
    | ReadHost                                 // Associate reads the host again
    | AssignHost(found: Host)                  // Associate patches it
    | PatchOwners | PatchStatus                // the explicit patch at the end
    | DeferredOwners | DeferredStatus          // the deferred patch
    | Done

  /** `before` is the patch helper's snapshot, `config` the object in memory, `err` the error to return. */
  datatype Run = Run(pc: Pc, before: NodeConfig, config: NodeConfig, err: bool)

  /** What the API server makes of the call of one step; `uid` is for the object it may create. */
  datatype Input = Input(fault: Fault, uid: nat, seen: Observed<Host>)

  /** `FindHost`'s test. */
  predicate IsAvailable(h: Host) {
    !h.status.provisioningState.OtherState? && h.status.operationalStatus.OK?
  }

  /** A host that may be used, by the texts of its two states. */
  predicate Usable(state: string, health: string) {
    state in {"ready", "inspecting", "registering", "match profile", "available"} && health == "OK"
  }

  predicate IsUsable(h: Host) {
    Usable(StateText(h.status.provisioningState), StatusText(h.status.operationalStatus))
  }

  lemma AvailableExactly(h: Host)
    ensures IsAvailable(h) <==> IsUsable(h)
  {}

  function WithMessage(g: NodeConfig, message: Option<Message>): NodeConfig {
    g.(status := g.status.(failureMessage := message))
  }

  function WithUserData(g: NodeConfig, k: Key): NodeConfig {
    g.(status := g.status.(userData := Some(SecretRef(k.name, k.ns))))
  }

  function CloudInitSecret(k: Key, g: NodeConfig, data: string, uid: nat): Secret {
    Secret(Meta(uid, [OwnerRef(NodeConfigKind, k.name, g.meta.uid)]), map["value" := data])
  }

  function CredentialsSecret(bmc: BMC, uid: nat): Secret {
    Secret(Meta(uid, []), map["username" := bmc.username, "password" := bmc.password])
  }

  function NewHost(k: Key, bmc: BMC, uid: nat): Host {
    Host(Meta(uid, []),
         HostSpec(false, BootMode(bmc), bmc.address, BmcKey(k).name, true, None, None),
         HostStatus(OtherState(""), NotOK("")))
  }

  /** `CreateBareMetalHost` dereferences a nil pointer: the BMC details, or the image once the details look complete.
      The deferred patch still runs; `err` then says that the pass does not return normally. */
  predicate Panics(spec: Spec) {
    || spec.bmc.None?
    || (spec.image.None? && spec.bmc.value.address != "" && spec.bmc.value.username != "" && spec.bmc.value.password != "")
  }

  /** The details that the creation of a host looks at: with address, username and password all set it looks at the
      image too. */
  predicate Complete(spec: Spec) {
    && spec.bmc.Some?
    && (spec.image.Some? || spec.bmc.value.address == "" || spec.bmc.value.username == "" || spec.bmc.value.password == "")
  }

  lemma CompleteExactly(spec: Spec)
    ensures Complete(spec) <==> !Panics(spec)
  {}

  /** `setHostSpec`. */
  function AssignedSpec(h: Host, g: NodeConfig): HostSpec {
    if g.spec.image.None? || g.status.userData.None? then h.spec
    else
      h.spec.(
        image := Some(Image(g.spec.image.value.url, g.spec.image.value.checksum, ChecksumType(g.spec.image.value))),
        userData := g.status.userData,
        online := h.spec.online || h.status.provisioningState.Ready?)
  }

  predicate SameObject(x: OwnerRef, o: OwnerRef) {
    x.kind == o.kind && x.name == o.name
  }

  lemma AssignedSpecDepends(h: Host, g: NodeConfig, g': NodeConfig)
    requires g.spec == g'.spec && g.status.userData == g'.status.userData
    ensures AssignedSpec(h, g) == AssignedSpec(h, g')
  {}

  /** `EnsureOwnerRef`: replace the reference to an object of this kind and name, or append. */
  function EnsureOwner(owners: seq<OwnerRef>, o: OwnerRef): seq<OwnerRef> {
    if owners == [] then [o]
    else if owners[0].kind == o.kind && owners[0].name == o.name then [o] + owners[1..]
    else [owners[0]] + EnsureOwner(owners[1..], o)
  }

  function OwnedBy(g: NodeConfig, o: OwnerRef): NodeConfig {
    g.(meta := g.meta.(owners := EnsureOwner(g.meta.owners, o)))
  }

  /** Leave the function with an error, after `SetError`. */
  function Fail(r: Run, message: Message): Run {
    r.(pc := DeferredOwners, config := WithMessage(r.config, Some(message)), err := true)
  }

  /** The run wants no more than to report that the cloud-init Secret could not be created. */
  predicate OnlyReports(r: Run) {
    r.config == WithMessage(r.before, Some(CloudInitFailed))
  }

  /** How a spec becomes user data. */
  type Renderer = Spec -> string

  /** The first call: nothing to do when the NodeConfig is absent or Ready. */
  function Begin(c: Cluster, k: Key, seen: Observed<NodeConfig>, render: Renderer): Option<Run> {
    match Get(c.configs, k, seen)
    case None => None
    case Some(None) => None
    case Some(Some(g)) => if g.status.ready then None else Some(Run(StoreCloudInit(render(g.spec)), g, g, false))
  }

  /** One API call of a run. */
  function Step(c: Cluster, k: Key, r: Run, i: Input): (Cluster, Run) {
    match r.pc
    case StoreCloudInit(data) =>
      var o := CreateSecret(c, k, CloudInitSecret(k, r.config, data, i.uid), i.fault);
      (o.cluster, if o.ok then r.(pc := FindHost, config := WithUserData(r.config, k)) else Fail(r, CloudInitFailed))
    case FindHost =>
      (c, match Get(c.hosts, k, i.seen)
          case Some(Some(h)) =>
            if IsAvailable(h) then r.(pc := ReadHost, config := WithMessage(r.config, None))
            else r.(pc := RemoveHost, config := WithMessage(r.config, Some(HostUnavailable(h.status.provisioningState))))
          case _ =>
            if Panics(r.config.spec) then r.(pc := DeferredOwners, err := true)
            else r.(pc := StoreCredentials(r.config.spec.bmc.value)))
    case StoreCredentials(bmc) =>
      var o := CreateSecret(c, BmcKey(k), CredentialsSecret(bmc, i.uid), i.fault);
      (o.cluster, if o.ok then r.(pc := CreateBareMetalHost(bmc)) else Fail(r, HostNotCreated))
    case CreateBareMetalHost(bmc) =>
      var o := CreateHost(c, k, NewHost(k, bmc, i.uid), i.fault);
      (o.cluster, if o.ok then r.(pc := OwnCredentials(i.uid)) else Fail(r, HostNotCreated))
    case OwnCredentials(hostUid) =>
      // the snapshot is taken after the owner has been set
      var owned := [OwnerRef(HostKind, k.name, hostUid)];
      var o := PatchSecretOwners(c, BmcKey(k), owned, owned, i.fault);
      (o.cluster, if o.ok then r.(pc := ReadHost, config := WithMessage(r.config, None)) else Fail(r, HostNotCreated))
    case RemoveHost =>
      var o := DeleteHost(c, k, i.fault);
      (o.cluster, if o.ok then r.(pc := RemoveConfig) else r.(pc := DeferredOwners, err := true))
    case RemoveConfig =>
      var o := DeleteConfig(c, k, i.fault);
      (o.cluster, r.(pc := DeferredOwners, err := !o.ok))
    case ReadHost =>
      (c, match Get(c.hosts, k, i.seen)
          case Some(Some(h)) => r.(pc := AssignHost(h))
          case _ => Fail(r, NotAssociated))
    case AssignHost(h) =>
      var o := PatchHost(c, k, h.spec, AssignedSpec(h, r.config), i.fault);
      (o.cluster,
       if o.ok then
         var g := OwnedBy(r.config, OwnerRef(HostKind, k.name, h.meta.uid));
         r.(pc := PatchOwners, config := g.(status := g.status.(ready := true)))
       else Fail(r, NotAssociated))
    case PatchOwners =>
      var o := PatchConfigOwners(c, k, r.before.meta.owners, r.config.meta.owners, i.fault);
      (o.cluster, r.(pc := PatchStatus, err := !o.ok))
    case PatchStatus =>
      var o := PatchConfigStatus(c, k, r.before.status, r.config.status, i.fault);
      (o.cluster, r.(pc := DeferredOwners, err := r.err || !o.ok))
    case DeferredOwners =>
      var o := PatchConfigOwners(c, k, r.before.meta.owners, r.config.meta.owners, i.fault);
      (o.cluster, r.(pc := DeferredStatus))
    case DeferredStatus =>
      var o := PatchConfigStatus(c, k, r.before.status, r.config.status, i.fault);
      (o.cluster, r.(pc := Done))
    case Done => (c, r)
  }

  /** Every step leads closer to the end of the run. */
  function Rank(pc: Pc): nat {
    match pc
    case StoreCloudInit(_) => 12
    case FindHost => 11
    case StoreCredentials(_) => 10
    case CreateBareMetalHost(_) => 9
    case OwnCredentials(_) => 8
    case ReadHost => 7
    case AssignHost(_) => 6
    case RemoveHost => 6
    case RemoveConfig => 5
    case PatchOwners => 4
    case PatchStatus => 3
    case DeferredOwners => 2
    case DeferredStatus => 1
    case Done => 0
  }

  lemma StepAdvances(c: Cluster, k: Key, r: Run, i: Input)
    ensures r.pc != Done ==> Rank(Step(c, k, r, i).1.pc) < Rank(r.pc)
  {}

  type Schedule = nat -> Input

  /** Let a run make its calls one after the other, the n-th one answered by `sched(n)`. */
  function Drive(c: Cluster, k: Key, r: Run, sched: Schedule, n: nat): (Cluster, Run)
    decreases Rank(r.pc)
  {
    if r.pc == Done then (c, r)
    else
      var (c', r') := Step(c, k, r, sched(n));
      Drive(c', k, r', sched, n + 1)
  }

  lemma DriveStep(c: Cluster, k: Key, r: Run, sched: Schedule, n: nat, c': Cluster, r': Run)
    requires !r.pc.Done? && Step(c, k, r, sched(n)) == (c', r')
    ensures Drive(c, k, r, sched, n) == Drive(c', k, r', sched, n + 1)
  {}

  /** A whole pass of `Reconcile`: the cluster it leaves and whether it returns an error. */
  function Pass(c: Cluster, k: Key, fetch: Observed<NodeConfig>, render: Renderer, sched: Schedule, n: nat): Outcome {
    match Begin(c, k, fetch, render)
    case None => Outcome(c, !fetch.Unreadable?)
    case Some(r) => var (c', r') := Drive(c, k, r, sched, n); Outcome(c', !r'.err)
  }
}
