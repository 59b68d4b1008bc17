/** `Reconcile` and `ConfigManager` as they stand: objects that change their fields and make API calls one by one. */
module Reconciler {
  import opened Wrappers
  import opened NodeConfigTypes
  import opened Objects
  import opened ApiServer
  import opened Worker

  /** The API server as one client sees it. The `tick`-th call is answered as `sched` says. */
  class Client {
    var cluster: Cluster
    var tick: nat
    const sched: Schedule

    constructor (cluster: Cluster, sched: Schedule)
      ensures this.cluster == cluster && tick == 0 && this.sched == sched
    {
      this.cluster, tick, this.sched := cluster, 0, sched;
    }

    method CreateSecret(k: Key, template: Secret) returns (ok: bool)
      modifies this
      ensures tick == old(tick) + 1
      ensures
        var i := sched(old(tick));
        Outcome(cluster, ok) == ApiServer.CreateSecret(old(cluster), k, template.(meta := template.meta.(uid := i.uid)), i.fault)
    {
      var i := sched(tick);
      tick := tick + 1;
      if i.fault.Refused? || k in cluster.secrets {
        return false;
      }
      cluster := cluster.(secrets := cluster.secrets[k := template.(meta := template.meta.(uid := i.uid))]);
      ok := i.fault.Served?;
    }

    /** The server fills in the uid of the object it returns. */
    method CreateHost(k: Key, template: Host) returns (ok: bool, uid: nat)
      modifies this
      ensures tick == old(tick) + 1
      ensures
        var i := sched(old(tick));
        && uid == i.uid
        && Outcome(cluster, ok) == ApiServer.CreateHost(old(cluster), k, template.(meta := template.meta.(uid := uid)), i.fault)
    {
      var i := sched(tick);
      tick := tick + 1;
      uid := i.uid;
      if i.fault.Refused? || k in cluster.hosts {
        return false, uid;
      }
      cluster := cluster.(hosts := cluster.hosts[k := template.(meta := template.meta.(uid := uid))]);
      ok := i.fault.Served?;
    }

    method GetHost(k: Key) returns (found: Option<Option<Host>>)
      modifies this`tick
      ensures tick == old(tick) + 1
      ensures found == Get(cluster.hosts, k, sched(old(tick)).seen)
    {
      found := Get(cluster.hosts, k, sched(tick).seen);
      tick := tick + 1;
    }

    method DeleteHost(k: Key) returns (ok: bool)
      modifies this
      ensures tick == old(tick) + 1
      ensures Outcome(cluster, ok) == ApiServer.DeleteHost(old(cluster), k, sched(old(tick)).fault)
    {
      var f := sched(tick).fault;
      tick := tick + 1;
      if f.Refused? || k !in cluster.hosts {
        return false;
      }
      cluster := cluster.(hosts := cluster.hosts - {k});
      ok := f.Served?;
    }

    method DeleteConfig(k: Key) returns (ok: bool)
      modifies this
      ensures tick == old(tick) + 1
      ensures Outcome(cluster, ok) == ApiServer.DeleteConfig(old(cluster), k, sched(old(tick)).fault)
    {
      var f := sched(tick).fault;
      tick := tick + 1;
      if f.Refused? || k !in cluster.configs {
        return false;
      }
      cluster := cluster.(configs := cluster.configs - {k});
      ok := f.Served?;
    }

    method PatchHost(k: Key, before: HostSpec, after: HostSpec) returns (ok: bool)
      modifies this
      ensures tick == old(tick) + 1
      ensures Outcome(cluster, ok) == ApiServer.PatchHost(old(cluster), k, before, after, sched(old(tick)).fault)
    {
      var o := ApiServer.PatchHost(cluster, k, before, after, sched(tick).fault);
      tick := tick + 1;
      cluster, ok := o.cluster, o.ok;
    }

    method PatchSecretOwners(k: Key, before: seq<OwnerRef>, after: seq<OwnerRef>) returns (ok: bool)
      modifies this
      ensures tick == old(tick) + 1
      ensures Outcome(cluster, ok) == ApiServer.PatchSecretOwners(old(cluster), k, before, after, sched(old(tick)).fault)
    {
      var o := ApiServer.PatchSecretOwners(cluster, k, before, after, sched(tick).fault);
      tick := tick + 1;
      cluster, ok := o.cluster, o.ok;
    }

    /** `patchHelper.Patch` on a NodeConfig: the metadata and the status are two calls, both always made. */
    method PatchConfig(k: Key, before: NodeConfig, after: NodeConfig) returns (ok: bool)
      modifies this
      ensures tick == old(tick) + 2
      ensures
        var o := ApiServer.PatchConfigOwners(old(cluster), k, before.meta.owners, after.meta.owners, sched(old(tick)).fault);
        var o' := ApiServer.PatchConfigStatus(o.cluster, k, before.status, after.status, sched(old(tick) + 1).fault);
        cluster == o'.cluster && ok == (o.ok && o'.ok)
    {
      var o := ApiServer.PatchConfigOwners(cluster, k, before.meta.owners, after.meta.owners, sched(tick).fault);
      tick := tick + 1;
      cluster := o.cluster;
      var o' := ApiServer.PatchConfigStatus(cluster, k, before.status, after.status, sched(tick).fault);
      tick := tick + 1;
      cluster := o'.cluster;
      ok := o.ok && o'.ok;
    }
  }

  /** The helper for one NodeConfig; `nodeConfig` is the object in memory that `Reconcile` shares with it. */
  class ConfigManager {
    const client: Client
    const key: Key
    const render: Renderer
    var nodeConfig: NodeConfig

    constructor (client: Client, key: Key, nodeConfig: NodeConfig, render: Renderer)
      ensures this.client == client && this.key == key && this.nodeConfig == nodeConfig && this.render == render
    {
      this.client, this.key, this.nodeConfig, this.render := client, key, nodeConfig, render;
    }

    method SetError(message: Message)
      modifies this
      ensures nodeConfig == WithMessage(old(nodeConfig), Some(message))
    {
      nodeConfig := nodeConfig.(status := nodeConfig.status.(failureMessage := Some(message)));
    }

    method ClearError()
      modifies this
      ensures nodeConfig == WithMessage(old(nodeConfig), None)
    {
      if nodeConfig.status.failureMessage.Some? {
        nodeConfig := nodeConfig.(status := nodeConfig.status.(failureMessage := None));
      }
    }

    /** `CreateNodeInitConfig` with `storeBootstrapData`. */
    method CreateNodeInitConfig() returns (ok: bool)
      modifies client
      ensures client.tick == old(client.tick) + 1
      ensures
        var i := client.sched(old(client.tick));
        Outcome(client.cluster, ok)
        == CreateSecret(old(client.cluster), key, CloudInitSecret(key, nodeConfig, render(nodeConfig.spec), i.uid), i.fault)
    {
      var data := render(nodeConfig.spec);
      var owner := OwnerRef(NodeConfigKind, key.name, nodeConfig.meta.uid);
      ok := client.CreateSecret(key, Secret(Meta(0, [owner]), map["value" := data]));
    }

    /** None when there is no host or it cannot be read; otherwise the host and whether it is available. */
    method FindHost() returns (host: Option<Host>, available: bool)
      modifies client`tick
      ensures client.tick == old(client.tick) + 1
      ensures
        var seen := Get(client.cluster.hosts, key, client.sched(old(client.tick)).seen);
        && host == (if seen.Some? then seen.value else None)
        && available == (host.Some?
                         && StateText(host.value.status.provisioningState)
                            in {"ready", "inspecting", "registering", "match profile", "available"}
                         && StatusText(host.value.status.operationalStatus) == "OK")
    {
      hide StateText, StatusText;
      var seen := client.GetHost(key);
      match seen
      case None => return None, false;
      case Some(None) => return None, false;
      case Some(Some(h)) =>
        AvailableExactly(h);
        var state := h.status.provisioningState;
        if (state.Ready? || state.Inspecting? || state.Registering? || state.MatchProfile? || state.Available?)
           && h.status.operationalStatus.OK? {
          return Some(h), true;
        }
        return Some(h), false;
    }

    method StoreBMHCredentials(bmc: BMC) returns (ok: bool)
      modifies client
      ensures client.tick == old(client.tick) + 1
      ensures
        var i := client.sched(old(client.tick));
        Outcome(client.cluster, ok) == CreateSecret(old(client.cluster), BmcKey(key), CredentialsSecret(bmc, i.uid), i.fault)
    {
      ok := client.CreateSecret(BmcKey(key), Secret(Meta(0, []), map["username" := bmc.username, "password" := bmc.password]));
    }

    /** The owner is set before the snapshot, so the patch finds no difference. */
    method SetBMHCredentialsOwner(hostUid: nat) returns (ok: bool)
      modifies client
      ensures ok && client.cluster == old(client.cluster) && client.tick == old(client.tick) + 1
    {
      var owners := [OwnerRef(HostKind, key.name, hostUid)];
      var snapshot := owners;
      ok := client.PatchSecretOwners(BmcKey(key), snapshot, owners);
    }

    /** Panics with missing BMC details, or with complete ones and no image; `panicked` then. */
    method CreateBareMetalHost(ghost r: Run) returns (ok: bool, panicked: bool)
      requires r.pc.FindHost? && r.config == nodeConfig
      modifies client
      ensures panicked == !Complete(nodeConfig.spec)
      ensures panicked ==> !ok && client.cluster == old(client.cluster) && client.tick == old(client.tick)
      ensures
        !panicked ==>
          Drive(old(client.cluster), key, r.(pc := StoreCredentials(nodeConfig.spec.bmc.value)), client.sched, old(client.tick))
          == Drive(client.cluster, key,
                   if ok then r.(pc := ReadHost, config := WithMessage(nodeConfig, None)) else Fail(r, HostNotCreated),
                   client.sched, client.tick)
    {
      CompleteExactly(nodeConfig.spec);
      hide Drive, BmcKey;
      if nodeConfig.spec.bmc.None? {
        return false, true;
      }
      var bmc := nodeConfig.spec.bmc.value;
      if bmc.address != "" && bmc.username != "" && bmc.password != "" && nodeConfig.spec.image.None? {
        return false, true;
      }
      panicked := false;
      ghost var r1 := r.(pc := StoreCredentials(bmc));
      ok := StoreBMHCredentials(bmc);
      if !ok {
        DriveStep(old(client.cluster), key, r1, client.sched, old(client.tick), client.cluster, Fail(r, HostNotCreated));
        return;
      }
      ghost var r2 := r1.(pc := Pc.CreateBareMetalHost(bmc));
      DriveStep(old(client.cluster), key, r1, client.sched, old(client.tick), client.cluster, r2);
      label created:
      var spec := HostSpec(false, BootMode(bmc), bmc.address, BmcKey(key).name, true, None, None);
      var uid: nat;
      ok, uid := client.CreateHost(key, Host(Meta(0, []), spec, HostStatus(OtherState(""), NotOK(""))));
      if !ok {
        DriveStep(old@created(client.cluster), key, r2, client.sched, old@created(client.tick), client.cluster, Fail(r, HostNotCreated));
        return;
      }
      ghost var r3 := r2.(pc := OwnCredentials(uid));
      DriveStep(old@created(client.cluster), key, r2, client.sched, old@created(client.tick), client.cluster, r3);
      label owned:
      ok := SetBMHCredentialsOwner(uid);
      DriveStep(old@owned(client.cluster), key, r3, client.sched, old@owned(client.tick), client.cluster, r3.(pc := ReadHost, config := WithMessage(nodeConfig, None)));
    }

    /** Write the image and the user data into the host's spec; without them there is nothing to do. */
    method SetHostSpec(h: Host) returns (spec: HostSpec)
      ensures spec == AssignedSpec(h, nodeConfig)
    {
      spec := h.spec;
      if nodeConfig.spec.image.None? || nodeConfig.status.userData.None? {
        return;
      }
      var image := nodeConfig.spec.image.value;
      spec := spec.(image := Some(Image(image.url, image.checksum, ChecksumType(image))));
      spec := spec.(userData := nodeConfig.status.userData);
      if h.status.provisioningState.Ready? {
        spec := spec.(online := true);
      }
    }

    method Associate(ghost r: Run) returns (ok: bool)
      requires r.pc.ReadHost? && r.config == WithMessage(nodeConfig, None)
      modifies client, this
      ensures
        Drive(old(client.cluster), key, r, client.sched, old(client.tick))
        == Drive(client.cluster, key,
                 if ok then r.(pc := PatchOwners, config := nodeConfig.(status := nodeConfig.status.(ready := true)))
                 else Fail(r, NotAssociated),
                 client.sched, client.tick)
      ensures !ok ==> nodeConfig == WithMessage(old(nodeConfig), nodeConfig.status.failureMessage)
    {
      hide Drive, AssignedSpec, EnsureOwner, MergeHostSpec;
      ClearError();
      var found := client.GetHost(key);
      ghost var r1 := Step(old(client.cluster), key, r, client.sched(old(client.tick))).1;
      DriveStep(old(client.cluster), key, r, client.sched, old(client.tick), client.cluster, r1);
      if found.None? || found.value.None? {
        SetError(HostNotRead);
        return false;
      }
      var h := found.value.value;
      var target := SetHostSpec(h);
      label read:
      ok := client.PatchHost(key, h.spec, target);
      if !ok {
        DriveStep(old@read(client.cluster), key, r1, client.sched, old@read(client.tick), client.cluster, Fail(r, NotAssociated));
        SetError(CallFailed);
        return;
      }
      nodeConfig := OwnedBy(nodeConfig, OwnerRef(HostKind, key.name, h.meta.uid));
      DriveStep(old@read(client.cluster), key, r1, client.sched, old@read(client.tick), client.cluster, r1.(pc := PatchOwners, config := nodeConfig.(status := nodeConfig.status.(ready := true))));
    }
  }

  /** The last two steps of every run. */
  lemma DeferredSteps(c: Cluster, k: Key, r: Run, sched: Schedule, n: nat)
    requires r.pc.DeferredOwners?
    ensures
      var o := PatchConfigOwners(c, k, r.before.meta.owners, r.config.meta.owners, sched(n).fault);
      var o' := PatchConfigStatus(o.cluster, k, r.before.status, r.config.status, sched(n + 1).fault);
      Drive(c, k, r, sched, n) == (o'.cluster, r.(pc := Done))
  {
    hide PatchConfigOwners, PatchConfigStatus;
    var o := PatchConfigOwners(c, k, r.before.meta.owners, r.config.meta.owners, sched(n).fault);
    var o' := PatchConfigStatus(o.cluster, k, r.before.status, r.config.status, sched(n + 1).fault);
    var r1 := r.(pc := DeferredStatus);
    assert Drive(c, k, r, sched, n) == Drive(o.cluster, k, r1, sched, n + 1);
    assert Drive(o.cluster, k, r1, sched, n + 1) == (o'.cluster, r.(pc := Done));
  }

  /** The explicit patch is two steps. */
  lemma FinalSteps(c: Cluster, k: Key, r: Run, sched: Schedule, n: nat)
    requires r.pc.PatchOwners?
    ensures
      var o := PatchConfigOwners(c, k, r.before.meta.owners, r.config.meta.owners, sched(n).fault);
      var o' := PatchConfigStatus(o.cluster, k, r.before.status, r.config.status, sched(n + 1).fault);
      Drive(c, k, r, sched, n) == Drive(o'.cluster, k, r.(pc := DeferredOwners, err := !(o.ok && o'.ok)), sched, n + 2)
  {
    hide PatchConfigOwners, PatchConfigStatus;
    var o := PatchConfigOwners(c, k, r.before.meta.owners, r.config.meta.owners, sched(n).fault);
    var o' := PatchConfigStatus(o.cluster, k, r.before.status, r.config.status, sched(n + 1).fault);
    var r1 := r.(pc := PatchStatus, err := !o.ok);
    assert Drive(c, k, r, sched, n) == Drive(o.cluster, k, r1, sched, n + 1);
  }

  /** The body of `Reconcile` up to the deferred patch. `r` follows it step by step. */
  method ReconcileBody(client: Client, k: Key, before: NodeConfig, manager: ConfigManager) returns (ok: bool, ghost r: Run)
    requires manager.client == client && manager.key == k && manager.nodeConfig == before
    modifies client, manager
    ensures
      var r0 := Run(StoreCloudInit(manager.render(before.spec)), before, before, false);
      Drive(old(client.cluster), k, r0, client.sched, old(client.tick)) == Drive(client.cluster, k, r, client.sched, client.tick)
    ensures r == Run(DeferredOwners, before, manager.nodeConfig, !ok)
  {
    hide Drive, PatchConfigOwners, PatchConfigStatus, IsAvailable, StateText, StatusText;
    ghost var r0 := Run(StoreCloudInit(manager.render(before.spec)), before, before, false);
    ok := manager.CreateNodeInitConfig();
    if !ok {
      manager.SetError(CloudInitFailed);
      r := Fail(r0, CloudInitFailed);
      DriveStep(old(client.cluster), k, r0, client.sched, old(client.tick), client.cluster, r);
      return;
    }
    manager.nodeConfig := manager.nodeConfig.(status := manager.nodeConfig.status.(userData := Some(SecretRef(k.name, k.ns))));
    ghost var r1 := r0.(pc := FindHost, config := manager.nodeConfig);
    DriveStep(old(client.cluster), k, r0, client.sched, old(client.tick), client.cluster, r1);

    label stored:
    var host, available := manager.FindHost();
    if host.Some? {
      AvailableExactly(host.value);
    }
    ghost var r2 := Step(client.cluster, k, r1, client.sched(old@stored(client.tick))).1;
    DriveStep(client.cluster, k, r1, client.sched, old@stored(client.tick), client.cluster, r2);
    if host.None? {
      var panicked;
      CompleteExactly(manager.nodeConfig.spec);
      ok, panicked := manager.CreateBareMetalHost(r1);
      if panicked {
        r := r2;
        return;
      }
      if !ok {
        manager.SetError(HostNotCreated);
        r := Fail(r1, HostNotCreated);
        return;
      }
      r2 := r1.(pc := ReadHost, config := WithMessage(manager.nodeConfig, None));
    } else if !available {
      manager.SetError(HostUnavailable(host.value.status.provisioningState));
      ok, r := RemoveBoth(client, k, r2);
      return;
    }

    label found:
    ok := manager.Associate(r2);
    if !ok {
      manager.SetError(NotAssociated);
      r := Fail(r2, NotAssociated);
      return;
    }
    manager.nodeConfig := manager.nodeConfig.(status := manager.nodeConfig.status.(ready := true));
    ghost var r3 := r2.(pc := PatchOwners, config := manager.nodeConfig);
    FinalSteps(client.cluster, k, r3, client.sched, client.tick);
    ok := client.PatchConfig(k, before, manager.nodeConfig);
    r := r3.(pc := DeferredOwners, err := !ok);
  }

  /** The delete branch. */
  method RemoveBoth(client: Client, k: Key, ghost r: Run) returns (ok: bool, ghost r': Run)
    requires r.pc.RemoveHost? && !r.err
    modifies client
    ensures Drive(old(client.cluster), k, r, client.sched, old(client.tick)) == Drive(client.cluster, k, r', client.sched, client.tick)
    ensures r' == r.(pc := DeferredOwners, err := !ok)
  {
    hide Drive;
    ok := client.DeleteHost(k);
    if !ok {
      r' := r.(pc := DeferredOwners, err := true);
      DriveStep(old(client.cluster), k, r, client.sched, old(client.tick), client.cluster, r');
      return;
    }
    ghost var r1 := r.(pc := RemoveConfig);
    DriveStep(old(client.cluster), k, r, client.sched, old(client.tick), client.cluster, r1);
    label deleted:
    ok := client.DeleteConfig(k);
    r' := r1.(pc := DeferredOwners, err := !ok);
    DriveStep(old@deleted(client.cluster), k, r1, client.sched, old@deleted(client.tick), client.cluster, r');
  }

  /** `Reconcile`: whatever each call's fate, it leaves the cluster that the step machine leaves, and returns an error
      exactly when the machine says so. */
  method Reconcile(client: Client, k: Key, fetch: Observed<NodeConfig>, render: Renderer) returns (ok: bool)
    modifies client
    ensures Outcome(client.cluster, ok) == Pass(old(client.cluster), k, fetch, render, client.sched, old(client.tick))
  {
    var got := Get(client.cluster.configs, k, fetch);
    if got.None? {
      return false;
    }
    if got.value.None? {
      return true;
    }
    var config := got.value.value;
    if config.status.ready {
      return true;
    }
    var manager := new ConfigManager(client, k, config, render);
    var before := config;
    ghost var r: Run;
    ok, r := ReconcileBody(client, k, before, manager);
    // the deferred patch
    DeferredSteps(client.cluster, k, r, client.sched, client.tick);
    var _ := client.PatchConfig(k, before, manager.nodeConfig);
  }
}
