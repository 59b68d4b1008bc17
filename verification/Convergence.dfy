/** Passes without faults and without interference: what one pass does, and that two passes settle everything. */
module Convergence {
  import opened Wrappers
  import opened NodeConfigTypes
  import opened Objects
  import opened ApiServer
  import opened Worker

  /** Every call is served and every read is fresh; the uids are the server's choice. */
  ghost predicate Quiet(sched: Schedule) {
    forall n: nat :: sched(n).fault.Served? && sched(n).seen.Current?
  }

  /** One undisturbed pass over NodeConfig `k`. */
  function Reconciled(c: Cluster, k: Key, render: Renderer, sched: Schedule): Cluster {
    Pass(c, k, Current, render, sched, 0).cluster
  }

  /** The NodeConfig that an undisturbed association leaves. */
  function AssociatedConfig(g: NodeConfig, k: Key, hostUid: nat): NodeConfig {
    var g' := OwnedBy(WithMessage(WithUserData(g, k), None), OwnerRef(HostKind, k.name, hostUid));
    g'.(status := g'.status.(ready := true))
  }

  function WithHost(c: Cluster, k: Key, h: Host, g: NodeConfig): Cluster {
    c.(hosts := c.hosts[k := h.(spec := AssignedSpec(h, WithUserData(g, k)))],
       configs := c.configs[k := AssociatedConfig(g, k, h.meta.uid)])
  }

  /** The outcome of an undisturbed pass, told case by case. */
  function PassResult(c: Cluster, k: Key, render: Renderer, sched: Schedule): Cluster {
    if k !in c.configs || c.configs[k].status.ready then c
    else
      var g := c.configs[k];
      if k in c.secrets then c.(configs := c.configs[k := WithMessage(g, Some(CloudInitFailed))])
      else
        var c1 := c.(secrets := c.secrets[k := CloudInitSecret(k, g, render(g.spec), sched(0).uid)]);
        if k in c.hosts && IsAvailable(c.hosts[k]) then WithHost(c1, k, c.hosts[k], g)
        else if k in c.hosts then c1.(hosts := c.hosts - {k}, configs := c.configs - {k})
        else if Panics(g.spec) then c1.(configs := c.configs[k := WithUserData(g, k)])
        else if BmcKey(k) in c1.secrets then
          c1.(configs := c.configs[k := WithMessage(WithUserData(g, k), Some(HostNotCreated))])
        else
          var bmc := g.spec.bmc.value;
          var c2 := c1.(secrets := c1.secrets[BmcKey(k) := CredentialsSecret(bmc, sched(2).uid)]);
          WithHost(c2, k, NewHost(k, bmc, sched(3).uid), g)
  }

  /** An undisturbed pass returns no error: there is nothing to do, or the cloud-init Secret can be made and then there
      is a host, usable or not, or one can be made, with the details for it and with no credentials in the way. */
  predicate Succeeds(c: Cluster, k: Key) {
    || k !in c.configs
    || c.configs[k].status.ready
    || (k !in c.secrets && k in c.hosts)
    || (&& k !in c.secrets && k !in c.hosts && Complete(c.configs[k].spec)
        && Key(k.ns, k.name + "-bmc-secret") !in c.secrets)
  }

  /** The stored NodeConfig is, field by field, the run's snapshot or what the run wants of it. */
  predicate InSync(c: Cluster, k: Key, r: Run) {
    && k in c.configs
    && r.config == r.before.(meta := r.before.meta.(owners := r.config.meta.owners), status := r.config.status)
    && c.configs[k].meta.uid == r.before.meta.uid && c.configs[k].spec == r.before.spec
    && c.configs[k].meta.owners in [r.before.meta.owners, r.config.meta.owners]
    && c.configs[k].status in [r.before.status, r.config.status]
  }

  lemma MergeHostReaches(b: HostSpec, a: HostSpec)
    ensures MergeHostSpec(b, a, b) == a
  {}

  lemma OwnersPatched(c: Cluster, k: Key, r: Run)
    requires InSync(c, k, r)
    ensures
      var o := PatchConfigOwners(c, k, r.before.meta.owners, r.config.meta.owners, Served);
      && o.ok && InSync(o.cluster, k, r)
      && o.cluster == c.(configs := c.configs[k := o.cluster.configs[k]])
      && o.cluster.configs[k].meta.owners == r.config.meta.owners
      && o.cluster.configs[k].status == c.configs[k].status
  {
    assert c.configs == c.configs[k := c.configs[k]];
  }

  lemma StatusPatched(c: Cluster, k: Key, r: Run)
    requires InSync(c, k, r)
    ensures
      var o := PatchConfigStatus(c, k, r.before.status, r.config.status, Served);
      && o.ok && InSync(o.cluster, k, r)
      && o.cluster == c.(configs := c.configs[k := o.cluster.configs[k]])
      && o.cluster.configs[k].status == r.config.status
      && o.cluster.configs[k].meta == c.configs[k].meta
  {
    hide MergeStatus;
    MergeStatusEnds(r.before.status, r.config.status);
    assert c.configs == c.configs[k := c.configs[k]];
  }

  lemma DeferredPass(c: Cluster, k: Key, r: Run, sched: Schedule, n: nat)
    requires sched(n).fault.Served? && sched(n + 1).fault.Served? && InSync(c, k, r) && r.pc == DeferredOwners
    ensures Drive(c, k, r, sched, n).0 == c.(configs := c.configs[k := r.config])
    ensures Drive(c, k, r, sched, n).1.err == r.err
  {
    hide PatchConfigOwners, PatchConfigStatus, InSync;
    OwnersPatched(c, k, r);
    var c1 := PatchConfigOwners(c, k, r.before.meta.owners, r.config.meta.owners, Served).cluster;
    StatusPatched(c1, k, r);
    var r1 := r.(pc := DeferredStatus);
    DriveStep(c, k, r, sched, n, c1, r1);
    var c2 := PatchConfigStatus(c1, k, r.before.status, r.config.status, Served).cluster;
    assert Drive(c1, k, r1, sched, n + 1) == (c2, r1.(pc := Done));
    InSyncFields(c2, k, r);
  }

  lemma InSyncFields(c: Cluster, k: Key, r: Run)
    requires InSync(c, k, r)
    requires c.configs[k].meta.owners == r.config.meta.owners && c.configs[k].status == r.config.status
    ensures c.configs[k] == r.config
  {}

  lemma FinalPass(c: Cluster, k: Key, r: Run, sched: Schedule, n: nat)
    requires Quiet(sched) && InSync(c, k, r) && r.pc == PatchOwners
    ensures Drive(c, k, r, sched, n).0 == c.(configs := c.configs[k := r.config])
    ensures !Drive(c, k, r, sched, n).1.err
  {
    hide Drive, PatchConfigOwners, PatchConfigStatus, InSync;
    OwnersPatched(c, k, r);
    var c1 := PatchConfigOwners(c, k, r.before.meta.owners, r.config.meta.owners, Served).cluster;
    StatusPatched(c1, k, r);
    var r1 := r.(pc := PatchStatus, err := false);
    DriveStep(c, k, r, sched, n, c1, r1);
    var c2 := PatchConfigStatus(c1, k, r.before.status, r.config.status, Served).cluster;
    var r2 := r1.(pc := DeferredOwners);
    DriveStep(c1, k, r1, sched, n + 1, c2, r2);
    InSyncAnywhere(c2, k, r, DeferredOwners, false);
    DeferredPass(c2, k, r2, sched, n + 2);
    assert c2.(configs := c2.configs[k := r.config]) == c.(configs := c.configs[k := r.config]);
  }

  lemma InSyncAnywhere(c: Cluster, k: Key, r: Run, pc: Pc, err: bool)
    ensures InSync(c, k, r) == InSync(c, k, r.(pc := pc, err := err))
  {}

  /** From the second read of the host to the end. */
  lemma AssociatePass(c: Cluster, k: Key, r: Run, sched: Schedule, n: nat)
    requires Quiet(sched) && r.pc == ReadHost && k in c.hosts && k in c.configs && c.configs[k] == r.before
    requires r.config == WithMessage(WithUserData(r.before, k), None)
    ensures Drive(c, k, r, sched, n).0 == WithHost(c, k, c.hosts[k], r.before)
    ensures !Drive(c, k, r, sched, n).1.err
  {
    hide Drive, MergeHostSpec, AssignedSpec, EnsureOwner;
    var h := c.hosts[k];
    var target := AssignedSpec(h, r.config);
    var r1 := r.(pc := AssignHost(h));
    DriveStep(c, k, r, sched, n, c, r1);
    MergeHostReaches(h.spec, target);
    var c1 := c.(hosts := c.hosts[k := h.(spec := target)]);
    assert c.hosts == c.hosts[k := c.hosts[k]];
    var r2 := r1.(pc := PatchOwners, config := AssociatedConfig(r.before, k, h.meta.uid));
    assert PatchHost(c, k, h.spec, target, sched(n + 1).fault) == Outcome(c1, true);
    DriveStep(c, k, r1, sched, n + 1, c1, r2);
    FinalPass(c1, k, r2, sched, n + 2);
    assert target == AssignedSpec(h, WithUserData(r.before, k)) by {
      AssignedSpecDepends(h, r.config, WithUserData(r.before, k));
    }
  }

  /** A host and its credentials are created, and then associated. */
  lemma CreatePass(c: Cluster, k: Key, r: Run, sched: Schedule)
    requires Quiet(sched) && r.pc.StoreCredentials? && !r.err && k in c.configs && c.configs[k] == r.before && k !in c.hosts
    requires r.config == WithUserData(r.before, k)
    ensures
      Drive(c, k, r, sched, 2).0 ==
      if BmcKey(k) in c.secrets then c.(configs := c.configs[k := WithMessage(r.config, Some(HostNotCreated))])
      else WithHost(c.(secrets := c.secrets[BmcKey(k) := CredentialsSecret(r.pc.bmc, sched(2).uid)]), k,
                    NewHost(k, r.pc.bmc, sched(3).uid), r.before)
    ensures Drive(c, k, r, sched, 2).1.err <==> BmcKey(k) in c.secrets
  {
    hide Drive, BmcKey, AssignedSpec, EnsureOwner, MergeStatus;
    var bmc := r.pc.bmc;
    if BmcKey(k) in c.secrets {
      var r1 := Fail(r, HostNotCreated);
      DriveStep(c, k, r, sched, 2, c, r1);
      DeferredPass(c, k, r1, sched, 3);
    } else {
      var c1 := c.(secrets := c.secrets[BmcKey(k) := CredentialsSecret(bmc, sched(2).uid)]);
      var r1 := r.(pc := CreateBareMetalHost(bmc));
      DriveStep(c, k, r, sched, 2, c1, r1);
      var h := NewHost(k, bmc, sched(3).uid);
      var c2 := c1.(hosts := c1.hosts[k := h]);
      var r2 := r1.(pc := OwnCredentials(sched(3).uid));
      DriveStep(c1, k, r1, sched, 3, c2, r2);
      var r3 := r2.(pc := ReadHost, config := WithMessage(r.config, None));
      DriveStep(c2, k, r2, sched, 4, c2, r3);
      AssociatePass(c2, k, r3, sched, 5);
      assert c2.hosts[k := h.(spec := AssignedSpec(h, WithUserData(r.before, k)))]
          == c1.hosts[k := h.(spec := AssignedSpec(h, WithUserData(r.before, k)))];
    }
  }

  /** An unavailable host is deleted and the NodeConfig with it. */
  lemma RemovePass(c: Cluster, k: Key, r: Run, sched: Schedule)
    requires Quiet(sched) && r.pc.RemoveHost? && k in c.configs && k in c.hosts
    ensures Drive(c, k, r, sched, 2).0 == c.(hosts := c.hosts - {k}, configs := c.configs - {k})
    ensures !Drive(c, k, r, sched, 2).1.err
  {
    hide MergeStatus;
    var c1 := c.(hosts := c.hosts - {k});
    var r1 := r.(pc := RemoveConfig);
    DriveStep(c, k, r, sched, 2, c1, r1);
    var c2 := c1.(configs := c1.configs - {k});
    var r2 := r1.(pc := DeferredOwners, err := false);
    DriveStep(c1, k, r1, sched, 3, c2, r2);
    var r3 := r2.(pc := DeferredStatus);
    DriveStep(c2, k, r2, sched, 4, c2, r3);
    assert Drive(c2, k, r3, sched, 5) == (c2, r3.(pc := Done));
  }

  /** The step-by-step machine does in an undisturbed pass exactly what `PassResult` tells. */
  lemma UndisturbedPass(c: Cluster, k: Key, render: Renderer, sched: Schedule)
    requires Quiet(sched)
    ensures Reconciled(c, k, render, sched) == PassResult(c, k, render, sched)
    ensures Pass(c, k, Current, render, sched, 0).ok <==> Succeeds(c, k)
  {
    BmcKeyDiffers(k);
    assert BmcKey(k) == Key(k.ns, k.name + "-bmc-secret");
    if k in c.configs {
      CompleteExactly(c.configs[k].spec);
    }
    hide Complete;
    hide Drive, BmcKey, AssignedSpec, EnsureOwner, MergeStatus, WithHost, Panics;
    if k in c.configs && !c.configs[k].status.ready {
      var g := c.configs[k];
      var r := Run(StoreCloudInit(render(g.spec)), g, g, false);
      assert Reconciled(c, k, render, sched) == Drive(c, k, r, sched, 0).0;
      if k in c.secrets {
        var r1 := Fail(r, CloudInitFailed);
        DriveStep(c, k, r, sched, 0, c, r1);
        DeferredPass(c, k, r1, sched, 1);
      } else {
        var c1 := c.(secrets := c.secrets[k := CloudInitSecret(k, g, render(g.spec), sched(0).uid)]);
        var r1 := r.(pc := FindHost, config := WithUserData(g, k));
        DriveStep(c, k, r, sched, 0, c1, r1);
        FoundPass(c1, k, r1, sched);
      }
    }
  }

  lemma FoundPass(c: Cluster, k: Key, r: Run, sched: Schedule)
    requires Quiet(sched) && r.pc.FindHost? && !r.err && k in c.configs && c.configs[k] == r.before
    requires r.config == WithUserData(r.before, k)
    ensures
      Drive(c, k, r, sched, 1).0 ==
      if k in c.hosts && IsAvailable(c.hosts[k]) then WithHost(c, k, c.hosts[k], r.before)
      else if k in c.hosts then c.(hosts := c.hosts - {k}, configs := c.configs - {k})
      else if Panics(r.before.spec) then c.(configs := c.configs[k := r.config])
      else if BmcKey(k) in c.secrets then c.(configs := c.configs[k := WithMessage(r.config, Some(HostNotCreated))])
      else WithHost(c.(secrets := c.secrets[BmcKey(k) := CredentialsSecret(r.before.spec.bmc.value, sched(2).uid)]), k,
                    NewHost(k, r.before.spec.bmc.value, sched(3).uid), r.before)
    ensures Drive(c, k, r, sched, 1).1.err <==> k !in c.hosts && (Panics(r.before.spec) || BmcKey(k) in c.secrets)
  {
    hide Drive, BmcKey, AssignedSpec, EnsureOwner, MergeStatus, WithHost;
    var r' := Step(c, k, r, sched(1)).1;
    DriveStep(c, k, r, sched, 1, c, r');
    if k in c.hosts && IsAvailable(c.hosts[k]) {
      AssociatePass(c, k, r', sched, 2);
    } else if k in c.hosts {
      RemovePass(c, k, r', sched);
    } else if Panics(r.before.spec) {
      DeferredPass(c, k, r', sched, 2);
    } else {
      CreatePass(c, k, r', sched);
    }
  }

  /** The NodeConfig is gone, or Ready, or refused at the cloud-init Secret. */
  predicate Settled(c: Cluster, k: Key) {
    || k !in c.configs
    || c.configs[k].status.ready
    || (k in c.secrets && c.configs[k].status.failureMessage == Some(CloudInitFailed))
  }

  /** The pass creates the cloud-init Secret and stops before there is a host: at credentials that exist
      already, or in a panic. */
  predicate StopsHalfway(c: Cluster, k: Key) {
    && k in c.configs && !c.configs[k].status.ready
    && k !in c.secrets && k !in c.hosts
    && if Panics(c.configs[k].spec) then c.configs[k].status.failureMessage != Some(CloudInitFailed)
       else BmcKey(k) in c.secrets
  }

  /** The settled clusters are exactly the fixpoints. */
  lemma FixpointsAreSettled(c: Cluster, k: Key, render: Renderer, sched: Schedule)
    requires Quiet(sched)
    ensures Reconciled(c, k, render, sched) == c <==> Settled(c, k)
  {
    hide Reconciled, AssignedSpec, EnsureOwner, BmcKey, Panics;
    UndisturbedPass(c, k, render, sched);
    var d := PassResult(c, k, render, sched);
    if Settled(c, k) {
      if k in c.configs && !c.configs[k].status.ready {
        assert c.configs == c.configs[k := c.configs[k]];
      }
    } else if k in c.secrets {
      assert d.configs[k] != c.configs[k];
    } else {
      assert k in d.secrets;
    }
  }

  /** One pass settles the NodeConfig exactly when it does not stop halfway; so two passes are sometimes needed. */
  lemma OnePassSettles(c: Cluster, k: Key, render: Renderer, sched: Schedule)
    requires Quiet(sched)
    ensures Settled(Reconciled(c, k, render, sched), k) <==> !StopsHalfway(c, k)
  {
    hide Reconciled, AssignedSpec, EnsureOwner, Panics;
    BmcKeyDiffers(k);
    hide BmcKey;
    UndisturbedPass(c, k, render, sched);
  }

  /** Two passes settle every NodeConfig, so a third changes nothing. */
  lemma TwoPassesSettle(c: Cluster, k: Key, render: Renderer, sched: Schedule, sched': Schedule, sched'': Schedule)
    requires Quiet(sched) && Quiet(sched') && Quiet(sched'')
    ensures
      var d := Reconciled(Reconciled(c, k, render, sched), k, render, sched');
      Settled(d, k) && Reconciled(d, k, render, sched'') == d
  {
    hide Reconciled, AssignedSpec, EnsureOwner, Panics, BmcKey;
    var c1 := Reconciled(c, k, render, sched);
    UndisturbedPass(c, k, render, sched);
    UndisturbedPass(c1, k, render, sched');
    FixpointsAreSettled(Reconciled(c1, k, render, sched'), k, render, sched'');
  }

  /** With BMC details and an image, and nothing there yet, one pass makes the Secret, the credentials and the host, and
      the NodeConfig is Ready. */
  lemma FreshStartSucceeds(c: Cluster, k: Key, render: Renderer, sched: Schedule, bmc: BMC, image: Image)
    requires Quiet(sched) && k in c.configs && !c.configs[k].status.ready
    requires c.configs[k].spec.bmc == Some(bmc) && c.configs[k].spec.image == Some(image)
    requires k !in c.secrets && Key(k.ns, k.name + "-bmc-secret") !in c.secrets && k !in c.hosts
    ensures
      var o := Pass(c, k, Current, render, sched, 0);
      var d, credentials := o.cluster, k.name + "-bmc-secret";
      && o.ok && k in d.secrets && Key(k.ns, credentials) in d.secrets
      && k in d.configs && d.configs[k].status.ready
      && k in d.hosts
      && d.hosts[k].spec
         == HostSpec(false, if bmc.bootMode == "" then "UEFI" else bmc.bootMode, bmc.address, credentials, true,
                     Some(Image(image.url, image.checksum, if image.checksumType == "" then "md5" else image.checksumType)),
                     Some(SecretRef(k.name, k.ns)))
  {
    BmcKeyDiffers(k);
    assert BmcKey(k) == Key(k.ns, k.name + "-bmc-secret");
    hide BmcKey, EnsureOwner, Drive, MergeStatus;
    UndisturbedPass(c, k, render, sched);
    assert NewHost(k, bmc, sched(3).uid).spec.credentialsName == BmcKey(k).name;
  }

  /** A usable host is kept, and the NodeConfig with it, which becomes Ready. */
  lemma UsableHostIsKept(c: Cluster, k: Key, render: Renderer, sched: Schedule)
    requires Quiet(sched) && k in c.configs && !c.configs[k].status.ready && k !in c.secrets && k in c.hosts
    ensures
      var d, h := Reconciled(c, k, render, sched), c.hosts[k];
      if Usable(StateText(h.status.provisioningState), StatusText(h.status.operationalStatus)) then
        k in d.hosts && d.hosts[k].meta == h.meta && k in d.configs && d.configs[k].status.ready
      else k !in d.hosts && k !in d.configs
  {
    AvailableExactly(c.hosts[k]);
    hide Usable, IsAvailable, StateText, StatusText, Reconciled, AssignedSpec, EnsureOwner, BmcKey, Panics;
    UndisturbedPass(c, k, render, sched);
  }

  /** After a pass that leaves the NodeConfig Ready the host carries what the spec asks for. */
  lemma ReadyMeansAssigned(c: Cluster, k: Key, render: Renderer, sched: Schedule)
    requires Quiet(sched) && k in c.configs && !c.configs[k].status.ready
    requires
      var d := Reconciled(c, k, render, sched);
      k in d.configs && d.configs[k].status.ready
    ensures
      var g, d := c.configs[k], Reconciled(c, k, render, sched);
      && k in d.hosts && k in d.secrets && d.secrets[k].data == map["value" := render(g.spec)]
      && d.configs[k].status.failureMessage == None
      && d.configs[k].status.userData == Some(SecretRef(k.name, k.ns))
      && OwnerRef(HostKind, k.name, d.hosts[k].meta.uid) in d.configs[k].meta.owners
      && (OwnedOnce(g.meta.owners, OwnerRef(HostKind, k.name, d.hosts[k].meta.uid)) ==>
            forall x :: x in d.configs[k].meta.owners && x.kind.HostKind? && x.name == k.name ==> x.uid == d.hosts[k].meta.uid)
      && (g.spec.image.Some? ==>
            && d.hosts[k].spec.userData == d.configs[k].status.userData
            && d.hosts[k].spec.image == Some(g.spec.image.value.(checksumType := ChecksumType(g.spec.image.value))))
  {
    hide Reconciled, EnsureOwner, Panics;
    BmcKeyDiffers(k);
    hide BmcKey;
    UndisturbedPass(c, k, render, sched);
    var d := PassResult(c, k, render, sched);
    OwnerIsReplaced(c.configs[k].meta.owners, OwnerRef(HostKind, k.name, d.hosts[k].meta.uid));
  }

  /** There is no reference to that object among the first `n`. */
  ghost predicate Unowned(owners: seq<OwnerRef>, o: OwnerRef, n: nat)
    requires n <= |owners|
  {
    forall i :: 0 <= i < n ==> !SameObject(owners[i], o)
  }

  /** `EnsureOwnerRef` replaces the first reference to the object, whatever its uid, where it stands, and appends one if
      there is none. Nothing else changes. */
  lemma {:induction false} EnsuresOwner(owners: seq<OwnerRef>, o: OwnerRef)
    ensures
      || (Unowned(owners, o, |owners|) && EnsureOwner(owners, o) == owners + [o])
      || exists i :: 0 <= i < |owners| && Unowned(owners, o, i) && SameObject(owners[i], o) && EnsureOwner(owners, o) == owners[i := o]
  {
    if owners != [] && !SameObject(owners[0], o) {
      EnsuresOwner(owners[1..], o);
      if i :| 0 <= i < |owners[1..]| && Unowned(owners[1..], o, i) && SameObject(owners[1..][i], o)
              && EnsureOwner(owners[1..], o) == owners[1..][i := o] {
        assert EnsureOwner(owners, o) == owners[i + 1 := o];
        assert Unowned(owners, o, i + 1) by {
          assert forall j :: 1 <= j < i + 1 ==> owners[j] == owners[1..][j - 1];
        }
      } else {
        assert forall j :: 1 <= j < |owners| ==> owners[j] == owners[1..][j - 1];
      }
    }
  }

  ghost predicate OwnedOnce(owners: seq<OwnerRef>, o: OwnerRef) {
    forall i, j :: 0 <= i < j < |owners| ==> !SameObject(owners[i], o) || !SameObject(owners[j], o)
  }

  /** So a list with at most one reference to the object has exactly one afterwards, the new one; it grows exactly when
      there was none, and the references to other objects stay as they were, in order. */
  lemma OwnerIsReplaced(owners: seq<OwnerRef>, o: OwnerRef)
    ensures
      var after := EnsureOwner(owners, o);
      && o in after
      && |after| == |owners| + (if Unowned(owners, o, |owners|) then 1 else 0)
      && (forall i :: 0 <= i < |owners| && !SameObject(owners[i], o) ==> after[i] == owners[i])
      && (OwnedOnce(owners, o) ==> OwnedOnce(after, o) && forall x :: x in after && SameObject(x, o) ==> x == o)
  {
    EnsuresOwner(owners, o);
    var after := EnsureOwner(owners, o);
    if Unowned(owners, o, |owners|) {
      assert after[|owners|] == o;
    } else {
      var i :| 0 <= i < |owners| && Unowned(owners, o, i) && SameObject(owners[i], o) && after == owners[i := o];
      assert after[i] == o;
    }
  }
}
