/** What the operator's writes mean: where Ready comes from and that it stays, why a host
    is changed, and that Secrets are written once. */
module Ready {
  import opened Wrappers
  import opened NodeConfigTypes
  import opened Objects
  import opened ApiServer
  import opened Worker
  import opened System
  import opened History

  predicate IsReady(s: System, k: Key) {
    k in s.cluster.configs && s.cluster.configs[k].status.ready
  }

  /** What a run that fetched `g` wants of a host it read as `h`: the image and user data, or nothing new without an image. */
  predicate Fulfils(g: NodeConfig, k: Key, h: Host, target: HostSpec) {
    match g.spec.image
    case None => target == h.spec
    case Some(image) =>
      && target.image == Some(Image(image.url, image.checksum, if image.checksumType == "" then "md5" else image.checksumType))
      && target.userData == Some(SecretRef(k.name, k.ns))
      && target.online == (h.spec.online || h.status.provisioningState.Ready?)
  }

  /** Run `id` was given `g` at action `f`, then created the cloud-init Secret, then patched the host towards `target`,
      from the snapshot `h` that it had read at action `e`, all before action `i`. */
  predicate Earned(s: System, actions: seq<Action>, i: nat, id: RunId, g: NodeConfig, f: nat, a: nat, e: nat, b: nat, h: Host, target: HostSpec) {
    && f < a < b < i && e < b
    && Fetches(s, actions, f, id, g)
    && Admitted(s, actions, a, id)
    && Reads(s, actions, e, id, h)
    && Assigns(s, actions, b, id, h, target)
    && Fulfils(g, id.key, h, target)
  }

  lemma TurnsReady(c: Cluster, k: Key, r: Run, i: Input, x: Key)
    requires x in Step(c, k, r, i).0.configs && Step(c, k, r, i).0.configs[x].status.ready
    requires !(x in c.configs && c.configs[x].status.ready)
    ensures x == k && r.config.status.ready
  {
    hide AssignedSpec, EnsureOwner, MergeHostSpec, BmcKey, Panics;
  }

  lemma AssignedFulfils(g: NodeConfig, k: Key, h: Host)
    ensures Fulfils(g, k, h, AssignedSpec(h, WithUserData(g, k)))
  {}

  lemma FetchComesFirst(s: System, actions: seq<Action>, f: nat, a: nat, id: RunId, g: NodeConfig)
    requires Fetches(s, actions, f, id, g) && Calls(s, actions, a, id)
    ensures f < a
  {
    hide Next, At, Begin, Step;
    if a <= f {
      RunsStay(s, actions, a, f, id);
    }
  }

  lemma OnlyCallsTurnReady(s: System, a: Action, k: Key)
    requires !IsReady(s, k) && IsReady(Next(s, a), k)
    ensures a.StepRun? && a.id in s.runs
  {
    hide Step, Begin;
  }

  /** Ready is causal: whoever writes it has earned it. */
  lemma ReadyIsEarned(s: System, actions: seq<Action>, i: nat, k: Key)
    requires s.runs == map[] && i < |actions|
    requires !IsReady(At(s, actions, i), k) && IsReady(At(s, actions, i + 1), k)
    ensures exists id: RunId, g: NodeConfig, f: nat, a: nat, e: nat, b: nat, h: Host, target: HostSpec ::
              id.key == k && Calls(s, actions, i, id) && Earned(s, actions, i, id, g, f, a, e, b, h, target)
  {
    var p, act := At(s, actions, i), actions[i];
    OnlyCallsTurnReady(p, act, k);
    var id := act.id;
    TurnsReady(p.cluster, id.key, p.runs[id], act.input, k);
    ReadyRunEarned(s, actions, i, id);
  }

  lemma ReadyRunEarned(s: System, actions: seq<Action>, i: nat, id: RunId)
    requires s.runs == map[] && Calls(s, actions, i, id) && Caller(s, actions, i, id).config.status.ready
    ensures exists g: NodeConfig, f: nat, a: nat, e: nat, b: nat, h: Host, target: HostSpec ::
              Earned(s, actions, i, id, g, f, a, e, b, h, target)
  {
    hide At, Next, Step, Begin, AssignedSpec, Fulfils;
    AlwaysExplained(s, actions, i, id);
    var r := Caller(s, actions, i, id);
    var g := WithUserData(r.before, id.key);
    var a: nat, b: nat, h :|
      a < b < i && Admitted(s, actions, a, id) && Assigns(s, actions, b, id, h, AssignedSpec(h, g));
    var f: nat :| f < i && Fetches(s, actions, f, id, r.before);
    FetchComesFirst(s, actions, f, a, id, r.before);
    AssignedFulfils(r.before, id.key, h);
    AlwaysExplained(s, actions, b, id);
    var e: nat :| e < b && Reads(s, actions, e, id, h);
    assert Earned(s, actions, i, id, r.before, f, a, e, b, h, AssignedSpec(h, g));
  }

  // ---- whose spec it is that has been fulfilled ----

  /** Users leave NodeConfig `k` as it is. */
  predicate LeavesSpec(a: Action, k: Key) {
    match a
    case AddConfig(x, _, _) => x != k
    case EditConfig(x, _, _) => x != k
    case DropConfig(x) => x != k
    case _ => true
  }

  /** No call changes the spec or the uid of a NodeConfig, or creates one. */
  lemma StepKeepsSpec(c: Cluster, k: Key, r: Run, i: Input, x: Key)
    requires x in Step(c, k, r, i).0.configs
    ensures
      && x in c.configs && Step(c, k, r, i).0.configs[x].spec == c.configs[x].spec
      && Step(c, k, r, i).0.configs[x].meta.uid == c.configs[x].meta.uid
  {
    hide AssignedSpec, EnsureOwner, MergeHostSpec, MergeStatus, BmcKey, Panics;
  }

  lemma NextKeepsSpec(s: System, a: Action, k: Key)
    requires LeavesSpec(a, k) && k in Next(s, a).cluster.configs
    ensures
      && k in s.cluster.configs && Next(s, a).cluster.configs[k].spec == s.cluster.configs[k].spec
      && Next(s, a).cluster.configs[k].meta.uid == s.cluster.configs[k].meta.uid
  {
    hide Step, Begin, BmcKey;
    if a.StepRun? && a.id in s.runs {
      StepKeepsSpec(s.cluster, a.id.key, s.runs[a.id], a.input, k);
    }
  }

  lemma {:induction false} SpecStays(s: System, actions: seq<Action>, i: nat, j: nat, k: Key)
    requires i <= j <= |actions| && k in At(s, actions, j).cluster.configs
    requires forall n: nat :: i <= n < j ==> LeavesSpec(actions[n], k)
    ensures
      && k in At(s, actions, i).cluster.configs
      && At(s, actions, j).cluster.configs[k].spec == At(s, actions, i).cluster.configs[k].spec
      && At(s, actions, j).cluster.configs[k].meta.uid == At(s, actions, i).cluster.configs[k].meta.uid
    decreases j
  {
    hide Next, LeavesSpec;
    if i < j {
      NextKeepsSpec(At(s, actions, j - 1), actions[j - 1], k);
      SpecStays(s, actions, i, j - 1, k);
    }
  }

  /** With a fresh fetch, and when users have left the NodeConfig as it was ever since, the target of the host patch is
      that of the stored NodeConfig: its spec, in this incarnation. */
  lemma ReadyFitsStored(s: System, actions: seq<Action>, i: nat, id: RunId, g: NodeConfig,
                        f: nat, a: nat, e: nat, b: nat, h: Host, target: HostSpec)
    requires i < |actions| && Earned(s, actions, i, id, g, f, a, e, b, h, target)
    requires actions[f].fetch.Current? && forall n: nat :: f <= n <= i ==> LeavesSpec(actions[n], id.key)
    requires id.key in At(s, actions, i + 1).cluster.configs
    ensures
      var stored := At(s, actions, i + 1).cluster.configs[id.key];
      stored.spec == g.spec && stored.meta.uid == g.meta.uid && Fulfils(stored, id.key, h, target)
  {
    hide At, Calls, Resumed, Caller;
    SpecStays(s, actions, f, i + 1, id.key);
  }

  // ---- whether the host gets there ----

  /** The host shows the image, the user data and the power of the target. */
  predicate CarriesOut(spec: HostSpec, target: HostSpec) {
    spec.image == target.image && spec.userData == target.userData && spec.online == target.online
  }

  /** Whatever of the target the snapshot shows already, the stored host shows too. */
  predicate Kept(snapshot: HostSpec, target: HostSpec, stored: HostSpec) {
    && ImageKept(snapshot.image, target.image, stored.image)
    && RefKept(snapshot.userData, target.userData, stored.userData)
    && (snapshot.online == target.online ==> stored.online == target.online)
  }

  lemma MergeCarriesOut(h: Host, g: NodeConfig, stored: HostSpec)
    ensures CarriesOut(MergeHostSpec(h.spec, AssignedSpec(h, g), stored), AssignedSpec(h, g)) <==> Kept(h.spec, AssignedSpec(h, g), stored)
  {
    hide MergeImage, MergeRef, ImageKept, RefKept, AssignedSpec;
    var target := AssignedSpec(h, g);
    MergeImageReaches(h.spec.image, target.image, stored.image);
    MergeRefReaches(h.spec.userData, target.userData, stored.userData);
  }

  lemma MergeOfNothing(b: HostSpec, c: HostSpec)
    ensures MergeHostSpec(b, b, c) == c
  {}

  /** The host patch that is not refused leaves the stored host at the target exactly when there is one that has kept
      what the snapshot shows of it. A patch that finds no difference is not sent, and succeeds even without a host. */
  lemma DeliveredExactly(c: Cluster, k: Key, r: Run, i: Input)
    requires r.pc.AssignHost? && !i.fault.Refused?
    ensures
      var h, target, c' := r.pc.found, AssignedSpec(r.pc.found, r.config), Step(c, k, r, i).0;
      k in c'.hosts && CarriesOut(c'.hosts[k].spec, target) <==> k in c.hosts && Kept(h.spec, target, c.hosts[k].spec)
  {
    hide AssignedSpec, MergeHostSpec, Kept, CarriesOut, EnsureOwner;
    if k in c.hosts {
      MergeCarriesOut(r.pc.found, r.config, c.hosts[k].spec);
      MergeOfNothing(r.pc.found.spec, c.hosts[k].spec);
    }
  }

  /** From a snapshot that is still the stored one, the whole spec gets to the target. */
  lemma FreshIsDelivered(c: Cluster, k: Key, r: Run, i: Input)
    requires r.pc.AssignHost? && Step(c, k, r, i).1.pc.PatchOwners?
    requires k in c.hosts && c.hosts[k].spec == r.pc.found.spec
    ensures k in Step(c, k, r, i).0.hosts && Step(c, k, r, i).0.hosts[k].spec == AssignedSpec(r.pc.found, r.config)
  {
    hide AssignedSpec, EnsureOwner;
  }

  /** No one changes the host `k`: neither users and the bare-metal operator nor a run for it. */
  predicate LeavesHost(s: System, a: Action, k: Key) {
    match a
    case SetHost(x, _) => x != k
    case StepRun(id, _) =>
      id.key == k && id in s.runs ==>
        !s.runs[id].pc.CreateBareMetalHost? && !s.runs[id].pc.RemoveHost? && !s.runs[id].pc.AssignHost?
    case _ => true
  }

  lemma StepKeepsHost(c: Cluster, k: Key, r: Run, i: Input, x: Key)
    requires x == k ==> !r.pc.CreateBareMetalHost? && !r.pc.RemoveHost? && !r.pc.AssignHost?
    ensures Lookup(Step(c, k, r, i).0.hosts, x) == Lookup(c.hosts, x)
  {
    hide AssignedSpec, EnsureOwner, MergeHostSpec, MergeStatus, BmcKey, Panics;
  }

  lemma NextKeepsHost(s: System, a: Action, k: Key)
    requires LeavesHost(s, a, k)
    ensures Lookup(Next(s, a).cluster.hosts, k) == Lookup(s.cluster.hosts, k)
  {
    hide Step, Begin, BmcKey;
    if a.StepRun? && a.id in s.runs {
      StepKeepsHost(s.cluster, a.id.key, s.runs[a.id], a.input, k);
    }
  }

  lemma {:induction false} HostStays(s: System, actions: seq<Action>, i: nat, j: nat, k: Key)
    requires i <= j <= |actions|
    requires forall n: nat :: i <= n < j ==> LeavesHost(At(s, actions, n), actions[n], k)
    ensures Lookup(At(s, actions, j).cluster.hosts, k) == Lookup(At(s, actions, i).cluster.hosts, k)
    decreases j
  {
    hide Next, LeavesHost;
    if i < j {
      HostStays(s, actions, i, j - 1, k);
      NextKeepsHost(At(s, actions, j - 1), actions[j - 1], k);
    }
  }

  lemma AssignsFresh(s: System, actions: seq<Action>, b: nat, id: RunId, h: Host, target: HostSpec)
    requires Assigns(s, actions, b, id, h, target)
    requires Lookup(At(s, actions, b).cluster.hosts, id.key) == Some(h)
    ensures id.key in At(s, actions, b + 1).cluster.hosts && At(s, actions, b + 1).cluster.hosts[id.key].spec == target
  {
    hide AssignedSpec, Step, Begin;
    var p := At(s, actions, b);
    FreshIsDelivered(p.cluster, id.key, p.runs[id], actions[b].input);
    assert At(s, actions, b + 1) == Next(p, actions[b]);
  }

  /** When the host was read fresh and nobody else has changed it since, it is at the target of the patch, right after
      it and when the NodeConfig becomes Ready. */
  lemma ReadyIsDelivered(s: System, actions: seq<Action>, i: nat, id: RunId, g: NodeConfig,
                         f: nat, a: nat, e: nat, b: nat, h: Host, target: HostSpec)
    requires i < |actions| && Earned(s, actions, i, id, g, f, a, e, b, h, target)
    requires actions[e].input.seen.Current?
    requires forall n: nat :: e <= n <= i && n != b ==> LeavesHost(At(s, actions, n), actions[n], id.key)
    ensures id.key in At(s, actions, b + 1).cluster.hosts && At(s, actions, b + 1).cluster.hosts[id.key].spec == target
    ensures id.key in At(s, actions, i + 1).cluster.hosts && At(s, actions, i + 1).cluster.hosts[id.key].spec == target
  {
    hide At, AssignedSpec, Fulfils, LeavesHost, Assigns;
    HostStays(s, actions, e, b, id.key);
    AssignsFresh(s, actions, b, id, h, target);
    HostStays(s, actions, b + 1, i + 1, id.key);
  }

  /** All together: with fresh reads of the NodeConfig and of the host, and when nobody else has changed either since, the
      stored host carries out the spec of the stored NodeConfig at the moment it becomes Ready. */
  lemma ReadyMeansDelivered(s: System, actions: seq<Action>, i: nat, id: RunId, g: NodeConfig,
                            f: nat, a: nat, e: nat, b: nat, h: Host, target: HostSpec)
    requires i < |actions| && Earned(s, actions, i, id, g, f, a, e, b, h, target)
    requires actions[f].fetch.Current? && forall n: nat :: f <= n <= i ==> LeavesSpec(actions[n], id.key)
    requires actions[e].input.seen.Current?
    requires forall n: nat :: e <= n <= i && n != b ==> LeavesHost(At(s, actions, n), actions[n], id.key)
    requires id.key in At(s, actions, i + 1).cluster.configs
    ensures
      var c := At(s, actions, i + 1).cluster;
      id.key in c.hosts && Fulfils(c.configs[id.key], id.key, h, c.hosts[id.key].spec)
  {
    hide At, Calls, Caller, Resumed, Fulfils, LeavesSpec, LeavesHost;
    ReadyFitsStored(s, actions, i, id, g, f, a, e, b, h, target);
    ReadyIsDelivered(s, actions, i, id, g, f, a, e, b, h, target);
  }

  lemma NextKeepsReady(s: System, a: Action, k: Key)
    requires IsReady(s, k) && k in Next(s, a).cluster.configs
    requires a.StepRun? && a.id in s.runs ==> !s.runs[a.id].before.status.ready
    ensures IsReady(Next(s, a), k)
    ensures Next(s, a).cluster.configs[k].meta.uid == s.cluster.configs[k].meta.uid
  {
    hide Step, Begin, BmcKey;
    if a.StepRun? && a.id in s.runs {
      StepKeepsReady(s.cluster, a.id.key, s.runs[a.id], a.input, k);
    }
  }

  /** A merge of a snapshot that is not Ready cannot take Ready back. */
  lemma StepKeepsReady(c: Cluster, k: Key, r: Run, i: Input, x: Key)
    requires x in c.configs && c.configs[x].status.ready && !r.before.status.ready
    requires x in Step(c, k, r, i).0.configs
    ensures Step(c, k, r, i).0.configs[x].status.ready
    ensures Step(c, k, r, i).0.configs[x].meta.uid == c.configs[x].meta.uid
  {
    hide AssignedSpec, EnsureOwner, MergeHostSpec, BmcKey, Panics;
  }

  /** Ready is stable: while the NodeConfig exists nothing turns it back, not even a patch from a stale snapshot. */
  lemma {:induction false} ReadyIsStable(s: System, actions: seq<Action>, k: Key, i: nat, j: nat)
    requires s.runs == map[] && i <= j <= |actions| && IsReady(At(s, actions, i), k)
    requires forall n: nat :: i <= n <= j ==> k in At(s, actions, n).cluster.configs
    ensures IsReady(At(s, actions, j), k)
    ensures At(s, actions, j).cluster.configs[k].meta.uid == At(s, actions, i).cluster.configs[k].meta.uid
    decreases j
  {
    hide Next, Step, Begin, Explained;
    if i < j {
      ReadyIsStable(s, actions, k, i, j - 1);
      var p, a := At(s, actions, j - 1), actions[j - 1];
      assert k in At(s, actions, j).cluster.configs;
      if a.StepRun? && a.id in p.runs {
        SnapshotNotReady(s, actions, j - 1, a.id);
      }
      NextKeepsReady(p, a, k);
    }
  }

  lemma SnapshotNotReady(s: System, actions: seq<Action>, n: nat, id: RunId)
    requires s.runs == map[] && n <= |actions| && id in At(s, actions, n).runs
    ensures !At(s, actions, n).runs[id].before.status.ready
  {
    hide At, Next, Step, Begin, AssignedSpec;
    AlwaysExplained(s, actions, n, id);
  }

  /** A persisted Ready that was not there from the start has been earned. */
  lemma {:induction false} ReadyHasAPast(s: System, actions: seq<Action>, n: nat, k: Key)
    requires s.runs == map[] && n <= |actions| && !IsReady(s, k) && IsReady(At(s, actions, n), k)
    ensures exists i: nat, id: RunId, g: NodeConfig, f: nat, a: nat, e: nat, b: nat, h: Host, target: HostSpec ::
              i < n && id.key == k && Calls(s, actions, i, id) && Earned(s, actions, i, id, g, f, a, e, b, h, target)
  {
    hide Next, Step, Begin, Earned, Calls;
    if IsReady(At(s, actions, n - 1), k) {
      ReadyHasAPast(s, actions, n - 1, k);
    } else {
      ReadyIsEarned(s, actions, n - 1, k);
    }
  }

  /** A host is deleted only by a run that has found it outside the usable states. */
  lemma DeletesAreJustified(s: System, actions: seq<Action>, i: nat, id: RunId)
    requires s.runs == map[] && Calls(s, actions, i, id) && Caller(s, actions, i, id).pc.RemoveHost?
    ensures exists a: nat, h: Host ::
              && a < i && Finds(s, actions, a, id, h)
              && !Usable(StateText(h.status.provisioningState), StatusText(h.status.operationalStatus))
  {
    hide At, Next, Step, Begin, AssignedSpec, IsAvailable, Usable, StateText, StatusText;
    AlwaysExplained(s, actions, i, id);
    var a: nat, h :| a < i && Finds(s, actions, a, id, h) && !IsAvailable(h);
    AvailableExactly(h);
  }

  /** A host is patched only by a run that has found it usable or has created it. */
  lemma PatchesAreJustified(s: System, actions: seq<Action>, i: nat, id: RunId)
    requires s.runs == map[] && Calls(s, actions, i, id) && Caller(s, actions, i, id).pc.AssignHost?
    ensures
      || (exists a: nat :: a < i && CreatesHost(s, actions, a, id))
      || (exists a: nat, h: Host ::
            && a < i && Finds(s, actions, a, id, h)
            && Usable(StateText(h.status.provisioningState), StatusText(h.status.operationalStatus)))
  {
    hide At, Next, Step, Begin, AssignedSpec, IsAvailable, Usable, StateText, StatusText;
    AlwaysExplained(s, actions, i, id);
    if a: nat, h :| a < i && Finds(s, actions, a, id, h) && IsAvailable(h) {
      AvailableExactly(h);
    }
  }

  /** What a call does to a host that is there before and after it: at most the image, the user data and power-on. */
  lemma HostChanges(c: Cluster, k: Key, r: Run, i: Input, x: Key)
    requires x in c.hosts && x in Step(c, k, r, i).0.hosts
    ensures
      var h, h' := c.hosts[x], Step(c, k, r, i).0.hosts[x];
      && h'.meta == h.meta && h'.status == h.status
      && h'.spec == h.spec.(online := h'.spec.online, image := h'.spec.image, userData := h'.spec.userData)
      && (h'.spec != h.spec ==> x == k && r.pc.AssignHost?)
      && (h'.spec.online != h.spec.online ==> h'.spec.online && r.pc.found.status.provisioningState.Ready?)
  {}

  /** In every execution: a host is switched on, never off, and only by a run that has read it in state "ready". */
  lemma PowerOnIsJustified(s: System, actions: seq<Action>, i: nat, id: RunId, x: Key)
    requires s.runs == map[] && Calls(s, actions, i, id)
    requires x in At(s, actions, i).cluster.hosts && x in At(s, actions, i + 1).cluster.hosts
    requires At(s, actions, i + 1).cluster.hosts[x].spec.online != At(s, actions, i).cluster.hosts[x].spec.online
    ensures x == id.key && At(s, actions, i + 1).cluster.hosts[x].spec.online
    ensures exists a: nat, h: Host :: a < i && Reads(s, actions, a, id, h) && h.status.provisioningState.Ready?
  {
    var p := At(s, actions, i);
    var r := p.runs[id];
    assert At(s, actions, i + 1).cluster == Step(p.cluster, id.key, r, actions[i].input).0;
    hide At, Next, Step, Begin, AssignedSpec;
    HostChanges(p.cluster, id.key, r, actions[i].input, x);
    AlwaysExplained(s, actions, i, id);
  }

  /** Which calls make a host appear or disappear; a new one is powered off. */
  lemma HostsComeAndGo(c: Cluster, k: Key, r: Run, i: Input, x: Key)
    ensures
      var c' := Step(c, k, r, i).0;
      && (x in c.hosts && x !in c'.hosts ==> x == k && r.pc.RemoveHost?)
      && (x !in c.hosts && x in c'.hosts ==> x == k && r.pc.CreateBareMetalHost? && !c'.hosts[x].spec.online)
  {}

  /** What the spec asks of a new host: its BMC's address, its boot mode or else "UEFI", the credentials under the
      NodeConfig's name with "-bmc-secret", no check of certificates, and power off. */
  predicate AskedFor(spec: Spec, k: Key, h: Host) {
    && spec.bmc.Some? && h.meta.owners == []
    && h.spec
       == HostSpec(false, if spec.bmc.value.bootMode == "" then "UEFI" else spec.bmc.value.bootMode, spec.bmc.value.address,
                   k.name + "-bmc-secret", true, None, None)
  }

  /** The credentials are there, with the BMC's user name and password. */
  predicate CredentialsThere(c: Cluster, k: Key, name: string, bmc: BMC) {
    && Key(k.ns, name) in c.secrets
    && c.secrets[Key(k.ns, name)].data == map["username" := bmc.username, "password" := bmc.password]
  }

  lemma HostCreated(c: Cluster, k: Key, r: Run, i: Input, x: Key, spec: Spec)
    requires x !in c.hosts && x in Step(c, k, r, i).0.hosts
    requires Carried(r.pc) in {None, spec.bmc}
    ensures x == k && r.pc.CreateBareMetalHost? && AskedFor(spec, k, Step(c, k, r, i).0.hosts[x])
  {}

  lemma CredentialsCreated(c: Cluster, k: Key, r: Run, i: Input, bmc: BMC)
    requires r.pc == StoreCredentials(bmc) && Step(c, k, r, i).1.pc.CreateBareMetalHost?
    ensures CredentialsThere(Step(c, k, r, i).0, k, k.name + "-bmc-secret", bmc)
  {}

  /** In every execution: a new host is what the spec asks for that the creating run fetched, and the credentials it names
      have been stored, with that spec's user name and password, by that run before. */
  lemma NewHostIsAskedFor(s: System, actions: seq<Action>, i: nat, id: RunId, x: Key)
    requires s.runs == map[] && Calls(s, actions, i, id)
    requires x !in At(s, actions, i).cluster.hosts && x in At(s, actions, i + 1).cluster.hosts
    ensures x == id.key
    ensures exists f: nat, a: nat, g: NodeConfig ::
              && f < i && a < i && Fetches(s, actions, f, id, g) && Calls(s, actions, a, id)
              && AskedFor(g.spec, id.key, At(s, actions, i + 1).cluster.hosts[x])
              && CredentialsThere(At(s, actions, a + 1).cluster, id.key,
                                  At(s, actions, i + 1).cluster.hosts[x].spec.credentialsName, g.spec.bmc.value)
  {
    var p := At(s, actions, i);
    var r := p.runs[id];
    assert At(s, actions, i + 1).cluster == Step(p.cluster, id.key, r, actions[i].input).0;
    hide At, Next, Step, Begin, AssignedSpec, CredentialsThere, Carried;
    AlwaysExplained(s, actions, i, id);
    HostCreated(p.cluster, id.key, r, actions[i].input, x, r.before.spec);
    CarriesItsOwn(r.pc);
    var f: nat :| f < i && Fetches(s, actions, f, id, r.before);
    var a: nat :| a < i && StoresCredentials(s, actions, a, id, r.pc.bmc);
    StoredForHost(s, actions, a, id, r.pc.bmc);
  }

  lemma CarriesItsOwn(pc: Pc)
    requires pc.CreateBareMetalHost?
    ensures Carried(pc) == Some(pc.bmc)
  {}

  lemma StoredForHost(s: System, actions: seq<Action>, a: nat, id: RunId, bmc: BMC)
    requires StoresCredentials(s, actions, a, id, bmc)
    ensures CredentialsThere(At(s, actions, a + 1).cluster, id.key, id.key.name + "-bmc-secret", bmc)
  {
    hide Step, Begin, CredentialsThere;
    var p := At(s, actions, a);
    CredentialsCreated(p.cluster, id.key, p.runs[id], actions[a].input, bmc);
    assert At(s, actions, a + 1) == Next(p, actions[a]);
  }

  /** The operator never changes or removes an existing Secret, whatever its name; so the BMC Secret it creates
      keeps an empty list of owners. */
  lemma SecretsAreWrittenOnce(c: Cluster, k: Key, r: Run, i: Input, x: Key)
    requires x in c.secrets
    ensures x in Step(c, k, r, i).0.secrets && Step(c, k, r, i).0.secrets[x] == c.secrets[x]
  {}

  /** What the operator puts into a Secret: the rendering of the spec that the run fetched, owned by that NodeConfig,
      or that spec's credentials, owned by nobody. */
  predicate HoldsOwnData(s: System, k: Key, x: Key, g: NodeConfig, secret: Secret) {
    || (x == k && secret.data == map["value" := s.render(g.spec)] && secret.meta.owners == [OwnerRef(NodeConfigKind, k.name, g.meta.uid)])
    || (x == BmcKey(k) && g.spec.bmc.Some? && secret.meta.owners == []
        && secret.data == map["username" := g.spec.bmc.value.username, "password" := g.spec.bmc.value.password])
  }

  lemma NewSecret(c: Cluster, k: Key, r: Run, i: Input, x: Key)
    requires x !in c.secrets && x in Step(c, k, r, i).0.secrets
    ensures
      var secret := Step(c, k, r, i).0.secrets[x];
      || (r.pc.StoreCloudInit? && x == k && secret == CloudInitSecret(k, r.config, r.pc.data, i.uid))
      || (r.pc.StoreCredentials? && x == BmcKey(k) && secret == CredentialsSecret(r.pc.bmc, i.uid))
  {}

  lemma StoredDataIsRendered(s: System, actions: seq<Action>, i: nat, id: RunId, x: Key)
    requires s.runs == map[] && Calls(s, actions, i, id)
    requires x !in At(s, actions, i).cluster.secrets && x in At(s, actions, i + 1).cluster.secrets
    ensures exists f: nat, g: NodeConfig ::
              f < i && Fetches(s, actions, f, id, g)
              && HoldsOwnData(s, id.key, x, g, At(s, actions, i + 1).cluster.secrets[x])
  {
    var p := At(s, actions, i);
    var r := p.runs[id];
    assert At(s, actions, i + 1) == Next(p, actions[i]);
    assert Next(p, actions[i]).cluster == Step(p.cluster, id.key, r, actions[i].input).0;
    StoredData(s, actions, i, id, x, Step(p.cluster, id.key, r, actions[i].input).0.secrets[x]);
  }

  lemma StoredData(s: System, actions: seq<Action>, i: nat, id: RunId, x: Key, secret: Secret)
    requires s.runs == map[] && Calls(s, actions, i, id)
    requires
      var p := At(s, actions, i);
      var c' := Step(p.cluster, id.key, p.runs[id], actions[i].input).0;
      x !in p.cluster.secrets && x in c'.secrets && secret == c'.secrets[x]
    ensures exists f: nat, g: NodeConfig ::
              f < i && Fetches(s, actions, f, id, g) && HoldsOwnData(s, id.key, x, g, secret)
  {
    hide At, Next, Step, Begin, AssignedSpec;
    AlwaysExplained(s, actions, i, id);
    var r := Caller(s, actions, i, id);
    NewSecret(At(s, actions, i).cluster, id.key, r, actions[i].input, x);
    var f: nat :| f < i && Fetches(s, actions, f, id, r.before);
    assert HoldsOwnData(s, id.key, x, r.before, secret);
  }

  // ---- what a failure message says ----

  lemma MessageWritten(c: Cluster, k: Key, r: Run, i: Input, x: Key)
    requires x in c.configs && x in Step(c, k, r, i).0.configs
    ensures
      var m, m' := c.configs[x].status.failureMessage, Step(c, k, r, i).0.configs[x].status.failureMessage;
      m' != m ==> x == k && m' == r.config.status.failureMessage && m' != r.before.status.failureMessage
  {
    hide AssignedSpec, EnsureOwner, MergeHostSpec, MergeRef, BmcKey, Panics;
  }

  /** The text that blames a host tells its state. */
  lemma TextTellsState(s: ProvisioningState, t: ProvisioningState)
    requires MessageText(HostUnavailable(s)) == MessageText(HostUnavailable(t))
    ensures s == t
  {
    var prefix := "The found BareMetalHost is not available. BMH.provisioning.state: ";
    SameTail(prefix, StateText(s), StateText(t));
    StateTextIsInjective(s, t);
  }

  lemma SameTail(prefix: string, a: string, b: string)
    requires prefix + a == prefix + b
    ensures a == b
  {
    assert (prefix + a)[|prefix|..] == a && (prefix + b)[|prefix|..] == b;
  }

  /** In every execution: whoever stores a message with the text that blames a host in state `state` has found the host
      unavailable, and in no other state than that. */
  lemma BlameIsDeserved(s: System, actions: seq<Action>, i: nat, id: RunId, x: Key, state: ProvisioningState)
    requires s.runs == map[] && Calls(s, actions, i, id)
    requires x in At(s, actions, i).cluster.configs && x in At(s, actions, i + 1).cluster.configs
    requires
      var m, m' := At(s, actions, i).cluster.configs[x].status.failureMessage, At(s, actions, i + 1).cluster.configs[x].status.failureMessage;
      m' != m && m'.Some? && m'.value.HostUnavailable? && MessageText(m'.value) == MessageText(HostUnavailable(state))
    ensures x == id.key
    ensures exists a: nat, h: Host :: a < i && Finds(s, actions, a, id, h) && !IsUsable(h) && h.status.provisioningState == state
  {
    var p := At(s, actions, i);
    var r := p.runs[id];
    assert At(s, actions, i + 1).cluster == Step(p.cluster, id.key, r, actions[i].input).0;
    hide At, Next, Step, Begin, AssignedSpec, MessageText, IsAvailable, IsUsable;
    MessageWritten(p.cluster, id.key, r, actions[i].input, x);
    AlwaysExplained(s, actions, i, id);
    TextTellsState(r.config.status.failureMessage.value.state, state);
    var a: nat, h :| a < i && Finds(s, actions, a, id, h) && Reports(r.config, h);
    AvailableExactly(h);
  }
}
