/** What a run has done and seen by the time it stands where it stands, in any execution. */
module History {
  import opened Wrappers
  import opened NodeConfigTypes
  import opened Objects
  import opened ApiServer
  import opened Worker
  import opened System

  /** Action `i` is a call of run `id`. */
  predicate Calls(s: System, actions: seq<Action>, i: nat, id: RunId) {
    i < |actions| && actions[i].StepRun? && actions[i].id == id && id in At(s, actions, i).runs
  }

  /** The run as it makes that call, and as it goes on. */
  function Caller(s: System, actions: seq<Action>, i: nat, id: RunId): Run
    requires Calls(s, actions, i, id)
  {
    At(s, actions, i).runs[id]
  }

  function Resumed(s: System, actions: seq<Action>, i: nat, id: RunId): Run
    requires Calls(s, actions, i, id)
  {
    Step(At(s, actions, i).cluster, id.key, Caller(s, actions, i, id), actions[i].input).1
  }

  /** At action `i` the run fetches the NodeConfig `g`, not Ready. */
  predicate Fetches(s: System, actions: seq<Action>, i: nat, id: RunId, g: NodeConfig) {
    && i < |actions| && actions[i].BeginRun? && actions[i].id == id && id !in At(s, actions, i).runs
    && Get(At(s, actions, i).cluster.configs, id.key, actions[i].fetch) == Some(Some(g))
    && !g.status.ready
  }

  /** At action `i` the run creates the cloud-init Secret and learns that it did. */
  predicate Admitted(s: System, actions: seq<Action>, i: nat, id: RunId) {
    && Calls(s, actions, i, id)
    && Caller(s, actions, i, id).pc.StoreCloudInit?
    && Resumed(s, actions, i, id).pc.FindHost?
  }

  /** At action `i` the run reads the host `h`, to find out what to do about it. */
  predicate Finds(s: System, actions: seq<Action>, i: nat, id: RunId, h: Host) {
    && Calls(s, actions, i, id)
    && Caller(s, actions, i, id).pc.FindHost?
    && Get(At(s, actions, i).cluster.hosts, id.key, actions[i].input.seen) == Some(Some(h))
  }

  /** At action `i` the run stores the credentials of `bmc` and learns that it did. */
  predicate StoresCredentials(s: System, actions: seq<Action>, i: nat, id: RunId, bmc: BMC) {
    && Calls(s, actions, i, id)
    && Caller(s, actions, i, id).pc == StoreCredentials(bmc)
    && Resumed(s, actions, i, id).pc == CreateBareMetalHost(bmc)
  }

  /** At action `i` the run creates the host and learns that it did. */
  predicate CreatesHost(s: System, actions: seq<Action>, i: nat, id: RunId) {
    && Calls(s, actions, i, id)
    && Caller(s, actions, i, id).pc.CreateBareMetalHost?
    && Resumed(s, actions, i, id).pc.OwnCredentials?
  }

  /** At action `i` the run reads the host `h` again, to associate it. */
  predicate Reads(s: System, actions: seq<Action>, i: nat, id: RunId, h: Host) {
    && Calls(s, actions, i, id)
    && Caller(s, actions, i, id).pc.ReadHost?
    && Get(At(s, actions, i).cluster.hosts, id.key, actions[i].input.seen) == Some(Some(h))
  }

  /** At action `i` the run patches the host towards `target`, from the snapshot `h`, and learns of no failure. The host
      need not be at `target` then: the patch sends only what differs from the snapshot. */
  predicate Assigns(s: System, actions: seq<Action>, i: nat, id: RunId, h: Host, target: HostSpec) {
    && Calls(s, actions, i, id)
    && Caller(s, actions, i, id).pc == AssignHost(h)
    && Resumed(s, actions, i, id).pc.PatchOwners?
    && target == AssignedSpec(h, Caller(s, actions, i, id).config)
  }

  /** Between the creation of the Secret and the final patch. */
  predicate Inside(pc: Pc) {
    3 <= Rank(pc) <= 11
  }

  /** From the creation of the Secret to the end, reports of its failure apart. */
  predicate Engaged(r: Run) {
    Inside(r.pc) || ((r.pc.DeferredOwners? || r.pc.DeferredStatus?) && !OnlyReports(r))
  }

  /** On the way from the decision to use a host to the host patch. */
  predicate Associating(pc: Pc) {
    pc.OwnCredentials? || pc.ReadHost? || pc.AssignHost?
  }

  predicate Removing(pc: Pc) {
    pc.RemoveHost? || pc.RemoveConfig?
  }

  /** The BMC details that a run carries along. */
  function Carried(pc: Pc): Option<BMC> {
    match pc
    case StoreCredentials(bmc) => Some(bmc)
    case CreateBareMetalHost(bmc) => Some(bmc)
    case _ => None
  }

  /** The NodeConfig blames the state of its host. */
  predicate Unavailable(g: NodeConfig) {
    g.status.failureMessage.Some? && g.status.failureMessage.value.HostUnavailable?
  }

  /** It names the state of the host `h`, and `h` is indeed unavailable. */
  predicate Reports(g: NodeConfig, h: Host) {
    !IsAvailable(h) && g.status.failureMessage == Some(HostUnavailable(h.status.provisioningState))
  }

  lemma StepKeeps(c: Cluster, k: Key, r: Run, i: Input)
    ensures
      var r' := Step(c, k, r, i).1;
      && r'.before == r.before
      && r'.config.spec == r.config.spec
      && !r'.pc.StoreCloudInit?
      && Carried(r'.pc) in {None, Carried(r.pc), r.config.spec.bmc}
      && (r'.config.status.userData == r.config.status.userData
          || (r.pc.StoreCloudInit? && r'.config.status.userData == Some(SecretRef(k.name, k.ns))))
      && (r'.config.status.ready == r.config.status.ready || (r.pc.AssignHost? && r'.pc.PatchOwners?))
  {
    hide AssignedSpec, EnsureOwner, MergeHostSpec, MergeStatus, BmcKey;
  }

  lemma StepEnters(c: Cluster, k: Key, r: Run, i: Input)
    ensures
      var r' := Step(c, k, r, i).1;
      && (Inside(r'.pc) ==>
            || Inside(r.pc)
            || (r.pc.StoreCloudInit? && r'.pc.FindHost? && r'.config.status.userData == Some(SecretRef(k.name, k.ns))))
      && (Engaged(r') && (r.pc.StoreCloudInit? ==> r.config == r.before) ==>
            Engaged(r) || (r.pc.StoreCloudInit? && r'.pc.FindHost?))
      && (Unavailable(r'.config) && r'.config.status.failureMessage != r.config.status.failureMessage ==>
            && r.pc.FindHost?
            && Get(c.hosts, k, i.seen).Some? && Get(c.hosts, k, i.seen).value.Some?
            && Reports(r'.config, Get(c.hosts, k, i.seen).value.value))
      && (r'.pc.CreateBareMetalHost? && r.pc != r'.pc ==> r.pc == StoreCredentials(r'.pc.bmc))
      && (r'.pc.AssignHost? && r.pc != r'.pc ==> r.pc.ReadHost? && Get(c.hosts, k, i.seen) == Some(Some(r'.pc.found)))
      && (Removing(r'.pc) && !Removing(r.pc) ==>
            && r.pc.FindHost?
            && Get(c.hosts, k, i.seen).Some? && Get(c.hosts, k, i.seen).value.Some?
            && !IsAvailable(Get(c.hosts, k, i.seen).value.value))
      && (Associating(r'.pc) && !Associating(r.pc) ==>
            || (r.pc.CreateBareMetalHost? && r'.pc.OwnCredentials?)
            || (&& r.pc.FindHost?
                && Get(c.hosts, k, i.seen).Some? && Get(c.hosts, k, i.seen).value.Some?
                && IsAvailable(Get(c.hosts, k, i.seen).value.value)))
  {
    hide AssignedSpec, EnsureOwner, MergeHostSpec, MergeStatus, BmcKey;
  }

  /** Everything a run's position and memory tell about its past. */
  ghost predicate Explained(s: System, actions: seq<Action>, n: nat, id: RunId, r: Run)
    requires n <= |actions|
  {
    && r.config.spec == r.before.spec
    && (exists b: nat :: b < n && Fetches(s, actions, b, id, r.before))
    && (r.pc.StoreCloudInit? ==> r.pc.data == s.render(r.before.spec) && r.config == r.before)
    && Carried(r.pc) in {None, r.before.spec.bmc}
    && (Inside(r.pc) ==> r.config.status.userData == Some(SecretRef(id.key.name, id.key.ns)))
    && (Engaged(r) ==> exists a: nat :: a < n && Admitted(s, actions, a, id))
    && (r.pc.CreateBareMetalHost? ==> exists a: nat :: a < n && StoresCredentials(s, actions, a, id, r.pc.bmc))
    && (r.pc.AssignHost? ==> exists a: nat :: a < n && Reads(s, actions, a, id, r.pc.found))
    && (Removing(r.pc) ==> exists a: nat, h :: a < n && Finds(s, actions, a, id, h) && !IsAvailable(h))
    && (Associating(r.pc) ==>
          || (exists a: nat :: a < n && CreatesHost(s, actions, a, id))
          || (exists a: nat, h :: a < n && Finds(s, actions, a, id, h) && IsAvailable(h)))
    && (Unavailable(r.config) && r.config.status.failureMessage != r.before.status.failureMessage ==>
          exists a: nat, h :: a < n && Finds(s, actions, a, id, h) && Reports(r.config, h))
    && (r.config.status.ready ==>
          var g := WithUserData(r.before, id.key);
          exists a: nat, b: nat, h ::
            a < b < n && Admitted(s, actions, a, id) && Assigns(s, actions, b, id, h, AssignedSpec(h, g)))
  }

  lemma BeginExplained(s: System, actions: seq<Action>, n: nat, id: RunId, r: Run)
    requires n < |actions| && actions[n].BeginRun? && actions[n].id == id && id !in At(s, actions, n).runs
    requires Begin(At(s, actions, n).cluster, id.key, actions[n].fetch, s.render) == Some(r)
    ensures Explained(s, actions, n + 1, id, r)
  {
    hide At, Step;
    assert Fetches(s, actions, n, id, r.before);
  }

  lemma StepExplained(s: System, actions: seq<Action>, n: nat, id: RunId)
    requires Calls(s, actions, n, id) && Explained(s, actions, n, id, Caller(s, actions, n, id))
    ensures Explained(s, actions, n + 1, id, Resumed(s, actions, n, id))
  {
    hide At, Step, AssignedSpec;
    var c, r, i, r' := At(s, actions, n).cluster, Caller(s, actions, n, id), actions[n].input, Resumed(s, actions, n, id);
    StepKeeps(c, id.key, r, i);
    StepEnters(c, id.key, r, i);
    if Engaged(r') && !Engaged(r) {
      assert Admitted(s, actions, n, id);
    }
    if Unavailable(r'.config) && r'.config.status.failureMessage != r.config.status.failureMessage {
      assert Finds(s, actions, n, id, Get(c.hosts, id.key, i.seen).value.value);
    }
    if r'.pc.CreateBareMetalHost? && r.pc != r'.pc {
      assert StoresCredentials(s, actions, n, id, r'.pc.bmc);
    }
    if r'.pc.AssignHost? && r.pc != r'.pc {
      assert Reads(s, actions, n, id, r'.pc.found);
    }
    if Removing(r'.pc) && !Removing(r.pc) {
      assert Finds(s, actions, n, id, Get(c.hosts, id.key, i.seen).value.value);
    }
    if Associating(r'.pc) && !Associating(r.pc) {
      if r.pc.FindHost? {
        assert Finds(s, actions, n, id, Get(c.hosts, id.key, i.seen).value.value);
      } else {
        assert CreatesHost(s, actions, n, id);
      }
    }
    if r'.config.status.ready && !r.config.status.ready {
      AssignedSpecDepends(r.pc.found, r.config, WithUserData(r.before, id.key));
      assert Assigns(s, actions, n, id, r.pc.found, AssignedSpec(r.pc.found, WithUserData(r.before, id.key)));
    }
  }

  lemma RenderStays(s: System, a: Action)
    ensures Next(s, a).render == s.render
  {}

  /** In every execution every run is explained. */
  lemma {:induction false} AlwaysExplained(s: System, actions: seq<Action>, n: nat, id: RunId)
    requires s.runs == map[] && n <= |actions| && id in At(s, actions, n).runs
    ensures At(s, actions, n).render == s.render
    ensures Explained(s, actions, n, id, At(s, actions, n).runs[id])
  {
    hide Next, Step, Begin, Explained;
    RenderAlways(s, actions, n);
    if n > 0 {
      var p, a := At(s, actions, n - 1), actions[n - 1];
      RenderAlways(s, actions, n - 1);
      RunOrigin(p, a, id);
      if id in p.runs {
        AlwaysExplained(s, actions, n - 1, id);
        if a.StepRun? && a.id == id {
          StepExplained(s, actions, n - 1, id);
        }
        LaterExplained(s, actions, n - 1, id, p.runs[id]);
      } else {
        BeginExplained(s, actions, n - 1, id, At(s, actions, n).runs[id]);
      }
    }
  }

  lemma {:induction false} RenderAlways(s: System, actions: seq<Action>, n: nat)
    requires n <= |actions|
    ensures At(s, actions, n).render == s.render
  {
    hide Next;
    if n > 0 {
      RenderAlways(s, actions, n - 1);
      RenderStays(At(s, actions, n - 1), actions[n - 1]);
    }
  }

  lemma LaterExplained(s: System, actions: seq<Action>, n: nat, id: RunId, r: Run)
    requires n < |actions| && Explained(s, actions, n, id, r)
    ensures Explained(s, actions, n + 1, id, r)
    ensures Explained(s, actions, n + 1, id, r.(pc := Done))
  {
    hide At, Step, AssignedSpec;
  }
}
