/** When a pass returns an error, and what it leaves in the NodeConfig then. */
module Failures {
  import opened Wrappers
  import opened NodeConfigTypes
  import opened Objects
  import opened ApiServer
  import opened Worker
  import opened Convergence

  predicate HostSeen(c: Cluster, k: Key, i: Input) {
    match i.seen
    case Current => k in c.hosts
    case Past(found) => found.Some?
    case Unreadable => false
  }

  /** This call makes the pass return an error. The first read of the host does so only when it shows none and the
      details for a new one are missing; the deferred patch never does. */
  predicate Fatal(c: Cluster, k: Key, r: Run, i: Input) {
    match r.pc
    case StoreCloudInit(_) => !i.fault.Served? || k in c.secrets
    case FindHost => !HostSeen(c, k, i) && !Complete(r.config.spec)
    case StoreCredentials(_) => !i.fault.Served? || Key(k.ns, k.name + "-bmc-secret") in c.secrets
    case CreateBareMetalHost(_) => !i.fault.Served? || k in c.hosts
    case OwnCredentials(_) => false
    case RemoveHost => !i.fault.Served? || k !in c.hosts
    case RemoveConfig => !i.fault.Served? || k !in c.configs
    case ReadHost => !HostSeen(c, k, i)
    case AssignHost(h) => AssignedSpec(h, r.config) != h.spec && (!i.fault.Served? || k !in c.hosts)
    case PatchOwners => r.config.meta.owners != r.before.meta.owners && (!i.fault.Served? || k !in c.configs)
    case PatchStatus => r.config.status != r.before.status && (!i.fault.Served? || k !in c.configs)
    case DeferredOwners => false
    case DeferredStatus => false
    case Done => false
  }

  /** The first such call of a run, and its number. */
  function FirstFatal(c: Cluster, k: Key, r: Run, sched: Schedule, n: nat): Option<(Pc, nat)>
    decreases Rank(r.pc)
  {
    if r.pc.Done? then None
    else if Fatal(c, k, r, sched(n)) then Some((r.pc, n))
    else
      StepAdvances(c, k, r, sched(n));
      var (c', r') := Step(c, k, r, sched(n));
      FirstFatal(c', k, r', sched, n + 1)
  }

  lemma StepErrs(c: Cluster, k: Key, r: Run, i: Input)
    requires Rank(r.pc) >= 4 ==> !r.err
    ensures Step(c, k, r, i).1.err <==> r.err || Fatal(c, k, r, i)
    ensures Rank(Step(c, k, r, i).1.pc) >= 4 ==> !Step(c, k, r, i).1.err
  {
    CompleteExactly(r.config.spec);
    assert BmcKey(k) == Key(k.ns, k.name + "-bmc-secret");
    hide BmcKey, Complete, Panics, IsAvailable, AssignedSpec, EnsureOwner, MergeHostSpec, MergeStatus;
  }

  lemma {:induction false} DriveErrs(c: Cluster, k: Key, r: Run, sched: Schedule, n: nat)
    requires Rank(r.pc) >= 4 ==> !r.err
    ensures Drive(c, k, r, sched, n).1.err <==> r.err || FirstFatal(c, k, r, sched, n).Some?
    decreases Rank(r.pc)
  {
    hide Step, Fatal;
    if !r.pc.Done? {
      StepAdvances(c, k, r, sched(n));
      StepErrs(c, k, r, sched(n));
      var (c', r') := Step(c, k, r, sched(n));
      DriveErrs(c', k, r', sched, n + 1);
    }
  }

  /** For every fate of every call and every cluster: a pass returns an error exactly when the NodeConfig cannot be read,
      or one of its calls is fatal. */
  lemma PassErrsExactly(c: Cluster, k: Key, fetch: Observed<NodeConfig>, render: Renderer, sched: Schedule, n: nat)
    ensures
      var r := Begin(c, k, fetch, render);
      !Pass(c, k, fetch, render, sched, n).ok
      <==> fetch.Unreadable? || (r.Some? && FirstFatal(c, k, r.value, sched, n).Some?)
  {
    hide Drive, FirstFatal;
    var r := Begin(c, k, fetch, render);
    if r.Some? {
      DriveErrs(c, k, r.value, sched, n);
    }
  }

  // ---- what is reported ----

  /** The text for a failure at this call, if it has one of its own. */
  function Complaint(pc: Pc): Option<string> {
    match pc
    case StoreCloudInit(_) => Some("Failed to create a cloudinit config")
    case StoreCredentials(_) => Some("Failed to create BareMetalHost")
    case CreateBareMetalHost(_) => Some("Failed to create BareMetalHost")
    case ReadHost => Some("Failed to associate the NodeConfig to a BaremetalHost")
    case AssignHost(_) => Some("Failed to associate the NodeConfig to a BaremetalHost")
    case _ => None
  }

  function Text(g: NodeConfig): Option<string> {
    if g.status.failureMessage.Some? then Some(MessageText(g.status.failureMessage.value)) else None
  }

  /** The run has changed nothing but the status in memory. */
  predicate OnlyStatus(r: Run) {
    r.config == r.before.(status := r.config.status)
  }

  // The words of the messages, one by one.

  lemma CloudInitWords()
    ensures MessageText(CloudInitFailed) == "Failed to create a cloudinit config"
  {}

  lemma HostWords()
    ensures MessageText(HostNotCreated) == "Failed to create BareMetalHost"
  {}

  lemma AssociationWords()
    ensures MessageText(NotAssociated) == "Failed to associate the NodeConfig to a BaremetalHost"
  {}

  lemma BlameWords(state: ProvisioningState)
    ensures
      MessageText(HostUnavailable(state))
      == "The found BareMetalHost is not available. BMH.provisioning.state: " + StateText(state)
  {
    hide StateText;
  }

  function MessageFor(pc: Pc): Option<Message> {
    if pc.StoreCloudInit? then Some(CloudInitFailed)
    else if pc.StoreCredentials? || pc.CreateBareMetalHost? then Some(HostNotCreated)
    else if pc.ReadHost? || pc.AssignHost? then Some(NotAssociated)
    else None
  }

  lemma MessageForComplaint(pc: Pc)
    ensures Complaint(pc).Some? ==> MessageFor(pc).Some? && Complaint(pc) == Some(MessageText(MessageFor(pc).value))
  {
    hide MessageText;
    CloudInitWords();
    HostWords();
    AssociationWords();
  }

  lemma FatalMessage(c: Cluster, k: Key, r: Run, i: Input)
    requires Fatal(c, k, r, i) && MessageFor(r.pc).Some?
    ensures
      var (c', r') := Step(c, k, r, i);
      c'.configs == c.configs && r' == Fail(r, MessageFor(r.pc).value)
  {
    assert BmcKey(k) == Key(k.ns, k.name + "-bmc-secret");
    hide BmcKey, Panics, IsAvailable, AssignedSpec, EnsureOwner, MergeHostSpec, MergeStatus;
  }

  lemma FatalComplains(c: Cluster, k: Key, r: Run, i: Input)
    requires Fatal(c, k, r, i) && Complaint(r.pc).Some?
    ensures
      var (c', r') := Step(c, k, r, i);
      && c'.configs == c.configs && r'.pc.DeferredOwners? && r'.before == r.before
      && (OnlyStatus(r) ==> OnlyStatus(r')) && Text(r'.config) == Complaint(r.pc)
  {
    hide Step, Fatal, Complaint, MessageFor, MessageText;
    MessageForComplaint(r.pc);
    FatalMessage(c, k, r, i);
  }

  lemma CalmStep(c: Cluster, k: Key, r: Run, i: Input)
    requires !Fatal(c, k, r, i) && Rank(r.pc) > 4 && OnlyStatus(r)
    ensures
      var (c', r') := Step(c, k, r, i);
      || (c'.configs == c.configs && r'.before == r.before && OnlyStatus(r') && Rank(r'.pc) > 4)
      || Quietened(r'.pc)
  {
    CompleteExactly(r.config.spec);
    hide BmcKey, Complete, Panics, IsAvailable, AssignedSpec, EnsureOwner, MergeHostSpec, MergeStatus;
  }

  /** From here on a failure has no text of its own. */
  predicate Quietened(pc: Pc) {
    Rank(pc) <= 4 || pc.RemoveHost? || pc.RemoveConfig?
  }

  lemma {:induction false} NoComplaintLater(c: Cluster, k: Key, r: Run, sched: Schedule, n: nat)
    requires Quietened(r.pc)
    ensures FirstFatal(c, k, r, sched, n).Some? ==> Complaint(FirstFatal(c, k, r, sched, n).value.0).None?
    decreases Rank(r.pc)
  {
    hide Fatal;
    if !r.pc.Done? {
      StepAdvances(c, k, r, sched(n));
      var (c', r') := Step(c, k, r, sched(n));
      StaysQuiet(c, k, r, sched(n));
      hide Step;
      NoComplaintLater(c', k, r', sched, n + 1);
    }
  }

  lemma StaysQuiet(c: Cluster, k: Key, r: Run, i: Input)
    requires Quietened(r.pc)
    ensures Quietened(Step(c, k, r, i).1.pc)
  {}

  /** A failure at the cloud-init Secret, at the creation of the host or at its association is told in the stored
      NodeConfig, in the words for that failure, when the deferred patch goes through and nobody has touched the
      NodeConfig. */
  lemma {:induction false} FailureIsReported(c: Cluster, k: Key, r: Run, sched: Schedule, n: nat, pc: Pc, m: nat)
    requires FirstFatal(c, k, r, sched, n) == Some((pc, m)) && Complaint(pc).Some?
    requires k in c.configs && c.configs[k] == r.before && OnlyStatus(r)
    requires sched(m + 1).fault.Served? && sched(m + 2).fault.Served?
    ensures
      var d := Drive(c, k, r, sched, n).0;
      k in d.configs && Text(d.configs[k]) == Complaint(pc)
    decreases Rank(r.pc)
  {
    hide Fatal, Complaint, Text;
    if Quietened(r.pc) {
      NoComplaintLater(c, k, r, sched, n);
    }
    StepAdvances(c, k, r, sched(n));
    var (c', r') := Step(c, k, r, sched(n));
    DriveStep(c, k, r, sched, n, c', r');
    hide Step;
    if Fatal(c, k, r, sched(n)) {
      FatalComplains(c, k, r, sched(n));
      DeferredPass(c', k, r', sched, n + 1);
    } else {
      CalmStep(c, k, r, sched(n));
      if Quietened(r'.pc) {
        NoComplaintLater(c', k, r', sched, n + 1);
      } else {
        FailureIsReported(c', k, r', sched, n + 1, pc, m);
      }
    }
  }

  // ---- the delete branch ----

  /** A pass up to the decision to remove the host. */
  lemma UntilRemoval(c: Cluster, k: Key, render: Renderer, sched: Schedule)
    requires k in c.configs && !c.configs[k].status.ready && k !in c.secrets && k in c.hosts && !IsUsable(c.hosts[k])
    requires sched(0).fault.Served? && sched(1).seen.Current?
    ensures
      var g := c.configs[k];
      var c1 := c.(secrets := c.secrets[k := CloudInitSecret(k, g, render(g.spec), sched(0).uid)]);
      var blaming := WithMessage(WithUserData(g, k), Some(HostUnavailable(c.hosts[k].status.provisioningState)));
      var (d, r) := Drive(c1, k, Run(RemoveHost, g, blaming, false), sched, 2);
      Pass(c, k, Current, render, sched, 0) == Outcome(d, !r.err)
  {
    AvailableExactly(c.hosts[k]);
    hide IsUsable, IsAvailable, Drive;
    var g := c.configs[k];
    var r := Run(StoreCloudInit(render(g.spec)), g, g, false);
    var c1 := c.(secrets := c.secrets[k := CloudInitSecret(k, g, render(g.spec), sched(0).uid)]);
    var r1 := r.(pc := FindHost, config := WithUserData(g, k));
    DriveStep(c, k, r, sched, 0, c1, r1);
    DriveStep(c1, k, r1, sched, 1, c1, Step(c1, k, r1, sched(1)).1);
  }

  /** The pass found an unusable host, and its delete, or that of the NodeConfig after it, is refused. */
  predicate DeleteRefused(c: Cluster, k: Key, sched: Schedule, refused: nat) {
    && k in c.configs && !c.configs[k].status.ready && k !in c.secrets && k in c.hosts && !IsUsable(c.hosts[k])
    && sched(0).fault.Served? && sched(1).seen.Current? && (refused == 3 ==> sched(2).fault.Served?)
    && sched(refused).fault.Refused? && sched(refused + 1).fault.Served? && sched(refused + 2).fault.Served?
  }

  lemma RemovalRefused(c: Cluster, k: Key, r: Run, sched: Schedule, refused: nat)
    requires r.pc.RemoveHost? && k in c.hosts && InSync(c, k, r) && refused in {2, 3} && (refused == 3 ==> sched(2).fault.Served?)
    requires sched(refused).fault.Refused? && sched(refused + 1).fault.Served? && sched(refused + 2).fault.Served?
    ensures
      var (d, r') := Drive(c, k, r, sched, 2);
      r'.err && d == c.(hosts := if refused == 2 then c.hosts else c.hosts - {k}, configs := c.configs[k := r.config])
  {
    hide Drive, MergeStatus, InSync;
    var failed := r.(pc := DeferredOwners, err := true);
    var c2 := if refused == 2 then c else c.(hosts := c.hosts - {k});
    if refused == 2 {
      DriveStep(c, k, r, sched, 2, c, failed);
    } else {
      DriveStep(c, k, r, sched, 2, c2, r.(pc := RemoveConfig));
      DriveStep(c2, k, r.(pc := RemoveConfig), sched, 3, c2, failed);
    }
    InSyncAnywhere(c, k, r, DeferredOwners, true);
    SameConfigs(c, c2, k, failed);
    DeferredPass(c2, k, failed, sched, refused + 1);
  }

  lemma SameConfigs(c: Cluster, c': Cluster, k: Key, r: Run)
    requires c'.configs == c.configs
    ensures InSync(c', k, r) == InSync(c, k, r)
  {}

  /** Then the NodeConfig stays, and tells the state of its host. */
  lemma RefusedDeleteIsReported(c: Cluster, k: Key, render: Renderer, sched: Schedule, refused: nat)
    requires refused in {2, 3} && DeleteRefused(c, k, sched, refused)
    ensures
      var o := Pass(c, k, Current, render, sched, 0);
      && !o.ok && o.cluster.hosts == (if refused == 2 then c.hosts else c.hosts - {k}) && k in o.cluster.configs
      && Text(o.cluster.configs[k])
         == Some("The found BareMetalHost is not available. BMH.provisioning.state: " + StateText(c.hosts[k].status.provisioningState))
  {
    BlameWords(c.hosts[k].status.provisioningState);
    UntilRemoval(c, k, render, sched);
    hide MessageText, StateText, IsUsable, Drive, Pass;
    var g := c.configs[k];
    var c1 := c.(secrets := c.secrets[k := CloudInitSecret(k, g, render(g.spec), sched(0).uid)]);
    var blaming := WithMessage(WithUserData(g, k), Some(HostUnavailable(c.hosts[k].status.provisioningState)));
    RemovalRefused(c1, k, Run(RemoveHost, g, blaming, false), sched, refused);
  }

  // ---- the explicit patch and the deferred one ----

  lemma PatchStaysInSync(c: Cluster, k: Key, r: Run, f: Fault)
    requires InSync(c, k, r)
    ensures
      var o := PatchConfigOwners(c, k, r.before.meta.owners, r.config.meta.owners, f);
      InSync(o.cluster, k, r) && o.cluster == c.(configs := c.configs[k := o.cluster.configs[k]])
    ensures
      var o := PatchConfigStatus(c, k, r.before.status, r.config.status, f);
      InSync(o.cluster, k, r) && o.cluster == c.(configs := c.configs[k := o.cluster.configs[k]])
  {
    hide MergeStatus;
    MergeStatusEnds(r.before.status, r.config.status);
    assert c.configs == c.configs[k := c.configs[k]];
  }

  /** Whatever becomes of the two calls of the explicit patch, the deferred patch brings the NodeConfig to where the run
      wants it: Ready can be stored by a pass that returns an error. */
  lemma DeferredPatchRepairs(c: Cluster, k: Key, r: Run, sched: Schedule, n: nat)
    requires InSync(c, k, r) && r.pc.PatchOwners? && sched(n + 2).fault.Served? && sched(n + 3).fault.Served?
    ensures Drive(c, k, r, sched, n).0 == c.(configs := c.configs[k := r.config])
  {
    hide Drive, PatchConfigOwners, PatchConfigStatus, InSync;
    PatchStaysInSync(c, k, r, sched(n).fault);
    var o := PatchConfigOwners(c, k, r.before.meta.owners, r.config.meta.owners, sched(n).fault);
    var r1 := r.(pc := PatchStatus, err := !o.ok);
    DriveStep(c, k, r, sched, n, o.cluster, r1);
    PatchStaysInSync(o.cluster, k, r, sched(n + 1).fault);
    var o' := PatchConfigStatus(o.cluster, k, r.before.status, r.config.status, sched(n + 1).fault);
    var r2 := r1.(pc := DeferredOwners, err := r1.err || !o'.ok);
    DriveStep(o.cluster, k, r1, sched, n + 1, o'.cluster, r2);
    InSyncAnywhere(o'.cluster, k, r, DeferredOwners, r2.err);
    DeferredPass(o'.cluster, k, r2, sched, n + 2);
    assert o'.cluster.(configs := o'.cluster.configs[k := r.config]) == c.(configs := c.configs[k := r.config]);
  }
}
