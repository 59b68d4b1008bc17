/** What goes wrong when a run acts on a NodeConfig or a host that is no longer the stored one: fault-free ways to a
    Ready status that does not mean what it says. */
module Disorder {
  import opened Wrappers
  import opened NodeConfigTypes
  import opened Objects
  import opened ApiServer
  import opened Worker
  import opened System
  import opened Coherence
  import Convergence
  import Solo

  // ---- a run that starts late, from a stale read ----

  /** One whole pass, and after it a run that still reads the NodeConfig as it was before. */
  function LateStart(s: System, k: Key, sched: Schedule): seq<Action>
    requires k in s.cluster.configs
  {
    var a, b := RunId(k, 0), RunId(k, 1);
    Solo.WholeRun(s, a, Current, sched, 0)
    + ([BeginRun(b, Past(Some(s.cluster.configs[k])))] + [Call(b), Call(b), Call(b)])
  }

  /** No two runs overlap and no call fails, and yet: Ready together with a failure message. */
  lemma StaleReadIsIncoherent(s: System, k: Key, sched: Schedule)
    requires s.runs == map[] && k in s.cluster.configs && k !in s.cluster.secrets && k in s.cluster.hosts
    requires s.cluster.configs[k].status == BLANK_STATUS && IsAvailable(s.cluster.hosts[k]) && Convergence.Quiet(sched)
    ensures Idle(Exec(s, Solo.WholeRun(s, RunId(k, 0), Current, sched, 0)), k)
    ensures
      var t := Exec(s, LateStart(s, k, sched));
      && k in t.cluster.configs && t.cluster.configs[k].status.ready
      && t.cluster.configs[k].status.failureMessage == Some(CloudInitFailed)
  {
    hide Exec, Next, AssignedSpec, EnsureOwner, Begin;
    var a, b, g := RunId(k, 0), RunId(k, 1), s.cluster.configs[k];
    var first := Solo.WholeRun(s, a, Current, sched, 0);
    var late := [BeginRun(b, Past(Some(g)))] + [Call(b), Call(b), Call(b)];
    var t := Exec(s, first);
    Solo.LeftAlone(s, a, Current, sched, 0);
    Convergence.UndisturbedPass(s.cluster, k, s.render, sched);
    FirstPass(s, k, sched);
    ExecConcat(s, first, late);
    LateReports(t, k, g);
  }

  lemma FirstPass(s: System, k: Key, sched: Schedule)
    requires k in s.cluster.configs && k !in s.cluster.secrets && k in s.cluster.hosts
    requires !s.cluster.configs[k].status.ready && IsAvailable(s.cluster.hosts[k])
    ensures
      var d := Convergence.PassResult(s.cluster, k, s.render, sched);
      k in d.secrets && k in d.configs && d.configs[k].status.ready
  {
    hide AssignedSpec, EnsureOwner, BmcKey, Panics;
  }

  lemma LateReports(t: System, k: Key, g: NodeConfig)
    requires RunId(k, 1) !in t.runs && k in t.cluster.secrets && g.status == BLANK_STATUS
    requires k in t.cluster.configs && t.cluster.configs[k].status.ready
    ensures
      var b := RunId(k, 1);
      var u := Exec(t, [BeginRun(b, Past(Some(g)))] + [Call(b), Call(b), Call(b)]);
      && k in u.cluster.configs && u.cluster.configs[k].status.ready
      && u.cluster.configs[k].status.failureMessage == Some(CloudInitFailed)
  {
    hide Exec;
    var b, x := RunId(k, 1), Past(Some(g));
    var r := Run(StoreCloudInit(t.render(g.spec)), g, g, false);
    assert [BeginRun(b, x)] + [Call(b), Call(b), Call(b)] == [BeginRun(b, x), Call(b)] + [Call(b), Call(b)];
    ExecConcat(t, [BeginRun(b, x), Call(b)], [Call(b), Call(b)]);
    TwoActions(t, BeginRun(b, x), Call(b));
    var t1 := t.(runs := t.runs[b := r]);
    assert Next(t, BeginRun(b, x)) == t1;
    var t2 := Next(t1, Call(b));
    assert t2.cluster == t.cluster && t2.runs[b] == Run(DeferredOwners, g, WithMessage(g, Some(CloudInitFailed)), true);
    TwoActions(t2, Call(b), Call(b));
    LateReport(t2, k, g, t2.runs[b]);
  }

  // ---- a run that finishes late, over a NodeConfig that has changed since ----

  /** A run up to the successful host patch, the second read of the host turning out as `seen`. */
  function FirstHalfSeeing(k: Key, fetch: Observed<NodeConfig>, seen: Observed<Host>): seq<Action> {
    var a := RunId(k, 0);
    [BeginRun(a, fetch), Call(a), Call(a), StepRun(a, Input(Served, 0, seen)), Call(a)]
  }

  function FirstHalf(k: Key, fetch: Observed<NodeConfig>): seq<Action> {
    FirstHalfSeeing(k, fetch, Current)
  }

  /** Its explicit patch. */
  function Finish(k: Key): seq<Action> {
    [Call(RunId(k, 0)), Call(RunId(k, 0))]
  }

  /** The run is given `g`, the Secret is free and the host available. */
  predicate Starts(s: System, k: Key, fetch: Observed<NodeConfig>, g: NodeConfig) {
    && s.runs == map[] && Get(s.cluster.configs, k, fetch) == Some(Some(g)) && !g.status.ready
    && k !in s.cluster.secrets && k in s.cluster.hosts && IsAvailable(s.cluster.hosts[k])
  }

  /** What a patch towards the target of `g` makes of the hosts, from the snapshot `h`. */
  function Patched(c: Cluster, k: Key, h: Host, g: NodeConfig): map<Key, Host> {
    PatchHost(c, k, h.spec, AssignedSpec(h, WithUserData(g, k)), Served).cluster.hosts
  }

  lemma HalfwaySeeing(s: System, k: Key, fetch: Observed<NodeConfig>, g: NodeConfig, seen: Observed<Host>, h: Host)
    requires Starts(s, k, fetch, g) && Get(s.cluster.hosts, k, seen) == Some(Some(h))
    ensures
      var t := Exec(s, FirstHalfSeeing(k, fetch, seen));
      && t.runs == map[RunId(k, 0) := Run(PatchOwners, g, Convergence.AssociatedConfig(g, k, h.meta.uid), false)]
      && t.cluster.configs == s.cluster.configs
      && t.cluster.hosts == Patched(s.cluster, k, h, g)
  {
    hide At, AssignedSpec, EnsureOwner, MergeHostSpec, Begin, Step, Patched;
    var a, acts := RunId(k, 0), FirstHalfSeeing(k, fetch, seen);
    var r0 := Run(StoreCloudInit(s.render(g.spec)), g, g, false);
    var i := Input(Served, 0, Current);
    StartsHere(s, acts);
    AtNext(s, acts, 0, s);
    var s1 := s.(runs := map[a := r0]);
    assert At(s, acts, 1) == s1 by { Begins(s, k, fetch, g); }
    AtNext(s, acts, 1, s1);
    var (c2, r2) := Step(s.cluster, k, r0, i);
    var s2 := s.(cluster := c2, runs := map[a := r2]);
    AtNext(s, acts, 2, s2);
    var (c3, r3) := Step(c2, k, r2, i);
    var s3 := s.(cluster := c3, runs := map[a := r3]);
    AtNext(s, acts, 3, s3);
    var (c4, r4) := Step(c3, k, r3, Input(Served, 0, seen));
    var s4 := s.(cluster := c4, runs := map[a := r4]);
    AtNext(s, acts, 4, s4);
    FourSteps(s.cluster, k, r0, g, seen, h);
  }

  lemma Halfway(s: System, k: Key, fetch: Observed<NodeConfig>, g: NodeConfig)
    requires Starts(s, k, fetch, g)
    ensures
      var h, t := s.cluster.hosts[k], Exec(s, FirstHalf(k, fetch));
      && t.runs == map[RunId(k, 0) := Run(PatchOwners, g, Convergence.AssociatedConfig(g, k, h.meta.uid), false)]
      && t.cluster.configs == s.cluster.configs
      && t.cluster.hosts == s.cluster.hosts[k := h.(spec := AssignedSpec(h, WithUserData(g, k)))]
  {
    hide At, AssignedSpec, EnsureOwner, MergeHostSpec, FirstHalfSeeing;
    var h := s.cluster.hosts[k];
    HalfwaySeeing(s, k, fetch, g, Current, h);
    Convergence.MergeHostReaches(h.spec, AssignedSpec(h, WithUserData(g, k)));
    assert s.cluster.hosts == s.cluster.hosts[k := h];
  }

  lemma Begins(s: System, k: Key, fetch: Observed<NodeConfig>, g: NodeConfig)
    requires Starts(s, k, fetch, g)
    ensures
      Next(s, BeginRun(RunId(k, 0), fetch))
      == s.(runs := map[RunId(k, 0) := Run(StoreCloudInit(s.render(g.spec)), g, g, false)])
  {}

  lemma FourSteps(c: Cluster, k: Key, r: Run, g: NodeConfig, seen: Observed<Host>, h: Host)
    requires r.pc.StoreCloudInit? && r == Run(r.pc, g, g, false) && k !in c.secrets
    requires k in c.hosts && IsAvailable(c.hosts[k]) && Get(c.hosts, k, seen) == Some(Some(h))
    ensures
      var i := Input(Served, 0, Current);
      var (c2, r2) := Step(c, k, r, i);
      var (c3, r3) := Step(c2, k, r2, i);
      var (c4, r4) := Step(c3, k, r3, Input(Served, 0, seen));
      var (c5, r5) := Step(c4, k, r4, i);
      && r5 == Run(PatchOwners, g, Convergence.AssociatedConfig(g, k, h.meta.uid), false)
      && c5.configs == c.configs
      && c5.hosts == Patched(c, k, h, g)
  {
    hide AssignedSpec, EnsureOwner, MergeHostSpec, MergeStatus, BmcKey, Panics;
    var i := Input(Served, 0, Current);
    var (c2, r2) := Step(c, k, r, i);
    assert r2 == r.(pc := FindHost, config := WithUserData(g, k)) && c2.hosts == c.hosts;
    var (c3, r3) := Step(c2, k, r2, i);
    assert r3 == r2.(pc := ReadHost, config := WithMessage(WithUserData(g, k), None)) && c3 == c2;
    var (c4, r4) := Step(c3, k, r3, Input(Served, 0, seen));
    assert r4 == r3.(pc := AssignHost(h)) && c4 == c2;
    AssignedSpecDepends(h, r3.config, WithUserData(g, k));
  }

  /** The explicit patch, over whatever is stored by then. */
  lemma Finishes(t: System, k: Key)
    requires RunId(k, 0) in t.runs && t.runs[RunId(k, 0)].pc.PatchOwners? && k in t.cluster.configs
    ensures
      var r, g, u := t.runs[RunId(k, 0)], t.cluster.configs[k], Exec(t, Finish(k));
      && k in u.cluster.configs && u.cluster.hosts == t.cluster.hosts
      && u.cluster.configs[k].status == MergeStatus(r.before.status, r.config.status, g.status)
      && u.cluster.configs[k].spec == g.spec && u.cluster.configs[k].meta.uid == g.meta.uid
  {
    hide At, MergeStatus;
    var a := RunId(k, 0);
    TwoActions(t, Call(a), Call(a));
    var t1 := Next(t, Call(a));
    assert t1.runs[a].pc.PatchStatus? && t1.runs[a].before == t.runs[a].before && t1.runs[a].config == t.runs[a].config;
    MergeNothing(t.runs[a].config.status, t.cluster.configs[k].status);
  }

  lemma MergeNothing(b: Status, c: Status)
    ensures MergeStatus(b, b, c) == c
  {}

  /** What is stored after the run, when `change` has put `g'` in the place of the NodeConfig meanwhile. */
  lemma FinishesOver(s: System, k: Key, fetch: Observed<NodeConfig>, g: NodeConfig, change: seq<Action>, g': NodeConfig)
    requires Starts(s, k, fetch, g)
    requires
      var t := Exec(s, FirstHalf(k, fetch));
      var u := Exec(t, change);
      u.runs == t.runs && u.cluster.hosts == t.cluster.hosts && k in u.cluster.configs && u.cluster.configs[k] == g'
    ensures
      var h, t := s.cluster.hosts[k], Exec(s, FirstHalf(k, fetch) + change + Finish(k));
      && k in t.cluster.configs && t.cluster.configs[k].status == MergeStatus(g.status, Convergence.AssociatedConfig(g, k, h.meta.uid).status, g'.status)
      && t.cluster.configs[k].spec == g'.spec && t.cluster.configs[k].meta.uid == g'.meta.uid
      && k in t.cluster.hosts && t.cluster.hosts[k].spec == AssignedSpec(h, WithUserData(g, k))
  {
    hide Exec, FirstHalf, Finish, AssignedSpec, MergeStatus;
    Halfway(s, k, fetch, g);
    ExecConcat(s, FirstHalf(k, fetch), change);
    ExecConcat(s, FirstHalf(k, fetch) + change, Finish(k));
    Finishes(Exec(Exec(s, FirstHalf(k, fetch)), change), k);
  }

  lemma TurnsReady(b: Status, k: Key, c: Status)
    requires !b.ready
    ensures
      var m := MergeStatus(b, Status(true, b.dataSecretName, Some(SecretRef(k.name, k.ns)), b.failureReason, None), c);
      m.ready && (b.userData == Some(SecretRef(k.name, k.ns)) ==> m.userData == c.userData)
  {}

  /** The run was given a stale or never stored NodeConfig: the stored one becomes Ready although its own spec, be it
      what it may, has not been looked at; the host carries out the other. */
  lemma ReadyFromStaleRead(s: System, k: Key, g: NodeConfig)
    requires Starts(s, k, Past(Some(g)), g) && k in s.cluster.configs
    ensures
      var h, t := s.cluster.hosts[k], Exec(s, FirstHalf(k, Past(Some(g))) + [] + Finish(k));
      && k in t.cluster.configs && t.cluster.configs[k].status.ready
      && t.cluster.configs[k].spec == s.cluster.configs[k].spec
      && t.cluster.configs[k].meta.uid == s.cluster.configs[k].meta.uid
      && k in t.cluster.hosts && t.cluster.hosts[k].spec == AssignedSpec(h, WithUserData(g, k))
  {
    hide At, FirstHalf, Finish, AssignedSpec, MergeStatus;
    Halfway(s, k, Past(Some(g)), g);
    Solo.NoActions(Exec(s, FirstHalf(k, Past(Some(g)))));
    FinishesOver(s, k, Past(Some(g)), g, [], s.cluster.configs[k]);
    TurnsReady(g.status, k, s.cluster.configs[k].status);
  }

  /** The spec is edited while the run is on. */
  lemma ReadyDespiteEdit(s: System, k: Key, g: NodeConfig, meta: Meta, spec: Spec)
    requires Starts(s, k, Current, g)
    ensures
      var h, t := s.cluster.hosts[k], Exec(s, FirstHalf(k, Current) + [EditConfig(k, meta, spec)] + Finish(k));
      && k in t.cluster.configs && t.cluster.configs[k].status.ready && t.cluster.configs[k].spec == spec
      && k in t.cluster.hosts && t.cluster.hosts[k].spec == AssignedSpec(h, WithUserData(g, k))
  {
    hide FirstHalf, Finish, AssignedSpec, MergeStatus, Step, Begin;
    Halfway(s, k, Current, g);
    var t := Exec(s, FirstHalf(k, Current));
    var change := [EditConfig(k, meta, spec)];
    OneAction(t, EditConfig(k, meta, spec));
    FinishesOver(s, k, Current, g, change, Next(t, change[0]).cluster.configs[k]);
    TurnsReady(g.status, k, g.status);
  }

  /** The NodeConfig is deleted and created anew while the run is on: the new one, with another uid and spec, becomes
      Ready; and its user data stay empty when the old one had its own already, as after a pass that failed. No two runs
      overlap, every read is fresh and no call fails. */
  lemma ReadyAfterRecreation(s: System, k: Key, g: NodeConfig, meta: Meta, spec: Spec)
    requires Starts(s, k, Current, g)
    ensures
      var h, t := s.cluster.hosts[k], Exec(s, FirstHalf(k, Current) + [DropConfig(k), AddConfig(k, meta, spec)] + Finish(k));
      && k in t.cluster.configs && t.cluster.configs[k].status.ready
      && t.cluster.configs[k].spec == spec && t.cluster.configs[k].meta.uid == meta.uid
      && (g.status.userData == Some(SecretRef(k.name, k.ns)) ==> t.cluster.configs[k].status.userData == None)
      && k in t.cluster.hosts && t.cluster.hosts[k].spec == AssignedSpec(h, WithUserData(g, k))
  {
    hide FirstHalf, Finish, AssignedSpec, MergeStatus, Step, Begin, At;
    Halfway(s, k, Current, g);
    var t := Exec(s, FirstHalf(k, Current));
    TwoActions(t, DropConfig(k), AddConfig(k, meta, spec));
    FinishesOver(s, k, Current, g, [DropConfig(k), AddConfig(k, meta, spec)], NodeConfig(meta, spec, BLANK_STATUS));
    TurnsReady(g.status, k, BLANK_STATUS);
  }

  // ---- a host patched from a stale read ----

  /** The second read still shows, or makes up, a host that is where the patch would bring it: nothing is sent, no host
      changes, and the NodeConfig becomes Ready, whatever the stored host carries. No two runs overlap, the NodeConfig is
      read fresh and left alone, and no call fails. */
  lemma ReadyWithoutDelivery(s: System, k: Key, g: NodeConfig, seen: Host)
    requires Starts(s, k, Current, g) && seen.spec == AssignedSpec(seen, WithUserData(g, k))
    ensures
      var t := Exec(s, FirstHalfSeeing(k, Current, Past(Some(seen))) + Finish(k));
      && k in t.cluster.configs && t.cluster.configs[k].status.ready && t.cluster.hosts == s.cluster.hosts
  {
    hide Exec, FirstHalfSeeing, Finish, AssignedSpec, MergeStatus, MergeHostSpec;
    HalfwaySeeing(s, k, Current, g, Past(Some(seen)), seen);
    ExecConcat(s, FirstHalfSeeing(k, Current, Past(Some(seen))), Finish(k));
    Finishes(Exec(s, FirstHalfSeeing(k, Current, Past(Some(seen)))), k);
    TurnsReady(g.status, k, g.status);
  }

  /** Such a read exists for every NodeConfig with an image, also over a host that has none. */
  lemma DeliveryCanFail(g: NodeConfig, k: Key, h: Host, image: Image)
    requires g.spec.image == Some(image)
    ensures
      var seen := h.(spec := AssignedSpec(h, WithUserData(g, k)));
      seen.spec == AssignedSpec(seen, WithUserData(g, k)) && seen.spec.image.Some?
  {}
}
