/** When a Ready status is a clean one: exactly which status patches keep it so, and that they all do when the runs for
    a NodeConfig do not overlap, read it fresh, and nobody creates it anew while a run is on. */
module Coherence {
  import opened Wrappers
  import opened NodeConfigTypes
  import opened Objects
  import opened ApiServer
  import opened Worker
  import opened System
  import Serial

  /** Ready goes with no failure message and with the user data of the NodeConfig's own Secret. */
  predicate Coherent(status: Status, k: Key) {
    status.ready ==> status.failureMessage.None? && status.userData == Some(SecretRef(k.name, k.ns))
  }

  /** What a run has in memory at each position, whatever others do. */
  predicate Consistent(k: Key, r: Run) {
    && !r.before.status.ready
    && Coherent(r.config.status, k)
    && r.config.status.userData in {r.before.status.userData, Some(SecretRef(k.name, k.ns))}
    && (Rank(r.pc) > 4 ==> !r.config.status.ready)
    && (3 <= Rank(r.pc) <= 11 ==> r.config.status.userData == Some(SecretRef(k.name, k.ns)))
    && (r.pc.ReadHost? || r.pc.AssignHost? || r.pc.PatchOwners? || r.pc.PatchStatus? ==> r.config.status.failureMessage.None?)
    && (r.pc.PatchOwners? || r.pc.PatchStatus? ==> r.config.status.ready)
  }

  /** A run whose NodeConfig no other run touches: the stored status is the snapshot, until the run has written its own. */
  predicate InStep(c: Cluster, k: Key, r: Run) {
    && Consistent(k, r)
    && (k in c.configs ==>
          || c.configs[k].status == r.before.status
          || ((r.pc.DeferredOwners? || r.pc.DeferredStatus?) && c.configs[k].status == r.config.status))
  }

  lemma StepConsistent(c: Cluster, k: Key, r: Run, i: Input)
    requires Consistent(k, r)
    ensures Consistent(k, Step(c, k, r, i).1)
  {
    hide AssignedSpec, EnsureOwner, MergeHostSpec, MergeStatus, BmcKey, Panics;
  }

  lemma BeginConsistent(c: Cluster, k: Key, fetch: Observed<NodeConfig>, render: Renderer)
    requires Begin(c, k, fetch, render).Some?
    ensures Consistent(k, Begin(c, k, fetch, render).value)
  {}

  // ---- exactly when a status patch keeps the status coherent ----

  /** A patch to Ready meets no message that its snapshot did not have and no user data that have been taken away since;
      a patch of a failed run brings no new message to a status that is Ready by now. */
  predicate Harmless(before: Status, after: Status, current: Status, k: Key) {
    if after.ready then
      && (before.failureMessage.None? ==> current.failureMessage.None?)
      && RefKept(before.userData, Some(SecretRef(k.name, k.ns)), current.userData)
    else current.ready ==> after.failureMessage in {None, before.failureMessage}
  }

  lemma HarmlessExactly(before: Status, after: Status, current: Status, k: Key)
    requires !before.ready && Coherent(after, k) && Coherent(current, k)
    requires after.userData in {before.userData, Some(SecretRef(k.name, k.ns))}
    ensures Coherent(MergeStatus(before, after, current), k) <==> Harmless(before, after, current, k)
  {}

  /** If the action is a status patch for `k` that arrives, it is harmless. */
  predicate DoesNoHarm(s: System, a: Action, k: Key) {
    a.StepRun? && a.id.key == k && a.id in s.runs && !a.input.fault.Refused? && k in s.cluster.configs ==>
      var r := s.runs[a.id];
      (r.pc.PatchStatus? || r.pc.DeferredStatus? ==>
         Harmless(r.before.status, r.config.status, s.cluster.configs[k].status, k))
  }

  predicate StoredCoherent(s: System, k: Key) {
    k in s.cluster.configs ==> Coherent(s.cluster.configs[k].status, k)
  }

  ghost predicate AllConsistent(s: System, k: Key) {
    forall id :: id in s.runs && id.key == k ==> Consistent(k, s.runs[id])
  }

  lemma StaysConsistent(s: System, a: Action, k: Key)
    requires AllConsistent(s, k)
    ensures AllConsistent(Next(s, a), k)
  {
    hide Next, Step, Begin, Coherent;
    forall id | id in Next(s, a).runs && id.key == k
      ensures Consistent(k, Next(s, a).runs[id])
    {
      RunOrigin(s, a, id);
      if id in s.runs {
        if a.StepRun? && a.id == id {
          StepConsistent(s.cluster, k, s.runs[id], a.input);
        }
      } else {
        BeginConsistent(s.cluster, k, a.fetch, s.render);
      }
    }
  }

  lemma PatchCoherentExactly(c: Cluster, k: Key, r: Run, i: Input)
    requires Consistent(k, r) && k in c.configs && Coherent(c.configs[k].status, k)
    requires r.pc.PatchStatus? || r.pc.DeferredStatus?
    ensures
      var c' := Step(c, k, r, i).0;
      k in c'.configs
      && (Coherent(c'.configs[k].status, k)
          <==> i.fault.Refused? || Harmless(r.before.status, r.config.status, c.configs[k].status, k))
  {
    hide MergeStatus;
    HarmlessExactly(r.before.status, r.config.status, c.configs[k].status, k);
  }

  /** Every other call leaves the stored status alone. */
  lemma OnlyPatchesWriteStatus(c: Cluster, k: Key, r: Run, i: Input)
    requires !r.pc.PatchStatus? && !r.pc.DeferredStatus?
    ensures StatusKept(c, Step(c, k, r, i).0, k)
  {
    hide AssignedSpec, EnsureOwner, MergeHostSpec, BmcKey, Panics;
  }

  /** One action of any kind keeps the stored status coherent exactly when it does no harm. */
  lemma NextCoherentExactly(s: System, a: Action, k: Key)
    requires AllConsistent(s, k) && StoredCoherent(s, k)
    ensures StoredCoherent(Next(s, a), k) <==> DoesNoHarm(s, a, k)
  {
    hide Step, Begin, Coherent, Harmless, Consistent;
    if a.StepRun? && a.id.key == k {
      if a.id in s.runs {
        var r := s.runs[a.id];
        if r.pc.PatchStatus? || r.pc.DeferredStatus? {
          if k in s.cluster.configs {
            PatchCoherentExactly(s.cluster, k, r, a.input);
          } else {
            OthersAbsent(s.cluster, k, r, a.input);
          }
        } else {
          OnlyPatchesWriteStatus(s.cluster, k, r, a.input);
        }
      }
    } else if a.AddConfig? && a.key == k {
      BlankIsCoherent(k);
    } else {
      OthersKeepStatus(s, a, k);
    }
  }

  lemma BlankIsCoherent(k: Key)
    ensures Coherent(BLANK_STATUS, k)
  {}

  lemma OthersAbsent(c: Cluster, k: Key, r: Run, i: Input)
    requires k !in c.configs
    ensures k !in Step(c, k, r, i).0.configs
  {
    hide AssignedSpec, EnsureOwner, MergeHostSpec, MergeStatus, BmcKey, Panics;
  }

  lemma {:induction false} ConsistentAlways(s: System, actions: seq<Action>, k: Key, n: nat)
    requires s.runs == map[] && n <= |actions|
    ensures AllConsistent(At(s, actions, n), k)
  {
    hide Next, Consistent;
    if n > 0 {
      ConsistentAlways(s, actions, k, n - 1);
      StaysConsistent(At(s, actions, n - 1), actions[n - 1], k);
    }
  }

  ghost predicate CoherentThroughout(s: System, actions: seq<Action>, k: Key, n: nat)
    requires n <= |actions|
  {
    forall m: nat :: m <= n ==> StoredCoherent(At(s, actions, m), k)
  }

  ghost predicate HarmlessThroughout(s: System, actions: seq<Action>, k: Key, n: nat)
    requires n <= |actions|
  {
    forall i: nat :: i < n ==> DoesNoHarm(At(s, actions, i), actions[i], k)
  }

  lemma OneMoreAction(s: System, actions: seq<Action>, k: Key, n: nat)
    requires 0 < n <= |actions|
    ensures CoherentThroughout(s, actions, k, n) <==> CoherentThroughout(s, actions, k, n - 1) && StoredCoherent(At(s, actions, n), k)
    ensures
      HarmlessThroughout(s, actions, k, n)
      <==> HarmlessThroughout(s, actions, k, n - 1) && DoesNoHarm(At(s, actions, n - 1), actions[n - 1], k)
  {
    hide At, StoredCoherent, DoesNoHarm;
  }

  /** Over whole executions: the stored status is coherent throughout exactly when no action ever does harm. */
  lemma {:induction false} CoherentExactly(s: System, actions: seq<Action>, k: Key, n: nat)
    requires s.runs == map[] && n <= |actions| && StoredCoherent(s, k)
    ensures CoherentThroughout(s, actions, k, n) <==> HarmlessThroughout(s, actions, k, n)
  {
    if n == 0 {
      assert At(s, actions, 0) == s;
    } else {
      hide Next, DoesNoHarm, StoredCoherent, AllConsistent, HarmlessThroughout;
      CoherentExactly(s, actions, k, n - 1);
      OneMoreAction(s, actions, k, n);
      ConsistentAlways(s, actions, k, n - 1);
      if CoherentThroughout(s, actions, k, n - 1) {
        assert StoredCoherent(At(s, actions, n - 1), k);
        NextCoherentExactly(At(s, actions, n - 1), actions[n - 1], k);
      }
    }
  }

  // ---- when nothing does harm ----

  ghost predicate Idle(s: System, k: Key) {
    forall id :: id in s.runs && id.key == k ==> s.runs[id].pc.Done?
  }

  /** No overlap for `k`: a run starts only when the others are over, with a fresh read (or a failed one), and the
      NodeConfig is not created anew while a run is on. */
  ghost predicate Orderly(s: System, a: Action, k: Key) {
    && (a.BeginRun? && a.id.key == k ==> !a.fetch.Past? && Idle(s, k))
    && (a.AddConfig? && a.key == k ==> Idle(s, k))
  }

  /** At most one run for `k` is on, and it is in step. */
  ghost predicate InOrder(s: System, k: Key) {
    && (k in s.cluster.configs ==> Coherent(s.cluster.configs[k].status, k))
    && (forall id :: id in s.runs && id.key == k && !s.runs[id].pc.Done? ==> InStep(s.cluster, k, s.runs[id]))
    && (forall i, j | i in s.runs && j in s.runs && i.key == k && j.key == k ::
          s.runs[i].pc.Done? || s.runs[j].pc.Done? || i == j)
  }

  /** The early calls leave the stored NodeConfig alone. */
  lemma EarlyInStep(c: Cluster, k: Key, r: Run, i: Input)
    requires InStep(c, k, r) && (k in c.configs ==> Coherent(c.configs[k].status, k)) && Rank(r.pc) > 4
    ensures
      var (c', r') := Step(c, k, r, i);
      InStep(c', k, r') && (k in c'.configs ==> Coherent(c'.configs[k].status, k))
  {
    hide Step, InStep, Consistent, Coherent;
    OnlyPatchesWriteStatus(c, k, r, i);
    EarlyRunInStep(c, k, r, i);
    KeptInStep(c, Step(c, k, r, i).0, k, Step(c, k, r, i).1);
  }

  lemma EarlyRunInStep(c: Cluster, k: Key, r: Run, i: Input)
    requires InStep(c, k, r) && Rank(r.pc) > 4
    ensures InStep(c, k, Step(c, k, r, i).1)
  {
    StepConsistent(c, k, r, i);
    hide Consistent, AssignedSpec, EnsureOwner, MergeHostSpec, BmcKey, Panics;
  }

  lemma PatchesInStep(c: Cluster, k: Key, r: Run, i: Input)
    requires InStep(c, k, r) && (k in c.configs ==> Coherent(c.configs[k].status, k)) && 1 <= Rank(r.pc) <= 4
    ensures
      var (c', r') := Step(c, k, r, i);
      (!r'.pc.Done? ==> InStep(c', k, r')) && (k in c'.configs ==> Coherent(c'.configs[k].status, k))
  {
    hide MergeStatus;
    MergeStatusEnds(r.before.status, r.config.status);
  }

  lemma StepInStep(c: Cluster, k: Key, r: Run, i: Input)
    requires InStep(c, k, r) && (k in c.configs ==> Coherent(c.configs[k].status, k)) && !r.pc.Done?
    ensures
      var (c', r') := Step(c, k, r, i);
      (!r'.pc.Done? ==> InStep(c', k, r')) && (k in c'.configs ==> Coherent(c'.configs[k].status, k))
  {
    hide Step, InStep, Consistent, Coherent;
    if Rank(r.pc) > 4 {
      EarlyInStep(c, k, r, i);
    } else {
      PatchesInStep(c, k, r, i);
    }
  }

  /** The stored status of `k` does not change, or `k` disappears. */
  predicate StatusKept(c: Cluster, c': Cluster, k: Key) {
    k in c'.configs ==> k in c.configs && c'.configs[k].status == c.configs[k].status
  }

  lemma KeptInStep(c: Cluster, c': Cluster, k: Key, r: Run)
    requires InStep(c, k, r) && StatusKept(c, c', k)
    ensures InStep(c', k, r)
  {}

  lemma OthersKeepStatus(s: System, a: Action, k: Key)
    requires !(a.StepRun? && a.id.key == k) && !(a.AddConfig? && a.key == k)
    ensures StatusKept(s.cluster, Next(s, a).cluster, k)
  {
    hide Step, Begin, BmcKey;
    if a.StepRun? && a.id in s.runs {
      Serial.StepIsFramed(s.cluster, a.id.key, s.runs[a.id], a.input, k);
      assert Lookup(Next(s, a).cluster.configs, k) == Lookup(s.cluster.configs, k);
    }
  }

  lemma BeginInStep(c: Cluster, k: Key, fetch: Observed<NodeConfig>, render: Renderer)
    requires Begin(c, k, fetch, render).Some? && !fetch.Past?
    ensures InStep(c, k, Begin(c, k, fetch, render).value)
  {}

  lemma NextInOrder(s: System, a: Action, k: Key)
    requires InOrder(s, k) && Orderly(s, a, k)
    ensures InOrder(Next(s, a), k)
  {
    var t := Next(s, a);
    if a.StepRun? && a.id.key == k {
      StepInOrder(s, a, k);
    } else if a.AddConfig? && a.key == k {
      AddInOrder(s, a, k);
    } else {
      OthersInOrder(s, a, k);
    }
  }

  lemma StepInOrder(s: System, a: Action, k: Key)
    requires InOrder(s, k) && a.StepRun? && a.id.key == k
    ensures InOrder(Next(s, a), k)
  {
    hide Step, InStep, Consistent, Coherent;
    if a.id in s.runs {
      if s.runs[a.id].pc.Done? {
        DoneStays(s.cluster, k, s.runs[a.id], a.input);
        assert Next(s, a).runs == s.runs;
      } else {
        StepInStep(s.cluster, k, s.runs[a.id], a.input);
      }
    }
  }

  lemma DoneStays(c: Cluster, k: Key, r: Run, i: Input)
    requires r.pc.Done?
    ensures Step(c, k, r, i) == (c, r)
  {}

  lemma AddInOrder(s: System, a: Action, k: Key)
    requires InOrder(s, k) && Orderly(s, a, k) && a.AddConfig? && a.key == k
    ensures InOrder(Next(s, a), k)
  {
    hide InStep;
  }

  lemma OthersInOrder(s: System, a: Action, k: Key)
    requires InOrder(s, k) && Orderly(s, a, k)
    requires !(a.StepRun? && a.id.key == k) && !(a.AddConfig? && a.key == k)
    ensures InOrder(Next(s, a), k)
  {
    hide Next, Step, Begin, InStep, Coherent;
    OthersKeepStatus(s, a, k);
    var t := Next(s, a);
    forall id | id in t.runs && id.key == k && !t.runs[id].pc.Done?
      ensures InStep(t.cluster, k, t.runs[id])
      ensures id in s.runs || (a.BeginRun? && a.id == id)
      ensures id in s.runs ==> !s.runs[id].pc.Done?
    {
      RunOrigin(s, a, id);
      if id in s.runs {
        KeptInStep(s.cluster, t.cluster, k, s.runs[id]);
      } else {
        BeginInStep(s.cluster, k, a.fetch, s.render);
        KeptInStep(s.cluster, t.cluster, k, t.runs[id]);
      }
    }
  }

  /** Status coherence over whole executions, whatever calls fail and whatever else happens in the cluster. */
  lemma {:induction false} AlwaysCoherent(s: System, actions: seq<Action>, k: Key, n: nat)
    requires n <= |actions| && InOrder(s, k)
    requires forall i: nat :: i < n ==> Orderly(At(s, actions, i), actions[i], k)
    ensures InOrder(At(s, actions, n), k)
    ensures k in At(s, actions, n).cluster.configs ==> Coherent(At(s, actions, n).cluster.configs[k].status, k)
  {
    hide Next, Orderly, Coherent, InStep;
    if n > 0 {
      AlwaysCoherent(s, actions, k, n - 1);
      NextInOrder(At(s, actions, n - 1), actions[n - 1], k);
    }
  }

  /** Two overlapping runs: the second is refused at the Secret, and reports it after the first has finished. */
  function Overlap(k: Key): seq<Action> {
    var a, b := RunId(k, 0), RunId(k, 1);
    [BeginRun(a, Current), BeginRun(b, Current), Call(a), Call(b)] + [Call(a), Call(a), Call(a), Call(a), Call(a)] + [Call(b), Call(b)]
  }

  /** Without order the property fails: fresh reads and no fault at all, and yet Ready together with a failure message. */
  lemma OverlapIsIncoherent(s: System, k: Key)
    requires s.runs == map[] && k in s.cluster.configs && k !in s.cluster.secrets && k in s.cluster.hosts
    requires s.cluster.configs[k].status == BLANK_STATUS && IsAvailable(s.cluster.hosts[k])
    ensures
      var t := Exec(s, Overlap(k));
      && k in t.cluster.configs && t.cluster.configs[k].status.ready
      && t.cluster.configs[k].status.failureMessage == Some(CloudInitFailed)
  {
    hide AssignedSpec, EnsureOwner, MergeHostSpec, At;
    var a, b, acts := RunId(k, 0), RunId(k, 1), Overlap(k);
    var g, h := s.cluster.configs[k], s.cluster.hosts[k];
    var r := Run(StoreCloudInit(s.render(g.spec)), g, g, false);
    assert At(s, acts, 0) == s by { StartsHere(s, acts); }
    AtNext(s, acts, 0, s);
    var s1 := s.(runs := map[a := r]);
    AtNext(s, acts, 1, s1);
    var s2 := s.(runs := map[a := r, b := r]);
    assert At(s, acts, 2) == s2;
    AtNext(s, acts, 2, s2);
    var c3 := CreateSecret(s.cluster, k, CloudInitSecret(k, g, r.pc.data, 0), Served).cluster;
    var ra := r.(pc := FindHost, config := WithUserData(g, k));
    var s3 := s.(cluster := c3, runs := map[a := ra, b := r]);
    assert At(s, acts, 3) == s3;
    AtNext(s, acts, 3, s3);
    var rb := Fail(r, CloudInitFailed);
    var s4 := s3.(runs := map[a := ra, b := rb]);
    assert At(s, acts, 4) == s4;
    SecondHalf(s, acts, k, s4, g, h, ra, rb);
  }

  lemma StartsHere(s: System, actions: seq<Action>)
    ensures At(s, actions, 0) == s
  {}

  lemma SecondHalf(s: System, acts: seq<Action>, k: Key, s4: System, g: NodeConfig, h: Host, ra: Run, rb: Run)
    requires
      var a, b := RunId(k, 0), RunId(k, 1);
      && acts == Overlap(k) && At(s, acts, 4) == s4 && s4.runs == map[a := ra, b := rb]
      && k in s4.cluster.configs && s4.cluster.configs[k] == g && g.status == BLANK_STATUS
      && k in s4.cluster.hosts && s4.cluster.hosts[k] == h && IsAvailable(h)
      && ra == Run(FindHost, g, WithUserData(g, k), false)
      && rb == Run(DeferredOwners, g, WithMessage(g, Some(CloudInitFailed)), true)
    ensures
      var t := Exec(s, acts);
      && k in t.cluster.configs && t.cluster.configs[k].status.ready
      && t.cluster.configs[k].status.failureMessage == Some(CloudInitFailed)
  {
    hide Next, Step, At;
    var a, b := RunId(k, 0), RunId(k, 1);
    AtNext(s, acts, 4, s4);
    AtNext(s, acts, 5, Next(s4, Call(a)));
    var s6 := Next(Next(s4, Call(a)), Call(a));
    AtNext(s, acts, 6, s6);
    HostRead(s4, k, g, h, ra, rb);
    HostAssigned(s6, k, h, rb);
    var s7 := Next(s6, Call(a));
    AtNext(s, acts, 7, s7);
    AtNext(s, acts, 8, Next(s7, Call(a)));
    BothPatched(s7, k, rb);
    var s9 := Next(Next(s7, Call(a)), Call(a));
    AtNext(s, acts, 9, s9);
    AtNext(s, acts, 10, Next(s9, Call(b)));
    LateReport(s9, k, g, rb);
  }

  lemma HostRead(t: System, k: Key, g: NodeConfig, h: Host, ra: Run, rb: Run)
    requires
      && t.runs == map[RunId(k, 0) := ra, RunId(k, 1) := rb]
      && ra == Run(FindHost, g, WithUserData(g, k), false)
      && k in t.cluster.hosts && t.cluster.hosts[k] == h && IsAvailable(h)
    ensures
      var a, b := RunId(k, 0), RunId(k, 1);
      var t' := Next(Next(t, Call(a)), Call(a));
      && a in t'.runs && b in t'.runs && t'.runs[b] == rb && t'.cluster == t.cluster
      && t'.runs[a].pc == AssignHost(h) && t'.runs[a].before == g
  {
    hide AssignedSpec, EnsureOwner, MergeHostSpec, MergeStatus;
    var a := RunId(k, 0);
    var t1 := Next(t, Call(a));
    assert t1.runs[a] == ra.(pc := ReadHost, config := WithMessage(ra.config, None));
  }

  lemma HostAssigned(t: System, k: Key, h: Host, rb: Run)
    requires
      var a, b := RunId(k, 0), RunId(k, 1);
      && a in t.runs && b in t.runs && t.runs[b] == rb && t.runs[a].pc == AssignHost(h)
      && k in t.cluster.configs && k in t.cluster.hosts && t.runs[a].before == t.cluster.configs[k]
    ensures
      var a, b, t' := RunId(k, 0), RunId(k, 1), Next(t, Call(RunId(k, 0)));
      && a in t'.runs && b in t'.runs && t'.runs[b] == rb && t'.runs[a].pc.PatchOwners?
      && t'.runs[a].before == t.runs[a].before && t'.runs[a].config.status.ready && t'.cluster.configs == t.cluster.configs
  {
    hide AssignedSpec, EnsureOwner, MergeHostSpec;
  }

  lemma BothPatched(t: System, k: Key, rb: Run)
    requires
      var a, b := RunId(k, 0), RunId(k, 1);
      && a in t.runs && b in t.runs && t.runs[b] == rb && t.runs[a].pc.PatchOwners?
      && k in t.cluster.configs && t.cluster.configs[k].status == t.runs[a].before.status
      && !t.runs[a].before.status.ready && t.runs[a].config.status.ready
    ensures
      var a, b := RunId(k, 0), RunId(k, 1);
      var t' := Next(Next(t, Call(a)), Call(a));
      b in t'.runs && t'.runs[b] == rb && k in t'.cluster.configs && t'.cluster.configs[k].status.ready
  {
    var a := RunId(k, 0);
    var t1 := Next(t, Call(a));
    assert t1.runs[a].pc.PatchStatus? && t1.runs[a].config == t.runs[a].config && t1.runs[a].before == t.runs[a].before;
    assert t1.cluster.configs[k].status == t.cluster.configs[k].status;
  }

  lemma LateReport(t: System, k: Key, g: NodeConfig, rb: Run)
    requires RunId(k, 1) in t.runs && t.runs[RunId(k, 1)] == rb
    requires rb == Run(DeferredOwners, g, WithMessage(g, Some(CloudInitFailed)), true) && g.status == BLANK_STATUS
    requires k in t.cluster.configs && t.cluster.configs[k].status.ready
    ensures
      var b := RunId(k, 1);
      var t' := Next(Next(t, Call(b)), Call(b));
      && k in t'.cluster.configs && t'.cluster.configs[k].status.ready
      && t'.cluster.configs[k].status.failureMessage == Some(CloudInitFailed)
  {
    var b := RunId(k, 1);
    var t1 := Next(t, Call(b));
    assert t1.runs[b] == rb.(pc := DeferredStatus) && t1.cluster == t.cluster;
  }
}
