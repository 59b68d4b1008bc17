/** Retries are harmless: once the cloud-init Secret of a NodeConfig exists, runs that start later
    can do no more than write the failure message, and all other writes together are bounded by how
    often the Secret comes into being. */
module Bounded {
  import opened Wrappers
  import opened NodeConfigTypes
  import opened Objects
  import opened ApiServer
  import opened Worker
  import opened System
  import opened Lock

  /** The run is still to be refused at the Secret, or has been. */
  predicate Refusable(r: Run) {
    || (r.pc.StoreCloudInit? && r.config == r.before)
    || (r.pc in {DeferredOwners, DeferredStatus} && OnlyReports(r))
    || r.pc.Done?
  }

  /** At most the failure message of NodeConfig `k` differs. */
  predicate OnlyMessage(c: Cluster, c': Cluster, k: Key) {
    && c'.secrets == c.secrets && c'.hosts == c.hosts
    && (c'.configs == c.configs
        || (k in c.configs && c'.configs == c.configs[k := WithMessage(c.configs[k], Some(CloudInitFailed))]))
  }

  /** The call of a run that starts while the Secret exists. */
  lemma RefusedStep(c: Cluster, k: Key, r: Run, i: Input)
    requires Refusable(r) && k in c.secrets
    ensures Refusable(Step(c, k, r, i).1)
    ensures OnlyMessage(c, Step(c, k, r, i).0, k)
  {}

  /** From action `m` on the Secret of `k` is there up to action `n`. */
  predicate Present(s: System, actions: seq<Action>, k: Key, m: nat, n: nat)
    requires n <= |actions|
  {
    forall i: nat :: m <= i <= n ==> k in At(s, actions, i).cluster.secrets
  }

  lemma {:induction false} LateRunsAreRefusable(s: System, actions: seq<Action>, m: nat, n: nat, id: RunId)
    requires m <= n <= |actions| && Present(s, actions, id.key, m, n)
    requires id !in At(s, actions, m).runs && id in At(s, actions, n).runs
    ensures Refusable(At(s, actions, n).runs[id])
    decreases n
  {
    hide Next, Step, Refusable;
    var p, a := At(s, actions, n - 1), actions[n - 1];
    assert At(s, actions, n) == Next(p, a);
    assert m < n;
    RunOrigin(p, a, id);
    if id in p.runs {
      LateRunsAreRefusable(s, actions, m, n - 1, id);
      RefusedOrDone(p.runs[id]);
      if a.StepRun? {
        assert id.key in p.cluster.secrets;
        RefusedStep(p.cluster, id.key, p.runs[id], a.input);
      }
    } else {
      BegunRefusable(p, a, id);
    }
  }

  lemma RefusedOrDone(r: Run)
    ensures Refusable(r.(pc := Done))
  {}

  lemma BegunRefusable(s: System, a: Action, id: RunId)
    requires a.BeginRun? && Begin(s.cluster, id.key, a.fetch, s.render).Some?
    ensures Refusable(Begin(s.cluster, id.key, a.fetch, s.render).value)
  {}

  /** Every call of a run that starts after action `m`, while the Secret is there, changes the failure message at most. */
  lemma RetriesOnlyReport(s: System, actions: seq<Action>, m: nat, n: nat, id: RunId)
    requires m <= n < |actions| && Present(s, actions, id.key, m, n)
    requires id !in At(s, actions, m).runs && id in At(s, actions, n).runs
    requires actions[n].StepRun? && actions[n].id == id
    ensures OnlyMessage(At(s, actions, n).cluster, At(s, actions, n + 1).cluster, id.key)
  {
    hide Step, Refusable, OnlyMessage;
    LateRunsAreRefusable(s, actions, m, n, id);
    var p := At(s, actions, n);
    assert At(s, actions, n + 1) == Next(p, actions[n]);
    RefusedStep(p.cluster, id.key, p.runs[id], actions[n].input);
  }

  // ---- all writes but the report ----

  /** A call of a run for `k` that changes more than the failure message. */
  predicate Writes(s: System, a: Action, k: Key) {
    CallFor(s, a, k) && !OnlyMessage(s.cluster, Next(s, a).cluster, k)
  }

  function WriteCount(s: System, actions: seq<Action>, k: Key, n: nat): nat
    requires n <= |actions|
  {
    if n == 0 then 0
    else WriteCount(s, actions, k, n - 1) + One(Writes(At(s, actions, n - 1), actions[n - 1], k))
  }

  /** How often the cloud-init Secret comes into being among the first `n` actions. */
  function Appearances(s: System, actions: seq<Action>, k: Key, n: nat): nat
    requires n <= |actions|
  {
    if n == 0 then 0
    else Appearances(s, actions, k, n - 1) + One(Appears(At(s, actions, n - 1), actions[n - 1], k))
  }

  lemma {:induction false} AppearancesBalance(s: System, actions: seq<Action>, k: Key, n: nat)
    requires n <= |actions|
    ensures
      Appearances(s, actions, k, n) + One(k in s.cluster.secrets)
      == Deletions(s, actions, k, n) + One(k in At(s, actions, n).cluster.secrets)
  {
    hide Next;
    if n > 0 {
      AppearancesBalance(s, actions, k, n - 1);
    }
  }

  lemma {:induction false} AdmissionsAppear(s: System, actions: seq<Action>, k: Key, n: nat)
    requires n <= |actions|
    ensures Admissions(s, actions, k, n) <= Appearances(s, actions, k, n)
  {
    hide Next, Admits, Appears;
    if n > 0 {
      AdmissionsAppear(s, actions, k, n - 1);
      if Admits(At(s, actions, n - 1), actions[n - 1], k) {
        AdmissionCreates(At(s, actions, n - 1), actions[n - 1], k);
      }
    }
  }

  const EFFECTS := [
    CredentialsCreate, HostCreate, HostDelete, HostPatch, ConfigDelete,
    OwnersPatch, StatusPatch, DeferredOwnersPatch, DeferredStatusPatch]

  lemma EffectListed(e: Effect)
    ensures exists l :: 0 <= l < |EFFECTS| && EFFECTS[l] == e
  {
    match e
    case CredentialsCreate => assert EFFECTS[0] == e;
    case HostCreate => assert EFFECTS[1] == e;
    case HostDelete => assert EFFECTS[2] == e;
    case HostPatch => assert EFFECTS[3] == e;
    case ConfigDelete => assert EFFECTS[4] == e;
    case OwnersPatch => assert EFFECTS[5] == e;
    case StatusPatch => assert EFFECTS[6] == e;
    case DeferredOwnersPatch => assert EFFECTS[7] == e;
    case DeferredStatusPatch => assert EFFECTS[8] == e;
  }

  /** A write is the creation of the cloud-init Secret or one of the calls of an admitted run. */
  lemma WritesAreEffects(c: Cluster, k: Key, r: Run, i: Input)
    requires !OnlyMessage(c, Step(c, k, r, i).0, k)
    ensures (k !in c.secrets && k in Step(c, k, r, i).0.secrets) || exists e :: Makes(r, e)
  {
    hide AssignedSpec, MergeHostSpec, EnsureOwner, BmcKey;
    assert !Makes(r, CredentialsCreate) && !Makes(r, HostCreate) && !Makes(r, HostDelete) && !Makes(r, HostPatch)
           && !Makes(r, ConfigDelete) && !Makes(r, OwnersPatch) && !Makes(r, StatusPatch)
           && !Makes(r, DeferredOwnersPatch) && !Makes(r, DeferredStatusPatch)
           ==> OnlyMessage(c, Step(c, k, r, i).0, k) || (k !in c.secrets && k in Step(c, k, r, i).0.secrets);
  }

  /** The attempts of the first `m` kinds of calls. */
  function AllAttempts(s: System, actions: seq<Action>, k: Key, n: nat, m: nat): nat
    requires n <= |actions| && m <= |EFFECTS|
  {
    if m == 0 then 0 else AllAttempts(s, actions, k, n, m - 1) + AttemptCount(s, actions, k, EFFECTS[m - 1], n)
  }

  lemma {:induction false} AttemptsAddUp(s: System, actions: seq<Action>, k: Key, n: nat, m: nat)
    requires s.runs == map[] && n <= |actions| && m <= |EFFECTS|
    ensures AllAttempts(s, actions, k, n, m) <= m * Admissions(s, actions, k, n)
  {
    hide At, AttemptCount, Admissions;
    if m > 0 {
      AttemptsAddUp(s, actions, k, n, m - 1);
      AttemptsWithinAdmissions(s, actions, k, EFFECTS[m - 1], n);
    }
  }

  /** One more action: the attempts grow by one when it makes a call of the first `m` kinds. */
  lemma {:induction false} AttemptsGrow(s: System, actions: seq<Action>, k: Key, n: nat, m: nat)
    requires 0 < n <= |actions| && m <= |EFFECTS|
    ensures
      AllAttempts(s, actions, k, n, m)
      >= AllAttempts(s, actions, k, n - 1, m)
         + One(exists l :: 0 <= l < m && Attempts(At(s, actions, n - 1), actions[n - 1], k, EFFECTS[l]))
  {
    hide At, Attempts;
    if m > 0 {
      AttemptsGrow(s, actions, k, n, m - 1);
    }
  }

  lemma WriteIsPaidFor(s: System, actions: seq<Action>, k: Key, n: nat)
    requires n < |actions| && Writes(At(s, actions, n), actions[n], k)
    ensures
      || Appears(At(s, actions, n), actions[n], k)
      || exists l :: 0 <= l < |EFFECTS| && Attempts(At(s, actions, n), actions[n], k, EFFECTS[l])
  {
    hide At, Step, OnlyMessage, Makes;
    var p, a := At(s, actions, n), actions[n];
    WritesAreEffects(p.cluster, k, p.runs[a.id], a.input);
    if !Appears(p, a, k) {
      var e :| Makes(p.runs[a.id], e);
      EffectListed(e);
      var l :| 0 <= l < |EFFECTS| && EFFECTS[l] == e;
      assert Attempts(p, a, k, EFFECTS[l]);
    }
  }

  lemma {:induction false} WritesWithinAttempts(s: System, actions: seq<Action>, k: Key, n: nat)
    requires n <= |actions|
    ensures WriteCount(s, actions, k, n) <= Appearances(s, actions, k, n) + AllAttempts(s, actions, k, n, |EFFECTS|)
  {
    hide At, Writes, Appears, Attempts, AllAttempts;
    if n > 0 {
      WritesWithinAttempts(s, actions, k, n - 1);
      AttemptsGrow(s, actions, k, n, |EFFECTS|);
      if Writes(At(s, actions, n - 1), actions[n - 1], k) {
        WriteIsPaidFor(s, actions, k, n - 1);
      }
    }
  }

  /** Bounded effects under unbounded retries: however many runs there are, all writes for a NodeConfig other than the
      failure message are at most ten for each time its cloud-init Secret comes into being. */
  lemma WritesAreBounded(s: System, actions: seq<Action>, k: Key)
    requires s.runs == map[]
    ensures
      WriteCount(s, actions, k, |actions|)
      <= 10 * (Deletions(s, actions, k, |actions|)
               + One(k in Exec(s, actions).cluster.secrets) - One(k in s.cluster.secrets))
  {
    hide At, WriteCount, AllAttempts, Admissions, Appearances, Deletions;
    var n := |actions|;
    WritesWithinAttempts(s, actions, k, n);
    AttemptsAddUp(s, actions, k, n, |EFFECTS|);
    AdmissionsAppear(s, actions, k, n);
    AppearancesBalance(s, actions, k, n);
  }
}
