/** The cloud-init Secret works as a lock: creating it admits one run to the host. */
module Lock {
  import opened Objects
  import opened ApiServer
  import opened Worker
  import opened System
  import opened History

  /** Action `a` is a call of a run for `k`. */
  predicate CallFor(s: System, a: Action, k: Key) {
    a.StepRun? && a.id.key == k && a.id in s.runs
  }

  /** A run for `k` gets past the creation of the cloud-init Secret. */
  predicate Admits(s: System, a: Action, k: Key) {
    && CallFor(s, a, k)
    && s.runs[a.id].pc.StoreCloudInit?
    && Step(s.cluster, k, s.runs[a.id], a.input).1.pc == FindHost
  }

  /** The calls with which a run can change the cluster once it has been admitted. */
  datatype Effect =
    | CredentialsCreate | HostCreate | HostDelete | HostPatch | ConfigDelete
    | OwnersPatch | StatusPatch | DeferredOwnersPatch | DeferredStatusPatch

  /** The run stands before that call; a deferred patch that only reports the refusal is none of them. */
  predicate Makes(r: Run, e: Effect) {
    match e
    case CredentialsCreate => r.pc.StoreCredentials?
    case HostCreate => r.pc.CreateBareMetalHost?
    case HostDelete => r.pc.RemoveHost?
    case HostPatch => r.pc.AssignHost?
    case ConfigDelete => r.pc.RemoveConfig?
    case OwnersPatch => r.pc.PatchOwners?
    case StatusPatch => r.pc.PatchStatus?
    case DeferredOwnersPatch => r.pc.DeferredOwners? && !OnlyReports(r)
    case DeferredStatusPatch => r.pc.DeferredStatus? && !OnlyReports(r)
  }

  /** A run for `k` attempts the call, whatever becomes of it. */
  predicate Attempts(s: System, a: Action, k: Key, e: Effect) {
    CallFor(s, a, k) && Makes(s.runs[a.id], e)
  }

  /** The cloud-init Secret of `k` comes into being, or ceases to be. */
  predicate Appears(s: System, a: Action, k: Key) {
    k !in s.cluster.secrets && k in Next(s, a).cluster.secrets
  }

  predicate Vanishes(s: System, a: Action, k: Key) {
    k in s.cluster.secrets && k !in Next(s, a).cluster.secrets
  }

  function One(b: bool): nat {
    if b then 1 else 0
  }

  /** How many of the first `n` actions admit a run, attempt an effect, delete the Secret. */
  function Admissions(s: System, actions: seq<Action>, k: Key, n: nat): nat
    requires n <= |actions|
  {
    if n == 0 then 0
    else Admissions(s, actions, k, n - 1) + One(Admits(At(s, actions, n - 1), actions[n - 1], k))
  }

  function AttemptCount(s: System, actions: seq<Action>, k: Key, e: Effect, n: nat): nat
    requires n <= |actions|
  {
    if n == 0 then 0
    else AttemptCount(s, actions, k, e, n - 1) + One(Attempts(At(s, actions, n - 1), actions[n - 1], k, e))
  }

  function Deletions(s: System, actions: seq<Action>, k: Key, n: nat): nat
    requires n <= |actions|
  {
    if n == 0 then 0
    else Deletions(s, actions, k, n - 1) + One(Vanishes(At(s, actions, n - 1), actions[n - 1], k))
  }

  /** Admission is the atomic creation of the Secret. */
  lemma AdmissionCreates(s: System, a: Action, k: Key)
    requires Admits(s, a, k)
    ensures Appears(s, a, k)
  {}

  /** Between two admissions for one NodeConfig somebody has deleted the Secret. */
  lemma {:induction false} AdmissionsExclude(s: System, actions: seq<Action>, k: Key, i: nat, j: nat)
    requires i < j < |actions|
    requires Admits(At(s, actions, i), actions[i], k) && Admits(At(s, actions, j), actions[j], k)
    ensures exists m :: i < m < j && Vanishes(At(s, actions, m), actions[m], k)
  {
    hide Next;
    AdmissionCreates(At(s, actions, i), actions[i], k);
    AdmissionCreates(At(s, actions, j), actions[j], k);
    LastPresent(s, actions, k, i + 1, j);
  }

  lemma {:induction false} LastPresent(s: System, actions: seq<Action>, k: Key, i: nat, j: nat)
    requires i <= j < |actions|
    requires k in At(s, actions, i).cluster.secrets && k !in At(s, actions, j).cluster.secrets
    ensures exists m :: i <= m < j && Vanishes(At(s, actions, m), actions[m], k)
    decreases j
  {
    hide Next;
    if k in At(s, actions, j - 1).cluster.secrets {
      assert Vanishes(At(s, actions, j - 1), actions[j - 1], k);
    } else {
      LastPresent(s, actions, k, i, j - 1);
    }
  }

  /** The call may still come: the run has been admitted and has not spent its admission on `e`. */
  predicate Ahead(r: Run, e: Effect) {
    match e
    case CredentialsCreate => r.pc.FindHost? || r.pc.StoreCredentials?
    case HostCreate => r.pc.FindHost? || r.pc.StoreCredentials? || r.pc.CreateBareMetalHost?
    case HostDelete => r.pc.FindHost? || r.pc.RemoveHost?
    case HostPatch => 6 <= Rank(r.pc) <= 11 && !Removing(r.pc)
    case ConfigDelete => r.pc.FindHost? || Removing(r.pc)
    case OwnersPatch => 4 <= Rank(r.pc) <= 11 && !Removing(r.pc)
    case StatusPatch => 3 <= Rank(r.pc) <= 11 && !Removing(r.pc)
    case DeferredOwnersPatch => Engaged(r) && !r.pc.DeferredStatus?
    case DeferredStatusPatch => Engaged(r)
  }

  /** Before it is admitted a run has nothing of its own in memory. */
  predicate Unspoilt(r: Run) {
    r.pc.StoreCloudInit? ==> r.config == r.before
  }

  lemma AheadStep(c: Cluster, k: Key, r: Run, i: Input, e: Effect)
    requires Unspoilt(r) && Ahead(Step(c, k, r, i).1, e)
    ensures (Ahead(r, e) && !Makes(r, e)) || (r.pc.StoreCloudInit? && Step(c, k, r, i).1.pc.FindHost?)
  {}

  ghost function Holders(s: System, k: Key, e: Effect): set<RunId> {
    set id | id in s.runs && id.key == k && Ahead(s.runs[id], e)
  }

  lemma HoldersStep(s: System, a: Action, k: Key, e: Effect)
    requires CallFor(s, a, k) ==> Unspoilt(s.runs[a.id])
    ensures
      |Holders(Next(s, a), k, e)| + One(Attempts(s, a, k, e)) <= |Holders(s, k, e)| + One(Admits(s, a, k))
  {
    hide Step, Ahead, Makes, Unspoilt;
    var h, h' := Holders(s, k, e), Holders(Next(s, a), k, e);
    if CallFor(s, a, k) {
      var r := s.runs[a.id];
      var r' := Step(s.cluster, k, r, a.input).1;
      assert h' - {a.id} <= h;
      if Ahead(r', e) {
        AheadStep(s.cluster, k, r, a.input, e);
      }
      MakersAhead(r, e);
      if Admits(s, a, k) {
        assert !Makes(r, e) by { CreatorsMakeNothing(r, e); }
        Shrink(h', h + {a.id});
      } else if Attempts(s, a, k, e) {
        assert a.id in h && a.id !in h';
        Shrink(h', h - {a.id});
      } else {
        Shrink(h', h);
      }
    } else {
      OthersKeepHolders(s, a, k, e);
      Shrink(h', h);
    }
  }

  lemma MakersAhead(r: Run, e: Effect)
    ensures Makes(r, e) ==> Ahead(r, e)
  {}

  lemma CreatorsMakeNothing(r: Run, e: Effect)
    requires r.pc.StoreCloudInit?
    ensures !Makes(r, e)
  {}

  lemma OthersKeepHolders(s: System, a: Action, k: Key, e: Effect)
    requires !CallFor(s, a, k)
    ensures Holders(Next(s, a), k, e) <= Holders(s, k, e)
  {
    hide Next, Step, Begin, Ahead;
    forall id | id in Holders(Next(s, a), k, e)
      ensures id in Holders(s, k, e)
    {
      RunOrigin(s, a, id);
      NothingAhead(Next(s, a).runs[id], e);
      if id !in s.runs {
        BeginsAtLock(s.cluster, k, a.fetch, s.render);
      }
    }
  }

  lemma NothingAhead(r: Run, e: Effect)
    ensures r.pc.Done? || r.pc.StoreCloudInit? ==> !Ahead(r, e)
  {}

  lemma BeginsAtLock(c: Cluster, k: Key, fetch: Observed<NodeConfig>, render: Renderer)
    requires Begin(c, k, fetch, render).Some?
    ensures Begin(c, k, fetch, render).value.pc.StoreCloudInit?
  {}

  lemma Shrink<T>(a: set<T>, b: set<T>)
    requires a <= b
    ensures |a| <= |b|
  {
    if a != {} {
      var x :| x in a;
      Shrink(a - {x}, b - {x});
    }
  }

  lemma AlwaysUnspoilt(s: System, actions: seq<Action>, n: nat, id: RunId)
    requires s.runs == map[] && n <= |actions| && id in At(s, actions, n).runs
    ensures Unspoilt(At(s, actions, n).runs[id])
  {
    hide At, Step, AssignedSpec;
    AlwaysExplained(s, actions, n, id);
  }

  lemma {:induction false} AttemptsWithinAdmissions(s: System, actions: seq<Action>, k: Key, e: Effect, n: nat)
    requires s.runs == map[] && n <= |actions|
    ensures AttemptCount(s, actions, k, e, n) + |Holders(At(s, actions, n), k, e)| <= Admissions(s, actions, k, n)
  {
    hide Next, Admits, Attempts, Explained, Unspoilt;
    if n == 0 {
      assert Holders(s, k, e) == {};
    } else {
      AttemptsWithinAdmissions(s, actions, k, e, n - 1);
      if CallFor(At(s, actions, n - 1), actions[n - 1], k) {
        AlwaysUnspoilt(s, actions, n - 1, actions[n - 1].id);
      }
      HoldersStep(At(s, actions, n - 1), actions[n - 1], k, e);
    }
  }

  lemma {:induction false} AdmissionsWithinLifetimes(s: System, actions: seq<Action>, k: Key, n: nat)
    requires n <= |actions|
    ensures
      Admissions(s, actions, k, n) + One(k in s.cluster.secrets)
      <= Deletions(s, actions, k, n) + One(k in At(s, actions, n).cluster.secrets)
  {
    hide Next, Admits;
    if n > 0 {
      AdmissionsWithinLifetimes(s, actions, k, n - 1);
      if Admits(At(s, actions, n - 1), actions[n - 1], k) {
        AdmissionCreates(At(s, actions, n - 1), actions[n - 1], k);
      }
    }
  }

  /** However many runs, crashes, lost replies and stale reads there are: each kind of call is attempted at most as
      often as the cloud-init Secret comes into being. */
  lemma OncePerSecret(s: System, actions: seq<Action>, k: Key, e: Effect)
    requires s.runs == map[]
    ensures
      AttemptCount(s, actions, k, e, |actions|)
      <= Deletions(s, actions, k, |actions|)
         + One(k in Exec(s, actions).cluster.secrets) - One(k in s.cluster.secrets)
  {
    AttemptsWithinAdmissions(s, actions, k, e, |actions|);
    AdmissionsWithinLifetimes(s, actions, k, |actions|);
  }

  // ---- to which admission an attempt belongs ----

  /** Action `a` admits the run `id`. */
  predicate AdmitsRun(s: System, actions: seq<Action>, a: nat, id: RunId) {
    a < |actions| && Admits(At(s, actions, a), actions[a], id.key) && actions[a].id == id
  }

  /** Whoever attempts one of the calls has been admitted before. */
  lemma AttemptsAreAdmitted(s: System, actions: seq<Action>, i: nat, k: Key, e: Effect)
    requires s.runs == map[] && i < |actions| && Attempts(At(s, actions, i), actions[i], k, e)
    ensures exists a: nat :: a < i && AdmitsRun(s, actions, a, actions[i].id)
  {
    hide At, Next, Step, AssignedSpec;
    var id := actions[i].id;
    AlwaysExplained(s, actions, i, id);
    MakersEngaged(At(s, actions, i).runs[id], e);
    var a: nat :| a < i && Admitted(s, actions, a, id);
    assert AdmitsRun(s, actions, a, id);
  }

  lemma MakersEngaged(r: Run, e: Effect)
    ensures Makes(r, e) ==> Engaged(r)
  {}

  lemma {:induction false} RankFalls(s: System, actions: seq<Action>, i: nat, j: nat, id: RunId)
    requires i <= j <= |actions| && id in At(s, actions, i).runs
    ensures id in At(s, actions, j).runs && Rank(At(s, actions, j).runs[id].pc) <= Rank(At(s, actions, i).runs[id].pc)
    decreases j
  {
    hide Next, Step, Begin;
    if i < j {
      RankFalls(s, actions, i, j - 1, id);
      var p, a := At(s, actions, j - 1), actions[j - 1];
      NextKeepsRuns(p, a);
      RunOrigin(p, a, id);
      if a.StepRun? {
        StepAdvances(p.cluster, id.key, p.runs[id], a.input);
        DoneIsOver(p.cluster, id.key, p.runs[id], a.input);
      }
    }
  }

  lemma DoneIsOver(c: Cluster, k: Key, r: Run, i: Input)
    ensures r.pc == Done ==> Step(c, k, r, i) == (c, r)
  {}

  lemma SameRank(r: Run, r': Run, e: Effect)
    requires Makes(r, e) && Makes(r', e)
    ensures Rank(r.pc) == Rank(r'.pc) && r.pc != Done
  {}

  lemma AttemptAdvances(s: System, a: Action, k: Key, e: Effect)
    requires Attempts(s, a, k, e)
    ensures a.id in Next(s, a).runs && Rank(Next(s, a).runs[a.id].pc) < Rank(s.runs[a.id].pc)
  {
    hide Step, Begin;
    StepAdvances(s.cluster, k, s.runs[a.id], a.input);
    SameRank(s.runs[a.id], s.runs[a.id], e);
  }

  /** No run attempts the same call twice. */
  lemma RunsAttemptOnce(s: System, actions: seq<Action>, i: nat, j: nat, k: Key, e: Effect)
    requires i < j < |actions|
    requires Attempts(At(s, actions, i), actions[i], k, e) && Attempts(At(s, actions, j), actions[j], k, e)
    ensures actions[i].id != actions[j].id
  {
    hide Next, Makes, Rank;
    var id := actions[i].id;
    AttemptAdvances(At(s, actions, i), actions[i], k, e);
    assert At(s, actions, i + 1) == Next(At(s, actions, i), actions[i]);
    RankFalls(s, actions, i + 1, j, id);
    if id == actions[j].id {
      SameRank(At(s, actions, i).runs[id], At(s, actions, j).runs[id], e);
    }
  }

  /** Two attempts of the same call belong to two admissions, and between those the Secret has been deleted. */
  lemma OncePerAdmission(s: System, actions: seq<Action>, i: nat, j: nat, k: Key, e: Effect)
    requires s.runs == map[] && i < j < |actions|
    requires Attempts(At(s, actions, i), actions[i], k, e) && Attempts(At(s, actions, j), actions[j], k, e)
    ensures exists a: nat, b: nat, m: nat ::
              && a < i && b < j && AdmitsRun(s, actions, a, actions[i].id) && AdmitsRun(s, actions, b, actions[j].id)
              && (a < m < b || b < m < a) && Vanishes(At(s, actions, m), actions[m], k)
  {
    hide At, Next, Step, Makes;
    RunsAttemptOnce(s, actions, i, j, k, e);
    AttemptsAreAdmitted(s, actions, i, k, e);
    AttemptsAreAdmitted(s, actions, j, k, e);
    var a: nat :| a < i && AdmitsRun(s, actions, a, actions[i].id);
    var b: nat :| b < j && AdmitsRun(s, actions, b, actions[j].id);
    if a < b {
      AdmissionsExclude(s, actions, k, a, b);
      var m :| a < m < b && Vanishes(At(s, actions, m), actions[m], k);
    } else {
      AdmissionsExclude(s, actions, k, b, a);
      var m :| b < m < a && Vanishes(At(s, actions, m), actions[m], k);
    }
  }
}
