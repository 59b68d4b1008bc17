/** Runs for different NodeConfigs do not interfere: any interleaving of their calls ends
    where running them one NodeConfig after the other ends. */
module Serial {
  import opened Wrappers
  import opened NodeConfigTypes
  import opened Objects
  import opened ApiServer
  import opened Worker
  import opened System

  /** What belongs to NodeConfig `k`: the objects under its name and its credentials' name, and its runs. */
  datatype View = View(
    config: Option<NodeConfig>, secret: Option<Secret>, credentials: Option<Secret>, host: Option<Host>)

  function ViewOf(c: Cluster, k: Key): View {
    View(Lookup(c.configs, k), Lookup(c.secrets, k), Lookup(c.secrets, BmcKey(k)), Lookup(c.hosts, k))
  }

  function RunOf(s: System, id: RunId): Option<Run> {
    if id in s.runs then Some(s.runs[id]) else None
  }

  /** Two systems look alike to NodeConfig `k`. */
  ghost predicate Alike(s: System, t: System, k: Key) {
    && s.render == t.render
    && ViewOf(s.cluster, k) == ViewOf(t.cluster, k)
    && forall id: RunId :: id.key == k ==> RunOf(s, id) == RunOf(t, id)
  }

  /** No name of one is the credentials' name of the other. */
  predicate Apart(j: Key, k: Key) {
    j != BmcKey(k) && k != BmcKey(j)
  }

  /** The actions that concern `k`. */
  predicate Relevant(a: Action, k: Key) {
    match a
    case BeginRun(id, _) => id.key == k
    case StepRun(id, _) => id.key == k
    case CrashRun(id) => id.key == k
    case SetHost(x, _) => x == k
    case SetSecret(x, _) => x == k || x == BmcKey(k)
    case AddConfig(x, _, _) => x == k
    case EditConfig(x, _, _) => x == k
    case DropConfig(x) => x == k
  }

  /** A call depends on nothing but what belongs to `k`. */
  ghost predicate StepLocal(c: Cluster, d: Cluster, k: Key, r: Run, i: Input) {
    && Step(c, k, r, i).1 == Step(d, k, r, i).1
    && ViewOf(Step(c, k, r, i).0, k) == ViewOf(Step(d, k, r, i).0, k)
  }

  lemma SecretStepIsLocal(c: Cluster, d: Cluster, k: Key, r: Run, i: Input)
    requires ViewOf(c, k) == ViewOf(d, k) && (r.pc.StoreCloudInit? || r.pc.StoreCredentials? || r.pc.OwnCredentials?)
    ensures StepLocal(c, d, k, r, i)
  {
    BmcKeyDiffers(k);
    hide BmcKey;
  }

  lemma HostStepIsLocal(c: Cluster, d: Cluster, k: Key, r: Run, i: Input)
    requires ViewOf(c, k) == ViewOf(d, k) && (r.pc.CreateBareMetalHost? || r.pc.RemoveHost? || r.pc.AssignHost?)
    ensures StepLocal(c, d, k, r, i)
  {
    hide BmcKey;
  }

  lemma ReadStepIsLocal(c: Cluster, d: Cluster, k: Key, r: Run, i: Input)
    requires ViewOf(c, k) == ViewOf(d, k) && (r.pc.FindHost? || r.pc.ReadHost? || r.pc.Done?)
    ensures StepLocal(c, d, k, r, i)
  {
    hide BmcKey;
  }

  lemma ConfigPatchesAreLocal(c: Cluster, d: Cluster, k: Key, b: NodeConfig, a: NodeConfig, f: Fault)
    requires ViewOf(c, k) == ViewOf(d, k)
    ensures
      var o, o' := PatchConfigOwners(c, k, b.meta.owners, a.meta.owners, f), PatchConfigOwners(d, k, b.meta.owners, a.meta.owners, f);
      o.ok == o'.ok && ViewOf(o.cluster, k) == ViewOf(o'.cluster, k)
    ensures
      var o, o' := PatchConfigStatus(c, k, b.status, a.status, f), PatchConfigStatus(d, k, b.status, a.status, f);
      o.ok == o'.ok && ViewOf(o.cluster, k) == ViewOf(o'.cluster, k)
  {
    hide BmcKey, MergeStatus;
  }

  lemma ConfigStepIsLocal(c: Cluster, d: Cluster, k: Key, r: Run, i: Input)
    requires ViewOf(c, k) == ViewOf(d, k) && (1 <= Rank(r.pc) <= 4 || r.pc.RemoveConfig?)
    ensures StepLocal(c, d, k, r, i)
  {
    hide BmcKey, MergeStatus, PatchConfigOwners, PatchConfigStatus;
    ConfigPatchesAreLocal(c, d, k, r.before, r.config, i.fault);
  }

  lemma StepIsLocal(c: Cluster, d: Cluster, k: Key, r: Run, i: Input)
    requires ViewOf(c, k) == ViewOf(d, k)
    ensures Step(c, k, r, i).1 == Step(d, k, r, i).1
    ensures ViewOf(Step(c, k, r, i).0, k) == ViewOf(Step(d, k, r, i).0, k)
  {
    hide Step, ViewOf;
    if r.pc.StoreCloudInit? || r.pc.StoreCredentials? || r.pc.OwnCredentials? {
      SecretStepIsLocal(c, d, k, r, i);
    } else if r.pc.CreateBareMetalHost? || r.pc.RemoveHost? || r.pc.AssignHost? {
      HostStepIsLocal(c, d, k, r, i);
    } else if r.pc.FindHost? || r.pc.ReadHost? || r.pc.Done? {
      ReadStepIsLocal(c, d, k, r, i);
    } else {
      ConfigStepIsLocal(c, d, k, r, i);
    }
  }

  /** A call changes nothing but what belongs to `k`. */
  lemma StepIsFramed(c: Cluster, k: Key, r: Run, i: Input, x: Key)
    ensures
      var d := Step(c, k, r, i).0;
      && (x != k ==> Lookup(d.configs, x) == Lookup(c.configs, x) && Lookup(d.hosts, x) == Lookup(c.hosts, x))
      && (x != k && x != BmcKey(k) ==> Lookup(d.secrets, x) == Lookup(c.secrets, x))
  {
    hide BmcKey;
  }

  lemma NextIsLocal(s: System, t: System, a: Action, k: Key)
    requires Alike(s, t, k) && Relevant(a, k)
    ensures Alike(Next(s, a), Next(t, a), k)
  {
    BmcKeyDiffers(k);
    hide BmcKey, Step;
    match a
    case BeginRun(id, fetch) =>
      assert RunOf(s, id) == RunOf(t, id);
      assert Begin(s.cluster, k, fetch, s.render) == Begin(t.cluster, k, fetch, t.render);
    case StepRun(id, input) =>
      assert RunOf(s, id) == RunOf(t, id);
      if id in s.runs {
        StepIsLocal(s.cluster, t.cluster, k, s.runs[id], input);
      }
    case CrashRun(id) =>
      assert RunOf(s, id) == RunOf(t, id);
    case _ =>
  }

  lemma NextIsFramed(s: System, a: Action, j: Key, k: Key)
    requires Relevant(a, j) && j != k && Apart(j, k)
    ensures Alike(Next(s, a), s, k)
  {
    if BmcKey(j) == BmcKey(k) {
      BmcKeyInjective(j, k);
    }
    hide BmcKey, Step, Begin;
    if a.StepRun? && a.id in s.runs {
      StepIsFramed(s.cluster, j, s.runs[a.id], a.input, k);
      StepIsFramed(s.cluster, j, s.runs[a.id], a.input, BmcKey(k));
    }
  }

  /** The actions of a trace that concern `k`, in order. */
  function Project(actions: seq<Action>, k: Key): seq<Action> {
    if actions == [] then []
    else
      var n := |actions| - 1;
      Project(actions[..n], k) + (if Relevant(actions[n], k) then [actions[n]] else [])
  }

  lemma ExecLast(s: System, actions: seq<Action>)
    requires actions != []
    ensures
      var n := |actions| - 1;
      Exec(s, actions) == Next(Exec(s, actions[..n]), actions[n])
  {
    hide Next;
    var n := |actions| - 1;
    assert actions == actions[..n] + actions[n..];
    AtPrefix(s, actions[..n], actions[n..], n);
  }

  ghost predicate Concerns(a: Action, keys: set<Key>) {
    exists j :: j in keys && Relevant(a, j)
  }

  /** All actions concern NodeConfigs in `keys`. */
  ghost predicate Covered(actions: seq<Action>, keys: set<Key>) {
    forall i :: 0 <= i < |actions| ==> Concerns(actions[i], keys)
  }

  ghost predicate AllApart(keys: set<Key>) {
    forall j, k :: j in keys && k in keys ==> Apart(j, k)
  }

  /** To NodeConfig `k` the whole interleaving looks like its own actions alone. */
  lemma {:induction false} ProjectionSuffices(s: System, actions: seq<Action>, keys: set<Key>, k: Key)
    requires AllApart(keys) && Covered(actions, keys) && k in keys
    ensures Alike(Exec(s, actions), Exec(s, Project(actions, k)), k)
    decreases |actions|
  {
    hide Next, Relevant, Apart;
    if actions != [] {
      var n := |actions| - 1;
      var rest, a := actions[..n], actions[n];
      assert Concerns(actions[n], keys) && Covered(actions[..n], keys);
      ProjectionSuffices(s, rest, keys, k);
      ExecLast(s, actions);
      if Relevant(a, k) {
        assert Project(actions, k)[..|Project(rest, k)|] == Project(rest, k);
        ExecLast(s, Project(actions, k));
        NextIsLocal(Exec(s, rest), Exec(s, Project(rest, k)), a, k);
      } else {
        var j :| j in keys && Relevant(a, j);
        assert j != k && Apart(j, k);
        NextIsFramed(Exec(s, rest), a, j, k);
        assert Project(actions, k) == Project(rest, k);
      }
    }
  }

  /** The key belongs to a NodeConfig in `keys`. */
  ghost predicate Claimed(x: Key, keys: set<Key>) {
    x in keys || exists k :: k in keys && x == BmcKey(k)
  }

  lemma NextLeavesRest(s: System, a: Action, j: Key, x: Key)
    requires Relevant(a, j)
    ensures
      && Next(s, a).render == s.render
      && (x != j ==> Lookup(Next(s, a).cluster.configs, x) == Lookup(s.cluster.configs, x)
                     && Lookup(Next(s, a).cluster.hosts, x) == Lookup(s.cluster.hosts, x))
      && (x != j && x != BmcKey(j) ==> Lookup(Next(s, a).cluster.secrets, x) == Lookup(s.cluster.secrets, x))
      && (forall id: RunId :: id.key != j ==> RunOf(Next(s, a), id) == RunOf(s, id))
  {
    hide BmcKey, Step, Begin;
    if a.StepRun? && a.id in s.runs {
      StepIsFramed(s.cluster, j, s.runs[a.id], a.input, x);
    }
  }

  /** What belongs to no NodeConfig in `keys` is as it was. */
  lemma {:induction false} RestIsUntouched(s: System, actions: seq<Action>, keys: set<Key>, x: Key)
    requires Covered(actions, keys)
    ensures Exec(s, actions).render == s.render
    ensures x !in keys ==>
              && Lookup(Exec(s, actions).cluster.configs, x) == Lookup(s.cluster.configs, x)
              && Lookup(Exec(s, actions).cluster.hosts, x) == Lookup(s.cluster.hosts, x)
              && forall id: RunId :: id.key == x ==> RunOf(Exec(s, actions), id) == RunOf(s, id)
    ensures !Claimed(x, keys) ==> Lookup(Exec(s, actions).cluster.secrets, x) == Lookup(s.cluster.secrets, x)
    decreases |actions|
  {
    hide Next, Relevant, BmcKey;
    if actions != [] {
      var n := |actions| - 1;
      assert Concerns(actions[n], keys) && Covered(actions[..n], keys);
      RestIsUntouched(s, actions[..n], keys, x);
      ExecLast(s, actions);
      var j :| j in keys && Relevant(actions[n], j);
      NextLeavesRest(Exec(s, actions[..n]), actions[n], j, x);
    }
  }

  lemma SameLookups<T>(m: map<Key, T>, m': map<Key, T>)
    requires forall x :: Lookup(m, x) == Lookup(m', x)
    ensures m == m'
  {
    forall x ensures x in m <==> x in m' {
      assert Lookup(m, x) == Lookup(m', x);
    }
    forall x | x in m ensures m[x] == m'[x] {
      assert Lookup(m, x) == Lookup(m', x);
    }
  }

  /** Two interleavings of the same per-NodeConfig behaviours end in the same state. */
  lemma InterleavingIsIrrelevant(s: System, actions: seq<Action>, actions': seq<Action>, keys: set<Key>)
    requires AllApart(keys) && Covered(actions, keys) && Covered(actions', keys)
    requires forall k :: k in keys ==> Project(actions, k) == Project(actions', k)
    ensures Exec(s, actions) == Exec(s, actions')
  {
    hide Next, Relevant, BmcKey, Exec, Apart, Project;
    var t, t' := Exec(s, actions), Exec(s, actions');
    forall x
      ensures Lookup(t.cluster.configs, x) == Lookup(t'.cluster.configs, x)
      ensures Lookup(t.cluster.hosts, x) == Lookup(t'.cluster.hosts, x)
      ensures Lookup(t.cluster.secrets, x) == Lookup(t'.cluster.secrets, x)
      ensures forall id: RunId :: id.key == x ==> RunOf(t, id) == RunOf(t', id)
    {
      RestIsUntouched(s, actions, keys, x);
      RestIsUntouched(s, actions', keys, x);
      if x in keys {
        ProjectionSuffices(s, actions, keys, x);
        ProjectionSuffices(s, actions', keys, x);
      } else if Claimed(x, keys) {
        var k :| k in keys && x == BmcKey(k);
        ProjectionSuffices(s, actions, keys, k);
        ProjectionSuffices(s, actions', keys, k);
      }
    }
    var anywhere := Key("", "");
    RestIsUntouched(s, actions, keys, anywhere);
    RestIsUntouched(s, actions', keys, anywhere);
    SameLookups(t.cluster.configs, t'.cluster.configs);
    SameLookups(t.cluster.hosts, t'.cluster.hosts);
    SameLookups(t.cluster.secrets, t'.cluster.secrets);
    forall id: RunId
      ensures RunOf(t, id) == RunOf(t', id)
    {
      assert Lookup(t.cluster.configs, id.key) == Lookup(t'.cluster.configs, id.key);
    }
    SameRuns(t, t');
  }

  lemma SameRuns(t: System, t': System)
    requires forall id: RunId :: RunOf(t, id) == RunOf(t', id)
    ensures t.runs == t'.runs
  {
    forall id ensures id in t.runs <==> id in t'.runs {
      assert RunOf(t, id) == RunOf(t', id);
    }
    forall id | id in t.runs ensures t.runs[id] == t'.runs[id] {
      assert RunOf(t, id) == RunOf(t', id);
    }
  }

  /** First everything that concerns `keys[0]`, then everything that concerns `keys[1]`, and so on. */
  function OneByOne(actions: seq<Action>, keys: seq<Key>): seq<Action> {
    if keys == [] then [] else Project(actions, keys[0]) + OneByOne(actions, keys[1..])
  }

  lemma {:induction false} ProjectConcat(a: seq<Action>, b: seq<Action>, k: Key)
    ensures Project(a + b, k) == Project(a, k) + Project(b, k)
    decreases |b|
  {
    hide Relevant;
    if b == [] {
      assert a + b == a;
    } else {
      var n := |b| - 1;
      assert (a + b)[..|a + b| - 1] == a + b[..n];
      ProjectConcat(a, b[..n], k);
    }
  }

  lemma RelevantToOne(a: Action, j: Key, k: Key)
    requires Relevant(a, j) && Relevant(a, k) && Apart(j, k)
    ensures j == k
  {
    if BmcKey(j) == BmcKey(k) {
      BmcKeyInjective(j, k);
    }
  }

  lemma {:induction false} ProjectTwice(actions: seq<Action>, j: Key, k: Key)
    requires Apart(j, k)
    ensures Project(Project(actions, j), k) == if j == k then Project(actions, k) else []
    decreases |actions|
  {
    hide Relevant, Apart;
    if actions != [] {
      var n := |actions| - 1;
      var a, p := actions[n], Project(actions[..n], j);
      ProjectTwice(actions[..n], j, k);
      if Relevant(a, j) {
        assert (p + [a])[..|p|] == p;
        assert Project(actions, j) == p + [a];
        assert Project(p + [a], k) == Project(p, k) + (if Relevant(a, k) then [a] else []);
        if Relevant(a, k) {
          RelevantToOne(a, j, k);
        } else {
          assert Project(Project(actions, j), k) == Project(p, k);
        }
      } else {
        assert Project(actions, j) == p;
      }
    }
  }

  ghost predicate Distinct(keys: seq<Key>) {
    forall i, j :: 0 <= i < j < |keys| ==> keys[i] != keys[j]
  }

  function KeySet(keys: seq<Key>): set<Key> {
    set k | k in keys
  }

  lemma {:induction false} ProjectOneByOne(actions: seq<Action>, keys: seq<Key>, k: Key)
    requires Distinct(keys) && forall j :: j in keys ==> Apart(j, k)
    ensures Project(OneByOne(actions, keys), k) == if k in keys then Project(actions, k) else []
  {
    hide Relevant, Apart;
    if keys != [] {
      assert Distinct(keys[1..]);
      ProjectOneByOne(actions, keys[1..], k);
      ProjectConcat(Project(actions, keys[0]), OneByOne(actions, keys[1..]), k);
      ProjectTwice(actions, keys[0], k);
      assert k in keys <==> k == keys[0] || k in keys[1..];
      if k == keys[0] {
        assert k !in keys[1..];
      }
    }
  }

  lemma {:induction false} ProjectIsRelevant(actions: seq<Action>, k: Key)
    ensures forall i :: 0 <= i < |Project(actions, k)| ==> Relevant(Project(actions, k)[i], k)
    decreases |actions|
  {
    hide Relevant;
    if actions != [] {
      ProjectIsRelevant(actions[..|actions| - 1], k);
    }
  }

  lemma {:induction false} OneByOneCovered(actions: seq<Action>, keys: seq<Key>, all: set<Key>)
    requires forall k :: k in keys ==> k in all
    ensures Covered(OneByOne(actions, keys), all)
  {
    hide Relevant;
    if keys != [] {
      OneByOneCovered(actions, keys[1..], all);
      ProjectIsRelevant(actions, keys[0]);
      var first, rest := Project(actions, keys[0]), OneByOne(actions, keys[1..]);
      forall i | 0 <= i < |first + rest|
        ensures Concerns((first + rest)[i], all)
      {
        if i < |first| {
          assert keys[0] in all && Relevant((first + rest)[i], keys[0]);
        }
      }
    }
  }

  /** Serialisability: however the calls of runs for distinct NodeConfigs interleave, the outcome is that of
      serving one NodeConfig after the other. */
  lemma Serialisable(s: System, actions: seq<Action>, keys: seq<Key>)
    requires Distinct(keys) && AllApart(KeySet(keys)) && Covered(actions, KeySet(keys))
    ensures Exec(s, actions) == Exec(s, OneByOne(actions, keys))
  {
    hide Relevant, Next, Exec, Apart, Project, OneByOne;
    OneByOneCovered(actions, keys, KeySet(keys));
    forall k | k in KeySet(keys)
      ensures Project(actions, k) == Project(OneByOne(actions, keys), k)
    {
      ProjectOneByOne(actions, keys, k);
    }
    InterleavingIsIrrelevant(s, actions, OneByOne(actions, keys), KeySet(keys));
  }

  // ---- the condition on names is exact ----

  /** A run for `k` up to its credentials. */
  function UpToCredentials(k: Key): seq<Action> {
    var a := RunId(k, 0);
    [BeginRun(a, Current), Call(a)] + [Call(a), Call(a)]
  }

  /** A run for `k` up to its cloud-init Secret. */
  function UpToCloudInit(k: Key): seq<Action> {
    [BeginRun(RunId(k, 0), Current), Call(RunId(k, 0))]
  }

  predicate Unready(s: System, k: Key) {
    k in s.cluster.configs && !s.cluster.configs[k].status.ready && RunId(k, 0) !in s.runs
  }

  /** The cloud-init Secret is created, or left alone if there is a Secret of that name. */
  lemma CloudInitStored(s: System, k: Key)
    requires Unready(s, k)
    ensures
      var t, g := Exec(s, UpToCloudInit(k)), s.cluster.configs[k];
      && t.cluster.configs == s.cluster.configs && t.cluster.hosts == s.cluster.hosts && t.render == s.render
      && t.cluster.secrets
         == (if k in s.cluster.secrets then s.cluster.secrets
             else s.cluster.secrets[k := CloudInitSecret(k, g, s.render(g.spec), 0)])
      && t.runs.Keys == s.runs.Keys + {RunId(k, 0)}
      && (k !in s.cluster.secrets ==> t.runs[RunId(k, 0)] == Run(FindHost, g, WithUserData(g, k), false))
  {
    hide BmcKey, At;
    TwoActions(s, BeginRun(RunId(k, 0), Current), Call(RunId(k, 0)));
  }

  /** So are the credentials after it. */
  lemma CredentialsStored(s: System, k: Key)
    requires Unready(s, k) && k !in s.cluster.secrets && k !in s.cluster.hosts && !Panics(s.cluster.configs[k].spec)
    ensures
      var t, bmc := Exec(s, UpToCredentials(k)), s.cluster.configs[k].spec.bmc.value;
      && BmcKey(k) in t.cluster.secrets
      && t.cluster.secrets[BmcKey(k)]
         == (if BmcKey(k) in s.cluster.secrets then s.cluster.secrets[BmcKey(k)] else CredentialsSecret(bmc, 0))
      && t.cluster.configs == s.cluster.configs && t.runs.Keys == s.runs.Keys + {RunId(k, 0)}
  {
    BmcKeyDiffers(k);
    hide BmcKey, At;
    var a := RunId(k, 0);
    ExecConcat(s, UpToCloudInit(k), [Call(a), Call(a)]);
    CloudInitStored(s, k);
    var t := Exec(s, UpToCloudInit(k));
    TwoActions(t, Call(a), Call(a));
    assert Next(t, Call(a)).runs[a].pc == StoreCredentials(s.cluster.configs[k].spec.bmc.value);
  }

  /** Two NodeConfigs, one named like the other one's credentials; nothing has been made for them yet. */
  predicate Clash(s: System, k: Key) {
    && s.runs == map[] && Unready(s, k) && Unready(s, BmcKey(k)) && !Panics(s.cluster.configs[k].spec)
    && k !in s.cluster.hosts && k !in s.cluster.secrets && BmcKey(k) !in s.cluster.secrets
  }

  /** With fresh reads and no fault they race: the Secret under the common name depends on which run comes first. */
  lemma ClashingNamesRace(s: System, k: Key)
    requires Clash(s, k)
    ensures
      Exec(s, UpToCredentials(k) + UpToCloudInit(BmcKey(k))) != Exec(s, UpToCloudInit(BmcKey(k)) + UpToCredentials(k))
  {
    BmcKeyDiffers(k);
    hide BmcKey, Exec, UpToCredentials, UpToCloudInit;
    var j := BmcKey(k);
    var first, second := UpToCredentials(k), UpToCloudInit(j);
    ExecConcat(s, first, second);
    ExecConcat(s, second, first);
    CredentialsStored(s, k);
    CloudInitStored(Exec(s, first), j);
    CloudInitStored(s, j);
    CredentialsStored(Exec(s, second), k);
    var data, data' := Exec(s, first + second).cluster.secrets[j].data, Exec(s, second + first).cluster.secrets[j].data;
    assert "username" in data && "username" !in data' by {
      assert |"username"| != |"value"|;
    }
  }

  lemma {:induction false} ProjectOwn(actions: seq<Action>, j: Key, k: Key)
    requires forall i :: 0 <= i < |actions| ==> (actions[i].BeginRun? || actions[i].StepRun?) && actions[i].id.key == j
    ensures Project(actions, k) == if j == k then actions else []
    decreases |actions|
  {
    if actions != [] {
      var n := |actions| - 1;
      ProjectOwn(actions[..n], j, k);
      assert actions == actions[..n] + [actions[n]];
    }
  }

  lemma {:induction false} SameProjections(actions: seq<Action>, actions': seq<Action>, keys: seq<Key>)
    requires forall k :: k in keys ==> Project(actions, k) == Project(actions', k)
    ensures OneByOne(actions, keys) == OneByOne(actions', keys)
  {
    hide Project;
    if keys != [] {
      assert keys[0] in keys;
      SameProjections(actions, actions', keys[1..]);
    }
  }

  /** The two orders of two traces for different NodeConfigs are the same one by one. */
  lemma OrdersAgree(first: seq<Action>, second: seq<Action>, j: Key, k: Key, keys: seq<Key>)
    requires j != k
    requires forall i :: 0 <= i < |first| ==> (first[i].BeginRun? || first[i].StepRun?) && first[i].id.key == j
    requires forall i :: 0 <= i < |second| ==> (second[i].BeginRun? || second[i].StepRun?) && second[i].id.key == k
    ensures OneByOne(first + second, keys) == OneByOne(second + first, keys)
  {
    forall x | x in keys
      ensures Project(first + second, x) == Project(second + first, x)
    {
      ProjectConcat(first, second, x);
      ProjectConcat(second, first, x);
      ProjectOwn(first, j, x);
      ProjectOwn(second, k, x);
    }
    SameProjections(first + second, second + first, keys);
  }

  /** The trace ends where serving one NodeConfig after the other ends. */
  ghost predicate Serialises(s: System, actions: seq<Action>, keys: seq<Key>) {
    Covered(actions, KeySet(keys)) ==> Exec(s, actions) == Exec(s, OneByOne(actions, keys))
  }

  /** A state in which the two NodeConfigs have just been created. */
  function Colliding(k: Key): System {
    var spec := Spec(Some(BMC("", "", "", "", "")), Some(Image("", "", "")), [], [], [], None);
    var g, g' := NodeConfig(Meta(1, []), spec, BLANK_STATUS), NodeConfig(Meta(2, []), spec, BLANK_STATUS);
    System(Cluster(map[k := g, BmcKey(k) := g'], map[], map[]), map[], _ => "")
  }

  lemma CollidingClash(k: Key)
    ensures Clash(Colliding(k), k)
  {
    BmcKeyDiffers(k);
  }

  lemma ClashIsNotSerial(keys: seq<Key>, k: Key)
    requires k in keys && BmcKey(k) in keys
    ensures exists s: System, actions: seq<Action> :: s.runs == map[] && !Serialises(s, actions, keys)
  {
    BmcKeyDiffers(k);
    hide BmcKey, Exec, OneByOne;
    var j, s := BmcKey(k), Colliding(k);
    var first, second := UpToCredentials(k), UpToCloudInit(j);
    CollidingClash(k);
    ClashingNamesRace(s, k);
    OrdersAgree(first, second, k, j, keys);
    forall i | 0 <= i < |first + second|
      ensures Concerns((first + second)[i], KeySet(keys)) && Concerns((second + first)[i], KeySet(keys))
    {
      assert k in KeySet(keys) && j in KeySet(keys);
      var x, y := (first + second)[i], (second + first)[i];
      assert Relevant(x, k) || Relevant(x, j);
      assert Relevant(y, k) || Relevant(y, j);
    }
    assert !Serialises(s, first + second, keys) || !Serialises(s, second + first, keys);
  }

  /** Exactly the NodeConfigs none of which is named like another one's credentials are served as if one by one, from
      every start and in every interleaving. */
  lemma SerialisableExactly(keys: seq<Key>)
    requires Distinct(keys)
    ensures AllApart(KeySet(keys)) <==> forall s: System, actions: seq<Action> :: s.runs == map[] ==> Serialises(s, actions, keys)
  {
    hide Exec, OneByOne, Apart;
    if AllApart(KeySet(keys)) {
      forall s: System, actions: seq<Action>
        ensures Serialises(s, actions, keys)
      {
        if Covered(actions, KeySet(keys)) {
          Serialisable(s, actions, keys);
        }
      }
    } else {
      var j, k :| j in KeySet(keys) && k in KeySet(keys) && !Apart(j, k);
      var x := NotApart(j, k);
      ClashIsNotSerial(keys, x);
    }
  }

  lemma NotApart(j: Key, k: Key) returns (x: Key)
    requires !Apart(j, k)
    ensures x in {j, k} && BmcKey(x) in {j, k}
  {
    x := if j == BmcKey(k) then k else j;
  }
}
