/** Any number of reconcile runs over one cluster, interleaved call by call with each other,
    with crashes, and with everything else that changes the cluster. */
module System {
  import opened Wrappers
  import opened NodeConfigTypes
  import opened Objects
  import opened ApiServer
  import opened Worker

  datatype RunId = RunId(key: Key, n: nat)

  /** `runs` keeps finished and crashed runs too, at Done. */
  datatype System = System(cluster: Cluster, runs: map<RunId, Run>, render: Renderer)

  datatype Action =
    | BeginRun(id: RunId, fetch: Observed<NodeConfig>)
    | StepRun(id: RunId, input: Input)
    | CrashRun(id: RunId)
    | SetHost(key: Key, host: Option<Host>)          // users and the bare-metal operator
    | SetSecret(key: Key, secret: Option<Secret>)    // users and the garbage collector
    | AddConfig(key: Key, meta: Meta, spec: Spec)    // a NodeConfig starts with a blank status
    | EditConfig(key: Key, meta: Meta, spec: Spec)   // users do not write the status
    | DropConfig(key: Key)

  function Put<T>(m: map<Key, T>, k: Key, v: Option<T>): map<Key, T> {
    if v.Some? then m[k := v.value] else m - {k}
  }

  function Next(s: System, a: Action): System {
    match a
    case BeginRun(id, fetch) =>
      if id in s.runs then s
      else
        var r := Begin(s.cluster, id.key, fetch, s.render);
        if r.None? then s else s.(runs := s.runs[id := r.value])
    case StepRun(id, input) =>
      if id !in s.runs then s
      else
        var (c, r) := Step(s.cluster, id.key, s.runs[id], input);
        s.(cluster := c, runs := s.runs[id := r])
    case CrashRun(id) =>
      if id !in s.runs then s else s.(runs := s.runs[id := s.runs[id].(pc := Done)])
    case SetHost(k, h) => s.(cluster := s.cluster.(hosts := Put(s.cluster.hosts, k, h)))
    case SetSecret(k, x) => s.(cluster := s.cluster.(secrets := Put(s.cluster.secrets, k, x)))
    case AddConfig(k, meta, spec) =>
      if k in s.cluster.configs then s
      else s.(cluster := s.cluster.(configs := s.cluster.configs[k := NodeConfig(meta, spec, BLANK_STATUS)]))
    case EditConfig(k, meta, spec) =>
      if k !in s.cluster.configs then s
      else
        var g := s.cluster.configs[k];
        var g' := g.(meta := meta.(uid := g.meta.uid), spec := spec);
        s.(cluster := s.cluster.(configs := s.cluster.configs[k := g']))
    case DropConfig(k) => s.(cluster := s.cluster.(configs := s.cluster.configs - {k}))
  }

  /** The state after the first `n` actions. */
  function At(s: System, actions: seq<Action>, n: nat): System
    requires n <= |actions|
  {
    if n == 0 then s else Next(At(s, actions, n - 1), actions[n - 1])
  }

  function Exec(s: System, actions: seq<Action>): System {
    At(s, actions, |actions|)
  }

  lemma NextKeepsRuns(s: System, a: Action)
    ensures s.runs.Keys <= Next(s, a).runs.Keys
  {}

  /** Where a run in the next state comes from. */
  lemma RunOrigin(s: System, a: Action, id: RunId)
    requires id in Next(s, a).runs
    ensures
      var r := Next(s, a).runs[id];
      if id in s.runs then
        || (a.StepRun? && a.id == id && (Next(s, a).cluster, r) == Step(s.cluster, id.key, s.runs[id], a.input))
        || r == s.runs[id]
        || r == s.runs[id].(pc := Done)
      else a.BeginRun? && a.id == id && Begin(s.cluster, id.key, a.fetch, s.render) == Some(r)
  {
    hide Step, Begin;
  }

  lemma {:induction false} RunsStay(s: System, actions: seq<Action>, i: nat, j: nat, id: RunId)
    requires i <= j <= |actions| && id in At(s, actions, i).runs
    ensures id in At(s, actions, j).runs
    decreases j - i
  {
    if i < j {
      hide Next;
      RunsStay(s, actions, i, j - 1, id);
      NextKeepsRuns(At(s, actions, j - 1), actions[j - 1]);
    }
  }

  /** A call that is served, reading fresh. */
  function Call(id: RunId): Action {
    StepRun(id, Input(Served, 0, Current))
  }

  lemma AtNext(s: System, actions: seq<Action>, n: nat, t: System)
    requires n < |actions| && At(s, actions, n) == t
    ensures At(s, actions, n + 1) == Next(t, actions[n])
  {
    hide Next;
  }

  lemma {:induction false} AtPrefix(s: System, actions: seq<Action>, more: seq<Action>, n: nat)
    requires n <= |actions|
    ensures At(s, actions + more, n) == At(s, actions, n)
  {
    hide Next;
    if n > 0 {
      AtPrefix(s, actions, more, n - 1);
    }
  }

  /** Executing one trace after another. */
  lemma {:induction false} AtConcat(s: System, actions: seq<Action>, more: seq<Action>, n: nat)
    requires n <= |more|
    ensures At(s, actions + more, |actions| + n) == At(Exec(s, actions), more, n)
  {
    hide Next;
    if n == 0 {
      AtPrefix(s, actions, more, |actions|);
    } else {
      AtConcat(s, actions, more, n - 1);
      assert (actions + more)[|actions| + n - 1] == more[n - 1];
    }
  }

  lemma ExecConcat(s: System, actions: seq<Action>, more: seq<Action>)
    ensures Exec(s, actions + more) == Exec(Exec(s, actions), more)
  {
    AtConcat(s, actions, more, |more|);
  }

  lemma OneAction(s: System, a: Action)
    ensures Exec(s, [a]) == Next(s, a)
  {
    hide Next;
    assert At(s, [a], 1) == Next(At(s, [a], 0), a);
  }

  lemma TwoActions(s: System, a: Action, b: Action)
    ensures Exec(s, [a, b]) == Next(Next(s, a), b)
  {
    hide Next;
    assert At(s, [a, b], 1) == Next(At(s, [a, b], 0), a);
  }
}
