/** The executions of module System contain the passes of `Reconcile`: a run that is left alone is a pass. */
module Solo {
  import opened Objects
  import opened ApiServer
  import opened Worker
  import opened System

  /** All calls of a run, in order. */
  function CallsOf(id: RunId, c: Cluster, r: Run, sched: Schedule, n: nat): seq<Action>
    decreases Rank(r.pc)
  {
    if r.pc.Done? then []
    else
      StepAdvances(c, id.key, r, sched(n));
      var (c', r') := Step(c, id.key, r, sched(n));
      [StepRun(id, sched(n))] + CallsOf(id, c', r', sched, n + 1)
  }

  function WholeRun(s: System, id: RunId, fetch: Observed<NodeConfig>, sched: Schedule, n: nat): seq<Action> {
    var r := Begin(s.cluster, id.key, fetch, s.render);
    [BeginRun(id, fetch)] + if r.None? then [] else CallsOf(id, s.cluster, r.value, sched, n)
  }

  lemma {:induction false} ExecFirst(s: System, a: Action, actions: seq<Action>, n: nat)
    requires n <= |actions|
    ensures At(s, [a] + actions, n + 1) == At(Next(s, a), actions, n)
  {
    hide Next;
    if n == 0 {
      assert At(s, [a] + actions, 1) == Next(At(s, [a] + actions, 0), ([a] + actions)[0]);
    } else {
      ExecFirst(s, a, actions, n - 1);
      assert ([a] + actions)[n] == actions[n - 1];
    }
  }

  lemma {:induction false} CallsDrive(s: System, id: RunId, sched: Schedule, n: nat)
    requires id in s.runs
    ensures
      var actions := CallsOf(id, s.cluster, s.runs[id], sched, n);
      var (c, r) := Drive(s.cluster, id.key, s.runs[id], sched, n);
      Exec(s, actions) == s.(cluster := c, runs := s.runs[id := r])
    decreases Rank(s.runs[id].pc)
  {
    hide Step, At;
    var r := s.runs[id];
    if r.pc.Done? {
      assert s.runs == s.runs[id := r];
      NoActions(s);
    } else {
      StepAdvances(s.cluster, id.key, r, sched(n));
      var a := StepRun(id, sched(n));
      var t := Next(s, a);
      CallsDrive(t, id, sched, n + 1);
      var rest := CallsOf(id, t.cluster, t.runs[id], sched, n + 1);
      ExecFirst(s, a, rest, |rest|);
      assert CallsOf(id, s.cluster, r, sched, n) == [a] + rest;
      var last := Drive(t.cluster, id.key, t.runs[id], sched, n + 1).1;
      assert t.runs[id := last] == s.runs[id := last];
    }
  }

  lemma NoActions(s: System)
    ensures Exec(s, []) == s
  {}

  lemma {:induction false} DriveEnds(c: Cluster, k: Key, r: Run, sched: Schedule, n: nat)
    ensures Drive(c, k, r, sched, n).1.pc.Done?
    decreases Rank(r.pc)
  {
    hide Step;
    if !r.pc.Done? {
      StepAdvances(c, k, r, sched(n));
      var (c', r') := Step(c, k, r, sched(n));
      DriveEnds(c', k, r', sched, n + 1);
    }
  }

  /** Started and left alone, a run does to the cluster what `Reconcile` does; then it is over, and no other run has
      been touched. */
  lemma LeftAlone(s: System, id: RunId, fetch: Observed<NodeConfig>, sched: Schedule, n: nat)
    requires id !in s.runs
    ensures
      var t := Exec(s, WholeRun(s, id, fetch, sched, n));
      && t.cluster == Pass(s.cluster, id.key, fetch, s.render, sched, n).cluster
      && t.runs.Keys <= s.runs.Keys + {id} && (id in t.runs ==> t.runs[id].pc.Done?)
      && (forall j :: j in s.runs ==> j in t.runs && t.runs[j] == s.runs[j])
  {
    hide Step, At, Begin, Exec;
    var r := Begin(s.cluster, id.key, fetch, s.render);
    var a := BeginRun(id, fetch);
    var rest := if r.None? then [] else CallsOf(id, s.cluster, r.value, sched, n);
    FirstThenRest(s, a, rest);
    if r.None? {
      NoActions(s);
    } else {
      CallsDrive(Next(s, a), id, sched, n);
      DriveEnds(s.cluster, id.key, r.value, sched, n);
    }
  }

  lemma FirstThenRest(s: System, a: Action, rest: seq<Action>)
    ensures Exec(s, [a] + rest) == Exec(Next(s, a), rest)
  {
    hide Next, At;
    ExecFirst(s, a, rest, |rest|);
  }
}
