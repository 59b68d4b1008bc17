/** What a pass over an unavailable host and the garbage collector together leave behind. */
module Cleanup {
  import opened Wrappers
  import opened Objects
  import opened Worker
  import opened Convergence

  /** An object of the cluster. */
  datatype Ref = ConfigAt(key: Key) | SecretAt(key: Key) | HostAt(key: Key)

  function MetaOf(c: Cluster, v: Ref): Option<Meta> {
    match v
    case ConfigAt(k) => if k in c.configs then Some(c.configs[k].meta) else None
    case SecretAt(k) => if k in c.secrets then Some(c.secrets[k].meta) else None
    case HostAt(k) => if k in c.hosts then Some(c.hosts[k].meta) else None
  }

  ghost predicate Live(c: Cluster, uid: nat) {
    exists v :: HasUid(c, v, uid)
  }

  predicate HasUid(c: Cluster, v: Ref, uid: nat) {
    MetaOf(c, v).Some? && MetaOf(c, v).value.uid == uid
  }

  /** The collector may delete an object that has owners, none of which exists. */
  ghost predicate Collectable(c: Cluster, v: Ref) {
    && MetaOf(c, v).Some? && MetaOf(c, v).value.owners != []
    && forall o :: o in MetaOf(c, v).value.owners ==> !Live(c, o.uid)
  }

  function Remove(c: Cluster, v: Ref): Cluster {
    match v
    case ConfigAt(k) => c.(configs := c.configs - {k})
    case SecretAt(k) => c.(secrets := c.secrets - {k})
    case HostAt(k) => c.(hosts := c.hosts - {k})
  }

  ghost predicate NothingToCollect(c: Cluster) {
    forall v :: !Collectable(c, v)
  }

  /** The collector deletes `victims`, one after the other, and then finds nothing more: the cluster is `d`. */
  ghost predicate Collects(c: Cluster, victims: seq<Ref>, d: Cluster)
    decreases |victims|
  {
    if victims == [] then d == c && NothingToCollect(c)
    else Collectable(c, victims[0]) && Collects(Remove(c, victims[0]), victims[1..], d)
  }

  function Size(c: Cluster): nat {
    |c.configs| + |c.secrets| + |c.hosts|
  }

  lemma RemoveShrinks(c: Cluster, v: Ref)
    requires MetaOf(c, v).Some?
    ensures Size(Remove(c, v)) + 1 == Size(c)
  {
    match v
    case ConfigAt(k) => KeyRemoved(c.configs, k);
    case SecretAt(k) => KeyRemoved(c.secrets, k);
    case HostAt(k) => KeyRemoved(c.hosts, k);
  }

  lemma KeyRemoved<T>(m: map<Key, T>, k: Key)
    requires k in m
    ensures |m - {k}| + 1 == |m|
  {
    assert (m - {k}).Keys == m.Keys - {k};
    assert |m.Keys - {k}| + 1 == |m.Keys|;
  }

  /** Collection comes to an end: every deletion makes the cluster smaller. */
  lemma {:induction false} CollectionTerminates(c: Cluster, victims: seq<Ref>, d: Cluster)
    requires Collects(c, victims, d)
    ensures |victims| + Size(d) == Size(c)
    decreases |victims|
  {
    hide Remove, Collectable, Size;
    if victims != [] {
      RemovesExisting(c, victims[0]);
      CollectionTerminates(Remove(c, victims[0]), victims[1..], d);
    }
  }

  lemma RemovesExisting(c: Cluster, v: Ref)
    requires Collectable(c, v)
    ensures Size(Remove(c, v)) + 1 == Size(c)
  {
    hide Remove, Size;
    RemoveShrinks(c, v);
  }

  /** An unready NodeConfig meets an unavailable host. The collector has nothing to do beforehand, nothing
      depends on the two, their uids are theirs alone, and the uid of the Secret to come is free. */
  ghost predicate Mismatch(c: Cluster, k: Key, uid: nat) {
    && k in c.configs && !c.configs[k].status.ready && k !in c.secrets
    && k in c.hosts && !IsUsable(c.hosts[k])
    && NothingToCollect(c) && !Live(c, uid)
    && (forall v :: HasUid(c, v, c.configs[k].meta.uid) ==> v == ConfigAt(k))
    && (forall v :: HasUid(c, v, c.hosts[k].meta.uid) ==> v == HostAt(k))
    && c.configs[k].meta.uid != uid
    && forall v, o :: v !in {ConfigAt(k), HostAt(k)} && MetaOf(c, v).Some? && o in MetaOf(c, v).value.owners
                      ==> o.uid != c.configs[k].meta.uid && o.uid != c.hosts[k].meta.uid
  }

  function Without(c: Cluster, k: Key): Cluster {
    c.(configs := c.configs - {k}, hosts := c.hosts - {k})
  }

  function WithSecret(c: Cluster, k: Key, secret: Secret): Cluster {
    c.(secrets := c.secrets[k := secret])
  }

  lemma WithoutIsQuiet(c: Cluster, k: Key, uid: nat)
    requires Mismatch(c, k, uid)
    ensures NothingToCollect(Without(c, k))
  {
    var d := Without(c, k);
    forall v ensures !Collectable(d, v) {
      if Collectable(d, v) {
        assert v !in {ConfigAt(k), HostAt(k)} && MetaOf(c, v) == MetaOf(d, v);
        assert !Collectable(c, v);
        var o :| o in MetaOf(c, v).value.owners && Live(c, o.uid);
        var w :| HasUid(c, w, o.uid);
        assert w !in {ConfigAt(k), HostAt(k)};
        assert HasUid(d, w, o.uid);
      }
    }
  }

  /** With the new Secret in place, it is the one thing to collect. */
  lemma OnlySecretCollectable(c: Cluster, k: Key, secret: Secret, v: Ref)
    requires Mismatch(c, k, secret.meta.uid)
    requires secret.meta.owners == [OwnerRef(NodeConfigKind, k.name, c.configs[k].meta.uid)]
    ensures Collectable(WithSecret(Without(c, k), k, secret), v) <==> v == SecretAt(k)
  {
    var d, e := Without(c, k), WithSecret(Without(c, k), k, secret);
    if v == SecretAt(k) {
      if Live(e, c.configs[k].meta.uid) {
        var w :| HasUid(e, w, c.configs[k].meta.uid);
        assert w != SecretAt(k);
        assert HasUid(c, w, c.configs[k].meta.uid);
      }
    } else if Collectable(e, v) {
      WithoutIsQuiet(c, k, secret.meta.uid);
      assert MetaOf(d, v) == MetaOf(e, v) && !Collectable(d, v);
      var o :| o in MetaOf(d, v).value.owners && Live(d, o.uid);
      var w :| HasUid(d, w, o.uid);
      assert w != SecretAt(k) && HasUid(e, w, o.uid);
    }
  }

  /** After the pass the collector has exactly one way to go: delete the cloud-init Secret and stop. What is left
      is the cluster as it was, without the host and the NodeConfig. */
  lemma CleansUp(c: Cluster, k: Key, render: Renderer, sched: Schedule, victims: seq<Ref>, d: Cluster)
    requires Quiet(sched) && Mismatch(c, k, sched(0).uid)
    ensures Collects(Reconciled(c, k, render, sched), victims, d) <==> victims == [SecretAt(k)] && d == Without(c, k)
  {
    AvailableExactly(c.hosts[k]);
    hide IsAvailable, IsUsable, Reconciled, NothingToCollect, Collectable;
    UndisturbedPass(c, k, render, sched);
    var secret := CloudInitSecret(k, c.configs[k], render(c.configs[k].spec), sched(0).uid);
    var e := WithSecret(Without(c, k), k, secret);
    assert Reconciled(c, k, render, sched) == e;
    SecretIsTheOnlyOne(c, k, secret);
    assert Remove(e, SecretAt(k)) == Without(c, k);
    WithoutIsQuiet(c, k, sched(0).uid);
    StopsWhenQuiet(Without(c, k), if victims == [] then [] else victims[1..], d);
  }

  lemma SecretIsTheOnlyOne(c: Cluster, k: Key, secret: Secret)
    requires Mismatch(c, k, secret.meta.uid)
    requires secret.meta.owners == [OwnerRef(NodeConfigKind, k.name, c.configs[k].meta.uid)]
    ensures
      var e := WithSecret(Without(c, k), k, secret);
      !NothingToCollect(e) && forall v :: Collectable(e, v) <==> v == SecretAt(k)
  {
    hide Collectable, Mismatch, WithSecret, Without;
    forall v ensures Collectable(WithSecret(Without(c, k), k, secret), v) <==> v == SecretAt(k) {
      OnlySecretCollectable(c, k, secret, v);
    }
    assert Collectable(WithSecret(Without(c, k), k, secret), SecretAt(k));
  }

  lemma StopsWhenQuiet(c: Cluster, victims: seq<Ref>, d: Cluster)
    requires NothingToCollect(c)
    ensures Collects(c, victims, d) <==> victims == [] && d == c
  {}

  /** A NodeConfig of the same name, created afterwards, becomes Ready in one pass if and only if the host's
      credentials are gone too, which the operator does not see to, and the details for a new host are all there. */
  lemma RecreationSucceeds(c: Cluster, k: Key, g: NodeConfig, render: Renderer, sched: Schedule)
    requires Quiet(sched) && k !in c.secrets && !g.status.ready
    ensures
      var d := Without(c, k);
      var e := Reconciled(d.(configs := d.configs[k := g]), k, render, sched);
      k in e.configs && (e.configs[k].status.ready <==> !Panics(g.spec) && BmcKey(k) !in c.secrets)
  {
    BmcKeyDiffers(k);
    hide Reconciled, BmcKey, AssignedSpec, EnsureOwner, Panics;
    var d := Without(c, k);
    UndisturbedPass(d.(configs := d.configs[k := g]), k, render, sched);
  }
}
