/** The cluster objects that a reconcile run reads and writes. */
module Objects {
  import opened Wrappers
  import opened NodeConfigTypes

  datatype Key = Key(ns: string, name: string)

  datatype Kind = NodeConfigKind | HostKind | SecretKind

  datatype OwnerRef = OwnerRef(kind: Kind, name: string, uid: nat)

  datatype Meta = Meta(uid: nat, owners: seq<OwnerRef>)

  datatype NodeConfig = NodeConfig(meta: Meta, spec: Spec, status: Status)

  datatype Secret = Secret(meta: Meta, data: map<string, string>)

  datatype HostSpec = HostSpec(
    online: bool,
    bootMode: string,
    bmcAddress: string,
    credentialsName: string,
    disableCertificateVerification: bool,
    image: Option<Image>,
    userData: Option<SecretRef>)

  datatype HostStatus = HostStatus(provisioningState: ProvisioningState, operationalStatus: OperationalStatus)

  datatype Host = Host(meta: Meta, spec: HostSpec, status: HostStatus)

  datatype Cluster = Cluster(configs: map<Key, NodeConfig>, secrets: map<Key, Secret>, hosts: map<Key, Host>)

  function Lookup<T>(m: map<Key, T>, k: Key): Option<T> {
    if k in m then Some(m[k]) else None
  }

  /** The name of the BMC credentials that belong to a NodeConfig. */
  function BmcKey(k: Key): Key {
    Key(k.ns, k.name + "-bmc-secret")
  }

  lemma BmcKeyInjective(j: Key, k: Key)
    requires BmcKey(j) == BmcKey(k)
    ensures j == k
  {
    var n := |BmcKey(k).name| - |"-bmc-secret"|;
    assert j.name == BmcKey(j).name[..n];
    assert k.name == BmcKey(k).name[..n];
  }

  lemma BmcKeyDiffers(k: Key)
    ensures BmcKey(k) != k
  {
    assert |BmcKey(k).name| != |k.name|;
  }
}
