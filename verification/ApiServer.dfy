/** What one API call does to the cluster. A call may be refused, or be carried out
    while its reply is lost; the caller sees an error in both cases. */
module ApiServer {
  import opened Wrappers
  import opened NodeConfigTypes
  import opened Objects

  datatype Fault = Served | Refused | ReplyLost

  /** How a read turns out. `Past` is whatever an informer cache may still hold. */
  datatype Observed<T> = Current | Past(found: Option<T>) | Unreadable

  datatype Outcome = Outcome(cluster: Cluster, ok: bool)

  /** None stands for a read error; Some(None) for "not found". */
  function Get<T>(m: map<Key, T>, k: Key, seen: Observed<T>): Option<Option<T>> {
    match seen
    case Current => Some(Lookup(m, k))
    case Past(found) => Some(found)
    case Unreadable => None
  }

  function CreateSecret(c: Cluster, k: Key, secret: Secret, f: Fault): Outcome {
    if f.Refused? || k in c.secrets then Outcome(c, false)
    else Outcome(c.(secrets := c.secrets[k := secret]), f.Served?)
  }

  function CreateHost(c: Cluster, k: Key, host: Host, f: Fault): Outcome {
    if f.Refused? || k in c.hosts then Outcome(c, false)
    else Outcome(c.(hosts := c.hosts[k := host]), f.Served?)
  }

  function DeleteHost(c: Cluster, k: Key, f: Fault): Outcome {
    if f.Refused? || k !in c.hosts then Outcome(c, false)
    else Outcome(c.(hosts := c.hosts - {k}), f.Served?)
  }

  function DeleteConfig(c: Cluster, k: Key, f: Fault): Outcome {
    if f.Refused? || k !in c.configs then Outcome(c, false)
    else Outcome(c.(configs := c.configs - {k}), f.Served?)
  }

  /** One field of a merge patch: untouched when the two ends of the diff agree. */
  function Merge<T(==)>(before: T, after: T, current: T): T {
    if before == after then current else after
  }

  /** A nested reference is merged field by field. */
  function MergeRef(before: Option<SecretRef>, after: Option<SecretRef>, current: Option<SecretRef>): Option<SecretRef> {
    if before == after then current
    else if after.None? then None
    else
      var b, a, c := before.GetOr(SecretRef("", "")), after.value, current.GetOr(SecretRef("", ""));
      Some(SecretRef(Merge(b.name, a.name, c.name), Merge(b.ns, a.ns, c.ns)))
  }

  function MergeImage(before: Option<Image>, after: Option<Image>, current: Option<Image>): Option<Image> {
    if before == after then current
    else if after.None? then None
    else
      var b, a, c := before.GetOr(Image("", "", "")), after.value, current.GetOr(Image("", "", ""));
      Some(Image(Merge(b.url, a.url, c.url), Merge(b.checksum, a.checksum, c.checksum),
                 Merge(b.checksumType, a.checksumType, c.checksumType)))
  }

  /** Every field that the snapshot has right already is right in what is stored. */
  predicate RefKept(before: Option<SecretRef>, after: Option<SecretRef>, current: Option<SecretRef>) {
    if before == after then current == after
    else if after.None? then true
    else
      var b, a, c := before.GetOr(SecretRef("", "")), after.value, current.GetOr(SecretRef("", ""));
      && (b.name == a.name ==> c.name == a.name)
      && (b.ns == a.ns ==> c.ns == a.ns)
  }

  predicate ImageKept(before: Option<Image>, after: Option<Image>, current: Option<Image>) {
    if before == after then current == after
    else if after.None? then true
    else
      var b, a, c := before.GetOr(Image("", "", "")), after.value, current.GetOr(Image("", "", ""));
      && (b.url == a.url ==> c.url == a.url)
      && (b.checksum == a.checksum ==> c.checksum == a.checksum)
      && (b.checksumType == a.checksumType ==> c.checksumType == a.checksumType)
  }

  /** That is exactly when a merge brings the stored reference to the target of the patch. */
  lemma MergeRefReaches(before: Option<SecretRef>, after: Option<SecretRef>, current: Option<SecretRef>)
    ensures MergeRef(before, after, current) == after <==> RefKept(before, after, current)
  {}

  lemma MergeImageReaches(before: Option<Image>, after: Option<Image>, current: Option<Image>)
    ensures MergeImage(before, after, current) == after <==> ImageKept(before, after, current)
  {}

  function MergeHostSpec(b: HostSpec, a: HostSpec, c: HostSpec): HostSpec {
    HostSpec(Merge(b.online, a.online, c.online),
             Merge(b.bootMode, a.bootMode, c.bootMode),
             Merge(b.bmcAddress, a.bmcAddress, c.bmcAddress),
             Merge(b.credentialsName, a.credentialsName, c.credentialsName),
             Merge(b.disableCertificateVerification, a.disableCertificateVerification, c.disableCertificateVerification),
             MergeImage(b.image, a.image, c.image),
             MergeRef(b.userData, a.userData, c.userData))
  }

  function MergeStatus(b: Status, a: Status, c: Status): Status {
    Status(Merge(b.ready, a.ready, c.ready),
           Merge(b.dataSecretName, a.dataSecretName, c.dataSecretName),
           MergeRef(b.userData, a.userData, c.userData),
           Merge(b.failureReason, a.failureReason, c.failureReason),
           Merge(b.failureMessage, a.failureMessage, c.failureMessage))
  }

  /** A merge into either end of the diff gives its target. */
  lemma MergeStatusEnds(b: Status, a: Status)
    ensures MergeStatus(b, a, b) == a && MergeStatus(b, a, a) == a
  {}

  /** Nothing is sent when the two ends of the diff agree. */
  function PatchHost(c: Cluster, k: Key, before: HostSpec, after: HostSpec, f: Fault): Outcome {
    if before == after then Outcome(c, true)
    else if f.Refused? || k !in c.hosts then Outcome(c, false)
    else
      var h := c.hosts[k];
      Outcome(c.(hosts := c.hosts[k := h.(spec := MergeHostSpec(before, after, h.spec))]), f.Served?)
  }

  function PatchSecretOwners(c: Cluster, k: Key, before: seq<OwnerRef>, after: seq<OwnerRef>, f: Fault): Outcome {
    if before == after then Outcome(c, true)
    else if f.Refused? || k !in c.secrets then Outcome(c, false)
    else
      var s := c.secrets[k];
      Outcome(c.(secrets := c.secrets[k := s.(meta := s.meta.(owners := after))]), f.Served?)
  }

  /** The metadata half of a NodeConfig patch; a list is replaced as a whole. */
  function PatchConfigOwners(c: Cluster, k: Key, before: seq<OwnerRef>, after: seq<OwnerRef>, f: Fault): Outcome {
    if before == after then Outcome(c, true)
    else if f.Refused? || k !in c.configs then Outcome(c, false)
    else
      var g := c.configs[k];
      Outcome(c.(configs := c.configs[k := g.(meta := g.meta.(owners := after))]), f.Served?)
  }

  /** The status half, a call of its own. */
  function PatchConfigStatus(c: Cluster, k: Key, before: Status, after: Status, f: Fault): Outcome {
    if before == after then Outcome(c, true)
    else if f.Refused? || k !in c.configs then Outcome(c, false)
    else
      var g := c.configs[k];
      Outcome(c.(configs := c.configs[k := g.(status := MergeStatus(before, after, g.status))]), f.Served?)
  }
}
