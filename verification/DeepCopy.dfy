/** The generated deep copies of the NodeConfig API. A Go struct is a value that may hold references: a pointer is a
    nullable `Cell`, a slice is a nullable array, and a struct stored in either is a value there. Assigning a struct
    copies its references, so each method starts from such a shallow copy, in the out-parameter that stands for the
    location written through, and then replaces every pointer and every slice in it. Nothing that existed before is
    written. */
module DeepCopy {
  import N = NodeConfigTypes
  import O = Objects

  /** What a Go pointer points to. */
  class Cell<T> {
    var value: T

    constructor (value: T)
      ensures this.value == value
    {
      this.value := value;
    }
  }

  datatype NTP = NTP(servers: array?<string>, enabled: Cell?<bool>)

  datatype User = User(
    name: string,
    gecos: Cell?<string>,
    groups: Cell?<string>,
    homeDir: Cell?<string>,
    inactive: Cell?<bool>,
    shell: Cell?<string>,
    passwd: Cell?<string>,
    primaryGroup: Cell?<string>,
    lockPassword: Cell?<bool>,
    sudo: Cell?<string>,
    sshAuthorizedKeys: array?<string>)

  datatype Spec = Spec(
    bmc: Cell?<N.BMC>,
    image: Cell?<N.Image>,
    files: array?<N.File>,
    cloudInitCommands: array?<string>,
    users: array?<User>,
    ntp: Cell?<NTP>)

  datatype Status = Status(
    ready: bool,
    dataSecretName: Cell?<string>,
    userData: Cell?<N.SecretRef>,
    failureReason: string,
    failureMessage: Cell?<string>)

  datatype TypeMeta = TypeMeta(kind: string, apiVersion: string)

  datatype NodeConfig = NodeConfig(typeMeta: TypeMeta, meta: O.Meta, spec: Spec, status: Status)

  datatype ListMeta = ListMeta(resourceVersion: string, continuation: string)

  datatype NodeConfigList = NodeConfigList(typeMeta: TypeMeta, meta: ListMeta, items: array?<NodeConfig>)

  // The zero values that `make` and `new` put in place.
  const ZERO_NTP := NTP(null, null)
  const ZERO_USER := User("", null, null, null, null, null, null, null, null, null, null)
  const ZERO_SPEC := Spec(null, null, null, null, null, null)
  const ZERO_STATUS := Status(false, null, null, "", null)
  const ZERO_CONFIG := NodeConfig(TypeMeta("", ""), O.Meta(0, []), ZERO_SPEC, ZERO_STATUS)

  // ---- deep equality, with nil told from empty ----

  ghost predicate SamePointer<T>(p: Cell?<T>, q: Cell?<T>)
    reads p, q
  {
    && (p == null <==> q == null)
    && (p != null ==> p.value == q.value)
  }

  ghost predicate SameSlice<T>(a: array?<T>, b: array?<T>)
    reads a, b
  {
    && (a == null <==> b == null)
    && (a != null ==> a[..] == b[..])
  }

  ghost predicate SameNtp(n: NTP, m: NTP)
    reads *
  {
    SameSlice(n.servers, m.servers) && SamePointer(n.enabled, m.enabled)
  }

  ghost predicate SameUser(u: User, v: User)
    reads *
  {
    && u.name == v.name
    && SamePointer(u.gecos, v.gecos) && SamePointer(u.groups, v.groups) && SamePointer(u.homeDir, v.homeDir)
    && SamePointer(u.inactive, v.inactive) && SamePointer(u.shell, v.shell) && SamePointer(u.passwd, v.passwd)
    && SamePointer(u.primaryGroup, v.primaryGroup) && SamePointer(u.lockPassword, v.lockPassword)
    && SamePointer(u.sudo, v.sudo) && SameSlice(u.sshAuthorizedKeys, v.sshAuthorizedKeys)
  }

  ghost predicate SameUsers(a: array?<User>, b: array?<User>)
    reads *
  {
    && (a == null <==> b == null)
    && (a != null ==> a.Length == b.Length && forall i :: 0 <= i < a.Length ==> SameUser(a[i], b[i]))
  }

  ghost predicate SameSpec(s: Spec, t: Spec)
    reads *
  {
    && SamePointer(s.bmc, t.bmc) && SamePointer(s.image, t.image) && SameSlice(s.files, t.files)
    && SameSlice(s.cloudInitCommands, t.cloudInitCommands) && SameUsers(s.users, t.users)
    && (s.ntp == null <==> t.ntp == null)
    && (s.ntp != null ==> SameNtp(s.ntp.value, t.ntp.value))
  }

  ghost predicate SameStatus(s: Status, t: Status)
    reads *
  {
    && s.ready == t.ready && s.failureReason == t.failureReason
    && SamePointer(s.dataSecretName, t.dataSecretName) && SamePointer(s.userData, t.userData)
    && SamePointer(s.failureMessage, t.failureMessage)
  }

  ghost predicate SameConfig(c: NodeConfig, d: NodeConfig)
    reads *
  {
    c.typeMeta == d.typeMeta && c.meta == d.meta && SameSpec(c.spec, d.spec) && SameStatus(c.status, d.status)
  }

  ghost predicate SameList(l: NodeConfigList, m: NodeConfigList)
    reads *
  {
    && l.typeMeta == m.typeMeta && l.meta == m.meta
    && (l.items == null <==> m.items == null)
    && (l.items != null ==>
      && l.items.Length == m.items.Length
      && forall i :: 0 <= i < l.items.Length ==> SameConfig(l.items[i], m.items[i]))
  }

  // ---- no mutable object, however deep, that was there before, and none twice in one struct ----

  /** No two pointers of one struct are the same, whatever they point to. */
  ghost predicate UnsharedUser(u: User) {
    && (u.groups != null ==> u.groups != u.gecos)
    && (u.homeDir != null ==> u.homeDir != u.gecos && u.homeDir != u.groups)
    && (u.shell != null ==> u.shell != u.gecos && u.shell != u.groups && u.shell != u.homeDir)
    && (u.passwd != null ==> u.passwd != u.gecos && u.passwd != u.groups && u.passwd != u.homeDir && u.passwd != u.shell)
    && (u.primaryGroup != null ==> u.primaryGroup != u.gecos && u.primaryGroup != u.groups && u.primaryGroup != u.homeDir && u.primaryGroup != u.shell && u.primaryGroup != u.passwd)
    && (u.sudo != null ==> u.sudo != u.gecos && u.sudo != u.groups && u.sudo != u.homeDir && u.sudo != u.shell && u.sudo != u.passwd && u.sudo != u.primaryGroup)
    && (u.lockPassword != null ==> u.lockPassword != u.inactive)
  }

  ghost predicate UnsharedStatus(s: Status) {
    s.failureMessage != null ==> s.failureMessage != s.dataSecretName
  }

  twostate predicate NewPointer<T>(new p: Cell?<T>) {
    p == null || fresh(p)
  }

  twostate predicate NewSlice<T>(new a: array?<T>) {
    a == null || fresh(a)
  }

  twostate predicate NewNtp(new n: NTP) {
    NewSlice(n.servers) && NewPointer(n.enabled)
  }

  twostate predicate NewUser(new u: User) {
    && NewPointer(u.gecos) && NewPointer(u.groups) && NewPointer(u.homeDir) && NewPointer(u.inactive)
    && NewPointer(u.shell) && NewPointer(u.passwd) && NewPointer(u.primaryGroup) && NewPointer(u.lockPassword)
    && NewPointer(u.sudo) && NewSlice(u.sshAuthorizedKeys) && UnsharedUser(u)
  }

  twostate predicate NewUsers(new users: array?<User>)
    reads users
  {
    NewSlice(users) && (users != null ==> forall i :: 0 <= i < users.Length ==> NewUser(users[i]))
  }

  twostate predicate NewSpec(new s: Spec)
    reads *
  {
    && NewPointer(s.bmc) && NewPointer(s.image) && NewSlice(s.files) && NewSlice(s.cloudInitCommands)
    && NewUsers(s.users)
    && NewPointer(s.ntp) && (s.ntp != null ==> NewNtp(s.ntp.value))
  }

  twostate predicate NewStatus(new s: Status) {
    NewPointer(s.dataSecretName) && NewPointer(s.userData) && NewPointer(s.failureMessage) && UnsharedStatus(s)
  }

  twostate predicate NewConfig(new c: NodeConfig)
    reads *
  {
    NewSpec(c.spec) && NewStatus(c.status)
  }

  twostate predicate NewList(new l: NodeConfigList)
    reads *
  {
    NewSlice(l.items) && (l.items != null ==> forall i :: 0 <= i < l.items.Length ==> NewConfig(l.items[i]))
  }

  // ---- what stays as it was when nothing is written but one array of structs ----

  twostate lemma Kept(new but: object?, p: object?)
    requires forall o: object {:trigger old(allocated(o))} :: old(allocated(o)) && o != but ==> unchanged(o)
    ensures p != null && p != but ==> unchanged(p)
  {
    if p != null {
      var o: object := p;
      assert old(allocated(o));
    }
  }

  ghost predicate StructsOnly(but: object?) {
    but == null || but is array<User> || but is array<NodeConfig>
  }

  twostate lemma PointerStays<T>(new but: object?, pair: (Cell?<T>, Cell?<T>))
    requires forall o: object {:trigger old(allocated(o))} :: old(allocated(o)) && o != but ==> unchanged(o)
    requires StructsOnly(but) && old(SamePointer(pair.0, pair.1))
    ensures SamePointer(pair.0, pair.1)
  {
    Kept(but, pair.0);
    Kept(but, pair.1);
  }

  twostate lemma SliceStays<T>(new but: object?, pair: (array?<T>, array?<T>))
    requires forall o: object {:trigger old(allocated(o))} :: old(allocated(o)) && o != but ==> unchanged(o)
    requires old(SameSlice(pair.0, pair.1)) && (pair.0 == but ==> pair.0 == null) && (pair.1 == but ==> pair.1 == null)
    ensures SameSlice(pair.0, pair.1)
  {
    Kept(but, pair.0);
    Kept(but, pair.1);
  }

  lemma NotStructs(a: array?<string>, but: object?)
    requires StructsOnly(but)
    ensures a == but ==> a == null
  {}

  twostate lemma UserStays(new but: object?, pair: (User, User))
    requires forall o: object {:trigger old(allocated(o))} :: old(allocated(o)) && o != but ==> unchanged(o)
    requires StructsOnly(but) && old(SameUser(pair.0, pair.1))
    ensures SameUser(pair.0, pair.1)
  {
    hide SamePointer, SameSlice;
    var (u, v) := pair;
    PointerStays(but, (u.gecos, v.gecos));
    PointerStays(but, (u.groups, v.groups));
    PointerStays(but, (u.homeDir, v.homeDir));
    PointerStays(but, (u.inactive, v.inactive));
    PointerStays(but, (u.shell, v.shell));
    PointerStays(but, (u.passwd, v.passwd));
    PointerStays(but, (u.primaryGroup, v.primaryGroup));
    PointerStays(but, (u.lockPassword, v.lockPassword));
    PointerStays(but, (u.sudo, v.sudo));
    NotStructs(u.sshAuthorizedKeys, but);
    NotStructs(v.sshAuthorizedKeys, but);
    SliceStays(but, (u.sshAuthorizedKeys, v.sshAuthorizedKeys));
  }

  twostate lemma UsersStay(new but: object?, pair: (array?<User>, array?<User>))
    requires forall o: object {:trigger old(allocated(o))} :: old(allocated(o)) && o != but ==> unchanged(o)
    requires (but == null || but is array<NodeConfig>) && old(SameUsers(pair.0, pair.1))
    ensures SameUsers(pair.0, pair.1)
  {
    hide SameUser;
    var (a, b) := pair;
    Kept(but, a);
    Kept(but, b);
    if a != null {
      forall i | 0 <= i < a.Length
        ensures SameUser(a[i], b[i])
      {
        UserStays(but, old((a[i], b[i])));
      }
    }
  }

  twostate lemma NtpStays(new but: object?, pair: (NTP, NTP))
    requires forall o: object {:trigger old(allocated(o))} :: old(allocated(o)) && o != but ==> unchanged(o)
    requires StructsOnly(but) && old(SameNtp(pair.0, pair.1))
    ensures SameNtp(pair.0, pair.1)
  {
    hide SamePointer, SameSlice;
    var (n, m) := pair;
    NotStructs(n.servers, but);
    NotStructs(m.servers, but);
    SliceStays(but, (n.servers, m.servers));
    PointerStays(but, (n.enabled, m.enabled));
  }

  twostate lemma ConfigStays(new but: object?, pair: (NodeConfig, NodeConfig))
    requires forall o: object {:trigger old(allocated(o))} :: old(allocated(o)) && o != but ==> unchanged(o)
    requires (but == null || but is array<NodeConfig>) && old(SameConfig(pair.0, pair.1))
    ensures SameConfig(pair.0, pair.1)
  {
    hide SamePointer, SameSlice, SameUsers, SameNtp;
    var (c, d) := pair;
    var s, t := c.spec, d.spec;
    PointerStays(but, (s.bmc, t.bmc));
    PointerStays(but, (s.image, t.image));
    SliceStays(but, (s.files, t.files));
    NotStructs(s.cloudInitCommands, but);
    NotStructs(t.cloudInitCommands, but);
    SliceStays(but, (s.cloudInitCommands, t.cloudInitCommands));
    UsersStay(but, (s.users, t.users));
    Kept(but, s.ntp);
    Kept(but, t.ntp);
    if s.ntp != null {
      NtpStays(but, old((s.ntp.value, t.ntp.value)));
    }
    PointerStays(but, (c.status.dataSecretName, d.status.dataSecretName));
    PointerStays(but, (c.status.userData, d.status.userData));
    PointerStays(but, (c.status.failureMessage, d.status.failureMessage));
  }

  // ---- the copies ----

  /** `new(T)` and `**out = **in`. */
  method CopyPointer<T>(p: Cell?<T>) returns (copy: Cell?<T>)
    modifies {}
    ensures SamePointer(copy, p)
    ensures NewPointer(copy)
  {
    copy := p;
    if p != null {
      copy := new Cell(p.value);
    }
  }

  /** `make` and `copy`. */
  method CopySlice<T(0)>(a: array?<T>) returns (copy: array?<T>)
    modifies {}
    ensures SameSlice(copy, a)
    ensures NewSlice(copy)
  {
    copy := a;
    if a != null {
      copy := new T[a.Length];
      for i := 0 to a.Length
        invariant fresh(copy) && copy.Length == a.Length
        invariant copy[..i] == a[..i]
      {
        copy[i] := a[i];
      }
      assert copy[..] == copy[..a.Length] && a[..] == a[..a.Length];
    }
  }

  method DeepCopyNtp(input: NTP) returns (out: NTP)
    modifies {}
    ensures SameNtp(out, input)
    ensures NewNtp(out)
  {
    out := input;
    var servers := CopySlice(input.servers);
    out := out.(servers := servers);
    var enabled := CopyPointer(input.enabled);
    out := out.(enabled := enabled);
  }

  method CopyNtpPointer(p: Cell?<NTP>) returns (copy: Cell?<NTP>)
    modifies {}
    ensures copy == null <==> p == null
    ensures p != null ==> SameNtp(copy.value, p.value)
    ensures NewPointer(copy) && (copy != null ==> NewNtp(copy.value))
  {
    copy := p;
    if p != null {
      copy := new Cell(ZERO_NTP);
      copy.value := DeepCopyNtp(p.value);
    }
  }

  method DeepCopyUser(input: User) returns (out: User)
    modifies {}
    ensures SameUser(out, input)
    ensures NewUser(out)
  {
    out := input;
    var gecos := CopyPointer(input.gecos);
    out := out.(gecos := gecos);
    var groups := CopyPointer(input.groups);
    out := out.(groups := groups);
    var homeDir := CopyPointer(input.homeDir);
    out := out.(homeDir := homeDir);
    var inactive := CopyPointer(input.inactive);
    out := out.(inactive := inactive);
    var shell := CopyPointer(input.shell);
    out := out.(shell := shell);
    var passwd := CopyPointer(input.passwd);
    out := out.(passwd := passwd);
    var primaryGroup := CopyPointer(input.primaryGroup);
    out := out.(primaryGroup := primaryGroup);
    var lockPassword := CopyPointer(input.lockPassword);
    out := out.(lockPassword := lockPassword);
    var sudo := CopyPointer(input.sudo);
    out := out.(sudo := sudo);
    var keys := CopySlice(input.sshAuthorizedKeys);
    out := out.(sshAuthorizedKeys := keys);
  }

  method DeepCopyUsers(input: array?<User>) returns (out: array?<User>)
    modifies {}
    ensures SameUsers(out, input)
    ensures NewUsers(out)
  {
    hide SameUser;
    out := input;
    if input != null {
      out := new User[input.Length](_ => ZERO_USER);
      for i := 0 to input.Length
        invariant fresh(out) && out.Length == input.Length
        invariant forall k :: 0 <= k < i ==> NewUser(out[k]) && SameUser(out[k], input[k])
      {
        label Before:
        out[i] := DeepCopyUser(input[i]);
        forall k | 0 <= k < i
          ensures SameUser(out[k], input[k])
        {
          UserStays@Before(out, (out[k], input[k]));
        }
      }
    }
  }

  /** The fields of a spec that point to nothing further; the other two are left as they are. */
  method CopyFlatFields(input: Spec) returns (out: Spec)
    modifies {}
    ensures out.users == input.users && out.ntp == input.ntp
    ensures SamePointer(out.bmc, input.bmc) && SamePointer(out.image, input.image)
    ensures SameSlice(out.files, input.files) && SameSlice(out.cloudInitCommands, input.cloudInitCommands)
    ensures NewPointer(out.bmc) && NewPointer(out.image) && NewSlice(out.files) && NewSlice(out.cloudInitCommands)
  {
    out := input;
    var bmc := CopyPointer(input.bmc);
    out := out.(bmc := bmc);
    var image := CopyPointer(input.image);
    out := out.(image := image);
    var files := CopySlice(input.files);
    out := out.(files := files);
    var commands := CopySlice(input.cloudInitCommands);
    out := out.(cloudInitCommands := commands);
  }

  method DeepCopySpec(input: Spec) returns (out: Spec)
    modifies {}
    ensures SameSpec(out, input)
    ensures NewSpec(out)
  {
    hide SamePointer, SameSlice, SameUsers, SameNtp;
    out := CopyFlatFields(input);
    var users := DeepCopyUsers(input.users);
    out := out.(users := users);
    assert NewUsers(users);
    label WithUsers:
    var ntp := CopyNtpPointer(input.ntp);
    UsersStay@WithUsers(null, (users, input.users));
    out := out.(ntp := ntp);
  }

  method DeepCopyStatus(input: Status) returns (out: Status)
    modifies {}
    ensures SameStatus(out, input)
    ensures NewStatus(out)
  {
    out := input;
    var dataSecretName := CopyPointer(input.dataSecretName);
    out := out.(dataSecretName := dataSecretName);
    var userData := CopyPointer(input.userData);
    out := out.(userData := userData);
    var failureMessage := CopyPointer(input.failureMessage);
    out := out.(failureMessage := failureMessage);
  }

  method DeepCopyConfig(input: NodeConfig) returns (out: NodeConfig)
    modifies {}
    ensures SameConfig(out, input)
    ensures NewConfig(out)
  {
    out := input;
    var spec := DeepCopySpec(input.spec);
    out := out.(spec := spec);
    var status := DeepCopyStatus(input.status);
    out := out.(status := status);
  }

  method DeepCopyList(input: NodeConfigList) returns (out: NodeConfigList)
    modifies {}
    ensures SameList(out, input)
    ensures NewList(out)
  {
    hide SameConfig;
    out := input;
    if input.items != null {
      var items := new NodeConfig[input.items.Length](_ => ZERO_CONFIG);
      for i := 0 to input.items.Length
        invariant fresh(items) && items.Length == input.items.Length
        invariant forall k :: 0 <= k < i ==> NewConfig(items[k]) && SameConfig(items[k], input.items[k])
      {
        label Before:
        var copy := DeepCopyConfig(input.items[i]);
        items[i] := copy;
        forall k | 0 <= k < i
          ensures SameConfig(items[k], input.items[k])
        {
          ConfigStays@Before(items, (items[k], input.items[k]));
        }
      }
      out := out.(items := items);
    }
  }
}
