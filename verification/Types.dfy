/** The fields of a NodeConfig that the operator reads and writes. */
module NodeConfigTypes {
  import opened Wrappers

  datatype BMC = BMC(address: string, bootMACAddress: string, bootMode: string, username: string, password: string)

  datatype Image = Image(url: string, checksum: string, checksumType: string)

  datatype File = File(path: string, owner: string, permissions: string, encoding: string, content: string)

  datatype User = User(
    name: string,
    gecos: Option<string>,
    groups: Option<string>,
    homeDir: Option<string>,
    inactive: Option<bool>,
    shell: Option<string>,
    passwd: Option<string>,
    primaryGroup: Option<string>,
    lockPassword: Option<bool>,
    sudo: Option<string>,
    sshAuthorizedKeys: seq<string>)

  datatype NTP = NTP(servers: seq<string>, enabled: Option<bool>)

  datatype Spec = Spec(
    bmc: Option<BMC>,
    image: Option<Image>,
    files: seq<File>,
    cloudInitCommands: seq<string>,
    users: seq<User>,
    ntp: Option<NTP>)

  datatype SecretRef = SecretRef(name: string, ns: string)

  /** What the operator writes into `status.failureMessage`; `MessageText` spells it out. */
  datatype Message =
    | CloudInitFailed
    | HostNotCreated
    | HostUnavailable(state: ProvisioningState)
    | NotAssociated
    | HostNotRead    // these two are always replaced by NotAssociated before anything is written
    | CallFailed

  /** The bare-metal operator's provisioning states that are told apart here: "ready", "inspecting",
      "registering", "match profile" and "available". */
  datatype StateName = Ready | Inspecting | Registering | MatchProfile | Available | OtherState(name: string)

  type ProvisioningState = s: StateName |
    s.OtherState? ==> s.name !in {"ready", "inspecting", "registering", "match profile", "available"}
    witness Ready

  /** The operational status "OK", or another one. */
  datatype StatusName = OK | NotOK(name: string)

  type OperationalStatus = s: StatusName | s.NotOK? ==> s.name != "OK" witness OK

  datatype Status = Status(
    ready: bool,
    dataSecretName: Option<string>,
    userData: Option<SecretRef>,
    failureReason: string,
    failureMessage: Option<Message>)

  const BLANK_STATUS := Status(false, None, None, "", None)

  function StateText(state: ProvisioningState): string {
    match state
    case Ready => "ready"
    case Inspecting => "inspecting"
    case Registering => "registering"
    case MatchProfile => "match profile"
    case Available => "available"
    case OtherState(name) => name
  }

  function StatusText(status: OperationalStatus): string {
    match status
    case OK => "OK"
    case NotOK(name) => name
  }

  /** Each text stands for one state only. */
  lemma StateTextIsInjective(s: ProvisioningState, t: ProvisioningState)
    requires StateText(s) == StateText(t)
    ensures s == t
  {
    assert |"ready"| == 5 && |"inspecting"| == 10 && |"registering"| == 11 && |"match profile"| == 13 && |"available"| == 9;
  }

  function MessageText(message: Message): string {
    match message
    case CloudInitFailed => "Failed to create a cloudinit config"
    case HostNotCreated => "Failed to create BareMetalHost"
    case HostUnavailable(state) =>
      "The found BareMetalHost is not available. BMH.provisioning.state: " + StateText(state)
    case HostNotRead => "Failed to get the BaremetalHost for the NodeConfig"
    case CallFailed => "(the text of the API server's error)"
    case NotAssociated => "Failed to associate the NodeConfig to a BaremetalHost"
  }

  const DEFAULT_BOOT_MODE := "UEFI"
  const DEFAULT_CHECKSUM_TYPE := "md5"

  function BootMode(bmc: BMC): string {
    if bmc.bootMode == "" then DEFAULT_BOOT_MODE else bmc.bootMode
  }

  function ChecksumType(image: Image): string {
    if image.checksumType == "" then DEFAULT_CHECKSUM_TYPE else image.checksumType
  }
}
