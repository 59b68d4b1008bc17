/** The cloud-init user data printer: the text left by each template once the
    template engine has applied its white-space trimming. */
module CloudInit {
  import opened Wrappers
  import opened NodeConfigTypes
  import opened Text
  import Quoting

  const CLOUD_CONFIG_HEADER := "## template: jinja\n#cloud-config\n"

  /** The `Indent` template function. */
  function Indent(i: nat, input: string): string {
    Spaces(i) + Join(Split(input), "\n" + Spaces(i))
  }

  function FileText(f: File): string {
    "\n-   path: " + f.path + "\n    "
    + (if f.encoding != "" then "encoding: \"" + f.encoding + "\"\n    " else "")
    + (if f.owner != "" then "owner: " + f.owner + "\n    " else "")
    + (if f.permissions != "" then "permissions: '" + f.permissions + "'\n    " else "")
    + "content: |\n" + Indent(6, f.content)
  }

  function FileListText(files: seq<File>): string {
    if files == [] then "" else FileText(files[0]) + FileListText(files[1..])
  }

  function FilesText(files: seq<File>): string {
    "write_files:" + FileListText(files)
  }

  function CommandsText(commands: seq<string>): string {
    if commands == [] then "" else "\n  - " + Quoting.Quote(commands[0]) + CommandsText(commands[1..])
  }

  function ItemsText(lead: string, items: seq<string>): string {
    if items == [] then "" else "\n" + lead + items[0] + ItemsText(lead, items[1..])
  }

  /** `if .Enabled` asks only whether the pointer is set. */
  function NtpText(ntp: Option<NTP>): string {
    if ntp.None? then ""
    else
      "\nntp:\n  "
      + (if ntp.value.enabled.Some? then "enabled: true\n  " else "")
      + "servers:" + ItemsText("    - ", ntp.value.servers)
  }

  function OptionalText(key: string, value: Option<string>): string {
    if value.None? then "" else "\n    " + key + ": " + value.value
  }

  function BoolText(b: bool): string {
    if b then "true" else "false"
  }

  /** `if .Inactive` asks only whether the pointer is set. */
  function UserText(u: User): string {
    "\n  - name: " + u.name
    + OptionalText("passwd", u.passwd)
    + OptionalText("gecos", u.gecos)
    + OptionalText("groups", u.groups)
    + OptionalText("homedir", u.homeDir)
    + (if u.inactive.Some? then "\n    inactive: true" else "")
    + (if u.lockPassword.Some? then "\n    lock_passwd: " + BoolText(u.lockPassword.value) else "")
    + OptionalText("shell", u.shell)
    + OptionalText("primary_group", u.primaryGroup)
    + OptionalText("sudo", u.sudo)
    + (if u.sshAuthorizedKeys != [] then "\n    ssh_authorized_keys:" + ItemsText("      - ", u.sshAuthorizedKeys) else "")
  }

  function UserListText(users: seq<User>): string {
    if users == [] then "" else UserText(users[0]) + UserListText(users[1..])
  }

  function UsersText(users: seq<User>): string {
    if users == [] then "" else "\nusers:" + UserListText(users)
  }

  /** The `nodeCloudInit` document. */
  function NodeText(files: seq<File>, joinConfiguration: string, commands: seq<string>, ntp: Option<NTP>, users: seq<User>): string {
    CLOUD_CONFIG_HEADER + "\n"
    + FilesText(files)
    + "\n-   path: /tmp/kubeadm-node.yaml"
    + "\n    owner: root:root"
    + "\n    permissions: '0640'"
    + "\n    content: |"
    + "\n      ---\n"
    + Indent(6, joinConfiguration)
    + "\nruncmd:"
    + CommandsText(commands)
    + NtpText(ntp)
    + UsersText(users)
    + "\n"
  }

  /** The user data that the operator stores for a spec. */
  function Render(spec: Spec): string {
    NodeText(spec.files, "", spec.cloudInitCommands, spec.ntp, spec.users)
  }

  /** The template input, which `NewNode` changes in place. */
  class NodeInput {
    var header: string
    var cloudInitCommands: seq<string>
    var additionalFiles: seq<File>
    var writeFiles: seq<File>
    var users: seq<User>
    var ntp: Option<NTP>
    var joinConfiguration: string

    constructor (commands: seq<string>, files: seq<File>, ntp: Option<NTP>, users: seq<User>)
      ensures header == "" && cloudInitCommands == commands && additionalFiles == files
      ensures writeFiles == [] && this.users == users && this.ntp == ntp && joinConfiguration == ""
    {
      header, writeFiles, joinConfiguration := "", [], "";
      cloudInitCommands, additionalFiles, this.ntp, this.users := commands, files, ntp, users;
    }

    /** The additional files are appended to the input's own list, so a second call on the same input prints them twice. */
    method NewNode() returns (data: string)
      modifies this`header, this`writeFiles
      ensures header == CLOUD_CONFIG_HEADER
      ensures writeFiles == old(writeFiles) + additionalFiles
      ensures data == NodeText(old(writeFiles) + additionalFiles, joinConfiguration, cloudInitCommands, ntp, users)
    {
      hide FilesText, Indent, CommandsText, NtpText, UsersText;
      header := CLOUD_CONFIG_HEADER;
      writeFiles := writeFiles + additionalFiles;
      data := header + "\n"
      + FilesText(writeFiles)
      + "\n-   path: /tmp/kubeadm-node.yaml"
    + "\n    owner: root:root"
    + "\n    permissions: '0640'"
    + "\n    content: |"
    + "\n      ---\n"
      + Indent(6, joinConfiguration)
      + "\nruncmd:"
      + CommandsText(cloudInitCommands)
      + NtpText(ntp)
      + UsersText(users)
      + "\n";
    }
  }
}
