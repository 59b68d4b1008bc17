/** The cloud-init document as a list of lines, and what its shallow lines depend on. */
module DocumentLines {
  import opened Wrappers
  import opened NodeConfigTypes
  import opened Text
  import opened CloudInit
  import opened BlockScalar
  import Quoting

  /** The start of a key on its own line, four spaces deep. */
  function Field(key: string): string {
    "    " + key + ": "
  }

  /** The keys that have a value, in order. */
  function FieldLines(keys: seq<string>, values: seq<Option<string>>): seq<string>
    requires |keys| == |values|
  {
    if keys == [] then []
    else (if values[0].Some? then [Field(keys[0]) + values[0].value] else []) + FieldLines(keys[1..], values[1..])
  }

  function ItemLines(lead: string, items: seq<string>): seq<string> {
    if items == [] then [] else [lead + items[0]] + ItemLines(lead, items[1..])
  }

  const FILE_KEYS := ["encoding", "owner", "permissions"]

  function FileValues(f: File): (values: seq<Option<string>>)
    ensures |values| == 3
  {
    [if f.encoding != "" then Some("\"" + f.encoding + "\"") else None,
     if f.owner != "" then Some(f.owner) else None,
     if f.permissions != "" then Some("'" + f.permissions + "'") else None]
  }

  function FileHead(f: File): seq<string> {
    ["-   path: " + f.path] + FieldLines(FILE_KEYS, FileValues(f)) + ["    content: |"]
  }

  function FileLines(f: File): seq<string> {
    FileHead(f) + IndentLines(6, Split(f.content))
  }

  function FileListLines(files: seq<File>): seq<string> {
    if files == [] then [] else FileLines(files[0]) + FileListLines(files[1..])
  }

  /** The last file of every document. */
  function KubeadmFile(joinConfiguration: string): File {
    File("/tmp/kubeadm-node.yaml", "root:root", "0640", "", "---\n" + joinConfiguration)
  }

  function CommandLines(commands: seq<string>): seq<string> {
    if commands == [] then [] else ["  - " + Quoting.Quote(commands[0])] + CommandLines(commands[1..])
  }

  function NtpLines(ntp: Option<NTP>): seq<string> {
    if ntp.None? then []
    else
      ["ntp:"] + (if ntp.value.enabled.Some? then ["  enabled: true"] else [])
      + ["  servers:"] + ItemLines("    - ", ntp.value.servers)
  }

  const USER_KEYS := ["passwd", "gecos", "groups", "homedir", "inactive", "lock_passwd", "shell", "primary_group", "sudo"]

  function UserValues(u: User): (values: seq<Option<string>>)
    ensures |values| == 9
  {
    [u.passwd, u.gecos, u.groups, u.homeDir,
     if u.inactive.Some? then Some("true") else None,
     if u.lockPassword.Some? then Some(BoolText(u.lockPassword.value)) else None,
     u.shell, u.primaryGroup, u.sudo]
  }

  function KeyLines(keys: seq<string>): seq<string> {
    if keys == [] then [] else ["    ssh_authorized_keys:"] + ItemLines("      - ", keys)
  }

  function UserLines(u: User): seq<string> {
    ["  - name: " + u.name] + FieldLines(USER_KEYS, UserValues(u)) + KeyLines(u.sshAuthorizedKeys)
  }

  function UserListLines(users: seq<User>): seq<string> {
    if users == [] then [] else UserLines(users[0]) + UserListLines(users[1..])
  }

  function UsersLines(users: seq<User>): seq<string> {
    if users == [] then [] else ["users:"] + UserListLines(users)
  }

  /** Everything after the first line. */
  function BodyLines(files: seq<File>, joinConfiguration: string, commands: seq<string>, ntp: Option<NTP>, users: seq<User>): seq<string> {
    ["#cloud-config", "", "write_files:"] + FileListLines(files + [KubeadmFile(joinConfiguration)])
    + TailLines(commands, ntp, users)
  }

  function TailLines(commands: seq<string>, ntp: Option<NTP>, users: seq<User>): seq<string> {
    ["runcmd:"] + CommandLines(commands) + NtpLines(ntp) + UsersLines(users) + [""]
  }

  const FIRST_LINE := "## template: jinja"

  lemma {:induction false} ItemsGlue(lead: string, items: seq<string>)
    ensures ItemsText(lead, items) == Glue(ItemLines(lead, items))
  {
    if items != [] {
      ItemsGlue(lead, items[1..]);
      assert ItemLines(lead, items)[1..] == ItemLines(lead, items[1..]);
      assert "\n" + lead + items[0] == "\n" + (lead + items[0]);
    }
  }

  lemma GlueOne(l: string)
    ensures Glue([l]) == "\n" + l
  {
    assert [l][1..] == [];
  }

  lemma {:induction false} CommandsGlue(commands: seq<string>)
    ensures CommandsText(commands) == Glue(CommandLines(commands))
  {
    hide Quoting.Quote;
    if commands != [] {
      CommandsGlue(commands[1..]);
      assert CommandLines(commands)[1..] == CommandLines(commands[1..]);
      assert "\n  - " + Quoting.Quote(commands[0]) == "\n" + ("  - " + Quoting.Quote(commands[0]));
    }
  }

  function FieldLine(key: string, value: Option<string>): seq<string> {
    if value.Some? then [Field(key) + value.value] else []
  }

  lemma {:induction false} FieldLinesSnoc(keys: seq<string>, values: seq<Option<string>>, n: nat)
    requires n < |keys| == |values|
    ensures FieldLines(keys[..n + 1], values[..n + 1]) == FieldLines(keys[..n], values[..n]) + FieldLine(keys[n], values[n])
  {
    hide Field;
    if n > 0 {
      FieldLinesSnoc(keys[1..], values[1..], n - 1);
      assert keys[..n + 1][1..] == keys[1..][..n] && values[..n + 1][1..] == values[1..][..n];
      assert keys[..n][1..] == keys[1..][..n - 1] && values[..n][1..] == values[1..][..n - 1];
    } else {
      assert keys[..1][1..] == [] && values[..1][1..] == [];
    }
  }

  lemma OptionalGlues(key: string, value: Option<string>)
    ensures OptionalText(key, value) == Glue(FieldLine(key, value))
  {
    if value.Some? {
      GlueOne(Field(key) + value.value);
      assert "\n    " + key + ": " + value.value == "\n" + (Field(key) + value.value);
    }
  }

  /** A text followed by the first `n` optional keys. */
  function WithFields(h: string, keys: seq<string>, values: seq<Option<string>>, n: nat): string
    requires n <= |keys| == |values|
  {
    if n == 0 then h else WithFields(h, keys, values, n - 1) + OptionalText(keys[n - 1], values[n - 1])
  }

  lemma {:induction false} FieldsGlue(ls: seq<string>, keys: seq<string>, values: seq<Option<string>>, n: nat)
    requires n <= |keys| == |values|
    ensures WithFields(Glue(ls), keys, values, n) == Glue(ls + FieldLines(keys[..n], values[..n]))
  {
    hide OptionalText, FieldLine, Glue;
    if n == 0 {
      assert ls + FieldLines(keys[..0], values[..0]) == ls;
    } else {
      FieldsGlue(ls, keys, values, n - 1);
      FieldLinesSnoc(keys, values, n - 1);
      var before, last := FieldLines(keys[..n - 1], values[..n - 1]), FieldLine(keys[n - 1], values[n - 1]);
      OptionalGlues(keys[n - 1], values[n - 1]);
      GlueConcat(ls + before, last);
      assert ls + (before + last) == ls + before + last;
    }
  }

  lemma FileGlue(f: File)
    ensures FileText(f) == Glue(FileLines(f))
  {
    hide Glue, Indent, Split, Field, IndentLines, OptionalText, FieldLines;
    var keys, values := FILE_KEYS, FileValues(f);
    var l0 := "-   path: " + f.path;
    var h0 := Glue([l0]);
    GlueOne(l0);
    FieldsGlue([l0], keys, values, 3);
    var h3 := WithFields(h0, keys, values, 3);
    assert keys[..3] == keys && values[..3] == values;
    HeadText(f, h0, h3);
    GlueConcat([l0] + FieldLines(keys, values), ["    content: |"]);
    GlueOne("    content: |");
    GlueConcat(FileHead(f), IndentLines(6, Split(f.content)));
    IndentGlues(6, f.content);
    ContentLiteral();
    ContentBreak(h3, Indent(6, f.content));
  }

  lemma OptionalAhead(x: string, key: string, value: Option<string>)
    ensures
      (x + "\n    ") + Ahead(key, value) == (x + OptionalText(key, value)) + "\n    "
  {
    if value.Some? {
      assert (x + "\n    ") + (key + ": " + value.value + "\n    ") == (x + ("\n    " + key + ": " + value.value)) + "\n    ";
    } else {
      assert x + "" == x;
      assert (x + "\n    ") + "" == x + "\n    ";
    }
  }

  /** An optional key with the template's own break after it. */
  function Ahead(key: string, value: Option<string>): string {
    if value.Some? then key + ": " + value.value + "\n    " else ""
  }

  lemma FileOptions(f: File)
    ensures Ahead("encoding", FileValues(f)[0]) == if f.encoding != "" then "encoding: \"" + f.encoding + "\"\n    " else ""
    ensures Ahead("owner", FileValues(f)[1]) == if f.owner != "" then "owner: " + f.owner + "\n    " else ""
    ensures Ahead("permissions", FileValues(f)[2]) == if f.permissions != "" then "permissions: '" + f.permissions + "'\n    " else ""
  {
    assert "encoding: \"" + f.encoding + "\"\n    " == "encoding" + ": " + ("\"" + f.encoding + "\"") + "\n    ";
    assert "owner: " + f.owner + "\n    " == "owner" + ": " + f.owner + "\n    ";
    assert "permissions: '" + f.permissions + "'\n    " == "permissions" + ": " + ("'" + f.permissions + "'") + "\n    ";
  }

  lemma FileParts(f: File)
    ensures
      var v := FileValues(f);
      FileText(f)
      == "\n-   path: " + f.path + "\n    " + Ahead("encoding", v[0]) + Ahead("owner", v[1]) + Ahead("permissions", v[2])
         + "content: |\n" + Indent(6, f.content)
  {
    hide Ahead, Indent, FileValues;
    FileOptions(f);
  }

  /** The head of a file entry with its optional keys, as the template writes it. */
  lemma HeadText(f: File, h0: string, h3: string)
    requires h0 == "\n" + ("-   path: " + f.path)
    requires h3 == WithFields(h0, FILE_KEYS, FileValues(f), 3)
    ensures FileText(f) == (h3 + "\n    ") + "content: |\n" + Indent(6, f.content)
  {
    FileParts(f);
    hide Indent, OptionalText, FileText, FileValues, Ahead, Split, Join;
    var v, h1, h2 := FileValues(f), WithFields(h0, FILE_KEYS, FileValues(f), 1), WithFields(h0, FILE_KEYS, FileValues(f), 2);
    assert h1 == WithFields(h0, FILE_KEYS, v, 0) + OptionalText("encoding", v[0]);
    assert h2 == h1 + OptionalText("owner", v[1]);
    assert h3 == h2 + OptionalText("permissions", v[2]);
    OptionalAhead(h0, "encoding", v[0]);
    OptionalAhead(h1, "owner", v[1]);
    OptionalAhead(h2, "permissions", v[2]);
    assert "\n-   path: " + f.path + "\n    " == h0 + "\n    ";
  }

  lemma {:induction false} FileListGlue(files: seq<File>)
    ensures FileListText(files) == Glue(FileListLines(files))
  {
    hide FileText, FileLines, Glue;
    if files == [] {
      assert Glue([]) == "" by { EmptyGlue(); }
    } else {
      FileGlue(files[0]);
      FileListGlue(files[1..]);
      GlueConcat(FileLines(files[0]), FileListLines(files[1..]));
    }
  }

  lemma EmptyGlue()
    ensures Glue([]) == ""
  {}

  lemma NtpHead(enabled: bool)
    ensures
      Glue(["ntp:"] + (if enabled then ["  enabled: true"] else []) + ["  servers:"])
      == "\nntp:\n  " + (if enabled then "enabled: true\n  " else "") + "servers:"
  {
    hide Glue;
    if enabled {
      EnabledHead();
    } else {
      PlainHead();
    }
  }

  lemma EnabledHead()
    ensures
      Glue(["ntp:"] + ["  enabled: true"] + ["  servers:"]) == "\nntp:\n  " + "enabled: true\n  " + "servers:"
  {
    hide Glue;
    assert ["ntp:"] + ["  enabled: true"] + ["  servers:"] == ["ntp:", "  enabled: true", "  servers:"];
    GlueThree("ntp:", "  enabled: true", "  servers:");
    EnabledLiteral();
  }

  lemma EnabledLiteral()
    ensures
      ("\n" + "ntp:") + ("\n" + "  enabled: true") + ("\n" + "  servers:") == "\nntp:\n  " + "enabled: true\n  " + "servers:"
  {}

  lemma PlainHead()
    ensures Glue(["ntp:"] + [] + ["  servers:"]) == "\nntp:\n  " + "" + "servers:"
  {
    hide Glue;
    assert ["ntp:"] + [] + ["  servers:"] == ["ntp:"] + ["  servers:"];
    GlueConcat(["ntp:"], ["  servers:"]);
    GlueOne("ntp:");
    GlueOne("  servers:");
    PlainLiteral();
  }

  lemma PlainLiteral()
    ensures ("\n" + "ntp:") + ("\n" + "  servers:") == "\nntp:\n  " + "" + "servers:"
  {}

  lemma GlueThree(a: string, b: string, c: string)
    ensures Glue([a, b, c]) == ("\n" + a) + ("\n" + b) + ("\n" + c)
  {
    assert [a, b, c] == [a] + [b] + [c];
    GlueOne(a);
    GlueOne(b);
    GlueOne(c);
    GlueConcat([a] + [b], [c]);
    GlueConcat([a], [b]);
  }

  lemma NtpGlue(ntp: Option<NTP>)
    ensures NtpText(ntp) == Glue(NtpLines(ntp))
  {
    if ntp.Some? {
      hide Glue, ItemsText, ItemLines;
      var enabled := ntp.value.enabled.Some?;
      ItemsGlue("    - ", ntp.value.servers);
      NtpHead(enabled);
      GlueConcat(["ntp:"] + (if enabled then ["  enabled: true"] else []) + ["  servers:"], ItemLines("    - ", ntp.value.servers));
    } else {
      EmptyGlue();
    }
  }

  lemma UserFields(u: User, h: string)
    ensures
      WithFields(h, USER_KEYS, UserValues(u), 9)
      == h
         + OptionalText("passwd", u.passwd)
         + OptionalText("gecos", u.gecos)
         + OptionalText("groups", u.groups)
         + OptionalText("homedir", u.homeDir)
         + OptionalText("inactive", UserValues(u)[4])
         + OptionalText("lock_passwd", UserValues(u)[5])
         + OptionalText("shell", u.shell)
         + OptionalText("primary_group", u.primaryGroup)
         + OptionalText("sudo", u.sudo)
  {
    hide OptionalText;
    var k, v := USER_KEYS, UserValues(u);
    assert WithFields(h, k, v, 1) == h + OptionalText("passwd", u.passwd);
    assert WithFields(h, k, v, 2) == WithFields(h, k, v, 1) + OptionalText("gecos", u.gecos);
    assert WithFields(h, k, v, 3) == WithFields(h, k, v, 2) + OptionalText("groups", u.groups);
    assert WithFields(h, k, v, 4) == WithFields(h, k, v, 3) + OptionalText("homedir", u.homeDir);
    assert WithFields(h, k, v, 5) == WithFields(h, k, v, 4) + OptionalText("inactive", v[4]);
    assert WithFields(h, k, v, 6) == WithFields(h, k, v, 5) + OptionalText("lock_passwd", v[5]);
    assert WithFields(h, k, v, 7) == WithFields(h, k, v, 6) + OptionalText("shell", u.shell);
    assert WithFields(h, k, v, 8) == WithFields(h, k, v, 7) + OptionalText("primary_group", u.primaryGroup);
    assert WithFields(h, k, v, 9) == WithFields(h, k, v, 8) + OptionalText("sudo", u.sudo);
  }

  lemma KeysLiteral()
    ensures "\n" + "    ssh_authorized_keys:" == "\n    ssh_authorized_keys:"
  {}

  lemma KeysGlue(keys: seq<string>)
    ensures Glue(KeyLines(keys)) == if keys != [] then "\n    ssh_authorized_keys:" + ItemsText("      - ", keys) else ""
  {
    if keys == [] {
      EmptyGlue();
    } else {
      hide Glue, ItemsText, ItemLines;
      ItemsGlue("      - ", keys);
      GlueOne("    ssh_authorized_keys:");
      KeysLiteral();
      GlueConcat(["    ssh_authorized_keys:"], ItemLines("      - ", keys));
    }
  }

  lemma BoolFields(u: User)
    ensures OptionalText("inactive", UserValues(u)[4]) == if u.inactive.Some? then "\n    inactive: true" else ""
    ensures
      OptionalText("lock_passwd", UserValues(u)[5])
      == if u.lockPassword.Some? then "\n    lock_passwd: " + BoolText(u.lockPassword.value) else ""
  {
    assert "\n    " + "inactive" + ": " + "true" == "\n    inactive: true";
    assert "\n    " + "lock_passwd" + ": " == "\n    lock_passwd: ";
  }

  lemma UserGlue(u: User)
    ensures UserText(u) == Glue(UserLines(u))
  {
    hide Glue, Field, OptionalText, FieldLines, ItemsText, BoolText;
    var keys, values, l0 := USER_KEYS, UserValues(u), "  - name: " + u.name;
    GlueOne(l0);
    assert "\n  - name: " + u.name == "\n" + l0;
    FieldsGlue([l0], keys, values, 9);
    assert keys[..9] == keys && values[..9] == values;
    UserFields(u, Glue([l0]));
    BoolFields(u);
    KeysGlue(u.sshAuthorizedKeys);
    GlueConcat([l0] + FieldLines(keys, values), KeyLines(u.sshAuthorizedKeys));
  }

  lemma {:induction false} UserListGlue(users: seq<User>)
    ensures UserListText(users) == Glue(UserListLines(users))
  {
    hide UserText, UserLines, Glue;
    if users == [] {
      EmptyGlue();
    } else {
      UserGlue(users[0]);
      UserListGlue(users[1..]);
      GlueConcat(UserLines(users[0]), UserListLines(users[1..]));
    }
  }

  lemma UsersGlue(users: seq<User>)
    ensures UsersText(users) == Glue(UsersLines(users))
  {
    hide UserListText, UserListLines, Glue;
    if users == [] {
      EmptyGlue();
    } else {
      UserListGlue(users);
      GlueOne("users:");
      GlueConcat(["users:"], UserListLines(users));
    }
  }

  lemma TailGlue(commands: seq<string>, ntp: Option<NTP>, users: seq<User>)
    ensures
      "\nruncmd:" + CommandsText(commands) + NtpText(ntp) + UsersText(users) + "\n" == Glue(TailLines(commands, ntp, users))
  {
    hide Glue, CommandsText, CommandLines, NtpText, NtpLines, UsersText, UsersLines;
    GlueOne("runcmd:");
    GlueOne("");
    CommandsGlue(commands);
    NtpGlue(ntp);
    UsersGlue(users);
    var a, b, c := CommandLines(commands), NtpLines(ntp), UsersLines(users);
    GlueConcat(["runcmd:"], a);
    GlueConcat(["runcmd:"] + a, b);
    GlueConcat(["runcmd:"] + a + b, c);
    GlueConcat(["runcmd:"] + a + b + c, [""]);
    assert "\n" + "" == "\n";
  }

  function KubeadmEntry(joinConfiguration: string): string {
    "\n-   path: /tmp/kubeadm-node.yaml"
    + "\n    owner: root:root"
    + "\n    permissions: '0640'"
    + "\n    content: |"
    + "\n      ---\n"
    + Indent(6, joinConfiguration)
  }

  lemma HeadWithoutEncoding(f: File)
    requires f.encoding == "" && f.owner != "" && f.permissions != ""
    ensures
      FileHead(f)
      == ["-   path: " + f.path] + [Field("owner") + f.owner] + [Field("permissions") + ("'" + f.permissions + "'")] + ["    content: |"]
  {
    hide Field;
    var k, v := FILE_KEYS, FileValues(f);
    assert k[2..][1..] == k[3..] && v[2..][1..] == v[3..] && k[1..][1..] == k[2..] && v[1..][1..] == v[2..];
    assert FieldLines(k[3..], v[3..]) == [];
    assert FieldLines(k[2..], v[2..]) == [Field("permissions") + v[2].value] + FieldLines(k[3..], v[3..]);
    assert FieldLines(k[1..], v[1..]) == [Field("owner") + v[1].value] + FieldLines(k[2..], v[2..]);
  }

  lemma KubeadmHead(f: File)
    requires f.path == "/tmp/kubeadm-node.yaml" && f.owner == "root:root" && f.permissions == "0640" && f.encoding == ""
    ensures
      FileHead(f) == ["-   path: /tmp/kubeadm-node.yaml"] + ["    owner: root:root"] + ["    permissions: '0640'"] + ["    content: |"]
  {
    hide FileHead, Field;
    HeadWithoutEncoding(f);
    OwnerField();
    PermissionsField();
    PathField();
  }

  lemma OwnerField()
    ensures Field("owner") + "root:root" == "    owner: root:root"
  {}

  lemma PermissionsField()
    ensures "'" + "0640" + "'" == "'0640'"
    ensures Field("permissions") + "'0640'" == "    permissions: '0640'"
  {}

  lemma PathField()
    ensures "-   path: " + "/tmp/kubeadm-node.yaml" == "-   path: /tmp/kubeadm-node.yaml"
  {}

  /** The last entry is written like any other file. */
  lemma KubeadmText(joinConfiguration: string)
    ensures FileText(KubeadmFile(joinConfiguration)) == KubeadmEntry(joinConfiguration)
  {
    hide FileText, FileHead, Glue, Indent, Split, IndentLines;
    var f := KubeadmFile(joinConfiguration);
    FileGlue(f);
    KubeadmHead(f);
    KubeadmContent(joinConfiguration);
    KubeadmHeadGlue();
    var head := ["-   path: /tmp/kubeadm-node.yaml"] + ["    owner: root:root"] + ["    permissions: '0640'"] + ["    content: |"];
    var tail := IndentLines(6, Split(joinConfiguration));
    GlueOne("      ---");
    GlueConcat(["      ---"], tail);
    GlueConcat(head, ["      ---"] + tail);
    IndentGlues(6, joinConfiguration);
    var i := Indent(6, joinConfiguration);
    assert "\n" + "      ---" + ("\n" + i) == "\n      ---\n" + i;
  }

  lemma KubeadmHeadGlue()
    ensures
      Glue(["-   path: /tmp/kubeadm-node.yaml"] + ["    owner: root:root"] + ["    permissions: '0640'"] + ["    content: |"])
      == "\n-   path: /tmp/kubeadm-node.yaml" + "\n    owner: root:root" + "\n    permissions: '0640'" + "\n    content: |"
  {
    hide Glue;
    GlueFour("-   path: /tmp/kubeadm-node.yaml", "    owner: root:root", "    permissions: '0640'", "    content: |");
    PathLiteral();
    OwnerLiteral();
    PermissionsLiteral();
    ContentLiteral();
  }

  lemma PathLiteral()
    ensures "\n" + "-   path: /tmp/kubeadm-node.yaml" == "\n-   path: /tmp/kubeadm-node.yaml"
  {}

  lemma OwnerLiteral()
    ensures "\n" + "    owner: root:root" == "\n    owner: root:root"
  {}

  lemma PermissionsLiteral()
    ensures "\n" + "    permissions: '0640'" == "\n    permissions: '0640'"
  {}

  lemma ContentLiteral()
    ensures "\n" + "    content: |" == "\n    content: |"
  {}

  lemma ContentBreak(x: string, i: string)
    ensures (x + "\n    ") + "content: |\n" + i == (x + "\n    content: |") + ("\n" + i)
  {
    assert "\n    " + "content: |\n" == "\n    content: |" + "\n";
  }

  lemma GlueFour(a: string, b: string, c: string, d: string)
    ensures Glue([a] + [b] + [c] + [d]) == ("\n" + a) + ("\n" + b) + ("\n" + c) + ("\n" + d)
  {
    GlueOne(a);
    GlueOne(b);
    GlueOne(c);
    GlueOne(d);
    hide Glue;
    GlueConcat([a], [b]);
    GlueConcat([a] + [b], [c]);
    GlueConcat([a] + [b] + [c], [d]);
  }

  lemma KubeadmContent(joinConfiguration: string)
    ensures
      IndentLines(6, Split(KubeadmFile(joinConfiguration).content))
      == ["      ---"] + IndentLines(6, Split(joinConfiguration))
  {
    hide Split;
    assert "---\n" + joinConfiguration == "---" + "\n" + joinConfiguration;
    SplitAtBreak("---", joinConfiguration);
    SplitLine("---");
    assert Spaces(6) + "---" == "      ---";
    var ls := Split(joinConfiguration);
    assert IndentLines(6, ["---"] + ls) == ["      ---"] + IndentLines(6, ls);
  }

  lemma {:induction false} FileListSnoc(files: seq<File>, f: File)
    ensures FileListText(files + [f]) == FileListText(files) + FileText(f)
  {
    hide FileText;
    if files == [] {
      assert [f][1..] == [];
      assert FileListText([f]) == FileText(f) + FileListText([]);
    } else {
      assert (files + [f])[1..] == files[1..] + [f];
      FileListSnoc(files[1..], f);
    }
  }

  /** The whole document. */
  lemma DocumentGlue(files: seq<File>, joinConfiguration: string, commands: seq<string>, ntp: Option<NTP>, users: seq<User>)
    ensures NodeText(files, joinConfiguration, commands, ntp, users) == FIRST_LINE + Glue(BodyLines(files, joinConfiguration, commands, ntp, users))
  {
    hide Glue, Indent, FileText, FileListText, FileListLines, CommandsText, NtpText, UsersText, TailLines;
    var all := files + [KubeadmFile(joinConfiguration)];
    KubeadmText(joinConfiguration);
    FileListSnoc(files, KubeadmFile(joinConfiguration));
    FileListGlue(all);
    TailGlue(commands, ntp, users);
    HeaderGlue();
    var h, tail := ["#cloud-config", "", "write_files:"], TailLines(commands, ntp, users);
    GlueConcat(h, FileListLines(all));
    GlueConcat(h + FileListLines(all), tail);
    Regroup(files, joinConfiguration, commands, ntp, users);
  }

  lemma HeaderGlue()
    ensures CLOUD_CONFIG_HEADER + "\n" + "write_files:" == FIRST_LINE + Glue(["#cloud-config", "", "write_files:"])
  {
    hide Glue;
    GlueThree("#cloud-config", "", "write_files:");
    HeaderLiteral();
    assert "\n" + "" == "\n";
  }

  lemma HeaderLiteral()
    ensures CLOUD_CONFIG_HEADER == FIRST_LINE + ("\n" + "#cloud-config") + "\n"
  {}

  lemma Regroup(files: seq<File>, joinConfiguration: string, commands: seq<string>, ntp: Option<NTP>, users: seq<User>)
    ensures
      NodeText(files, joinConfiguration, commands, ntp, users)
      == (CLOUD_CONFIG_HEADER + "\n" + "write_files:")
         + (FileListText(files)
            + KubeadmEntry(joinConfiguration))
         + ("\nruncmd:" + CommandsText(commands) + NtpText(ntp) + UsersText(users) + "\n")
  {
    hide Indent, FileListText, CommandsText, NtpText, UsersText;
  }
}
