/** Which inputs give a document that YAML accepts as a stream of characters: those with no other character in any
    field but the commands, which are printed with escapes. */
module PrintableText {
  import opened Wrappers
  import opened NodeConfigTypes
  import opened Text
  import opened CloudInit
  import opened BlockScalar
  import opened DocumentLines
  import Quoting

  predicate PrintableOption(v: Option<string>) {
    v.Some? ==> Printable(v.value)
  }

  predicate AllPrintable(ls: seq<string>) {
    forall i :: 0 <= i < |ls| ==> Printable(ls[i])
  }

  predicate PrintableFile(f: File) {
    Printable(f.path) && Printable(f.encoding) && Printable(f.owner) && Printable(f.permissions) && Printable(f.content)
  }

  predicate PrintableUser(u: User) {
    && Printable(u.name)
    && PrintableOption(u.passwd) && PrintableOption(u.gecos) && PrintableOption(u.groups) && PrintableOption(u.homeDir)
    && PrintableOption(u.shell) && PrintableOption(u.primaryGroup) && PrintableOption(u.sudo)
    && AllPrintable(u.sshAuthorizedKeys)
  }

  /** Every field but the commands is printable. */
  predicate PrintableInput(files: seq<File>, join: string, ntp: Option<NTP>, users: seq<User>) {
    && (forall i :: 0 <= i < |files| ==> PrintableFile(files[i]))
    && Printable(join)
    && (ntp.Some? ==> AllPrintable(ntp.value.servers))
    && (forall i :: 0 <= i < |users| ==> PrintableUser(users[i]))
  }

  lemma PrintableConcat(a: string, b: string)
    ensures Printable(a + b) <==> Printable(a) && Printable(b)
  {
    hide YamlPrintable;
    if Printable(a + b) {
      assert forall i :: 0 <= i < |a| ==> a[i] == (a + b)[i];
      assert forall i :: 0 <= i < |b| ==> b[i] == (a + b)[|a| + i];
    }
  }

  lemma AllPrintableConcat(a: seq<string>, b: seq<string>)
    ensures AllPrintable(a + b) <==> AllPrintable(a) && AllPrintable(b)
  {
    hide Printable;
    if AllPrintable(a + b) {
      assert forall i :: 0 <= i < |a| ==> a[i] == (a + b)[i];
      assert forall i :: 0 <= i < |b| ==> b[i] == (a + b)[|a| + i];
    }
  }

  lemma {:induction false} GlueIsPrintable(ls: seq<string>)
    ensures Printable(Glue(ls)) <==> AllPrintable(ls)
  {
    if ls != [] {
      hide Printable;
      GlueIsPrintable(ls[1..]);
      BreakIsPrintable();
      PrintableConcat("\n", ls[0]);
      PrintableConcat("\n" + ls[0], Glue(ls[1..]));
      assert ls == [ls[0]] + ls[1..];
      AllPrintableConcat([ls[0]], ls[1..]);
      assert AllPrintable([ls[0]]) <==> Printable(ls[0]) by { OneLine(ls[0]); }
    }
  }

  lemma BreakIsPrintable()
    ensures Printable("\n")
  {}

  lemma OneLine(l: string)
    ensures AllPrintable([l]) <==> Printable(l)
  {
    hide Printable;
    assert [l][0] == l;
  }

  lemma {:induction false} SplitIsPrintable(s: string)
    ensures AllPrintable(Split(s)) <==> Printable(s)
  {
    JoinSplit(s);
    LinesJoined(Split(s));
  }

  lemma {:induction false} LinesJoined(ls: seq<string>)
    ensures Printable(Join(ls, "\n")) <==> AllPrintable(ls)
  {
    hide Printable;
    if |ls| == 0 {
      NothingIsPrintable();
    } else if |ls| > 1 {
      LinesJoined(ls[1..]);
      BreakIsPrintable();
      PrintableConcat(ls[0], "\n");
      PrintableConcat(ls[0] + "\n", Join(ls[1..], "\n"));
      assert ls == [ls[0]] + ls[1..];
      AllPrintableConcat([ls[0]], ls[1..]);
      OneLine(ls[0]);
    }
  }

  lemma NothingIsPrintable()
    ensures Printable("")
  {}

  lemma {:induction false} SpacesArePrintable(n: nat)
    ensures Printable(Spaces(n))
  {
    assert YamlPrintable(' ');
  }

  lemma IndentIsPrintable(i: nat, ls: seq<string>)
    ensures AllPrintable(IndentLines(i, ls)) <==> AllPrintable(ls)
  {
    hide Printable;
    SpacesArePrintable(i);
    forall m | 0 <= m < |ls|
      ensures Printable(IndentLines(i, ls)[m]) <==> Printable(ls[m])
    {
      PrintableConcat(Spaces(i), ls[m]);
    }
  }

  // ---- lines with one lead ----

  /** A line that starts with a printable text is printable when the rest is. */
  lemma LeadPrintable(lead: string, s: string)
    requires Printable(lead)
    ensures AllPrintable([lead + s]) <==> Printable(s)
  {
    hide Printable;
    PrintableConcat(lead, s);
    OneLine(lead + s);
  }

  lemma {:induction false} ItemLinesPrintable(lead: string, items: seq<string>)
    requires Printable(lead)
    ensures AllPrintable(ItemLines(lead, items)) <==> AllPrintable(items)
  {
    if items != [] {
      hide Printable;
      ItemLinesPrintable(lead, items[1..]);
      LeadPrintable(lead, items[0]);
      AllPrintableConcat([lead + items[0]], ItemLines(lead, items[1..]));
      assert items == [items[0]] + items[1..];
      AllPrintableConcat([items[0]], items[1..]);
      OneLine(items[0]);
    }
  }

  predicate PrintableFields(keys: seq<string>) {
    forall i :: 0 <= i < |keys| ==> Printable(Field(keys[i]))
  }

  predicate PrintableValues(values: seq<Option<string>>) {
    forall i :: 0 <= i < |values| ==> PrintableOption(values[i])
  }

  lemma {:induction false} FieldLinesPrintable(keys: seq<string>, values: seq<Option<string>>)
    requires |keys| == |values| && PrintableFields(keys)
    ensures AllPrintable(FieldLines(keys, values)) <==> PrintableValues(values)
  {
    if keys != [] {
      hide Printable, Field;
      FieldLinesPrintable(keys[1..], values[1..]);
      assert PrintableValues(values) <==> PrintableOption(values[0]) && PrintableValues(values[1..]) by {
        ValuesSplit(values);
      }
      if values[0].Some? {
        LeadPrintable(Field(keys[0]), values[0].value);
        AllPrintableConcat([Field(keys[0]) + values[0].value], FieldLines(keys[1..], values[1..]));
      } else {
        assert FieldLines(keys, values) == FieldLines(keys[1..], values[1..]);
      }
    }
  }

  lemma ValuesSplit(values: seq<Option<string>>)
    requires values != []
    ensures PrintableValues(values) <==> PrintableOption(values[0]) && PrintableValues(values[1..])
  {
    hide PrintableOption;
    if PrintableValues(values[1..]) {
      assert forall i :: 1 <= i < |values| ==> values[i] == values[1..][i - 1];
    }
  }

  // ---- the sections ----

  lemma FieldPrintable(key: string)
    requires Printable(key)
    ensures Printable(Field(key))
  {
    FieldEnds();
    hide Printable;
    PrintableConcat("    ", key);
    PrintableConcat("    " + key, ": ");
  }

  lemma FieldEnds()
    ensures Printable("    ") && Printable(": ")
  {}

  lemma FileKeysPrintable()
    ensures PrintableFields(FILE_KEYS)
  {
    assert Printable(FILE_KEYS[0]) && Printable(FILE_KEYS[1]) && Printable(FILE_KEYS[2]);
    hide Printable, Field;
    forall i | 0 <= i < |FILE_KEYS|
      ensures Printable(Field(FILE_KEYS[i]))
    {
      FieldPrintable(FILE_KEYS[i]);
    }
  }

  lemma UserKeysPrintable()
    ensures PrintableFields(USER_KEYS)
  {
    FirstKeysPrintable();
    LastKeysPrintable();
    hide Printable, Field;
    forall i | 0 <= i < |USER_KEYS|
      ensures Printable(Field(USER_KEYS[i]))
    {
      FieldPrintable(USER_KEYS[i]);
    }
  }

  lemma FirstKeysPrintable()
    ensures forall i :: 0 <= i < 5 ==> Printable(USER_KEYS[i])
  {}

  lemma LastKeysPrintable()
    ensures forall i :: 5 <= i < 9 ==> Printable(USER_KEYS[i])
  {}

  lemma Between(q: string, s: string)
    requires Printable(q)
    ensures Printable(q + s + q) <==> Printable(s)
  {
    hide Printable;
    PrintableConcat(q, s);
    PrintableConcat(q + s, q);
  }

  lemma QuotesArePrintable()
    ensures Printable("\"") && Printable("'")
  {}

  lemma FileValuesPrintable(f: File)
    ensures PrintableValues(FileValues(f)) <==> Printable(f.encoding) && Printable(f.owner) && Printable(f.permissions)
  {
    hide Printable;
    QuotesArePrintable();
    NothingIsPrintable();
    Between("\"", f.encoding);
    Between("'", f.permissions);
    var v := FileValues(f);
    assert PrintableValues(v) <==> PrintableOption(v[0]) && PrintableOption(v[1]) && PrintableOption(v[2]);
  }

  lemma FileLeads()
    ensures Printable("-   path: ") && Printable("    content: |")
  {}

  lemma FilePrintable(f: File)
    ensures AllPrintable(FileLines(f)) <==> PrintableFile(f)
  {
    hide Printable, AllPrintable, FieldLines, FileValues, IndentLines, Split, PrintableValues, PrintableFields;
    var path, fields, content, block :=
      ["-   path: " + f.path], FieldLines(FILE_KEYS, FileValues(f)), ["    content: |"], IndentLines(6, Split(f.content));
    FileLeads();
    FileKeysPrintable();
    LeadPrintable("-   path: ", f.path);
    FieldLinesPrintable(FILE_KEYS, FileValues(f));
    FileValuesPrintable(f);
    OneLine("    content: |");
    IndentIsPrintable(6, Split(f.content));
    SplitIsPrintable(f.content);
    AllPrintableConcat(path + fields + content, block);
    AllPrintableConcat(path + fields, content);
    AllPrintableConcat(path, fields);
  }

  lemma {:induction false} FileListPrintable(files: seq<File>)
    ensures AllPrintable(FileListLines(files)) <==> forall i :: 0 <= i < |files| ==> PrintableFile(files[i])
  {
    if files != [] {
      hide FileLines, PrintableFile, Printable;
      FilePrintable(files[0]);
      FileListPrintable(files[1..]);
      AllPrintableConcat(FileLines(files[0]), FileListLines(files[1..]));
      if PrintableFile(files[0]) && forall i :: 0 <= i < |files[1..]| ==> PrintableFile(files[1..][i]) {
        assert forall i :: 1 <= i < |files| ==> files[i] == files[1..][i - 1];
      }
    }
  }

  lemma KubeadmPrintable(join: string)
    ensures PrintableFile(KubeadmFile(join)) <==> Printable(join)
  {
    hide Printable;
    KubeadmFields();
    PrintableConcat("---\n", join);
  }

  lemma KubeadmFields()
    ensures Printable("/tmp/kubeadm-node.yaml") && Printable("root:root") && Printable("0640") && Printable("") && Printable("---\n")
  {}

  lemma HexIsPrintable(n: nat, v: nat)
    ensures Printable(Quoting.Hex(n, v))
  {
    if n > 0 {
      HexIsPrintable(n - 1, v / 16);
    }
  }

  /** Escapes are made of ASCII letters, digits and backslashes. */
  lemma EscapeCharPrintable(c: char)
    ensures Printable(Quoting.EscapeChar(c))
  {
    hide Quoting.Hex;
    HexIsPrintable(2, c as int);
    HexIsPrintable(4, c as int);
    HexIsPrintable(8, c as int);
  }

  lemma {:induction false} EscapePrintable(s: string)
    ensures Printable(Quoting.Escape(s))
  {
    if s != "" {
      hide Printable, Quoting.EscapeChar;
      EscapeCharPrintable(s[0]);
      EscapePrintable(s[1..]);
      PrintableConcat(Quoting.EscapeChar(s[0]), Quoting.Escape(s[1..]));
    }
  }

  /** A quoted command is printable whatever the command. */
  lemma QuotePrintable(s: string)
    ensures Printable(Quoting.Quote(s))
  {
    hide Printable, Quoting.Escape;
    QuotesArePrintable();
    EscapePrintable(s);
    Between("\"", Quoting.Escape(s));
  }

  lemma {:induction false} CommandsPrintable(commands: seq<string>)
    ensures AllPrintable(CommandLines(commands))
  {
    if commands != [] {
      ItemLead();
      hide Printable, Quoting.Quote;
      QuotePrintable(commands[0]);
      LeadPrintable("  - ", Quoting.Quote(commands[0]));
      CommandsPrintable(commands[1..]);
      AllPrintableConcat(["  - " + Quoting.Quote(commands[0])], CommandLines(commands[1..]));
    }
  }

  lemma ItemLead()
    ensures Printable("  - ") && Printable("    - ") && Printable("      - ")
  {}

  lemma NtpPrintable(ntp: Option<NTP>)
    ensures AllPrintable(NtpLines(ntp)) <==> (ntp.Some? ==> AllPrintable(ntp.value.servers))
  {
    if ntp.Some? {
      var head := ["ntp:"] + (if ntp.value.enabled.Some? then ["  enabled: true"] else []) + ["  servers:"];
      assert AllPrintable(head);
      hide Printable, ItemLines, AllPrintable;
      ItemLead();
      ItemLinesPrintable("    - ", ntp.value.servers);
      AllPrintableConcat(head, ItemLines("    - ", ntp.value.servers));
    }
  }

  lemma BoolPrintable()
    ensures Printable("true") && Printable("false")
  {}

  lemma UserValuesPrintable(u: User)
    ensures
      PrintableValues(UserValues(u))
      <==> && PrintableOption(u.passwd) && PrintableOption(u.gecos) && PrintableOption(u.groups) && PrintableOption(u.homeDir)
           && PrintableOption(u.shell) && PrintableOption(u.primaryGroup) && PrintableOption(u.sudo)
  {
    BoolPrintable();
    hide Printable;
    var v := UserValues(u);
    assert PrintableValues(v)
      <==> && PrintableOption(v[0]) && PrintableOption(v[1]) && PrintableOption(v[2]) && PrintableOption(v[3])
           && PrintableOption(v[4]) && PrintableOption(v[5]) && PrintableOption(v[6]) && PrintableOption(v[7]) && PrintableOption(v[8]);
  }

  lemma KeysPrintable(keys: seq<string>)
    ensures AllPrintable(KeyLines(keys)) <==> AllPrintable(keys)
  {
    if keys != [] {
      KeysHead();
      ItemLead();
      hide Printable, ItemLines;
      ItemLinesPrintable("      - ", keys);
      OneLine("    ssh_authorized_keys:");
      AllPrintableConcat(["    ssh_authorized_keys:"], ItemLines("      - ", keys));
    }
  }

  lemma KeysHead()
    ensures Printable("    ssh_authorized_keys:")
  {}

  lemma NameLead()
    ensures Printable("  - name: ")
  {}

  lemma UserPrintable(u: User)
    ensures AllPrintable(UserLines(u)) <==> PrintableUser(u)
  {
    NameLead();
    UserKeysPrintable();
    hide Printable, AllPrintable, FieldLines, UserValues, KeyLines, PrintableValues, PrintableOption, PrintableFields;
    var name, fields, keys := ["  - name: " + u.name], FieldLines(USER_KEYS, UserValues(u)), KeyLines(u.sshAuthorizedKeys);
    LeadPrintable("  - name: ", u.name);
    FieldLinesPrintable(USER_KEYS, UserValues(u));
    UserValuesPrintable(u);
    KeysPrintable(u.sshAuthorizedKeys);
    AllPrintableConcat(name + fields, keys);
    AllPrintableConcat(name, fields);
  }

  lemma {:induction false} UserListPrintable(users: seq<User>)
    ensures AllPrintable(UserListLines(users)) <==> forall i :: 0 <= i < |users| ==> PrintableUser(users[i])
  {
    if users != [] {
      hide UserLines, PrintableUser, Printable;
      UserPrintable(users[0]);
      UserListPrintable(users[1..]);
      AllPrintableConcat(UserLines(users[0]), UserListLines(users[1..]));
      if PrintableUser(users[0]) && forall i :: 0 <= i < |users[1..]| ==> PrintableUser(users[1..][i]) {
        assert forall i :: 1 <= i < |users| ==> users[i] == users[1..][i - 1];
      }
    }
  }

  lemma UsersPrintable(users: seq<User>)
    ensures AllPrintable(UsersLines(users)) <==> forall i :: 0 <= i < |users| ==> PrintableUser(users[i])
  {
    if users != [] {
      SectionHeads();
      hide Printable, UserListLines, PrintableUser;
      UserListPrintable(users);
      OneLine("users:");
      AllPrintableConcat(["users:"], UserListLines(users));
    }
  }

  lemma SectionHeads()
    ensures Printable("users:") && Printable("runcmd:") && Printable("")
  {}

  lemma TailPrintable(commands: seq<string>, ntp: Option<NTP>, users: seq<User>)
    ensures
      AllPrintable(TailLines(commands, ntp, users))
      <==> (ntp.Some? ==> AllPrintable(ntp.value.servers)) && forall i :: 0 <= i < |users| ==> PrintableUser(users[i])
  {
    SectionHeads();
    hide Printable, AllPrintable, CommandLines, NtpLines, UsersLines, PrintableUser;
    var a, b, c, d := ["runcmd:"], CommandLines(commands), NtpLines(ntp), UsersLines(users);
    OneLine("runcmd:");
    OneLine("");
    CommandsPrintable(commands);
    NtpPrintable(ntp);
    UsersPrintable(users);
    AllPrintableConcat(a + b + c + d, [""]);
    AllPrintableConcat(a + b + c, d);
    AllPrintableConcat(a + b, c);
    AllPrintableConcat(a, b);
  }

  lemma HeaderPrintable()
    ensures Printable(FIRST_LINE) && AllPrintable(["#cloud-config", "", "write_files:"])
  {}

  /** The document is made of characters that YAML accepts exactly when every field but the commands is. */
  lemma DocumentIsPrintable(files: seq<File>, join: string, commands: seq<string>, ntp: Option<NTP>, users: seq<User>)
    ensures Printable(NodeText(files, join, commands, ntp, users)) <==> PrintableInput(files, join, ntp, users)
  {
    HeaderPrintable();
    hide NodeText, Printable, AllPrintable, FileListLines, TailLines, PrintableFile, PrintableUser, Glue;
    var all := files + [KubeadmFile(join)];
    var h, body, tail := ["#cloud-config", "", "write_files:"], FileListLines(all), TailLines(commands, ntp, users);
    DocumentGlue(files, join, commands, ntp, users);
    PrintableConcat(FIRST_LINE, Glue(h + body + tail));
    GlueIsPrintable(h + body + tail);
    AllPrintableConcat(h + body, tail);
    AllPrintableConcat(h, body);
    FileListPrintable(all);
    TailPrintable(commands, ntp, users);
    KubeadmPrintable(join);
    assert (forall i :: 0 <= i < |all| ==> PrintableFile(all[i]))
      <==> (forall i :: 0 <= i < |files| ==> PrintableFile(files[i])) && Printable(join) by {
      assert all[|files|] == KubeadmFile(join);
      assert forall i :: 0 <= i < |files| ==> all[i] == files[i];
    }
  }
}
