/** Reading what has been printed: the reader recovers the document exactly when its scalars are fit for the
    style they are printed in. */
module RoundTrip {
  import opened Wrappers
  import opened NodeConfigTypes
  import opened Text
  import opened CloudInit
  import opened BlockScalar
  import opened DocumentLines
  import opened Reader
  import Quoting

  predicate AllPlain(items: seq<string>) {
    forall i :: 0 <= i < |items| ==> PlainSafe(items[i])
  }

  predicate OptionalPlain(v: Option<string>) {
    v.Some? ==> PlainSafe(v.value)
  }

  /** Fit for double quotes without any escaping. */
  predicate DoubleSafe(s: string) {
    '"' !in s && '\\' !in s && '\n' !in s && '\r' !in s
  }

  /** Fit for single quotes without any escaping. */
  predicate SingleSafe(s: string) {
    '\'' !in s && '\n' !in s && '\r' !in s
  }

  predicate FitFile(f: File) {
    && PlainSafe(f.path)
    && DoubleSafe(f.encoding)
    && (f.owner == "" || PlainSafe(f.owner))
    && SingleSafe(f.permissions)
    && PlainStart(Split(f.content)) && NoReturn(Split(f.content))
  }

  predicate FitUser(u: User) {
    && PlainSafe(u.name)
    && OptionalPlain(u.passwd) && OptionalPlain(u.gecos) && OptionalPlain(u.groups) && OptionalPlain(u.homeDir)
    && OptionalPlain(u.shell) && OptionalPlain(u.primaryGroup) && OptionalPlain(u.sudo)
    && AllPlain(u.sshAuthorizedKeys)
  }

  predicate Fit(files: seq<File>, join: string, ntp: Option<NTP>, users: seq<User>) {
    && (forall i :: 0 <= i < |files| ==> FitFile(files[i]))
    && '\r' !in join
    && (ntp.Some? ==> AllPlain(ntp.value.servers))
    && (forall i :: 0 <= i < |users| ==> FitUser(users[i]))
  }

  /** What comes back of a file: the content up to clip chomping. */
  function FileBack(f: File): File {
    f.(content := Clipped(f.content))
  }

  /** What comes back of a pointer that is only tested for presence. */
  function Presence(b: Option<bool>): Option<bool> {
    if b.Some? then Some(true) else None
  }

  function UserBack(u: User): User {
    u.(inactive := Presence(u.inactive))
  }

  function NtpBack(ntp: Option<NTP>): Option<NTP> {
    if ntp.Some? then Some(ntp.value.(enabled := Presence(ntp.value.enabled))) else None
  }

  function FilesBack(files: seq<File>): seq<File> {
    if files == [] then [] else [FileBack(files[0])] + FilesBack(files[1..])
  }

  function UsersBack(users: seq<User>): seq<User> {
    if users == [] then [] else [UserBack(users[0])] + UsersBack(users[1..])
  }

  // ---- scalars ----

  lemma {:induction false} DoubleQuotedShrinks(s: string)
    requires Quoting.ReadRest(s).Some?
    ensures |Quoting.ReadRest(s).value| < |s|
    ensures |Quoting.ReadRest(s).value| == |s| - 1 ==> DoubleSafe(s[..|s| - 1])
    decreases |s|
  {
    hide Quoting.Letter, Quoting.HexNumber;
    if s[0] != '"' {
      if s[0] != '\\' {
        DoubleQuotedShrinks(s[1..]);
        assert s[..|s| - 1] == [s[0]] + s[1..][..|s[1..]| - 1];
      } else if Quoting.Letter(s[1]).Some? {
        DoubleQuotedShrinks(s[2..]);
      } else {
        DoubleQuotedShrinks(s[2 + Quoting.Width(s[1])..]);
      }
    }
  }

  lemma {:induction false} DoubleQuotedReads(s: string)
    requires DoubleSafe(s)
    ensures Quoting.ReadRest(s + "\"") == Some(s)
  {
    if s != "" {
      DoubleQuotedReads(s[1..]);
      assert (s + "\"")[1..] == s[1..] + "\"";
      assert [s[0]] + s[1..] == s;
    }
  }

  /** Text put between double quotes as it stands is read back exactly when nothing in it would have needed escaping. */
  lemma RawDoubleQuotes(s: string)
    ensures Quoting.ReadQuoted("\"" + s + "\"") == Some(s) <==> DoubleSafe(s)
  {
    var t := s + "\"";
    assert ("\"" + s + "\"")[1..] == t && t[..|t| - 1] == s;
    if DoubleSafe(s) {
      DoubleQuotedReads(s);
    } else if Quoting.ReadRest(t).Some? {
      DoubleQuotedShrinks(t);
    }
  }

  lemma {:induction false} SingleQuotedShrinks(s: string)
    requires ReadSingleRest(s).Some?
    ensures |ReadSingleRest(s).value| < |s|
    ensures |ReadSingleRest(s).value| == |s| - 1 ==> SingleSafe(s[..|s| - 1])
    decreases |s|
  {
    if s[0] != '\'' {
      SingleQuotedShrinks(s[1..]);
      assert s[..|s| - 1] == [s[0]] + s[1..][..|s[1..]| - 1];
    } else if |s| > 1 {
      SingleQuotedShrinks(s[2..]);
    }
  }

  lemma {:induction false} SingleQuotedReads(s: string)
    requires SingleSafe(s)
    ensures ReadSingleRest(s + "'") == Some(s)
  {
    if s != "" {
      SingleQuotedReads(s[1..]);
      assert (s + "'")[1..] == s[1..] + "'";
      assert [s[0]] + s[1..] == s;
    }
  }

  lemma RawSingleQuotes(s: string)
    ensures ReadSingle("'" + s + "'") == Some(s) <==> SingleSafe(s)
  {
    var t := s + "'";
    assert ("'" + s + "'")[1..] == t && t[..|t| - 1] == s;
    if SingleSafe(s) {
      SingleQuotedReads(s);
    } else if ReadSingleRest(t).Some? {
      SingleQuotedShrinks(t);
    }
  }

  // ---- optional keys ----

  predicate NoColon(key: string) {
    ':' !in key
  }

  /** A line with one key does not start with another key. */
  lemma KeysDiffer(key: string, key': string, tail: string)
    requires NoColon(key) && NoColon(key')
    ensures StartsWith("    " + key' + ":" + tail, Field(key)) ==> key == key'
  {
    var l, p := "    " + key' + ":" + tail, Field(key);
    assert l[4 + |key'|] == ':' && p[4 + |key|] == ':';
    if |key| < |key'| {
      assert l[4 + |key|] == key'[|key|];
    } else if |key| > |key'| {
      assert p[4 + |key'|] == key[|key'|];
    } else {
      assert key == p[4..4 + |key|] && key' == l[4..4 + |key'|];
    }
  }

  predicate Avoids(lines: seq<string>, key: string) {
    lines == [] || !StartsWith(lines[0], Field(key))
  }

  predicate ProperKeys(keys: seq<string>) {
    && (forall i :: 0 <= i < |keys| ==> NoColon(keys[i]))
    && (forall i, j :: 0 <= i < j < |keys| ==> keys[i] != keys[j])
  }

  lemma {:induction false} FieldLinesAvoid(key: string, keys: seq<string>, values: seq<Option<string>>, rest: seq<string>)
    requires |keys| == |values| && NoColon(key) && ProperKeys(keys) && key !in keys && Avoids(rest, key)
    ensures Avoids(FieldLines(keys, values) + rest, key)
  {
    if keys == [] {
      assert FieldLines(keys, values) + rest == rest;
    } else if values[0].Some? {
      var l := Field(keys[0]) + values[0].value;
      assert l == "    " + keys[0] + ":" + (" " + values[0].value);
      KeysDiffer(key, keys[0], " " + values[0].value);
    } else {
      FieldLinesAvoid(key, keys[1..], values[1..], rest);
      assert FieldLines(keys, values) + rest == FieldLines(keys[1..], values[1..]) + rest;
    }
  }

  lemma {:induction false} FieldsRead(keys: seq<string>, values: seq<Option<string>>, rest: seq<string>)
    requires |keys| == |values| && ProperKeys(keys) && forall i :: 0 <= i < |keys| ==> Avoids(rest, keys[i])
    ensures ReadFields(keys, FieldLines(keys, values) + rest) == (values, rest)
  {
    hide Field;
    if keys == [] {
      assert FieldLines(keys, values) + rest == rest;
    } else {
      var tail := FieldLines(keys[1..], values[1..]) + rest;
      FieldsRead(keys[1..], values[1..], rest);
      assert values == [values[0]] + values[1..];
      if values[0].Some? {
        var l := Field(keys[0]) + values[0].value;
        assert FieldLines(keys, values) + rest == [l] + tail;
        assert l[|Field(keys[0])|..] == values[0].value && StartsWith(l, Field(keys[0]));
      } else {
        assert FieldLines(keys, values) + rest == tail;
        FieldLinesAvoid(keys[0], keys[1..], values[1..], rest);
      }
    }
  }

  lemma FileKeysProper()
    ensures ProperKeys(FILE_KEYS) && "content" !in FILE_KEYS && NoColon("content")
  {
    assert |FILE_KEYS[0]| == 8 && |FILE_KEYS[1]| == 5 && |FILE_KEYS[2]| == 11;
  }

  lemma UserKeysProper()
    ensures ProperKeys(USER_KEYS) && "ssh_authorized_keys" !in USER_KEYS && NoColon("ssh_authorized_keys")
  {
    hide NoColon;
    UserKeysPlain();
    assert |"ssh_authorized_keys"| == 19;
    assert USER_KEYS[0][0] == 'p' && USER_KEYS[2][0] == 'g' && USER_KEYS[1][1] == 'e' && USER_KEYS[6][1] == 'h';
    assert |USER_KEYS[0]| == 6 && |USER_KEYS[1]| == 5 && |USER_KEYS[2]| == 6 && |USER_KEYS[3]| == 7 && |USER_KEYS[4]| == 8;
    assert |USER_KEYS[5]| == 11 && |USER_KEYS[6]| == 5 && |USER_KEYS[7]| == 13 && |USER_KEYS[8]| == 4;
  }

  lemma UserKeysPlain()
    ensures forall i :: 0 <= i < |USER_KEYS| ==> NoColon(USER_KEYS[i])
    ensures NoColon("ssh_authorized_keys")
  {}

  // ---- items ----

  lemma LeadTaken(lead: string, s: string)
    ensures StartsWith(lead + s, lead) && (lead + s)[|lead|..] == s
  {}

  lemma {:induction false} ItemsRead(lead: string, items: seq<string>, rest: seq<string>)
    requires rest == [] || !StartsWith(rest[0], lead)
    ensures ReadItems(lead, ItemLines(lead, items) + rest) == if AllPlain(items) then Some((items, rest)) else None
  {
    if items == [] {
      assert ItemLines(lead, items) + rest == rest;
    } else {
      hide PlainSafe, StartsWith;
      ItemsRead(lead, items[1..], rest);
      var lines := ItemLines(lead, items) + rest;
      assert lines[0] == lead + items[0] && lines[1..] == ItemLines(lead, items[1..]) + rest;
      LeadTaken(lead, items[0]);
      assert items == [items[0]] + items[1..];
      assert AllPlain(items) <==> PlainSafe(items[0]) && AllPlain(items[1..]);
    }
  }

  // ---- files ----

  /** What reading the printed file gives, composed of what reading its scalars gives. */
  function FileRead(f: File): Option<File> {
    var raw := FileValues(f);
    var path :- ReadPlain(f.path);
    var encoding :- ReadOptional(raw[0], Quoting.ReadQuoted);
    var owner :- ReadOptional(raw[1], ReadPlain);
    var permissions :- ReadOptional(raw[2], ReadSingle);
    var content :- ReadBlock(IndentLines(6, Split(f.content)));
    Some(File(path, owner.GetOr(""), permissions.GetOr(""), encoding.GetOr(""), content))
  }

  function Followed<T>(v: Option<T>, rest: seq<string>): Read<T> {
    if v.Some? then Some((v.value, rest)) else None
  }

  lemma {:induction false} BlockTaken(block: seq<string>, rest: seq<string>)
    requires (forall m :: 0 <= m < |block| ==> InBlock(block[m])) && rest != [] && !InBlock(rest[0])
    ensures BlockSize(block + rest) == |block|
  {
    hide InBlock;
    if block != [] {
      assert (block + rest)[1..] == block[1..] + rest;
      BlockTaken(block[1..], rest);
    } else {
      assert block + rest == rest;
    }
  }

  lemma IndentedInBlock(ls: seq<string>)
    ensures forall m :: 0 <= m < |ls| ==> InBlock(IndentLines(6, ls)[m])
  {
    forall m | 0 <= m < |ls|
      ensures InBlock(IndentLines(6, ls)[m])
    {
      LeadIndented(6, ls[m]);
    }
  }

  lemma FileReads(f: File, rest: seq<string>)
    requires rest != [] && !InBlock(rest[0])
    ensures ReadFile(FileLines(f) + rest) == Followed(FileRead(f), rest)
  {
    hide Split, IndentLines, ReadBlock, FieldLines, FileValues, ReadFields, ReadOptional, ReadPlain, InBlock, StartsWith;
    var block := IndentLines(6, Split(f.content));
    var lines, head := FileLines(f) + rest, FieldLines(FILE_KEYS, FileValues(f));
    var rest1 := ["    content: |"] + block + rest;
    assert lines[0] == "-   path: " + f.path && lines[1..] == head + rest1;
    LeadTaken("-   path: ", f.path);
    FileKeysProper();
    ContentAvoids(rest1);
    FieldsRead(FILE_KEYS, FileValues(f), rest1);
    IndentedInBlock(Split(f.content));
    BlockTaken(block, rest);
    assert rest1[1..] == block + rest;
    assert (block + rest)[..|block|] == block && (block + rest)[|block|..] == rest;
  }

  lemma ContentAvoids(lines: seq<string>)
    requires lines != [] && lines[0] == "    content: |"
    ensures forall i :: 0 <= i < |FILE_KEYS| ==> Avoids(lines, FILE_KEYS[i])
  {
    FileKeysProper();
    assert "    content: |" == "    " + "content" + ":" + " |";
    forall i | 0 <= i < |FILE_KEYS|
      ensures Avoids(lines, FILE_KEYS[i])
    {
      KeysDiffer(FILE_KEYS[i], "content", " |");
    }
  }

  function FilesRead(files: seq<File>): Option<seq<File>> {
    if files == [] then Some([])
    else
      var f :- FileRead(files[0]);
      var fs :- FilesRead(files[1..]);
      Some([f] + fs)
  }

  lemma {:induction false} FileListReads(files: seq<File>, rest: seq<string>)
    requires rest != [] && !InBlock(rest[0]) && !StartsWith(rest[0], "-   path: ")
    ensures ReadFiles(FileListLines(files) + rest) == Followed(FilesRead(files), rest)
  {
    hide FileLines, FileRead, ReadFile, InBlock, StartsWith;
    if files == [] {
      assert FileListLines(files) + rest == rest;
    } else {
      var tail := FileListLines(files[1..]) + rest;
      assert FileListLines(files) + rest == FileLines(files[0]) + tail;
      FileListReads(files[1..], rest);
      FileStart(files[0]);
      if files[1..] != [] {
        FileStart(files[1]);
        assert tail[0] == FileLines(files[1])[0];
      } else {
        assert tail == rest;
      }
      FileReads(files[0], tail);
      assert (FileLines(files[0]) + tail)[0] == FileLines(files[0])[0];
    }
  }

  lemma FileStart(f: File)
    ensures FileLines(f) != [] && StartsWith(FileLines(f)[0], "-   path: ") && !InBlock(FileLines(f)[0])
  {
    hide FieldLines, FileValues, IndentLines, Split;
    LeadTaken("-   path: ", f.path);
    assert FileLines(f)[0] == "-   path: " + f.path;
    assert FileLines(f)[0][0] == '-';
  }

  /** A file comes back exactly when it is fit. */
  lemma FileComesBack(f: File)
    ensures FileRead(f) == Some(FileBack(f)) <==> FitFile(f)
  {
    hide PlainSafe, Split, IndentLines, ReadBlock, Clipped, PlainStart, NoReturn;
    RawDoubleQuotes(f.encoding);
    RawSingleQuotes(f.permissions);
    BlockRoundTrip(6, f.content);
  }

  lemma {:induction false} FilesComeBack(files: seq<File>)
    ensures FilesRead(files) == Some(FilesBack(files)) <==> forall i :: 0 <= i < |files| ==> FitFile(files[i])
  {
    hide FitFile, FileRead, FileBack;
    if files != [] {
      FileComesBack(files[0]);
      FilesComeBack(files[1..]);
      var all := forall i :: 0 <= i < |files| ==> FitFile(files[i]);
      assert all <==> FitFile(files[0]) && forall i :: 0 <= i < |files[1..]| ==> FitFile(files[1..][i]) by {
        if FitFile(files[0]) && forall i :: 0 <= i < |files[1..]| ==> FitFile(files[1..][i]) {
          assert forall i :: 1 <= i < |files| ==> files[i] == files[1..][i - 1];
        }
      }
      var a, b := FileRead(files[0]), FilesRead(files[1..]);
      if a.Some? && b.Some? {
        assert ([a.value] + b.value)[0] == a.value && ([a.value] + b.value)[1..] == b.value;
        assert FilesBack(files)[0] == FileBack(files[0]) && FilesBack(files)[1..] == FilesBack(files[1..]);
      }
    }
  }

  // ---- commands, NTP, users ----

  lemma CommandTaken(command: string, tail: seq<string>)
    ensures
      ReadCommands(["  - " + Quoting.Quote(command)] + tail)
      == match ReadCommands(tail)
         case None => None
         case Some((commands, rest)) => Some(([command] + commands, rest))
  {
    hide Quoting.Quote, Quoting.ReadQuoted, StartsWith;
    var l := "  - " + Quoting.Quote(command);
    LeadTaken("  - ", Quoting.Quote(command));
    Quoting.QuoteRoundTrip(command);
    assert ([l] + tail)[0] == l && ([l] + tail)[1..] == tail;
  }

  lemma {:induction false} CommandsRead(commands: seq<string>, rest: seq<string>)
    requires rest == [] || !StartsWith(rest[0], "  - ")
    ensures ReadCommands(CommandLines(commands) + rest) == Some((commands, rest))
  {
    hide Quoting.Quote, Quoting.ReadQuoted, StartsWith, ReadCommands;
    if commands == [] {
      assert CommandLines(commands) + rest == rest;
      NoCommands(rest);
    } else {
      CommandsRead(commands[1..], rest);
      var tail := CommandLines(commands[1..]) + rest;
      assert CommandLines(commands) + rest == ["  - " + Quoting.Quote(commands[0])] + tail;
      CommandTaken(commands[0], tail);
      assert commands == [commands[0]] + commands[1..];
    }
  }

  lemma NoCommands(rest: seq<string>)
    requires rest == [] || !StartsWith(rest[0], "  - ")
    ensures ReadCommands(rest) == Some(([], rest))
  {}

  lemma NtpReads(ntp: Option<NTP>, rest: seq<string>)
    requires rest != [] && rest[0] != "ntp:" && !StartsWith(rest[0], "    ")
    ensures
      ReadNtp(NtpLines(ntp) + rest)
      == if ntp.Some? && !AllPlain(ntp.value.servers) then None else Some((NtpBack(ntp), rest))
  {
    if ntp.None? {
      assert NtpLines(ntp) + rest == rest;
    } else {
      hide ReadItems, ItemLines, AllPlain, PlainSafe, StartsWith;
      var servers, enabled := ntp.value.servers, ntp.value.enabled.Some?;
      var items := ItemLines("    - ", servers) + rest;
      ServersRead(servers, rest);
      ServersAfter(enabled, items);
      assert NtpLines(ntp) + rest == ["ntp:"] + (if enabled then ["  enabled: true"] else []) + ["  servers:"] + items;
    }
  }

  lemma ServersRead(servers: seq<string>, rest: seq<string>)
    requires rest != [] && !StartsWith(rest[0], "    ")
    ensures ReadItems("    - ", ItemLines("    - ", servers) + rest) == if AllPlain(servers) then Some((servers, rest)) else None
  {
    hide ReadItems, ItemLines, AllPlain;
    ShorterLead(rest[0], "    - ");
    ItemsRead("    - ", servers, rest);
  }

  /** The reader of the NTP section gets to the items. */
  lemma ServersAfter(enabled: bool, items: seq<string>)
    ensures
      var got := ReadItems("    - ", items);
      ReadNtp(["ntp:"] + (if enabled then ["  enabled: true"] else []) + ["  servers:"] + items)
      == if got.None? then None else Some((Some(NTP(got.value.0, if enabled then Some(true) else None)), got.value.1))
  {
    hide ReadItems;
    var tail := ["  servers:"] + items;
    assert tail[1..] == items;
    if enabled {
      var lines := ["ntp:"] + ["  enabled: true"] + ["  servers:"] + items;
      assert lines[0] == "ntp:" && lines[1] == "  enabled: true" && lines[2..] == tail;
    } else {
      var lines := ["ntp:"] + [] + ["  servers:"] + items;
      assert tail[0][2] == 's';
      assert lines[0] == "ntp:" && lines[1..] == tail;
    }
  }

  /** A line that does not start with four spaces starts with nothing deeper. */
  lemma ShorterLead(l: string, lead: string)
    requires StartsWith(lead, "    ")
    ensures StartsWith(l, lead) ==> StartsWith(l, "    ")
  {
    if StartsWith(l, lead) {
      assert l[..4] == lead[..4];
    }
  }

  function UserRead(u: User): Option<User> {
    var raw := UserValues(u);
    var name :- ReadPlain(u.name);
    var passwd :- ReadOptional(raw[0], ReadPlain);
    var gecos :- ReadOptional(raw[1], ReadPlain);
    var groups :- ReadOptional(raw[2], ReadPlain);
    var homeDir :- ReadOptional(raw[3], ReadPlain);
    var inactive :- ReadOptional(raw[4], ReadBool);
    var lockPassword :- ReadOptional(raw[5], ReadBool);
    var shell :- ReadOptional(raw[6], ReadPlain);
    var primaryGroup :- ReadOptional(raw[7], ReadPlain);
    var sudo :- ReadOptional(raw[8], ReadPlain);
    if AllPlain(u.sshAuthorizedKeys) then
      Some(User(name, gecos, groups, homeDir, inactive, shell, passwd, primaryGroup, lockPassword, sudo, u.sshAuthorizedKeys))
    else None
  }

  lemma KeysRead(keys: seq<string>, rest: seq<string>)
    requires rest != [] && !StartsWith(rest[0], "    ")
    ensures ReadKeys(KeyLines(keys) + rest) == if AllPlain(keys) then Some((keys, rest)) else None
  {
    hide ReadItems, ItemLines, PlainSafe;
    if keys == [] {
      assert KeyLines(keys) + rest == rest;
      assert StartsWith("    ssh_authorized_keys:", "    ");
    } else {
      ShorterLead(rest[0], "      - ");
      ItemsRead("      - ", keys, rest);
      assert (KeyLines(keys) + rest)[1..] == ItemLines("      - ", keys) + rest;
    }
  }

  lemma KeysAvoid(keys: seq<string>, rest: seq<string>)
    requires rest != [] && !StartsWith(rest[0], "    ")
    ensures forall i :: 0 <= i < |USER_KEYS| ==> Avoids(KeyLines(keys) + rest, USER_KEYS[i])
  {
    hide ItemLines, StartsWith, Field;
    UserKeysProper();
    var lines := KeyLines(keys) + rest;
    forall i | 0 <= i < |USER_KEYS|
      ensures Avoids(lines, USER_KEYS[i])
    {
      if keys == [] {
        assert lines == rest;
        RestAvoids(rest, USER_KEYS[i]);
      } else {
        KeyLineAvoids(lines, USER_KEYS[i]);
      }
    }
  }

  lemma RestAvoids(rest: seq<string>, key: string)
    requires rest != [] && !StartsWith(rest[0], "    ")
    ensures Avoids(rest, key)
  {
    assert Field(key)[..4] == "    ";
    ShorterLead(rest[0], Field(key));
  }

  lemma KeyLineAvoids(lines: seq<string>, key: string)
    requires lines != [] && lines[0] == "    ssh_authorized_keys:" && NoColon(key) && key != "ssh_authorized_keys"
    ensures Avoids(lines, key)
  {
    hide Field, StartsWith, ProperKeys;
    UserKeysPlain();
    KeysDiffer(key, "ssh_authorized_keys", "");
    assert "    " + "ssh_authorized_keys" + ":" + "" == "    ssh_authorized_keys:";
  }

  lemma UserReads(u: User, rest: seq<string>)
    requires rest != [] && !StartsWith(rest[0], "    ")
    ensures ReadUser(UserLines(u) + rest) == Followed(UserRead(u), rest)
  {
    hide FieldLines, UserValues, ReadFields, ReadOptional, ReadPlain, ReadBool, KeyLines, ReadKeys, AllPlain, StartsWith;
    var lines, tail := UserLines(u) + rest, KeyLines(u.sshAuthorizedKeys) + rest;
    assert lines[0] == "  - name: " + u.name && lines[1..] == FieldLines(USER_KEYS, UserValues(u)) + tail;
    LeadTaken("  - name: ", u.name);
    UserKeysProper();
    KeysAvoid(u.sshAuthorizedKeys, rest);
    FieldsRead(USER_KEYS, UserValues(u), tail);
    KeysRead(u.sshAuthorizedKeys, rest);
  }

  function UsersRead(users: seq<User>): Option<seq<User>> {
    if users == [] then Some([])
    else
      var u :- UserRead(users[0]);
      var us :- UsersRead(users[1..]);
      Some([u] + us)
  }

  lemma UserStart(u: User)
    ensures UserLines(u) != [] && StartsWith(UserLines(u)[0], "  - name: ") && !StartsWith(UserLines(u)[0], "    ")
  {
    hide FieldLines, UserValues, KeyLines;
    LeadTaken("  - name: ", u.name);
    assert UserLines(u)[0] == "  - name: " + u.name;
    assert UserLines(u)[0][2] == '-';
  }

  lemma {:induction false} UserListReads(users: seq<User>)
    ensures ReadUserList(UserListLines(users) + [""]) == Followed(UsersRead(users), [""])
  {
    hide UserLines, UserRead, ReadUser;
    if users == [] {
      assert UserListLines(users) + [""] == [""];
    } else {
      var tail := UserListLines(users[1..]) + [""];
      assert UserListLines(users) + [""] == UserLines(users[0]) + tail;
      UserListReads(users[1..]);
      UserStart(users[0]);
      if users[1..] != [] {
        UserStart(users[1]);
        assert tail[0] == UserLines(users[1])[0];
      } else {
        assert tail == [""];
      }
      UserReads(users[0], tail);
      assert (UserLines(users[0]) + tail)[0] == UserLines(users[0])[0];
    }
  }

  lemma OptionalReads(v: Option<string>)
    ensures ReadOptional(v, ReadPlain) == if OptionalPlain(v) then Some(v) else None
  {
    hide PlainSafe;
  }

  lemma FlagsRead(inactive: Option<bool>, lockPassword: Option<bool>)
    ensures ReadOptional(if inactive.Some? then Some("true") else None, ReadBool) == Some(Presence(inactive))
    ensures
      ReadOptional(if lockPassword.Some? then Some(BoolText(lockPassword.value)) else None, ReadBool)
      == Some(lockPassword)
  {}

  lemma UserComesBack(u: User)
    ensures UserRead(u) == Some(UserBack(u)) <==> FitUser(u)
  {
    hide PlainSafe, AllPlain, OptionalPlain, ReadOptional, ReadBool, BoolText, Presence;
    OptionalReads(u.passwd);
    OptionalReads(u.gecos);
    OptionalReads(u.groups);
    OptionalReads(u.homeDir);
    OptionalReads(u.shell);
    OptionalReads(u.primaryGroup);
    OptionalReads(u.sudo);
    FlagsRead(u.inactive, u.lockPassword);
  }

  lemma {:induction false} UsersComeBack(users: seq<User>)
    ensures UsersRead(users) == Some(UsersBack(users)) <==> forall i :: 0 <= i < |users| ==> FitUser(users[i])
  {
    hide FitUser, UserRead, UserBack;
    if users != [] {
      UserComesBack(users[0]);
      UsersComeBack(users[1..]);
      var all := forall i :: 0 <= i < |users| ==> FitUser(users[i]);
      assert all <==> FitUser(users[0]) && forall i :: 0 <= i < |users[1..]| ==> FitUser(users[1..][i]) by {
        if FitUser(users[0]) && forall i :: 0 <= i < |users[1..]| ==> FitUser(users[1..][i]) {
          assert forall i :: 1 <= i < |users| ==> users[i] == users[1..][i - 1];
        }
      }
      var a, b := UserRead(users[0]), UsersRead(users[1..]);
      if a.Some? && b.Some? {
        assert ([a.value] + b.value)[0] == a.value && ([a.value] + b.value)[1..] == b.value;
        assert UsersBack(users)[0] == UserBack(users[0]) && UsersBack(users)[1..] == UsersBack(users[1..]);
      }
    }
  }

  // ---- the document ----

  predicate OptionalLine(v: Option<string>) {
    v.Some? ==> NoBreak(v.value)
  }

  predicate OneLineFile(f: File) {
    NoBreak(f.path) && NoBreak(f.encoding) && NoBreak(f.owner) && NoBreak(f.permissions)
  }

  predicate OneLineUser(u: User) {
    && NoBreak(u.name)
    && OptionalLine(u.passwd) && OptionalLine(u.gecos) && OptionalLine(u.groups) && OptionalLine(u.homeDir)
    && OptionalLine(u.shell) && OptionalLine(u.primaryGroup) && OptionalLine(u.sudo)
    && AllLines(u.sshAuthorizedKeys)
  }

  /** Every scalar but the contents and the commands is on one line. */
  predicate OneLineScalars(files: seq<File>, ntp: Option<NTP>, users: seq<User>) {
    && (forall i :: 0 <= i < |files| ==> OneLineFile(files[i]))
    && (ntp.Some? ==> AllLines(ntp.value.servers))
    && (forall i :: 0 <= i < |users| ==> OneLineUser(users[i]))
  }

  lemma {:induction false} FieldLinesAreLines(keys: seq<string>, values: seq<Option<string>>)
    requires |keys| == |values| && AllLines(keys) && forall i :: 0 <= i < |values| ==> OptionalLine(values[i])
    ensures AllLines(FieldLines(keys, values))
  {
    if keys != [] {
      FieldLinesAreLines(keys[1..], values[1..]);
    }
  }

  lemma {:induction false} ItemLinesAreLines(lead: string, items: seq<string>)
    requires NoBreak(lead) && AllLines(items)
    ensures AllLines(ItemLines(lead, items))
  {
    if items != [] {
      ItemLinesAreLines(lead, items[1..]);
    }
  }

  lemma FileLinesAreLines(f: File)
    requires OneLineFile(f)
    ensures AllLines(FileLines(f))
  {
    hide FieldLines, Split;
    assert NoBreak("-   path: " + f.path) && NoBreak("    content: |");
    FieldLinesAreLines(FILE_KEYS, FileValues(f));
    IndentedAreLines(6, f.content);
  }

  lemma {:induction false} FileListIsLines(files: seq<File>)
    requires forall i :: 0 <= i < |files| ==> OneLineFile(files[i])
    ensures AllLines(FileListLines(files))
  {
    hide FileLines, OneLineFile;
    if files != [] {
      FileLinesAreLines(files[0]);
      FileListIsLines(files[1..]);
    }
  }

  lemma {:induction false} CommandLinesAreLines(commands: seq<string>)
    ensures AllLines(CommandLines(commands))
  {
    hide Quoting.Quote;
    if commands != [] {
      Quoting.QuoteIsOneLine(commands[0]);
      CommandLinesAreLines(commands[1..]);
    }
  }

  lemma UserLinesAreLines(u: User)
    requires OneLineUser(u)
    ensures AllLines(UserLines(u))
  {
    hide FieldLines, ItemLines;
    assert NoBreak("  - name: " + u.name);
    UserValuesAreLines(u);
    FieldLinesAreLines(USER_KEYS, UserValues(u));
    ItemLinesAreLines("      - ", u.sshAuthorizedKeys);
  }

  lemma UserValuesAreLines(u: User)
    requires OneLineUser(u)
    ensures AllLines(USER_KEYS) && forall i :: 0 <= i < 9 ==> OptionalLine(UserValues(u)[i])
  {}

  lemma {:induction false} UserListIsLines(users: seq<User>)
    requires forall i :: 0 <= i < |users| ==> OneLineUser(users[i])
    ensures AllLines(UserListLines(users))
  {
    hide UserLines, OneLineUser;
    if users != [] {
      UserLinesAreLines(users[0]);
      UserListIsLines(users[1..]);
    }
  }

  lemma NtpIsLines(ntp: Option<NTP>)
    requires ntp.Some? ==> AllLines(ntp.value.servers)
    ensures AllLines(NtpLines(ntp))
  {
    hide ItemLines;
    if ntp.Some? {
      ItemLinesAreLines("    - ", ntp.value.servers);
    }
  }

  lemma UsersAreLines(users: seq<User>)
    requires forall i :: 0 <= i < |users| ==> OneLineUser(users[i])
    ensures AllLines(UsersLines(users))
  {
    hide UserListLines, OneLineUser;
    UserListIsLines(users);
  }

  lemma TailIsLines(commands: seq<string>, ntp: Option<NTP>, users: seq<User>)
    requires OneLineScalars([], ntp, users)
    ensures AllLines(TailLines(commands, ntp, users))
  {
    hide CommandLines, NtpLines, UsersLines, OneLineUser;
    CommandLinesAreLines(commands);
    NtpIsLines(ntp);
    UsersAreLines(users);
    assert NoBreak("runcmd:") && NoBreak("");
  }

  /** The lines of the document. */
  lemma DocumentSplits(files: seq<File>, join: string, commands: seq<string>, ntp: Option<NTP>, users: seq<User>)
    requires OneLineScalars(files, ntp, users)
    ensures Split(NodeText(files, join, commands, ntp, users)) == [FIRST_LINE] + BodyLines(files, join, commands, ntp, users)
  {
    hide Split, NodeText, FileListLines, TailLines, OneLineFile, OneLineUser;
    var all := files + [KubeadmFile(join)];
    KubeadmIsOneLine(join);
    forall i | 0 <= i < |all|
      ensures OneLineFile(all[i])
    {}
    FileListIsLines(all);
    TailIsLines(commands, ntp, users);
    DocumentGlue(files, join, commands, ntp, users);
    SplitGlueLines(FIRST_LINE, BodyLines(files, join, commands, ntp, users));
  }

  lemma KubeadmIsOneLine(join: string)
    ensures OneLineFile(KubeadmFile(join))
  {}

  lemma {:induction false} NoReturnInLines(s: string)
    ensures NoReturn(Split(s)) <==> '\r' !in s
  {
    if s != "" {
      NoReturnInLines(s[1..]);
      var rest := Split(s[1..]);
      assert s == [s[0]] + s[1..];
      if s[0] == '\n' {
        assert Split(s)[1..] == rest;
        assert NoReturn(Split(s)) <==> NoReturn(rest) by { ConsReturn("", rest); }
      } else {
        assert rest == [rest[0]] + rest[1..];
        ConsReturn(rest[0], rest[1..]);
        ConsReturn([s[0]] + rest[0], rest[1..]);
      }
    }
  }

  lemma ConsReturn(l: string, ls: seq<string>)
    ensures NoReturn([l] + ls) <==> '\r' !in l && NoReturn(ls)
  {
    if NoReturn([l] + ls) {
      assert ([l] + ls)[0] == l;
      assert forall i :: 0 <= i < |ls| ==> ls[i] == ([l] + ls)[i + 1];
    }
  }

  lemma KubeadmIsFit(join: string)
    ensures FitFile(KubeadmFile(join)) <==> '\r' !in join
  {
    hide Split;
    var s := KubeadmFile(join).content;
    assert s == "---" + "\n" + join;
    SplitAtBreak("---", join);
    SplitLine("---");
    assert Split(s)[0] == "---" && FirstFilled(Split(s)) == 0;
    NoReturnInLines(s);
    KubeadmScalars();
  }

  lemma KubeadmScalars()
    ensures PlainSafe("/tmp/kubeadm-node.yaml") && PlainSafe("root:root") && DoubleSafe("") && SingleSafe("0640")
  {
    KubeadmPath();
    KubeadmOwner();
  }

  /** Text with no space and no colon in it can only be unfit for its ends or its first character. */
  lemma SolidIsPlain(s: string)
    requires s != "" && s[0] !in " ,[]{}#&*!|>'\"%@`-?:"
    requires forall i :: 0 <= i < |s| ==> s[i] !in " :\t\n\r"
    ensures PlainSafe(s)
  {
    assert ' ' in " :\t\n\r" && ':' in " :\t\n\r" && '\t' in " :\t\n\r" && '\n' in " :\t\n\r" && '\r' in " :\t\n\r";
    assert s[0] !in "-?:";
  }

  lemma KubeadmPath()
    ensures PlainSafe("/tmp/kubeadm-node.yaml")
  {
    hide PlainSafe;
    SolidIsPlain("/tmp/kubeadm-node.yaml");
  }

  lemma KubeadmOwner()
    ensures PlainSafe("root:root")
  {}

  /** What a reader should get back. */
  function DocumentBack(files: seq<File>, join: string, commands: seq<string>, ntp: Option<NTP>, users: seq<User>): Document {
    Document(FilesBack(files + [KubeadmFile(join)]), commands, NtpBack(ntp), UsersBack(users))
  }

  function TailRead(files: seq<File>, commands: seq<string>, ntp: Option<NTP>, users: seq<User>): Option<Document> {
    if ntp.Some? && !AllPlain(ntp.value.servers) then None
    else
      var us :- UsersRead(users);
      Some(Document(files, commands, NtpBack(ntp), us))
  }

  lemma UsersComeNext(users: seq<User>)
    ensures ReadUsers(UsersLines(users) + [""]) == Followed(UsersRead(users), [""])
  {
    hide ReadUserList, UserListLines, UsersRead;
    var c := UsersLines(users) + [""];
    if users == [] {
      assert c == [""];
      NoUsers();
    } else {
      assert c[0] == "users:" && c[1..] == UserListLines(users) + [""];
      UserListReads(users);
    }
  }

  lemma TailReads(files: seq<File>, commands: seq<string>, ntp: Option<NTP>, users: seq<User>)
    ensures ReadTail(files, TailLines(commands, ntp, users)) == TailRead(files, commands, ntp, users)
  {
    hide CommandLines, ReadCommands, NtpLines, NtpBack, ReadNtp, UsersLines, ReadUsers, UsersRead, AllPlain, StartsWith;
    var c := UsersLines(users) + [""];
    var b := NtpLines(ntp) + c;
    assert TailLines(commands, ntp, users)[0] == "runcmd:" && TailLines(commands, ntp, users)[1..] == CommandLines(commands) + b;
    UsersStart(users);
    NtpStart(ntp, c);
    CommandsRead(commands, b);
    NtpReads(ntp, c);
    UsersComeNext(users);
  }

  lemma NoUsers()
    ensures UsersRead([]) == Some([])
  {}

  lemma UsersStart(users: seq<User>)
    ensures
      var c := UsersLines(users) + [""];
      c[0] in {"users:", ""} && c[0] != "ntp:" && !StartsWith(c[0], "    ") && !StartsWith(c[0], "  - ")
  {
    hide UserListLines;
    assert "users:"[0] == 'u';
  }

  lemma NtpStart(ntp: Option<NTP>, c: seq<string>)
    requires c != [] && !StartsWith(c[0], "  - ")
    ensures (NtpLines(ntp) + c) != [] && !StartsWith((NtpLines(ntp) + c)[0], "  - ")
  {
    hide ItemLines;
    if ntp.None? {
      assert NtpLines(ntp) + c == c;
    } else {
      assert (NtpLines(ntp) + c)[0] == "ntp:";
      assert "ntp:"[0] == 'n';
    }
  }

  lemma DocumentReads(files: seq<File>, join: string, commands: seq<string>, ntp: Option<NTP>, users: seq<User>)
    requires OneLineScalars(files, ntp, users)
    ensures
      ReadText(NodeText(files, join, commands, ntp, users))
      == match FilesRead(files + [KubeadmFile(join)])
         case None => None
         case Some(fs) => TailRead(fs, commands, ntp, users)
  {
    hide Split, NodeText, OneLineScalars, FileListLines, ReadFiles, FilesRead, TailLines, ReadTail, TailRead;
    var all, tail := FileListLines(files + [KubeadmFile(join)]), TailLines(commands, ntp, users);
    DocumentSplits(files, join, commands, ntp, users);
    var lines := Split(NodeText(files, join, commands, ntp, users));
    assert lines[..4] == [FIRST_LINE, "#cloud-config", "", "write_files:"];
    assert lines[4..] == all + tail;
    TailStart(commands, ntp, users);
    FileListReads(files + [KubeadmFile(join)], tail);
    forall fs
      ensures ReadTail(fs, tail) == TailRead(fs, commands, ntp, users)
    {
      TailReads(fs, commands, ntp, users);
    }
  }

  lemma TailStart(commands: seq<string>, ntp: Option<NTP>, users: seq<User>)
    ensures
      var tail := TailLines(commands, ntp, users);
      tail != [] && !InBlock(tail[0]) && !StartsWith(tail[0], "-   path: ")
  {
    hide CommandLines, NtpLines, UsersLines;
    assert TailLines(commands, ntp, users)[0] == "runcmd:";
    assert "runcmd:"[0] == 'r';
  }

  /** The document is read back, in order and with nothing added, exactly when every scalar is fit: contents up to clip
      chomping, the two pointer-tested booleans up to presence. Commands need no condition. */
  lemma OneLineRoundTrip(files: seq<File>, join: string, commands: seq<string>, ntp: Option<NTP>, users: seq<User>)
    requires OneLineScalars(files, ntp, users)
    ensures
      ReadText(NodeText(files, join, commands, ntp, users)) == Some(DocumentBack(files, join, commands, ntp, users))
      <==> Fit(files, join, ntp, users)
  {
    hide ReadText, NodeText, OneLineScalars, FilesRead, FilesBack, UsersRead, UsersBack, NtpBack, FitFile, FitUser, AllPlain;
    var all := files + [KubeadmFile(join)];
    DocumentReads(files, join, commands, ntp, users);
    FilesComeBack(all);
    UsersComeBack(users);
    KubeadmIsFit(join);
    assert (forall i :: 0 <= i < |all| ==> FitFile(all[i])) <==> (forall i :: 0 <= i < |files| ==> FitFile(files[i])) && '\r' !in join by {
      assert all[|files|] == KubeadmFile(join);
      assert forall i :: 0 <= i < |files| ==> all[i] == files[i];
    }
  }

  /** What is lost for good: an explicit "false" is printed as "true", or not told from absence of a test. */
  lemma ExplicitFalseIsLost(u: User, servers: seq<string>)
    ensures UserText(u.(inactive := Some(false))) == UserText(u.(inactive := Some(true)))
    ensures NtpText(Some(NTP(servers, Some(false)))) == NtpText(Some(NTP(servers, Some(true))))
  {}
}
