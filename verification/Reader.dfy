/** A reader for the subset of YAML that the printer emits, line by line. Scalars are taken
    as text, before any tag resolution. */
module Reader {
  import opened Wrappers
  import opened NodeConfigTypes
  import opened Text
  import opened BlockScalar
  import opened DocumentLines
  import Quoting

  datatype Document = Document(files: seq<File>, commands: seq<string>, ntp: Option<NTP>, users: seq<User>)

  /** A value and the lines after it. */
  type Read<T> = Option<(T, seq<string>)>

  predicate StartsWith(l: string, p: string) {
    p <= l
  }

  /** Plain scalars on one line, in block context (section 7.3.3 of YAML 1.2); tabs are refused altogether. */
  predicate PlainSafe(s: string) {
    && s != ""
    && '\n' !in s && '\r' !in s && '\t' !in s
    && s[|s| - 1] != ' ' && s[|s| - 1] != ':'
    && s[0] !in " ,[]{}#&*!|>'\"%@`"
    && (s[0] in "-?:" ==> |s| > 1 && s[1] != ' ')
    && (forall i :: 0 <= i < |s| - 1 ==> !(s[i] == ':' && s[i + 1] == ' ') && !(s[i] == ' ' && s[i + 1] == '#'))
  }

  function ReadPlain(s: string): Option<string> {
    if PlainSafe(s) then Some(s) else None
  }

  /** The rest of a single-quoted scalar on one line, after the opening quote (section 7.3.2). */
  function ReadSingleRest(s: string): Option<string> {
    if s == "" || s[0] == '\n' || s[0] == '\r' then None
    else if s[0] != '\'' then Quoting.Prepend(s[0], ReadSingleRest(s[1..]))
    else if |s| == 1 then Some("")
    else if s[1] == '\'' then Quoting.Prepend('\'', ReadSingleRest(s[2..]))
    else None
  }

  function ReadSingle(s: string): Option<string> {
    if s == "" || s[0] != '\'' then None else ReadSingleRest(s[1..])
  }

  function ReadBool(s: string): Option<bool> {
    if s == "true" then Some(true) else if s == "false" then Some(false) else None
  }

  /** An optional value, read by `read` when it is there. */
  function ReadOptional<T>(raw: Option<string>, read: string -> Option<T>): Option<Option<T>> {
    if raw.None? then Some(None)
    else
      var v :- read(raw.value);
      Some(Some(v))
  }

  /** The optional keys, in their order, four spaces deep. */
  function ReadFields(keys: seq<string>, lines: seq<string>): (r: (seq<Option<string>>, seq<string>))
    ensures |r.0| == |keys| && |r.1| <= |lines|
  {
    if keys == [] then ([], lines)
    else if lines != [] && StartsWith(lines[0], Field(keys[0])) then
      var (values, rest) := ReadFields(keys[1..], lines[1..]);
      ([Some(lines[0][|Field(keys[0])|..])] + values, rest)
    else
      var (values, rest) := ReadFields(keys[1..], lines);
      ([None] + values, rest)
  }

  function ReadItems(lead: string, lines: seq<string>): (r: Read<seq<string>>)
    ensures r.Some? ==> |r.value.1| <= |lines|
  {
    if lines == [] || !StartsWith(lines[0], lead) then Some(([], lines))
    else
      var item :- ReadPlain(lines[0][|lead|..]);
      var (items, rest) :- ReadItems(lead, lines[1..]);
      Some(([item] + items, rest))
  }

  /** The lines of a block scalar below a key that is four spaces deep: all that are blank or deeper. */
  function BlockSize(lines: seq<string>): (n: nat)
    ensures n <= |lines|
    ensures forall m :: 0 <= m < n ==> InBlock(lines[m])
    ensures n < |lines| ==> !InBlock(lines[n])
  {
    if lines == [] || !InBlock(lines[0]) then 0 else 1 + BlockSize(lines[1..])
  }

  predicate InBlock(l: string) {
    IsBlank(l) || Lead(l) > 4
  }

  function ReadFile(lines: seq<string>): (r: Read<File>)
    ensures r.Some? ==> |r.value.1| < |lines|
  {
    if lines == [] || !StartsWith(lines[0], "-   path: ") then None
    else
      var path :- ReadPlain(lines[0][|"-   path: "|..]);
      var (raw, rest) := ReadFields(FILE_KEYS, lines[1..]);
      var encoding :- ReadOptional(raw[0], Quoting.ReadQuoted);
      var owner :- ReadOptional(raw[1], ReadPlain);
      var permissions :- ReadOptional(raw[2], ReadSingle);
      if rest == [] || rest[0] != "    content: |" then None
      else
        var n := BlockSize(rest[1..]);
        var content :- ReadBlock(rest[1..][..n]);
        Some((File(path, owner.GetOr(""), permissions.GetOr(""), encoding.GetOr(""), content), rest[1..][n..]))
  }

  function ReadFiles(lines: seq<string>): (r: Read<seq<File>>)
    ensures r.Some? ==> |r.value.1| <= |lines|
    decreases |lines|
  {
    if lines == [] || !StartsWith(lines[0], "-   path: ") then Some(([], lines))
    else
      var (file, rest) :- ReadFile(lines);
      var (files, rest') :- ReadFiles(rest);
      Some(([file] + files, rest'))
  }

  function ReadCommands(lines: seq<string>): Read<seq<string>> {
    if lines == [] || !StartsWith(lines[0], "  - ") then Some(([], lines))
    else
      var command :- Quoting.ReadQuoted(lines[0][|"  - "|..]);
      var (commands, rest) :- ReadCommands(lines[1..]);
      Some(([command] + commands, rest))
  }

  function ReadNtp(lines: seq<string>): Read<Option<NTP>> {
    if lines == [] || lines[0] != "ntp:" then Some((None, lines))
    else
      var enabled := |lines| > 1 && lines[1] == "  enabled: true";
      var rest := if enabled then lines[2..] else lines[1..];
      if rest == [] || rest[0] != "  servers:" then None
      else
        var (servers, rest') :- ReadItems("    - ", rest[1..]);
        Some((Some(NTP(servers, if enabled then Some(true) else None)), rest'))
  }

  function ReadKeys(lines: seq<string>): (r: Read<seq<string>>)
    ensures r.Some? ==> |r.value.1| <= |lines|
  {
    if lines == [] || lines[0] != "    ssh_authorized_keys:" then Some(([], lines)) else ReadItems("      - ", lines[1..])
  }

  function ReadUser(lines: seq<string>): (r: Read<User>)
    ensures r.Some? ==> |r.value.1| < |lines|
  {
    if lines == [] || !StartsWith(lines[0], "  - name: ") then None
    else
      var name :- ReadPlain(lines[0][|"  - name: "|..]);
      var (raw, rest) := ReadFields(USER_KEYS, lines[1..]);
      var passwd :- ReadOptional(raw[0], ReadPlain);
      var gecos :- ReadOptional(raw[1], ReadPlain);
      var groups :- ReadOptional(raw[2], ReadPlain);
      var homeDir :- ReadOptional(raw[3], ReadPlain);
      var inactive :- ReadOptional(raw[4], ReadBool);
      var lockPassword :- ReadOptional(raw[5], ReadBool);
      var shell :- ReadOptional(raw[6], ReadPlain);
      var primaryGroup :- ReadOptional(raw[7], ReadPlain);
      var sudo :- ReadOptional(raw[8], ReadPlain);
      var (keys, rest') :- ReadKeys(rest);
      Some((User(name, gecos, groups, homeDir, inactive, shell, passwd, primaryGroup, lockPassword, sudo, keys), rest'))
  }

  function ReadUserList(lines: seq<string>): Read<seq<User>>
    decreases |lines|
  {
    if lines == [] || !StartsWith(lines[0], "  - name: ") then Some(([], lines))
    else
      var (user, rest) :- ReadUser(lines);
      var (users, rest') :- ReadUserList(rest);
      Some(([user] + users, rest'))
  }

  function ReadUsers(lines: seq<string>): Read<seq<User>> {
    if lines == [] || lines[0] != "users:" then Some(([], lines)) else ReadUserList(lines[1..])
  }

  /** What follows the list of files. */
  function ReadTail(files: seq<File>, lines: seq<string>): Option<Document> {
    if lines == [] || lines[0] != "runcmd:" then None
    else
      var (commands, rest) :- ReadCommands(lines[1..]);
      var (ntp, rest') :- ReadNtp(rest);
      var (users, rest'') :- ReadUsers(rest');
      if rest'' == [""] then Some(Document(files, commands, ntp, users)) else None
  }

  function ReadText(text: string): Option<Document> {
    var lines := Split(text);
    if |lines| < 4 || lines[..4] != [FIRST_LINE, "#cloud-config", "", "write_files:"] then None
    else
      var (files, rest) :- ReadFiles(lines[4..]);
      ReadTail(files, rest)
  }

  /** A stream with a character that is not printable is refused as a whole. */
  function ReadDocument(text: string): Option<Document> {
    if Printable(text) then ReadText(text) else None
  }
}
