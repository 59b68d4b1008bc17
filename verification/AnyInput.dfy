/** The round trip for every input. What the reader returns is on one line, so a scalar with a line break never comes
    back, whatever else the broken line makes of the document. */
module AnyInput {
  import opened Wrappers
  import opened NodeConfigTypes
  import opened Text
  import opened CloudInit
  import opened BlockScalar
  import opened DocumentLines
  import opened Reader
  import opened RoundTrip
  import opened PrintableText
  import Quoting

  // ---- what the reader returns ----

  lemma {:induction false} SingleIsOneLine(s: string)
    requires ReadSingleRest(s).Some?
    ensures NoBreak(ReadSingleRest(s).value)
    decreases |s|
  {
    if s[0] != '\'' {
      SingleIsOneLine(s[1..]);
    } else if |s| > 1 {
      SingleIsOneLine(s[2..]);
    }
  }

  lemma {:induction false} ItemsAreOneLine(lead: string, lines: seq<string>)
    ensures ReadItems(lead, lines).Some? ==> AllLines(ReadItems(lead, lines).value.0)
  {
    if lines != [] && StartsWith(lines[0], lead) {
      ItemsAreOneLine(lead, lines[1..]);
    }
  }

  /** An encoding is read with escapes, so it is not covered here. */
  predicate OneLineButEncoding(f: File) {
    NoBreak(f.path) && NoBreak(f.owner) && NoBreak(f.permissions)
  }

  lemma PlainIsOneLine(v: Option<string>)
    ensures ReadOptional(v, ReadPlain).Some? ==> OptionalLine(ReadOptional(v, ReadPlain).value)
  {}

  lemma PermissionsAreOneLine(v: Option<string>)
    ensures ReadOptional(v, ReadSingle).Some? ==> OptionalLine(ReadOptional(v, ReadSingle).value)
  {
    if v.Some? && ReadSingle(v.value).Some? {
      SingleIsOneLine(v.value[1..]);
    }
  }

  lemma FileIsOneLine(lines: seq<string>)
    ensures ReadFile(lines).Some? ==> OneLineButEncoding(ReadFile(lines).value.0)
  {
    if lines != [] {
      hide ReadOptional, ReadBlock, BlockSize, ReadFields, StartsWith;
      var raw := ReadFields(FILE_KEYS, lines[1..]).0;
      PlainIsOneLine(raw[1]);
      PermissionsAreOneLine(raw[2]);
    }
  }

  lemma {:induction false} FilesAreOneLine(lines: seq<string>)
    ensures ReadFiles(lines).Some? ==>
              forall i :: 0 <= i < |ReadFiles(lines).value.0| ==> OneLineButEncoding(ReadFiles(lines).value.0[i])
    decreases |lines|
  {
    hide ReadFile, OneLineButEncoding, StartsWith;
    if lines != [] && StartsWith(lines[0], "-   path: ") && ReadFile(lines).Some? {
      FileIsOneLine(lines);
      FilesAreOneLine(ReadFile(lines).value.1);
    }
  }

  lemma UserIsOneLine(lines: seq<string>)
    ensures ReadUser(lines).Some? ==> OneLineUser(ReadUser(lines).value.0)
  {
    if lines != [] {
      hide ReadOptional, ReadItems, ReadFields, StartsWith, OptionalLine, AllLines;
      var (raw, rest) := ReadFields(USER_KEYS, lines[1..]);
      PlainIsOneLine(raw[0]);
      PlainIsOneLine(raw[1]);
      PlainIsOneLine(raw[2]);
      PlainIsOneLine(raw[3]);
      PlainIsOneLine(raw[6]);
      PlainIsOneLine(raw[7]);
      PlainIsOneLine(raw[8]);
      KeysAreOneLine(rest);
    }
  }

  lemma KeysAreOneLine(lines: seq<string>)
    ensures ReadKeys(lines).Some? ==> AllLines(ReadKeys(lines).value.0)
  {
    hide ReadItems;
    if lines != [] {
      ItemsAreOneLine("      - ", lines[1..]);
    }
  }

  lemma {:induction false} UserListIsOneLine(lines: seq<string>)
    ensures ReadUserList(lines).Some? ==>
              forall i :: 0 <= i < |ReadUserList(lines).value.0| ==> OneLineUser(ReadUserList(lines).value.0[i])
    decreases |lines|
  {
    hide ReadUser, OneLineUser, StartsWith;
    if lines != [] && StartsWith(lines[0], "  - name: ") && ReadUser(lines).Some? {
      UserIsOneLine(lines);
      UserListIsOneLine(ReadUser(lines).value.1);
    }
  }

  lemma ServersAreOneLine(lines: seq<string>)
    ensures ReadNtp(lines).Some? && ReadNtp(lines).value.0.Some? ==> AllLines(ReadNtp(lines).value.0.value.servers)
  {
    hide ReadItems;
    if |lines| > 1 {
      var rest := if lines[1] == "  enabled: true" then lines[2..] else lines[1..];
      if rest != [] {
        ItemsAreOneLine("    - ", rest[1..]);
      }
    }
  }

  lemma TailIsOneLine(files: seq<File>, lines: seq<string>)
    ensures ReadTail(files, lines).Some? ==>
              var d := ReadTail(files, lines).value;
              d.files == files && OneLineScalars([], d.ntp, d.users)
  {
    if ReadTail(files, lines).Some? {
      hide ReadCommands, ReadNtp, ReadUserList, OneLineUser, AllLines;
      var rest := ReadCommands(lines[1..]).value.1;
      ServersAreOneLine(rest);
      var rest' := ReadNtp(rest).value.1;
      if rest' != [] {
        UserListIsOneLine(rest'[1..]);
      }
    }
  }

  // ---- a broken encoding ----

  /** A text with a line break in it, cut at the first one. */
  lemma {:induction false} FirstBreak(s: string) returns (a: string, b: string)
    requires !NoBreak(s)
    ensures s == a + "\n" + b && NoBreak(a)
  {
    if s[0] == '\n' {
      a, b := "", s[1..];
    } else {
      assert s == [s[0]] + s[1..];
      a, b := FirstBreak(s[1..]);
      a := [s[0]] + a;
    }
  }

  /** The line with the opening quote ends too early for the whole value to be on it. */
  lemma BrokenValue(e: string, a: string, b: string)
    requires e == a + "\n" + b && Quoting.ReadQuoted("\"" + a).Some?
    ensures Quoting.ReadQuoted("\"" + a).value != e
  {
    assert ("\"" + a)[1..] == a;
    DoubleQuotedShrinks(a);
  }

  lemma BrokenLines(f: File, a: string, b: string)
    requires OneLineButEncoding(f) && f.encoding == a + "\n" + b && NoBreak(a)
    ensures
      var ls := SplitAll(FileLines(f));
      |ls| >= 2 && ls[0] == "-   path: " + f.path && ls[1] == Field("encoding") + ("\"" + a)
  {
    hide Split, SplitAll, IndentLines, Field;
    var l0, l1 := "-   path: " + f.path, Field("encoding") + ("\"" + f.encoding + "\"");
    var others := FieldLines(FILE_KEYS[1..], FileValues(f)[1..]) + ["    content: |"] + IndentLines(6, Split(f.content));
    assert FileLines(f) == [l0] + ([l1] + others);
    SplitAllConcat([l0], [l1] + others);
    SplitAllConcat([l1], others);
    SplitOne(l0);
    SplitOne(l1);
    assert NoBreak(l0);
    SplitLine(l0);
    var h := Field("encoding") + ("\"" + a);
    FieldIsLine();
    SplitAtBreak(h, b + "\"");
    assert l1 == h + "\n" + (b + "\"");
    SplitLine(h);
  }

  lemma FieldIsLine()
    ensures NoBreak(Field("encoding"))
  {}

  lemma SplitOne(l: string)
    ensures SplitAll([l]) == Split(l)
  {
    hide Split;
    assert SplitAll([l]) == Split(l) + SplitAll([]);
  }

  /** The encoding that the reader makes of a file is the one on the line after the path. */
  lemma EncodingRead(lines: seq<string>, value: string)
    requires |lines| >= 2 && lines[1] == Field("encoding") + value
    ensures ReadFile(lines).Some? ==> Quoting.ReadQuoted(value) == Some(ReadFile(lines).value.0.encoding)
  {
    hide Field, ReadPlain, ReadSingle, Quoting.ReadQuoted, ReadBlock, BlockSize;
    LeadTaken(Field("encoding"), value);
    assert lines[1..][0] == lines[1];
    assert ReadFields(FILE_KEYS, lines[1..]).0[0] == Some(value);
  }

  lemma BrokenFile(f: File, rest: seq<string>)
    requires OneLineButEncoding(f) && !NoBreak(f.encoding)
    ensures
      var lines := SplitAll(FileLines(f)) + rest;
      && lines != [] && StartsWith(lines[0], "-   path: ")
      && (ReadFile(lines).Some? ==> ReadFile(lines).value.0.encoding != f.encoding)
  {
    hide Split, SplitAll, FileLines, Field, ReadFile, StartsWith, Quoting.ReadQuoted;
    var a, b := FirstBreak(f.encoding);
    BrokenLines(f, a, b);
    LeadTaken("-   path: ", f.path);
    EncodingRead(SplitAll(FileLines(f)) + rest, "\"" + a);
    if Quoting.ReadQuoted("\"" + a).Some? {
      BrokenValue(f.encoding, a, b);
    }
  }

  predicate SameEncodings(files: seq<File>, read: seq<File>) {
    |files| <= |read| && forall i :: 0 <= i < |files| ==> read[i].encoding == files[i].encoding
  }

  lemma SameButFirst(files: seq<File>, f: File, read: seq<File>)
    requires files != []
    ensures SameEncodings(files, [f] + read) ==> SameEncodings(files[1..], read)
  {
    assert forall i :: 0 <= i < |read| ==> read[i] == ([f] + read)[i + 1];
  }

  /** A line break in some encoding shows in what is read. */
  lemma {:induction false} BrokenEncodingShows(files: seq<File>, rest: seq<string>)
    requires forall i :: 0 <= i < |files| ==> OneLineButEncoding(files[i])
    requires exists i :: 0 <= i < |files| && !NoBreak(files[i].encoding)
    ensures
      var lines := SplitAll(FileListLines(files)) + rest;
      && lines != [] && StartsWith(lines[0], "-   path: ")
      && (ReadFiles(lines).Some? ==> !SameEncodings(files, ReadFiles(lines).value.0))
  {
    hide Split, SplitAll, FileLines, ReadFile, StartsWith, FileRead, InBlock;
    var f, tail := files[0], SplitAll(FileListLines(files[1..])) + rest;
    var lines := SplitAll(FileListLines(files)) + rest;
    SplitAllConcat(FileLines(f), FileListLines(files[1..]));
    assert lines == SplitAll(FileLines(f)) + tail;
    if !NoBreak(f.encoding) {
      BrokenFile(f, tail);
    } else {
      assert files[1..] != [] && exists i :: 0 <= i < |files[1..]| && !NoBreak(files[1..][i].encoding) by {
        var i :| 0 <= i < |files| && !NoBreak(files[i].encoding);
        assert files[1..][i - 1] == files[i];
      }
      BrokenEncodingShows(files[1..], rest);
      FileLinesAreLines(f);
      SplitAllLines(FileLines(f));
      FileStart(f);
      PathOutside(tail[0]);
      FileReads(f, tail);
      assert lines[0] == FileLines(f)[0];
      if ReadFiles(lines).Some? {
        SameButFirst(files, ReadFile(lines).value.0, ReadFiles(tail).value.0);
      }
    }
  }

  lemma PathOutside(l: string)
    requires StartsWith(l, "-   path: ")
    ensures !InBlock(l)
  {
    assert l[0] == "-   path: "[0];
  }

  // ---- the theorem ----

  lemma {:induction false} BacksKeepFiles(files: seq<File>)
    ensures |FilesBack(files)| == |files|
    ensures forall i :: 0 <= i < |files| ==> FilesBack(files)[i] == FileBack(files[i])
  {
    if files != [] {
      BacksKeepFiles(files[1..]);
    }
  }

  lemma {:induction false} BacksKeepUsers(users: seq<User>)
    ensures |UsersBack(users)| == |users|
    ensures forall i :: 0 <= i < |users| ==> UsersBack(users)[i] == UserBack(users[i])
  {
    if users != [] {
      BacksKeepUsers(users[1..]);
    }
  }

  lemma DocumentIsLines(files: seq<File>, join: string, commands: seq<string>, ntp: Option<NTP>, users: seq<User>)
    ensures
      var lines := Split(NodeText(files, join, commands, ntp, users));
      && |lines| >= 4
      && lines[4..] == SplitAll(FileListLines(files + [KubeadmFile(join)])) + SplitAll(TailLines(commands, ntp, users))
  {
    hide Split, SplitAll, NodeText, FileListLines, TailLines;
    var h, all, tail := ["#cloud-config", "", "write_files:"], FileListLines(files + [KubeadmFile(join)]), TailLines(commands, ntp, users);
    DocumentGlue(files, join, commands, ntp, users);
    SplitGlue(FIRST_LINE, h + all + tail);
    SplitAllConcat(h + all, tail);
    SplitAllConcat(h, all);
    SplitLine(FIRST_LINE);
    SplitAllLines(h);
    assert Split(NodeText(files, join, commands, ntp, users)) == [FIRST_LINE] + h + (SplitAll(all) + SplitAll(tail));
  }

  /** What comes back is on one line, encodings included. */
  lemma OnlyLinesComeBack(files: seq<File>, join: string, commands: seq<string>, ntp: Option<NTP>, users: seq<User>)
    requires
      ReadText(NodeText(files, join, commands, ntp, users)) == Some(DocumentBack(files, join, commands, ntp, users))
    ensures OneLineScalars(files, ntp, users)
  {
    hide NodeText, Split, SplitAll, FileListLines, TailLines, ReadFiles, ReadTail, FilesBack, UsersBack, OneLineUser, AllLines;
    var all := files + [KubeadmFile(join)];
    var lines := Split(NodeText(files, join, commands, ntp, users));
    DocumentIsLines(files, join, commands, ntp, users);
    var (read, rest) := ReadFiles(lines[4..]).value;
    TailIsOneLine(read, rest);
    FilesAreOneLine(lines[4..]);
    BacksKeepFiles(all);
    BacksKeepUsers(users);
    assert forall i :: 0 <= i < |all| ==> OneLineButEncoding(all[i]) by {
      assert forall i :: 0 <= i < |all| ==> OneLineButEncoding(FileBack(all[i]));
    }
    if exists i :: 0 <= i < |all| && !NoBreak(all[i].encoding) {
      assert SameEncodings(all, FilesBack(all));
      BrokenEncodingShows(all, SplitAll(TailLines(commands, ntp, users)));
    }
    assert forall i :: 0 <= i < |files| ==> all[i] == files[i];
    forall i | 0 <= i < |users|
      ensures OneLineUser(users[i])
    {
      assert OneLineUser(UsersBack(users)[i]);
      LineBackIsLine(users[i]);
    }
  }

  lemma LineBackIsLine(u: User)
    ensures OneLineUser(UserBack(u)) ==> OneLineUser(u)
  {}

  lemma FitIsOneLine(files: seq<File>, join: string, ntp: Option<NTP>, users: seq<User>)
    requires Fit(files, join, ntp, users)
    ensures OneLineScalars(files, ntp, users)
  {}

  /** Printable or not, the text is read back exactly when every scalar is fit for its style. */
  lemma TextRoundTrip(files: seq<File>, join: string, commands: seq<string>, ntp: Option<NTP>, users: seq<User>)
    ensures
      ReadText(NodeText(files, join, commands, ntp, users)) == Some(DocumentBack(files, join, commands, ntp, users))
      <==> Fit(files, join, ntp, users)
  {
    hide ReadText, NodeText, DocumentBack, OneLineScalars, Fit;
    if OneLineScalars(files, ntp, users) {
      OneLineRoundTrip(files, join, commands, ntp, users);
    } else {
      if Fit(files, join, ntp, users) {
        FitIsOneLine(files, join, ntp, users);
      }
      if ReadText(NodeText(files, join, commands, ntp, users)) == Some(DocumentBack(files, join, commands, ntp, users)) {
        OnlyLinesComeBack(files, join, commands, ntp, users);
      }
    }
  }

  /** For every input at all: what the operator prints is read back, in order and with nothing added, exactly when every
      scalar is fit for the style it is printed in and made of characters that YAML accepts. Contents come back up to
      clip chomping, the two pointer-tested booleans up to presence, and commands always. */
  lemma DocumentRoundTrip(files: seq<File>, join: string, commands: seq<string>, ntp: Option<NTP>, users: seq<User>)
    ensures
      ReadDocument(NodeText(files, join, commands, ntp, users)) == Some(DocumentBack(files, join, commands, ntp, users))
      <==> Fit(files, join, ntp, users) && PrintableInput(files, join, ntp, users)
  {
    hide ReadText, NodeText, DocumentBack, Fit, Printable, PrintableInput;
    TextRoundTrip(files, join, commands, ntp, users);
    DocumentIsPrintable(files, join, commands, ntp, users);
  }
}
