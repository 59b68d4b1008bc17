/** File contents stay inside their block: no content line can pass for a key or a list item. */
module Containment {
  import opened Wrappers
  import opened NodeConfigTypes
  import opened Text
  import opened CloudInit
  import opened BlockScalar
  import opened DocumentLines

  /** The lines with fewer than six leading spaces, in order. */
  function Shallow(ls: seq<string>): seq<string> {
    if ls == [] then [] else (if Lead(ls[0]) < 6 then [ls[0]] else []) + Shallow(ls[1..])
  }

  lemma {:induction false} ShallowConcat(a: seq<string>, b: seq<string>)
    ensures Shallow(a + b) == Shallow(a) + Shallow(b)
  {
    hide Lead;
    if a == [] {
      assert a + b == b;
    } else {
      assert (a + b)[1..] == a[1..] + b;
      ShallowConcat(a[1..], b);
    }
  }

  lemma {:induction false} ShallowIndented(ls: seq<string>)
    ensures Shallow(IndentLines(6, ls)) == []
  {
    if ls != [] {
      assert IndentLines(6, ls)[1..] == IndentLines(6, ls[1..]);
      ShallowIndented(ls[1..]);
      LeadIndented(6, ls[0]);
    }
  }

  /** The two lists of files differ in their contents only. */
  predicate SameButContents(files: seq<File>, files': seq<File>) {
    |files| == |files'| && forall i :: 0 <= i < |files| ==> files'[i] == files[i].(content := files'[i].content)
  }

  /** The lines of a file, its scalars taken as they are, line breaks and all. */
  lemma FileSplit(f: File)
    ensures Shallow(SplitAll(FileLines(f))) == Shallow(SplitAll(FileHead(f)))
  {
    hide Split, SplitAll, FileHead, IndentLines, Shallow;
    var tail := IndentLines(6, Split(f.content));
    SplitAllConcat(FileHead(f), tail);
    IndentedAreLines(6, f.content);
    SplitAllLines(tail);
    ShallowConcat(SplitAll(FileHead(f)), tail);
    ShallowIndented(Split(f.content));
  }

  lemma HeadHasNoContent(f: File, f': File)
    requires f' == f.(content := f'.content)
    ensures FileHead(f) == FileHead(f')
  {}

  lemma {:induction false} FileListSplit(files: seq<File>, files': seq<File>)
    requires SameButContents(files, files')
    ensures Shallow(SplitAll(FileListLines(files))) == Shallow(SplitAll(FileListLines(files')))
  {
    hide Split, SplitAll, FileHead, FileLines, Shallow;
    if files != [] {
      FileListSplit(files[1..], files'[1..]);
      HeadHasNoContent(files[0], files'[0]);
      FileSplit(files[0]);
      FileSplit(files'[0]);
      SplitAllConcat(FileLines(files[0]), FileListLines(files[1..]));
      SplitAllConcat(FileLines(files'[0]), FileListLines(files'[1..]));
      ShallowConcat(SplitAll(FileLines(files[0])), SplitAll(FileListLines(files[1..])));
      ShallowConcat(SplitAll(FileLines(files'[0])), SplitAll(FileListLines(files'[1..])));
    }
  }

  /** The shallow lines of the document do not depend on any file content, nor on the join configuration. Nothing is
      asked of the other fields. */
  lemma ContentsStayInside(files: seq<File>, files': seq<File>, join: string, join': string,
                           commands: seq<string>, ntp: Option<NTP>, users: seq<User>)
    requires SameButContents(files, files')
    ensures
      Shallow(Split(NodeText(files, join, commands, ntp, users)))
      == Shallow(Split(NodeText(files', join', commands, ntp, users)))
  {
    hide Split, SplitAll, NodeText, BodyLines, Shallow;
    ShallowDocument(files, join, commands, ntp, users);
    ShallowDocument(files', join', commands, ntp, users);
    FileListSplit(files + [KubeadmFile(join)], files' + [KubeadmFile(join')]);
  }

  lemma ShallowDocument(files: seq<File>, join: string, commands: seq<string>, ntp: Option<NTP>, users: seq<User>)
    ensures
      Shallow(Split(NodeText(files, join, commands, ntp, users)))
      == Shallow(Split(FIRST_LINE) + SplitAll(["#cloud-config", "", "write_files:"]))
         + Shallow(SplitAll(FileListLines(files + [KubeadmFile(join)])))
         + Shallow(SplitAll(TailLines(commands, ntp, users)))
  {
    hide Split, SplitAll, NodeText, FileListLines, TailLines, Shallow;
    var h, all, tail := ["#cloud-config", "", "write_files:"], FileListLines(files + [KubeadmFile(join)]), TailLines(commands, ntp, users);
    DocumentGlue(files, join, commands, ntp, users);
    SplitGlue(FIRST_LINE, h + all + tail);
    SplitAllConcat(h + all, tail);
    SplitAllConcat(h, all);
    var a, b, c := Split(FIRST_LINE) + SplitAll(h), SplitAll(all), SplitAll(tail);
    assert Split(FIRST_LINE) + (SplitAll(h) + b + c) == a + b + c;
    ShallowConcat(a + b, c);
    ShallowConcat(a, b);
  }
}
