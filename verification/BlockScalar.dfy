/** The `Indent` template function and the literal block scalar (sections 8.1.1.1, 8.1.1.2 and 8.1.2 of YAML 1.2)
    that it is meant to fill. */
module BlockScalar {
  import opened Wrappers
  import opened Text
  import opened CloudInit

  function IndentLines(i: nat, ls: seq<string>): (r: seq<string>)
    ensures |r| == |ls|
    ensures forall m :: 0 <= m < |ls| ==> r[m] == Spaces(i) + ls[m]
  {
    seq(|ls|, m requires 0 <= m < |ls| => Spaces(i) + ls[m])
  }

  lemma {:induction false} JoinIndented(i: nat, ls: seq<string>)
    requires ls != []
    ensures "\n" + Spaces(i) + Join(ls, "\n" + Spaces(i)) == Glue(IndentLines(i, ls))
  {
    hide Spaces;
    var sep, r := "\n" + Spaces(i), IndentLines(i, ls);
    if |ls| == 1 {
      assert r == [Spaces(i) + ls[0]];
      assert Glue(r) == "\n" + r[0];
    } else {
      JoinIndented(i, ls[1..]);
      assert r[1..] == IndentLines(i, ls[1..]);
      calc {
        sep + Join(ls, sep);
        sep + (ls[0] + sep + Join(ls[1..], sep));
        ("\n" + (Spaces(i) + ls[0])) + (sep + Join(ls[1..], sep));
        ("\n" + r[0]) + Glue(r[1..]);
      }
    }
  }

  /** Indenting a text, after a line break, is indenting each of its lines. */
  lemma IndentGlues(i: nat, s: string)
    ensures "\n" + Indent(i, s) == Glue(IndentLines(i, Split(s)))
  {
    JoinIndented(i, Split(s));
    assert "\n" + Indent(i, s) == "\n" + Spaces(i) + Join(Split(s), "\n" + Spaces(i));
  }

  lemma IndentedAreLines(i: nat, s: string)
    ensures AllLines(IndentLines(i, Split(s)))
  {}

  lemma SplitIndent(i: nat, s: string)
    ensures Split(Indent(i, s)) == IndentLines(i, Split(s))
  {
    hide Split, Indent, Join;
    var r := IndentLines(i, Split(s));
    IndentGlues(i, s);
    assert Indent(i, s) == r[0] + Glue(r[1..]) by {
      assert ("\n" + Indent(i, s))[1..] == Indent(i, s);
      assert Glue(r) == "\n" + (r[0] + Glue(r[1..]));
    }
    SplitGlueLines(r[0], r[1..]);
  }

  /** Take `i` characters off every line. */
  function Dedent(i: nat, t: string): string {
    var ls := Split(t);
    Join(seq(|ls|, m requires 0 <= m < |ls| => if |ls[m]| < i then "" else ls[m][i..]), "\n")
  }

  /** Dedenting undoes indenting; so `Indent` is injective. */
  lemma DedentUndoes(i: nat, s: string)
    ensures Dedent(i, Indent(i, s)) == s
  {
    hide Split, Indent, Join;
    SplitIndent(i, s);
    var ls, ts := Split(s), IndentLines(i, Split(s));
    assert seq(|ts|, m requires 0 <= m < |ts| => if |ts[m]| < i then "" else ts[m][i..]) == ls;
    JoinSplit(s);
  }

  lemma IndentIsInjective(i: nat, s: string, t: string)
    requires Indent(i, s) == Indent(i, t)
    ensures s == t
  {
    DedentUndoes(i, s);
    DedentUndoes(i, t);
  }

  /** `Indent` treats the parts of a text separately. */
  lemma IndentIsHomomorphic(i: nat, a: string, b: string)
    ensures Indent(i, a + "\n" + b) == Indent(i, a) + "\n" + Indent(i, b)
  {
    hide Split, Join, Indent;
    var x, y := IndentLines(i, Split(a)), IndentLines(i, Split(b));
    SplitAtBreak(a, b);
    assert IndentLines(i, Split(a + "\n" + b)) == x + y;
    GlueConcat(x, y);
    IndentGlues(i, a + "\n" + b);
    IndentGlues(i, a);
    IndentGlues(i, b);
    assert ("\n" + Indent(i, a + "\n" + b))[1..] == (("\n" + Indent(i, a)) + ("\n" + Indent(i, b)))[1..];
  }

  function Breaks(s: string): nat {
    if s == "" then 0 else Breaks(s[1..]) + (if s[0] == '\n' then 1 else 0)
  }

  lemma {:induction false} SplitCounts(s: string)
    ensures |Split(s)| == 1 + Breaks(s)
  {
    if s != "" {
      SplitCounts(s[1..]);
    }
  }

  lemma {:induction false} JoinLength(ls: seq<string>, n: nat)
    requires ls != []
    ensures |Join(ls, "\n" + Spaces(n))| == |Join(ls, "\n")| + n * (|ls| - 1)
  {
    if |ls| > 1 {
      JoinLength(ls[1..], n);
      assert n * (|ls| - 1) == n + n * (|ls[1..]| - 1);
    }
  }

  /** `Indent` adds `i` characters to each line and nothing else. */
  lemma IndentLength(i: nat, s: string)
    ensures |Indent(i, s)| == |s| + i * (1 + Breaks(s))
  {
    SplitCounts(s);
    JoinLength(Split(s), i);
    JoinSplit(s);
    assert i * (1 + Breaks(s)) == i + i * Breaks(s);
  }

  /** How many spaces a line starts with. */
  function Lead(l: string): (n: nat)
    ensures n <= |l|
    ensures forall m :: 0 <= m < n ==> l[m] == ' '
    ensures n < |l| ==> l[n] != ' '
  {
    if l == "" || l[0] != ' ' then 0 else 1 + Lead(l[1..])
  }

  predicate IsBlank(l: string) {
    Lead(l) == |l|
  }

  /** The first line that is more than spaces, or the number of lines. */
  function FirstText(ls: seq<string>): (f: nat)
    ensures f <= |ls|
    ensures forall m :: 0 <= m < f ==> IsBlank(ls[m])
    ensures f < |ls| ==> !IsBlank(ls[f])
  {
    if ls == [] || !IsBlank(ls[0]) then 0 else 1 + FirstText(ls[1..])
  }

  function Longest(ls: seq<string>): (n: nat)
    ensures forall m :: 0 <= m < |ls| ==> |ls[m]| <= n
    ensures ls != [] ==> exists m :: 0 <= m < |ls| && |ls[m]| == n
  {
    if ls == [] then 0
    else
      var n := Longest(ls[1..]);
      if |ls[0]| >= n then |ls[0]|
      else
        var m :| 0 <= m < |ls[1..]| && |ls[1..][m]| == n;
        assert |ls[m + 1]| == n;
        n
  }

  /** The indentation that a reader detects: that of the first line with text, or the longest line. */
  function Detected(ls: seq<string>): nat {
    var f := FirstText(ls);
    if f < |ls| then Lead(ls[f]) else Longest(ls)
  }

  /** A blank line before the text must not be longer than the indentation, and a line with text not less indented.
      Carriage returns would be line breaks of their own. */
  predicate WellIndented(ls: seq<string>) {
    && (forall m :: 0 <= m < FirstText(ls) ==> |ls[m]| <= Detected(ls))
    && (forall m :: 0 <= m < |ls| ==> IsBlank(ls[m]) || Lead(ls[m]) >= Detected(ls))
    && (forall m :: 0 <= m < |ls| ==> '\r' !in ls[m])
  }

  function Stripped(n: nat, ls: seq<string>): (r: seq<string>)
    ensures |r| == |ls|
    ensures forall m :: 0 <= m < |ls| ==> r[m] == if |ls[m]| <= n then "" else ls[m][n..]
  {
    seq(|ls|, m requires 0 <= m < |ls| => if |ls[m]| <= n then "" else ls[m][n..])
  }

  function TrimTail(ls: seq<string>): (r: seq<string>)
    ensures |r| <= |ls| && r == ls[..|r|]
    ensures r != [] ==> r[|r| - 1] != ""
    ensures forall m :: |r| <= m < |ls| ==> ls[m] == ""
  {
    if ls == [] || ls[|ls| - 1] != "" then ls else TrimTail(ls[..|ls| - 1])
  }

  /** Every line followed by a line break. */
  function Unlines(ls: seq<string>): string {
    if ls == [] then "" else ls[0] + "\n" + Unlines(ls[1..])
  }

  /** The value of a literal block scalar with these lines, auto-detected indentation and clip chomping. */
  function ReadBlock(ls: seq<string>): Option<string> {
    if WellIndented(ls) then Some(Unlines(TrimTail(Stripped(Detected(ls), ls)))) else None
  }

  /** A text up to clip chomping: its trailing line breaks are replaced by one, and an empty text stays empty. */
  function WithoutTail(s: string): string {
    if s == "" || s[|s| - 1] != '\n' then s else WithoutTail(s[..|s| - 1])
  }

  function Clipped(s: string): string {
    var t := WithoutTail(s);
    if t == "" then "" else t + "\n"
  }

  lemma {:induction false} UnlinesJoin(ls: seq<string>)
    requires ls != []
    ensures Unlines(ls) == Join(ls, "\n") + "\n"
  {
    if |ls| > 1 {
      UnlinesJoin(ls[1..]);
    } else {
      assert ls[1..] == [];
    }
  }

  lemma SplitSnoc(s: string)
    requires s != "" && s[|s| - 1] == '\n'
    ensures Split(s) == Split(s[..|s| - 1]) + [""]
  {
    hide Split;
    var a := s[..|s| - 1];
    assert s == a + "\n" + "";
    SplitAtBreak(a, "");
    SplitEmpty();
  }

  lemma SplitEmpty()
    ensures Split("") == [""]
  {}

  lemma {:induction false} LastPiece(s: string)
    requires s != "" && s[|s| - 1] != '\n'
    ensures Split(s)[|Split(s)| - 1] != ""
  {
    if |s| > 1 {
      LastPiece(s[1..]);
    }
  }

  /** Clipping the lines is clipping the text. */
  lemma {:induction false} ClippedLines(s: string)
    ensures Unlines(TrimTail(Split(s))) == Clipped(s)
  {
    hide Split;
    if s == "" {
      assert Split("") == [""] by { SplitLine(""); }
      assert TrimTail([""]) == TrimTail([""][..0]);
    } else if s[|s| - 1] == '\n' {
      SplitSnoc(s);
      ClippedLines(s[..|s| - 1]);
      assert (Split(s[..|s| - 1]) + [""])[..|Split(s)| - 1] == Split(s[..|s| - 1]);
    } else {
      LastPiece(s);
      UnlinesJoin(Split(s));
      JoinSplit(s);
    }
  }

  lemma {:induction false} SplitUnlines(ls: seq<string>)
    requires AllLines(ls)
    ensures Split(Unlines(ls)) == ls + [""]
  {
    hide Split;
    if ls == [] {
      SplitLine("");
    } else {
      SplitUnlines(ls[1..]);
      SplitLine(ls[0]);
      SplitAtBreak(ls[0], Unlines(ls[1..]));
      assert ls == [ls[0]] + ls[1..];
    }
  }

  lemma UnlinesInjective(a: seq<string>, b: seq<string>)
    requires AllLines(a) && AllLines(b) && Unlines(a) == Unlines(b)
    ensures a == b
  {
    SplitUnlines(a);
    SplitUnlines(b);
    assert a == (a + [""])[..|a|];
    assert b == (b + [""])[..|b|];
    assert |a + [""]| == |b + [""]|;
  }

  /** The first line that is not empty, or the number of lines. */
  function FirstFilled(ls: seq<string>): (f: nat)
    ensures f <= |ls|
    ensures forall m :: 0 <= m < f ==> ls[m] == ""
    ensures f < |ls| ==> ls[f] != ""
  {
    if ls == [] || ls[0] != "" then 0 else 1 + FirstFilled(ls[1..])
  }

  /** The first line of the content that is not empty does not start with a space. */
  predicate PlainStart(ls: seq<string>) {
    var f := FirstFilled(ls);
    f < |ls| ==> ls[f][0] != ' '
  }

  predicate NoReturn(ls: seq<string>) {
    forall m :: 0 <= m < |ls| ==> '\r' !in ls[m]
  }

  lemma {:induction false} LeadIndented(i: nat, l: string)
    ensures Lead(Spaces(i) + l) == i + Lead(l)
  {
    if i == 0 {
      assert Spaces(i) + l == l;
    } else {
      LeadIndented(i - 1, l);
      assert (Spaces(i) + l)[1..] == Spaces(i - 1) + l;
    }
  }

  lemma StripIndented(i: nat, ls: seq<string>)
    ensures Stripped(i, IndentLines(i, ls)) == ls
  {
    hide Spaces;
    forall m | 0 <= m < |ls|
      ensures Stripped(i, IndentLines(i, ls))[m] == ls[m]
    {
      assert (Spaces(i) + ls[m])[i..] == ls[m];
    }
  }

  lemma DetectsIndent(i: nat, ls: seq<string>)
    requires ls != [] && PlainStart(ls)
    ensures Detected(IndentLines(i, ls)) == i
    ensures forall m :: 0 <= m < FirstText(IndentLines(i, ls)) ==> |IndentLines(i, ls)[m]| <= i
  {
    var r, f := IndentLines(i, ls), FirstFilled(ls);
    forall m | 0 <= m < |ls|
      ensures Lead(r[m]) == i + Lead(ls[m])
    {
      LeadIndented(i, ls[m]);
    }
    if f < |ls| {
      assert Lead(r[f]) == i && !IsBlank(r[f]);
      assert FirstText(r) == f;
    } else {
      assert forall m :: 0 <= m < |r| ==> IsBlank(r[m]) && |r[m]| == i;
    }
  }

  /** A content line that starts with spaces where the first text is expected shifts the detected indentation. */
  lemma MissesIndent(i: nat, ls: seq<string>)
    requires !PlainStart(ls) && WellIndented(IndentLines(i, ls))
    ensures Detected(IndentLines(i, ls)) > i
  {
    var r, f := IndentLines(i, ls), FirstFilled(ls);
    LeadIndented(i, ls[f]);
    var t := FirstText(r);
    if t < f {
      assert ls[t] == "";
      LeadIndented(i, ls[t]);
    } else if t == f {
      assert Lead(r[f]) > i;
    } else {
      assert |r[f]| > i && |r[f]| <= Detected(r);
    }
  }

  lemma StrippedAreLines(n: nat, ls: seq<string>)
    requires AllLines(ls)
    ensures AllLines(Stripped(n, ls))
  {}

  /** An indented text is read back, up to clip chomping, exactly when it has no carriage return and its first
      non-empty line does not start with a space. */
  lemma BlockRoundTrip(i: nat, s: string)
    ensures ReadBlock(IndentLines(i, Split(s))) == Some(Clipped(s)) <==> PlainStart(Split(s)) && NoReturn(Split(s))
  {
    hide Split, Clipped, Detected, PlainStart;
    var ls, r := Split(s), IndentLines(i, Split(s));
    ClippedLines(s);
    forall m | 0 <= m < |ls|
      ensures '\r' in r[m] <==> '\r' in ls[m]
      ensures IsBlank(r[m]) || Lead(r[m]) >= i
    {
      LeadIndented(i, ls[m]);
      assert r[m] == Spaces(i) + ls[m];
    }
    if PlainStart(ls) {
      DetectsIndent(i, ls);
      StripIndented(i, ls);
    } else if WellIndented(r) {
      MissesIndent(i, ls);
      MissedContent(i, Detected(r), s);
    }
  }

  lemma MissedContent(i: nat, n: nat, s: string)
    requires n > i && !PlainStart(Split(s))
    ensures Unlines(TrimTail(Stripped(n, IndentLines(i, Split(s))))) != Unlines(TrimTail(Split(s)))
  {
    hide Split, Unlines;
    var ls, r := Split(s), IndentLines(i, Split(s));
    var st, f := Stripped(n, r), FirstFilled(Split(s));
    assert |st[f]| < |ls[f]|;
    IndentedAreLines(i, s);
    StrippedAreLines(n, r);
    assert f < |TrimTail(ls)| && TrimTail(ls)[f] == ls[f];
    assert f < |TrimTail(st)| ==> TrimTail(st)[f] == st[f];
    if Unlines(TrimTail(st)) == Unlines(TrimTail(ls)) {
      UnlinesInjective(TrimTail(st), TrimTail(ls));
    }
  }
}
