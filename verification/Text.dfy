/** Strings as sequences of lines: the `strings.Split`, `strings.Join` and `strings.Repeat`
    that the cloud-init templates rely on, for the separator "\n". */
module Text {

  predicate NoBreak(s: string) {
    '\n' !in s
  }

  predicate AllLines(ls: seq<string>) {
    forall i :: 0 <= i < |ls| ==> NoBreak(ls[i])
  }

  /** The characters that a YAML stream may hold (section 5.1 of YAML 1.2). */
  predicate YamlPrintable(c: char) {
    || c in {'\t', '\n', '\r', '\U{85}'} || ' ' <= c <= '~'
    || ('\U{A0}' <= c && c !in {'\U{FFFE}', '\U{FFFF}'})
  }

  predicate Printable(s: string) {
    forall i :: 0 <= i < |s| ==> YamlPrintable(s[i])
  }

  /** `strings.Repeat(" ", n)`. */
  function Spaces(n: nat): (s: string)
    ensures |s| == n
    ensures forall i :: 0 <= i < n ==> s[i] == ' '
  {
    if n == 0 then "" else " " + Spaces(n - 1)
  }

  /** `strings.Split(s, "\n")`; the empty string gives one empty piece. */
  function Split(s: string): (ls: seq<string>)
    ensures |ls| >= 1
    ensures AllLines(ls)
  {
    if s == "" then [""]
    else if s[0] == '\n' then [""] + Split(s[1..])
    else
      var rest := Split(s[1..]);
      [[s[0]] + rest[0]] + rest[1..]
  }

  /** `strings.Join(ls, sep)`. */
  function Join(ls: seq<string>, sep: string): string {
    if |ls| == 0 then ""
    else if |ls| == 1 then ls[0]
    else ls[0] + sep + Join(ls[1..], sep)
  }

  /** Every line preceded by a line break. */
  function Glue(ls: seq<string>): string {
    if ls == [] then "" else "\n" + ls[0] + Glue(ls[1..])
  }

  function SplitAll(ls: seq<string>): seq<string> {
    if ls == [] then [] else Split(ls[0]) + SplitAll(ls[1..])
  }

  lemma {:induction false} SplitAtBreak(a: string, b: string)
    ensures Split(a + "\n" + b) == Split(a) + Split(b)
  {
    var s := a + "\n" + b;
    if a == "" {
      assert s[0] == '\n' && s[1..] == b;
    } else {
      assert s[0] == a[0] && s[1..] == a[1..] + "\n" + b;
      SplitAtBreak(a[1..], b);
      var l, r := Split(a[1..]), Split(b);
      if a[0] != '\n' {
        assert Split(s) == [[a[0]] + (l + r)[0]] + (l + r)[1..];
      }
      assert Split(s) == Split(a) + r;
    }
  }

  lemma {:induction false} SplitGlue(h: string, ls: seq<string>)
    ensures Split(h + Glue(ls)) == Split(h) + SplitAll(ls)
    decreases ls
  {
    hide Split;
    if ls == [] {
      assert h + Glue(ls) == h;
    } else {
      assert h + Glue(ls) == (h + "\n" + ls[0]) + Glue(ls[1..]);
      SplitGlue(h + "\n" + ls[0], ls[1..]);
      SplitAtBreak(h, ls[0]);
      assert Split(h) + Split(ls[0]) + SplitAll(ls[1..]) == Split(h) + SplitAll(ls);
    }
  }

  lemma {:induction false} SplitLine(l: string)
    requires NoBreak(l)
    ensures Split(l) == [l]
  {
    if l != "" {
      SplitLine(l[1..]);
      assert [l[0]] + l[1..] == l;
    }
  }

  lemma {:induction false} SplitAllLines(ls: seq<string>)
    requires AllLines(ls)
    ensures SplitAll(ls) == ls
  {
    if ls != [] {
      SplitLine(ls[0]);
      SplitAllLines(ls[1..]);
    }
  }

  /** Splitting undoes gluing lines after a first line. */
  lemma SplitGlueLines(h: string, ls: seq<string>)
    requires NoBreak(h) && AllLines(ls)
    ensures Split(h + Glue(ls)) == [h] + ls
  {
    SplitGlue(h, ls);
    SplitLine(h);
    SplitAllLines(ls);
  }

  lemma {:induction false} GlueConcat(a: seq<string>, b: seq<string>)
    ensures Glue(a + b) == Glue(a) + Glue(b)
  {
    if a == [] {
      assert a + b == b;
    } else {
      assert (a + b)[1..] == a[1..] + b;
      GlueConcat(a[1..], b);
    }
  }

  lemma {:induction false} SplitAllConcat(a: seq<string>, b: seq<string>)
    ensures SplitAll(a + b) == SplitAll(a) + SplitAll(b)
  {
    if a == [] {
      assert a + b == b;
    } else {
      assert (a + b)[1..] == a[1..] + b;
      SplitAllConcat(a[1..], b);
    }
  }

  lemma {:induction false} JoinSplit(s: string)
    ensures Join(Split(s), "\n") == s
  {
    if s != "" {
      JoinSplit(s[1..]);
      var rest := Split(s[1..]);
      if s[0] == '\n' {
        assert ([""] + rest)[1..] == rest;
      } else {
        var ls := [[s[0]] + rest[0]] + rest[1..];
        assert ls == Split(s) && ls[1..] == rest[1..];
        assert Join(ls, "\n") == [s[0]] + Join(rest, "\n");
      }
    }
  }
}
