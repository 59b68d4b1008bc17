/** Bootstrap tokens, "abcdef.0123456789abcdef": parsing, printing, and their form in JSON. */
module BootstrapToken {
  import opened Wrappers

  datatype Parts = Parts(id: string, secret: string)

  predicate TokenChar(c: char) {
    'a' <= c <= 'z' || '0' <= c <= '9'
  }

  predicate Group(s: string, size: nat) {
    |s| == size && forall i :: 0 <= i < size ==> TokenChar(s[i])
  }

  /** What the two groups of the regular expression `\A([a-z0-9]{6})\.([a-z0-9]{16})\z` accept. */
  predicate ValidParts(p: Parts) {
    Group(p.id, 6) && Group(p.secret, 16)
  }

  /** `TokenFromIDAndSecret`. */
  function Token(p: Parts): string {
    p.id + "." + p.secret
  }

  /** `FindStringSubmatch` for that regular expression. */
  function Submatches(token: string): Option<Parts> {
    if |token| == 23 && token[6] == '.' && ValidParts(Parts(token[..6], token[7..])) then
      Some(Parts(token[..6], token[7..]))
    else None
  }

  /** `String`. */
  function Printed(p: Parts): string {
    if |p.id| > 0 && |p.secret| > 0 then Token(p) else ""
  }

  function Quoted(s: string): string {
    "\"" + s + "\""
  }

  /** `strings.Replace(s, "\"", "", -1)`. */
  function Erased(s: string): (r: string)
    ensures '"' !in r
  {
    if s == "" then "" else (if s[0] == '"' then "" else [s[0]]) + Erased(s[1..])
  }

  /** Matching undoes printing: a match is the only way to cut the token at a dot into two valid parts, whatever other
      dots the given parts hold. */
  lemma SubmatchesAreExact(token: string, p: Parts)
    ensures Submatches(token) == Some(p) <==> ValidParts(p) && token == Token(p)
  {
    if ValidParts(p) && token == Token(p) {
      assert token[..6] == p.id && token[7..] == p.secret && token[6] == '.';
    }
    if Submatches(token) == Some(p) {
      assert token == token[..6] + [token[6]] + token[7..];
    }
  }

  /** An accepted token is made of a dot at its seventh place and lower-case letters and digits everywhere else. */
  lemma TokensAreLowerCase(token: string)
    ensures
      Submatches(token).Some?
      <==> |token| == 23
           && forall i :: 0 <= i < 23 ==>
                if i == 6 then token[i] == '.' else token[i] in "abcdefghijklmnopqrstuvwxyz" || token[i] in "0123456789"
  {
    forall i | 0 <= i < |token|
      ensures TokenChar(token[i]) <==> token[i] in "abcdefghijklmnopqrstuvwxyz" || token[i] in "0123456789"
    {
      LettersAndDigits(token[i]);
    }
    hide TokenChar;
    if |token| == 23 && token[6] == '.' {
      assert forall i :: 0 <= i < 6 ==> token[i] == token[..6][i];
      assert forall i :: 0 <= i < 16 ==> token[i + 7] == token[7..][i];
      assert forall i :: 7 <= i < 23 ==> token[i] == token[7..][i - 7];
    }
  }

  lemma LettersAndDigits(c: char)
    ensures TokenChar(c) <==> c in "abcdefghijklmnopqrstuvwxyz" || c in "0123456789"
  {
    Letters(c);
    Digits(c);
  }

  lemma Letters(c: char)
    ensures c in "abcdefghijklmnopqrstuvwxyz" <==> 'a' <= c <= 'z'
  {
    var letters := "abcdefghijklmnopqrstuvwxyz";
    if 'a' <= c <= 'z' {
      assert letters[c as int - 97] == c;
    }
  }

  lemma Digits(c: char)
    ensures c in "0123456789" <==> '0' <= c <= '9'
  {
    var digits := "0123456789";
    if '0' <= c <= '9' {
      assert digits[c as int - 48] == c;
    }
  }

  /** Building a token from two parts succeeds exactly when each is valid on its own, and gives them back. */
  lemma PartsComeBack(p: Parts)
    ensures Submatches(Token(p)) == if ValidParts(p) then Some(p) else None
  {
    var token := Token(p);
    SubmatchesAreExact(token, p);
    if Submatches(token).Some? {
      var q := Submatches(token).value;
      SubmatchesAreExact(token, q);
      assert token[|p.id|] == '.';
      assert forall i :: 0 <= i < 23 && i != 6 ==> TokenChar(token[i]) by {
        assert forall i :: 0 <= i < 6 ==> token[i] == q.id[i];
        assert forall i :: 7 <= i < 23 ==> token[i] == q.secret[i - 7];
      }
      assert |p.id| == 6 && p.id == token[..6] && p.secret == token[7..];
    }
  }

  lemma {:induction false} ErasedAppends(a: string, b: string)
    ensures Erased(a + b) == Erased(a) + Erased(b)
  {
    if a == "" {
      assert a + b == b;
    } else {
      assert (a + b)[1..] == a[1..] + b;
      ErasedAppends(a[1..], b);
    }
  }

  lemma {:induction false} ErasedIsShorter(s: string)
    ensures |Erased(s)| <= |s|
    ensures |Erased(s)| == |s| <==> Erased(s) == s
    ensures Erased(s) == s <==> '"' !in s
  {
    if s != "" {
      ErasedIsShorter(s[1..]);
      assert s == [s[0]] + s[1..];
    }
  }

  lemma ErasedQuoted(s: string)
    ensures Erased(Quoted(s)) == Erased(s)
  {
    ErasedAppends("\"" + s, "\"");
    ErasedAppends("\"", s);
    assert Erased("\"") == "" by { assert "\""[1..] == ""; }
  }

  lemma {:induction false} ValidHasNoQuote(p: Parts)
    requires ValidParts(p)
    ensures '"' !in Token(p) && Printed(p) == Token(p)
  {}

  /** What is marshalled unmarshals to the same parts exactly when they are valid; in particular the quotes around an
      empty token are refused. */
  lemma MarshalledComesBack(p: Parts)
    ensures Submatches(Erased(Quoted(Printed(p)))) == Some(p) <==> ValidParts(p)
  {
    ErasedQuoted(Printed(p));
    var text := Erased(Printed(p));
    SubmatchesAreExact(text, p);
    if ValidParts(p) {
      ValidHasNoQuote(p);
      ErasedIsShorter(Printed(p));
    }
  }

  /** Quotes anywhere in the input make no difference. */
  lemma QuotesDoNotMatter(s: string)
    ensures Submatches(Erased(Quoted(Erased(s)))) == Submatches(Erased(s))
  {
    ErasedQuoted(Erased(s));
    ErasedIsShorter(Erased(s));
  }

  class BootstrapTokenString {
    var id: string
    var secret: string

    constructor (id: string, secret: string)
      ensures Value() == Parts(id, secret)
    {
      this.id := id;
      this.secret := secret;
    }

    function Value(): Parts
      reads this
    {
      Parts(id, secret)
    }

    function String(): string
      reads this
    {
      Printed(Value())
    }

    function MarshalJSON(): string
      reads this
    {
      Quoted(String())
    }

    /** Empty input is accepted and changes nothing. Other input is accepted exactly when it is a token once the quotes
        are erased; the receiver then prints as that token, and is as it was if the input is refused. */
    method UnmarshalJSON(b: string) returns (ok: bool)
      modifies this
      ensures ok <==> b == "" || exists p :: ValidParts(p) && Erased(b) == Token(p)
      ensures !ok || b == "" ==> Value() == old(Value())
      ensures ok && b != "" ==> ValidParts(Value()) && Token(Value()) == Erased(b) && MarshalJSON() == Quoted(Erased(b))
    {
      if |b| == 0 {
        return true;
      }
      var token := Erased(b);
      var parsed := NewBootstrapTokenString(token);
      if parsed == null {
        return false;
      }
      id := parsed.id;
      secret := parsed.secret;
      return true;
    }
  }

  method NewBootstrapTokenString(token: string) returns (parsed: BootstrapTokenString?)
    ensures parsed != null <==> exists p :: ValidParts(p) && token == Token(p)
    ensures parsed != null ==> fresh(parsed) && ValidParts(parsed.Value()) && Token(parsed.Value()) == token
  {
    forall p
      ensures Submatches(token) == Some(p) <==> ValidParts(p) && token == Token(p)
    {
      SubmatchesAreExact(token, p);
    }
    var matched := Submatches(token);
    if matched.None? {
      return null;
    }
    parsed := new BootstrapTokenString(matched.value.id, matched.value.secret);
  }

  method NewBootstrapTokenStringFromIDAndSecret(id: string, secret: string) returns (parsed: BootstrapTokenString?)
    ensures parsed != null <==> ValidParts(Parts(id, secret))
    ensures parsed != null ==> fresh(parsed) && parsed.Value() == Parts(id, secret)
  {
    PartsComeBack(Parts(id, secret));
    parsed := NewBootstrapTokenString(Token(Parts(id, secret)));
    if parsed != null {
      SubmatchesAreExact(Token(Parts(id, secret)), parsed.Value());
    }
  }
}
