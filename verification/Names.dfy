/** Names: which of them the tokenizer takes for a name, and which for a word of the language. */
module Names {
  import opened Options
  import opened Syntax

  /** Reserved words, the shorter ones first. They are looked up in a plain object, so that the names of its prototype's
      properties are among them. */
  predicate IsReserved(name: string) {
    if |name| <= 3 then name in {"_", "E", "do", "in", "as", "PI", "end", "PHI"}
    else if |name| == 4 then name in {"true", "null", "else", "case", "when", "then", "with"}
    else if |name| == 5 then name in {"false", "while", "quote"}
    else if |name| <= 9 then name in {"valueOf", "toString", "MAX_VALUE", "MIN_VALUE", "__proto__"}
    else
      name in {"constructor", "hasOwnProperty", "isPrototypeOf", "propertyIsEnumerable", "toLocaleString",
               "MAX_SAFE_INTEGER", "MIN_SAFE_INTEGER",
               "__defineGetter__", "__defineSetter__", "__lookupGetter__", "__lookupSetter__"}
  }

  /** Words that start a construct of their own wherever an expression starts. */
  predicate IsOpener(name: string) { name in {"let", "if", "match", "for", "loop", "macro"} }

  /** Names of special expressions, which are no names of the user's. */
  predicate IsSpecial(name: string) {
    name in {"array", "function", "for", "let", "loop", "object", "recur", "match", "import", "effect", "perform",
             "parallel", "race", "settled"}
  }

  predicate IsUserName(name: string) { IsName(name) && !IsSpecial(name) }

  /** All but some words are read between operands as the name of a function. */
  predicate IsOperatorName(name: string) {
    name !in {"comment", "block", "if", "let", "loop", "recur", "while", "handler", "transform", "resume"}
  }

  const XOR := "xor"

  /** A name that the tokenizer reads as one symbol: it has the letters of one, does not start like an operator, and is
      not reserved. */
  predicate IsName(name: string) { IsIdentifier(name) && !(XOR <= name) && !IsReserved(name) }

  // Reading a name.

  /** How many characters of an identifier the text starts with. */
  function Run(text: string): (k: nat)
    ensures k <= |text|
  {
    if text != "" && IsIdentifierChar(text[0]) then 1 + Run(text[1..]) else 0
  }

  /** Where a quoted name ends whose inside starts the text. */
  function ClosingTick(text: string): (end: Option<nat>)
    ensures end.Some? ==> end.value < |text|
  {
    if text == "" then None
    else if text[0] == '\\' then
      if |text| == 1 then None
      else var end := ClosingTick(text[2..]); if end.None? then None else Some(end.value + 2)
    else if text[0] == '\'' then Some(0)
    else var end := ClosingTick(text[1..]); if end.None? then None else Some(end.value + 1)
  }

  /** A backslash protects another one, or a quote; in front of anything else it stays. */
  function Unquoted(s: string): string {
    if s == "" then ""
    else if |s| >= 2 && s[0] == '\\' then (if s[1] in {'\\', '\''} then [s[1]] else s[..2]) + Unquoted(s[2..])
    else [s[0]] + Unquoted(s[1..])
  }

  /** The user-defined name that the text starts with, and what follows it. Names that are `known` to the language, as
      builtins or special expressions, are not among them. */
  function ReadName(text: string, known: string -> bool): Option<(string, string)> {
    if text == "" then None
    else if text[0] == '\'' then
      var end := ClosingTick(text[1..]);
      if end.None? || IsReserved(text[1..end.value + 1]) then None
      else Known(Unquoted(text[1..end.value + 1]), text[end.value + 2..], known)
    else if !IsIdentifierStart(text[0]) || IsReserved(text[..Run(text)]) || XOR <= text then None
    else Known(text[..Run(text)], text[Run(text)..], known)
  }

  function Known(name: string, rest: string, known: string -> bool): Option<(string, string)> {
    if known(name) then None else Some((name, rest))
  }

  /** What the printer puts behind a name. */
  predicate Delimits(rest: string) { rest == "" || rest[0] in {' ', '\n', '(', ')', ','} }

  /** Printed as it is, a name that is not known is read back if and only if the tokenizer takes it for one: the quotes
      around any other are lost. */
  lemma NameRoundTrip(name: string, rest: string, known: string -> bool)
    requires Delimits(rest)
    ensures ReadName(name + rest, known) == Some((name, rest)) <==> IsName(name) && !known(name)
  {
    var text := name + rest;
    if name == "" {
      assert text == rest;
    } else if name[0] == '\'' {
      QuotedLonger(name, rest, known);
    } else if IsIdentifierStart(name[0]) {
      RunOf(name, rest);
      var k := Run(text);
      if k == |name| {
        assert text[..k] == name && text[k..] == rest;
        if XOR <= text { assert text[..3] == XOR && |name| >= 3; }
      } else {
        assert |text[..k]| != |name|;
      }
    }
  }

  /** The run of identifier characters is the name if and only if the name is an identifier. */
  lemma {:induction false} RunOf(name: string, rest: string)
    requires Delimits(rest)
    ensures Run(name + rest) <= |name|
    ensures Run(name + rest) == |name| <==> forall i :: 0 <= i < |name| ==> IsIdentifierChar(name[i])
    ensures forall i :: 0 <= i < Run(name + rest) ==> IsIdentifierChar((name + rest)[i])
  {
    var text := name + rest;
    if name == "" {
      assert text == rest;
    } else {
      assert text[1..] == name[1..] + rest;
      RunOf(name[1..], rest);
      if IsIdentifierChar(name[0]) {
        assert forall i :: 0 < i < |name| ==> name[i] == name[1..][i - 1];
        assert forall i :: 0 <= i < |name[1..]| ==> name[1..][i] == name[i + 1];
        assert forall i :: 0 < i < |text| ==> text[i] == text[1..][i - 1];
      }
    }
  }

  lemma QuotedLonger(name: string, rest: string, known: string -> bool)
    requires name != "" && name[0] == '\''
    ensures ReadName(name + rest, known) != Some((name, rest))
  {
    var text := name + rest;
    var end := ClosingTick(text[1..]);
    if end.Some? {
      var inside := text[1..end.value + 1];
      UnquotedShortens(inside);
      if text[end.value + 2..] == rest { assert |name| == |inside| + 2; }
    }
  }

  lemma {:induction false} UnquotedShortens(s: string)
    ensures |Unquoted(s)| <= |s|
  {
    if s != "" {
      if |s| >= 2 && s[0] == '\\' { UnquotedShortens(s[2..]); } else { UnquotedShortens(s[1..]); }
    }
  }

  /** The name `a b`, which is written in quotes, is printed without them and read as the name `a`. */
  lemma SpacedName(known: string -> bool)
    requires !known("a")
    ensures Unquoted("a b") == "a b" && ReadName("a b", known) == Some(("a", " b"))
  {
    assert "a b"[1..] == " b" && " b"[1..] == "b" && "b"[1..] == "";
    assert Unquoted("b") == ['b'] + "" == "b";
    assert Unquoted(" b") == [' '] + "b" == " b";
    assert Run(" b") == 0 && Run("a b") == 1;
    assert "a b"[..1] == "a" && "a b"[1..] == " b";
  }
}
