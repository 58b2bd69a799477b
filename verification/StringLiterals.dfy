/** String literals: escaping by the printer, and what the tokenizer and the parser make of the text. */
module StringLiterals {
  import opened Options
  import opened Syntax

  /** One pass of a global replacement of a character by a text. */
  function ReplaceAll(s: string, c: char, to: string): string {
    if s == "" then "" else (if s[0] == c then to else [s[0]]) + ReplaceAll(s[1..], c, to)
  }

  /** Backslash first, then line feed, carriage return and tab, and the double quote last. */
  function Escape(s: string): string {
    ReplaceAll(ReplaceAll(ReplaceAll(ReplaceAll(ReplaceAll(s,
      '\\', "\\\\"), '\n', "\\n"), '\r', "\\r"), '\t', "\\t"), '"', "\\\"")
  }

  function Shift(n: Option<nat>, k: nat): Option<nat> {
    if n.None? then None else Some(n.value + k)
  }

  /** Where a literal ends whose inside starts the text: at the first quote that no backslash protects. */
  function ClosingQuote(text: string): (end: Option<nat>)
    ensures end.Some? ==> end.value < |text| && text[end.value] == '"'
  {
    if text == "" then None
    else if text[0] == '\\' then if |text| == 1 then None else Shift(ClosingQuote(text[2..]), 2)
    else if text[0] == '"' then Some(0)
    else Shift(ClosingQuote(text[1..]), 1)
  }

  method FindClosingQuote(text: string) returns (end: Option<nat>)
    ensures end == ClosingQuote(text)
  {
    var i := 0;
    var escaping := false;
    while i < |text| && (text[i] != '"' || escaping)
      invariant 0 <= i <= |text|
      invariant escaping ==> 0 < i && text[i - 1] == '\\'
      invariant var at := if escaping then i - 1 else i;
                ClosingQuote(text) == Shift(ClosingQuote(text[at..]), at)
    {
      if escaping {
        assert text[i - 1..][2..] == text[i + 1..];
        escaping := false;
      } else {
        assert text[i..][1..] == text[i + 1..];
        if text[i] == '\\' { escaping := true; }
      }
      i := i + 1;
    }
    if i < |text| {
      end := Some(i);
    } else {
      assert text[i..] == "";
      end := None;
    }
  }

  /** Escape sequences are replaced from left to right. A backslash before any other character disappears,
      except before a line break, which the pattern does not match. */
  function Unescape(s: string): string {
    if s == "" then ""
    else if IsActive(s) then [Unescaped(s[1])] + Unescape(s[2..])
    else [s[0]] + Unescape(s[1..])
  }

  /** The text starts with an escape sequence. */
  predicate IsActive(s: string) { |s| >= 2 && s[0] == '\\' && !IsLineBreak(s[1]) }

  predicate IsLineBreak(c: char) { c == '\n' || c == '\r' || c == '\U{2028}' || c == '\U{2029}' }

  function Unescaped(c: char): char {
    if c == 'n' then '\n'
    else if c == 't' then '\t'
    else if c == 'r' then '\r'
    else if c == 'b' then '\U{0008}'
    else if c == 'f' then '\U{000C}'
    else c
  }

  /** What is read from the inside of a literal with its closing quote and the text behind it: the value of
      the literal, and that text. */
  function ReadLiteral(text: string): Option<(string, string)> {
    var end := ClosingQuote(text);
    if end.None? then None else Some((Unescape(text[..end.value]), text[end.value + 1..]))
  }

  // Escaped text.

  function EscapeChar(c: char): string {
    if c == '\\' then "\\\\"
    else if c == '\n' then "\\n"
    else if c == '\r' then "\\r"
    else if c == '\t' then "\\t"
    else if c == '"' then "\\\""
    else [c]
  }

  lemma {:induction false} ReplaceAllConcat(a: string, b: string, c: char, to: string)
    ensures ReplaceAll(a + b, c, to) == ReplaceAll(a, c, to) + ReplaceAll(b, c, to)
  {
    if a == "" {
      assert a + b == b;
    } else {
      assert (a + b)[1..] == a[1..] + b;
      ReplaceAllConcat(a[1..], b, c, to);
    }
  }

  lemma ReplaceOne(x: char, c: char, to: string)
    ensures ReplaceAll([x], c, to) == if x == c then to else [x]
  {
    assert [x][1..] == "";
  }

  lemma ReplaceTwo(x: char, y: char, c: char, to: string)
    ensures ReplaceAll([x, y], c, to) == (if x == c then to else [x]) + (if y == c then to else [y])
  {
    assert [x, y] == [x] + [y];
    ReplaceAllConcat([x], [y], c, to);
    ReplaceOne(x, c, to);
    ReplaceOne(y, c, to);
  }

  /** Five passes over the text escape each character on its own: no pass touches what another one wrote. */
  lemma EscapeCons(x: char, s: string)
    ensures Escape([x] + s) == EscapeChar(x) + Escape(s)
  {
    var a1, b1 := ReplaceAll([x], '\\', "\\\\"), ReplaceAll(s, '\\', "\\\\");
    ReplaceAllConcat([x], s, '\\', "\\\\");
    var a2, b2 := ReplaceAll(a1, '\n', "\\n"), ReplaceAll(b1, '\n', "\\n");
    ReplaceAllConcat(a1, b1, '\n', "\\n");
    var a3, b3 := ReplaceAll(a2, '\r', "\\r"), ReplaceAll(b2, '\r', "\\r");
    ReplaceAllConcat(a2, b2, '\r', "\\r");
    var a4, b4 := ReplaceAll(a3, '\t', "\\t"), ReplaceAll(b3, '\t', "\\t");
    ReplaceAllConcat(a3, b3, '\t', "\\t");
    ReplaceAllConcat(a4, b4, '"', "\\\"");
    EscapeOne(x);
  }

  lemma EscapeOne(x: char)
    ensures Escape([x]) == EscapeChar(x)
  {
    ReplaceOne(x, '\\', "\\\\");
    ReplaceOne(x, '\n', "\\n");
    ReplaceOne(x, '\r', "\\r");
    ReplaceOne(x, '\t', "\\t");
    ReplaceOne(x, '"', "\\\"");
    ReplaceTwo('\\', '\\', '\n', "\\n");
    ReplaceTwo('\\', '\\', '\r', "\\r");
    ReplaceTwo('\\', '\\', '\t', "\\t");
    ReplaceTwo('\\', '\\', '"', "\\\"");
    ReplaceTwo('\\', 'n', '\r', "\\r");
    ReplaceTwo('\\', 'n', '\t', "\\t");
    ReplaceTwo('\\', 'n', '"', "\\\"");
    ReplaceTwo('\\', 'r', '\t', "\\t");
    ReplaceTwo('\\', 'r', '"', "\\\"");
    ReplaceTwo('\\', 't', '"', "\\\"");
  }

  /** Which character stands behind the backslash for each of the five characters that are escaped. */
  lemma EscapesAre()
    ensures Escape("\n") == ['\\', 'n'] && Escape("\r") == ['\\', 'r'] && Escape("\t") == ['\\', 't']
    ensures Escape("\"") == ['\\', '"'] && Escape("\\") == ['\\', '\\']
    ensures forall c :: c !in {'\n', '\r', '\t', '"', '\\'} ==> Escape([c]) == [c]
  {
    EscapeOne('\n');
    EscapeOne('\r');
    EscapeOne('\t');
    EscapeOne('"');
    EscapeOne('\\');
    forall c | c !in {'\n', '\r', '\t', '"', '\\'} ensures Escape([c]) == [c] { EscapeOne(c); }
  }

  /** A printed string literal ends where it should and denotes the string it was printed for. */
  lemma {:induction false} LiteralRoundTrip(s: string, rest: string)
    ensures ReadLiteral(Escape(s) + "\"" + rest) == Some((s, rest))
  {
    EscapedText(s, rest);
    var text := Escape(s) + "\"" + rest;
    assert text[..|Escape(s)|] == Escape(s) && text[|Escape(s)| + 1..] == rest;
  }

  lemma {:induction false} EscapedText(s: string, rest: string)
    ensures ClosingQuote(Escape(s) + "\"" + rest) == Some(|Escape(s)|) && Unescape(Escape(s)) == s
  {
    if s == "" {
      assert "" + "\"" + rest == "\"" + rest;
    } else {
      var first, others := EscapeChar(s[0]), Escape(s[1..]);
      assert s == [s[0]] + s[1..];
      EscapeCons(s[0], s[1..]);
      EscapedText(s[1..], rest);
      assert Escape(s) + "\"" + rest == first + (others + "\"" + rest);
      EscapedChar(s[0], others + "\"" + rest);
      EscapedChar(s[0], others);
    }
  }

  lemma {:induction false} EscapedChar(c: char, tail: string)
    ensures ClosingQuote(EscapeChar(c) + tail) == Shift(ClosingQuote(tail), |EscapeChar(c)|)
    ensures Unescape(EscapeChar(c) + tail) == [c] + Unescape(tail)
  {
    var text := EscapeChar(c) + tail;
    assert text[|EscapeChar(c)|..] == tail;
    if |EscapeChar(c)| == 2 {
      assert IsActive(text);
    }
  }

  // Text put between quotes as it is: object keys that are no identifiers, and module names.

  /** No quote, and no backslash unless a line break follows. */
  predicate BareOk(key: string) {
    if key == "" then true
    else if key[0] == '\\' then |key| >= 2 && IsLineBreak(key[1]) && BareOk(key[2..])
    else key[0] != '"' && BareOk(key[1..])
  }

  /** Unescaped text between quotes is read as itself exactly when there is nothing to escape. */
  lemma BareRoundTrip(key: string, rest: string)
    ensures ReadLiteral(key + "\"" + rest) == Some((key, rest)) <==> BareOk(key)
  {
    var text := key + "\"" + rest;
    BareText(key, rest);
    UnescapeShortens(key);
    var end := ClosingQuote(text);
    if end == Some(|key|) {
      assert text[..|key|] == key && text[|key| + 1..] == rest;
    } else if end.Some? {
      assert |text[end.value + 1..]| != |rest|;
    }
  }

  /** No escape sequence anywhere. */
  predicate Quiet(s: string) {
    s == "" || (!IsActive(s) && Quiet(s[1..]))
  }

  lemma {:induction false} UnescapeShortens(s: string)
    ensures |Unescape(s)| <= |s|
    ensures Quiet(s) <==> Unescape(s) == s
    ensures !Quiet(s) ==> |Unescape(s)| < |s|
  {
    if s != "" {
      UnescapeShortens(s[1..]);
      if |s| >= 2 { UnescapeShortens(s[2..]); }
      assert s == [s[0]] + s[1..];
    }
  }

  lemma {:induction false} BareText(key: string, rest: string)
    ensures ClosingQuote(key + "\"" + rest) == Some(|key|) && Quiet(key) <==> BareOk(key)
  {
    var text := key + "\"" + rest;
    if key == "" {
      assert text == "\"" + rest;
    } else if key[0] == '\\' {
      if |key| >= 2 {
        BareText(key[2..], rest);
        assert text[2..] == key[2..] + "\"" + rest;
        assert key[1..][1..] == key[2..];
        assert IsLineBreak(key[1]) ==> !IsActive(key[1..]);
      } else {
        assert text[0] == '\\' && ClosingQuote(text) != Some(1);
      }
    } else if key[0] != '"' {
      BareText(key[1..], rest);
      assert text[1..] == key[1..] + "\"" + rest;
    }
  }
}
