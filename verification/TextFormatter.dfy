/** Colouring text in place: the rewriting loop, the rules for inline code, and the tags they put in. */
module TextFormatter {
  import opened Options

  datatype Attempt = Match(count: nat, formatted: string) | Thrown

  /** A rule looks at the whole text, including what is formatted already, and at an index into it. */
  type Rule = (string, nat) -> Attempt

  const NO_MATCH := Match(0, "")

  function Min(a: nat, b: nat): nat { if a <= b then a else b }

  function FirstMatch(rules: seq<Rule>, text: string, index: nat): Attempt {
    if rules == [] then NO_MATCH
    else
      var a := rules[0](text, index);
      if a.Thrown? || a.count != 0 then a else FirstMatch(rules[1..], text, index)
  }

  /** One pass over the rest from left to right. */
  function Scan(rules: seq<Rule>, done: string, rest: string): Option<string>
    decreases |rest|
  {
    if rest == "" then Some(done)
    else
      match FirstMatch(rules, done + rest, |done|)
      case Thrown => None
      case Match(count, formatted) =>
        if count == 0 then Scan(rules, done + [rest[0]], rest[1..])
        else Scan(rules, done + formatted, rest[Min(count, |rest|)..])
  }

  method TryRules(rules: seq<Rule>, text: string, index: nat) returns (a: Attempt)
    ensures a == FirstMatch(rules, text, index)
  {
    var i := 0;
    while i < |rules|
      invariant 0 <= i <= |rules|
      invariant FirstMatch(rules, text, index) == FirstMatch(rules[i..], text, index)
    {
      a := rules[i](text, index);
      if a.Thrown? || a.count != 0 { return; }
      i := i + 1;
    }
    a := NO_MATCH;
  }

  /** The loop rewrites the text it walks over; though the text may grow, what is left to walk over shrinks. */
  method Format(rules: seq<Rule>, prefix: string, suffix: string, text: string) returns (r: Option<string>)
    ensures r.Some? <==> Scan(rules, "", text).Some?
    ensures r.Some? ==> r.value == prefix + Scan(rules, "", text).value + suffix
  {
    var newText, index := text, 0;
    assert text[..0] == "" && text[0..] == text;
    while index < |newText|
      invariant 0 <= index <= |newText|
      invariant Scan(rules, "", text) == Scan(rules, newText[..index], newText[index..])
      decreases |newText| - index
    {
      var done, rest := newText[..index], newText[index..];
      assert newText == done + rest;
      var a := TryRules(rules, newText, index);
      if a.Thrown? { return None; }
      if a.count == 0 {
        index := index + 1;
        assert newText[..index] == done + [rest[0]] && newText[index..] == rest[1..];
      } else {
        newText := done + a.formatted + rest[Min(a.count, |rest|)..];
        index := index + |a.formatted|;
        assert newText[..index] == done + a.formatted && newText[index..] == rest[Min(a.count, |rest|)..];
      }
    }
    assert newText[..index] == newText;
    r := Some(prefix + newText + suffix);
  }

  // Inserted tags.

  /** What a rule puts in front of what it matches, and behind it. */
  datatype Tags = Tags(start: string, end: string)

  /** A text in pieces: what is as it was, and what has been put between tags. */
  datatype Piece = Own(text: string) | Coloured(tags: Tags, text: string) {
    function Show(): string { if Own? then text else tags.start + text + tags.end }
  }

  function Shown(ps: seq<Piece>): string { if ps == [] then "" else ps[0].Show() + Shown(ps[1..]) }

  function Kept(ps: seq<Piece>): string { if ps == [] then "" else ps[0].text + Kept(ps[1..]) }

  lemma Regroup(a: string, b: string, c: string)
    ensures a + (b + c) == a + b + c
  {
  }

  lemma {:induction false} ShownBoth(a: seq<Piece>, b: seq<Piece>)
    ensures Shown(a + b) == Shown(a) + Shown(b)
  {
    if a == [] {
      assert a + b == b;
    } else {
      assert (a + b)[1..] == a[1..] + b && (a + b)[0] == a[0];
      ShownBoth(a[1..], b);
      Regroup(a[0].Show(), Shown(a[1..]), Shown(b));
    }
  }

  lemma {:induction false} KeptBoth(a: seq<Piece>, b: seq<Piece>)
    ensures Kept(a + b) == Kept(a) + Kept(b)
  {
    if a == [] {
      assert a + b == b;
    } else {
      assert (a + b)[1..] == a[1..] + b && (a + b)[0] == a[0];
      KeptBoth(a[1..], b);
      Regroup(a[0].text, Kept(a[1..]), Kept(b));
    }
  }

  lemma OnePiece(p: Piece)
    ensures Shown([p]) == p.Show() && Kept([p]) == p.text
  {
    assert [p][1..] == [];
  }

  /** `result` is `text` with some pieces of it put between tags. */
  ghost predicate Tagged(ps: seq<Piece>, tags: set<Tags>, text: string, result: string) {
    Kept(ps) == text && Shown(ps) == result && forall p :: p in ps && p.Coloured? ==> p.tags in tags
  }

  /** Puts what it matches between tags, and does nothing else to it. */
  ghost predicate Colours(rule: Rule, tags: set<Tags>) {
    forall done: string, rest: string :: ColoursAt(rule(done + rest, |done|), rest, tags)
  }

  ghost predicate ColoursAt(a: Attempt, rest: string, tags: set<Tags>) {
    a.Match? && a.count != 0 ==>
      a.count <= |rest| && exists t :: t in tags && a.formatted == t.start + rest[..a.count] + t.end
  }

  lemma {:induction false} FirstColours(rules: seq<Rule>, done: string, rest: string, tags: set<Tags>)
    requires forall r :: r in rules ==> Colours(r, tags)
    ensures ColoursAt(FirstMatch(rules, done + rest, |done|), rest, tags)
  {
    if rules != [] {
      assert Colours(rules[0], tags);
      FirstColours(rules[1..], done, rest, tags);
    }
  }

  /** One step of the loop. */
  lemma {:induction false} StepTags(rules: seq<Rule>, tags: set<Tags>, done: string, rest: string)
    returns (k: nat, added: string, more: seq<Piece>)
    requires (forall r :: r in rules ==> Colours(r, tags)) && rest != "" && Scan(rules, done, rest).Some?
    ensures 0 < k <= |rest| && Tagged(more, tags, rest[..k], added)
    ensures Scan(rules, done, rest) == Scan(rules, done + added, rest[k..])
  {
    var a := FirstMatch(rules, done + rest, |done|);
    FirstColours(rules, done, rest, tags);
    if a.count == 0 {
      k, added, more := 1, [rest[0]], [Own([rest[0]])];
      OnePiece(Own([rest[0]]));
    } else {
      k, added := a.count, a.formatted;
      var t :| t in tags && a.formatted == t.start + rest[..k] + t.end;
      more := [Coloured(t, rest[..k])];
      OnePiece(more[0]);
    }
  }

  lemma {:induction false} ScanTags(rules: seq<Rule>, tags: set<Tags>, before: string, done: string, rest: string,
                                    ps: seq<Piece>)
    requires (forall r ::
               r in rules ==> Colours(r, tags)) && Tagged(ps, tags, before, done) && Scan(rules, done, rest).Some?
    ensures exists qs :: Tagged(qs, tags, before + rest, Scan(rules, done, rest).value)
    decreases |rest|
  {
    if rest == "" {
      assert before + rest == before;
    } else {
      var k, added, more := StepTags(rules, tags, done, rest);
      TaggedBoth(ps, more, tags, before, rest[..k], done, added);
      ScanTags(rules, tags, before + rest[..k], done + added, rest[k..], ps + more);
      assert before + rest[..k] + rest[k..] == before + rest;
    }
  }

  lemma TaggedBoth(ps: seq<Piece>, qs: seq<Piece>, tags: set<Tags>, a: string, b: string, c: string, d: string)
    requires Tagged(ps, tags, a, c) && Tagged(qs, tags, b, d)
    ensures Tagged(ps + qs, tags, a + b, c + d)
  {
    ShownBoth(ps, qs);
    KeptBoth(ps, qs);
  }

  /** All that the loop does is to put pieces of the text between tags, each between those of one rule; without them the
      text is what it was, whatever was in it. */
  lemma {:induction false} FormatTags(rules: seq<Rule>, tags: set<Tags>, text: string)
    requires (forall r :: r in rules ==> Colours(r, tags)) && Scan(rules, "", text).Some?
    ensures exists ps :: Tagged(ps, tags, text, Scan(rules, "", text).value)
  {
    ScanTags(rules, tags, "", "", text, []);
    assert "" + text == text;
  }

  // The rules.

  /** A pattern gives the length of what it matches in front of a text. */
  type Pattern = string -> Option<nat>

  function Matched(p: Pattern, s: string): Option<string> {
    var k := p(s);
    if k.None? then None else Some(s[..Min(k.value, |s|)])
  }

  datatype Spec = Spec(start: Pattern, end: Option<Pattern>, startTag: string, endTag: string, keep: bool, format: bool)

  /** Where the end pattern matches for the first time, or the end of the text. */
  function Until(end: Pattern, s: string, k: nat): (r: nat)
    requires k <= |s|
    ensures k <= r <= |s|
    decreases |s| - k
  {
    if k == |s| || Matched(end, s[k..]).Some? then k else Until(end, s, k + 1)
  }

  /** What a rule built from two patterns answers for the text `s` in front of it. */
  function Answer(spec: Spec, s: string): Attempt {
    var first := Matched(spec.start, s);
    if first.None? then NO_MATCH
    else
      var both := spec.keep && spec.format;
      var k := |first.value|;
      var j := if spec.end.None? then k else Until(spec.end.value, s, k);
      var last := if spec.end.None? then Some("") else Matched(spec.end.value, s[j..]);
      if last.None? then Thrown
      else
        var body := (if both then first.value else "") + s[k..j] + (if both then last.value else "");
        var outer := spec.keep && !spec.format;
        Match(j + |last.value|,
              (if outer then first.value else "") + spec.startTag + body + spec.endTag +
                (if outer then last.value else ""))
  }

  method ApplyRule(spec: Spec, text: string, index: nat) returns (a: Attempt)
    requires index <= |text|
    ensures a == Answer(spec, text[index..])
  {
    var s := text[index..];
    var startMatch := Matched(spec.start, s);
    if startMatch.None? { return NO_MATCH; }
    var both, outer := spec.keep && spec.format, spec.keep && !spec.format;
    var count := |startMatch.value|;
    var body := if both then startMatch.value else "";
    var endText := "";
    if spec.end.Some? {
      count, body := CollectBody(spec.end.value, text, index, count, body);
      assert text[index + count..] == s[count..];
      var endMatch := Matched(spec.end.value, text[index + count..]);
      if endMatch.None? { return Thrown; }
      count := count + |endMatch.value|;
      body := body + if both then endMatch.value else "";
      endText := endMatch.value;
    }
    a := Match(count, (if outer then startMatch.value else "") + spec.startTag + body + spec.endTag
                      + (if outer then endText else ""));
  }

  /** The loop over the characters up to the end pattern. */
  method CollectBody(end: Pattern, text: string, index: nat, start: nat, prefix: string)
    returns (count: nat, body: string)
    requires index + start <= |text|
    ensures var s := text[index..];
            count == Until(end, s, start) && start <= count <= |s| && body == prefix + s[start..count]
  {
    ghost var s := text[index..];
    count, body := start, prefix;
    while index + count < |text| && Matched(end, text[index + count..]).None?
      invariant start <= count <= |s|
      invariant Until(end, s, start) == Until(end, s, count)
      invariant body == prefix + s[start..count]
    {
      assert text[index + count..] == s[count..] && text[index + count] == s[count];
      assert s[start..count] + [s[count]] == s[start..count + 1];
      body := body + [text[index + count]];
      count := count + 1;
    }
    assert text[index + count..] == s[count..];
  }

  function RuleOf(spec: Spec): Rule {
    (text: string, index: nat) => if index <= |text| then Answer(spec, text[index..]) else NO_MATCH
  }

  /** A rule that keeps its patterns within the tags puts just these around all that it matches. */
  lemma {:induction false} RuleColours(spec: Spec, tags: set<Tags>)
    requires spec.keep && spec.format && Tags(spec.startTag, spec.endTag) in tags
    ensures Colours(RuleOf(spec), tags)
  {
    forall done: string, rest: string
      ensures ColoursAt(RuleOf(spec)(done + rest, |done|), rest, tags)
    {
      assert (done + rest)[|done|..] == rest;
      AnswerColours(spec, rest, tags);
    }
  }

  lemma {:induction false} AnswerColours(spec: Spec, rest: string, tags: set<Tags>)
    requires spec.keep && spec.format && Tags(spec.startTag, spec.endTag) in tags
    ensures ColoursAt(Answer(spec, rest), rest, tags)
  {
    var first := Matched(spec.start, rest);
    var a := Answer(spec, rest);
    if first.Some? && a.Match? && a.count != 0 {
      var k := |first.value|;
      var j := if spec.end.None? then k else Until(spec.end.value, rest, k);
      var last := if spec.end.None? then "" else Matched(spec.end.value, rest[j..]).value;
      var body := first.value + rest[k..j] + last;
      assert body == rest[..a.count];
      assert a.formatted == "" + spec.startTag + body + spec.endTag + "" == spec.startTag + body + spec.endTag;
      var t := Tags(spec.startTag, spec.endTag);
      assert t in tags && a.formatted == t.start + rest[..a.count] + t.end;
    }
  }

  /** What a number looks like, what must not touch it, and its tags. */
  datatype Digits = Digits(number: Pattern, touches: char -> bool, startTag: string, endTag: string)

  /** A number is coloured unless a symbol character or a digit touches it, in what is formatted already too. */
  function NumberRule(d: Digits): Rule {
    (text: string, index: nat) =>
      if index > |text| then NO_MATCH
      else
        var digits := Matched(d.number, text[index..]);
        if digits.None? then NO_MATCH
        else
          var after := index + |digits.value|;
          if (0 < index && d.touches(text[index - 1])) || (after < |text| && d.touches(text[after])) then NO_MATCH
          else Match(|digits.value|, d.startTag + digits.value + d.endTag)
  }

  lemma {:induction false} NumberColours(d: Digits, tags: set<Tags>)
    requires Tags(d.startTag, d.endTag) in tags
    ensures Colours(NumberRule(d), tags)
  {
    forall done: string, rest: string
      ensures ColoursAt(NumberRule(d)(done + rest, |done|), rest, tags)
    {
      assert (done + rest)[|done|..] == rest;
      var a, t := NumberRule(d)(done + rest, |done|), Tags(d.startTag, d.endTag);
      if a.Match? && a.count != 0 { assert t in tags && a.formatted == t.start + rest[..a.count] + t.end; }
    }
  }

  /** Digits are coloured, as a whole, if and only if nothing touches them. */
  lemma NumberExactly(d: Digits, before: string, digits: string, after: string)
    requires digits != "" && d.number(digits + after) == Some(|digits|)
    ensures NumberRule(d)(before + (digits + after), |before|) ==
            if (before != "" && d.touches(before[|before| - 1])) || (after != "" && d.touches(after[0])) then NO_MATCH
            else Match(|digits|, d.startTag + digits + d.endTag)
  {
    var text := before + (digits + after);
    assert text[|before|..] == digits + after && (digits + after)[..|digits|] == digits;
    assert after != "" ==> text[|before| + |digits|] == after[0];
  }

  /** The rules for inline code: patterns, each kept within its tags, and among them the number rule. */
  function InlineRules(specs: seq<Spec>, d: Digits, more: seq<Spec>): seq<Rule> {
    Rules(specs) + [NumberRule(d)] + Rules(more)
  }

  /** Whatever the text, and whatever tags are in it already, it is coloured by putting pieces of it between tags. */
  lemma {:induction false} InlineCodeTags(specs: seq<Spec>, d: Digits, more: seq<Spec>, tags: set<Tags>, text: string)
    requires forall s :: s in specs + more ==> s.keep && s.format && Tags(s.startTag, s.endTag) in tags
    requires Tags(d.startTag, d.endTag) in tags && Scan(InlineRules(specs, d, more), "", text).Some?
    ensures exists ps :: Tagged(ps, tags, text, Scan(InlineRules(specs, d, more), "", text).value)
  {
    NumberColours(d, tags);
    forall r | r in InlineRules(specs, d, more)
      ensures Colours(r, tags)
    {
      if r != NumberRule(d) {
        RulesFrom(specs);
        RulesFrom(more);
        var s :| s in specs + more && r == RuleOf(s);
        RuleColours(s, tags);
      }
    }
    FormatTags(InlineRules(specs, d, more), tags, text);
  }

  // A number directly behind something coloured.

  /** Tags end in a letter. */
  predicate EndsInTag(s: string) { s != "" && s[|s| - 1] == 'm' }

  lemma {:induction false} FirstOfBoth(a: seq<Rule>, b: seq<Rule>, text: string, index: nat)
    ensures var first := FirstMatch(a, text, index);
            FirstMatch(a + b, text, index) ==
            if first.Thrown? || first.count != 0 then first else FirstMatch(b, text, index)
  {
    if a == [] {
      assert a + b == b;
    } else {
      assert (a + b)[0] == a[0] && (a + b)[1..] == a[1..] + b;
      FirstOfBoth(a[1..], b, text, index);
    }
  }

  predicate TaggedMatch(a: Attempt) { a.Match? && a.count != 0 ==> EndsInTag(a.formatted) }

  lemma {:induction false} PatternEndsInTag(specs: seq<Spec>, text: string, index: nat)
    requires forall s :: s in specs ==> s.keep && s.format && EndsInTag(s.endTag)
    ensures TaggedMatch(FirstMatch(Rules(specs), text, index))
  {
    if specs != [] {
      var s := specs[0];
      assert s in specs;
      if index <= |text| && Answer(s, text[index..]).Match? && Answer(s, text[index..]).count != 0 {
        AnswerEnds(s, text[index..]);
      }
      PatternEndsInTag(specs[1..], text, index);
    }
  }

  lemma AnswerEnds(spec: Spec, s: string)
    requires spec.keep && spec.format && EndsInTag(spec.endTag)
    requires Answer(spec, s).Match? && Answer(spec, s).count != 0
    ensures EndsInTag(Answer(spec, s).formatted)
  {
    var f := Answer(spec, s).formatted;
    assert f[|f| - 1] == spec.endTag[|spec.endTag| - 1];
  }

  lemma {:induction false} MatchEndsInTag(specs: seq<Spec>, d: Digits, more: seq<Spec>, text: string, index: nat)
    requires (forall s :: s in specs + more ==> s.keep && s.format && EndsInTag(s.endTag)) && EndsInTag(d.endTag)
    ensures TaggedMatch(FirstMatch(InlineRules(specs, d, more), text, index))
  {
    FirstOfBoth(Rules(specs) + [NumberRule(d)], Rules(more), text, index);
    FirstOfBoth(Rules(specs), [NumberRule(d)], text, index);
    PatternEndsInTag(specs, text, index);
    PatternEndsInTag(more, text, index);
    var n := NumberRule(d)(text, index);
    if n.Match? && n.count != 0 { assert n.formatted[|n.formatted| - 1] == d.endTag[|d.endTag| - 1]; }
    assert [NumberRule(d)][1..] == [];
  }

  /** After every match the loop goes on as if there were no number rule: a number directly behind something coloured is
      never coloured as one, since the tag in front of it ends in a letter. */
  lemma {:induction false} NumberBehindTag(specs: seq<Spec>, d: Digits, more: seq<Spec>, done: string, rest: string)
    requires (forall s :: s in specs + more ==> s.keep && s.format && EndsInTag(s.endTag)) && EndsInTag(d.endTag)
    requires d.touches('m')
    ensures var a := FirstMatch(InlineRules(specs, d, more), done + rest, |done|);
            a.Match? && 0 < a.count <= |rest| ==>
              var before, after := done + a.formatted, rest[a.count..];
              FirstMatch(InlineRules(specs, d, more), before + after, |before|) ==
              FirstMatch(Rules(specs) + Rules(more), before + after, |before|)
  {
    var a := FirstMatch(InlineRules(specs, d, more), done + rest, |done|);
    MatchEndsInTag(specs, d, more, done + rest, |done|);
    if a.Match? && 0 < a.count <= |rest| {
      var before, after := done + a.formatted, rest[a.count..];
      var text := before + after;
      assert text[|before| - 1] == 'm';
      assert NumberRule(d)(text, |before|) == NO_MATCH;
      WithoutNumber(specs, d, more, text, |before|);
    }
  }

  lemma WithoutNumber(specs: seq<Spec>, d: Digits, more: seq<Spec>, text: string, index: nat)
    requires NumberRule(d)(text, index) == NO_MATCH
    ensures FirstMatch(InlineRules(specs, d, more), text, index) == FirstMatch(Rules(specs) + Rules(more), text, index)
  {
    FirstOfBoth(Rules(specs) + [NumberRule(d)], Rules(more), text, index);
    FirstOfBoth(Rules(specs), [NumberRule(d)], text, index);
    FirstOfBoth(Rules(specs), Rules(more), text, index);
    assert [NumberRule(d)][1..] == [];
  }

  function Rules(specs: seq<Spec>): seq<Rule> {
    if specs == [] then [] else [RuleOf(specs[0])] + Rules(specs[1..])
  }

  lemma {:induction false} RulesFrom(specs: seq<Spec>)
    ensures forall r :: r in Rules(specs) ==> exists s :: s in specs && r == RuleOf(s)
  {
    if specs != [] { RulesFrom(specs[1..]); }
  }
}
