/** How what is read for a construct follows from what is read for its parts. */
module ConstructReads {
  import opened Options
  import opened Syntax
  import opened Docs
  import opened Names
  import opened Grammar
  import opened Parser
  import opened Printer
  import opened Spelling
  import opened Constructs

  // What may follow an expression.

  predicate Ended(rest: List<Tok>) { rest.Nil? || EndTok(rest.head) }

  predicate EndTok(t: Tok) {
    t.Close? || t.Comma? || t.Semicolon? || t.EffectTok? ||
    (t.Keyword? && t.word in {WThen, WElse, WEnd, WWhen, WWhile, WCase, WLet, WTransform})
  }

  /** Nothing, or a reserved word: there a name can be a word. */
  predicate Final(rest: List<Tok>) { rest.Nil? || IsReservedTok(rest.head) }

  lemma LexEnded(behind: bool, rest: List<Tok>)
    requires Ended(rest)
    ensures Lex(behind, rest) == Lex(true, rest) && Head(Lex(true, rest)) == Head(rest)
    ensures Stops(Lex(true, rest), 0) && !At(Lex(true, rest), Open(Paren)) && !At(Lex(true, rest), Op(Arrow))
  {
  }

  lemma LexComma(ts: List<Tok>)
    ensures Lex(true, Cons(Comma, ts)) == Cons(Comma, Lex(false, ts))
  {
  }

  // How expressions start.

  predicate Starter(t: Tok) {
    && !t.Close? && !t.Comma? && !t.Semicolon?
    && !(t.Op? && t.sign in {Dots, Equals, Arrow, Colon})
    && !(t.Keyword? && t.word in {WEnd, WElse, WThen, WCase, WWith, WWhen, WWhile, WTransform, WAs, WIn})
  }

  predicate StartsAs(ts: List<Tok>, n: Node) {
    ts.Cons? && Starter(ts.head) && (ts.head == Keyword(WDo) <==> n.Block?) && (ts.head == Keyword(WIf) <==> n.If?)
  }

  predicate ClosesHere(ts: List<Tok>) { ts.Cons? && ts.head.Close? }

  predicate NoDash(ts: List<Tok>) { ts.Cons? ==> !ts.head.Dash? }

  lemma HeadStays(behind: bool, ts: List<Tok>)
    requires NoDash(ts)
    ensures Head(Lex(behind, ts)) == Head(ts) && Lex(behind, ts) == Lex(true, ts)
  {
  }

  /** The spelling of the node in front of `rest` is read as the node, and starts as it should. */
  ghost predicate Arrives(n: Node, behind: bool, rest: List<Tok>) {
    var ts := Lex(behind, Spell(n, rest));
    ReadExpr(ts) == Some((n, Lex(true, rest))) && StartsAs(Spell(n, rest), n) && StartsAs(ts, n)
  }

  /** So it is in front of whatever ends an expression. `behind`: a word stands in front; `final`: a reserved word or
      nothing follows. */
  ghost predicate Comes(n: Node, behind: bool, final: bool) {
    forall rest {:trigger Spell(n, rest)} :: Ended(rest) && (Final(rest) <==> final) ==> Arrives(n, behind, rest)
  }

  /** A construct that a mark or a bracket opens. */
  lemma MarkArrives(n: Node, t: Tok, behind: bool, ts: List<Tok>, rest: List<Tok>)
    requires Spell(n, rest) == Cons(t, ts) && !n.Block? && !n.If? && Starter(t) && !t.Keyword? && !t.Dash?
    requires var read := Lex(behind, Cons(t, ts)); Opens(read) && ReadConstruct(read) == Some((n, Lex(true, rest)))
    requires Ended(rest)
    ensures Arrives(n, behind, rest)
  {
    LexEnded(true, rest);
    HeadStays(behind, Cons(t, ts));
  }

  /** One that a word opens. */
  lemma WordArrives(n: Node, w: Word, behind: bool, ts: List<Tok>, rest: List<Tok>)
    requires Spell(n, rest) == K(w, ts) && (w == WDo <==> n.Block?) && (w == WIf <==> n.If?)
    requires Opens(K(w, ts)) && ReadWord(w, Lex(true, ts)) == Some((n, Lex(true, rest))) && Ended(rest)
    ensures Arrives(n, behind, rest)
  {
    LexEnded(true, rest);
    LexWord(behind, w, ts);
    WordReads(n, w, Lex(true, ts), Lex(true, rest));
  }

  lemma LexWord(behind: bool, w: Word, ts: List<Tok>)
    ensures Lex(behind, K(w, ts)) == Cons(Keyword(w), Lex(true, ts))
  {
  }

  lemma WordReads(n: Node, w: Word, ts: List<Tok>, after: List<Tok>)
    requires Opens(K(w, Nil)) && ReadWord(w, ts) == Some((n, after)) && Stops(after, 0)
    ensures ReadExpr(Cons(Keyword(w), ts)) == Some((n, after))
  {
    var read := Cons(Keyword(w), ts);
    assert Opens(read) && ReadConstruct(read) == ReadWord(w, ts);
  }

  /** One that goes on with a bracket. */
  lemma BracketArrives(n: Node, w: Word, behind: bool, ts: List<Tok>, rest: List<Tok>)
    requires Spell(n, rest) == K(w, Lb(Paren, ts)) && !n.Block? && !n.If? && w != WDo && w != WIf
    requires Opens(K(w, Nil)) && ReadWord(w, Cons(Open(Paren), Lex(false, ts))) == Some((n, Lex(true, rest)))
    requires Ended(rest)
    ensures Arrives(n, behind, rest)
  {
    assert Lex(true, Lb(Paren, ts)) == Cons(Open(Paren), Lex(false, ts));
    WordArrives(n, w, behind, Lb(Paren, ts), rest);
  }

  /** A special expression in the form of a call. */
  lemma CallArrives(n: Node, w: Word, args: seq<Node>, behind: bool, ts: List<Tok>, rest: List<Tok>)
    requires Spell(n, rest) == K(w, Lb(Paren, ts)) && !n.Block? && !n.If?
    requires w in {WPerform, WRecur, WParallel, WRace, WSettled} && Special(w, args) == Some(n) && Ended(rest)
    requires ReadElements(Lex(false, ts), Paren) == Some((args, Lex(true, rest)))
    ensures Arrives(n, behind, rest)
  {
    assert ReadWord(w, Cons(Open(Paren), Lex(false, ts))) == Some((n, Lex(true, rest)));
    BracketArrives(n, w, behind, ts, rest);
  }

  // Leaves.

  lemma LeafComes(n: Node, behind: bool, final: bool)
    requires n.Atom? || n.Str? || (n.Effect? && KnownEffect(n.name))
    ensures Comes(n, behind, final)
  {
    var t := if n.Atom? then AtomTok(n.name) else if n.Str? then Quoted(n.text) else EffectTok(n.name);
    forall rest | Ended(rest)
      ensures Arrives(n, behind, rest)
    {
      LexEnded(false, rest);
      assert Lex(behind, Cons(t, rest)) == Cons(t, Lex(true, rest));
      MarkArrives(n, t, behind, rest, rest);
    }
  }

  lemma ConstantComes(n: Node, behind: bool, final: bool)
    requires n.Reserved? && n.word.Constant?
    ensures Comes(n, behind, final)
  {
    forall rest | Ended(rest)
      ensures Arrives(n, behind, rest)
    {
      LexEnded(true, rest);
      ConstantReads(n.word, Lex(true, rest));
      assert Spell(n, rest) == K(WReserved(n.word), rest);
    }
  }

  lemma ConstantReads(w: ReservedWord, after: List<Tok>)
    requires Stops(after, 0) && !At(after, Open(Paren))
    ensures ReadExpr(Cons(Keyword(WReserved(w)), after)) == Some((Reserved(w), after))
  {
    var ts := Cons(Keyword(WReserved(w)), after);
    assert ParseOperand(ts) == Some((Reserved(w), after));
    assert ParseExpr(ts, 0) == ParseLoop(Reserved(w), after, 0);
  }

  lemma ImportComes(n: Node, behind: bool, final: bool)
    requires n.Import?
    ensures Comes(n, behind, final)
  {
    forall rest | Ended(rest)
      ensures Arrives(n, behind, rest)
    {
      var ts := Cons(BareQuoted(n.name), Rb(Paren, rest));
      assert Lex(false, ts) == Cons(BareQuoted(n.name), Cons(Close(Paren), Lex(true, rest)));
      BracketArrives(n, WImport, behind, ts, rest);
    }
  }

  lemma MacroCallComes(n: Node, behind: bool, final: bool)
    requires n.MacroCall? && n.fn.Sym? && Comes(n.operand, false, final)
    ensures Comes(n, behind, final)
  {
    forall rest | Ended(rest) && (Final(rest) <==> final)
      ensures Arrives(n, behind, rest)
    {
      var ts := Spell(n.operand, rest);
      assert Spell(n.fn, ts) == Cons(Ident(n.fn.name), ts);
      assert Lex(behind, Cons(Hash, Cons(Ident(n.fn.name), ts))) == Cons(Hash, Cons(Ident(n.fn.name), Lex(false, ts)));
      MarkArrives(n, Hash, behind, Cons(Ident(n.fn.name), ts), rest);
    }
  }

  // Elements.

  ghost predicate ElementComes(e: Node) {
    forall rest {:trigger Spell(e, rest)} :: Ended(rest) && !Final(rest) ==>
      var ts := Lex(false, Spell(e, rest));
      && ReadElement(ts) == Some((e, Lex(true, rest)))
      && ts.Cons? && !ts.head.Close? && Spell(e, rest).Cons? && !Spell(e, rest).head.Close?
  }

  lemma SpreadComes(e: Node)
    requires e.Spread? && Comes(e.inner, false, false)
    ensures ElementComes(e)
  {
    forall rest | Ended(rest) && !Final(rest)
      ensures ReadElement(Lex(false, Spell(e, rest))) == Some((e, Lex(true, rest)))
    {
      assert Lex(false, Spell(e, rest)) == Cons(Op(Dots), Lex(false, Spell(e.inner, rest)));
    }
  }

  lemma PlainElementComes(e: Node)
    requires !e.Spread? && Comes(e, false, false)
    ensures ElementComes(e)
  {
  }

  ghost predicate ElementsCome(es: seq<Node>, close: Bracket) {
    forall rest {:trigger SpellSep(es, Comma, Rb(close, rest))} ::
      var ts := SpellSep(es, Comma, Rb(close, rest));
      && ReadElements(Lex(false, ts), close) == Some((es, Lex(true, rest)))
      && (es != [] ==> ts.Cons? && !ts.head.Close?)
  }

  lemma LastRead(x: Node, close: Bracket, ts: List<Tok>, after: List<Tok>)
    requires ts.Cons? && !ts.head.Close? && ReadElement(ts) == Some((x, Cons(Close(close), after)))
    ensures ReadElements(ts, close) == Some(([x], after))
  {
  }

  lemma FirstRead(x: Node, close: Bracket, ts: List<Tok>, next: List<Tok>, others: seq<Node>, after: List<Tok>)
    requires ts.Cons? && !ts.head.Close? && ReadElement(ts) == Some((x, Cons(Comma, next)))
    requires ReadElements(next, close) == Some((others, after))
    ensures ReadElements(ts, close) == Some(([x] + others, after))
  {
  }

  lemma NoElements(close: Bracket)
    ensures ElementsCome([], close)
  {
  }

  lemma OneElement(es: seq<Node>, close: Bracket)
    requires |es| == 1 && ElementComes(es[0])
    ensures ElementsCome(es, close)
  {
    forall rest
      ensures var ts := SpellSep(es, Comma, Rb(close, rest));
              ReadElements(Lex(false, ts), close) == Some((es, Lex(true, rest))) && ts.Cons? && !ts.head.Close?
    {
      LastRead(es[0], close, Lex(false, Spell(es[0], Rb(close, rest))), Lex(true, rest));
      assert es == [es[0]];
    }
  }

  lemma MoreElements(es: seq<Node>, close: Bracket)
    requires |es| > 1 && ElementComes(es[0]) && ElementsCome(es[1..], close)
    ensures ElementsCome(es, close)
  {
    forall rest
      ensures var ts := SpellSep(es, Comma, Rb(close, rest));
              ReadElements(Lex(false, ts), close) == Some((es, Lex(true, rest))) && ts.Cons? && !ts.head.Close?
    {
      var others := SpellSep(es[1..], Comma, Rb(close, rest));
      SepSpelled(es, Comma, Rb(close, rest));
      ElementReadFirst(es, close, others, Lex(true, rest));
    }
  }

  lemma SepSpelled(es: seq<Node>, sep: Tok, rest: List<Tok>)
    requires |es| > 1 && (sep.Comma? || sep.Semicolon?)
    requires var others := SpellSep(es[1..], sep, rest);
             if sep.Comma? then !ClosesHere(others) else !AtWord(others, WEnd)
    ensures SpellSep(es, sep, rest) == Spell(es[0], Cons(sep, SpellSep(es[1..], sep, rest)))
  {
  }

  lemma ElementReadFirst(es: seq<Node>, close: Bracket, others: List<Tok>, after: List<Tok>)
    requires es != [] && ElementComes(es[0]) && ReadElements(Lex(false, others), close) == Some((es[1..], after))
    ensures var ts := Spell(es[0], Cons(Comma, others));
            ReadElements(Lex(false, ts), close) == Some((es, after)) && ts.Cons? && !ts.head.Close?
  {
    LexComma(others);
    FirstRead(es[0], close, Lex(false, Spell(es[0], Cons(Comma, others))), Lex(false, others), es[1..], after);
    assert es == [es[0]] + es[1..];
  }

  lemma ArrayComes(n: Node, behind: bool, final: bool)
    requires n.Array? && ElementsCome(n.elements, Square)
    ensures Comes(n, behind, final)
  {
    forall rest | Ended(rest)
      ensures Arrives(n, behind, rest)
    {
      MarkArrives(n, Open(Square), behind, SpellSep(n.elements, Comma, Rb(Square, rest)), rest);
    }
  }

  lemma RecurComes(n: Node, behind: bool, final: bool)
    requires n.Recur? && ElementsCome(n.operands, Paren)
    ensures Comes(n, behind, final)
  {
    forall rest | Ended(rest)
      ensures Arrives(n, behind, rest)
    {
      CallArrives(n, WRecur, n.operands, behind, SpellSep(n.operands, Comma, Rb(Paren, rest)), rest);
    }
  }

  lemma WrapComes(n: Node, behind: bool, final: bool)
    requires n.Wrap? && ElementsCome([n.inner], Paren)
    ensures Comes(n, behind, final)
  {
    forall rest | Ended(rest)
      ensures Arrives(n, behind, rest)
    {
      var ts := SpellSep([n.inner], Comma, Rb(Paren, rest));
      assert ts == Spell(n.inner, Rb(Paren, rest));
      CallArrives(n, WrapperWord(n.wrapper), [n.inner], behind, ts, rest);
    }
  }

  lemma PerformComes(n: Node, behind: bool, final: bool)
    requires n.Perform? && n.arg.None? && ElementsCome([n.effect], Paren)
    ensures Comes(n, behind, final)
  {
    forall rest | Ended(rest)
      ensures Arrives(n, behind, rest)
    {
      var ts := SpellSep([n.effect], Comma, Rb(Paren, rest));
      assert ts == Spell(n.effect, Rb(Paren, rest));
      CallArrives(n, WPerform, [n.effect], behind, ts, rest);
    }
  }

  lemma PerformWithComes(n: Node, behind: bool, final: bool)
    requires n.Perform? && n.arg.Some? && ElementsCome([n.effect, n.arg.value], Paren)
    ensures Comes(n, behind, final)
  {
    var args := [n.effect, n.arg.value];
    forall rest | Ended(rest)
      ensures Arrives(n, behind, rest)
    {
      var ts := SpellSep(args, Comma, Rb(Paren, rest));
      TwoSpelled(n.effect, n.arg.value, rest);
      CallArrives(n, WPerform, args, behind, ts, rest);
    }
  }

  lemma TwoSpelled(x: Node, y: Node, rest: List<Tok>)
    ensures SpellSep([x, y], Comma, Rb(Paren, rest)) == Spell(x, Push(Comma, Spell(y, Rb(Paren, rest))))
  {
    assert [x, y][1..] == [y];
    assert SpellSep([y], Comma, Rb(Paren, rest)) == Spell(y, Rb(Paren, rest));
  }

  lemma ResumeComes(n: Node, behind: bool, final: bool)
    requires n.Resume? && n.arg.Some? && Comes(n.arg.value, false, false)
    ensures Comes(n, behind, final)
  {
    forall rest | Ended(rest)
      ensures Arrives(n, behind, rest)
    {
      var ts := Spell(n.arg.value, Rb(Paren, rest));
      ResumeReads(n, Lex(false, ts), Lex(true, rest));
      ResumeWord(Cons(Open(Paren), Lex(false, ts)));
      BracketArrives(n, WResume, behind, ts, rest);
    }
  }

  lemma ResumeReads(n: Node, ts: List<Tok>, after: List<Tok>)
    requires n.Resume? && n.arg.Some? && ts.Cons? && !ts.head.Close?
    requires ReadExpr(ts) == Some((n.arg.value, Cons(Close(Paren), after)))
    ensures ReadResume(Cons(Open(Paren), ts)) == Some((n, after))
  {
  }

  lemma ResumeWord(ts: List<Tok>)
    ensures ReadWord(WResume, ts) == ReadResume(ts)
  {
  }

  // Objects.

  predicate StartsEntry(ts: List<Tok>) {
    ts.Cons? && (ts.head == Op(Dots) || ts.head.Ident? || ts.head.BareQuoted? || ts.head == Open(Square))
  }

  lemma EntryStarts(e: Entry, rest: List<Tok>)
    ensures StartsEntry(SpellEntry(e, rest)) && StartsEntry(Lex(false, SpellEntry(e, rest)))
  {
  }

  ghost predicate EntryComes(e: Entry) {
    forall rest {:trigger SpellEntry(e, rest)} :: Ended(rest) && !Final(rest) ==>
      ReadEntry(Lex(false, SpellEntry(e, rest))) == Some((e, Lex(true, rest)))
  }

  lemma SpreadEntryComes(e: Entry)
    requires e.SpreadEntry? && Comes(e.inner, false, false)
    ensures EntryComes(e)
  {
  }

  lemma ShortEntryComes(e: Entry)
    requires e.Pair? && e.key.Str? && IsIdentifier(e.key.text) && e.value == Sym(e.key.text)
    ensures EntryComes(e)
  {
    forall rest | Ended(rest)
      ensures ReadEntry(Lex(false, SpellEntry(e, rest))) == Some((e, Lex(true, rest)))
    {
      LexEnded(true, rest);
    }
  }

  lemma PairComes(e: Entry)
    requires e.Pair? && Comes(e.value, false, false) && (!e.key.Str? ==> Comes(e.key, false, false))
    requires e.key.Str? ==> !IsIdentifier(e.key.text) || e.value != Sym(e.key.text)
    ensures EntryComes(e)
  {
    forall rest | Ended(rest) && !Final(rest)
      ensures ReadEntry(Lex(false, SpellEntry(e, rest))) == Some((e, Lex(true, rest)))
    {
      var ts := Spell(e.value, rest);
      assert ReadExpr(Lex(false, ts)) == Some((e.value, Lex(true, rest)));
      ValueReads(e.key, e.value, Lex(false, ts), Lex(true, rest));
      if e.key.Str? {
        NamedReads(e, ts, Lex(true, rest));
      } else {
        var key := Spell(e.key, Rb(Square, O(Colon, ts)));
        assert Lex(true, Rb(Square, O(Colon, ts))) == Cons(Close(Square), Cons(Op(Colon), Lex(false, ts)));
        ComputedReads(e, key, Lex(false, ts), Lex(true, rest));
      }
    }
  }

  lemma ValueReads(key: Node, value: Node, ts: List<Tok>, after: List<Tok>)
    requires ReadExpr(ts) == Some((value, after))
    ensures ReadValue(key, Cons(Op(Colon), ts)) == Some((Pair(key, value), after))
  {
  }

  lemma NamedReads(e: Entry, ts: List<Tok>, after: List<Tok>)
    requires e.Pair? && e.key.Str? && ReadValue(e.key, Cons(Op(Colon), Lex(false, ts))) == Some((e, after))
    ensures var key := if IsIdentifier(e.key.text) then Ident(e.key.text) else BareQuoted(e.key.text);
            ReadEntry(Lex(false, Cons(key, O(Colon, ts)))) == Some((e, after))
  {
    assert Lex(true, O(Colon, ts)) == Lex(false, O(Colon, ts)) == Cons(Op(Colon), Lex(false, ts));
  }

  lemma ComputedReads(e: Entry, key: List<Tok>, value: List<Tok>, after: List<Tok>)
    requires e.Pair? && ReadExpr(Lex(false, key)) == Some((e.key, Cons(Close(Square), Cons(Op(Colon), value))))
    requires ReadValue(e.key, Cons(Op(Colon), value)) == Some((e, after))
    ensures ReadEntry(Lex(false, Lb(Square, key))) == Some((e, after))
  {
    assert Lex(false, Lb(Square, key)) == Cons(Open(Square), Lex(false, key));
  }

  ghost predicate EntriesCome(es: seq<Entry>) {
    forall rest {:trigger SpellEntries(es, Rb(Curly, rest))} ::
      var ts := SpellEntries(es, Rb(Curly, rest));
      ReadEntries(Lex(false, ts)) == Some((es, Lex(true, rest))) && (es != [] ==> StartsEntry(ts))
  }

  lemma LastEntry(e: Entry, ts: List<Tok>, after: List<Tok>)
    requires StartsEntry(ts) && ReadEntry(ts) == Some((e, Cons(Close(Curly), after)))
    ensures ReadEntries(ts) == Some(([e], after))
  {
  }

  lemma FirstEntry(e: Entry, ts: List<Tok>, next: List<Tok>, others: seq<Entry>, after: List<Tok>)
    requires StartsEntry(ts) && ReadEntry(ts) == Some((e, Cons(Comma, next)))
    requires ReadEntries(next) == Some((others, after))
    ensures ReadEntries(ts) == Some(([e] + others, after))
  {
  }

  lemma NoEntries()
    ensures EntriesCome([])
  {
  }

  lemma OneEntry(es: seq<Entry>)
    requires |es| == 1 && EntryComes(es[0])
    ensures EntriesCome(es)
  {
    forall rest
      ensures var ts := SpellEntries(es, Rb(Curly, rest));
              ReadEntries(Lex(false, ts)) == Some((es, Lex(true, rest))) && StartsEntry(ts)
    {
      EntryStarts(es[0], Rb(Curly, rest));
      LastEntry(es[0], Lex(false, SpellEntry(es[0], Rb(Curly, rest))), Lex(true, rest));
      assert es == [es[0]];
    }
  }

  lemma MoreEntries(es: seq<Entry>)
    requires |es| > 1 && EntryComes(es[0]) && EntriesCome(es[1..])
    ensures EntriesCome(es)
  {
    forall rest
      ensures var ts := SpellEntries(es, Rb(Curly, rest));
              ReadEntries(Lex(false, ts)) == Some((es, Lex(true, rest))) && StartsEntry(ts)
    {
      var others := SpellEntries(es[1..], Rb(Curly, rest));
      EntriesSpelled(es, Rb(Curly, rest));
      EntryReadFirst(es, others, Lex(true, rest));
    }
  }

  lemma EntriesSpelled(es: seq<Entry>, rest: List<Tok>)
    requires |es| > 1 && !ClosesHere(SpellEntries(es[1..], rest))
    ensures SpellEntries(es, rest) == SpellEntry(es[0], Cons(Comma, SpellEntries(es[1..], rest)))
  {
  }

  lemma EntryReadFirst(es: seq<Entry>, others: List<Tok>, after: List<Tok>)
    requires es != [] && EntryComes(es[0]) && ReadEntries(Lex(false, others)) == Some((es[1..], after))
    ensures var ts := SpellEntry(es[0], Cons(Comma, others));
            ReadEntries(Lex(false, ts)) == Some((es, after)) && StartsEntry(ts)
  {
    LexComma(others);
    EntryStarts(es[0], Cons(Comma, others));
    FirstEntry(es[0], Lex(false, SpellEntry(es[0], Cons(Comma, others))), Lex(false, others), es[1..], after);
    assert es == [es[0]] + es[1..];
  }

  lemma ObjectComes(n: Node, behind: bool, final: bool)
    requires n.Object? && EntriesCome(n.entries)
    ensures Comes(n, behind, final)
  {
    forall rest | Ended(rest)
      ensures Arrives(n, behind, rest)
    {
      MarkArrives(n, Open(Curly), behind, SpellEntries(n.entries, Rb(Curly, rest)), rest);
    }
  }

  // Conditionals and blocks.

  /** What stands behind `if`, in front of `end`. */
  ghost predicate BranchesCome(n: Node) {
    forall rest {:trigger Spell(n, rest)} ::
      && AtWord(Spell(n, rest), WIf)
      && ReadBranches(Lex(true, Spell(n, rest).tail)) == Some((n, Cons(Keyword(WEnd), Lex(true, rest))))
  }

  ghost predicate ElseComes(els: Node) { if els.If? then BranchesCome(els) else Comes(els, true, true) }

  lemma OneReads(x: Node, ts: List<Tok>, w: Word, v: Word, after: List<Tok>)
    requires ts.Cons? && Starter(ts.head) && ReadExpr(ts) == Some((x, after)) && (AtWord(after, w) || AtWord(after, v))
    requires w in {WElse, WEnd, WCase} && v in {WElse, WEnd, WCase}
    ensures ReadImplicit(ts, w, v) == Some((x, after))
  {
    assert ReadNodes(after, w, v) == Some(([], after));
    assert ReadNodes(ts, w, v) == Some(([x] + [], after));
    assert [x] + [] == [x];
  }

  lemma ElseReads(els: Node, rest: List<Tok>)
    requires ElseComes(els)
    ensures var ts := Spell(els, if els.If? then rest else K(WEnd, rest));
            ReadElse(Lex(true, ts)) == Some((els, Cons(Keyword(WEnd), Lex(true, rest))))
  {
    var ts := Spell(els, if els.If? then rest else K(WEnd, rest));
    if !els.If? {
      OneReads(els, Lex(true, ts), WEnd, WEnd, Cons(Keyword(WEnd), Lex(true, rest)));
    }
  }

  lemma BranchesRead(n: Node, ts: List<Tok>, thn: List<Tok>, other: List<Tok>, after: List<Tok>)
    requires n.If? && n.els.Some? && ReadExpr(ts) == Some((n.cond, Cons(Keyword(WThen), thn)))
    requires ReadImplicit(thn, WElse, WEnd) == Some((n.thn, Cons(Keyword(WElse), other)))
    requires ReadElse(other) == Some((n.els.value, after))
    ensures ReadBranches(ts) == Some((n, after))
  {
  }

  lemma IfBranches(n: Node)
    requires n.If? && n.els.Some? && Comes(n.cond, true, true) && Comes(n.thn, true, true) && ElseComes(n.els.value)
    ensures BranchesCome(n)
  {
    forall rest
      ensures AtWord(Spell(n, rest), WIf)
      ensures ReadBranches(Lex(true, Spell(n, rest).tail)) == Some((n, Cons(Keyword(WEnd), Lex(true, rest))))
    {
      ElseReads(n.els.value, rest);
      BranchesArrive(n, rest);
    }
  }

  lemma BranchesArrive(n: Node, rest: List<Tok>)
    requires n.If? && n.els.Some? && Comes(n.cond, true, true) && Comes(n.thn, true, true)
    requires var els := n.els.value;
             ReadElse(Lex(true, Spell(els, if els.If? then rest else K(WEnd, rest)))) ==
             Some((els, Cons(Keyword(WEnd), Lex(true, rest))))
    ensures AtWord(Spell(n, rest), WIf)
    ensures ReadBranches(Lex(true, Spell(n, rest).tail)) == Some((n, Cons(Keyword(WEnd), Lex(true, rest))))
  {
    var els := n.els.value;
    var other := Spell(els, if els.If? then rest else K(WEnd, rest));
    var thn := Spell(n.thn, K(WElse, other));
    var ts := Spell(n.cond, K(WThen, thn));
    assert Spell(n, rest) == K(WIf, ts);
    assert Arrives(n.thn, true, K(WElse, other)) && Arrives(n.cond, true, K(WThen, thn));
    OneReads(n.thn, Lex(true, thn), WElse, WEnd, Cons(Keyword(WElse), Lex(true, other)));
    BranchesRead(n, Lex(true, ts), Lex(true, thn), Lex(true, other), Cons(Keyword(WEnd), Lex(true, rest)));
  }

  lemma IfComes(n: Node, behind: bool, final: bool)
    requires n.If? && BranchesCome(n)
    ensures Comes(n, behind, final)
  {
    forall rest | Ended(rest)
      ensures Arrives(n, behind, rest)
    {
      WordArrives(n, WIf, behind, Spell(n, rest).tail, rest);
    }
  }

  predicate StartsStatement(ts: List<Tok>) { ts.Cons? && (Starter(ts.head) || ts.head == Keyword(WWith)) }

  ghost predicate StatementsCome(stmts: seq<Node>, behind: bool) {
    forall rest {:trigger SpellSep(stmts, Semicolon, K(WEnd, rest))} ::
      var ts := SpellSep(stmts, Semicolon, K(WEnd, rest));
      ReadStatements(Lex(behind, ts)) == Some((stmts, Lex(true, rest))) && StartsStatement(ts)
  }

  lemma FirstStatement(x: Node, ts: List<Tok>, next: List<Tok>, others: seq<Node>, after: List<Tok>)
    requires ts.Cons? && Starter(ts.head) && ReadExpr(ts) == Some((x, Cons(Semicolon, next)))
    requires ReadStatements(next) == Some((others, after))
    ensures ReadStatements(ts) == Some(([x] + others, after))
  {
  }

  lemma LastStatement(x: Node, ts: List<Tok>, after: List<Tok>)
    requires ts.Cons? && Starter(ts.head) && ReadExpr(ts) == Some((x, Cons(Keyword(WEnd), after)))
    ensures ReadStatements(ts) == Some(([x], after))
  {
  }

  lemma WithStatement(x: Node, ts: List<Tok>, next: List<Tok>, after: List<Tok>)
    requires x.WithHandler? && ReadExpr(ts) == Some((x.handler, Cons(Semicolon, next)))
    requires ReadStatements(next) == Some((x.body, after))
    ensures ReadStatements(Cons(Keyword(WWith), ts)) == Some(([x], after))
  {
  }

  lemma OneStatement(stmts: seq<Node>, behind: bool)
    requires |stmts| == 1 && Comes(stmts[0], behind, true)
    ensures StatementsCome(stmts, behind)
  {
    forall rest
      ensures var ts := SpellSep(stmts, Semicolon, K(WEnd, rest));
              ReadStatements(Lex(behind, ts)) == Some((stmts, Lex(true, rest))) && StartsStatement(ts)
    {
      LastStatement(stmts[0], Lex(behind, Spell(stmts[0], K(WEnd, rest))), Lex(true, rest));
      assert stmts == [stmts[0]];
    }
  }

  lemma OneInstalled(stmts: seq<Node>, behind: bool)
    requires |stmts| == 1 && stmts[0].WithHandler?
    requires Comes(stmts[0].handler, true, false) && StatementsCome(stmts[0].body, false)
    ensures StatementsCome(stmts, behind)
  {
    forall rest
      ensures var ts := SpellSep(stmts, Semicolon, K(WEnd, rest));
              ReadStatements(Lex(behind, ts)) == Some((stmts, Lex(true, rest))) && StartsStatement(ts)
    {
      InstalledReads(stmts[0], behind, rest);
      assert stmts == [stmts[0]];
    }
  }

  lemma InstalledReads(x: Node, behind: bool, rest: List<Tok>)
    requires x.WithHandler? && Comes(x.handler, true, false) && StatementsCome(x.body, false)
    ensures var ts := Spell(x, K(WEnd, rest));
            ReadStatements(Lex(behind, ts)) == Some(([x], Lex(true, rest))) && StartsStatement(ts)
  {
    var body := SpellSep(x.body, Semicolon, K(WEnd, rest));
    var ts := Spell(x.handler, Cons(Semicolon, body));
    assert Spell(x, K(WEnd, rest)) == K(WWith, ts);
    LexWord(behind, WWith, ts);
    assert Arrives(x.handler, true, Cons(Semicolon, body));
    WithStatement(x, Lex(true, ts), Lex(false, body), Lex(true, rest));
  }

  lemma MoreStatements(stmts: seq<Node>, behind: bool)
    requires |stmts| > 1 && Comes(stmts[0], behind, false) && StatementsCome(stmts[1..], false)
    ensures StatementsCome(stmts, behind)
  {
    forall rest
      ensures var ts := SpellSep(stmts, Semicolon, K(WEnd, rest));
              ReadStatements(Lex(behind, ts)) == Some((stmts, Lex(true, rest))) && StartsStatement(ts)
    {
      var others := SpellSep(stmts[1..], Semicolon, K(WEnd, rest));
      SepSpelled(stmts, Semicolon, K(WEnd, rest));
      assert Arrives(stmts[0], behind, Cons(Semicolon, others));
      StatementReadFirst(stmts, behind, others, Lex(true, rest));
    }
  }

  lemma StatementReadFirst(stmts: seq<Node>, behind: bool, others: List<Tok>, after: List<Tok>)
    requires stmts != [] && Arrives(stmts[0], behind, Cons(Semicolon, others))
    requires ReadStatements(Lex(false, others)) == Some((stmts[1..], after))
    ensures var ts := Spell(stmts[0], Cons(Semicolon, others));
            ReadStatements(Lex(behind, ts)) == Some((stmts, after)) && StartsStatement(ts)
  {
    assert Lex(true, Cons(Semicolon, others)) == Cons(Semicolon, Lex(false, others));
    FirstStatement(stmts[0], Lex(behind, Spell(stmts[0], Cons(Semicolon, others))), Lex(false, others), stmts[1..],
                   after);
    assert stmts == [stmts[0]] + stmts[1..];
  }

  lemma BlockComes(n: Node, behind: bool, final: bool)
    requires n.Block? && n.stmts != [] && StatementsCome(n.stmts, true)
    ensures Comes(n, behind, final)
  {
    forall rest | Ended(rest)
      ensures Arrives(n, behind, rest)
    {
      var ts := SpellSep(n.stmts, Semicolon, K(WEnd, rest));
      assert ReadWord(WDo, Lex(true, ts)) == Some((n, Lex(true, rest)));
      WordArrives(n, WDo, behind, ts, rest);
    }
  }

  // Bodies.

  ghost predicate BodyComes(body: seq<Node>, final: bool) {
    forall rest {:trigger SpellBody(body, rest)} :: Ended(rest) && (Final(rest) <==> final) ==>
      ReadBody(Lex(false, SpellBody(body, rest))) == Some((body, Lex(true, rest)))
  }

  lemma ExprBody(body: seq<Node>, final: bool)
    requires |body| == 1 && !body[0].WithHandler? && !body[0].Block? && Comes(body[0], false, final)
    ensures BodyComes(body, final)
  {
    assert body == [body[0]];
  }

  lemma BlockBody(body: seq<Node>, final: bool)
    requires body != [] && !(|body| == 1 && !body[0].WithHandler?) && StatementsCome(body, true)
    ensures BodyComes(body, final)
  {
    forall rest
      ensures ReadBody(Lex(false, SpellBody(body, rest))) == Some((body, Lex(true, rest)))
    {
      var ts := SpellSep(body, Semicolon, K(WEnd, rest));
      assert SpellBody(body, rest) == K(WDo, ts);
    }
  }

  // Targets.

  function WithDefault(t: Target, d: Option<Node>): Target {
    match t
    case SymbolTarget(name, _) => SymbolTarget(name, d)
    case ArrayTarget(items, _) => ArrayTarget(items, d)
    case ObjectTarget(fields, _) => ObjectTarget(fields, d)
    case _ => t
  }

  predicate TakesDefault(t: Target) { t.SymbolTarget? || t.ArrayTarget? || t.ObjectTarget? }

  predicate StartsTarget(ts: List<Tok>) {
    ts.Cons? && (ts.head.Ident? || ts.head == Op(Dots) || ts.head == Open(Square) || ts.head == Open(Curly)
                 || IsLiteral(ts.head) || ts.head == Keyword(WReserved(Hole)))
  }


  /** What a target is made of, apart from its default. */
  ghost predicate PartsCome(t: Target, pattern: bool) {
    match t
    case SymbolTarget(name, _) => !IsSpecial(name)
    case ArrayTarget(items, _) => ItemsCome(items, pattern)
    case ObjectTarget(fields, _) => FieldsCome(fields, pattern) && Apart(Keys(fields))
    case _ => false
  }

  /** A target in front of its default, or of the value bound to it. */
  lemma HeadReads(t: Target, d: Option<Node>, pattern: bool, behind: bool, rest: List<Tok>, after: List<Tok>)
    requires PartsCome(t, pattern) && ReadDefault(Lex(true, rest)) == Some((d, after))
    ensures ReadTarget(Lex(behind, SpellTarget(Bare(t), rest)), pattern) == Some((WithDefault(t, d), after))
  {
    HeadOpens(t, behind, rest);
    match t
    case ArrayTarget(items, _) =>
      ArrayReads(items, d, pattern, Lex(false, SpellItems(items, Rb(Square, rest))), Lex(true, rest), after);
    case ObjectTarget(fields, _) =>
      ObjectReads(fields, d, pattern, Lex(false, SpellFields(fields, Rb(Curly, rest))), Lex(true, rest), after);
    case SymbolTarget(name, _) => NameReads(name, d, pattern, Lex(true, rest), after);
  }

  lemma HeadOpens(t: Target, behind: bool, rest: List<Tok>)
    ensures var ts := Lex(behind, SpellTarget(Bare(t), rest));
            match t
            case SymbolTarget(name, _) => ts == Cons(Ident(name), Lex(true, rest))
            case ArrayTarget(items, _) => ts == Cons(Open(Square), Lex(false, SpellItems(items, Rb(Square, rest))))
            case ObjectTarget(fields, _) => ts == Cons(Open(Curly), Lex(false, SpellFields(fields, Rb(Curly, rest))))
            case _ => true
  {
  }

  lemma NameReads(name: string, d: Option<Node>, pattern: bool, next: List<Tok>, after: List<Tok>)
    requires !IsSpecial(name) && ReadDefault(next) == Some((d, after))
    ensures ReadTarget(Cons(Ident(name), next), pattern) == Some((SymbolTarget(name, d), after))
  {
  }

  lemma ArrayReads(items: seq<Option<Target>>, d: Option<Node>, pattern: bool, ts: List<Tok>, next: List<Tok>,
                   after: List<Tok>)
    requires ReadItems(ts, pattern) == Some((items, next)) && ReadDefault(next) == Some((d, after))
    ensures ReadTarget(Cons(Open(Square), ts), pattern) == Some((ArrayTarget(items, d), after))
  {
  }

  lemma ObjectReads(fields: seq<Field>, d: Option<Node>, pattern: bool, ts: List<Tok>, next: List<Tok>,
                    after: List<Tok>)
    requires ReadFields(ts, pattern) == Some((fields, next)) && Apart(Keys(fields))
    requires ReadDefault(next) == Some((d, after))
    ensures ReadTarget(Cons(Open(Curly), ts), pattern) == Some((ObjectTarget(fields, d), after))
  {
  }

  /** What follows a target: no value, and if it has a default, what ends an expression. */
  predicate TargetEnded(t: Target, rest: List<Tok>, final: bool) {
    NoDash(rest) && !At(rest, Op(Equals)) && (Default(t).Some? ==> Ended(rest) && (Final(rest) <==> final))
  }

  ghost predicate TargetArrives(t: Target, pattern: bool, behind: bool, rest: List<Tok>) {
    var ts := Lex(behind, SpellTarget(t, rest));
    ReadTarget(ts, pattern) == Some((t, Lex(true, rest))) && StartsAlike(ts, SpellTarget(t, rest))
  }

  predicate StartsAlike(ts: List<Tok>, us: List<Tok>) { StartsTarget(ts) && StartsTarget(us) && ts.head == us.head }

  ghost predicate TargetComes(t: Target, pattern: bool, final: bool) {
    forall rest, behind {:trigger Lex(behind, SpellTarget(t, rest))} ::
      TargetEnded(t, rest, final) ==> TargetArrives(t, pattern, behind, rest)
  }

  lemma TargetStarts(t: Target, behind: bool, rest: List<Tok>)
    requires TakesDefault(t) || t.RestTarget? || t.Wildcard?
    ensures StartsAlike(Lex(behind, SpellTarget(t, rest)), SpellTarget(t, rest))
  {
  }

  lemma DefaultReads(d: Option<Node>, rest: List<Tok>)
    requires NoDash(rest) && !At(rest, Op(Equals))
    requires d.Some? ==> Ended(rest) && Comes(d.value, false, Final(rest))
    ensures ReadDefault(Lex(true, SpellDefault(d, rest))) == Some((d, Lex(true, rest)))
  {
    HeadStays(true, rest);
    if d.Some? { assert Arrives(d.value, false, rest) by { assert Spell(d.value, rest) == Spell(d.value, rest); } }
  }

  lemma DefaultTargetComes(t: Target, pattern: bool, final: bool)
    requires PartsCome(t, pattern) && (Default(t).Some? ==> Comes(Default(t).value, false, final))
    ensures TargetComes(t, pattern, final)
  {
    forall rest, behind | TargetEnded(t, rest, final)
      ensures TargetArrives(t, pattern, behind, rest)
    {
      var d := Default(t);
      DefaultReads(d, rest);
      HeadReads(t, d, pattern, behind, SpellDefault(d, rest), Lex(true, rest));
      BareInFront(t, rest);
      TargetStarts(t, behind, rest);
    }
  }

  lemma BareInFront(t: Target, rest: List<Tok>)
    requires TakesDefault(t)
    ensures SpellTarget(t, rest) == SpellTarget(Bare(t), SpellDefault(Default(t), rest))
    ensures WithDefault(t, Default(t)) == t
  {
  }

  lemma RestTargetComes(t: Target, pattern: bool, final: bool)
    requires t.RestTarget? && t.default.None? && !IsSpecial(t.name)
    ensures TargetComes(t, pattern, final)
  {
    forall rest, behind | TargetEnded(t, rest, final)
      ensures TargetArrives(t, pattern, behind, rest)
    {
      HeadStays(true, rest);
      TargetStarts(t, behind, rest);
    }
  }

  predicate IsLiteralNode(e: Node) {
    (e.Num? && e.value >= 0) || e.Str? || e.Atom? ||
    (e.Reserved? && e.word.Constant? && e.word.name in {"true", "false", "null"})
  }

  lemma LiteralReads(e: Node, behind: bool, rest: List<Tok>)
    requires IsLiteralNode(e) && NoDash(rest)
    ensures var us := Spell(e, rest);
            var ts := Lex(behind, us);
            us.Cons? && ts.Cons? && IsLiteral(ts.head) && ts.head == us.head && Literal(ts.head) == e
            && ts.tail == Lex(true, rest)
  {
    HeadStays(false, rest);
  }

  lemma LiteralTargetReads(t: Target, ts: List<Tok>, after: List<Tok>)
    requires t.LiteralTarget? && ts.Cons? && IsLiteral(ts.head) && Literal(ts.head) == t.expr && ts.tail == after
    ensures ReadTarget(ts, true) == Some((t, after))
  {
  }

  lemma LiteralComes(t: Target, final: bool)
    requires t.LiteralTarget? && IsLiteralNode(t.expr)
    ensures TargetComes(t, true, final)
  {
    forall rest, behind | TargetEnded(t, rest, final)
      ensures TargetArrives(t, true, behind, rest)
    {
      assert SpellTarget(t, rest) == Spell(t.expr, rest);
      LiteralReads(t.expr, behind, rest);
      LiteralTargetReads(t, Lex(behind, Spell(t.expr, rest)), Lex(true, rest));
    }
  }

  lemma WildcardComes(t: Target, final: bool)
    requires t.Wildcard?
    ensures TargetComes(t, true, final)
  {
    forall rest, behind | TargetEnded(t, rest, final)
      ensures TargetArrives(t, true, behind, rest)
    {
      TargetStarts(t, behind, rest);
    }
  }

  // Items and fields.

  predicate StartsItem(ts: List<Tok>) { StartsTarget(ts) || At(ts, Comma) }

  predicate IsRest(item: Option<Target>) { item.Some? && item.value.RestTarget? }

  ghost predicate ItemsCome(items: seq<Option<Target>>, pattern: bool) {
    forall rest {:trigger SpellItems(items, Rb(Square, rest))} ::
      var ts := SpellItems(items, Rb(Square, rest));
      ReadItems(Lex(false, ts), pattern) == Some((items, Lex(true, rest))) && (items != [] ==> StartsItem(ts))
  }

  lemma LastItem(t: Target, ts: List<Tok>, pattern: bool, after: List<Tok>)
    requires StartsTarget(ts) && ReadTarget(ts, pattern) == Some((t, Cons(Close(Square), after)))
    ensures ReadItems(ts, pattern) == Some(([Some(t)], after))
  {
  }

  lemma FirstItem(item: Option<Target>, ts: List<Tok>, pattern: bool, next: List<Tok>, others: seq<Option<Target>>,
                  after: List<Tok>)
    requires if item.None? then ts == Cons(Comma, next)
             else StartsTarget(ts) && ReadTarget(ts, pattern) == Some((item.value, Cons(Comma, next)))
    requires ReadItems(next, pattern) == Some((others, after)) && (IsRest(item) ==> others == [])
    ensures ReadItems(ts, pattern) == Some(([item] + others, after))
  {
  }

  lemma NoItems(pattern: bool)
    ensures ItemsCome([], pattern)
  {
  }

  lemma OneItem(items: seq<Option<Target>>, pattern: bool)
    requires |items| == 1 && items[0].Some? && TargetComes(items[0].value, pattern, false)
    ensures ItemsCome(items, pattern)
  {
    var t := items[0].value;
    forall rest
      ensures var ts := SpellItems(items, Rb(Square, rest));
              ReadItems(Lex(false, ts), pattern) == Some((items, Lex(true, rest))) && StartsItem(ts)
    {
      var ts := SpellTarget(t, Rb(Square, rest));
      assert SpellItems(items, Rb(Square, rest)) == ts;
      assert TargetArrives(t, pattern, false, Rb(Square, rest));
      LastItem(t, Lex(false, ts), pattern, Lex(true, rest));
      assert items == [Some(t)];
    }
  }

  lemma MoreItems(items: seq<Option<Target>>, pattern: bool)
    requires |items| > 1 && ItemsCome(items[1..], pattern) && !IsRest(items[0])
    requires items[0].Some? ==> TargetComes(items[0].value, pattern, false)
    ensures ItemsCome(items, pattern)
  {
    forall rest
      ensures var ts := SpellItems(items, Rb(Square, rest));
              ReadItems(Lex(false, ts), pattern) == Some((items, Lex(true, rest))) && StartsItem(ts)
    {
      var others := SpellItems(items[1..], Rb(Square, rest));
      ItemsSpelled(items, Rb(Square, rest));
      if items[0].Some? { assert TargetArrives(items[0].value, pattern, false, Cons(Comma, others)); }
      ItemReadFirst(items, pattern, others, Lex(true, rest));
    }
  }

  lemma ItemsSpelled(items: seq<Option<Target>>, rest: List<Tok>)
    requires |items| > 1 && !ClosesHere(SpellItems(items[1..], rest))
    ensures SpellItems(items, rest) == SpellItem(items[0], Cons(Comma, SpellItems(items[1..], rest)))
  {
  }

  lemma ItemReadFirst(items: seq<Option<Target>>, pattern: bool, others: List<Tok>, after: List<Tok>)
    requires items != [] && !IsRest(items[0])
    requires items[0].Some? ==> TargetArrives(items[0].value, pattern, false, Cons(Comma, others))
    requires ReadItems(Lex(false, others), pattern) == Some((items[1..], after))
    ensures var ts := SpellItem(items[0], Cons(Comma, others));
            ReadItems(Lex(false, ts), pattern) == Some((items, after)) && StartsItem(ts)
  {
    LexComma(others);
    FirstItem(items[0], Lex(false, SpellItem(items[0], Cons(Comma, others))), pattern, Lex(false, others), items[1..],
              after);
    assert items == [items[0]] + items[1..];
  }

  ghost predicate FieldArrives(f: Field, pattern: bool, rest: List<Tok>) {
    var ts := Lex(false, SpellField(f, rest));
    && ts.Cons? && !ts.head.Close? && SpellField(f, rest).Cons? && !SpellField(f, rest).head.Close?
    && ReadField(ts, pattern) == Some((f, Lex(true, rest)))
  }

  ghost predicate FieldComes(f: Field, pattern: bool) {
    forall rest {:trigger SpellField(f, rest)} ::
      At(rest, Comma) || At(rest, Close(Curly)) ==> FieldArrives(f, pattern, rest)
  }

  lemma RestFieldComes(f: Field, pattern: bool)
    requires f.target.RestTarget? && f.target.default.None? && f.key == f.target.name && !IsSpecial(f.key)
    ensures FieldComes(f, pattern)
  {
    forall rest | At(rest, Comma) || At(rest, Close(Curly))
      ensures FieldArrives(f, pattern, rest)
    {
      HeadStays(true, rest);
      assert SpellField(f, rest) == O(Dots, Cons(Ident(f.key), rest));
      assert Lex(false, SpellField(f, rest)) == Cons(Op(Dots), Cons(Ident(f.key), Lex(true, rest)));
    }
  }

  lemma SymbolFieldComes(f: Field, pattern: bool)
    requires f.target.SymbolTarget? && TargetComes(f.target, pattern, false)
    ensures FieldComes(f, pattern)
  {
    forall rest | At(rest, Comma) || At(rest, Close(Curly))
      ensures FieldArrives(f, pattern, rest)
    {
      var ts := SpellTarget(f.target, rest);
      assert TargetArrives(f.target, pattern, false, rest) && TargetArrives(f.target, pattern, true, rest);
      assert ts.head == Ident(f.target.name);
      if f.key == f.target.name {
        OwnReads(f, pattern, Lex(false, ts), Lex(true, rest));
      } else {
        RenamedReads(f, pattern, Lex(true, ts), Lex(true, rest));
        assert Lex(false, Cons(Ident(f.key), K(WAs, ts))) == Cons(Ident(f.key), Cons(Keyword(WAs), Lex(true, ts)));
      }
    }
  }

  lemma OwnReads(f: Field, pattern: bool, ts: List<Tok>, after: List<Tok>)
    requires ReadTarget(ts, pattern) == Some((f.target, after)) && f.target.SymbolTarget? && At(ts, Ident(f.key))
    requires f.target.name == f.key && (At(after, Comma) || At(after, Close(Curly)))
    ensures ReadField(ts, pattern) == Some((f, after))
  {
  }

  lemma RenamedReads(f: Field, pattern: bool, ts: List<Tok>, after: List<Tok>)
    requires ts.Cons? && ts.head.Ident? && ReadTarget(ts, pattern) == Some((f.target, after))
    ensures ReadField(Cons(Ident(f.key), Cons(Keyword(WAs), ts)), pattern) == Some((f, after))
  {
  }

  lemma OpenedFieldComes(f: Field, pattern: bool)
    requires f.target.ArrayTarget? || f.target.ObjectTarget? || (f.target.LiteralTarget? && pattern)
    requires f.target.LiteralTarget? ==> IsLiteralNode(f.target.expr)
    requires TargetComes(f.target, pattern, false)
    ensures FieldComes(f, pattern)
  {
    forall rest | At(rest, Comma) || At(rest, Close(Curly))
      ensures FieldArrives(f, pattern, rest)
    {
      assert TargetArrives(f.target, pattern, false, rest);
      OpenedHead(f.target, rest);
      OpenedReads(f, pattern, Lex(false, SpellTarget(f.target, rest)), Lex(true, rest));
      LexOpened(f, rest);
    }
  }

  lemma OpenedHead(t: Target, rest: List<Tok>)
    requires t.ArrayTarget? || t.ObjectTarget? || (t.LiteralTarget? && IsLiteralNode(t.expr))
    requires NoDash(rest)
    ensures var ts := Lex(false, SpellTarget(t, rest));
            ts.Cons? && if t.LiteralTarget? then IsLiteral(ts.head) else ts.head in {Open(Curly), Open(Square)}
  {
    if t.LiteralTarget? { LiteralReads(t.expr, false, rest); }
  }

  lemma LexOpened(f: Field, rest: List<Tok>)
    requires f.target.ArrayTarget? || f.target.ObjectTarget? || f.target.LiteralTarget?
    ensures var ts := SpellTarget(f.target, rest);
            && SpellField(f, rest) == Cons(Ident(f.key), O(Colon, ts))
            && Lex(false, SpellField(f, rest)) == Cons(Ident(f.key), Cons(Op(Colon), Lex(false, ts)))
  {
    var ts := SpellTarget(f.target, rest);
    assert Lex(true, O(Colon, ts)) == Cons(Op(Colon), Lex(false, ts));
  }

  lemma OpenedReads(f: Field, pattern: bool, ts: List<Tok>, after: List<Tok>)
    requires ts.Cons? && (ts.head in {Open(Curly), Open(Square)} || (pattern && IsLiteral(ts.head)))
    requires ReadTarget(ts, pattern) == Some((f.target, after))
    ensures ReadField(Cons(Ident(f.key), Cons(Op(Colon), ts)), pattern) == Some((f, after))
  {
  }

  ghost predicate FieldsCome(fs: seq<Field>, pattern: bool) {
    forall rest {:trigger SpellFields(fs, Rb(Curly, rest))} ::
      var ts := SpellFields(fs, Rb(Curly, rest));
      && ReadFields(Lex(false, ts), pattern) == Some((fs, Lex(true, rest)))
      && (fs != [] ==> ts.Cons? && !ts.head.Close?)
  }

  lemma LastField(f: Field, ts: List<Tok>, pattern: bool, after: List<Tok>)
    requires ts.Cons? && !ts.head.Close? && ReadField(ts, pattern) == Some((f, Cons(Close(Curly), after)))
    ensures ReadFields(ts, pattern) == Some(([f], after))
  {
  }

  lemma FirstField(f: Field, ts: List<Tok>, pattern: bool, next: List<Tok>, others: seq<Field>, after: List<Tok>)
    requires ts.Cons? && !ts.head.Close? && ReadField(ts, pattern) == Some((f, Cons(Comma, next)))
    requires ReadFields(next, pattern) == Some((others, after)) && !f.target.RestTarget?
    ensures ReadFields(ts, pattern) == Some(([f] + others, after))
  {
  }

  lemma NoFields(pattern: bool)
    ensures FieldsCome([], pattern)
  {
  }

  lemma OneField(fs: seq<Field>, pattern: bool)
    requires |fs| == 1 && FieldComes(fs[0], pattern)
    ensures FieldsCome(fs, pattern)
  {
    forall rest
      ensures var ts := SpellFields(fs, Rb(Curly, rest));
              ReadFields(Lex(false, ts), pattern) == Some((fs, Lex(true, rest))) && ts.Cons? && !ts.head.Close?
    {
      assert FieldArrives(fs[0], pattern, Rb(Curly, rest));
      LastField(fs[0], Lex(false, SpellField(fs[0], Rb(Curly, rest))), pattern, Lex(true, rest));
      assert fs == [fs[0]];
    }
  }

  lemma MoreFields(fs: seq<Field>, pattern: bool)
    requires |fs| > 1 && FieldComes(fs[0], pattern) && FieldsCome(fs[1..], pattern) && !fs[0].target.RestTarget?
    ensures FieldsCome(fs, pattern)
  {
    forall rest
      ensures var ts := SpellFields(fs, Rb(Curly, rest));
              ReadFields(Lex(false, ts), pattern) == Some((fs, Lex(true, rest))) && ts.Cons? && !ts.head.Close?
    {
      var others := SpellFields(fs[1..], Rb(Curly, rest));
      FieldsSpelled(fs, Rb(Curly, rest));
      assert FieldArrives(fs[0], pattern, Cons(Comma, others));
      FieldReadFirst(fs, pattern, others, Lex(true, rest));
    }
  }

  lemma FieldsSpelled(fs: seq<Field>, rest: List<Tok>)
    requires |fs| > 1 && !ClosesHere(SpellFields(fs[1..], rest))
    ensures SpellFields(fs, rest) == SpellField(fs[0], Cons(Comma, SpellFields(fs[1..], rest)))
  {
  }

  lemma FieldReadFirst(fs: seq<Field>, pattern: bool, others: List<Tok>, after: List<Tok>)
    requires fs != [] && FieldArrives(fs[0], pattern, Cons(Comma, others)) && !fs[0].target.RestTarget?
    requires ReadFields(Lex(false, others), pattern) == Some((fs[1..], after))
    ensures var ts := SpellField(fs[0], Cons(Comma, others));
            ReadFields(Lex(false, ts), pattern) == Some((fs, after)) && ts.Cons? && !ts.head.Close?
  {
    LexComma(others);
    FirstField(fs[0], Lex(false, SpellField(fs[0], Cons(Comma, others))), pattern, Lex(false, others), fs[1..], after);
    assert fs == [fs[0]] + fs[1..];
  }

  // Parameters.

  ghost predicate TargetsCome(ts: seq<Target>, strict: bool) {
    forall rest {:trigger SpellTargets(ts, Rb(Paren, rest))} ::
      var us := SpellTargets(ts, Rb(Paren, rest));
      ReadTargets(Lex(false, us), strict) == Some((ts, Lex(true, rest))) && (ts != [] ==> StartsTarget(us))
  }

  lemma LastParam(t: Target, ts: List<Tok>, strict: bool, after: List<Tok>)
    requires StartsTarget(ts) && ReadTarget(ts, false) == Some((t, Cons(Close(Paren), after)))
    ensures ReadTargets(ts, strict) == Some(([t], after))
  {
    assert ReadTargets(Cons(Close(Paren), after), strict) == Some(([], after));
    assert [t] + [] == [t];
  }

  lemma FirstParam(t: Target, ts: List<Tok>, strict: bool, next: List<Tok>, others: seq<Target>, after: List<Tok>)
    requires StartsTarget(ts) && ReadTarget(ts, false) == Some((t, Cons(Comma, next)))
    requires ReadTargets(next, strict) == Some((others, after))
    ensures ReadTargets(ts, strict) == Some(([t] + others, after))
  {
  }

  lemma NoTargets(strict: bool)
    ensures TargetsCome([], strict)
  {
  }

  lemma OneTarget(ts: seq<Target>, strict: bool)
    requires |ts| == 1 && TargetComes(ts[0], false, false)
    ensures TargetsCome(ts, strict)
  {
    forall rest
      ensures var us := SpellTargets(ts, Rb(Paren, rest));
              ReadTargets(Lex(false, us), strict) == Some((ts, Lex(true, rest))) && StartsTarget(us)
    {
      var us := SpellTarget(ts[0], Rb(Paren, rest));
      assert TargetArrives(ts[0], false, false, Rb(Paren, rest));
      LastParam(ts[0], Lex(false, us), strict, Lex(true, rest));
      assert ts == [ts[0]];
    }
  }

  lemma MoreTargets(ts: seq<Target>, strict: bool)
    requires |ts| > 1 && TargetComes(ts[0], false, false) && TargetsCome(ts[1..], strict)
    ensures TargetsCome(ts, strict)
  {
    forall rest
      ensures var us := SpellTargets(ts, Rb(Paren, rest));
              ReadTargets(Lex(false, us), strict) == Some((ts, Lex(true, rest))) && StartsTarget(us)
    {
      var others := SpellTargets(ts[1..], Rb(Paren, rest));
      TargetsSpelled(ts, Rb(Paren, rest));
      assert TargetArrives(ts[0], false, false, Cons(Comma, others));
      ParamReadFirst(ts, strict, others, Lex(true, rest));
    }
  }

  lemma TargetsSpelled(ts: seq<Target>, rest: List<Tok>)
    requires |ts| > 1 && !ClosesHere(SpellTargets(ts[1..], rest))
    ensures SpellTargets(ts, rest) == SpellTarget(ts[0], Cons(Comma, SpellTargets(ts[1..], rest)))
  {
  }

  lemma ParamReadFirst(ts: seq<Target>, strict: bool, others: List<Tok>, after: List<Tok>)
    requires ts != [] && TargetArrives(ts[0], false, false, Cons(Comma, others))
    requires ReadTargets(Lex(false, others), strict) == Some((ts[1..], after))
    ensures var us := SpellTarget(ts[0], Cons(Comma, others));
            ReadTargets(Lex(false, us), strict) == Some((ts, after)) && StartsTarget(us)
  {
    LexComma(others);
    FirstParam(ts[0], Lex(false, SpellTarget(ts[0], Cons(Comma, others))), strict, Lex(false, others), ts[1..], after);
    assert ts == [ts[0]] + ts[1..];
  }

  // Bindings and loops.

  /** Something bound, which has no default of its own. */
  ghost predicate Binds(t: Target, v: Node, final: bool) {
    Default(t).None? && PartsCome(t, false) && Comes(v, false, final)
  }

  lemma BoundReads(t: Target, v: Node, behind: bool, rest: List<Tok>)
    requires Binds(t, v, Final(rest)) && Ended(rest)
    ensures var us := SpellTarget(t, O(Equals, Spell(v, rest)));
            && ReadBinding(Lex(behind, us)) == Some((Binding(t, v), Lex(true, rest)))
            && StartsAlike(Lex(behind, us), us)
  {
    var value := O(Equals, Spell(v, rest));
    assert Arrives(v, false, rest);
    ValueIsDefault(v, Lex(false, Spell(v, rest)), Lex(true, rest));
    HeadReads(t, Some(v), false, behind, value, Lex(true, rest));
    TargetStarts(t, behind, value);
    BareAgain(t, v);
  }

  lemma ValueIsDefault(v: Node, ts: List<Tok>, after: List<Tok>)
    requires ReadExpr(ts) == Some((v, after))
    ensures ReadDefault(Cons(Op(Equals), ts)) == Some((Some(v), after))
  {
  }

  lemma BareAgain(t: Target, v: Node)
    requires Default(t).None? && TakesDefault(t)
    ensures var u := WithDefault(t, Some(v)); Bare(t) == t && Bare(u) == t && Default(u) == Some(v) && !u.RestTarget?
  {
  }

  lemma LetComes(n: Node, behind: bool, final: bool)
    requires n.Let? && Binds(n.target, n.bound, final)
    ensures Comes(n, behind, final)
  {
    forall rest | Ended(rest) && (Final(rest) <==> final)
      ensures Arrives(n, behind, rest)
    {
      var ts := SpellTarget(n.target, O(Equals, Spell(n.bound, rest)));
      assert Spell(n, rest) == K(WLet, ts);
      BoundReads(n.target, n.bound, true, rest);
      assert Lex(behind, K(WLet, ts)) == Cons(Keyword(WLet), Lex(true, ts));
    }
  }

  ghost predicate BindingArrives(b: Binding, behind: bool, rest: List<Tok>) {
    var ts := Lex(behind, SpellBinding(b, rest));
    ReadBinding(ts) == Some((b, Lex(true, rest))) && StartsAlike(ts, SpellBinding(b, rest))
  }

  ghost predicate BindingComes(b: Binding, final: bool) {
    forall rest, behind {:trigger Lex(behind, SpellBinding(b, rest))} ::
      Ended(rest) && (Final(rest) <==> final) ==> BindingArrives(b, behind, rest)
  }

  lemma BoundComes(b: Binding, final: bool)
    requires Binds(b.target, b.value, final)
    ensures BindingComes(b, final)
  {
    forall rest, behind | Ended(rest) && (Final(rest) <==> final)
      ensures BindingArrives(b, behind, rest)
    {
      BoundReads(b.target, b.value, behind, rest);
    }
  }

  ghost predicate BindingsCome(bs: seq<Binding>) {
    forall rest {:trigger SpellBindings(bs, Comma, Rb(Paren, rest))} ::
      var ts := SpellBindings(bs, Comma, Rb(Paren, rest));
      ReadBindings(Lex(false, ts)) == Some((bs, Lex(true, rest))) && StartsTarget(ts)
  }

  lemma LastBinding(b: Binding, ts: List<Tok>, after: List<Tok>)
    requires StartsTarget(ts) && ReadBinding(ts) == Some((b, Cons(Close(Paren), after)))
    ensures ReadBindings(ts) == Some(([b], after))
  {
    assert ReadBindings(Cons(Close(Paren), after)) == Some(([], after));
    assert [b] + [] == [b];
  }

  lemma FirstBinding(b: Binding, ts: List<Tok>, next: List<Tok>, others: seq<Binding>, after: List<Tok>)
    requires StartsTarget(ts) && ReadBinding(ts) == Some((b, Cons(Comma, next)))
    requires ReadBindings(next) == Some((others, after))
    ensures ReadBindings(ts) == Some(([b] + others, after))
  {
  }

  lemma OneBinding(bs: seq<Binding>)
    requires |bs| == 1 && BindingComes(bs[0], false)
    ensures BindingsCome(bs)
  {
    forall rest
      ensures var ts := SpellBindings(bs, Comma, Rb(Paren, rest));
              ReadBindings(Lex(false, ts)) == Some((bs, Lex(true, rest))) && StartsTarget(ts)
    {
      assert BindingArrives(bs[0], false, Rb(Paren, rest));
      LastBinding(bs[0], Lex(false, SpellBinding(bs[0], Rb(Paren, rest))), Lex(true, rest));
      assert bs == [bs[0]];
    }
  }

  lemma MoreBindings(bs: seq<Binding>)
    requires |bs| > 1 && BindingComes(bs[0], false) && BindingsCome(bs[1..])
    ensures BindingsCome(bs)
  {
    forall rest
      ensures var ts := SpellBindings(bs, Comma, Rb(Paren, rest));
              ReadBindings(Lex(false, ts)) == Some((bs, Lex(true, rest))) && StartsTarget(ts)
    {
      var others := SpellBindings(bs[1..], Comma, Rb(Paren, rest));
      BindingsSpelled(bs, Rb(Paren, rest));
      assert BindingArrives(bs[0], false, Cons(Comma, others));
      BindingReadFirst(bs, others, Lex(true, rest));
    }
  }

  lemma BindingsSpelled(bs: seq<Binding>, rest: List<Tok>)
    requires |bs| > 1 && !ClosesHere(SpellBindings(bs[1..], Comma, rest))
    ensures SpellBindings(bs, Comma, rest) == SpellBinding(bs[0], Cons(Comma, SpellBindings(bs[1..], Comma, rest)))
  {
  }

  lemma BindingReadFirst(bs: seq<Binding>, others: List<Tok>, after: List<Tok>)
    requires bs != [] && BindingArrives(bs[0], false, Cons(Comma, others))
    requires ReadBindings(Lex(false, others)) == Some((bs[1..], after))
    ensures var ts := SpellBinding(bs[0], Cons(Comma, others));
            ReadBindings(Lex(false, ts)) == Some((bs, after)) && StartsTarget(ts)
  {
    LexComma(others);
    FirstBinding(bs[0], Lex(false, SpellBinding(bs[0], Cons(Comma, others))), Lex(false, others), bs[1..], after);
    assert bs == [bs[0]] + bs[1..];
  }

  lemma LoopComes(n: Node, behind: bool, final: bool)
    requires n.Loop? && n.bindings != [] && BindingsCome(n.bindings) && Comes(n.loopBody, false, final)
    ensures Comes(n, behind, final)
  {
    forall rest | Ended(rest) && (Final(rest) <==> final)
      ensures Arrives(n, behind, rest)
    {
      assert Arrives(n.loopBody, false, rest);
      LoopArrives(n, behind, rest);
    }
  }

  lemma LoopArrives(n: Node, behind: bool, rest: List<Tok>)
    requires n.Loop? && n.bindings != [] && BindingsCome(n.bindings) && Arrives(n.loopBody, false, rest) && Ended(rest)
    ensures Arrives(n, behind, rest)
  {
    var body := Spell(n.loopBody, rest);
    var ts := SpellBindings(n.bindings, Comma, Rb(Paren, O(Arrow, body)));
    LoopReads(n, Lex(false, ts), Lex(false, body), Lex(true, rest));
    BracketArrives(n, WLoop, behind, ts, rest);
  }

  lemma LoopReads(n: Node, ts: List<Tok>, body: List<Tok>, after: List<Tok>)
    requires n.Loop? && n.bindings != [] && ReadBindings(ts) == Some((n.bindings, Cons(Op(Arrow), body)))
    requires ReadExpr(body) == Some((n.loopBody, after))
    ensures ReadWord(WLoop, Cons(Open(Paren), ts)) == Some((n, after))
  {
  }

  // Levels.

  ghost predicate LevelComes(l: Level) {
    forall rest {:trigger SpellLevel(l, rest)} ::
      At(rest, Comma) || At(rest, Close(Paren)) ==> LevelArrives(l, rest)
  }

  ghost predicate LevelArrives(l: Level, rest: List<Tok>) {
    var ts := Lex(false, SpellLevel(l, rest));
    && ts.Cons? && ts.head.Ident? && SpellLevel(l, rest).Cons? && SpellLevel(l, rest).head.Ident?
    && ReadLevel(ts) == Some((l, Lex(true, rest)))
  }

  ghost predicate LevelsCome(ls: seq<Level>) {
    forall rest {:trigger SpellLevels(ls, Rb(Paren, rest))} ::
      var ts := SpellLevels(ls, Rb(Paren, rest));
      ReadLevels(Lex(false, ts)) == Some((ls, Lex(true, rest))) && (ls != [] ==> ts.Cons? && ts.head.Ident?)
  }

  lemma LastLevel(l: Level, ts: List<Tok>, after: List<Tok>)
    requires ts.Cons? && ts.head.Ident? && ReadLevel(ts) == Some((l, Cons(Close(Paren), after)))
    ensures ReadLevels(ts) == Some(([l], after))
  {
    assert ReadLevels(Cons(Close(Paren), after)) == Some(([], after));
    assert [l] + [] == [l];
  }

  lemma FirstLevel(l: Level, ts: List<Tok>, next: List<Tok>, others: seq<Level>, after: List<Tok>)
    requires ts.Cons? && ts.head.Ident? && ReadLevel(ts) == Some((l, Cons(Comma, next)))
    requires ReadLevels(next) == Some((others, after))
    ensures ReadLevels(ts) == Some(([l] + others, after))
  {
    assert !At(ts, Close(Paren)) && At(Cons(Comma, next), Comma);
  }

  lemma NoLevels()
    ensures LevelsCome([])
  {
  }

  lemma OneLevel(ls: seq<Level>)
    requires |ls| == 1 && LevelComes(ls[0])
    ensures LevelsCome(ls)
  {
    forall rest
      ensures var ts := SpellLevels(ls, Rb(Paren, rest));
              ReadLevels(Lex(false, ts)) == Some((ls, Lex(true, rest))) && ts.Cons? && ts.head.Ident?
    {
      assert LevelArrives(ls[0], Rb(Paren, rest));
      LastLevel(ls[0], Lex(false, SpellLevel(ls[0], Rb(Paren, rest))), Lex(true, rest));
      assert ls == [ls[0]];
    }
  }

  lemma MoreLevels(ls: seq<Level>)
    requires |ls| > 1 && LevelComes(ls[0]) && LevelsCome(ls[1..])
    ensures LevelsCome(ls)
  {
    forall rest
      ensures var ts := SpellLevels(ls, Rb(Paren, rest));
              ReadLevels(Lex(false, ts)) == Some((ls, Lex(true, rest))) && ts.Cons? && ts.head.Ident?
    {
      var others := SpellLevels(ls[1..], Rb(Paren, rest));
      LevelsSpelled(ls, Rb(Paren, rest));
      assert LevelArrives(ls[0], Cons(Comma, others));
      LevelReadFirst(ls, others, Lex(true, rest));
    }
  }

  lemma LevelsSpelled(ls: seq<Level>, rest: List<Tok>)
    requires |ls| > 1 && !ClosesHere(SpellLevels(ls[1..], rest))
    ensures SpellLevels(ls, rest) == SpellLevel(ls[0], Cons(Comma, SpellLevels(ls[1..], rest)))
  {
  }

  lemma LevelReadFirst(ls: seq<Level>, others: List<Tok>, after: List<Tok>)
    requires ls != [] && LevelArrives(ls[0], Cons(Comma, others))
    requires ReadLevels(Lex(false, others)) == Some((ls[1..], after))
    ensures var ts := SpellLevel(ls[0], Cons(Comma, others));
            ReadLevels(Lex(false, ts)) == Some((ls, after)) && ts.Cons? && ts.head.Ident?
  {
    LevelsFollow(ls, Lex(false, SpellLevel(ls[0], Cons(Comma, others))), others, after);
  }

  lemma LevelsFollow(ls: seq<Level>, ts: List<Tok>, others: List<Tok>, after: List<Tok>)
    requires ls != [] && ts.Cons? && ts.head.Ident? && ReadLevel(ts) == Some((ls[0], Lex(true, Cons(Comma, others))))
    requires ReadLevels(Lex(false, others)) == Some((ls[1..], after))
    ensures ReadLevels(ts) == Some((ls, after))
  {
    LexComma(others);
    FirstLevel(ls[0], ts, Lex(false, others), ls[1..], after);
    assert ls == [ls[0]] + ls[1..];
  }

  predicate Guarded(l: Level) { l.whenGuard.Some? || l.whileGuard.Some? }

  function Guards(l: Level, rest: List<Tok>): List<Tok> {
    SpellGuard(WWhen, l.whenGuard, SpellGuard(WWhile, l.whileGuard, rest))
  }

  /** The bindings of a level, each behind its word. */
  function Lets(bs: seq<Binding>, rest: List<Tok>): List<Tok> {
    if bs == [] then rest else K(WLet, SpellBindings(bs, Keyword(WLet), rest))
  }

  ghost predicate LetsCome(bs: seq<Binding>, final: bool) {
    forall rest {:trigger Lets(bs, rest)} :: Ended(rest) && (Final(rest) <==> final) && !AtWord(rest, WLet) ==>
      ReadLets(Lex(true, Lets(bs, rest))) == Some((bs, Lex(true, rest)))
  }

  lemma FirstLet(b: Binding, ts: List<Tok>, next: List<Tok>, others: seq<Binding>, after: List<Tok>)
    requires ReadBinding(ts) == Some((b, next)) && ReadLets(next) == Some((others, after))
    ensures ReadLets(Cons(Keyword(WLet), ts)) == Some(([b] + others, after))
  {
  }

  lemma NoLets(final: bool)
    ensures LetsCome([], final)
  {
    forall rest | Ended(rest) && !AtWord(rest, WLet)
      ensures ReadLets(Lex(true, rest)) == Some(([], Lex(true, rest)))
    {
      LexEnded(true, rest);
    }
  }

  lemma OneLet(bs: seq<Binding>, final: bool)
    requires |bs| == 1 && BindingComes(bs[0], final)
    ensures LetsCome(bs, final)
  {
    forall rest | Ended(rest) && (Final(rest) <==> final) && !AtWord(rest, WLet)
      ensures ReadLets(Lex(true, Lets(bs, rest))) == Some((bs, Lex(true, rest)))
    {
      LexEnded(true, rest);
      assert BindingArrives(bs[0], true, rest);
      FirstLet(bs[0], Lex(true, SpellBinding(bs[0], rest)), Lex(true, rest), [], Lex(true, rest));
      assert bs == [bs[0]] + [];
    }
  }

  lemma MoreLets(bs: seq<Binding>, final: bool)
    requires |bs| > 1 && BindingComes(bs[0], false) && LetsCome(bs[1..], final)
    ensures LetsCome(bs, final)
  {
    forall rest | Ended(rest) && (Final(rest) <==> final) && !AtWord(rest, WLet)
      ensures ReadLets(Lex(true, Lets(bs, rest))) == Some((bs, Lex(true, rest)))
    {
      var others := Lets(bs[1..], rest);
      assert BindingArrives(bs[0], true, others);
      FirstLet(bs[0], Lex(true, SpellBinding(bs[0], others)), Lex(true, others), bs[1..], Lex(true, rest));
      assert bs == [bs[0]] + bs[1..];
    }
  }

  /** A condition behind its word. */
  ghost predicate GuardComes(guard: Option<Node>, final: bool) { guard.Some? ==> Comes(guard.value, true, final) }

  lemma WhileReads(guard: Option<Node>, w: Option<Node>, rest: List<Tok>)
    requires GuardComes(guard, false) && (At(rest, Comma) || At(rest, Close(Paren)))
    ensures var ts := SpellGuard(WWhile, guard, rest);
            && ReadGuards(Lex(true, ts), w, None) == Some(((w, guard), Lex(true, rest)))
            && Ended(ts) && !AtWord(ts, WLet) && !AtWord(ts, WWhen) && (Final(ts) <==> guard.Some?)
  {
    if guard.Some? { assert Arrives(guard.value, true, rest); }
  }

  lemma WhenReads(x: Node, ts: List<Tok>, next: List<Tok>, guard: Option<Node>, after: List<Tok>)
    requires ReadExpr(ts) == Some((x, next)) && ReadGuards(next, Some(x), None) == Some(((Some(x), guard), after))
    ensures ReadGuards(Cons(Keyword(WWhen), ts), None, None) == Some(((Some(x), guard), after))
  {
  }

  lemma GuardsRead(l: Level, rest: List<Tok>)
    requires GuardComes(l.whenGuard, l.whileGuard.Some?) && GuardComes(l.whileGuard, false)
    requires At(rest, Comma) || At(rest, Close(Paren))
    ensures ReadGuards(Lex(true, Guards(l, rest)), None, None) == Some(((l.whenGuard, l.whileGuard), Lex(true, rest)))
    ensures var ts := Guards(l, rest); Ended(ts) && !AtWord(ts, WLet) && (Final(ts) <==> Guarded(l))
  {
    WhileReads(l.whileGuard, l.whenGuard, rest);
    if l.whenGuard.Some? {
      var ts := SpellGuard(WWhile, l.whileGuard, rest);
      assert Arrives(l.whenGuard.value, true, ts);
      WhenReads(l.whenGuard.value, Lex(true, Spell(l.whenGuard.value, ts)), Lex(true, ts), l.whileGuard,
                Lex(true, rest));
    }
  }

  lemma OneLevelComes(l: Level)
    requires l.target.SymbolTarget? && l.target.default.None? && !IsSpecial(l.target.name)
    requires Comes(l.collection, true, l.lets == [] && Guarded(l)) && LetsCome(l.lets, Guarded(l))
    requires Apart(BoundNames(l.lets)) && GuardComes(l.whenGuard, l.whileGuard.Some?) && GuardComes(l.whileGuard, false)
    ensures LevelComes(l)
  {
    forall rest | At(rest, Comma) || At(rest, Close(Paren))
      ensures LevelArrives(l, rest)
    {
      GuardsRead(l, rest);
      LetsRead(l, rest);
      assert Arrives(l.collection, true, Lets(l.lets, Guards(l, rest)));
      LevelHolds(l, rest);
    }
  }

  lemma LetsRead(l: Level, rest: List<Tok>)
    requires LetsCome(l.lets, Guarded(l))
    requires var ts := Guards(l, rest); Ended(ts) && !AtWord(ts, WLet) && (Final(ts) <==> Guarded(l))
    ensures var guards := Guards(l, rest);
            var ts := Lets(l.lets, guards);
            && ReadLets(Lex(true, ts)) == Some((l.lets, Lex(true, guards)))
            && Ended(ts) && (Final(ts) <==> l.lets == [] && Guarded(l))
  {
  }

  lemma LevelHolds(l: Level, rest: List<Tok>)
    requires l.target.SymbolTarget? && l.target.default.None? && !IsSpecial(l.target.name)
    requires Apart(BoundNames(l.lets)) && Arrives(l.collection, true, Lets(l.lets, Guards(l, rest)))
    requires var guards := Guards(l, rest);
             && ReadLets(Lex(true, Lets(l.lets, guards))) == Some((l.lets, Lex(true, guards)))
             && ReadGuards(Lex(true, guards), None, None) == Some(((l.whenGuard, l.whileGuard), Lex(true, rest)))
    ensures LevelArrives(l, rest)
  {
    var guards := Guards(l, rest);
    var lets := Lets(l.lets, guards);
    LevelReads(l, Lex(true, Spell(l.collection, lets)), Lex(true, lets), Lex(true, guards), Lex(true, rest));
    LevelSpells(l, rest);
  }

  lemma LevelSpells(l: Level, rest: List<Tok>)
    requires l.target.SymbolTarget? && l.target.default.None?
    ensures var ts := Spell(l.collection, Lets(l.lets, Guards(l, rest)));
            && SpellLevel(l, rest) == Cons(Ident(l.target.name), K(WIn, ts))
            && Lex(false, SpellLevel(l, rest)) == Cons(Ident(l.target.name), Cons(Keyword(WIn), Lex(true, ts)))
  {
    var ts := K(WIn, Spell(l.collection, Lets(l.lets, Guards(l, rest))));
    assert SpellTarget(l.target, ts) == Cons(Ident(l.target.name), ts);
    assert Lex(false, Cons(Ident(l.target.name), ts)) == Cons(Ident(l.target.name), Lex(true, ts));
  }

  lemma LevelReads(l: Level, ts: List<Tok>, lets: List<Tok>, guards: List<Tok>, after: List<Tok>)
    requires l.target.SymbolTarget? && l.target.default.None? && !IsSpecial(l.target.name)
    requires ReadExpr(ts) == Some((l.collection, lets)) && ReadLets(lets) == Some((l.lets, guards))
    requires Apart(BoundNames(l.lets))
    requires ReadGuards(guards, None, None) == Some(((l.whenGuard, l.whileGuard), after))
    ensures ReadLevel(Cons(Ident(l.target.name), Cons(Keyword(WIn), ts))) == Some((l, after))
  {
  }

  lemma ForComes(n: Node, behind: bool, final: bool)
    requires n.For? && LevelsCome(n.levels) && Apart(LevelNames(n.levels)) && Comes(n.loopBody, false, final)
    ensures Comes(n, behind, final)
  {
    forall rest | Ended(rest) && (Final(rest) <==> final)
      ensures Arrives(n, behind, rest)
    {
      assert Arrives(n.loopBody, false, rest);
      ForArrives(n, behind, rest);
    }
  }

  lemma ForArrives(n: Node, behind: bool, rest: List<Tok>)
    requires n.For? && LevelsCome(n.levels) && Apart(LevelNames(n.levels)) && Arrives(n.loopBody, false, rest)
    requires Ended(rest)
    ensures Arrives(n, behind, rest)
  {
    var body := Spell(n.loopBody, rest);
    var ts := SpellLevels(n.levels, Rb(Paren, O(Arrow, body)));
    assert Spell(n, rest) == K(WFor, Lb(Paren, ts));
    ForReads(n, Lex(false, ts), Lex(false, body), Lex(true, rest));
    BracketArrives(n, WFor, behind, ts, rest);
  }

  lemma ForReads(n: Node, ts: List<Tok>, body: List<Tok>, after: List<Tok>)
    requires n.For? && Apart(LevelNames(n.levels)) && ReadLevels(ts) == Some((n.levels, Cons(Op(Arrow), body)))
    requires ReadExpr(body) == Some((n.loopBody, after))
    ensures ReadWord(WFor, Cons(Open(Paren), ts)) == Some((n, after))
  {
  }

  // Matches.

  ghost predicate CaseComes(c: Case) {
    forall rest {:trigger SpellCase(c, rest)} :: AtWord(rest, WCase) || AtWord(rest, WEnd) ==>
      && AtWord(SpellCase(c, rest), WCase)
      && ReadCase(Lex(true, SpellCase(c, rest).tail)) == Some((c, Lex(true, rest)))
  }

  lemma OneCase(c: Case)
    requires TargetComes(c.pattern, true, true) && GuardComes(c.guard, true) && Comes(c.result, true, true)
    ensures CaseComes(c)
  {
    forall rest | AtWord(rest, WCase) || AtWord(rest, WEnd)
      ensures AtWord(SpellCase(c, rest), WCase)
      ensures ReadCase(Lex(true, SpellCase(c, rest).tail)) == Some((c, Lex(true, rest)))
    {
      var result := Spell(c.result, rest);
      var guard := SpellGuard(WWhen, c.guard, K(WThen, result));
      assert Arrives(c.result, true, rest) && TargetArrives(c.pattern, true, true, guard);
      OneReads(c.result, Lex(true, result), WCase, WEnd, Lex(true, rest));
      if c.guard.Some? { assert Arrives(c.guard.value, true, K(WThen, result)); }
      CaseReads(c, Lex(true, SpellTarget(c.pattern, guard)), Lex(true, guard), Lex(true, result), Lex(true, rest));
    }
  }

  lemma CaseReads(c: Case, ts: List<Tok>, guard: List<Tok>, result: List<Tok>, after: List<Tok>)
    requires ReadTarget(ts, true) == Some((c.pattern, guard))
    requires if c.guard.None? then guard == Cons(Keyword(WThen), result)
             else AtWord(guard, WWhen) && ReadExpr(guard.tail) == Some((c.guard.value, Cons(Keyword(WThen), result)))
    requires ReadImplicit(result, WCase, WEnd) == Some((c.result, after))
    ensures ReadCase(ts) == Some((c, after))
  {
  }

  ghost predicate CasesCome(cs: seq<Case>) {
    forall rest {:trigger SpellCases(cs, K(WEnd, rest))} ::
      var ts := SpellCases(cs, K(WEnd, rest));
      (AtWord(ts, WCase) || AtWord(ts, WEnd)) && ReadCases(Lex(true, ts)) == Some((cs, Lex(true, rest)))
  }

  lemma NoCases()
    ensures CasesCome([])
  {
  }

  lemma MoreCases(cs: seq<Case>)
    requires cs != [] && CaseComes(cs[0]) && CasesCome(cs[1..])
    ensures CasesCome(cs)
  {
    forall rest
      ensures var ts := SpellCases(cs, K(WEnd, rest));
              AtWord(ts, WCase) && ReadCases(Lex(true, ts)) == Some((cs, Lex(true, rest)))
    {
      var others := SpellCases(cs[1..], K(WEnd, rest));
      var ts := SpellCase(cs[0], others);
      assert SpellCases(cs, K(WEnd, rest)) == ts;
      FirstCase(cs[0], Lex(true, ts.tail), Lex(true, others), cs[1..], Lex(true, rest));
      assert cs == [cs[0]] + cs[1..];
    }
  }

  lemma FirstCase(c: Case, ts: List<Tok>, next: List<Tok>, others: seq<Case>, after: List<Tok>)
    requires ReadCase(ts) == Some((c, next)) && ReadCases(next) == Some((others, after))
    ensures ReadCases(Cons(Keyword(WCase), ts)) == Some(([c] + others, after))
  {
  }

  lemma MatchComes(n: Node, behind: bool, final: bool)
    requires n.Match? && Comes(n.subject, true, true) && CasesCome(n.cases)
    ensures Comes(n, behind, final)
  {
    forall rest | Ended(rest)
      ensures Arrives(n, behind, rest)
    {
      var cases := SpellCases(n.cases, K(WEnd, rest));
      var ts := Spell(n.subject, cases);
      assert Arrives(n.subject, true, cases);
      MatchReads(n, Lex(true, ts), Lex(true, cases), Lex(true, rest));
      WordArrives(n, WMatch, behind, ts, rest);
    }
  }

  lemma MatchReads(n: Node, ts: List<Tok>, cases: List<Tok>, after: List<Tok>)
    requires n.Match? && ReadExpr(ts) == Some((n.subject, cases)) && ReadCases(cases) == Some((n.cases, after))
    ensures ReadWord(WMatch, ts) == Some((n, after))
  {
  }

  // Functions.

  lemma LambdaReads(params: seq<Target>, body: seq<Node>, rest: List<Tok>)
    requires ParamsOk(params) && TargetsCome(params, true) && BodyComes(body, Final(rest)) && Ended(rest)
    ensures ReadLambda(Lex(false, SpellTargets(params, Rb(Paren, O(Arrow, SpellBody(body, rest)))))) ==
            Some(((params, body), Lex(true, rest)))
  {
    var next := SpellBody(body, rest);
    ParamsRead(params, body, Lex(false, SpellTargets(params, Rb(Paren, O(Arrow, next)))), Lex(false, next),
               Lex(true, rest));
  }

  lemma ParamsRead(params: seq<Target>, body: seq<Node>, ts: List<Tok>, next: List<Tok>, after: List<Tok>)
    requires ParamsOk(params) && ReadTargets(ts, true) == Some((params, Cons(Op(Arrow), next)))
    requires ReadBody(next) == Some((body, after))
    ensures ReadLambda(ts) == Some(((params, body), after))
  {
  }

  lemma MacroComes(n: Node, behind: bool, final: bool)
    requires n.Macro? && ParamsOk(n.params) && TargetsCome(n.params, true) && BodyComes(n.body, final)
    ensures Comes(n, behind, final)
  {
    forall rest | Ended(rest) && (Final(rest) <==> final)
      ensures Arrives(n, behind, rest)
    {
      var ts := SpellTargets(n.params, Rb(Paren, O(Arrow, SpellBody(n.body, rest))));
      assert Spell(n, rest) == K(WMacro, Lb(Paren, ts));
      LambdaReads(n.params, n.body, rest);
      MacroReads(n, Lex(false, ts), Lex(true, rest));
      BracketArrives(n, WMacro, behind, ts, rest);
    }
  }

  lemma MacroReads(n: Node, ts: List<Tok>, after: List<Tok>)
    requires n.Macro? && ReadLambda(ts) == Some(((n.params, n.body), after))
    ensures ReadWord(WMacro, Cons(Open(Paren), ts)) == Some((n, after))
  {
  }

  // The brackets among parameters match.

  ghost predicate DefaultMatches(d: Option<Node>) {
    forall rest, k {:trigger AfterParen(Lex(true, SpellDefault(d, rest)), k)} :: Ended(rest) && !Final(rest) ==>
      AfterParen(Lex(true, SpellDefault(d, rest)), k) == AfterParen(Lex(true, rest), k)
  }

  ghost predicate TargetMatches(t: Target) {
    forall rest, behind, k {:trigger AfterParen(Lex(behind, SpellTarget(t, rest)), k)} ::
      Ended(rest) && !Final(rest) ==>
        AfterParen(Lex(behind, SpellTarget(t, rest)), k) == AfterParen(Lex(true, rest), k)
  }

  ghost predicate ItemsMatch(items: seq<Option<Target>>) {
    forall rest, k {:trigger AfterParen(Lex(false, SpellItems(items, Rb(Square, rest))), k)} ::
      AfterParen(Lex(false, SpellItems(items, Rb(Square, rest))), k) == AfterParen(Lex(true, rest), k)
  }

  ghost predicate FieldsMatch(fs: seq<Field>) {
    forall rest, k {:trigger AfterParen(Lex(false, SpellFields(fs, Rb(Curly, rest))), k)} ::
      AfterParen(Lex(false, SpellFields(fs, Rb(Curly, rest))), k) == AfterParen(Lex(true, rest), k)
  }

  ghost predicate TargetsMatch(ts: seq<Target>) {
    forall rest, k {:trigger AfterParen(Lex(false, SpellTargets(ts, Rb(Paren, rest))), k)} ::
      AfterParen(Lex(false, SpellTargets(ts, Rb(Paren, rest))), k) == AfterParen(Rb(Paren, Lex(true, rest)), k)
  }

  lemma NoDefaultMatches()
    ensures DefaultMatches(None)
  {
  }

  lemma NameMatches(t: Target)
    requires (t.SymbolTarget? && DefaultMatches(t.default)) || (t.RestTarget? && t.default.None?)
    ensures TargetMatches(t)
  {
  }

  lemma ArrayMatches(t: Target)
    requires t.ArrayTarget? && ItemsMatch(t.items) && DefaultMatches(t.default)
    ensures TargetMatches(t)
  {
    forall rest, behind, k: nat | Ended(rest) && !Final(rest)
      ensures AfterParen(Lex(behind, SpellTarget(t, rest)), k) == AfterParen(Lex(true, rest), k)
    {
      var after := SpellDefault(t.default, rest);
      var ts := SpellItems(t.items, Rb(Square, after));
      assert Lex(behind, Lb(Square, ts)) == Cons(Open(Square), Lex(false, ts));
      assert AfterParen(Lex(false, ts), k) == AfterParen(Lex(true, after), k);
    }
  }

  lemma ObjectMatches(t: Target)
    requires t.ObjectTarget? && FieldsMatch(t.fields) && DefaultMatches(t.default)
    ensures TargetMatches(t)
  {
    forall rest, behind, k: nat | Ended(rest) && !Final(rest)
      ensures AfterParen(Lex(behind, SpellTarget(t, rest)), k) == AfterParen(Lex(true, rest), k)
    {
      var after := SpellDefault(t.default, rest);
      var ts := SpellFields(t.fields, Rb(Curly, after));
      assert Lex(behind, Lb(Curly, ts)) == Cons(Open(Curly), Lex(false, ts));
      assert AfterParen(Lex(false, ts), k) == AfterParen(Lex(true, after), k);
    }
  }

  lemma NoItemsMatch()
    ensures ItemsMatch([])
  {
  }

  lemma OneItemMatches(items: seq<Option<Target>>)
    requires |items| == 1 && items[0].Some? && TargetMatches(items[0].value)
    ensures ItemsMatch(items)
  {
    forall rest, k: nat
      ensures AfterParen(Lex(false, SpellItems(items, Rb(Square, rest))), k) == AfterParen(Lex(true, rest), k)
    {
      var ts := SpellTarget(items[0].value, Rb(Square, rest));
      assert SpellItems(items, Rb(Square, rest)) == ts;
      assert AfterParen(Lex(false, ts), k) == AfterParen(Lex(true, Rb(Square, rest)), k);
      assert Lex(true, Rb(Square, rest)) == Cons(Close(Square), Lex(true, rest));
    }
  }

  lemma MoreItemsMatch(items: seq<Option<Target>>)
    requires |items| > 1 && ItemsMatch(items[1..]) && ItemsCome(items[1..], false)
    requires items[0].Some? ==> TargetMatches(items[0].value)
    ensures ItemsMatch(items)
  {
    forall rest, k: nat
      ensures AfterParen(Lex(false, SpellItems(items, Rb(Square, rest))), k) == AfterParen(Lex(true, rest), k)
    {
      var others := SpellItems(items[1..], Rb(Square, rest));
      assert SpellItems(items, Rb(Square, rest)) == SpellItem(items[0], Cons(Comma, others));
      ItemMatches(items[0], others, k);
    }
  }

  lemma ItemMatches(item: Option<Target>, others: List<Tok>, k: nat)
    requires item.Some? ==> TargetMatches(item.value)
    ensures AfterParen(Lex(false, SpellItem(item, Cons(Comma, others))), k) == AfterParen(Lex(false, others), k)
  {
    var ts := Cons(Comma, others);
    assert Lex(false, ts) == Lex(true, ts) == Cons(Comma, Lex(false, others));
    if item.Some? {
      assert AfterParen(Lex(false, SpellTarget(item.value, ts)), k) == AfterParen(Lex(true, ts), k);
    }
  }

  /** One more field, of which there is a name or a target. */
  lemma FieldMatches(f: Field, rest: List<Tok>, k: nat)
    requires TargetMatches(f.target) && (f.target.RestTarget? ==> f.target.default.None?)
    requires Ended(rest) && !Final(rest)
    ensures AfterParen(Lex(false, SpellField(f, rest)), k) == AfterParen(Lex(true, rest), k)
  {
    var ts := SpellTarget(f.target, rest);
    if f.target.RestTarget? {
      LexEnded(true, rest);
      assert SpellField(f, rest) == O(Dots, Cons(Ident(f.target.name), rest));
      assert Lex(false, SpellField(f, rest)) == Cons(Op(Dots), Cons(Ident(f.target.name), Lex(true, rest)));
    } else if f.target.SymbolTarget? {
      assert AfterParen(Lex(true, ts), k) == AfterParen(Lex(true, rest), k);
      assert AfterParen(Lex(false, ts), k) == AfterParen(Lex(true, rest), k);
      assert Lex(false, Cons(Ident(f.key), K(WAs, ts))) == Cons(Ident(f.key), Cons(Keyword(WAs), Lex(true, ts)));
    } else {
      assert AfterParen(Lex(false, ts), k) == AfterParen(Lex(true, rest), k);
      assert Lex(false, Cons(Ident(f.key), O(Colon, ts))) == Cons(Ident(f.key), Cons(Op(Colon), Lex(false, ts)));
    }
  }

  lemma NoFieldsMatch()
    ensures FieldsMatch([])
  {
  }

  lemma MoreFieldsMatch(fs: seq<Field>)
    requires fs != [] && TargetMatches(fs[0].target) && FieldsMatch(fs[1..]) && FieldsCome(fs[1..], false)
    requires fs[0].target.RestTarget? ==> fs[0].target.default.None?
    ensures FieldsMatch(fs)
  {
    forall rest, k: nat
      ensures AfterParen(Lex(false, SpellFields(fs, Rb(Curly, rest))), k) == AfterParen(Lex(true, rest), k)
    {
      if |fs| == 1 {
        FieldMatches(fs[0], Rb(Curly, rest), k);
      } else {
        var others := SpellFields(fs[1..], Rb(Curly, rest));
        FieldMatches(fs[0], Cons(Comma, others), k);
        assert SpellFields(fs, Rb(Curly, rest)) == SpellField(fs[0], Cons(Comma, others));
        assert AfterParen(Lex(false, others), k) == AfterParen(Lex(true, rest), k);
      }
    }
  }

  lemma NoTargetsMatch()
    ensures TargetsMatch([])
  {
  }

  lemma MoreTargetsMatch(ts: seq<Target>)
    requires ts != [] && TargetMatches(ts[0]) && TargetsMatch(ts[1..]) && TargetsCome(ts[1..], true)
    ensures TargetsMatch(ts)
  {
    forall rest, k: nat
      ensures AfterParen(Lex(false, SpellTargets(ts, Rb(Paren, rest))), k) ==
              AfterParen(Rb(Paren, Lex(true, rest)), k)
    {
      if |ts| == 1 {
        assert AfterParen(Lex(false, SpellTarget(ts[0], Rb(Paren, rest))), k) ==
               AfterParen(Lex(true, Rb(Paren, rest)), k);
      } else {
        var others := SpellTargets(ts[1..], Rb(Paren, rest));
        assert SpellTargets(ts, Rb(Paren, rest)) == SpellTarget(ts[0], Cons(Comma, others));
        assert AfterParen(Lex(false, SpellTarget(ts[0], Cons(Comma, others))), k) ==
               AfterParen(Lex(true, Cons(Comma, others)), k) == AfterParen(Lex(false, others), k);
      }
    }
  }

  lemma FunctionComes(n: Node, behind: bool, final: bool)
    requires n.Function? && !n.shorthand && ParamsOk(n.params) && TargetsCome(n.params, true)
    requires TargetsMatch(n.params) && BodyComes(n.body, final)
    ensures Comes(n, behind, final)
  {
    forall rest | Ended(rest) && (Final(rest) <==> final)
      ensures Arrives(n, behind, rest)
    {
      LambdaReads(n.params, n.body, rest);
      ArrowFollows(n.params, SpellBody(n.body, rest));
      FunctionArrives(n, behind, rest);
    }
  }

  lemma ArrowFollows(params: seq<Target>, body: List<Tok>)
    requires TargetsMatch(params)
    ensures At(AfterParen(Lex(false, SpellTargets(params, Rb(Paren, O(Arrow, body)))), 0), Op(Arrow))
  {
    assert AfterParen(Lex(false, SpellTargets(params, Rb(Paren, O(Arrow, body)))), 0) == Lex(true, O(Arrow, body));
  }

  lemma FunctionArrives(n: Node, behind: bool, rest: List<Tok>)
    requires n.Function? && !n.shorthand && Ended(rest)
    requires var ts := Lex(false, SpellTargets(n.params, Rb(Paren, O(Arrow, SpellBody(n.body, rest)))));
             ReadLambda(ts) == Some(((n.params, n.body), Lex(true, rest))) && At(AfterParen(ts, 0), Op(Arrow))
    ensures Arrives(n, behind, rest)
  {
    var ts := SpellTargets(n.params, Rb(Paren, O(Arrow, SpellBody(n.body, rest))));
    FunctionReads(n, Lex(false, ts), Lex(true, rest));
    assert Lex(behind, Lb(Paren, ts)) == Cons(Open(Paren), Lex(false, ts));
    MarkArrives(n, Open(Paren), behind, ts, rest);
  }

  lemma FunctionReads(n: Node, ts: List<Tok>, after: List<Tok>)
    requires n.Function? && !n.shorthand && ReadLambda(ts) == Some(((n.params, n.body), after))
    requires At(AfterParen(ts, 0), Op(Arrow))
    ensures var read := Cons(Open(Paren), ts); Opens(read) && ReadConstruct(read) == Some((n, after))
  {
  }

  // Handlers.

  ghost predicate ClauseArrives(c: Clause, rest: List<Tok>) {
    var ts := SpellClause(c, rest);
    && At(ts, EffectTok(c.effectName))
    && ReadClause(c.effectName, Lex(false, ts.tail)) == Some((c, Lex(true, rest)))
  }

  ghost predicate ClauseComes(c: Clause, final: bool) {
    forall rest {:trigger SpellClause(c, rest)} :: Ended(rest) && (Final(rest) <==> final) ==> ClauseArrives(c, rest)
  }

  lemma OneClauseComes(c: Clause, final: bool)
    requires TargetsCome(c.params, false) && BodyComes(c.body, final)
    ensures ClauseComes(c, final)
  {
    forall rest | Ended(rest) && (Final(rest) <==> final)
      ensures ClauseArrives(c, rest)
    {
      var body := SpellBody(c.body, rest);
      var ts := SpellTargets(c.params, Rb(Paren, O(Arrow, body)));
      assert SpellClause(c, rest) == Cons(EffectTok(c.effectName), Lb(Paren, ts));
      assert Lex(false, Lb(Paren, ts)) == Cons(Open(Paren), Lex(false, ts));
      ClauseReads(c, Lex(false, ts), Lex(false, body), Lex(true, rest));
    }
  }

  lemma ClauseReads(c: Clause, ts: List<Tok>, body: List<Tok>, after: List<Tok>)
    requires ReadTargets(ts, false) == Some((c.params, Cons(Op(Arrow), body)))
    requires ReadBody(body) == Some((c.body, after))
    ensures ReadClause(c.effectName, Cons(Open(Paren), ts)) == Some((c, after))
  {
  }

  /** `last`: nothing but `end` follows. */
  ghost predicate ClausesCome(cs: seq<Clause>, last: bool) {
    forall rest {:trigger SpellClauses(cs, rest)} :: (if last then AtWord(rest, WEnd) else AtWord(rest, WTransform)) ==>
      && ReadClauses(Lex(true, SpellClauses(cs, rest))) == Some((cs, Lex(true, rest)))
      && (cs != [] ==> SpellClauses(cs, rest).Cons? && SpellClauses(cs, rest).head.EffectTok?)
  }

  lemma NoClauses(last: bool)
    ensures ClausesCome([], last)
  {
  }

  lemma MoreClauses(cs: seq<Clause>, last: bool)
    requires cs != [] && ClauseComes(cs[0], |cs| == 1 && last) && ClausesCome(cs[1..], last)
    ensures ClausesCome(cs, last)
  {
    forall rest | if last then AtWord(rest, WEnd) else AtWord(rest, WTransform)
      ensures var ts := SpellClauses(cs, rest);
              ReadClauses(Lex(true, ts)) == Some((cs, Lex(true, rest))) && ts.Cons? && ts.head.EffectTok?
    {
      var others := SpellClauses(cs[1..], rest);
      assert SpellClauses(cs, rest) == SpellClause(cs[0], others);
      ClausesEnded(cs[1..], last, rest);
      assert ClauseArrives(cs[0], others);
      ClauseInFront(cs[0], others, cs[1..], Lex(true, rest));
      assert cs == [cs[0]] + cs[1..];
    }
  }

  lemma ClauseInFront(c: Clause, others: List<Tok>, cs: seq<Clause>, after: List<Tok>)
    requires ClauseArrives(c, others) && ReadClauses(Lex(true, others)) == Some((cs, after))
    ensures var ts := SpellClause(c, others);
            ReadClauses(Lex(true, ts)) == Some(([c] + cs, after)) && ts.Cons? && ts.head.EffectTok?
  {
    FirstClause(c, Lex(false, SpellClause(c, others).tail), Lex(true, others), cs, after);
  }

  lemma ClausesEnded(cs: seq<Clause>, last: bool, rest: List<Tok>)
    requires ClausesCome(cs, last) && if last then AtWord(rest, WEnd) else AtWord(rest, WTransform)
    ensures var ts := SpellClauses(cs, rest); Ended(ts) && (Final(ts) <==> cs == [] && last)
  {
  }

  lemma FirstClause(c: Clause, ts: List<Tok>, next: List<Tok>, others: seq<Clause>, after: List<Tok>)
    requires ReadClause(c.effectName, ts) == Some((c, next)) && ReadClauses(next) == Some((others, after))
    ensures ReadClauses(Cons(EffectTok(c.effectName), ts)) == Some(([c] + others, after))
  {
  }

  ghost predicate TransformComes(t: Option<Transform>) {
    t.Some? ==> PartsCome(t.value.param, false) && Default(t.value.param).None? && BodyComes(t.value.body, true)
  }

  lemma TransformReads(t: Option<Transform>, rest: List<Tok>)
    requires TransformComes(t)
    ensures var ts := SpellTransform(t, K(WEnd, rest));
            && ReadTransform(Lex(true, ts)) == Some((t, Cons(Keyword(WEnd), Lex(true, rest))))
            && (if t.None? then AtWord(ts, WEnd) else AtWord(ts, WTransform))
  {
    if t.Some? {
      var body := SpellBody(t.value.body, K(WEnd, rest));
      var ts := SpellTarget(t.value.param, O(Arrow, body));
      DefaultTargetComes(t.value.param, false, false);
      assert TargetArrives(t.value.param, false, true, O(Arrow, body));
      TransformerReads(t.value, Lex(true, ts), Lex(false, body), Cons(Keyword(WEnd), Lex(true, rest)));
    }
  }

  lemma TransformerReads(t: Transform, ts: List<Tok>, body: List<Tok>, after: List<Tok>)
    requires ReadTarget(ts, false) == Some((t.param, Cons(Op(Arrow), body))) && ReadBody(body) == Some((t.body, after))
    ensures ReadTransform(Cons(Keyword(WTransform), ts)) == Some((Some(t), after))
  {
  }

  lemma HandlerComes(n: Node, behind: bool, final: bool)
    requires n.Handler? && (n.clauses != [] || n.transform.Some?) && Apart(Effects(n.clauses))
    requires ClausesCome(n.clauses, n.transform.None?) && TransformComes(n.transform)
    ensures Comes(n, behind, final)
  {
    forall rest | Ended(rest)
      ensures Arrives(n, behind, rest)
    {
      HandlerWord(n, rest);
      HandlerSpells(n, rest);
      WordArrives(n, WHandler, behind, Spell(n, rest).tail, rest);
    }
  }

  lemma HandlerSpells(n: Node, rest: List<Tok>)
    requires n.Handler?
    ensures Spell(n, rest) == K(WHandler, SpellClauses(n.clauses, SpellTransform(n.transform, K(WEnd, rest))))
  {
  }

  lemma HandlerWord(n: Node, rest: List<Tok>)
    requires n.Handler? && (n.clauses != [] || n.transform.Some?) && Apart(Effects(n.clauses))
    requires ClausesCome(n.clauses, n.transform.None?) && TransformComes(n.transform)
    ensures var ts := SpellClauses(n.clauses, SpellTransform(n.transform, K(WEnd, rest)));
            ReadWord(WHandler, Lex(true, ts)) == Some((n, Lex(true, rest)))
  {
    var transform := SpellTransform(n.transform, K(WEnd, rest));
    TransformReads(n.transform, rest);
    ClausesStart(n.clauses, n.transform, rest);
    HandlerReads(n, Lex(true, SpellClauses(n.clauses, transform)), Lex(true, transform), Lex(true, rest));
  }

  lemma ClausesStart(cs: seq<Clause>, t: Option<Transform>, rest: List<Tok>)
    requires (cs != [] || t.Some?) && ClausesCome(cs, t.None?)
    ensures var ts := SpellClauses(cs, SpellTransform(t, K(WEnd, rest)));
            && Lex(true, ts).Cons? && (Lex(true, ts).head.EffectTok? || AtWord(Lex(true, ts), WTransform))
            && ReadClauses(Lex(true, ts)) == Some((cs, Lex(true, SpellTransform(t, K(WEnd, rest)))))
  {
    HeadStays(true, SpellClauses(cs, SpellTransform(t, K(WEnd, rest))));
  }

  lemma HandlerReads(n: Node, ts: List<Tok>, transform: List<Tok>, after: List<Tok>)
    requires n.Handler? && ts.Cons? && (ts.head.EffectTok? || AtWord(ts, WTransform)) && Apart(Effects(n.clauses))
    requires ReadClauses(ts) == Some((n.clauses, transform))
    requires ReadTransform(transform) == Some((n.transform, Cons(Keyword(WEnd), after)))
    ensures ReadWord(WHandler, ts) == Some((n, after))
  {
    assert ReadHandler(ts) == Some((n, after));
  }
}
