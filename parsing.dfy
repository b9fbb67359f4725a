/**
 * The token-level primitives every Kotlin parser is built from
 * (AbstractKotlinParsing): matching the current token against a type or a
 * set with soft-keyword remapping, expecting a token with error recovery,
 * skipping, error markers, and the bracket-aware look-ahead scan.
 * Each Java method on `myBuilder` becomes a method taking the builder.
 */
module AbstractKotlinParsing {
  import opened Wrappers
  import opened KtTokens
  import opened Recovery
  import opened PsiBuilder

  // ---------------------------------------------------------------------
  // SOFT_KEYWORD_TEXTS and the KEYWORDS sanity check
  // ---------------------------------------------------------------------

  lemma SoftSpellingsAreDistinct()
    ensures forall a: SoftKeyword, b: SoftKeyword | SoftSpelling(a) == SoftSpelling(b) :: a == b
  {
    forall a: SoftKeyword, b: SoftKeyword | SoftSpelling(a) == SoftSpelling(b)
      ensures a == b
    {
      SoftSpellingInjective(a, b);
    }
  }

  lemma AllSoftKeywordsListed()
    ensures forall k: SoftKeyword :: Soft(k) in SoftKeywords
  {
    forall k: SoftKeyword
      ensures Soft(k) in SoftKeywords
    {
      EverySoftKeywordIsListed(k);
    }
  }

  /** SOFT_KEYWORD_TEXTS: each soft keyword under its spelling. */
  function SoftKeywordTexts(): map<string, TokenKind>
  {
    SoftSpellingsAreDistinct();
    map k: SoftKeyword :: SoftSpelling(k) := Soft(k)
  }

  /** SOFT_KEYWORD_TEXTS.get(text), with `null` for a missing key or a null text. */
  function SoftKeywordOfText(text: Option<string>): Option<TokenKind>
  {
    if text.Some? && text.value in SoftKeywordTexts() then Some(SoftKeywordTexts()[text.value]) else None
  }

  lemma SoftKeywordTextsFind(k: SoftKeyword)
    ensures SoftSpelling(k) in SoftKeywordTexts() && SoftKeywordTexts()[SoftSpelling(k)] == Soft(k)
  {
    SoftSpellingsAreDistinct();
  }

  lemma SoftKeywordTextsSpell(text: string)
    requires text in SoftKeywordTexts()
    ensures SoftKeywordTexts()[text].Soft? && SoftSpelling(SoftKeywordTexts()[text].soft) == text
  {
    var k :| SoftSpelling(k) == text;
    SoftKeywordTextsFind(k);
  }

  /** The map is what the static initializer builds: every type of
      SOFT_KEYWORDS (each a soft keyword, as its assert checks) under its
      getValue(), and nothing else.  The HashMap is filled in set order;
      since the spellings are distinct, the order does not matter. */
  lemma SoftKeywordTextsHoldTheSoftKeywords()
    ensures forall t | t in SoftKeywords ::
              t.Soft? && KeywordValue(t) in SoftKeywordTexts() && SoftKeywordTexts()[KeywordValue(t)] == t
    ensures forall text | text in SoftKeywordTexts() :: SoftKeywordTexts()[text] in SoftKeywords
  {
    SoftKeywordsHoldOnlySoftKeywords();
    forall t | t in SoftKeywords
      ensures KeywordValue(t) in SoftKeywordTexts() && SoftKeywordTexts()[KeywordValue(t)] == t
    {
      SoftKeywordTextsFind(t.soft);
    }
    forall text | text in SoftKeywordTexts()
      ensures SoftKeywordTexts()[text] in SoftKeywords
    {
      SoftKeywordTextsSpell(text);
      EverySoftKeywordIsListed(SoftKeywordTexts()[text].soft);
    }
  }

  /** The lookup is exactly the inverse of getValue on soft keywords. */
  lemma SoftKeywordOfTextInverts(text: string, t: TokenKind)
    ensures SoftKeywordOfText(Some(text)) == Some(t) <==> t.Soft? && SoftSpelling(t.soft) == text
  {
    if t.Soft? && SoftSpelling(t.soft) == text {
      SoftKeywordTextsFind(t.soft);
    }
    if text in SoftKeywordTexts() {
      SoftKeywordTextsSpell(text);
    }
  }

  /** A text that spells no soft keyword finds nothing. */
  lemma SoftKeywordOfTextMisses(text: string)
    requires forall k: SoftKeyword :: SoftSpelling(k) != text
    ensures SoftKeywordOfText(Some(text)) == None
  {
  }

  // ---------------------------------------------------------------------
  // Side-effect-free matching: tokenMatches, _at, _atSet, eol
  // ---------------------------------------------------------------------

  /** The end of input, a semicolon or a preceding line break: what
      EOL_OR_SEMICOLON stands for. */
  predicate AtStatementEnd(c: Cursor)
  {
    c.token.None? || c.token == Some(Single(Semicolon)) || c.newlineBefore
  }

  /** tokenMatches(tt(), expectation), which is also _at(expectation). */
  predicate TokenMatches(c: Cursor, expectation: TokenKind)
  {
    c.token == Some(expectation) || (expectation == Plain(EolOrSemicolon) && AtStatementEnd(c))
  }

  /** _atSet(set); a `null` token is in no set. */
  predicate AtSetNoSideEffects(c: Cursor, s: set<TokenKind>)
  {
    (c.token.Some? && c.token.value in s) || (Plain(EolOrSemicolon) in s && AtStatementEnd(c))
  }

  /** eol(): a line break before the current token, or the end of input. */
  function Eol(c: Cursor): (r: bool)
    ensures r ==> TokenMatches(c, Plain(EolOrSemicolon))
    ensures TokenMatches(c, Plain(EolOrSemicolon)) <==>
              r || c.token == Some(Single(Semicolon)) || c.token == Some(Plain(EolOrSemicolon))
  {
    c.newlineBefore || c.token.None?
  }

  // ---------------------------------------------------------------------
  // at and atSet: matching with soft-keyword remapping
  // ---------------------------------------------------------------------

  /** The token type at() remaps the current token to, if any: an
      identifier spelled like the expected soft keyword becomes that
      keyword, and a soft keyword becomes an identifier when an identifier
      is expected. */
  function AtRemap(c: Cursor, expectation: TokenKind): Option<TokenKind>
  {
    if TokenMatches(c, expectation) then None
    else if c.token == Some(Plain(Identifier)) && expectation.Soft? && c.text == Some(SoftSpelling(expectation.soft)) then
      Some(expectation)
    else if expectation == Plain(Identifier) && c.token.Some? && c.token.value.Soft? then
      Some(Plain(Identifier))
    else None
  }

  /** The result of at(expectation). */
  predicate AtMatches(c: Cursor, expectation: TokenKind)
  {
    TokenMatches(c, expectation) || AtRemap(c, expectation).Some?
  }

  /** The token type atSet() remaps the current token to, if any: an
      identifier spelled like a soft keyword of the set becomes it, and a
      soft keyword becomes an identifier when the set holds IDENTIFIER. */
  function AtSetRemap(c: Cursor, s: set<TokenKind>): Option<TokenKind>
  {
    if AtSetNoSideEffects(c, s) then None
    else if c.token == Some(Plain(Identifier)) then
      var k := SoftKeywordOfText(c.text);
      if k.Some? && k.value in s then k else None
    else if Plain(Identifier) in s && c.token.Some? && c.token.value.Soft? then
      Some(Plain(Identifier))
    else None
  }

  /** The result of atSet(set). */
  predicate AtSetMatches(c: Cursor, s: set<TokenKind>)
  {
    AtSetNoSideEffects(c, s) || AtSetRemap(c, s).Some?
  }

  /** The cursor after the current token is given another type. */
  function Retyped(c: Cursor, t: Option<TokenKind>): Cursor
  {
    if t.Some? then c.(token := t) else c
  }

  /** The lexemes after an optional remapping of position `p`. */
  function RemappedAt(l: Lexemes, p: nat, t: Option<TokenKind>): Lexemes
  {
    if t.Some? then l.(remaps := l.remaps[p := t.value]) else l
  }

  /** What at() remaps to is a soft keyword or IDENTIFIER, never trivia,
      never a fixed keyword; a fixed keyword is never remapped. */
  lemma AtRemapsOnlySoftKeywordsAndIdentifiers(c: Cursor, expectation: TokenKind)
    ensures AtRemap(c, expectation).Some? ==>
              (AtRemap(c, expectation).value.Soft? || AtRemap(c, expectation).value == Plain(Identifier))
              && !IsTrivia(AtRemap(c, expectation).value)
              && c.token.Some? && (c.token.value == Plain(Identifier) || c.token.value.Soft?)
  {
  }

  /** The same for atSet(): it remaps only an identifier or a soft keyword,
      and only to a soft keyword or IDENTIFIER, so a fixed keyword is never
      demoted to an identifier. */
  lemma AtSetRemapsOnlySoftKeywordsAndIdentifiers(c: Cursor, s: set<TokenKind>)
    ensures AtSetRemap(c, s).Some? ==>
              (AtSetRemap(c, s).value.Soft? || AtSetRemap(c, s).value == Plain(Identifier))
              && !IsTrivia(AtSetRemap(c, s).value)
              && c.token.Some? && (c.token.value == Plain(Identifier) || c.token.value.Soft?)
  {
    if AtSetRemap(c, s).Some? && c.token == Some(Plain(Identifier)) {
      var k := SoftKeywordOfText(c.text);
      SoftKeywordOfTextInverts(c.text.value, k.value);
    }
  }

  /** at() makes its own match hold: once it has remapped, the
      side-effect-free test succeeds and a second at() changes nothing. */
  lemma AtIsIdempotent(c: Cursor, expectation: TokenKind)
    requires AtMatches(c, expectation)
    ensures TokenMatches(Retyped(c, AtRemap(c, expectation)), expectation)
    ensures AtRemap(Retyped(c, AtRemap(c, expectation)), expectation) == None
  {
  }

  /** atSet() makes its own match hold, and what it remaps to is in the set. */
  lemma AtSetIsIdempotent(c: Cursor, s: set<TokenKind>)
    requires AtSetMatches(c, s)
    ensures AtSetRemap(c, s).Some? ==> AtSetRemap(c, s).value in s
    ensures AtSetNoSideEffects(Retyped(c, AtSetRemap(c, s)), s)
    ensures AtSetRemap(Retyped(c, AtSetRemap(c, s)), s) == None
  {
  }

  /** at(t) and atSet({t}) agree: the same answer and the same remapping. */
  lemma AtIsAtSetOfOne(c: Cursor, t: TokenKind)
    ensures AtMatches(c, t) == AtSetMatches(c, {t})
    ensures AtRemap(c, t) == AtSetRemap(c, {t})
  {
    if !TokenMatches(c, t) && c.token == Some(Plain(Identifier)) && c.text.Some? {
      var k := SoftKeywordOfText(c.text);
      if t.Soft? {
        SoftKeywordOfTextInverts(c.text.value, t);
      }
      if k.Some? {
        SoftKeywordOfTextInverts(c.text.value, k.value);
      }
    }
  }

  /** at(EOL_OR_SEMICOLON) never remaps: EOL_OR_SEMICOLON is neither a
      keyword nor IDENTIFIER. */
  lemma AtStatementEndNeverRemaps(c: Cursor)
    ensures AtRemap(c, Plain(EolOrSemicolon)) == None
    ensures AtMatches(c, Plain(EolOrSemicolon)) == AtStatementEnd(c) || c.token == Some(Plain(EolOrSemicolon))
  {
  }

  /** The builder's fields other than the remap overlay are as before. */
  twostate predicate Unmoved(b: Builder)
    reads b
  {
    b.pos == old(b.pos) && b.open == old(b.open) && b.productions == old(b.productions)
    && b.nextId == old(b.nextId)
  }

  /** at(expectation) */
  method At(b: Builder, expectation: TokenKind) returns (r: bool)
    requires b.Valid()
    modifies b
    ensures b.Valid()
    ensures r == AtMatches(old(b.Current()), expectation)
    ensures b.lexemes == RemappedAt(old(b.lexemes), b.pos, AtRemap(old(b.Current()), expectation))
    ensures Unmoved(b)
  {
    var c := b.Current();
    if TokenMatches(c, expectation) {
      return true;
    }
    if c.token == Some(Plain(Identifier)) && expectation.Soft? {
      if c.text == Some(SoftSpelling(expectation.soft)) {
        b.RemapCurrentToken(expectation);
        return true;
      }
    }
    if expectation == Plain(Identifier) && c.token.Some? && c.token.value.Soft? {
      b.RemapCurrentToken(Plain(Identifier));
      return true;
    }
    return false;
  }

  /** atSet(set) */
  method AtSet(b: Builder, s: set<TokenKind>) returns (r: bool)
    requires b.Valid()
    modifies b
    ensures b.Valid()
    ensures r == AtSetMatches(old(b.Current()), s)
    ensures b.lexemes == RemappedAt(old(b.lexemes), b.pos, AtSetRemap(old(b.Current()), s))
    ensures Unmoved(b)
  {
    var c := b.Current();
    if AtSetNoSideEffects(c, s) {
      return true;
    }
    if c.token == Some(Plain(Identifier)) {
      var keywordToken := SoftKeywordOfText(c.text);
      if keywordToken.Some? && keywordToken.value in s {
        SoftKeywordOfTextInverts(c.text.value, keywordToken.value);
        b.RemapCurrentToken(keywordToken.value);
        return true;
      }
    } else if Plain(Identifier) in s && c.token.Some? && c.token.value.Soft? {
      b.RemapCurrentToken(Plain(Identifier));
      return true;
    }
    return false;
  }

  // ---------------------------------------------------------------------
  // Consuming tokens
  // ---------------------------------------------------------------------

  /** advance(advanceTokenCount): advanceLexer that many times (none when
      the count is not positive). */
  method Advance(b: Builder, advanceTokenCount: int)
    requires b.Valid()
    modifies b
    ensures b.Valid()
    ensures b.pos == old(b.lexemes.AdvanceN(b.pos, advanceTokenCount))
    ensures b.lexemes == old(b.lexemes) && b.open == old(b.open) && b.productions == old(b.productions)
    ensures b.nextId == old(b.nextId)
  {
    var i := 0;
    while i < advanceTokenCount
      invariant b.Valid()
      invariant 0 <= i <= if advanceTokenCount < 0 then 0 else advanceTokenCount
      invariant b.lexemes.AdvanceN(b.pos, advanceTokenCount - i) == old(b.lexemes.AdvanceN(b.pos, advanceTokenCount))
      invariant b.lexemes == old(b.lexemes) && b.open == old(b.open) && b.productions == old(b.productions)
      invariant b.nextId == old(b.nextId)
      decreases advanceTokenCount - i
    {
      b.AdvanceLexer();
      i := i + 1;
    }
  }

  /** Advancing stops only at the end of input: n steps from a token with at
      least n tokens after it (itself included) move n tokens on. */
  lemma {:induction false} AdvanceNStaysBeforeEnd(l: Lexemes, p: nat, n: nat)
    requires l.AtLexeme(p)
    ensures l.AdvanceN(p, n) == |l.kinds| || l.AdvanceN(p, n) >= p + n
    decreases n
  {
    if n > 0 {
      AdvanceNStaysBeforeEnd(l, l.Advanced(p), n - 1);
    }
  }

  /** advanceAt(current): the caller asserts _at(current). */
  method AdvanceAt(b: Builder, current: TokenKind)
    requires b.Valid() && TokenMatches(b.Current(), current)
    modifies b
    ensures b.Valid()
    ensures b.pos == old(b.lexemes.Advanced(b.pos))
    ensures b.lexemes == old(b.lexemes) && b.open == old(b.open) && b.productions == old(b.productions)
    ensures b.nextId == old(b.nextId)
  {
    b.AdvanceLexer();
  }

  /** consumeIf(token): at(token), then advance over it. */
  method ConsumeIf(b: Builder, token: TokenKind) returns (r: bool)
    requires b.Valid()
    modifies b
    ensures b.Valid()
    ensures r == AtMatches(old(b.Current()), token)
    ensures b.lexemes == RemappedAt(old(b.lexemes), old(b.pos), AtRemap(old(b.Current()), token))
    ensures b.pos == if r then old(b.lexemes.Advanced(b.pos)) else old(b.pos)
    ensures b.open == old(b.open) && b.productions == old(b.productions) && b.nextId == old(b.nextId)
  {
    r := At(b, token);
    if r {
      b.AdvanceLexer();
    }
  }

  /** Where expect(expectation) leaves the cursor when at() fails: past a
      lone backtick where an identifier is expected, else where it was. */
  function MissPos(l: Lexemes, p: nat, expectation: TokenKind): (q: nat)
    requires l.WellFormed() && l.AtLexeme(p)
    ensures l.AtLexeme(q) && p <= q
  {
    if expectation == Plain(Identifier) && l.CursorAt(p).text == Some("`") then l.Advanced(p) else p
  }

  /** expect(expectation): at(expectation) and advance; a lone backtick where
      an identifier is expected is skipped but still fails. */
  method Expect(b: Builder, expectation: TokenKind) returns (r: bool)
    requires b.Valid()
    modifies b
    ensures b.Valid()
    ensures r == AtMatches(old(b.Current()), expectation)
    ensures b.lexemes == RemappedAt(old(b.lexemes), old(b.pos), AtRemap(old(b.Current()), expectation))
    ensures b.pos == if r || (expectation == Plain(Identifier) && old(b.Current()).text == Some("`"))
                     then old(b.lexemes.Advanced(b.pos)) else old(b.pos)
    ensures b.open == old(b.open) && b.productions == old(b.productions) && b.nextId == old(b.nextId)
  {
    r := At(b, expectation);
    if r {
      b.AdvanceLexer();
      return;
    }
    if expectation == Plain(Identifier) && b.Current().text == Some("`") {
      b.AdvanceLexer();
    }
  }

  /** expectNoAdvance(expectation, message): on a miss, an empty error node
      and no movement. */
  method ExpectNoAdvance(b: Builder, expectation: TokenKind, message: Option<string>)
    requires b.Valid()
    modifies b
    ensures b.Valid()
    ensures b.lexemes == RemappedAt(old(b.lexemes), old(b.pos), AtRemap(old(b.Current()), expectation))
    ensures AtMatches(old(b.Current()), expectation) ==>
              b.pos == old(b.lexemes.Advanced(b.pos)) && b.productions == old(b.productions)
    ensures !AtMatches(old(b.Current()), expectation) ==>
              b.pos == old(b.pos) && b.productions == old(b.productions) + [ErrorNode(message, b.pos, b.pos)]
    ensures b.open == old(b.open) && b.nextId == old(b.nextId)
  {
    var matched := At(b, expectation);
    if matched {
      b.AdvanceLexer();
      return;
    }
    b.ErrorHere(message);
  }

  // ---------------------------------------------------------------------
  // Error reporting and recovery
  // ---------------------------------------------------------------------

  /** errorAndAdvance(message, advanceTokenCount): an error node over the
      skipped tokens. */
  method ErrorAndAdvance(b: Builder, message: Option<string>, advanceTokenCount: int)
    requires b.Valid()
    modifies b
    ensures b.Valid()
    ensures b.pos == old(b.lexemes.AdvanceN(b.pos, advanceTokenCount))
    ensures b.productions == old(b.productions) + [ErrorNode(message, old(b.pos), b.pos)]
    ensures b.lexemes == old(b.lexemes) && b.open == old(b.open) && b.nextId == old(b.nextId) + 1
  {
    var err := b.Mark();
    Advance(b, advanceTokenCount);
    b.Error(err, message);
  }

  /** Whether errorWithRecovery reports in place rather than consuming the
      offending token: no recovery set, the token is in it, a brace, or the
      set stops at statement ends and one is here. */
  predicate RecoversInPlace(c: Cursor, recoverySet: Option<set<TokenKind>>)
  {
    || recoverySet.None?
    || (c.token.Some? && c.token.value in recoverySet.value)
    || c.token == Some(Single(LBrace)) || c.token == Some(Single(RBrace))
    || (Plain(EolOrSemicolon) in recoverySet.value && AtStatementEnd(c))
  }

  /** With a recovery set, errorWithRecovery stays exactly where _atSet of the
      set holds, or at a brace. */
  lemma RecoversInPlaceIsAtSetOrBrace(c: Cursor, s: set<TokenKind>)
    ensures RecoversInPlace(c, Some(s)) <==>
              AtSetNoSideEffects(c, s) || c.token == Some(Single(LBrace)) || c.token == Some(Single(RBrace))
  {
  }

  /** errorWithRecovery(message, recoverySet) */
  method ErrorWithRecovery(b: Builder, message: Option<string>, recoverySet: Option<set<TokenKind>>)
    requires b.Valid()
    modifies b
    ensures b.Valid()
    ensures RecoversInPlace(old(b.Current()), recoverySet) ==>
              b.pos == old(b.pos) && b.productions == old(b.productions) + [ErrorNode(message, b.pos, b.pos)]
              && b.nextId == old(b.nextId)
    ensures !RecoversInPlace(old(b.Current()), recoverySet) ==>
              b.pos == old(b.lexemes.Advanced(b.pos))
              && b.productions == old(b.productions) + [ErrorNode(message, old(b.pos), b.pos)]
              && b.nextId == old(b.nextId) + 1
    ensures b.lexemes == old(b.lexemes) && b.open == old(b.open)
  {
    if RecoversInPlace(b.Current(), recoverySet) {
      b.ErrorHere(message);
    } else {
      ErrorAndAdvance(b, message, 1);
    }
  }

  /** The recovery set expect() uses: the caller's set, else the table's. */
  function RecoverySetFor(r: RecoveryMessageType, recoveryTokens: Option<set<TokenKind>>, g: GrammarSets)
    : Result<Option<set<TokenKind>>, UnknownRecoverySetType>
  {
    if recoveryTokens.Some? then Ok(recoveryTokens) else RecoveryTokenSet(r, g)
  }

  /** Recovery stays in place exactly when the table has no set for the
      message type or the current token is in the table's set. */
  lemma TableRecoveryStaysInPlace(c: Cursor, r: RecoveryMessageType, g: GrammarSets)
    requires r !in Unlisted
    requires c.token.Some? && c.token.value !in {Single(LBrace), Single(RBrace)} && !c.newlineBefore
    requires c.token.value != Single(Semicolon)
    ensures RecoverySetFor(r, None, g).Ok?
    ensures RecoversInPlace(c, RecoverySetFor(r, None, g).value) <==>
              r in ReportInPlace || c.token.value in RecoverySetFor(r, None, g).value.value
  {
    TableThrowsExactlyForUnlisted(r, g);
    TableReportsInPlaceExactly(r, g);
  }

  /** expect(expectation, recoveryMessageType, recoveryTokens); the
      two-argument overload is recoveryTokens == None.  A message type the
      table does not list with no caller set is the IllegalStateException. */
  method ExpectWithRecovery(b: Builder, expectation: TokenKind, recoveryMessageType: RecoveryMessageType,
                            recoveryTokens: Option<set<TokenKind>>, g: GrammarSets)
    returns (r: Result<bool, UnknownRecoverySetType>)
    requires b.Valid()
    modifies b
    ensures b.Valid()
    ensures b.lexemes == RemappedAt(old(b.lexemes), old(b.pos), AtRemap(old(b.Current()), expectation))
    ensures AtMatches(old(b.Current()), expectation) ==>
              r == Ok(true) && b.pos == old(b.lexemes.Advanced(b.pos)) && b.productions == old(b.productions)
    ensures !AtMatches(old(b.Current()), expectation) &&
            RecoverySetFor(recoveryMessageType, recoveryTokens, g).Err? ==>
              r == Err(RecoverySetFor(recoveryMessageType, recoveryTokens, g).error)
              && b.pos == MissPos(old(b.lexemes), old(b.pos), expectation)
              && b.productions == old(b.productions)
    ensures !AtMatches(old(b.Current()), expectation) &&
            RecoverySetFor(recoveryMessageType, recoveryTokens, g).Ok? ==>
              var p1 := MissPos(old(b.lexemes), old(b.pos), expectation);
              var tokens := RecoverySetFor(recoveryMessageType, recoveryTokens, g).value;
              && r == Ok(false)
              && (RecoversInPlace(b.lexemes.CursorAt(p1), tokens) ==>
                    b.pos == p1 && b.productions == old(b.productions) + [ErrorNode(Message(recoveryMessageType), p1, p1)])
              && (!RecoversInPlace(b.lexemes.CursorAt(p1), tokens) ==>
                    b.pos == b.lexemes.Advanced(p1)
                    && b.productions == old(b.productions) + [ErrorNode(Message(recoveryMessageType), p1, b.pos)])
    ensures b.open == old(b.open)
  {
    var matched := Expect(b, expectation);
    if matched {
      return Ok(true);
    }
    var tokens := RecoverySetFor(recoveryMessageType, recoveryTokens, g);
    if tokens.Err? {
      return Err(tokens.error);
    }
    ErrorWithRecovery(b, Message(recoveryMessageType), tokens.value);
    return Ok(false);
  }

  /** Where skipUntil stops when started at `p`: the end, a token of the
      set, or a statement end when the set holds EOL_OR_SEMICOLON. */
  predicate SkipStopsAt(l: Lexemes, p: nat, s: set<TokenKind>)
    requires l.WellFormed() && p <= |l.kinds|
  {
    p == |l.kinds| || l.KindAt(p) in s || (Plain(EolOrSemicolon) in s && AtMatches(l.CursorAt(p), Plain(EolOrSemicolon)))
  }

  /** The first position from `p` on where skipUntil stops; every token
      before it fails the stop test. */
  function SkipTarget(l: Lexemes, p: nat, s: set<TokenKind>): (q: nat)
    requires l.WellFormed() && l.AtLexeme(p)
    ensures p <= q && l.AtLexeme(q) && SkipStopsAt(l, q, s)
    ensures forall k | p <= k < q && !IsTrivia(l.kinds[k]) :: !SkipStopsAt(l, k, s)
    decreases |l.kinds| - p
  {
    if SkipStopsAt(l, p, s) then p else SkipTarget(l, l.NextPos(p), s)
  }

  /** skipUntil(tokenSet) */
  method SkipUntil(b: Builder, tokenSet: set<TokenKind>)
    requires b.Valid()
    modifies b
    ensures b.Valid()
    ensures b.pos == old(SkipTarget(b.lexemes, b.pos, tokenSet))
    ensures b.lexemes == old(b.lexemes) && b.open == old(b.open) && b.productions == old(b.productions)
    ensures b.nextId == old(b.nextId)
  {
    var stopAtEolOrSemi := Plain(EolOrSemicolon) in tokenSet;
    while true
      invariant b.Valid()
      invariant SkipTarget(b.lexemes, b.pos, tokenSet) == old(SkipTarget(b.lexemes, b.pos, tokenSet))
      invariant b.lexemes == old(b.lexemes) && b.open == old(b.open) && b.productions == old(b.productions)
      invariant b.nextId == old(b.nextId)
      decreases |b.lexemes.kinds| - b.pos
    {
      if b.Eof() || b.Current().token.value in tokenSet {
        break;
      }
      if stopAtEolOrSemi {
        AtStatementEndNeverRemaps(b.Current());
        var atEnd := At(b, Plain(EolOrSemicolon));
        if atEnd {
          break;
        }
      }
      b.AdvanceLexer();
    }
  }

  /** errorUntil(message, tokenSet): an error node over the skipped tokens.
      The set must hold both braces, so the node never swallows one. */
  method ErrorUntil(b: Builder, message: Option<string>, tokenSet: set<TokenKind>)
    requires b.Valid()
    requires Single(LBrace) in tokenSet && Single(RBrace) in tokenSet
    modifies b
    ensures b.Valid()
    ensures b.pos == old(SkipTarget(b.lexemes, b.pos, tokenSet))
    ensures b.productions == old(b.productions) + [ErrorNode(message, old(b.pos), b.pos)]
    ensures forall k | old(b.pos) <= k < b.pos && !IsTrivia(b.lexemes.kinds[k]) ::
              b.lexemes.KindAt(k) != Single(LBrace) && b.lexemes.KindAt(k) != Single(RBrace)
    ensures b.lexemes == old(b.lexemes) && b.open == old(b.open) && b.nextId == old(b.nextId) + 1
  {
    var error := b.Mark();
    SkipUntil(b, tokenSet);
    b.Error(error, message);
  }

  /** errorIf(marker, condition, message) */
  method ErrorIf(b: Builder, marker: Marker, condition: bool, message: Option<string>)
    requires b.Valid() && b.IsInnermost(marker)
    modifies b
    ensures b.Valid()
    ensures b.open == old(b.open[..|b.open| - 1])
    ensures b.productions == old(b.productions) +
              if condition then [ErrorNode(message, old(b.Innermost()).start, b.pos)] else []
    ensures b.lexemes == old(b.lexemes) && b.pos == old(b.pos) && b.nextId == old(b.nextId)
  {
    if condition {
      b.Error(marker, message);
    } else {
      b.Drop(marker);
    }
  }

  /** OptionalMarker: a marker that may not exist, and that never makes an
      error node over no text. */
  class OptionalMarker {
    const builder: Builder
    const marker: Option<Marker>
    const offset: nat

    constructor(b: Builder, actuallyMark: bool)
      requires b.Valid()
      modifies b
      ensures b.Valid()
      ensures builder == b && offset == b.CurrentOffset()
      ensures actuallyMark ==> marker.Some? && b.IsInnermost(marker.value)
                               && b.open == old(b.open) + [OpenMarker(marker.value.id, b.pos, |b.productions|)]
                               && b.nextId == old(b.nextId) + 1
      ensures !actuallyMark ==> marker.None? && b.open == old(b.open) && b.nextId == old(b.nextId)
      ensures b.lexemes == old(b.lexemes) && b.pos == old(b.pos) && b.productions == old(b.productions)
      ensures Ready()
    {
      builder := b;
      if actuallyMark {
        var m := b.Mark();
        marker := Some(m);
      } else {
        marker := None;
      }
      offset := b.CurrentOffset();
    }

    /** The marker, when there is one, is the builder's innermost, and
        `offset` is the text offset at which it was made. */
    predicate Ready()
      reads this, builder
    {
      && builder.Valid()
      && (marker.Some? ==> builder.IsInnermost(marker.value)
                           && offset == OffsetOf(builder.lexemes.texts, builder.Innermost().start))
    }

    method Done(elementType: string)
      requires Ready()
      modifies builder
      ensures builder.Valid()
      ensures marker.None? ==> unchanged(builder)
      ensures marker.Some? ==>
                builder.productions == old(builder.productions) + [Node(elementType, old(builder.Innermost()).start, builder.pos)]
                && builder.open == old(builder.open[..|builder.open| - 1])
      ensures builder.lexemes == old(builder.lexemes) && builder.pos == old(builder.pos)
    {
      if marker.None? {
        return;
      }
      builder.Done(marker.value, elementType);
    }

    /** error(message): dropped instead when nothing was consumed since the
        marker was made ("no empty errors"). */
    method Error(message: Option<string>)
      requires Ready()
      modifies builder
      ensures builder.Valid()
      ensures marker.None? ==> unchanged(builder)
      ensures marker.Some? ==> builder.open == old(builder.open[..|builder.open| - 1])
      ensures marker.Some? && offset == old(builder.CurrentOffset()) ==> builder.productions == old(builder.productions)
      ensures marker.Some? && offset != old(builder.CurrentOffset()) ==>
                builder.productions == old(builder.productions) + [ErrorNode(message, old(builder.Innermost()).start, builder.pos)]
                && OffsetOf(builder.lexemes.texts, builder.pos) != offset
                && old(builder.Innermost()).start < builder.pos
      ensures builder.lexemes == old(builder.lexemes) && builder.pos == old(builder.pos)
    {
      if marker.None? {
        return;
      }
      if offset == builder.CurrentOffset() {
        builder.Drop(marker.value);
      } else {
        builder.Error(marker.value, message);
      }
    }

    method Drop()
      requires Ready()
      modifies builder
      ensures builder.Valid()
      ensures marker.None? ==> unchanged(builder)
      ensures marker.Some? ==> builder.open == old(builder.open[..|builder.open| - 1])
      ensures builder.productions == old(builder.productions)
      ensures builder.lexemes == old(builder.lexemes) && builder.pos == old(builder.pos)
    {
      if marker.None? {
        return;
      }
      builder.Drop(marker.value);
    }
  }

  // ---------------------------------------------------------------------
  // getLastToken
  // ---------------------------------------------------------------------

  /** The number of raw steps back from the cursor at `pos` that
      getLastToken's loop ends at, starting from `i`: it steps over
      whitespace and comments, but never further back than the character
      offset of the cursor. */
  function LastTokenSteps(l: Lexemes, pos: nat, i: nat): (j: nat)
    requires pos <= |l.texts|
    ensures i <= j
    decreases OffsetOf(l.texts, pos) + 1 - i
  {
    if i <= OffsetOf(l.texts, pos) && l.RawLookBack(pos, i).Some? && IsTrivia(l.RawLookBack(pos, i).value)
    then LastTokenSteps(l, pos, i + 1) else i
  }

  /** getLastToken() */
  method GetLastToken(b: Builder) returns (r: Option<TokenKind>)
    requires b.Valid()
    ensures r == b.lexemes.RawLookBack(b.pos, LastTokenSteps(b.lexemes, b.pos, 1))
  {
    var i := 1;
    var currentOffset := b.CurrentOffset();
    while i <= currentOffset && b.lexemes.RawLookBack(b.pos, i).Some?
          && b.lexemes.RawLookBack(b.pos, i).value in WhiteSpaceOrCommentBitSet
      invariant 1 <= i <= currentOffset + 1
      invariant LastTokenSteps(b.lexemes, b.pos, i) == LastTokenSteps(b.lexemes, b.pos, 1)
      decreases currentOffset + 1 - i
    {
      i := i + 1;
    }
    r := b.lexemes.RawLookBack(b.pos, i);
  }

  lemma {:induction false} OffsetCoversIndex(texts: seq<string>, i: nat)
    requires i <= |texts|
    requires forall k | 0 <= k < |texts| :: |texts[k]| > 0
    ensures i <= OffsetOf(texts, i)
  {
    if i > 0 {
      OffsetCoversIndex(texts, i - 1);
    }
  }

  lemma {:induction false} LastTokenStepsFrom(l: Lexemes, pos: nat, i: nat)
    requires l.WellFormed() && pos <= |l.kinds| && 1 <= i <= pos + 1
    requires pos <= OffsetOf(l.texts, pos)
    requires forall k | pos - i < k < pos :: IsTrivia(l.kinds[k])
    ensures i <= LastTokenSteps(l, pos, i) <= pos + 1
    ensures forall k | pos - LastTokenSteps(l, pos, i) < k < pos :: IsTrivia(l.kinds[k])
    ensures LastTokenSteps(l, pos, i) <= pos ==> !IsTrivia(l.kinds[pos - LastTokenSteps(l, pos, i)])
    decreases pos + 1 - i
  {
    if i <= pos {
      var k := pos - i;
      assert l.RawLookBack(pos, i) == Some(l.KindAt(k));
      assert IsTrivia(l.KindAt(k)) == IsTrivia(l.kinds[k]);
      if IsTrivia(l.kinds[k]) {
        LastTokenStepsFrom(l, pos, i + 1);
      }
    }
  }

  /** When every lexeme has text, getLastToken is the type of the nearest
      lexeme before the cursor that is not whitespace or a comment, and
      `null` when there is none. */
  lemma LastTokenIsPrecedingCode(l: Lexemes, pos: nat)
    requires l.WellFormed() && pos <= |l.kinds|
    requires forall k | 0 <= k < |l.texts| :: |l.texts[k]| > 0
    ensures l.RawLookBack(pos, LastTokenSteps(l, pos, 1)).None? <==> forall k | 0 <= k < pos :: IsTrivia(l.kinds[k])
    ensures l.RawLookBack(pos, LastTokenSteps(l, pos, 1)).Some? ==>
              exists j | 0 <= j < pos ::
                l.RawLookBack(pos, LastTokenSteps(l, pos, 1)) == Some(l.KindAt(j)) && !IsTrivia(l.kinds[j])
                && forall k | j < k < pos :: IsTrivia(l.kinds[k])
  {
    OffsetCoversIndex(l.texts, pos);
    LastTokenStepsFrom(l, pos, 1);
    var j := LastTokenSteps(l, pos, 1);
    if j <= pos {
      assert l.RawLookBack(pos, j) == Some(l.KindAt(pos - j));
    }
  }

  // ---------------------------------------------------------------------
  // The look-ahead scan: matchTokenStreamPredicate, At and AtSet
  // ---------------------------------------------------------------------

  /** A token stream pattern: its state, what it does with each token (given
      the offset, whether the scan is at top level, and the token), what it
      does with an unmatched `)`, when a position counts as top level (from
      the open `<`, `[`, `{` and `(` counts), and its result. */
  datatype TokenStreamPattern<!S> = TokenStreamPattern(
    processToken: (S, nat, bool, Cursor) -> (S, bool),
    handleUnmatchedClosing: (S, TokenKind) -> (S, bool),
    isTopLevel: (int, int, int, int) -> bool,
    result: S -> int)

  /** The open-bracket stack after a closing `)`: popped unless empty. */
  function Popped(opens: seq<TokenKind>): seq<TokenKind>
  {
    if |opens| == 0 then opens else opens[..|opens| - 1]
  }

  /** Whether a `)` is unmatched: the stack is empty or its top is not `(`. */
  predicate UnmatchedRPar(opens: seq<TokenKind>)
  {
    |opens| == 0 || opens[|opens| - 1] != Single(LPar)
  }

  /** The bracket bookkeeping of matchTokenStreamPredicate: the pattern
      state, the open `<`, `{`, `(` and `[` counts, and the stack of openers. */
  datatype ScanState<S> = ScanState(s: S, angle: int, braces: int, parens: int, brackets: int,
                                    opens: seq<TokenKind>)

  /** What one token does to the bookkeeping once the pattern has seen it,
      and whether the pattern asks to stop (only on an unmatched `)`). */
  function TrackBracket<S>(pattern: TokenStreamPattern<S>, st: ScanState<S>, t: TokenKind): (ScanState<S>, bool)
  {
    if t == Single(LPar) then (st.(parens := st.parens + 1, opens := st.opens + [t]), false)
    else if t == Single(Lt) then (st.(angle := st.angle + 1, opens := st.opens + [t]), false)
    else if t == Single(LBrace) then (st.(braces := st.braces + 1, opens := st.opens + [t]), false)
    else if t == Single(LBracket) then (st.(brackets := st.brackets + 1, opens := st.opens + [t]), false)
    else if t == Single(RPar) then
      var closed := st.(parens := st.parens - 1, opens := Popped(st.opens));
      if UnmatchedRPar(st.opens) then
        var (s2, stop) := pattern.handleUnmatchedClosing(st.s, t);
        (closed.(s := s2), stop)
      else (closed, false)
    else if t == Single(Gt) then (st.(angle := st.angle - 1), false)
    else if t == Single(RBrace) then (st.(braces := st.braces - 1), false)
    else if t == Single(RBracket) then (st.(brackets := st.brackets - 1), false)
    else (st, false)
  }

  /** The pattern state the scan of matchTokenStreamPredicate ends in, from
      position `p` with the given bookkeeping. */
  function Scan<S>(l: Lexemes, pattern: TokenStreamPattern<S>, st: ScanState<S>, p: nat): S
    requires l.WellFormed() && l.AtLexeme(p)
    decreases |l.kinds| - p
  {
    if p == |l.kinds| then st.s
    else
      var (s1, stop) := pattern.processToken(st.s, OffsetOf(l.texts, p),
                                             pattern.isTopLevel(st.angle, st.brackets, st.braces, st.parens),
                                             l.CursorAt(p));
      if stop then s1
      else
        var (st2, stop2) := TrackBracket(pattern, st.(s := s1), l.KindAt(p));
        if stop2 then st2.s else Scan(l, pattern, st2, l.NextPos(p))
  }

  /** One step of the scan at a lexeme before the end. */
  lemma ScanStep<S>(l: Lexemes, pattern: TokenStreamPattern<S>, st: ScanState<S>, p: nat)
    requires l.WellFormed() && l.AtLexeme(p) && p < |l.kinds|
    ensures var processed := pattern.processToken(st.s, OffsetOf(l.texts, p),
                                                  pattern.isTopLevel(st.angle, st.brackets, st.braces, st.parens),
                                                  l.CursorAt(p));
            var tracked := TrackBracket(pattern, st.(s := processed.0), l.KindAt(p));
            Scan(l, pattern, st, p) ==
              if processed.1 then processed.0
              else if tracked.1 then tracked.0.s
              else Scan(l, pattern, tracked.0, l.NextPos(p))
  {
  }

  /** at(t) for a punctuation token never remaps and is plain equality. */
  lemma AtPunctuation(c: Cursor, p: Punctuation)
    ensures AtRemap(c, Single(p)) == None
    ensures AtMatches(c, Single(p)) == (c.token == Some(Single(p)))
  {
  }

  /** at(t) for a bracket token: plain equality on the token type. */
  method AtBracket(b: Builder, p: Punctuation) returns (r: bool)
    requires b.Valid() && !b.Eof()
    modifies b
    ensures b.Valid()
    ensures r == (old(b.lexemes.KindAt(b.pos)) == Single(p))
    ensures b.lexemes == old(b.lexemes) && Unmoved(b)
  {
    AtPunctuation(b.Current(), p);
    r := At(b, Single(p));
  }

  /** The chain of at() tests on brackets in the body of the scan loop. */
  method TrackCurrentBracket<S>(b: Builder, pattern: TokenStreamPattern<S>, st: ScanState<S>)
    returns (st2: ScanState<S>, stop: bool)
    requires b.Valid() && !b.Eof()
    modifies b
    ensures b.Valid()
    ensures (st2, stop) == TrackBracket(pattern, st, old(b.lexemes.KindAt(b.pos)))
    ensures b.lexemes == old(b.lexemes) && Unmoved(b)
  {
    st2, stop := st, false;
    var atLPar := AtBracket(b, LPar);
    if atLPar {
      st2 := st.(parens := st.parens + 1, opens := st.opens + [Single(LPar)]);
      return;
    }
    var atLt := AtBracket(b, Lt);
    if atLt {
      st2 := st.(angle := st.angle + 1, opens := st.opens + [Single(Lt)]);
      return;
    }
    var atLBrace := AtBracket(b, LBrace);
    if atLBrace {
      st2 := st.(braces := st.braces + 1, opens := st.opens + [Single(LBrace)]);
      return;
    }
    var atLBracket := AtBracket(b, LBracket);
    if atLBracket {
      st2 := st.(brackets := st.brackets + 1, opens := st.opens + [Single(LBracket)]);
      return;
    }
    var atRPar := AtBracket(b, RPar);
    if atRPar {
      st2 := st.(parens := st.parens - 1, opens := Popped(st.opens));
      if UnmatchedRPar(st.opens) {
        var handled := pattern.handleUnmatchedClosing(st.s, Single(RPar));
        st2 := st2.(s := handled.0);
        stop := handled.1;
      }
      return;
    }
    var atGt := AtBracket(b, Gt);
    if atGt {
      st2 := st.(angle := st.angle - 1);
      return;
    }
    var atRBrace := AtBracket(b, RBrace);
    if atRBrace {
      st2 := st.(braces := st.braces - 1);
      return;
    }
    var atRBracket := AtBracket(b, RBracket);
    if atRBracket {
      st2 := st.(brackets := st.brackets - 1);
    }
  }

  /** The loop of matchTokenStreamPredicate: feeds the lexemes from the
      cursor to the pattern until it, or the bracket bookkeeping, stops; the
      cursor is left where the scan stopped. */
  method ScanTokens<S>(b: Builder, pattern: TokenStreamPattern<S>, st0: ScanState<S>) returns (state: S)
    requires b.Valid()
    modifies b
    ensures b.Valid()
    ensures state == old(Scan(b.lexemes, pattern, st0, b.pos))
    ensures b.lexemes == old(b.lexemes) && b.open == old(b.open)
    ensures b.productions == old(b.productions) && b.nextId == old(b.nextId)
  {
    ghost var target := Scan(b.lexemes, pattern, st0, b.pos);
    var st := st0;
    while !b.Eof()
      invariant b.Valid()
      invariant b.lexemes == old(b.lexemes) && b.open == old(b.open)
      invariant b.productions == old(b.productions) && b.nextId == old(b.nextId)
      invariant Scan(b.lexemes, pattern, st, b.pos) == target
      decreases |b.lexemes.kinds| - b.pos
    {
      ScanStep(b.lexemes, pattern, st, b.pos);
      var processed := pattern.processToken(st.s, b.CurrentOffset(),
                                            pattern.isTopLevel(st.angle, st.brackets, st.braces, st.parens),
                                            b.Current());
      st := st.(s := processed.0);
      if processed.1 {
        return st.s;
      }
      var stop;
      st, stop := TrackCurrentBracket(b, pattern, st);
      if stop {
        return st.s;
      }
      b.AdvanceLexer();
    }
    state := st.s;
  }

  /** matchTokenStreamPredicate: runs the scan from the cursor under a marker
      and rolls back, so the cursor, the markers and the productions are as
      they were (but for one more marker id spent); the result is the
      pattern's verdict on its final state.  The pattern here is a pure
      function of each token, so the scan itself makes no remaps; a pattern
      that calls at()/atSet() while scanning is not covered. */
  method MatchTokenStreamPredicate<S>(b: Builder, pattern: TokenStreamPattern<S>, initial: S)
    returns (state: S, r: int)
    requires b.Valid()
    modifies b
    ensures b.Valid()
    ensures state == old(Scan(b.lexemes, pattern, ScanState(initial, 0, 0, 0, 0, []), b.pos))
    ensures r == pattern.result(state)
    ensures b.lexemes == old(b.lexemes) && b.pos == old(b.pos) && b.open == old(b.open)
    ensures b.productions == old(b.productions) && b.nextId == old(b.nextId) + 1
  {
    var currentPosition := b.Mark();
    state := ScanTokens(b, pattern, ScanState(initial, 0, 0, 0, 0, []));
    b.RollbackTo(currentPosition);
    r := pattern.result(state);
  }

  /** The At and AtSet stream predicates. */
  datatype TokenStreamPredicate =
    | AtPredicate(lookFor: TokenKind, topLevelOnly: bool)
    | AtSetPredicate(lookForSet: set<TokenKind>, topLevelOnlySet: set<TokenKind>)

  /** new At(lookFor): top level only. */
  function At1(lookFor: TokenKind): TokenStreamPredicate
  {
    AtPredicate(lookFor, true)
  }

  /** new AtSet(lookFor): the same set for both roles. */
  function AtSet1(lookFor: set<TokenKind>): TokenStreamPredicate
  {
    AtSetPredicate(lookFor, lookFor)
  }

  /** The result of matching(topLevel). */
  predicate PredicateMatches(c: Cursor, p: TokenStreamPredicate, topLevel: bool)
  {
    match p
    case AtPredicate(lookFor, topLevelOnly) => (topLevel || !topLevelOnly) && AtMatches(c, lookFor)
    case AtSetPredicate(lookFor, topLevelOnly) =>
      (topLevel || !AtSetMatches(c, topLevelOnly)) && AtSetMatches(c, lookFor)
  }

  /** The remapping matching(topLevel) performs: by the first at/atSet call
      that is evaluated and succeeds. */
  function PredicateRemap(c: Cursor, p: TokenStreamPredicate, topLevel: bool): Option<TokenKind>
  {
    match p
    case AtPredicate(lookFor, topLevelOnly) =>
      if topLevel || !topLevelOnly then AtRemap(c, lookFor) else None
    case AtSetPredicate(lookFor, topLevelOnly) =>
      if topLevel then AtSetRemap(c, lookFor)
      else if AtSetMatches(c, topLevelOnly) then AtSetRemap(c, topLevelOnly)
      else AtSetRemap(c, lookFor)
  }

  /** A predicate built without a separate top-level set (new At(t),
      new AtSet(s)) matches only at top level. */
  lemma DefaultPredicatesMatchOnlyAtTopLevel(c: Cursor, t: TokenKind, s: set<TokenKind>)
    ensures !PredicateMatches(c, At1(t), false)
    ensures !PredicateMatches(c, AtSet1(s), false)
    ensures PredicateMatches(c, At1(t), true) == AtMatches(c, t)
    ensures PredicateMatches(c, AtSet1(s), true) == AtSetMatches(c, s)
  {
  }

  /** At.matching / AtSet.matching(topLevel) */
  method Matching(b: Builder, p: TokenStreamPredicate, topLevel: bool) returns (r: bool)
    requires b.Valid()
    modifies b
    ensures b.Valid()
    ensures r == PredicateMatches(old(b.Current()), p, topLevel)
    ensures b.lexemes == RemappedAt(old(b.lexemes), b.pos, PredicateRemap(old(b.Current()), p, topLevel))
    ensures Unmoved(b)
  {
    match p
    case AtPredicate(lookFor, topLevelOnly) =>
      if topLevel || !topLevelOnly {
        r := At(b, lookFor);
      } else {
        r := false;
      }
    case AtSetPredicate(lookFor, topLevelOnly) =>
      if topLevel {
        r := AtSet(b, lookFor);
      } else {
        var inTopLevelOnly := AtSet(b, topLevelOnly);
        if inTopLevelOnly {
          r := false;
        } else {
          r := AtSet(b, lookFor);
        }
      }
  }
}
