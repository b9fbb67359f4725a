/**
 * A minimal PsiBuilder: the token cursor and marker stack that the Kotlin
 * parsing primitives drive.  The platform PsiBuilder is not part of this
 * model; this class keeps only what the primitives observe and change:
 * the lexemes with their kinds, texts and newline-before flags, a remap
 * overlay written by remapCurrentToken, the cursor, the stack of open
 * markers, and the log of closed markers (nodes and error nodes).
 */
module PsiBuilder {
  import opened Wrappers
  import opened KtTokens

  /** Whitespace and comments (WHITE_SPACE_OR_COMMENT_BIT_SET): the lexemes
      PsiBuilder steps over. */
  predicate IsTrivia(t: TokenKind)
  {
    t.WhiteSpace? || t.DocComment? || t == Plain(EolComment) || t == Plain(BlockComment) || t == Plain(ShebangComment)
  }

  lemma TriviaIsWhiteSpaceOrComment(t: TokenKind)
    ensures IsTrivia(t) <==> t in WhiteSpaceOrCommentBitSet
  {
  }

  /** The first lexeme at or after `i` that is not trivia, or |kinds|. */
  function SkipTrivia(kinds: seq<TokenKind>, i: nat): (j: nat)
    requires i <= |kinds|
    ensures i <= j <= |kinds|
    ensures j < |kinds| ==> !IsTrivia(kinds[j])
    ensures forall k | i <= k < j :: IsTrivia(kinds[k])
    decreases |kinds| - i
  {
    if i == |kinds| || !IsTrivia(kinds[i]) then i else SkipTrivia(kinds, i + 1)
  }

  /** The character offset of lexeme `i`: the total length of the texts before it. */
  function OffsetOf(texts: seq<string>, i: nat): nat
    requires i <= |texts|
  {
    if i == 0 then 0 else OffsetOf(texts, i - 1) + |texts[i - 1]|
  }

  /** A marker handle: `PsiBuilder.Marker`. */
  datatype Marker = Marker(id: nat)

  /** An open marker: where it started and how many closed markers existed then. */
  datatype OpenMarker = OpenMarker(id: nat, start: nat, produced: nat)

  /** A closed marker: `done(elementType)` makes a node, `error(message)` an
      error node, over the lexemes start .. end - 1.  A Java `null` message
      is None. */
  datatype Production =
    | Node(elementType: string, start: nat, end: nat)
    | ErrorNode(message: Option<string>, start: nat, end: nat)

  /** What the parser sees at the cursor: the token type (None at the end of
      input, where PsiBuilder returns `null`), its text, and whether a newline
      precedes it. */
  datatype Cursor = Cursor(token: Option<TokenKind>, text: Option<string>, newlineBefore: bool)

  /** The lexemes of the input with the remap overlay: the types as lexed,
      their texts, whether the whitespace before each holds a line break, and
      the types changed by remapCurrentToken, by position. */
  datatype Lexemes = Lexemes(kinds: seq<TokenKind>, texts: seq<string>, newlines: seq<bool>,
                             remaps: map<nat, TokenKind>)
  {
    predicate WellFormed()
    {
      && |texts| == |kinds|
      && |newlines| == |kinds|
      && (forall i | i in remaps :: i < |kinds| && !IsTrivia(kinds[i]) && !IsTrivia(remaps[i]))
    }

    /** The token type at a position, after remapping. */
    function KindAt(i: nat): TokenKind
      requires i < |kinds|
    {
      if i in remaps then remaps[i] else kinds[i]
    }

    /** A position the cursor may rest on: a non-trivia lexeme or the end. */
    predicate AtLexeme(p: nat)
    {
      p <= |kinds| && (p < |kinds| ==> !IsTrivia(kinds[p]))
    }

    /** The parser's view of lexeme `p` (the end of input when p == |kinds|). */
    function CursorAt(p: nat): Cursor
      requires WellFormed() && p <= |kinds|
    {
      if p == |kinds| then Cursor(None, None, false)
      else Cursor(Some(KindAt(p)), Some(texts[p]), newlines[p])
    }

    /** The lexeme after `p`, skipping trivia. */
    function NextPos(p: nat): (q: nat)
      requires p < |kinds|
      ensures p < q && AtLexeme(q)
      ensures forall k | p < k < q :: IsTrivia(kinds[k])
    {
      SkipTrivia(kinds, p + 1)
    }

    /** Where advanceLexer takes the cursor from `p`. */
    function Advanced(p: nat): (q: nat)
      requires p <= |kinds|
      ensures AtLexeme(q)
      ensures p < |kinds| ==> p < q
      ensures p == |kinds| ==> q == p
      ensures p < |kinds| ==> forall k | p < k < q :: IsTrivia(kinds[k])
    {
      if p < |kinds| then NextPos(p) else p
    }

    /** Where `n` calls of advanceLexer take the cursor from `p` (none when n <= 0). */
    function AdvanceN(p: nat, n: int): (q: nat)
      requires AtLexeme(p)
      ensures AtLexeme(q) && p <= q
      decreases if n < 0 then 0 else n
    {
      if n <= 0 then p else AdvanceN(Advanced(p), n - 1)
    }

    /** rawLookup(-steps) from the cursor at `pos`: the (remapped) type of the
        lexeme `steps` raw positions back, trivia included, or `null` before
        the first lexeme. */
    function RawLookBack(pos: nat, steps: nat): Option<TokenKind>
    {
      if steps <= pos && pos - steps < |kinds| then Some(KindAt(pos - steps)) else None
    }
  }

  class Builder {
    var lexemes: Lexemes
    /** The current lexeme: never trivia, |kinds| at the end of input. */
    var pos: nat
    /** Markers not yet closed, innermost last. */
    var open: seq<OpenMarker>
    /** Closed markers, in closing order. */
    var productions: seq<Production>
    var nextId: nat

    predicate Valid()
      reads this
    {
      && lexemes.WellFormed()
      && lexemes.AtLexeme(pos)
      && (forall k | 0 <= k < |open| :: open[k].start <= pos && open[k].produced <= |productions|)
      && (forall k | 0 <= k < |open| :: lexemes.AtLexeme(open[k].start))
      && (forall k | 0 <= k < |open| :: open[k].id < nextId)
      && (forall j, k | 0 <= j < k < |open| ::
            open[j].id < open[k].id && open[j].start <= open[k].start && open[j].produced <= open[k].produced)
    }

    constructor(kinds: seq<TokenKind>, texts: seq<string>, newlines: seq<bool>)
      requires |texts| == |kinds| && |newlines| == |kinds|
      ensures Valid()
      ensures lexemes == Lexemes(kinds, texts, newlines, map[]) && pos == SkipTrivia(kinds, 0)
      ensures open == [] && productions == []
    {
      lexemes := Lexemes(kinds, texts, newlines, map[]);
      pos := SkipTrivia(kinds, 0);
      open := [];
      productions := [];
      nextId := 0;
    }

    /** getTokenType, getTokenText and newlineBeforeCurrentToken together. */
    function Current(): Cursor
      reads this
      requires Valid()
    {
      lexemes.CursorAt(pos)
    }

    predicate Eof()
      reads this
    {
      pos >= |lexemes.kinds|
    }

    /** getCurrentOffset */
    function CurrentOffset(): nat
      reads this
      requires Valid()
    {
      OffsetOf(lexemes.texts, pos)
    }

    /** advanceLexer: moves to the next non-trivia lexeme; no effect at the end. */
    method AdvanceLexer()
      requires Valid()
      modifies this
      ensures Valid()
      ensures lexemes == old(lexemes) && open == old(open) && productions == old(productions)
      ensures pos == lexemes.Advanced(old(pos))
      ensures nextId == old(nextId)
    {
      pos := lexemes.Advanced(pos);
    }

    /** remapCurrentToken: the current lexeme reads as `t` from now on. */
    method RemapCurrentToken(t: TokenKind)
      requires Valid() && pos < |lexemes.kinds| && !IsTrivia(t)
      modifies this
      ensures Valid()
      ensures lexemes == old(lexemes).(remaps := old(lexemes).remaps[pos := t])
      ensures pos == old(pos) && open == old(open) && productions == old(productions)
      ensures nextId == old(nextId)
    {
      lexemes := lexemes.(remaps := lexemes.remaps[pos := t]);
    }

    /** mark: opens a marker at the current lexeme. */
    method Mark() returns (m: Marker)
      requires Valid()
      modifies this
      ensures Valid()
      ensures open == old(open) + [OpenMarker(m.id, pos, |productions|)]
      ensures m.id == old(nextId) && nextId == old(nextId) + 1
      ensures lexemes == old(lexemes) && pos == old(pos) && productions == old(productions)
    {
      m := Marker(nextId);
      open := open + [OpenMarker(nextId, pos, |productions|)];
      nextId := nextId + 1;
    }

    /** Whether `m` is the innermost open marker, the only one PsiBuilder
        lets the parser close. */
    predicate IsInnermost(m: Marker)
      reads this
    {
      |open| > 0 && open[|open| - 1].id == m.id
    }

    function Innermost(): OpenMarker
      reads this
      requires |open| > 0
    {
      open[|open| - 1]
    }

    /** Marker.done: closes the marker as a node over the lexemes since it was opened. */
    method Done(m: Marker, elementType: string)
      requires Valid() && IsInnermost(m)
      modifies this
      ensures Valid()
      ensures productions == old(productions) + [Node(elementType, old(Innermost()).start, pos)]
      ensures open == old(open[..|open| - 1])
      ensures lexemes == old(lexemes) && pos == old(pos) && nextId == old(nextId)
    {
      productions := productions + [Node(elementType, Innermost().start, pos)];
      open := open[..|open| - 1];
    }

    /** Marker.error: closes the marker as an error node. */
    method Error(m: Marker, message: Option<string>)
      requires Valid() && IsInnermost(m)
      modifies this
      ensures Valid()
      ensures productions == old(productions) + [ErrorNode(message, old(Innermost()).start, pos)]
      ensures open == old(open[..|open| - 1])
      ensures lexemes == old(lexemes) && pos == old(pos) && nextId == old(nextId)
    {
      productions := productions + [ErrorNode(message, Innermost().start, pos)];
      open := open[..|open| - 1];
    }

    /** Marker.drop: forgets the marker; no node is made. */
    method Drop(m: Marker)
      requires Valid() && IsInnermost(m)
      modifies this
      ensures Valid()
      ensures open == old(open[..|open| - 1])
      ensures lexemes == old(lexemes) && pos == old(pos) && productions == old(productions)
      ensures nextId == old(nextId)
    {
      open := open[..|open| - 1];
    }

    /** Marker.rollbackTo: returns the cursor to the marker and discards the
        markers closed since it was opened. */
    method RollbackTo(m: Marker)
      requires Valid() && IsInnermost(m)
      modifies this
      ensures Valid()
      ensures pos == old(Innermost()).start
      ensures productions == old(productions[..Innermost().produced])
      ensures open == old(open[..|open| - 1])
      ensures lexemes == old(lexemes) && nextId == old(nextId)
    {
      var top := Innermost();
      pos := top.start;
      productions := productions[..top.produced];
      open := open[..|open| - 1];
    }

    /** PsiBuilder.error: an empty error node at the current lexeme. */
    method ErrorHere(message: Option<string>)
      requires Valid()
      modifies this
      ensures Valid()
      ensures productions == old(productions) + [ErrorNode(message, pos, pos)]
      ensures lexemes == old(lexemes) && pos == old(pos) && open == old(open)
      ensures nextId == old(nextId)
    {
      productions := productions + [ErrorNode(message, pos, pos)];
    }
  }
}
