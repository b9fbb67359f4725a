# Kotlin parsing primitives, classpath change detection and path tree walking

A Dafny model of five pieces of the Kotlin repository:

- **KtTokens** (`tokens.dfy`, module `KtTokens`). This is the lexer's token catalogue: every token constant with its numeric type id, the spellings of the hard and soft keywords, and the token sets (`KEYWORDS`, `SOFT_KEYWORDS`, `MODIFIER_KEYWORDS_ARRAY` and its subsets, comments and whitespace, operations and assignments). A token is a value of `TokenKind`, whose outer constructor is the constant's Java class: plain token, single-value punctuation, hard keyword, soft keyword, or a foreign whitespace or doc-comment element.
- **RecoveryMessageType** and the recovery table `getRecoveryTokenSet` (`recovery.dfy`, module `Recovery`). This covers the error message of each recovery type and the token set the parser recovers to. It also covers the type with an empty set and the types whose error is reported in place, and it models the `IllegalStateException` for types the table does not list as an `Err` result.
- **AbstractKotlinParsing** (`parsing.dfy`, module `AbstractKotlinParsing`). These are the parser primitives: `at`/`atSet` with soft-keyword remapping, and `expect` with and without recovery. They also include `errorAndAdvance`, `errorWithRecovery`, `skipUntil`/`errorUntil`/`errorIf`, `OptionalMarker`, `getLastToken`, `matchTokenStreamPredicate` and the `At`/`AtSet` stream predicates. They drive a minimal PsiBuilder (`builder.dfy`, class `PsiBuilder.Builder`). That class holds the lexemes with their texts and newline flags, the remap overlay written by `remapCurrentToken`, the cursor, the stack of open markers and the log of closed markers.
- **JavaClassChangesComputer** (`classpath_diff.dfy`, module `JavaClassChanges`). It computes the changed classes and class members between two classpath snapshots. The change collector is a class whose methods add to its two sets. The collection procedure is proved equal to a pure definition, `Changes`, and the properties are proved about that definition.
- **PathTreeWalk** (`path_walk.dfy`, module `PathTreeWalk`). This is the depth-first and breadth-first file tree walk behind `Path.walk`. The file system is an immutable tree (`Option<Node>`, where None is a missing start path). Each iterator is a class with the source's mutable state: the DFS stack of walk states, and the BFS queue with its `null` level separators. Each iterator is proved to produce the order given by a pure definition. The properties are proved about those definitions: only existing paths are yielded, directories are skipped unless included, BFS is a permutation of DFS, and BFS is ordered by depth.

Where the documentation and the code disagree, `PathTreeWalk.BfsOrderAsWritten` models the code, and the iterators follow the corrected, documented behaviour (see "## Findings").

## Model

Source paths are relative to the repository root.

| member | source | states |
|---|---|---|
| KtTokens.PlainTokenIdRoundTrip | compiler/psi/src/org/jetbrains/kotlin/lexer/KtTokens.java:29-291 | every plain KtToken constant's type id decodes back to that token |
| KtTokens.PunctuationIdRoundTrip | compiler/psi/src/org/jetbrains/kotlin/lexer/KtTokens.java:240-289 | every single-value token's type id decodes back to that token |
| KtTokens.HardKeywordIdRoundTrip | compiler/psi/src/org/jetbrains/kotlin/lexer/KtTokens.java:204-285 | every hard keyword's type id decodes back to that keyword |
| KtTokens.SoftKeywordIdRoundTrip | compiler/psi/src/org/jetbrains/kotlin/lexer/KtTokens.java:292-352 | every soft keyword's type id decodes back to that keyword |
| KtTokens.TypeIdRoundTrip | compiler/psi/src/org/jetbrains/kotlin/lexer/KtTokens.java:29-177 | any token with a type id decodes back from it |
| KtTokens.TypeIdInjective | compiler/psi/src/org/jetbrains/kotlin/lexer/KtTokens.java:29-177 | no two tokens share a type id |
| KtTokens.IdTokenRoundTrip | compiler/psi/src/org/jetbrains/kotlin/lexer/KtTokens.java:29-177 | an id names a token exactly when 1 <= id <= 148, and that token's id is the id |
| KtTokens.SoftSpellingRoundTrip | compiler/psi/src/org/jetbrains/kotlin/lexer/KtTokens.java:292-352 | looking up a soft keyword's spelling gives that soft keyword |
| KtTokens.SoftSpellingInjective | compiler/psi/src/org/jetbrains/kotlin/lexer/KtTokens.java:292-352 | no two soft keywords are spelled alike |
| KtTokens.KeywordsHoldOnlyFixedKeywords | compiler/psi/src/org/jetbrains/kotlin/lexer/KtTokens.java:355-363 | KEYWORDS holds only hard keywords |
| KtTokens.EveryFixedKeywordIsListed | compiler/psi/src/org/jetbrains/kotlin/lexer/KtTokens.java:355-363 | every hard keyword is in KEYWORDS |
| KtTokens.SoftKeywordsHoldOnlySoftKeywords | compiler/psi/src/org/jetbrains/kotlin/lexer/KtTokens.java:365-377 | SOFT_KEYWORDS holds only soft keywords |
| KtTokens.EverySoftKeywordIsListed | compiler/psi/src/org/jetbrains/kotlin/lexer/KtTokens.java:365-377 | every soft keyword is in SOFT_KEYWORDS |
| KtTokens.KeywordsAreTheFixedKeywords | compiler/psi/src/org/jetbrains/kotlin/lexer/KtTokens.java:355-363 | a token is in KEYWORDS iff it is a KtKeywordToken and not soft |
| KtTokens.SoftKeywordsAreTheSoftKeywords | compiler/psi/src/org/jetbrains/kotlin/lexer/KtTokens.java:365-377 | a token is in SOFT_KEYWORDS iff it is a soft keyword |
| KtTokens.ModifierKeywordsHoldOnlyModifiers | compiler/psi/src/org/jetbrains/kotlin/lexer/KtTokens.java:384-394 | MODIFIER_KEYWORDS holds only KtModifierKeywordTokens |
| KtTokens.OnlyModifiersHaveAnIndex | compiler/psi/src/org/jetbrains/kotlin/lexer/KtTokens.java:384-392 | only a modifier keyword has a position in MODIFIER_KEYWORDS_ARRAY |
| KtTokens.EveryModifierIsListed | compiler/psi/src/org/jetbrains/kotlin/lexer/KtTokens.java:384-394 | every KtModifierKeywordToken is in MODIFIER_KEYWORDS |
| KtTokens.ModifierKeywordsAreTheModifiers | compiler/psi/src/org/jetbrains/kotlin/lexer/KtTokens.java:384-394 | a token is in MODIFIER_KEYWORDS iff it is a modifier keyword |
| KtTokens.ModifierIndexInverts | compiler/psi/src/org/jetbrains/kotlin/lexer/KtTokens.java:379-392 | the index lookup finds each array element at its own position (the serialized order) |
| KtTokens.ModifierArrayHasNoDuplicates | compiler/psi/src/org/jetbrains/kotlin/lexer/KtTokens.java:384-392 | MODIFIER_KEYWORDS_ARRAY has no repeated entry |
| KtTokens.ModifierSubsetsAreModifiers | compiler/psi/src/org/jetbrains/kotlin/lexer/KtTokens.java:396-398 | the type, type-argument and reserved value-parameter modifier sets are subsets of MODIFIER_KEYWORDS |
| KtTokens.VisibilityAndModalityAreModifiers | compiler/psi/src/org/jetbrains/kotlin/lexer/KtTokens.java:326-401 | the visibility and modality sets are modifiers, and DEFAULT_VISIBILITY_KEYWORD is a visibility |
| KtTokens.FunAndInAreFixedModifiers | compiler/psi/src/org/jetbrains/kotlin/lexer/KtTokens.java:212-218 | `fun` and `in` are both modifiers and hard keywords |
| KtTokens.OnlyFunAndInAreFixedModifiers | compiler/psi/src/org/jetbrains/kotlin/lexer/KtTokens.java:355-394 | no other token is both in KEYWORDS and in MODIFIER_KEYWORDS |
| KtTokens.TokenSetRelations | compiler/psi/src/org/jetbrains/kotlin/lexer/KtTokens.java:403-424 | ALL_ASSIGNMENTS is AUGMENTED_ASSIGNMENTS plus EQ; INCREMENT_AND_DECREMENT is in OPERATIONS; whitespace and comments are never keywords |
| PsiBuilder.TriviaIsWhiteSpaceOrComment | compiler/psi/src/org/jetbrains/kotlin/lexer/KtTokens.java:403-412 | the lexemes the builder steps over are exactly WHITE_SPACE_OR_COMMENT_BIT_SET |
| PsiBuilder.SkipTrivia | compiler/psi/src/org/jetbrains/kotlin/lexer/KtTokens.java:405-412 | the builder skips to the first non-trivia lexeme, and everything skipped is trivia |
| PsiBuilder.Lexemes.NextPos | compiler/psi/src/org/jetbrains/kotlin/parsing/AbstractKotlinParsing.java:234-237 | advancing moves strictly forward onto a non-trivia lexeme or the end, and everything passed over is whitespace or comment: exactly one token is consumed |
| PsiBuilder.Lexemes.Advanced | compiler/psi/src/org/jetbrains/kotlin/parsing/AbstractKotlinParsing.java:234-237 | one advanceLexer: before the end it moves forward past exactly one token and trivia only; at the end it stays |
| PsiBuilder.Lexemes.AdvanceN | compiler/psi/src/org/jetbrains/kotlin/parsing/AbstractKotlinParsing.java:234-243 | n advances never move backwards and land on a lexeme; a non-positive count moves nothing |
| PsiBuilder.Builder.constructor | compiler/psi/src/org/jetbrains/kotlin/parsing/AbstractKotlinParsing.java:230-232 | a fresh builder sits on the first non-trivia lexeme with no markers |
| PsiBuilder.Builder.AdvanceLexer | compiler/psi/src/org/jetbrains/kotlin/parsing/AbstractKotlinParsing.java:234-243 | moves the cursor one lexeme, nothing else changes |
| PsiBuilder.Builder.RemapCurrentToken | compiler/psi/src/org/jetbrains/kotlin/parsing/AbstractKotlinParsing.java:272-290 | retypes only the current lexeme |
| PsiBuilder.Builder.Mark | compiler/psi/src/org/jetbrains/kotlin/parsing/AbstractKotlinParsing.java:70-72 | pushes a fresh open marker at the cursor |
| PsiBuilder.Builder.Done | compiler/psi/src/org/jetbrains/kotlin/parsing/AbstractKotlinParsing.java:374-377 | closes the innermost marker into a node over the lexemes since it opened |
| PsiBuilder.Builder.Error | compiler/psi/src/org/jetbrains/kotlin/parsing/AbstractKotlinParsing.java:220-228 | closes the innermost marker into an error node with the message |
| PsiBuilder.Builder.Drop | compiler/psi/src/org/jetbrains/kotlin/parsing/AbstractKotlinParsing.java:389-392 | forgets the innermost marker, producing nothing |
| PsiBuilder.Builder.RollbackTo | compiler/psi/src/org/jetbrains/kotlin/parsing/AbstractKotlinParsing.java:395-447 | returns the cursor to the marker and discards what was produced since |
| PsiBuilder.Builder.ErrorHere | compiler/psi/src/org/jetbrains/kotlin/parsing/AbstractKotlinParsing.java:74-76 | appends an empty error node at the cursor |
| Recovery.MessageAbsentExactlyWithoutMessage | compiler/psi/src/org/jetbrains/kotlin/parsing/RecoveryMessageType.java:8-75 | the message is null exactly for the four types declared without one (lines 18-19 and 51-52) |
| Recovery.MissingRightAngleBracketCasesShareMessage | compiler/psi/src/org/jetbrains/kotlin/parsing/RecoveryMessageType.java:38-42 | all the missing-'>' types carry the message "Missing '>'" |
| Recovery.TableThrowsExactlyForUnlisted | compiler/psi/src/org/jetbrains/kotlin/parsing/AbstractKotlinParsing.java:106-196 | the table fails (IllegalStateException) exactly for the types it does not list |
| Recovery.TableReportsInPlaceExactly | compiler/psi/src/org/jetbrains/kotlin/parsing/AbstractKotlinParsing.java:176-192 | the table returns null exactly for the in-place group |
| Recovery.TryCatchCasesShareRecoverySet | compiler/psi/src/org/jetbrains/kotlin/parsing/AbstractKotlinParsing.java:142-144 | the two try-catch parenthesis types differ in message but share the try-catch recovery set |
| Recovery.TypeParameterNameExpectedHasEmptySet | compiler/psi/src/org/jetbrains/kotlin/parsing/AbstractKotlinParsing.java:174-175 | a missing type parameter name recovers to the empty set, not in place |
| Recovery.Message | compiler/psi/src/org/jetbrains/kotlin/parsing/RecoveryMessageType.java:8-75 | each type's message, null for four; stated by MessageAbsentExactlyWithoutMessage and MissingRightAngleBracketCasesShareMessage |
| Recovery.RecoveryTokenSet | compiler/psi/src/org/jetbrains/kotlin/parsing/AbstractKotlinParsing.java:106-196 | getRecoveryTokenSet; stated by TableThrowsExactlyForUnlisted, TableReportsInPlaceExactly, TryCatchCasesShareRecoverySet and TypeParameterNameExpectedHasEmptySet |
| AbstractKotlinParsing.SoftSpellingsAreDistinct | compiler/psi/src/org/jetbrains/kotlin/parsing/AbstractKotlinParsing.java:38-46 | the keys SOFT_KEYWORD_TEXTS is built from are distinct |
| AbstractKotlinParsing.AllSoftKeywordsListed | compiler/psi/src/org/jetbrains/kotlin/parsing/AbstractKotlinParsing.java:38-46 | the table is built over every soft keyword |
| AbstractKotlinParsing.SoftKeywordTextsFind | compiler/psi/src/org/jetbrains/kotlin/parsing/AbstractKotlinParsing.java:38-46 | each soft keyword's text maps to that keyword |
| AbstractKotlinParsing.SoftKeywordTextsSpell | compiler/psi/src/org/jetbrains/kotlin/parsing/AbstractKotlinParsing.java:38-46 | every key is the spelling of the soft keyword it maps to |
| AbstractKotlinParsing.SoftKeywordTextsHoldTheSoftKeywords | compiler/psi/src/org/jetbrains/kotlin/parsing/AbstractKotlinParsing.java:38-53 | the table's values are exactly SOFT_KEYWORDS |
| AbstractKotlinParsing.SoftKeywordOfTextInverts | compiler/psi/src/org/jetbrains/kotlin/parsing/AbstractKotlinParsing.java:38-46 | the lookup of a text gives t iff t is the soft keyword spelled that way |
| AbstractKotlinParsing.SoftKeywordOfTextMisses | compiler/psi/src/org/jetbrains/kotlin/parsing/AbstractKotlinParsing.java:38-46 | a text that spells no soft keyword gives nothing |
| AbstractKotlinParsing.SoftKeywordTexts | compiler/psi/src/org/jetbrains/kotlin/parsing/AbstractKotlinParsing.java:38-46 | the SOFT_KEYWORD_TEXTS map from spelling to soft keyword; its meaning is stated by SoftKeywordTextsFind, SoftKeywordTextsSpell and SoftKeywordTextsHoldTheSoftKeywords |
| AbstractKotlinParsing.SoftKeywordOfText | compiler/psi/src/org/jetbrains/kotlin/parsing/AbstractKotlinParsing.java:306-326 | SOFT_KEYWORD_TEXTS.get(text), null for a missing text; stated by SoftKeywordOfTextInverts and SoftKeywordOfTextMisses |
| AbstractKotlinParsing.TokenMatches | compiler/psi/src/org/jetbrains/kotlin/parsing/AbstractKotlinParsing.java:257-270 | _at and tokenMatches; its relation to eol is stated by Eol and AtStatementEndNeverRemaps |
| AbstractKotlinParsing.AtSetNoSideEffects | compiler/psi/src/org/jetbrains/kotlin/parsing/AbstractKotlinParsing.java:295-304 | _atSet; stated by RecoversInPlaceIsAtSetOrBrace and AtSetIsIdempotent |
| AbstractKotlinParsing.AtRemap | compiler/psi/src/org/jetbrains/kotlin/parsing/AbstractKotlinParsing.java:272-290 | the remap at() makes; stated by AtRemapsOnlySoftKeywordsAndIdentifiers, AtIsIdempotent and AtIsAtSetOfOne |
| AbstractKotlinParsing.AtSetRemap | compiler/psi/src/org/jetbrains/kotlin/parsing/AbstractKotlinParsing.java:306-326 | the remap atSet() makes; stated by AtSetRemapsOnlySoftKeywordsAndIdentifiers and AtSetIsIdempotent |
| AbstractKotlinParsing.RecoversInPlace | compiler/psi/src/org/jetbrains/kotlin/parsing/AbstractKotlinParsing.java:207-218 | the condition of errorWithRecovery; stated by RecoversInPlaceIsAtSetOrBrace and TableRecoveryStaysInPlace |
| AbstractKotlinParsing.TrackBracket | compiler/psi/src/org/jetbrains/kotlin/parsing/AbstractKotlinParsing.java:408-440 | the bracket counters and parenthesis stack after one token; TrackCurrentBracket is proved to compute it |
| AbstractKotlinParsing.Scan | compiler/psi/src/org/jetbrains/kotlin/parsing/AbstractKotlinParsing.java:402-442 | the scanning loop as a recursive function; ScanStep unfolds it and ScanTokens is proved to compute it |
| AbstractKotlinParsing.PredicateRemap | compiler/psi/src/org/jetbrains/kotlin/parsing/AbstractKotlinParsing.java:480-503 | the remap matching(topLevel) makes; stated by Matching |
| AbstractKotlinParsing.Eol | compiler/psi/src/org/jetbrains/kotlin/parsing/AbstractKotlinParsing.java:449-451 | eol implies EOL_OR_SEMICOLON matches; that match holds iff eol, a semicolon, or the token itself |
| AbstractKotlinParsing.AtRemapsOnlySoftKeywordsAndIdentifiers | compiler/psi/src/org/jetbrains/kotlin/parsing/AbstractKotlinParsing.java:272-290 | at() only ever remaps to a soft keyword or IDENTIFIER, never to trivia |
| AbstractKotlinParsing.AtSetRemapsOnlySoftKeywordsAndIdentifiers | compiler/psi/src/org/jetbrains/kotlin/parsing/AbstractKotlinParsing.java:306-326 | atSet() remaps only an identifier or a soft keyword, only to a soft keyword or IDENTIFIER: a fixed keyword is never demoted |
| AbstractKotlinParsing.AtIsIdempotent | compiler/psi/src/org/jetbrains/kotlin/parsing/AbstractKotlinParsing.java:262-290 | after a successful at() the token matches without remapping, and a second at() remaps nothing |
| AbstractKotlinParsing.AtSetIsIdempotent | compiler/psi/src/org/jetbrains/kotlin/parsing/AbstractKotlinParsing.java:295-326 | atSet() remaps into the set; afterwards _atSet holds and a second atSet() remaps nothing |
| AbstractKotlinParsing.AtIsAtSetOfOne | compiler/psi/src/org/jetbrains/kotlin/parsing/AbstractKotlinParsing.java:257-326 | at(t) and atSet({t}) agree on the answer and on the remap |
| AbstractKotlinParsing.AtStatementEndNeverRemaps | compiler/psi/src/org/jetbrains/kotlin/parsing/AbstractKotlinParsing.java:262-270 | at(EOL_OR_SEMICOLON) never remaps, and holds at a statement end or on the token itself |
| AbstractKotlinParsing.At | compiler/psi/src/org/jetbrains/kotlin/parsing/AbstractKotlinParsing.java:272-290 | at(): the answer, the remap of the current lexeme, and the cursor and markers unchanged |
| AbstractKotlinParsing.AtSet | compiler/psi/src/org/jetbrains/kotlin/parsing/AbstractKotlinParsing.java:306-326 | atSet(): the answer, the remap, and the cursor and markers unchanged |
| AbstractKotlinParsing.Advance | compiler/psi/src/org/jetbrains/kotlin/parsing/AbstractKotlinParsing.java:234-243 | advance(n) moves the cursor n lexemes (none when n <= 0) and changes nothing else |
| AbstractKotlinParsing.AdvanceNStaysBeforeEnd | compiler/psi/src/org/jetbrains/kotlin/parsing/AbstractKotlinParsing.java:234-243 | n advances reach at least n lexemes further or the end |
| AbstractKotlinParsing.AdvanceAt | compiler/psi/src/org/jetbrains/kotlin/parsing/AbstractKotlinParsing.java:245-248 | advanceAt(t) on a matching token advances one lexeme |
| AbstractKotlinParsing.ConsumeIf | compiler/psi/src/org/jetbrains/kotlin/parsing/AbstractKotlinParsing.java:332-338 | consumes the token exactly when at() holds |
| AbstractKotlinParsing.MissPos | compiler/psi/src/org/jetbrains/kotlin/parsing/AbstractKotlinParsing.java:99-101 | where a failed expect(t) leaves the cursor: never backwards, always on a lexeme |
| AbstractKotlinParsing.Expect | compiler/psi/src/org/jetbrains/kotlin/parsing/AbstractKotlinParsing.java:93-104 | true and one token consumed exactly when at() holds; on a miss it reports nothing, and it skips a lone backtick where an identifier is expected |
| AbstractKotlinParsing.ExpectNoAdvance | compiler/psi/src/org/jetbrains/kotlin/parsing/AbstractKotlinParsing.java:198-205 | advances on a match; otherwise an empty error node and no movement |
| AbstractKotlinParsing.ErrorAndAdvance | compiler/psi/src/org/jetbrains/kotlin/parsing/AbstractKotlinParsing.java:220-228 | an error node over exactly the n lexemes skipped |
| AbstractKotlinParsing.RecoversInPlaceIsAtSetOrBrace | compiler/psi/src/org/jetbrains/kotlin/parsing/AbstractKotlinParsing.java:207-218 | with a set, recovery is in place iff _atSet holds or the token is a brace |
| AbstractKotlinParsing.ErrorWithRecovery | compiler/psi/src/org/jetbrains/kotlin/parsing/AbstractKotlinParsing.java:207-218 | in place: an empty error node; otherwise an error node over one advanced lexeme |
| AbstractKotlinParsing.TableRecoveryStaysInPlace | compiler/psi/src/org/jetbrains/kotlin/parsing/AbstractKotlinParsing.java:82-91 | away from braces and line ends, table recovery stays iff the type is in-place or the token is in its set |
| AbstractKotlinParsing.ExpectWithRecovery | compiler/psi/src/org/jetbrains/kotlin/parsing/AbstractKotlinParsing.java:78-91 | match: true, one token consumed, nothing reported. Miss: after the backtick skip of expect(t), the recovery set is the caller's if given, else the table's; an unlisted type with no caller set is the exception, with nothing produced. Otherwise one error node with the type's message: empty and in place when errorWithRecovery recovers in place under that set, else over the one token consumed |
| AbstractKotlinParsing.SkipTarget | compiler/psi/src/org/jetbrains/kotlin/parsing/AbstractKotlinParsing.java:341-346 | the first stopping lexeme at or after the cursor; none before it stops |
| AbstractKotlinParsing.SkipUntil | compiler/psi/src/org/jetbrains/kotlin/parsing/AbstractKotlinParsing.java:341-346 | the loop stops exactly at that lexeme, producing nothing |
| AbstractKotlinParsing.ErrorUntil | compiler/psi/src/org/jetbrains/kotlin/parsing/AbstractKotlinParsing.java:348-354 | one error node over the skipped lexemes, none of which is a brace or in the set |
| AbstractKotlinParsing.ErrorIf | compiler/psi/src/org/jetbrains/kotlin/parsing/AbstractKotlinParsing.java:356-363 | closes the marker as an error when the condition holds, otherwise drops it |
| AbstractKotlinParsing.OptionalMarker.constructor | compiler/psi/src/org/jetbrains/kotlin/parsing/AbstractKotlinParsing.java:369-372 | marks only when asked to, and records the current offset, which is the offset of the new marker's start (Ready) |
| AbstractKotlinParsing.OptionalMarker.Done | compiler/psi/src/org/jetbrains/kotlin/parsing/AbstractKotlinParsing.java:374-377 | closes the marker into a node if there is one |
| AbstractKotlinParsing.OptionalMarker.Error | compiler/psi/src/org/jetbrains/kotlin/parsing/AbstractKotlinParsing.java:379-387 | drops the marker when the offset has not moved since it was made, otherwise closes it as an error node that spans at least one lexeme (start < end): no empty errors |
| AbstractKotlinParsing.OptionalMarker.Drop | compiler/psi/src/org/jetbrains/kotlin/parsing/AbstractKotlinParsing.java:389-392 | drops the marker if there is one |
| AbstractKotlinParsing.LastTokenSteps | compiler/psi/src/org/jetbrains/kotlin/parsing/AbstractKotlinParsing.java:61-68 | the look-back loop never steps less than it started with |
| AbstractKotlinParsing.GetLastToken | compiler/psi/src/org/jetbrains/kotlin/parsing/AbstractKotlinParsing.java:61-68 | returns the raw look-back at the step count the loop reaches |
| AbstractKotlinParsing.OffsetCoversIndex | compiler/psi/src/org/jetbrains/kotlin/parsing/AbstractKotlinParsing.java:61-68 | with non-empty lexeme texts the character offset bounds the lexeme index |
| AbstractKotlinParsing.LastTokenStepsFrom | compiler/psi/src/org/jetbrains/kotlin/parsing/AbstractKotlinParsing.java:61-68 | the loop stops on the nearest earlier non-trivia lexeme or before the first |
| AbstractKotlinParsing.LastTokenIsPrecedingCode | compiler/psi/src/org/jetbrains/kotlin/parsing/AbstractKotlinParsing.java:61-68 | getLastToken is null iff only trivia precedes; otherwise it is the nearest preceding non-trivia token |
| AbstractKotlinParsing.ScanStep | compiler/psi/src/org/jetbrains/kotlin/parsing/AbstractKotlinParsing.java:395-447 | the scan unfolds one token: processToken, then bracket tracking, then stop or continue |
| AbstractKotlinParsing.AtPunctuation | compiler/psi/src/org/jetbrains/kotlin/parsing/AbstractKotlinParsing.java:272-290 | at() on a punctuation token is plain equality, with no remap |
| AbstractKotlinParsing.AtBracket | compiler/psi/src/org/jetbrains/kotlin/parsing/AbstractKotlinParsing.java:410-440 | the bracket tests of the scan are equality on the current lexeme |
| AbstractKotlinParsing.TrackCurrentBracket | compiler/psi/src/org/jetbrains/kotlin/parsing/AbstractKotlinParsing.java:410-440 | updates the bracket counters and the parenthesis stack as the pure step does |
| AbstractKotlinParsing.ScanTokens | compiler/psi/src/org/jetbrains/kotlin/parsing/AbstractKotlinParsing.java:400-444 | the scanning loop computes the pure scan of the token stream |
| AbstractKotlinParsing.MatchTokenStreamPredicate | compiler/psi/src/org/jetbrains/kotlin/parsing/AbstractKotlinParsing.java:395-447 | returns the pattern's result on the scan and rolls the cursor back |
| AbstractKotlinParsing.DefaultPredicatesMatchOnlyAtTopLevel | compiler/psi/src/org/jetbrains/kotlin/parsing/AbstractKotlinParsing.java:465-503 | new At(t) and new AtSet(s) (the one-argument constructors) never match nested and match at top level exactly as at(t) and atSet(s) |
| AbstractKotlinParsing.Matching | compiler/psi/src/org/jetbrains/kotlin/parsing/AbstractKotlinParsing.java:480-503 | matching(topLevel): the answer and remap of the predicate, cursor unchanged |
| JavaClassChanges.AssociateBy | compiler/incremental-compilation-impl/src/org/jetbrains/kotlin/incremental/classpathDiff/JavaClassChangesComputer.kt:24-25 | associateBy keys are the elements' keys, and each key maps to its last element |
| JavaClassChanges.KeysOfSnoc | compiler/incremental-compilation-impl/src/org/jetbrains/kotlin/incremental/classpathDiff/JavaClassChangesComputer.kt:73-74 | the key set grows by one key per appended element |
| JavaClassChanges.Collector.constructor | compiler/incremental-compilation-impl/src/org/jetbrains/kotlin/incremental/classpathDiff/JavaClassChangesComputer.kt:37 | a new collector holds no changes |
| JavaClassChanges.Collector.AddChangedClass | compiler/incremental-compilation-impl/src/org/jetbrains/kotlin/incremental/classpathDiff/JavaClassChangesComputer.kt:59 | adds one class, members unchanged |
| JavaClassChanges.Collector.AddChangedClasses | compiler/incremental-compilation-impl/src/org/jetbrains/kotlin/incremental/classpathDiff/JavaClassChangesComputer.kt:38-39 | adds a set of classes, members unchanged |
| JavaClassChanges.Collector.AddChangedClassMember | compiler/incremental-compilation-impl/src/org/jetbrains/kotlin/incremental/classpathDiff/JavaClassChangesComputer.kt:93 | adds one (class, member name) pair |
| JavaClassChanges.Collector.AddChangedClassMembers | compiler/incremental-compilation-impl/src/org/jetbrains/kotlin/incremental/classpathDiff/JavaClassChangesComputer.kt:87-88 | adds one pair per name |
| JavaClassChanges.CollectClassMemberChanges | compiler/incremental-compilation-impl/src/org/jetbrains/kotlin/incremental/classpathDiff/JavaClassChangesComputer.kt:67-95 | adds exactly the member changes of one field or method list |
| JavaClassChanges.CollectClassChanges | compiler/incremental-compilation-impl/src/org/jetbrains/kotlin/incremental/classpathDiff/JavaClassChangesComputer.kt:52-64 | adds exactly one class's changes |
| JavaClassChanges.CollectCommonClassChanges | compiler/incremental-compilation-impl/src/org/jetbrains/kotlin/incremental/classpathDiff/JavaClassChangesComputer.kt:40-42 | the loop over common classes adds exactly their changes |
| JavaClassChanges.Compute | compiler/incremental-compilation-impl/src/org/jetbrains/kotlin/incremental/classpathDiff/JavaClassChangesComputer.kt:20-45 | compute returns exactly the change set `Changes` defines |
| JavaClassChanges.AmongNone | compiler/incremental-compilation-impl/src/org/jetbrains/kotlin/incremental/classpathDiff/JavaClassChangesComputer.kt:40-42 | no common classes visited, no changes |
| JavaClassChanges.AmongAddsOne | compiler/incremental-compilation-impl/src/org/jetbrains/kotlin/incremental/classpathDiff/JavaClassChangesComputer.kt:40-42 | visiting one more class adds exactly its changes |
| JavaClassChanges.AssociateByUniqueFinds | compiler/incremental-compilation-impl/src/org/jetbrains/kotlin/incremental/classpathDiff/JavaClassChangesComputer.kt:15-25 | with unique keys every element is found under its key |
| JavaClassChanges.ChangedClassesExactly | compiler/incremental-compilation-impl/src/org/jetbrains/kotlin/incremental/classpathDiff/JavaClassChangesComputer.kt:33-64 | a class is reported changed iff it was added, removed, or its class ABI hash differs |
| JavaClassChanges.ClassMemberChangesNameTheClass | compiler/incremental-compilation-impl/src/org/jetbrains/kotlin/incremental/classpathDiff/JavaClassChangesComputer.kt:58-63 | member changes are filed under the class and only when its class hash is unchanged |
| JavaClassChanges.MembersAmongOfOne | compiler/incremental-compilation-impl/src/org/jetbrains/kotlin/incremental/classpathDiff/JavaClassChangesComputer.kt:40-42 | a member change among the common classes is one class's member change |
| JavaClassChanges.ChangedMembersExactly | compiler/incremental-compilation-impl/src/org/jetbrains/kotlin/incremental/classpathDiff/JavaClassChangesComputer.kt:40-95 | a member is reported iff its class is common, has an equal class hash, and the member changed in its fields or methods |
| JavaClassChanges.AddedMemberNamesExactly | compiler/incremental-compilation-impl/src/org/jetbrains/kotlin/incremental/classpathDiff/JavaClassChangesComputer.kt:76-87 | a name is added iff some current member of that name has a hash absent before |
| JavaClassChanges.ModifiedMemberReportedTwice | compiler/incremental-compilation-impl/src/org/jetbrains/kotlin/incremental/classpathDiff/JavaClassChangesComputer.kt:84-88 | a modified member is among both the added and the removed names |
| JavaClassChanges.SamLookupNameWhenMembersChange | compiler/incremental-compilation-impl/src/org/jetbrains/kotlin/incremental/classpathDiff/JavaClassChangesComputer.kt:92-94 | differing hash sets report the SAM lookup name; no member change iff the hash sets are equal |
| JavaClassChanges.SamLookupNameIffMembersChange | compiler/incremental-compilation-impl/src/org/jetbrains/kotlin/incremental/classpathDiff/JavaClassChangesComputer.kt:92-94 | if no member is named like it, the SAM lookup name is reported iff the hash sets differ |
| JavaClassChanges.IdenticalSnapshotsHaveNoChanges | compiler/incremental-compilation-impl/src/org/jetbrains/kotlin/incremental/classpathDiff/JavaClassChangesComputer.kt:20-95 | comparing a snapshot list with itself reports nothing |
| JavaClassChanges.MemberChanges | compiler/incremental-compilation-impl/src/org/jetbrains/kotlin/incremental/classpathDiff/JavaClassChangesComputer.kt:67-95 | the changes collectClassMemberChanges adds; stated by AddedMemberNamesExactly, ModifiedMemberReportedTwice, SamLookupNameWhenMembersChange and SamLookupNameIffMembersChange |
| JavaClassChanges.ClassChanges | compiler/incremental-compilation-impl/src/org/jetbrains/kotlin/incremental/classpathDiff/JavaClassChangesComputer.kt:52-64 | the changes collectClassChanges adds; stated by ClassMemberChangesNameTheClass |
| JavaClassChanges.Changes | compiler/incremental-compilation-impl/src/org/jetbrains/kotlin/incremental/classpathDiff/JavaClassChangesComputer.kt:20-45 | the change set compute returns; stated by ChangedClassesExactly, ChangedMembersExactly and IdenticalSnapshotsHaveNoChanges |
| PathTreeWalk.EntryPaths | libraries/stdlib/jdk7/src/kotlin/io/path/PathTreeWalk.kt:120 | one listed path per directory entry |
| PathTreeWalk.DfsWalkOrder | libraries/stdlib/jdk7/src/kotlin/io/path/PathTreeWalk.kt:63-69 | a missing start yields nothing; a file start yields only itself |
| PathTreeWalk.ChildFinds | libraries/stdlib/jdk7/src/kotlin/io/path/PathTreeWalk.kt:120 | with distinct names, resolving an entry's name finds that entry |
| PathTreeWalk.ChildWellFormed | libraries/stdlib/jdk7/src/kotlin/io/path/PathTreeWalk.kt:120 | resolving a name in a well-formed directory gives a well-formed node or nothing |
| PathTreeWalk.LookupAppend | libraries/stdlib/jdk7/src/kotlin/io/path/PathTreeWalk.kt:120 | resolving p + q is resolving q from p |
| PathTreeWalk.LookupEntry | libraries/stdlib/jdk7/src/kotlin/io/path/PathTreeWalk.kt:120 | each listed path of a directory resolves to its entry |
| PathTreeWalk.LookupWellFormed | libraries/stdlib/jdk7/src/kotlin/io/path/PathTreeWalk.kt:120 | every resolvable path of a well-formed tree is well formed |
| PathTreeWalk.StackPush | libraries/stdlib/jdk7/src/kotlin/io/path/PathTreeWalk.kt:79-98 | pushing a state puts its output ahead of the rest of the stack's |
| PathTreeWalk.ReplaceTopOutput | libraries/stdlib/jdk7/src/kotlin/io/path/PathTreeWalk.kt:87-91 | a step that yields p leaves the stack's output minus p |
| PathTreeWalk.ReplaceTopAndPushOutput | libraries/stdlib/jdk7/src/kotlin/io/path/PathTreeWalk.kt:92-96 | descending into a sub-directory keeps the stack's output and reduces its work |
| PathTreeWalk.FreshDirectoryState | libraries/stdlib/jdk7/src/kotlin/io/path/PathTreeWalk.kt:101-107 | a new directory state's output is the directory's DFS order |
| PathTreeWalk.EntryStep | libraries/stdlib/jdk7/src/kotlin/io/path/PathTreeWalk.kt:126-128 | taking entry i splits the entries' order into that entry's and the rest |
| PathTreeWalk.StepExhausted | libraries/stdlib/jdk7/src/kotlin/io/path/PathTreeWalk.kt:131-132 | a state whose step returns null has no output left |
| PathTreeWalk.StepYields | libraries/stdlib/jdk7/src/kotlin/io/path/PathTreeWalk.kt:111-147 | a step returning the root or a non-directory yields exactly the head of the state's output |
| PathTreeWalk.ListedFileStep | libraries/stdlib/jdk7/src/kotlin/io/path/PathTreeWalk.kt:126-128 | a listed non-directory entry is the head of the state's output |
| PathTreeWalk.StepDescends | libraries/stdlib/jdk7/src/kotlin/io/path/PathTreeWalk.kt:92-96 | a step returning a sub-directory hands its output to a new directory state |
| PathTreeWalk.Step | libraries/stdlib/jdk7/src/kotlin/io/path/PathTreeWalk.kt:111-147 | DirectoryState.step and SingleFileState.step; stated by StepExhausted, StepYields and StepDescends |
| PathTreeWalk.DfsIterator.constructor | libraries/stdlib/jdk7/src/kotlin/io/path/PathTreeWalk.kt:63-69 | the pending output of a new DFS iterator is the DFS walk order |
| PathTreeWalk.DfsIterator.PopTop | libraries/stdlib/jdk7/src/kotlin/io/path/PathTreeWalk.kt:83-86 | popping an exhausted state keeps the pending output |
| PathTreeWalk.DfsIterator.ReplaceTop | libraries/stdlib/jdk7/src/kotlin/io/path/PathTreeWalk.kt:87-91 | a yielding step removes p from the front of the pending output |
| PathTreeWalk.DfsIterator.ReplaceTopAndPush | libraries/stdlib/jdk7/src/kotlin/io/path/PathTreeWalk.kt:92-96 | pushing a sub-directory keeps the pending output |
| PathTreeWalk.DfsIterator.StepTop | libraries/stdlib/jdk7/src/kotlin/io/path/PathTreeWalk.kt:81-97 | one round of gotoNext either yields the next pending path or makes progress |
| PathTreeWalk.DfsIterator.GotoNext | libraries/stdlib/jdk7/src/kotlin/io/path/PathTreeWalk.kt:79-98 | returns the next pending path, or null exactly when none is left |
| PathTreeWalk.LevelSizeAppend | libraries/stdlib/jdk7/src/kotlin/io/path/PathTreeWalk.kt:158-159 | a level's size is additive |
| PathTreeWalk.ChildItemsSize | libraries/stdlib/jdk7/src/kotlin/io/path/PathTreeWalk.kt:190-191 | the queued children of a directory have its entries' size |
| PathTreeWalk.ExpandShrinks | libraries/stdlib/jdk7/src/kotlin/io/path/PathTreeWalk.kt:190-191 | the next level is smaller than the current one |
| PathTreeWalk.BfsOrder | libraries/stdlib/jdk7/src/kotlin/io/path/PathTreeWalk.kt:37-38 | corrected BFS order: a missing start yields nothing, a file start only itself |
| PathTreeWalk.BfsOrderAsWritten | libraries/stdlib/jdk7/src/kotlin/io/path/PathTreeWalk.kt:161-193 | the breadth-first order as the code produces it, start queued unconditionally; stated by BfsYieldsMissingStart |
| PathTreeWalk.DfsOrderWalked | libraries/stdlib/jdk7/src/kotlin/io/path/PathTreeWalk.kt:101-134 | every path of a subtree's DFS order exists, and is a directory only if directories are included |
| PathTreeWalk.EntriesOrderWalked | libraries/stdlib/jdk7/src/kotlin/io/path/PathTreeWalk.kt:126-128 | the same for the entries of a directory |
| PathTreeWalk.DfsYieldsWalked | libraries/stdlib/jdk7/src/kotlin/io/path/PathTreeWalk.kt:31-38 | the DFS walk yields only existing paths, and directories only when included |
| PathTreeWalk.LevelDfsAppend | libraries/stdlib/jdk7/src/kotlin/io/path/PathTreeWalk.kt:158-159 | the DFS order of a level is additive |
| PathTreeWalk.EntriesOrderIsLevelDfs | libraries/stdlib/jdk7/src/kotlin/io/path/PathTreeWalk.kt:190-191 | the DFS order of a directory's entries is the DFS order of its queued children |
| PathTreeWalk.ItemDfsSplits | libraries/stdlib/jdk7/src/kotlin/io/path/PathTreeWalk.kt:187-192 | an item's DFS order is its own output followed by its children's |
| PathTreeWalk.LevelDfsSplits | libraries/stdlib/jdk7/src/kotlin/io/path/PathTreeWalk.kt:174-193 | as multisets, a level's DFS order is its outputs plus the next level's DFS order |
| PathTreeWalk.BfsFromIsLevelDfs | libraries/stdlib/jdk7/src/kotlin/io/path/PathTreeWalk.kt:174-193 | BFS from a level yields the same multiset as its DFS order |
| PathTreeWalk.BfsIsPermutationOfDfs | libraries/stdlib/jdk7/src/kotlin/io/path/PathTreeWalk.kt:20-29 | the BFS option changes only the order, not which paths are yielded nor how often |
| PathTreeWalk.BfsYieldsWalked | libraries/stdlib/jdk7/src/kotlin/io/path/PathTreeWalk.kt:31-38 | the corrected BFS walk yields only existing paths, directories only when included |
| PathTreeWalk.BfsYieldsMissingStart | libraries/stdlib/jdk7/src/kotlin/io/path/PathTreeWalk.kt:161-188 | as written, BFS yields a missing start path, which does not exist |
| PathTreeWalk.LevelOutputAtDepth | libraries/stdlib/jdk7/src/kotlin/io/path/PathTreeWalk.kt:158 | a level's outputs all have the level's depth |
| PathTreeWalk.ChildItemsAtDepth | libraries/stdlib/jdk7/src/kotlin/io/path/PathTreeWalk.kt:190-191 | a directory's entries are one level deeper |
| PathTreeWalk.ExpandAtDepth | libraries/stdlib/jdk7/src/kotlin/io/path/PathTreeWalk.kt:180-191 | the next level is one deeper |
| PathTreeWalk.BfsFromDepthOrdered | libraries/stdlib/jdk7/src/kotlin/io/path/PathTreeWalk.kt:158-193 | the paths of a BFS from a level come in non-decreasing depth |
| PathTreeWalk.DepthOrderedAppend | libraries/stdlib/jdk7/src/kotlin/io/path/PathTreeWalk.kt:180-186 | one level followed by deeper depth-ordered paths is depth ordered |
| PathTreeWalk.BfsByDepth | libraries/stdlib/jdk7/src/kotlin/io/path/PathTreeWalk.kt:24 | BFS yields shallower paths before deeper ones |
| PathTreeWalk.Somes | libraries/stdlib/jdk7/src/kotlin/io/path/PathTreeWalk.kt:190-191 | the queued entries are the listed paths, in order |
| PathTreeWalk.QueuedAppend | libraries/stdlib/jdk7/src/kotlin/io/path/PathTreeWalk.kt:158-159 | queueing is additive |
| PathTreeWalk.QueuedChildItems | libraries/stdlib/jdk7/src/kotlin/io/path/PathTreeWalk.kt:190-191 | queueing a directory's children appends its listed entries |
| PathTreeWalk.ChildrenFound | libraries/stdlib/jdk7/src/kotlin/io/path/PathTreeWalk.kt:190-191 | the queued children of a found item resolve to their nodes and are smaller |
| PathTreeWalk.ChildItemsFound | libraries/stdlib/jdk7/src/kotlin/io/path/PathTreeWalk.kt:190-191 | the same for a suffix of a directory's entries |
| PathTreeWalk.BfsTakeItem | libraries/stdlib/jdk7/src/kotlin/io/path/PathTreeWalk.kt:187-192 | taking the first item of the current level moves its output and its children correctly |
| PathTreeWalk.BfsTakeSeparator | libraries/stdlib/jdk7/src/kotlin/io/path/PathTreeWalk.kt:180-186 | passing a separator starts the next level without changing the output |
| PathTreeWalk.QueueFront | libraries/stdlib/jdk7/src/kotlin/io/path/PathTreeWalk.kt:178-180 | the queue starts with a separator iff the current level is done |
| PathTreeWalk.QueueTake | libraries/stdlib/jdk7/src/kotlin/io/path/PathTreeWalk.kt:178-191 | removing the first item and appending children keeps the queue's shape |
| PathTreeWalk.BfsIterator.constructor | libraries/stdlib/jdk7/src/kotlin/io/path/PathTreeWalk.kt:161-164 | the pending output of a new BFS iterator is the corrected BFS order: the start and a separator are queued, except that a missing start queues nothing |
| PathTreeWalk.BfsIterator.TakeSeparator | libraries/stdlib/jdk7/src/kotlin/io/path/PathTreeWalk.kt:180-186 | a separator yields nothing and re-queues itself only when the queue is not empty |
| PathTreeWalk.BfsIterator.TakeFile | libraries/stdlib/jdk7/src/kotlin/io/path/PathTreeWalk.kt:187-189 | a non-directory is yielded as the next pending path |
| PathTreeWalk.BfsIterator.TakeDirectory | libraries/stdlib/jdk7/src/kotlin/io/path/PathTreeWalk.kt:190-192 | a directory queues its entries and is yielded only when directories are included |
| PathTreeWalk.BfsIterator.TakeItem | libraries/stdlib/jdk7/src/kotlin/io/path/PathTreeWalk.kt:187-192 | an item is yielded as the next pending path, or skipped with progress |
| PathTreeWalk.BfsIterator.GotoNext | libraries/stdlib/jdk7/src/kotlin/io/path/PathTreeWalk.kt:174-193 | returns the next pending path, or null exactly when none is left |
| PathTreeWalk.WalkBreadthFirst | libraries/stdlib/jdk7/src/kotlin/io/path/PathTreeWalk.kt:157-194 | draining the BFS iterator gives the corrected BFS order |
| PathTreeWalk.WalkDepthFirst | libraries/stdlib/jdk7/src/kotlin/io/path/PathTreeWalk.kt:58-98 | draining the DFS iterator gives the DFS walk order |
| PathTreeWalk.Walk | libraries/stdlib/jdk7/src/kotlin/io/path/PathTreeWalk.kt:51-56 | the BFS option selects the (corrected) breadth-first order, otherwise the depth-first order |

## Left out

- The platform PsiBuilder is not part of this model. `PsiBuilder.Builder` keeps only what the primitives observe: lexemes, the remap overlay, the cursor and the markers. `precede`, comment and whitespace binders, and lexeme-level edge binding are not modelled.
- PsiBuilder.Builder.RollbackTo: does not undo `remapCurrentToken` remaps made after the marker. The platform's behaviour there is not visible in the source.
- lookahead (AbstractKotlinParsing.java:328-330) is left out. It is a raw `PsiBuilder.lookAhead` call with no logic of its own.
- `closeDeclarationWithCommentBinders`, `create` and `createTruncatedBuilder` (453-463) are left out, as is `currentContext` (507). These are comment binders and abstract factory methods over builder internals that are not part of this model.
- AbstractKotlinParsing.MatchTokenStreamPredicate: the pattern's `processToken` is a pure function of each token, so remaps that a pattern makes while scanning (through `At`/`AtSet.matching`, which call at()/atSet()) are not modelled. Since rollbackTo does not undo remaps, such remaps would persist after the scan, and the model's `b.lexemes == old(b.lexemes)` does not cover them.
- The `TokenStreamPattern` interface is not part of this model. It is represented by a record of pure functions (`processToken`, `handleUnmatchedClosing`, `result`, and so on). `AbstractTokenStreamPredicate` is reduced to the `At`/`AtSet` predicates the file defines.
- Java `assert` statements and Kotlin `check(...)` calls become `requires` clauses. Examples are the classId check at JavaClassChangesComputer.kt:57 and the rootFile assertion at PathTreeWalk.kt:140.
- KtTokens.SoftKeywordOfSpelling: has no contract of its own. Its meaning is stated by `SoftSpellingRoundTrip` and `SoftSpellingInjective`.
- The token display names and `KtToken` object identity are not modelled. Tokens are values of `TokenKind`. The foreign `WHITE_SPACE` and `DOC_COMMENT` element types carry no KtTokens id.
- The grammar-level token sets that getRecoveryTokenSet reads (`TOP_LEVEL_DECLARATION_FIRST` and similar) come from files that are not part of this model. They are a `GrammarSets` parameter.
- PsiBuilder.Lexemes.AdvanceN: the composition `AdvanceN(AdvanceN(p, m), n) == AdvanceN(p, m + n)` is not stated.
- JavaClassChanges.Collector: `ChangeSet.Collector` and `ChangeSet` are defined in another file of the compiler, which is not part of this model. They are modelled as two sets, so repeated members collapse and order does not matter. This matches the comment at lines 85-86.
- JavaClassChanges: `SAM_LOOKUP_NAME` is defined elsewhere. The model takes it as the constant `SamLookupName` (`"<SAM-CONSTRUCTOR>"`).
- JavaClassChanges: ABI hashes are `Long` in the source and unbounded integers here. Only their equality is used.
- In PathTreeWalk, I/O exceptions are omitted: the file system is an immutable, well-formed tree and `listDirectoryEntries` always succeeds. This drops the `failed` flag of `DirectoryState` (109, 117-124) and concurrent deletion.
- Symbolic links, `FOLLOW_LINKS` and `linkOptions` (45-46) are not modelled. There are no links in the tree.
- `visitFileTree` and the file visitor builder (215-229) are left out. They delegate to `java.nio` and are not part of the walk.
- AbstractIterator's `computeNext`/`setNext`/`done` protocol (71-77, 166-172) is not modelled. It is represented by `GotoNext` returning `None` at the end. `Walk` drains the iterator into a sequence.
- The listing order of directory entries is the order of a directory's entries in the tree.
- PathTreeWalk.BfsIterator.constructor: adds the existence check that the documentation promises and the source lacks (see "## Findings"). `BfsOrderAsWritten` keeps the behaviour as written.

## Findings

| source | as written | input that shows it | evidently intended | confidence | as-written member | corrected member |
|---|---|---|---|---|---|---|
| libraries/stdlib/jdk7/src/kotlin/io/path/PathTreeWalk.kt:161-164 | the BFS iterator queues the start path unconditionally. At 187-188 anything that is not a directory is returned, including a path that does not exist | a start path that does not exist, with the BFS option: the walk yields the start path (`[[]]` here) | as documented at 37-38 and 203-204, and as the DFS iterator does at lines 63-69: a missing start yields an empty sequence | not executed | PathTreeWalk.BfsYieldsMissingStart | PathTreeWalk.BfsOrder (with PathTreeWalk.BfsYieldsWalked and PathTreeWalk.BfsIsPermutationOfDfs) |
