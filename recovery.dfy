/**
 * The recovery cases of the Kotlin parser (RecoveryMessageType): each case
 * carries one fixed error message, possibly absent, and the parser's
 * getRecoveryTokenSet table assigns it a synchronisation set.
 */
module Recovery {
  import opened Wrappers
  import opened KtTokens

  /** One constructor per enum constant, in declaration order. */
  datatype RecoveryMessageType =
    | PackageNameMustBeDotSeparatedIdentifierList
    | QualifierNameMustBeDotSeparatedIdentifierList
    | ExpectingIdentifierInImportDirective
    | NameExpectedForClassOrObject
    | TypeNameExpectedInTypeAlias
    | ExpectingEqualsInTypeAlias
    | ExpectingParameterName
    | MissingKeywordInAnnotationTarget
    | MissingColonInAnnotationTarget
    | ExpectingTypeParameterName
    | ExpectingColonBeforeUpperBound
    | TypeParameterNameExpected
    | ParameterNameExpected
    | ExpectingArrowToSpecifyReturnTypeOfFunctionalType
    | ExpectingDot
    | ExpectingTypeName
    | ExpectingArrow
    | ExpectingLeftParenthesisInPropertyComponent
    | ExpectingVariableNameInFor
    | ExpectingIn
    | ExpectingLeftParenthesisInTryCatch
    | ExpectingRightParenthesisInTryCatch
    | ExpectingConditionInParentheses
    | ExpectingArgumentList
    | ExpectingRightParenthesisInArgumentList
    | ExpectingLeftParenthesisToOpenLoopRange
    | MissingRightAngleBracketInTypeParameterListInClassOrObject
    | MissingRightAngleBracketInTypeParameterListInTypeAlias
    | MissingRightAngleBracketInTypeParameterListInProperty
    | MissingRightAngleBracketInTypeParameterListInFunction1
    | MissingRightAngleBracketInTypeParameterListInFunction2
    | ExpectingNameInFunctionLiteralParameterListInMultiDeclaration
    | ExpectingNameInForInMultiDeclaration
    | ExpectingNameInPropertyInMultiDeclaration
    | ExpectingRightParenthesisInMultiDeclaration
    | ExpectingRightParenthesisInValueParameterList
    | ExpectingParameterNameInPropertyComponent
    | ExpectingFunctionName
    | ExpectingPropertyName
    | ExpectingClosingQuote
    | ExpectingName
    | ExpectingRightParenthesis
    | ExpectingLeftBrace
    | ExpectingRightBrace
    | ExpectingLeftBracket
    | ExpectingRightBracket
    | ExpectingIdentifier
    | ArrowIsExpected
    | ExpectingWhileFollowedByPostCondition
    | ExpectingRightBracketToCloseAnnotationList
    | ExpectingRightBraceToCloseEnumClassBody
    | ExpectingClassBody
    | MissingRightBrace
    | ExpectingLeftBraceToOpenBlock

  /* The message texts.  Several constants are built with the same literal;
     each literal is named once here. */
  const PackageNameMustBeADotSeparatedIdentifierListText: string := "Package name must be a '.'-separated identifier list"
  const QualifiedNameMustBeADotSeparatedIdentifierListText: string := "Qualified name must be a '.'-separated identifier list"
  const ExpectingIdentifierText: string := "Expecting identifier"
  const NameExpectedText: string := "Name expected"
  const TypeNameExpectedText: string := "Type name expected"
  const ExpectingEqText: string := "Expecting '='"
  const ExpectingParameterNameText: string := "Expecting parameter name"
  const ExpectingTypeParameterNameText: string := "Expecting type parameter name"
  const ExpectingColonBeforeTheUpperBoundText: string := "Expecting ':' before the upper bound"
  const TypeParameterNameExpectedText: string := "Type parameter name expected"
  const ParameterNameExpectedText: string := "Parameter name expected"
  const ExpectingArrowToSpecifyReturnTypeOfAFunctionTypeText: string := "Expecting '->' to specify return type of a function type"
  const ExpectingDotText: string := "Expecting '.'"
  const ExpectingTypeNameText: string := "Expecting type name"
  const ExpectingArrowText: string := "Expecting '->'"
  const ExpectingLParText: string := "Expecting '('"
  const ExpectingAVariableNameText: string := "Expecting a variable name"
  const ExpectingInText: string := "Expecting 'in'"
  const ExpectingRParText: string := "Expecting ')'"
  const ExpectingAConditionInParenthesesParensText: string := "Expecting a condition in parentheses '(...)'"
  const ExpectingAnArgumentListText: string := "Expecting an argument list"
  const ExpectingLParToOpenALoopRangeText: string := "Expecting '(' to open a loop range"
  const MissingGtText: string := "Missing '>'"
  const ExpectingANameText: string := "Expecting a name"
  const ExpectingQuoteText: string := "Expecting '\"'"
  const ExpectingLBraceText: string := "Expecting '{'"
  const ExpectingRBraceText: string := "Expecting '}'"
  const ExpectingLBracketText: string := "Expecting '['"
  const ExpectingRBracketText: string := "Expecting ']'"
  const ExpectingAnIdentifierText: string := "Expecting an identifier"
  const AnArrowIsExpectedText: string := "An -> is expected"
  const ExpectingWhileFollowedByAPostConditionText: string := "Expecting 'while' followed by a post-condition"
  const ExpectingRBracketToCloseTheAnnotationListText: string := "Expecting ']' to close the annotation list"
  const ExpectingRBraceToCloseEnumClassBodyText: string := "Expecting '}' to close enum class body"
  const ExpectingAClassBodyText: string := "Expecting a class body"
  const MissingRBraceText: string := "Missing '}'"
  const ExpectingLBraceToOpenABlockText: string := "Expecting '{' to open a block"

  /** The `message` field each constant is constructed with; a Java `null`
      is None. */
  function Message(r: RecoveryMessageType): Option<string>
  {
    match r
    case PackageNameMustBeDotSeparatedIdentifierList => Some(PackageNameMustBeADotSeparatedIdentifierListText)
    case QualifierNameMustBeDotSeparatedIdentifierList => Some(QualifiedNameMustBeADotSeparatedIdentifierListText)
    case ExpectingIdentifierInImportDirective => Some(ExpectingIdentifierText)
    case NameExpectedForClassOrObject => Some(NameExpectedText)
    case TypeNameExpectedInTypeAlias => Some(TypeNameExpectedText)
    case ExpectingEqualsInTypeAlias => Some(ExpectingEqText)
    case ExpectingParameterName => Some(ExpectingParameterNameText)
    case MissingKeywordInAnnotationTarget => None
    case MissingColonInAnnotationTarget => None
    case ExpectingTypeParameterName => Some(ExpectingTypeParameterNameText)
    case ExpectingColonBeforeUpperBound => Some(ExpectingColonBeforeTheUpperBoundText)
    case TypeParameterNameExpected => Some(TypeParameterNameExpectedText)
    case ParameterNameExpected => Some(ParameterNameExpectedText)
    case ExpectingArrowToSpecifyReturnTypeOfFunctionalType => Some(ExpectingArrowToSpecifyReturnTypeOfAFunctionTypeText)
    case ExpectingDot => Some(ExpectingDotText)
    case ExpectingTypeName => Some(ExpectingTypeNameText)
    case ExpectingArrow => Some(ExpectingArrowText)
    case ExpectingLeftParenthesisInPropertyComponent => Some(ExpectingLParText)
    case ExpectingVariableNameInFor => Some(ExpectingAVariableNameText)
    case ExpectingIn => Some(ExpectingInText)
    case ExpectingLeftParenthesisInTryCatch => Some(ExpectingLParText)
    case ExpectingRightParenthesisInTryCatch => Some(ExpectingRParText)
    case ExpectingConditionInParentheses => Some(ExpectingAConditionInParenthesesParensText)
    case ExpectingArgumentList => Some(ExpectingAnArgumentListText)
    case ExpectingRightParenthesisInArgumentList => Some(ExpectingRParText)
    case ExpectingLeftParenthesisToOpenLoopRange => Some(ExpectingLParToOpenALoopRangeText)
    case MissingRightAngleBracketInTypeParameterListInClassOrObject => Some(MissingGtText)
    case MissingRightAngleBracketInTypeParameterListInTypeAlias => Some(MissingGtText)
    case MissingRightAngleBracketInTypeParameterListInProperty => Some(MissingGtText)
    case MissingRightAngleBracketInTypeParameterListInFunction1 => Some(MissingGtText)
    case MissingRightAngleBracketInTypeParameterListInFunction2 => Some(MissingGtText)
    case ExpectingNameInFunctionLiteralParameterListInMultiDeclaration => Some(ExpectingANameText)
    case ExpectingNameInForInMultiDeclaration => Some(ExpectingANameText)
    case ExpectingNameInPropertyInMultiDeclaration => Some(ExpectingANameText)
    case ExpectingRightParenthesisInMultiDeclaration => Some(ExpectingRParText)
    case ExpectingRightParenthesisInValueParameterList => Some(ExpectingRParText)
    case ExpectingParameterNameInPropertyComponent => Some(ExpectingParameterNameText)
    case ExpectingFunctionName => None
    case ExpectingPropertyName => None
    case ExpectingClosingQuote => Some(ExpectingQuoteText)
    case ExpectingName => Some(ExpectingANameText)
    case ExpectingRightParenthesis => Some(ExpectingRParText)
    case ExpectingLeftBrace => Some(ExpectingLBraceText)
    case ExpectingRightBrace => Some(ExpectingRBraceText)
    case ExpectingLeftBracket => Some(ExpectingLBracketText)
    case ExpectingRightBracket => Some(ExpectingRBracketText)
    case ExpectingIdentifier => Some(ExpectingAnIdentifierText)
    case ArrowIsExpected => Some(AnArrowIsExpectedText)
    case ExpectingWhileFollowedByPostCondition => Some(ExpectingWhileFollowedByAPostConditionText)
    case ExpectingRightBracketToCloseAnnotationList => Some(ExpectingRBracketToCloseTheAnnotationListText)
    case ExpectingRightBraceToCloseEnumClassBody => Some(ExpectingRBraceToCloseEnumClassBodyText)
    case ExpectingClassBody => Some(ExpectingAClassBodyText)
    case MissingRightBrace => Some(MissingRBraceText)
    case ExpectingLeftBraceToOpenBlock => Some(ExpectingLBraceToOpenABlockText)
  }
  /** The token sets that getRecoveryTokenSet borrows from the grammar
      (KotlinParsing and KotlinExpressionParsing, which are not part of this
      model): their contents are parameters of the model. */
  datatype GrammarSets = GrammarSets(
    packageNameRecoverySet: set<TokenKind>,
    topLevelDeclarationFirst: set<TokenKind>,
    typeRefFirst: set<TokenKind>,
    expressionFirst: set<TokenKind>,
    expressionFollow: set<TokenKind>,
    declarationFirst: set<TokenKind>,
    whenConditionRecoverySet: set<TokenKind>,
    tryCatchRecoveryTokenSet: set<TokenKind>,
    typeParameterGtRecoverySet: set<TokenKind>,
    valueParametersFollowSet: set<TokenKind>,
    followAfterDestructuringDeclarationInLambda: set<TokenKind>,
    parameterNameRecoverySet: set<TokenKind>,
    inKeywordLBraceSet: set<TokenKind>,
    propertyNameFollowSet: set<TokenKind>,
    lBraceRBraceSet: set<TokenKind>)

  /** The IllegalStateException thrown for a case the table does not list. */
  datatype UnknownRecoverySetType = UnknownRecoverySetType(r: RecoveryMessageType)

  /** getRecoveryTokenSet: Ok(None) is the `null` set (report in place),
      Err is the IllegalStateException of the `default` branch. */
  function RecoveryTokenSet(r: RecoveryMessageType, g: GrammarSets)
    : Result<Option<set<TokenKind>>, UnknownRecoverySetType>
  {
    match r
    case PackageNameMustBeDotSeparatedIdentifierList => Ok(Some(g.packageNameRecoverySet))
    case QualifierNameMustBeDotSeparatedIdentifierList => Ok(Some({Hard(As), Single(Dot), Plain(EolOrSemicolon)}))
    case ExpectingIdentifierInImportDirective => Ok(Some({Single(Semicolon)}))
    case NameExpectedForClassOrObject =>
      Ok(Some({Single(Lt), Single(LPar), Single(Colon), Single(LBrace)} + g.topLevelDeclarationFirst))
    case TypeNameExpectedInTypeAlias => Ok(Some({Single(Lt), Single(Eq), Single(Semicolon)} + g.topLevelDeclarationFirst))
    case ExpectingEqualsInTypeAlias => Ok(Some(g.topLevelDeclarationFirst + {Single(Semicolon)}))
    case ExpectingParameterName => Ok(Some({Single(Arrow)}))
    case ExpectingTypeParameterName =>
      Ok(Some({Single(Colon), Single(Comma), Single(LBrace), Single(RBrace)} + g.typeRefFirst))
    case ExpectingColonBeforeUpperBound => Ok(Some({Single(LBrace), Single(RBrace)} + g.typeRefFirst))
    case ParameterNameExpected =>
      Ok(Some({Single(Colon), Single(Eq), Single(Comma), Single(RPar), Hard(Val), Hard(Var)}))
    case ExpectingArrowToSpecifyReturnTypeOfFunctionalType => Ok(Some(g.typeRefFirst))
    case ExpectingDot => Ok(Some({Plain(Identifier), Single(LBrace), Single(RBrace)}))
    case ExpectingTypeName => Ok(Some(g.expressionFirst + g.expressionFollow + g.declarationFirst))
    case ExpectingArrow => Ok(Some(g.whenConditionRecoverySet))
    case ExpectingLeftParenthesisInPropertyComponent =>
      Ok(Some({Single(RPar), Plain(Identifier), Single(Colon), Single(LBrace), Single(Eq)}))
    case ExpectingVariableNameInFor => Ok(Some({Single(Colon), Hard(In)}))
    case ExpectingIn => Ok(Some({Single(LPar), Single(LBrace), Single(RPar)}))
    case ExpectingLeftParenthesisInTryCatch => Ok(Some(g.tryCatchRecoveryTokenSet))
    case ExpectingRightParenthesisInTryCatch => Ok(Some(g.tryCatchRecoveryTokenSet))
    case ExpectingConditionInParentheses => Ok(Some(g.expressionFirst))
    case ExpectingLeftParenthesisToOpenLoopRange => Ok(Some(g.expressionFirst))
    case ExpectingArgumentList => Ok(Some(g.expressionFollow))
    case ExpectingRightParenthesisInArgumentList => Ok(Some(g.expressionFollow))
    case MissingRightAngleBracketInTypeParameterListInClassOrObject => Ok(Some(g.typeParameterGtRecoverySet))
    case MissingRightAngleBracketInTypeParameterListInTypeAlias => Ok(Some(g.typeParameterGtRecoverySet))
    case MissingRightAngleBracketInTypeParameterListInProperty =>
      Ok(Some({Plain(Identifier), Single(Eq), Single(Colon), Single(Semicolon)}))
    case MissingRightAngleBracketInTypeParameterListInFunction1 =>
      Ok(Some({Single(LBracket), Single(LBrace), Single(RBrace), Single(LPar)}))
    case MissingRightAngleBracketInTypeParameterListInFunction2 => Ok(Some({Single(LPar)} + g.valueParametersFollowSet))
    case ExpectingNameInFunctionLiteralParameterListInMultiDeclaration =>
      Ok(Some(g.followAfterDestructuringDeclarationInLambda + g.parameterNameRecoverySet))
    case ExpectingNameInForInMultiDeclaration => Ok(Some(g.inKeywordLBraceSet + g.parameterNameRecoverySet))
    case ExpectingNameInPropertyInMultiDeclaration => Ok(Some(g.propertyNameFollowSet + g.parameterNameRecoverySet))
    case ExpectingParameterNameInPropertyComponent =>
      Ok(Some({Single(RPar), Single(Colon), Single(LBrace), Single(Eq)}))
    case MissingColonInAnnotationTarget => Ok(Some({Plain(Identifier), Single(RBracket), Single(LBracket)}))
    case ExpectingFunctionName =>
      Ok(Some({Single(Lt), Single(LPar), Single(RPar), Single(Colon), Single(Eq)} + g.lBraceRBraceSet
        + g.topLevelDeclarationFirst))
    case ExpectingPropertyName => Ok(Some(g.propertyNameFollowSet + g.lBraceRBraceSet + g.topLevelDeclarationFirst))
    case TypeParameterNameExpected => Ok(Some({}))
    case MissingKeywordInAnnotationTarget => Ok(None)
    case ExpectingClosingQuote => Ok(None)
    case ExpectingName => Ok(None)
    case ExpectingRightParenthesis => Ok(None)
    case ExpectingLeftBrace => Ok(None)
    case ExpectingRightBrace => Ok(None)
    case ExpectingLeftBracket => Ok(None)
    case ExpectingRightBracket => Ok(None)
    case ExpectingIdentifier => Ok(None)
    case ArrowIsExpected => Ok(None)
    case ExpectingWhileFollowedByPostCondition => Ok(None)
    case ExpectingRightBracketToCloseAnnotationList => Ok(None)
    case ExpectingRightBraceToCloseEnumClassBody => Ok(None)
    case ExpectingClassBody => Ok(None)
    case MissingRightBrace => Ok(None)
    case ExpectingLeftBraceToOpenBlock => Ok(None)
    case ExpectingRightParenthesisInMultiDeclaration => Err(UnknownRecoverySetType(r))
    case ExpectingRightParenthesisInValueParameterList => Err(UnknownRecoverySetType(r))
  }

  /** The cases whose recovery reports in place (a `null` set). */
  const ReportInPlace: set<RecoveryMessageType> := {
    MissingKeywordInAnnotationTarget, ExpectingClosingQuote, ExpectingName, ExpectingRightParenthesis,
    ExpectingLeftBrace, ExpectingRightBrace, ExpectingLeftBracket, ExpectingRightBracket
  } + {
    ExpectingIdentifier, ArrowIsExpected, ExpectingWhileFollowedByPostCondition,
    ExpectingRightBracketToCloseAnnotationList, ExpectingRightBraceToCloseEnumClassBody, ExpectingClassBody,
    MissingRightBrace, ExpectingLeftBraceToOpenBlock
  }

  /** The cases the table does not list. */
  const Unlisted: set<RecoveryMessageType> :=
    {ExpectingRightParenthesisInMultiDeclaration, ExpectingRightParenthesisInValueParameterList}

  /** The cases constructed with a `null` message. */
  const WithoutMessage: set<RecoveryMessageType> :=
    {MissingKeywordInAnnotationTarget, MissingColonInAnnotationTarget, ExpectingFunctionName, ExpectingPropertyName}
  /** Exactly four cases are constructed with a `null` message. */
  lemma {:induction false} MessageAbsentExactlyWithoutMessage(r: RecoveryMessageType)
    ensures Message(r).None? <==> r in WithoutMessage
  {
    match r
    case PackageNameMustBeDotSeparatedIdentifierList => assert Message(r).Some?;
    case QualifierNameMustBeDotSeparatedIdentifierList => assert Message(r).Some?;
    case ExpectingIdentifierInImportDirective => assert Message(r).Some?;
    case NameExpectedForClassOrObject => assert Message(r).Some?;
    case TypeNameExpectedInTypeAlias => assert Message(r).Some?;
    case ExpectingEqualsInTypeAlias => assert Message(r).Some?;
    case ExpectingParameterName => assert Message(r).Some?;
    case MissingKeywordInAnnotationTarget => assert Message(r).None?;
    case MissingColonInAnnotationTarget => assert Message(r).None?;
    case ExpectingTypeParameterName => assert Message(r).Some?;
    case ExpectingColonBeforeUpperBound => assert Message(r).Some?;
    case TypeParameterNameExpected => assert Message(r).Some?;
    case ParameterNameExpected => assert Message(r).Some?;
    case ExpectingArrowToSpecifyReturnTypeOfFunctionalType => assert Message(r).Some?;
    case ExpectingDot => assert Message(r).Some?;
    case ExpectingTypeName => assert Message(r).Some?;
    case ExpectingArrow => assert Message(r).Some?;
    case ExpectingLeftParenthesisInPropertyComponent => assert Message(r).Some?;
    case ExpectingVariableNameInFor => assert Message(r).Some?;
    case ExpectingIn => assert Message(r).Some?;
    case ExpectingLeftParenthesisInTryCatch => assert Message(r).Some?;
    case ExpectingRightParenthesisInTryCatch => assert Message(r).Some?;
    case ExpectingConditionInParentheses => assert Message(r).Some?;
    case ExpectingArgumentList => assert Message(r).Some?;
    case ExpectingRightParenthesisInArgumentList => assert Message(r).Some?;
    case ExpectingLeftParenthesisToOpenLoopRange => assert Message(r).Some?;
    case MissingRightAngleBracketInTypeParameterListInClassOrObject => assert Message(r).Some?;
    case MissingRightAngleBracketInTypeParameterListInTypeAlias => assert Message(r).Some?;
    case MissingRightAngleBracketInTypeParameterListInProperty => assert Message(r).Some?;
    case MissingRightAngleBracketInTypeParameterListInFunction1 => assert Message(r).Some?;
    case MissingRightAngleBracketInTypeParameterListInFunction2 => assert Message(r).Some?;
    case ExpectingNameInFunctionLiteralParameterListInMultiDeclaration => assert Message(r).Some?;
    case ExpectingNameInForInMultiDeclaration => assert Message(r).Some?;
    case ExpectingNameInPropertyInMultiDeclaration => assert Message(r).Some?;
    case ExpectingRightParenthesisInMultiDeclaration => assert Message(r).Some?;
    case ExpectingRightParenthesisInValueParameterList => assert Message(r).Some?;
    case ExpectingParameterNameInPropertyComponent => assert Message(r).Some?;
    case ExpectingFunctionName => assert Message(r).None?;
    case ExpectingPropertyName => assert Message(r).None?;
    case ExpectingClosingQuote => assert Message(r).Some?;
    case ExpectingName => assert Message(r).Some?;
    case ExpectingRightParenthesis => assert Message(r).Some?;
    case ExpectingLeftBrace => assert Message(r).Some?;
    case ExpectingRightBrace => assert Message(r).Some?;
    case ExpectingLeftBracket => assert Message(r).Some?;
    case ExpectingRightBracket => assert Message(r).Some?;
    case ExpectingIdentifier => assert Message(r).Some?;
    case ArrowIsExpected => assert Message(r).Some?;
    case ExpectingWhileFollowedByPostCondition => assert Message(r).Some?;
    case ExpectingRightBracketToCloseAnnotationList => assert Message(r).Some?;
    case ExpectingRightBraceToCloseEnumClassBody => assert Message(r).Some?;
    case ExpectingClassBody => assert Message(r).Some?;
    case MissingRightBrace => assert Message(r).Some?;
    case ExpectingLeftBraceToOpenBlock => assert Message(r).Some?;
  }

  /** The five cases for a type parameter list whose '>' is missing; they
      share one message. */
  const MissingRightAngleBracket: set<RecoveryMessageType> := {
    MissingRightAngleBracketInTypeParameterListInClassOrObject, MissingRightAngleBracketInTypeParameterListInTypeAlias,
    MissingRightAngleBracketInTypeParameterListInProperty, MissingRightAngleBracketInTypeParameterListInFunction1,
    MissingRightAngleBracketInTypeParameterListInFunction2
  }

  lemma MissingRightAngleBracketCasesShareMessage(r: RecoveryMessageType)
    requires r in MissingRightAngleBracket
    ensures Message(r) == Some("Missing '>'")
  {
  }

  /** getRecoveryTokenSet throws exactly for the two cases it does not list. */
  lemma {:induction false} TableThrowsExactlyForUnlisted(r: RecoveryMessageType, g: GrammarSets)
    ensures RecoveryTokenSet(r, g).Err? <==> r in Unlisted
  {
    match r
    case PackageNameMustBeDotSeparatedIdentifierList =>
    case QualifierNameMustBeDotSeparatedIdentifierList =>
    case ExpectingIdentifierInImportDirective =>
    case NameExpectedForClassOrObject =>
    case TypeNameExpectedInTypeAlias =>
    case ExpectingEqualsInTypeAlias =>
    case ExpectingParameterName =>
    case MissingKeywordInAnnotationTarget =>
    case MissingColonInAnnotationTarget =>
    case ExpectingTypeParameterName =>
    case ExpectingColonBeforeUpperBound =>
    case TypeParameterNameExpected =>
    case ParameterNameExpected =>
    case ExpectingArrowToSpecifyReturnTypeOfFunctionalType =>
    case ExpectingDot =>
    case ExpectingTypeName =>
    case ExpectingArrow =>
    case ExpectingLeftParenthesisInPropertyComponent =>
    case ExpectingVariableNameInFor =>
    case ExpectingIn =>
    case ExpectingLeftParenthesisInTryCatch =>
    case ExpectingRightParenthesisInTryCatch =>
    case ExpectingConditionInParentheses =>
    case ExpectingArgumentList =>
    case ExpectingRightParenthesisInArgumentList =>
    case ExpectingLeftParenthesisToOpenLoopRange =>
    case MissingRightAngleBracketInTypeParameterListInClassOrObject =>
    case MissingRightAngleBracketInTypeParameterListInTypeAlias =>
    case MissingRightAngleBracketInTypeParameterListInProperty =>
    case MissingRightAngleBracketInTypeParameterListInFunction1 =>
    case MissingRightAngleBracketInTypeParameterListInFunction2 =>
    case ExpectingNameInFunctionLiteralParameterListInMultiDeclaration =>
    case ExpectingNameInForInMultiDeclaration =>
    case ExpectingNameInPropertyInMultiDeclaration =>
    case ExpectingRightParenthesisInMultiDeclaration =>
    case ExpectingRightParenthesisInValueParameterList =>
    case ExpectingParameterNameInPropertyComponent =>
    case ExpectingFunctionName =>
    case ExpectingPropertyName =>
    case ExpectingClosingQuote =>
    case ExpectingName =>
    case ExpectingRightParenthesis =>
    case ExpectingLeftBrace =>
    case ExpectingRightBrace =>
    case ExpectingLeftBracket =>
    case ExpectingRightBracket =>
    case ExpectingIdentifier =>
    case ArrowIsExpected =>
    case ExpectingWhileFollowedByPostCondition =>
    case ExpectingRightBracketToCloseAnnotationList =>
    case ExpectingRightBraceToCloseEnumClassBody =>
    case ExpectingClassBody =>
    case MissingRightBrace =>
    case ExpectingLeftBraceToOpenBlock =>
  }

  /** getRecoveryTokenSet returns `null` exactly for the report-in-place group. */
  lemma {:induction false} TableReportsInPlaceExactly(r: RecoveryMessageType, g: GrammarSets)
    ensures RecoveryTokenSet(r, g) == Ok(None) <==> r in ReportInPlace
  {
    match r
    case PackageNameMustBeDotSeparatedIdentifierList =>
    case QualifierNameMustBeDotSeparatedIdentifierList =>
    case ExpectingIdentifierInImportDirective =>
    case NameExpectedForClassOrObject =>
    case TypeNameExpectedInTypeAlias =>
    case ExpectingEqualsInTypeAlias =>
    case ExpectingParameterName =>
    case MissingKeywordInAnnotationTarget =>
    case MissingColonInAnnotationTarget =>
    case ExpectingTypeParameterName =>
    case ExpectingColonBeforeUpperBound =>
    case TypeParameterNameExpected =>
    case ParameterNameExpected =>
    case ExpectingArrowToSpecifyReturnTypeOfFunctionalType =>
    case ExpectingDot =>
    case ExpectingTypeName =>
    case ExpectingArrow =>
    case ExpectingLeftParenthesisInPropertyComponent =>
    case ExpectingVariableNameInFor =>
    case ExpectingIn =>
    case ExpectingLeftParenthesisInTryCatch =>
    case ExpectingRightParenthesisInTryCatch =>
    case ExpectingConditionInParentheses =>
    case ExpectingArgumentList =>
    case ExpectingRightParenthesisInArgumentList =>
    case ExpectingLeftParenthesisToOpenLoopRange =>
    case MissingRightAngleBracketInTypeParameterListInClassOrObject =>
    case MissingRightAngleBracketInTypeParameterListInTypeAlias =>
    case MissingRightAngleBracketInTypeParameterListInProperty =>
    case MissingRightAngleBracketInTypeParameterListInFunction1 =>
    case MissingRightAngleBracketInTypeParameterListInFunction2 =>
    case ExpectingNameInFunctionLiteralParameterListInMultiDeclaration =>
    case ExpectingNameInForInMultiDeclaration =>
    case ExpectingNameInPropertyInMultiDeclaration =>
    case ExpectingRightParenthesisInMultiDeclaration =>
    case ExpectingRightParenthesisInValueParameterList =>
    case ExpectingParameterNameInPropertyComponent =>
    case ExpectingFunctionName =>
    case ExpectingPropertyName =>
    case ExpectingClosingQuote =>
    case ExpectingName =>
    case ExpectingRightParenthesis =>
    case ExpectingLeftBrace =>
    case ExpectingRightBrace =>
    case ExpectingLeftBracket =>
    case ExpectingRightBracket =>
    case ExpectingIdentifier =>
    case ArrowIsExpected =>
    case ExpectingWhileFollowedByPostCondition =>
    case ExpectingRightBracketToCloseAnnotationList =>
    case ExpectingRightBraceToCloseEnumClassBody =>
    case ExpectingClassBody =>
    case MissingRightBrace =>
    case ExpectingLeftBraceToOpenBlock =>
  }

  /** The two try-catch cases have different messages but one recovery set. */
  lemma TryCatchCasesShareRecoverySet(g: GrammarSets)
    ensures Message(ExpectingLeftParenthesisInTryCatch) != Message(ExpectingRightParenthesisInTryCatch)
    ensures RecoveryTokenSet(ExpectingLeftParenthesisInTryCatch, g) == RecoveryTokenSet(ExpectingRightParenthesisInTryCatch, g)
    ensures RecoveryTokenSet(ExpectingLeftParenthesisInTryCatch, g) == Ok(Some(g.tryCatchRecoveryTokenSet))
  {
  }

  /** TypeParameterNameExpected synchronises on the empty set, which differs
      from reporting in place: errorWithRecovery then consumes a token unless
      it is at a brace. */
  lemma TypeParameterNameExpectedHasEmptySet(g: GrammarSets)
    ensures RecoveryTokenSet(TypeParameterNameExpected, g) == Ok(Some({}))
    ensures TypeParameterNameExpected !in ReportInPlace
  {
  }
}
