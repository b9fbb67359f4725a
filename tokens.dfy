/**
 * The token constants of the Kotlin lexer (KtTokens): their numeric type ids,
 * the kind of token object each one is (plain token, single-value token,
 * keyword or soft keyword, modifier keyword or not), and the named token
 * sets.  A token constant is a value of TokenKind; the outer constructor is
 * the Java class the constant is an instance of.  A TokenSet is a
 * set<TokenKind>.
 */
module KtTokens {
  import opened Wrappers

  /** Constants created with `new KtToken(debugName, id)`. */
  datatype PlainToken =
    | Eof
    | Reserved
    | BlockComment
    | EolComment
    | ShebangComment
    | IntegerLiteral
    | FloatLiteral
    | CharacterLiteral
    | ClosingQuote
    | OpenQuote
    | RegularStringPart
    | EscapeSequence
    | ShortTemplateEntryStart
    | LongTemplateEntryStart
    | LongTemplateEntryEnd
    | DanglingNewline
    | Identifier
    | FieldIdentifier
    | EolOrSemicolon

  /** Constants created with `new KtSingleValueToken(debugName, value, id)`. */
  datatype Punctuation =
    | LBracket
    | RBracket
    | LBrace
    | RBrace
    | LPar
    | RPar
    | Dot
    | Plusplus
    | Minusminus
    | Mul
    | Plus
    | Minus
    | Excl
    | Div
    | Perc
    | Lt
    | Gt
    | Lteq
    | Gteq
    | Eqeqeq
    | Arrow
    | DoubleArrow
    | Excleqeqeq
    | Eqeq
    | Excleq
    | Exclexcl
    | Andand
    | And
    | Oror
    | SafeAccess
    | Elvis
    | Quest
    | Coloncolon
    | Colon
    | Semicolon
    | DoubleSemicolon
    | Range
    | RangeUntil
    | Eq
    | Multeq
    | Diveq
    | Perceq
    | Pluseq
    | Minuseq
    | Hash
    | At
    | Comma

  /** Constants created with `KtKeywordToken.keyword` or `KtModifierKeywordToken.keywordModifier`. */
  datatype HardKeyword =
    | Package
    | As
    | TypeAlias
    | Class
    | This
    | Super
    | Val
    | Var
    | Fun
    | For
    | Null
    | True
    | False
    | Is
    | In
    | Throw
    | Return
    | Break
    | Continue
    | Object
    | If
    | Try
    | Else
    | While
    | Do
    | When
    | Interface
    | Typeof
    | AsSafe
    | NotIn
    | NotIs

  /** Constants created with `KtKeywordToken.softKeyword` or `KtModifierKeywordToken.softKeywordModifier`. */
  datatype SoftKeyword =
    | File
    | Field
    | Property
    | Receiver
    | Param
    | Setparam
    | Delegate
    | Import
    | Where
    | By
    | Get
    | Set
    | Constructor
    | Init
    | Context
    | Abstract
    | Enum
    | Contract
    | Open
    | Inner
    | Override
    | Private
    | Public
    | Internal
    | Protected
    | Catch
    | Out
    | Vararg
    | Reified
    | Dynamic
    | Companion
    | Sealed
    | Finally
    | Final
    | Lateinit
    | Data
    | Value
    | Inline
    | Noinline
    | Tailrec
    | External
    | Annotation
    | Crossinline
    | Operator
    | Infix
    | Const
    | Suspend
    | Header
    | Impl
    | Expect
    | Actual

  /** A token type: one of the KtTokens constants, or one of the two platform
      element types that KtTokens re-exports without a Kotlin id. */
  datatype TokenKind =
    | Plain(plain: PlainToken)
    | Single(single: Punctuation)
    | Hard(hard: HardKeyword)
    | Soft(soft: SoftKeyword)
    | WhiteSpace  // TokenType.WHITE_SPACE
    | DocComment  // KDocTokens.KDOC

  /** `KtSingleValueToken.getValue()`: the fixed text of the token. */
  function PunctuationText(p: Punctuation): string
  {
    match p
    case LBracket => "["
    case RBracket => "]"
    case LBrace => "{"
    case RBrace => "}"
    case LPar => "("
    case RPar => ")"
    case Dot => "."
    case Plusplus => "++"
    case Minusminus => "--"
    case Mul => "*"
    case Plus => "+"
    case Minus => "-"
    case Excl => "!"
    case Div => "/"
    case Perc => "%"
    case Lt => "<"
    case Gt => ">"
    case Lteq => "<="
    case Gteq => ">="
    case Eqeqeq => "==="
    case Arrow => "->"
    case DoubleArrow => "=>"
    case Excleqeqeq => "!=="
    case Eqeq => "=="
    case Excleq => "!="
    case Exclexcl => "!!"
    case Andand => "&&"
    case And => "&"
    case Oror => "||"
    case SafeAccess => "?."
    case Elvis => "?:"
    case Quest => "?"
    case Coloncolon => "::"
    case Colon => ":"
    case Semicolon => ";"
    case DoubleSemicolon => ";;"
    case Range => ".."
    case RangeUntil => "..<"
    case Eq => "="
    case Multeq => "*="
    case Diveq => "/="
    case Perceq => "%="
    case Pluseq => "+="
    case Minuseq => "-="
    case Hash => "#"
    case At => "@"
    case Comma => ","
  }

  /** `KtKeywordToken.getValue()` of a keyword. */
  function HardSpelling(k: HardKeyword): string
  {
    match k
    case Package => "package"
    case As => "as"
    case TypeAlias => "typealias"
    case Class => "class"
    case This => "this"
    case Super => "super"
    case Val => "val"
    case Var => "var"
    case Fun => "fun"
    case For => "for"
    case Null => "null"
    case True => "true"
    case False => "false"
    case Is => "is"
    case In => "in"
    case Throw => "throw"
    case Return => "return"
    case Break => "break"
    case Continue => "continue"
    case Object => "object"
    case If => "if"
    case Try => "try"
    case Else => "else"
    case While => "while"
    case Do => "do"
    case When => "when"
    case Interface => "interface"
    case Typeof => "typeof"
    case AsSafe => "AS_SAFE"
    case NotIn => "!in"
    case NotIs => "!is"
  }

  /** `KtKeywordToken.getValue()` of a soft keyword. */
  function SoftSpelling(k: SoftKeyword): string
  {
    match k
    case File => "file"
    case Field => "field"
    case Property => "property"
    case Receiver => "receiver"
    case Param => "param"
    case Setparam => "setparam"
    case Delegate => "delegate"
    case Import => "import"
    case Where => "where"
    case By => "by"
    case Get => "get"
    case Set => "set"
    case Constructor => "constructor"
    case Init => "init"
    case Context => "context"
    case Abstract => "abstract"
    case Enum => "enum"
    case Contract => "contract"
    case Open => "open"
    case Inner => "inner"
    case Override => "override"
    case Private => "private"
    case Public => "public"
    case Internal => "internal"
    case Protected => "protected"
    case Catch => "catch"
    case Out => "out"
    case Vararg => "vararg"
    case Reified => "reified"
    case Dynamic => "dynamic"
    case Companion => "companion"
    case Sealed => "sealed"
    case Finally => "finally"
    case Final => "final"
    case Lateinit => "lateinit"
    case Data => "data"
    case Value => "value"
    case Inline => "inline"
    case Noinline => "noinline"
    case Tailrec => "tailrec"
    case External => "external"
    case Annotation => "annotation"
    case Crossinline => "crossinline"
    case Operator => "operator"
    case Infix => "infix"
    case Const => "const"
    case Suspend => "suspend"
    case Header => "header"
    case Impl => "impl"
    case Expect => "expect"
    case Actual => "actual"
  }

  /** The fixed keywords created with `keywordModifier`. */
  predicate HardIsModifier(k: HardKeyword)
  {
    k == Fun || k == In
  }

  /** Whether a soft keyword was created with `softKeywordModifier`. */
  predicate SoftIsModifier(k: SoftKeyword)
  {
    match k
    case File => false
    case Field => false
    case Property => false
    case Receiver => false
    case Param => false
    case Setparam => false
    case Delegate => false
    case Import => false
    case Where => false
    case By => false
    case Get => false
    case Set => false
    case Constructor => false
    case Init => false
    case Context => false
    case Abstract => true
    case Enum => true
    case Contract => true
    case Open => true
    case Inner => true
    case Override => true
    case Private => true
    case Public => true
    case Internal => true
    case Protected => true
    case Catch => false
    case Out => true
    case Vararg => true
    case Reified => true
    case Dynamic => false
    case Companion => true
    case Sealed => true
    case Finally => false
    case Final => true
    case Lateinit => true
    case Data => true
    case Value => true
    case Inline => true
    case Noinline => true
    case Tailrec => true
    case External => true
    case Annotation => true
    case Crossinline => true
    case Operator => true
    case Infix => true
    case Const => true
    case Suspend => true
    case Header => true
    case Impl => true
    case Expect => true
    case Actual => true
  }

  /** `instanceof KtKeywordToken` */
  predicate IsKeywordToken(t: TokenKind) { t.Hard? || t.Soft? }

  /** `KtKeywordToken.isSoft()` */
  predicate IsSoftKeyword(t: TokenKind) { t.Soft? }

  /** `instanceof KtModifierKeywordToken` */
  predicate IsModifierKeyword(t: TokenKind)
  {
    (t.Hard? && HardIsModifier(t.hard)) || (t.Soft? && SoftIsModifier(t.soft))
  }

  /** `KtKeywordToken.getValue()` */
  function KeywordValue(t: TokenKind): string
    requires IsKeywordToken(t)
  {
    if t.Hard? then HardSpelling(t.hard) else SoftSpelling(t.soft)
  }

  /** INVALID_Type is declared, but no token constant is created with it. */
  const InvalidType: nat := 0

  function PlainId(p: PlainToken): nat
  {
    match p
    case Eof => 1
    case Reserved => 2
    case BlockComment => 3
    case EolComment => 4
    case ShebangComment => 5
    case IntegerLiteral => 6
    case FloatLiteral => 7
    case CharacterLiteral => 8
    case ClosingQuote => 9
    case OpenQuote => 10
    case RegularStringPart => 11
    case EscapeSequence => 12
    case ShortTemplateEntryStart => 13
    case LongTemplateEntryStart => 14
    case LongTemplateEntryEnd => 15
    case DanglingNewline => 16
    case Identifier => 46
    case FieldIdentifier => 47
    case EolOrSemicolon => 97
  }

  function PunctuationId(p: Punctuation): nat
  {
    match p
    case LBracket => 48
    case RBracket => 49
    case LBrace => 50
    case RBrace => 51
    case LPar => 52
    case RPar => 53
    case Dot => 54
    case Plusplus => 55
    case Minusminus => 56
    case Mul => 57
    case Plus => 58
    case Minus => 59
    case Excl => 60
    case Div => 61
    case Perc => 62
    case Lt => 63
    case Gt => 64
    case Lteq => 65
    case Gteq => 66
    case Eqeqeq => 67
    case Arrow => 68
    case DoubleArrow => 69
    case Excleqeqeq => 70
    case Eqeq => 71
    case Excleq => 72
    case Exclexcl => 73
    case Andand => 74
    case And => 75
    case Oror => 76
    case SafeAccess => 77
    case Elvis => 78
    case Quest => 79
    case Coloncolon => 80
    case Colon => 81
    case Semicolon => 82
    case DoubleSemicolon => 83
    case Range => 84
    case RangeUntil => 85
    case Eq => 86
    case Multeq => 87
    case Diveq => 88
    case Perceq => 89
    case Pluseq => 90
    case Minuseq => 91
    case Hash => 94
    case At => 95
    case Comma => 96
  }

  function HardId(k: HardKeyword): nat
  {
    match k
    case Package => 17
    case As => 18
    case TypeAlias => 19
    case Class => 20
    case This => 21
    case Super => 22
    case Val => 23
    case Var => 24
    case Fun => 25
    case For => 26
    case Null => 27
    case True => 28
    case False => 29
    case Is => 30
    case In => 31
    case Throw => 32
    case Return => 33
    case Break => 34
    case Continue => 35
    case Object => 36
    case If => 37
    case Try => 38
    case Else => 39
    case While => 40
    case Do => 41
    case When => 42
    case Interface => 43
    case Typeof => 44
    case AsSafe => 45
    case NotIn => 92
    case NotIs => 93
  }

  function SoftId(k: SoftKeyword): nat
  {
    match k
    case File => 98
    case Field => 99
    case Property => 100
    case Receiver => 101
    case Param => 102
    case Setparam => 103
    case Delegate => 104
    case Import => 105
    case Where => 106
    case By => 107
    case Get => 108
    case Set => 109
    case Constructor => 110
    case Init => 111
    case Context => 112
    case Abstract => 113
    case Enum => 114
    case Contract => 115
    case Open => 116
    case Inner => 117
    case Override => 118
    case Private => 119
    case Public => 120
    case Internal => 121
    case Protected => 122
    case Catch => 123
    case Out => 124
    case Vararg => 125
    case Reified => 126
    case Dynamic => 127
    case Companion => 128
    case Sealed => 129
    case Finally => 130
    case Final => 131
    case Lateinit => 132
    case Data => 133
    case Value => 134
    case Inline => 135
    case Noinline => 136
    case Tailrec => 137
    case External => 138
    case Annotation => 139
    case Crossinline => 140
    case Operator => 141
    case Infix => 142
    case Const => 143
    case Suspend => 144
    case Header => 145
    case Impl => 146
    case Expect => 147
    case Actual => 148
  }

  /** The `<NAME>_Type` id a token constant is created with. */
  function TypeId(t: TokenKind): Option<nat>
  {
    match t
    case Plain(p) => Some(PlainId(p))
    case Single(p) => Some(PunctuationId(p))
    case Hard(k) => Some(HardId(k))
    case Soft(k) => Some(SoftId(k))
    case WhiteSpace => None
    case DocComment => None
  }

  /** The token constant created with a given id, if there is one (looked
      up in blocks of sixteen ids). */
  function TokenOfTypeId(id: int): Option<TokenKind>
  {
    if id < 1 then None
    else if id <= 16 then TokenWithIdIn1To16(id)
    else if id <= 32 then TokenWithIdIn17To32(id)
    else if id <= 48 then TokenWithIdIn33To48(id)
    else if id <= 64 then TokenWithIdIn49To64(id)
    else if id <= 80 then TokenWithIdIn65To80(id)
    else if id <= 96 then TokenWithIdIn81To96(id)
    else if id <= 112 then TokenWithIdIn97To112(id)
    else if id <= 128 then TokenWithIdIn113To128(id)
    else if id <= 144 then TokenWithIdIn129To144(id)
    else if id <= 148 then TokenWithIdIn145To148(id)
    else None
  }

  function TokenWithIdIn1To16(id: int): Option<TokenKind>
  {
    match id
    case 1 => Some(Plain(Eof))
    case 2 => Some(Plain(Reserved))
    case 3 => Some(Plain(BlockComment))
    case 4 => Some(Plain(EolComment))
    case 5 => Some(Plain(ShebangComment))
    case 6 => Some(Plain(IntegerLiteral))
    case 7 => Some(Plain(FloatLiteral))
    case 8 => Some(Plain(CharacterLiteral))
    case 9 => Some(Plain(ClosingQuote))
    case 10 => Some(Plain(OpenQuote))
    case 11 => Some(Plain(RegularStringPart))
    case 12 => Some(Plain(EscapeSequence))
    case 13 => Some(Plain(ShortTemplateEntryStart))
    case 14 => Some(Plain(LongTemplateEntryStart))
    case 15 => Some(Plain(LongTemplateEntryEnd))
    case 16 => Some(Plain(DanglingNewline))
    case _ => None
  }

  function TokenWithIdIn17To32(id: int): Option<TokenKind>
  {
    match id
    case 17 => Some(Hard(Package))
    case 18 => Some(Hard(As))
    case 19 => Some(Hard(TypeAlias))
    case 20 => Some(Hard(Class))
    case 21 => Some(Hard(This))
    case 22 => Some(Hard(Super))
    case 23 => Some(Hard(Val))
    case 24 => Some(Hard(Var))
    case 25 => Some(Hard(Fun))
    case 26 => Some(Hard(For))
    case 27 => Some(Hard(Null))
    case 28 => Some(Hard(True))
    case 29 => Some(Hard(False))
    case 30 => Some(Hard(Is))
    case 31 => Some(Hard(In))
    case 32 => Some(Hard(Throw))
    case _ => None
  }

  function TokenWithIdIn33To48(id: int): Option<TokenKind>
  {
    match id
    case 33 => Some(Hard(Return))
    case 34 => Some(Hard(Break))
    case 35 => Some(Hard(Continue))
    case 36 => Some(Hard(Object))
    case 37 => Some(Hard(If))
    case 38 => Some(Hard(Try))
    case 39 => Some(Hard(Else))
    case 40 => Some(Hard(While))
    case 41 => Some(Hard(Do))
    case 42 => Some(Hard(When))
    case 43 => Some(Hard(Interface))
    case 44 => Some(Hard(Typeof))
    case 45 => Some(Hard(AsSafe))
    case 46 => Some(Plain(Identifier))
    case 47 => Some(Plain(FieldIdentifier))
    case 48 => Some(Single(LBracket))
    case _ => None
  }

  function TokenWithIdIn49To64(id: int): Option<TokenKind>
  {
    match id
    case 49 => Some(Single(RBracket))
    case 50 => Some(Single(LBrace))
    case 51 => Some(Single(RBrace))
    case 52 => Some(Single(LPar))
    case 53 => Some(Single(RPar))
    case 54 => Some(Single(Dot))
    case 55 => Some(Single(Plusplus))
    case 56 => Some(Single(Minusminus))
    case 57 => Some(Single(Mul))
    case 58 => Some(Single(Plus))
    case 59 => Some(Single(Minus))
    case 60 => Some(Single(Excl))
    case 61 => Some(Single(Div))
    case 62 => Some(Single(Perc))
    case 63 => Some(Single(Lt))
    case 64 => Some(Single(Gt))
    case _ => None
  }

  function TokenWithIdIn65To80(id: int): Option<TokenKind>
  {
    match id
    case 65 => Some(Single(Lteq))
    case 66 => Some(Single(Gteq))
    case 67 => Some(Single(Eqeqeq))
    case 68 => Some(Single(Arrow))
    case 69 => Some(Single(DoubleArrow))
    case 70 => Some(Single(Excleqeqeq))
    case 71 => Some(Single(Eqeq))
    case 72 => Some(Single(Excleq))
    case 73 => Some(Single(Exclexcl))
    case 74 => Some(Single(Andand))
    case 75 => Some(Single(And))
    case 76 => Some(Single(Oror))
    case 77 => Some(Single(SafeAccess))
    case 78 => Some(Single(Elvis))
    case 79 => Some(Single(Quest))
    case 80 => Some(Single(Coloncolon))
    case _ => None
  }

  function TokenWithIdIn81To96(id: int): Option<TokenKind>
  {
    match id
    case 81 => Some(Single(Colon))
    case 82 => Some(Single(Semicolon))
    case 83 => Some(Single(DoubleSemicolon))
    case 84 => Some(Single(Range))
    case 85 => Some(Single(RangeUntil))
    case 86 => Some(Single(Eq))
    case 87 => Some(Single(Multeq))
    case 88 => Some(Single(Diveq))
    case 89 => Some(Single(Perceq))
    case 90 => Some(Single(Pluseq))
    case 91 => Some(Single(Minuseq))
    case 92 => Some(Hard(NotIn))
    case 93 => Some(Hard(NotIs))
    case 94 => Some(Single(Hash))
    case 95 => Some(Single(At))
    case 96 => Some(Single(Comma))
    case _ => None
  }

  function TokenWithIdIn97To112(id: int): Option<TokenKind>
  {
    match id
    case 97 => Some(Plain(EolOrSemicolon))
    case 98 => Some(Soft(File))
    case 99 => Some(Soft(Field))
    case 100 => Some(Soft(Property))
    case 101 => Some(Soft(Receiver))
    case 102 => Some(Soft(Param))
    case 103 => Some(Soft(Setparam))
    case 104 => Some(Soft(Delegate))
    case 105 => Some(Soft(Import))
    case 106 => Some(Soft(Where))
    case 107 => Some(Soft(By))
    case 108 => Some(Soft(Get))
    case 109 => Some(Soft(Set))
    case 110 => Some(Soft(Constructor))
    case 111 => Some(Soft(Init))
    case 112 => Some(Soft(Context))
    case _ => None
  }

  function TokenWithIdIn113To128(id: int): Option<TokenKind>
  {
    match id
    case 113 => Some(Soft(Abstract))
    case 114 => Some(Soft(Enum))
    case 115 => Some(Soft(Contract))
    case 116 => Some(Soft(Open))
    case 117 => Some(Soft(Inner))
    case 118 => Some(Soft(Override))
    case 119 => Some(Soft(Private))
    case 120 => Some(Soft(Public))
    case 121 => Some(Soft(Internal))
    case 122 => Some(Soft(Protected))
    case 123 => Some(Soft(Catch))
    case 124 => Some(Soft(Out))
    case 125 => Some(Soft(Vararg))
    case 126 => Some(Soft(Reified))
    case 127 => Some(Soft(Dynamic))
    case 128 => Some(Soft(Companion))
    case _ => None
  }

  function TokenWithIdIn129To144(id: int): Option<TokenKind>
  {
    match id
    case 129 => Some(Soft(Sealed))
    case 130 => Some(Soft(Finally))
    case 131 => Some(Soft(Final))
    case 132 => Some(Soft(Lateinit))
    case 133 => Some(Soft(Data))
    case 134 => Some(Soft(Value))
    case 135 => Some(Soft(Inline))
    case 136 => Some(Soft(Noinline))
    case 137 => Some(Soft(Tailrec))
    case 138 => Some(Soft(External))
    case 139 => Some(Soft(Annotation))
    case 140 => Some(Soft(Crossinline))
    case 141 => Some(Soft(Operator))
    case 142 => Some(Soft(Infix))
    case 143 => Some(Soft(Const))
    case 144 => Some(Soft(Suspend))
    case _ => None
  }

  function TokenWithIdIn145To148(id: int): Option<TokenKind>
  {
    match id
    case 145 => Some(Soft(Header))
    case 146 => Some(Soft(Impl))
    case 147 => Some(Soft(Expect))
    case 148 => Some(Soft(Actual))
    case _ => None
  }

  /** KEYWORDS: every fixed keyword. */
  const Keywords: set<TokenKind> :=
    {
      Hard(Package), Hard(As), Hard(TypeAlias), Hard(Class), Hard(Interface), Hard(This),
      Hard(Super), Hard(Val), Hard(Var), Hard(Fun), Hard(For), Hard(Null), Hard(True), Hard(False),
      Hard(Is), Hard(In)
    } + {
      Hard(Throw), Hard(Return), Hard(Break), Hard(Continue), Hard(Object), Hard(If), Hard(Else),
      Hard(While), Hard(Do), Hard(Try), Hard(When), Hard(NotIn), Hard(NotIs), Hard(AsSafe),
      Hard(Typeof)
    }

  /** SOFT_KEYWORDS: every soft keyword. */
  const SoftKeywords: set<TokenKind> :=
    {
      Soft(File), Soft(Import), Soft(Where), Soft(By), Soft(Get), Soft(Set), Soft(Abstract),
      Soft(Enum), Soft(Contract), Soft(Open), Soft(Inner), Soft(Override), Soft(Private),
      Soft(Public), Soft(Internal), Soft(Protected), Soft(Catch), Soft(Finally), Soft(Out),
      Soft(Final), Soft(Vararg), Soft(Reified), Soft(Dynamic), Soft(Companion), Soft(Constructor),
      Soft(Init)
    } + {
      Soft(Sealed), Soft(Field), Soft(Property), Soft(Receiver), Soft(Param), Soft(Setparam),
      Soft(Delegate), Soft(Lateinit), Soft(Data), Soft(Inline), Soft(Noinline), Soft(Tailrec),
      Soft(External), Soft(Annotation), Soft(Crossinline), Soft(Const), Soft(Operator),
      Soft(Infix), Soft(Suspend), Soft(Header), Soft(Impl), Soft(Expect), Soft(Actual),
      Soft(Value), Soft(Context)
    }

  /** MODIFIER_KEYWORDS_ARRAY.  Stub serialisation stores a modifier as its
      index here, so the order is fixed. */
  const ModifierKeywordsArray: seq<TokenKind> :=
    [Soft(Abstract), Soft(Enum), Soft(Contract), Soft(Open), Soft(Inner), Soft(Override), Soft(Private)] +
    [Soft(Public), Soft(Internal), Soft(Protected), Soft(Out), Hard(In), Soft(Final), Soft(Vararg)] +
    [Soft(Reified), Soft(Companion), Soft(Sealed), Soft(Lateinit)] +
    [Soft(Data), Soft(Inline), Soft(Noinline), Soft(Tailrec), Soft(External), Soft(Annotation), Soft(Crossinline)] +
    [Soft(Const), Soft(Operator), Soft(Infix), Soft(Suspend)] +
    [Soft(Header), Soft(Impl), Soft(Expect), Soft(Actual), Hard(Fun), Soft(Value)]

  /** MODIFIER_KEYWORDS */
  const ModifierKeywords: set<TokenKind> := set t | t in ModifierKeywordsArray

  /** TYPE_MODIFIER_KEYWORDS */
  const TypeModifierKeywords: set<TokenKind> := {
    Soft(Suspend)
  }

  /** TYPE_ARGUMENT_MODIFIER_KEYWORDS */
  const TypeArgumentModifierKeywords: set<TokenKind> := {
    Hard(In), Soft(Out)
  }

  /** RESERVED_VALUE_PARAMETER_MODIFIER_KEYWORDS */
  const ReservedValueParameterModifierKeywords: set<TokenKind> := {
    Soft(Out), Soft(Vararg)
  }

  /** VISIBILITY_MODIFIERS */
  const VisibilityModifiers: set<TokenKind> := {
    Soft(Private), Soft(Public), Soft(Internal), Soft(Protected)
  }

  /** MODALITY_MODIFIERS */
  const ModalityModifiers: set<TokenKind> := {
    Soft(Abstract), Soft(Final), Soft(Sealed), Soft(Open)
  }

  /** WHITESPACES */
  const Whitespaces: set<TokenKind> := {
    WhiteSpace
  }

  /** COMMENTS */
  const Comments: set<TokenKind> := {
    Plain(EolComment), Plain(BlockComment), DocComment, Plain(ShebangComment)
  }

  /** WHITE_SPACE_OR_COMMENT_BIT_SET */
  const WhiteSpaceOrCommentBitSet: set<TokenKind> := Comments + Whitespaces

  /** STRINGS */
  const Strings: set<TokenKind> := {
    Plain(CharacterLiteral), Plain(RegularStringPart)
  }

  /** OPERATIONS */
  const Operations: set<TokenKind> :=
    {
      Hard(As), Hard(AsSafe), Hard(Is), Hard(In), Single(Dot), Single(Plusplus),
      Single(Minusminus), Single(Exclexcl), Single(Mul), Single(Plus), Single(Minus), Single(Excl),
      Single(Div), Single(Perc), Single(Lt), Single(Gt), Single(Lteq), Single(Gteq),
      Single(Eqeqeq), Single(Excleqeqeq)
    } + {
      Single(Eqeq), Single(Excleq), Single(Andand), Single(Oror), Single(SafeAccess),
      Single(Elvis), Single(Range), Single(RangeUntil), Single(Eq), Single(Multeq), Single(Diveq),
      Single(Perceq), Single(Pluseq), Single(Minuseq), Hard(NotIn), Hard(NotIs), Plain(Identifier)
    }

  /** AUGMENTED_ASSIGNMENTS */
  const AugmentedAssignments: set<TokenKind> := {
    Single(Pluseq), Single(Minuseq), Single(Multeq), Single(Perceq), Single(Diveq)
  }

  /** ALL_ASSIGNMENTS */
  const AllAssignments: set<TokenKind> := {
    Single(Eq), Single(Pluseq), Single(Minuseq), Single(Multeq), Single(Perceq), Single(Diveq)
  }

  /** INCREMENT_AND_DECREMENT */
  const IncrementAndDecrement: set<TokenKind> := {
    Single(Plusplus), Single(Minusminus)
  }

  /** DEFAULT_VISIBILITY_KEYWORD */
  const DefaultVisibilityKeyword: TokenKind := Soft(Public)

  /** The soft keyword spelled `text`, if any: the inverse of SoftSpelling. */
  function SoftKeywordOfSpelling(text: string): (r: Option<SoftKeyword>)
  {
    match text
    case "file" => Some(File)
    case "field" => Some(Field)
    case "property" => Some(Property)
    case "receiver" => Some(Receiver)
    case "param" => Some(Param)
    case "setparam" => Some(Setparam)
    case "delegate" => Some(Delegate)
    case "import" => Some(Import)
    case "where" => Some(Where)
    case "by" => Some(By)
    case "get" => Some(Get)
    case "set" => Some(Set)
    case "constructor" => Some(Constructor)
    case "init" => Some(Init)
    case "context" => Some(Context)
    case "abstract" => Some(Abstract)
    case "enum" => Some(Enum)
    case "contract" => Some(Contract)
    case "open" => Some(Open)
    case "inner" => Some(Inner)
    case "override" => Some(Override)
    case "private" => Some(Private)
    case "public" => Some(Public)
    case "internal" => Some(Internal)
    case "protected" => Some(Protected)
    case "catch" => Some(Catch)
    case "out" => Some(Out)
    case "vararg" => Some(Vararg)
    case "reified" => Some(Reified)
    case "dynamic" => Some(Dynamic)
    case "companion" => Some(Companion)
    case "sealed" => Some(Sealed)
    case "finally" => Some(Finally)
    case "final" => Some(Final)
    case "lateinit" => Some(Lateinit)
    case "data" => Some(Data)
    case "value" => Some(Value)
    case "inline" => Some(Inline)
    case "noinline" => Some(Noinline)
    case "tailrec" => Some(Tailrec)
    case "external" => Some(External)
    case "annotation" => Some(Annotation)
    case "crossinline" => Some(Crossinline)
    case "operator" => Some(Operator)
    case "infix" => Some(Infix)
    case "const" => Some(Const)
    case "suspend" => Some(Suspend)
    case "header" => Some(Header)
    case "impl" => Some(Impl)
    case "expect" => Some(Expect)
    case "actual" => Some(Actual)
    case _ => None
  }

  /** Each PlainTokenIdRoundTripPartN below proves PlainTokenIdRoundTrip for one slice of the
      cases; PlainTokenIdRoundTrip, after the slices, combines them. The split keeps each
      proof obligation small. */
  lemma PlainTokenIdRoundTripPart0(k: PlainToken)
    requires k == Eof || k == Reserved || k == BlockComment || k == EolComment || k == ShebangComment || k == IntegerLiteral || k == FloatLiteral || k == CharacterLiteral
    ensures TokenOfTypeId(PlainId(k)) == Some(Plain(k))
  {
    match k
    case Eof => assert PlainId(k) == 1;
    case Reserved => assert PlainId(k) == 2;
    case BlockComment => assert PlainId(k) == 3;
    case EolComment => assert PlainId(k) == 4;
    case ShebangComment => assert PlainId(k) == 5;
    case IntegerLiteral => assert PlainId(k) == 6;
    case FloatLiteral => assert PlainId(k) == 7;
    case CharacterLiteral => assert PlainId(k) == 8;
  }

  lemma PlainTokenIdRoundTripPart1(k: PlainToken)
    requires k == ClosingQuote || k == OpenQuote || k == RegularStringPart || k == EscapeSequence || k == ShortTemplateEntryStart || k == LongTemplateEntryStart || k == LongTemplateEntryEnd || k == DanglingNewline
    ensures TokenOfTypeId(PlainId(k)) == Some(Plain(k))
  {
    match k
    case ClosingQuote => assert PlainId(k) == 9;
    case OpenQuote => assert PlainId(k) == 10;
    case RegularStringPart => assert PlainId(k) == 11;
    case EscapeSequence => assert PlainId(k) == 12;
    case ShortTemplateEntryStart => assert PlainId(k) == 13;
    case LongTemplateEntryStart => assert PlainId(k) == 14;
    case LongTemplateEntryEnd => assert PlainId(k) == 15;
    case DanglingNewline => assert PlainId(k) == 16;
  }

  lemma PlainTokenIdRoundTripPart2(k: PlainToken)
    requires k == Identifier || k == FieldIdentifier || k == EolOrSemicolon
    ensures TokenOfTypeId(PlainId(k)) == Some(Plain(k))
  {
    match k
    case Identifier => assert PlainId(k) == 46;
    case FieldIdentifier => assert PlainId(k) == 47;
    case EolOrSemicolon => assert PlainId(k) == 97;
  }

  /** Every PlainToken constant is the token its own id decodes to. */
  lemma {:induction false} PlainTokenIdRoundTrip(k: PlainToken)
    ensures TokenOfTypeId(PlainId(k)) == Some(Plain(k))
  {
    match k
    case Eof | Reserved | BlockComment | EolComment | ShebangComment | IntegerLiteral | FloatLiteral | CharacterLiteral =>
      PlainTokenIdRoundTripPart0(k);
    case ClosingQuote | OpenQuote | RegularStringPart | EscapeSequence | ShortTemplateEntryStart | LongTemplateEntryStart | LongTemplateEntryEnd | DanglingNewline =>
      PlainTokenIdRoundTripPart1(k);
    case Identifier | FieldIdentifier | EolOrSemicolon =>
      PlainTokenIdRoundTripPart2(k);
  }

  /** Each PunctuationIdRoundTripPartN below proves PunctuationIdRoundTrip for one slice of the
      cases; PunctuationIdRoundTrip, after the slices, combines them. The split keeps each
      proof obligation small. */
  lemma PunctuationIdRoundTripPart0(k: Punctuation)
    requires k == LBracket || k == RBracket || k == LBrace || k == RBrace || k == LPar || k == RPar || k == Dot || k == Plusplus
    ensures TokenOfTypeId(PunctuationId(k)) == Some(Single(k))
  {
    match k
    case LBracket => assert PunctuationId(k) == 48;
    case RBracket => assert PunctuationId(k) == 49;
    case LBrace => assert PunctuationId(k) == 50;
    case RBrace => assert PunctuationId(k) == 51;
    case LPar => assert PunctuationId(k) == 52;
    case RPar => assert PunctuationId(k) == 53;
    case Dot => assert PunctuationId(k) == 54;
    case Plusplus => assert PunctuationId(k) == 55;
  }

  lemma PunctuationIdRoundTripPart1(k: Punctuation)
    requires k == Minusminus || k == Mul || k == Plus || k == Minus || k == Excl || k == Div || k == Perc || k == Lt
    ensures TokenOfTypeId(PunctuationId(k)) == Some(Single(k))
  {
    match k
    case Minusminus => assert PunctuationId(k) == 56;
    case Mul => assert PunctuationId(k) == 57;
    case Plus => assert PunctuationId(k) == 58;
    case Minus => assert PunctuationId(k) == 59;
    case Excl => assert PunctuationId(k) == 60;
    case Div => assert PunctuationId(k) == 61;
    case Perc => assert PunctuationId(k) == 62;
    case Lt => assert PunctuationId(k) == 63;
  }

  lemma PunctuationIdRoundTripPart2(k: Punctuation)
    requires k == Gt || k == Lteq || k == Gteq || k == Eqeqeq || k == Arrow || k == DoubleArrow || k == Excleqeqeq || k == Eqeq
    ensures TokenOfTypeId(PunctuationId(k)) == Some(Single(k))
  {
    match k
    case Gt => assert PunctuationId(k) == 64;
    case Lteq => assert PunctuationId(k) == 65;
    case Gteq => assert PunctuationId(k) == 66;
    case Eqeqeq => assert PunctuationId(k) == 67;
    case Arrow => assert PunctuationId(k) == 68;
    case DoubleArrow => assert PunctuationId(k) == 69;
    case Excleqeqeq => assert PunctuationId(k) == 70;
    case Eqeq => assert PunctuationId(k) == 71;
  }

  lemma PunctuationIdRoundTripPart3(k: Punctuation)
    requires k == Excleq || k == Exclexcl || k == Andand || k == And || k == Oror || k == SafeAccess || k == Elvis || k == Quest
    ensures TokenOfTypeId(PunctuationId(k)) == Some(Single(k))
  {
    match k
    case Excleq => assert PunctuationId(k) == 72;
    case Exclexcl => assert PunctuationId(k) == 73;
    case Andand => assert PunctuationId(k) == 74;
    case And => assert PunctuationId(k) == 75;
    case Oror => assert PunctuationId(k) == 76;
    case SafeAccess => assert PunctuationId(k) == 77;
    case Elvis => assert PunctuationId(k) == 78;
    case Quest => assert PunctuationId(k) == 79;
  }

  lemma PunctuationIdRoundTripPart4(k: Punctuation)
    requires k == Coloncolon || k == Colon || k == Semicolon || k == DoubleSemicolon || k == Range || k == RangeUntil || k == Eq || k == Multeq
    ensures TokenOfTypeId(PunctuationId(k)) == Some(Single(k))
  {
    match k
    case Coloncolon => assert PunctuationId(k) == 80;
    case Colon => assert PunctuationId(k) == 81;
    case Semicolon => assert PunctuationId(k) == 82;
    case DoubleSemicolon => assert PunctuationId(k) == 83;
    case Range => assert PunctuationId(k) == 84;
    case RangeUntil => assert PunctuationId(k) == 85;
    case Eq => assert PunctuationId(k) == 86;
    case Multeq => assert PunctuationId(k) == 87;
  }

  lemma PunctuationIdRoundTripPart5(k: Punctuation)
    requires k == Diveq || k == Perceq || k == Pluseq || k == Minuseq || k == Hash || k == At || k == Comma
    ensures TokenOfTypeId(PunctuationId(k)) == Some(Single(k))
  {
    match k
    case Diveq => assert PunctuationId(k) == 88;
    case Perceq => assert PunctuationId(k) == 89;
    case Pluseq => assert PunctuationId(k) == 90;
    case Minuseq => assert PunctuationId(k) == 91;
    case Hash => assert PunctuationId(k) == 94;
    case At => assert PunctuationId(k) == 95;
    case Comma => assert PunctuationId(k) == 96;
  }

  /** Every Punctuation constant is the token its own id decodes to. */
  lemma {:induction false} PunctuationIdRoundTrip(k: Punctuation)
    ensures TokenOfTypeId(PunctuationId(k)) == Some(Single(k))
  {
    match k
    case LBracket | RBracket | LBrace | RBrace | LPar | RPar | Dot | Plusplus =>
      PunctuationIdRoundTripPart0(k);
    case Minusminus | Mul | Plus | Minus | Excl | Div | Perc | Lt =>
      PunctuationIdRoundTripPart1(k);
    case Gt | Lteq | Gteq | Eqeqeq | Arrow | DoubleArrow | Excleqeqeq | Eqeq =>
      PunctuationIdRoundTripPart2(k);
    case Excleq | Exclexcl | Andand | And | Oror | SafeAccess | Elvis | Quest =>
      PunctuationIdRoundTripPart3(k);
    case Coloncolon | Colon | Semicolon | DoubleSemicolon | Range | RangeUntil | Eq | Multeq =>
      PunctuationIdRoundTripPart4(k);
    case Diveq | Perceq | Pluseq | Minuseq | Hash | At | Comma =>
      PunctuationIdRoundTripPart5(k);
  }

  /** Each HardKeywordIdRoundTripPartN below proves HardKeywordIdRoundTrip for one slice of the
      cases; HardKeywordIdRoundTrip, after the slices, combines them. The split keeps each
      proof obligation small. */
  lemma HardKeywordIdRoundTripPart0(k: HardKeyword)
    requires k == Package || k == As || k == TypeAlias || k == Class || k == This || k == Super || k == Val || k == Var
    ensures TokenOfTypeId(HardId(k)) == Some(Hard(k))
  {
    match k
    case Package => assert HardId(k) == 17;
    case As => assert HardId(k) == 18;
    case TypeAlias => assert HardId(k) == 19;
    case Class => assert HardId(k) == 20;
    case This => assert HardId(k) == 21;
    case Super => assert HardId(k) == 22;
    case Val => assert HardId(k) == 23;
    case Var => assert HardId(k) == 24;
  }

  lemma HardKeywordIdRoundTripPart1(k: HardKeyword)
    requires k == Fun || k == For || k == Null || k == True || k == False || k == Is || k == In || k == Throw
    ensures TokenOfTypeId(HardId(k)) == Some(Hard(k))
  {
    match k
    case Fun => assert HardId(k) == 25;
    case For => assert HardId(k) == 26;
    case Null => assert HardId(k) == 27;
    case True => assert HardId(k) == 28;
    case False => assert HardId(k) == 29;
    case Is => assert HardId(k) == 30;
    case In => assert HardId(k) == 31;
    case Throw => assert HardId(k) == 32;
  }

  lemma HardKeywordIdRoundTripPart2(k: HardKeyword)
    requires k == Return || k == Break || k == Continue || k == Object || k == If || k == Try || k == Else || k == While
    ensures TokenOfTypeId(HardId(k)) == Some(Hard(k))
  {
    match k
    case Return => assert HardId(k) == 33;
    case Break => assert HardId(k) == 34;
    case Continue => assert HardId(k) == 35;
    case Object => assert HardId(k) == 36;
    case If => assert HardId(k) == 37;
    case Try => assert HardId(k) == 38;
    case Else => assert HardId(k) == 39;
    case While => assert HardId(k) == 40;
  }

  lemma HardKeywordIdRoundTripPart3(k: HardKeyword)
    requires k == Do || k == When || k == Interface || k == Typeof || k == AsSafe || k == NotIn || k == NotIs
    ensures TokenOfTypeId(HardId(k)) == Some(Hard(k))
  {
    match k
    case Do => assert HardId(k) == 41;
    case When => assert HardId(k) == 42;
    case Interface => assert HardId(k) == 43;
    case Typeof => assert HardId(k) == 44;
    case AsSafe => assert HardId(k) == 45;
    case NotIn => assert HardId(k) == 92;
    case NotIs => assert HardId(k) == 93;
  }

  /** Every HardKeyword constant is the token its own id decodes to. */
  lemma {:induction false} HardKeywordIdRoundTrip(k: HardKeyword)
    ensures TokenOfTypeId(HardId(k)) == Some(Hard(k))
  {
    match k
    case Package | As | TypeAlias | Class | This | Super | Val | Var =>
      HardKeywordIdRoundTripPart0(k);
    case Fun | For | Null | True | False | Is | In | Throw =>
      HardKeywordIdRoundTripPart1(k);
    case Return | Break | Continue | Object | If | Try | Else | While =>
      HardKeywordIdRoundTripPart2(k);
    case Do | When | Interface | Typeof | AsSafe | NotIn | NotIs =>
      HardKeywordIdRoundTripPart3(k);
  }

  /** Each SoftKeywordIdRoundTripPartN below proves SoftKeywordIdRoundTrip for one slice of the
      cases; SoftKeywordIdRoundTrip, after the slices, combines them. The split keeps each
      proof obligation small. */
  lemma SoftKeywordIdRoundTripPart0(k: SoftKeyword)
    requires k == File || k == Field || k == Property || k == Receiver || k == Param || k == Setparam || k == Delegate || k == Import
    ensures TokenOfTypeId(SoftId(k)) == Some(Soft(k))
  {
    match k
    case File => assert SoftId(k) == 98;
    case Field => assert SoftId(k) == 99;
    case Property => assert SoftId(k) == 100;
    case Receiver => assert SoftId(k) == 101;
    case Param => assert SoftId(k) == 102;
    case Setparam => assert SoftId(k) == 103;
    case Delegate => assert SoftId(k) == 104;
    case Import => assert SoftId(k) == 105;
  }

  lemma SoftKeywordIdRoundTripPart1(k: SoftKeyword)
    requires k == Where || k == By || k == Get || k == Set || k == Constructor || k == Init || k == Context || k == Abstract
    ensures TokenOfTypeId(SoftId(k)) == Some(Soft(k))
  {
    match k
    case Where => assert SoftId(k) == 106;
    case By => assert SoftId(k) == 107;
    case Get => assert SoftId(k) == 108;
    case Set => assert SoftId(k) == 109;
    case Constructor => assert SoftId(k) == 110;
    case Init => assert SoftId(k) == 111;
    case Context => assert SoftId(k) == 112;
    case Abstract => assert SoftId(k) == 113;
  }

  lemma SoftKeywordIdRoundTripPart2(k: SoftKeyword)
    requires k == Enum || k == Contract || k == Open || k == Inner || k == Override || k == Private || k == Public || k == Internal
    ensures TokenOfTypeId(SoftId(k)) == Some(Soft(k))
  {
    match k
    case Enum => assert SoftId(k) == 114;
    case Contract => assert SoftId(k) == 115;
    case Open => assert SoftId(k) == 116;
    case Inner => assert SoftId(k) == 117;
    case Override => assert SoftId(k) == 118;
    case Private => assert SoftId(k) == 119;
    case Public => assert SoftId(k) == 120;
    case Internal => assert SoftId(k) == 121;
  }

  lemma SoftKeywordIdRoundTripPart3(k: SoftKeyword)
    requires k == Protected || k == Catch || k == Out || k == Vararg || k == Reified || k == Dynamic || k == Companion || k == Sealed
    ensures TokenOfTypeId(SoftId(k)) == Some(Soft(k))
  {
    match k
    case Protected => assert SoftId(k) == 122;
    case Catch => assert SoftId(k) == 123;
    case Out => assert SoftId(k) == 124;
    case Vararg => assert SoftId(k) == 125;
    case Reified => assert SoftId(k) == 126;
    case Dynamic => assert SoftId(k) == 127;
    case Companion => assert SoftId(k) == 128;
    case Sealed => assert SoftId(k) == 129;
  }

  lemma SoftKeywordIdRoundTripPart4(k: SoftKeyword)
    requires k == Finally || k == Final || k == Lateinit || k == Data || k == Value || k == Inline || k == Noinline || k == Tailrec
    ensures TokenOfTypeId(SoftId(k)) == Some(Soft(k))
  {
    match k
    case Finally => assert SoftId(k) == 130;
    case Final => assert SoftId(k) == 131;
    case Lateinit => assert SoftId(k) == 132;
    case Data => assert SoftId(k) == 133;
    case Value => assert SoftId(k) == 134;
    case Inline => assert SoftId(k) == 135;
    case Noinline => assert SoftId(k) == 136;
    case Tailrec => assert SoftId(k) == 137;
  }

  lemma SoftKeywordIdRoundTripPart5(k: SoftKeyword)
    requires k == External || k == Annotation || k == Crossinline || k == Operator || k == Infix || k == Const || k == Suspend || k == Header
    ensures TokenOfTypeId(SoftId(k)) == Some(Soft(k))
  {
    match k
    case External => assert SoftId(k) == 138;
    case Annotation => assert SoftId(k) == 139;
    case Crossinline => assert SoftId(k) == 140;
    case Operator => assert SoftId(k) == 141;
    case Infix => assert SoftId(k) == 142;
    case Const => assert SoftId(k) == 143;
    case Suspend => assert SoftId(k) == 144;
    case Header => assert SoftId(k) == 145;
  }

  lemma SoftKeywordIdRoundTripPart6(k: SoftKeyword)
    requires k == Impl || k == Expect || k == Actual
    ensures TokenOfTypeId(SoftId(k)) == Some(Soft(k))
  {
    match k
    case Impl => assert SoftId(k) == 146;
    case Expect => assert SoftId(k) == 147;
    case Actual => assert SoftId(k) == 148;
  }

  /** Every SoftKeyword constant is the token its own id decodes to. */
  lemma {:induction false} SoftKeywordIdRoundTrip(k: SoftKeyword)
    ensures TokenOfTypeId(SoftId(k)) == Some(Soft(k))
  {
    match k
    case File | Field | Property | Receiver | Param | Setparam | Delegate | Import =>
      SoftKeywordIdRoundTripPart0(k);
    case Where | By | Get | Set | Constructor | Init | Context | Abstract =>
      SoftKeywordIdRoundTripPart1(k);
    case Enum | Contract | Open | Inner | Override | Private | Public | Internal =>
      SoftKeywordIdRoundTripPart2(k);
    case Protected | Catch | Out | Vararg | Reified | Dynamic | Companion | Sealed =>
      SoftKeywordIdRoundTripPart3(k);
    case Finally | Final | Lateinit | Data | Value | Inline | Noinline | Tailrec =>
      SoftKeywordIdRoundTripPart4(k);
    case External | Annotation | Crossinline | Operator | Infix | Const | Suspend | Header =>
      SoftKeywordIdRoundTripPart5(k);
    case Impl | Expect | Actual =>
      SoftKeywordIdRoundTripPart6(k);
  }

  /** No two token constants share an id: TokenOfTypeId inverts TypeId. */
  lemma {:induction false} TypeIdRoundTrip(t: TokenKind)
    ensures TypeId(t).Some? ==> TokenOfTypeId(TypeId(t).value) == Some(t)
  {
    match t
    case Plain(p) => PlainTokenIdRoundTrip(p);
    case Single(p) => PunctuationIdRoundTrip(p);
    case Hard(k) => HardKeywordIdRoundTrip(k);
    case Soft(k) => SoftKeywordIdRoundTrip(k);
    case WhiteSpace =>
    case DocComment =>
  }

  /** Two constants with the same id are the same constant. */
  lemma TypeIdInjective(a: TokenKind, b: TokenKind)
    requires TypeId(a).Some? && TypeId(a) == TypeId(b)
    ensures a == b
  {
    TypeIdRoundTrip(a);
    TypeIdRoundTrip(b);
  }

  /** Each IdTokenRoundTripPartN below proves IdTokenRoundTrip for one slice of the
      cases; IdTokenRoundTrip, after the slices, combines them. The split keeps each
      proof obligation small. */
  lemma IdTokenRoundTripPart0(id: int)
    requires 1 <= id <= 4
    ensures TokenOfTypeId(id).Some? && TypeId(TokenOfTypeId(id).value) == Some(id)
  {
    if id == 1 {
      assert TokenOfTypeId(1) == Some(Plain(Eof));
      assert PlainId(Eof) == 1;
    } else if id == 2 {
      assert TokenOfTypeId(2) == Some(Plain(Reserved));
      assert PlainId(Reserved) == 2;
    } else if id == 3 {
      assert TokenOfTypeId(3) == Some(Plain(BlockComment));
      assert PlainId(BlockComment) == 3;
    } else {
      assert TokenOfTypeId(4) == Some(Plain(EolComment));
      assert PlainId(EolComment) == 4;
    }
  }

  lemma IdTokenRoundTripPart1(id: int)
    requires 5 <= id <= 8
    ensures TokenOfTypeId(id).Some? && TypeId(TokenOfTypeId(id).value) == Some(id)
  {
    if id == 5 {
      assert TokenOfTypeId(5) == Some(Plain(ShebangComment));
      assert PlainId(ShebangComment) == 5;
    } else if id == 6 {
      assert TokenOfTypeId(6) == Some(Plain(IntegerLiteral));
      assert PlainId(IntegerLiteral) == 6;
    } else if id == 7 {
      assert TokenOfTypeId(7) == Some(Plain(FloatLiteral));
      assert PlainId(FloatLiteral) == 7;
    } else {
      assert TokenOfTypeId(8) == Some(Plain(CharacterLiteral));
      assert PlainId(CharacterLiteral) == 8;
    }
  }

  lemma IdTokenRoundTripPart2(id: int)
    requires 9 <= id <= 12
    ensures TokenOfTypeId(id).Some? && TypeId(TokenOfTypeId(id).value) == Some(id)
  {
    if id == 9 {
      assert TokenOfTypeId(9) == Some(Plain(ClosingQuote));
      assert PlainId(ClosingQuote) == 9;
    } else if id == 10 {
      assert TokenOfTypeId(10) == Some(Plain(OpenQuote));
      assert PlainId(OpenQuote) == 10;
    } else if id == 11 {
      assert TokenOfTypeId(11) == Some(Plain(RegularStringPart));
      assert PlainId(RegularStringPart) == 11;
    } else {
      assert TokenOfTypeId(12) == Some(Plain(EscapeSequence));
      assert PlainId(EscapeSequence) == 12;
    }
  }

  lemma IdTokenRoundTripPart3(id: int)
    requires 13 <= id <= 16
    ensures TokenOfTypeId(id).Some? && TypeId(TokenOfTypeId(id).value) == Some(id)
  {
    if id == 13 {
      assert TokenOfTypeId(13) == Some(Plain(ShortTemplateEntryStart));
      assert PlainId(ShortTemplateEntryStart) == 13;
    } else if id == 14 {
      assert TokenOfTypeId(14) == Some(Plain(LongTemplateEntryStart));
      assert PlainId(LongTemplateEntryStart) == 14;
    } else if id == 15 {
      assert TokenOfTypeId(15) == Some(Plain(LongTemplateEntryEnd));
      assert PlainId(LongTemplateEntryEnd) == 15;
    } else {
      assert TokenOfTypeId(16) == Some(Plain(DanglingNewline));
      assert PlainId(DanglingNewline) == 16;
    }
  }

  lemma IdTokenRoundTripPart4(id: int)
    requires 17 <= id <= 20
    ensures TokenOfTypeId(id).Some? && TypeId(TokenOfTypeId(id).value) == Some(id)
  {
    if id == 17 {
      assert TokenOfTypeId(17) == Some(Hard(Package));
      assert HardId(Package) == 17;
    } else if id == 18 {
      assert TokenOfTypeId(18) == Some(Hard(As));
      assert HardId(As) == 18;
    } else if id == 19 {
      assert TokenOfTypeId(19) == Some(Hard(TypeAlias));
      assert HardId(TypeAlias) == 19;
    } else {
      assert TokenOfTypeId(20) == Some(Hard(Class));
      assert HardId(Class) == 20;
    }
  }

  lemma IdTokenRoundTripPart5(id: int)
    requires 21 <= id <= 24
    ensures TokenOfTypeId(id).Some? && TypeId(TokenOfTypeId(id).value) == Some(id)
  {
    if id == 21 {
      assert TokenOfTypeId(21) == Some(Hard(This));
      assert HardId(This) == 21;
    } else if id == 22 {
      assert TokenOfTypeId(22) == Some(Hard(Super));
      assert HardId(Super) == 22;
    } else if id == 23 {
      assert TokenOfTypeId(23) == Some(Hard(Val));
      assert HardId(Val) == 23;
    } else {
      assert TokenOfTypeId(24) == Some(Hard(Var));
      assert HardId(Var) == 24;
    }
  }

  lemma IdTokenRoundTripPart6(id: int)
    requires 25 <= id <= 28
    ensures TokenOfTypeId(id).Some? && TypeId(TokenOfTypeId(id).value) == Some(id)
  {
    if id == 25 {
      assert TokenOfTypeId(25) == Some(Hard(Fun));
      assert HardId(Fun) == 25;
    } else if id == 26 {
      assert TokenOfTypeId(26) == Some(Hard(For));
      assert HardId(For) == 26;
    } else if id == 27 {
      assert TokenOfTypeId(27) == Some(Hard(Null));
      assert HardId(Null) == 27;
    } else {
      assert TokenOfTypeId(28) == Some(Hard(True));
      assert HardId(True) == 28;
    }
  }

  lemma IdTokenRoundTripPart7(id: int)
    requires 29 <= id <= 32
    ensures TokenOfTypeId(id).Some? && TypeId(TokenOfTypeId(id).value) == Some(id)
  {
    if id == 29 {
      assert TokenOfTypeId(29) == Some(Hard(False));
      assert HardId(False) == 29;
    } else if id == 30 {
      assert TokenOfTypeId(30) == Some(Hard(Is));
      assert HardId(Is) == 30;
    } else if id == 31 {
      assert TokenOfTypeId(31) == Some(Hard(In));
      assert HardId(In) == 31;
    } else {
      assert TokenOfTypeId(32) == Some(Hard(Throw));
      assert HardId(Throw) == 32;
    }
  }

  lemma IdTokenRoundTripPart8(id: int)
    requires 33 <= id <= 36
    ensures TokenOfTypeId(id).Some? && TypeId(TokenOfTypeId(id).value) == Some(id)
  {
    if id == 33 {
      assert TokenOfTypeId(33) == Some(Hard(Return));
      assert HardId(Return) == 33;
    } else if id == 34 {
      assert TokenOfTypeId(34) == Some(Hard(Break));
      assert HardId(Break) == 34;
    } else if id == 35 {
      assert TokenOfTypeId(35) == Some(Hard(Continue));
      assert HardId(Continue) == 35;
    } else {
      assert TokenOfTypeId(36) == Some(Hard(Object));
      assert HardId(Object) == 36;
    }
  }

  lemma IdTokenRoundTripPart9(id: int)
    requires 37 <= id <= 40
    ensures TokenOfTypeId(id).Some? && TypeId(TokenOfTypeId(id).value) == Some(id)
  {
    if id == 37 {
      assert TokenOfTypeId(37) == Some(Hard(If));
      assert HardId(If) == 37;
    } else if id == 38 {
      assert TokenOfTypeId(38) == Some(Hard(Try));
      assert HardId(Try) == 38;
    } else if id == 39 {
      assert TokenOfTypeId(39) == Some(Hard(Else));
      assert HardId(Else) == 39;
    } else {
      assert TokenOfTypeId(40) == Some(Hard(While));
      assert HardId(While) == 40;
    }
  }

  lemma IdTokenRoundTripPart10(id: int)
    requires 41 <= id <= 44
    ensures TokenOfTypeId(id).Some? && TypeId(TokenOfTypeId(id).value) == Some(id)
  {
    if id == 41 {
      assert TokenOfTypeId(41) == Some(Hard(Do));
      assert HardId(Do) == 41;
    } else if id == 42 {
      assert TokenOfTypeId(42) == Some(Hard(When));
      assert HardId(When) == 42;
    } else if id == 43 {
      assert TokenOfTypeId(43) == Some(Hard(Interface));
      assert HardId(Interface) == 43;
    } else {
      assert TokenOfTypeId(44) == Some(Hard(Typeof));
      assert HardId(Typeof) == 44;
    }
  }

  lemma IdTokenRoundTripPart11(id: int)
    requires 45 <= id <= 48
    ensures TokenOfTypeId(id).Some? && TypeId(TokenOfTypeId(id).value) == Some(id)
  {
    if id == 45 {
      assert TokenOfTypeId(45) == Some(Hard(AsSafe));
      assert HardId(AsSafe) == 45;
    } else if id == 46 {
      assert TokenOfTypeId(46) == Some(Plain(Identifier));
      assert PlainId(Identifier) == 46;
    } else if id == 47 {
      assert TokenOfTypeId(47) == Some(Plain(FieldIdentifier));
      assert PlainId(FieldIdentifier) == 47;
    } else {
      assert TokenOfTypeId(48) == Some(Single(LBracket));
      assert PunctuationId(LBracket) == 48;
    }
  }

  lemma IdTokenRoundTripPart12(id: int)
    requires 49 <= id <= 52
    ensures TokenOfTypeId(id).Some? && TypeId(TokenOfTypeId(id).value) == Some(id)
  {
    if id == 49 {
      assert TokenOfTypeId(49) == Some(Single(RBracket));
      assert PunctuationId(RBracket) == 49;
    } else if id == 50 {
      assert TokenOfTypeId(50) == Some(Single(LBrace));
      assert PunctuationId(LBrace) == 50;
    } else if id == 51 {
      assert TokenOfTypeId(51) == Some(Single(RBrace));
      assert PunctuationId(RBrace) == 51;
    } else {
      assert TokenOfTypeId(52) == Some(Single(LPar));
      assert PunctuationId(LPar) == 52;
    }
  }

  lemma IdTokenRoundTripPart13(id: int)
    requires 53 <= id <= 56
    ensures TokenOfTypeId(id).Some? && TypeId(TokenOfTypeId(id).value) == Some(id)
  {
    if id == 53 {
      assert TokenOfTypeId(53) == Some(Single(RPar));
      assert PunctuationId(RPar) == 53;
    } else if id == 54 {
      assert TokenOfTypeId(54) == Some(Single(Dot));
      assert PunctuationId(Dot) == 54;
    } else if id == 55 {
      assert TokenOfTypeId(55) == Some(Single(Plusplus));
      assert PunctuationId(Plusplus) == 55;
    } else {
      assert TokenOfTypeId(56) == Some(Single(Minusminus));
      assert PunctuationId(Minusminus) == 56;
    }
  }

  lemma IdTokenRoundTripPart14(id: int)
    requires 57 <= id <= 60
    ensures TokenOfTypeId(id).Some? && TypeId(TokenOfTypeId(id).value) == Some(id)
  {
    if id == 57 {
      assert TokenOfTypeId(57) == Some(Single(Mul));
      assert PunctuationId(Mul) == 57;
    } else if id == 58 {
      assert TokenOfTypeId(58) == Some(Single(Plus));
      assert PunctuationId(Plus) == 58;
    } else if id == 59 {
      assert TokenOfTypeId(59) == Some(Single(Minus));
      assert PunctuationId(Minus) == 59;
    } else {
      assert TokenOfTypeId(60) == Some(Single(Excl));
      assert PunctuationId(Excl) == 60;
    }
  }

  lemma IdTokenRoundTripPart15(id: int)
    requires 61 <= id <= 64
    ensures TokenOfTypeId(id).Some? && TypeId(TokenOfTypeId(id).value) == Some(id)
  {
    if id == 61 {
      assert TokenOfTypeId(61) == Some(Single(Div));
      assert PunctuationId(Div) == 61;
    } else if id == 62 {
      assert TokenOfTypeId(62) == Some(Single(Perc));
      assert PunctuationId(Perc) == 62;
    } else if id == 63 {
      assert TokenOfTypeId(63) == Some(Single(Lt));
      assert PunctuationId(Lt) == 63;
    } else {
      assert TokenOfTypeId(64) == Some(Single(Gt));
      assert PunctuationId(Gt) == 64;
    }
  }

  lemma IdTokenRoundTripPart16(id: int)
    requires 65 <= id <= 68
    ensures TokenOfTypeId(id).Some? && TypeId(TokenOfTypeId(id).value) == Some(id)
  {
    if id == 65 {
      assert TokenOfTypeId(65) == Some(Single(Lteq));
      assert PunctuationId(Lteq) == 65;
    } else if id == 66 {
      assert TokenOfTypeId(66) == Some(Single(Gteq));
      assert PunctuationId(Gteq) == 66;
    } else if id == 67 {
      assert TokenOfTypeId(67) == Some(Single(Eqeqeq));
      assert PunctuationId(Eqeqeq) == 67;
    } else {
      assert TokenOfTypeId(68) == Some(Single(Arrow));
      assert PunctuationId(Arrow) == 68;
    }
  }

  lemma IdTokenRoundTripPart17(id: int)
    requires 69 <= id <= 72
    ensures TokenOfTypeId(id).Some? && TypeId(TokenOfTypeId(id).value) == Some(id)
  {
    if id == 69 {
      assert TokenOfTypeId(69) == Some(Single(DoubleArrow));
      assert PunctuationId(DoubleArrow) == 69;
    } else if id == 70 {
      assert TokenOfTypeId(70) == Some(Single(Excleqeqeq));
      assert PunctuationId(Excleqeqeq) == 70;
    } else if id == 71 {
      assert TokenOfTypeId(71) == Some(Single(Eqeq));
      assert PunctuationId(Eqeq) == 71;
    } else {
      assert TokenOfTypeId(72) == Some(Single(Excleq));
      assert PunctuationId(Excleq) == 72;
    }
  }

  lemma IdTokenRoundTripPart18(id: int)
    requires 73 <= id <= 76
    ensures TokenOfTypeId(id).Some? && TypeId(TokenOfTypeId(id).value) == Some(id)
  {
    if id == 73 {
      assert TokenOfTypeId(73) == Some(Single(Exclexcl));
      assert PunctuationId(Exclexcl) == 73;
    } else if id == 74 {
      assert TokenOfTypeId(74) == Some(Single(Andand));
      assert PunctuationId(Andand) == 74;
    } else if id == 75 {
      assert TokenOfTypeId(75) == Some(Single(And));
      assert PunctuationId(And) == 75;
    } else {
      assert TokenOfTypeId(76) == Some(Single(Oror));
      assert PunctuationId(Oror) == 76;
    }
  }

  lemma IdTokenRoundTripPart19(id: int)
    requires 77 <= id <= 80
    ensures TokenOfTypeId(id).Some? && TypeId(TokenOfTypeId(id).value) == Some(id)
  {
    if id == 77 {
      assert TokenOfTypeId(77) == Some(Single(SafeAccess));
      assert PunctuationId(SafeAccess) == 77;
    } else if id == 78 {
      assert TokenOfTypeId(78) == Some(Single(Elvis));
      assert PunctuationId(Elvis) == 78;
    } else if id == 79 {
      assert TokenOfTypeId(79) == Some(Single(Quest));
      assert PunctuationId(Quest) == 79;
    } else {
      assert TokenOfTypeId(80) == Some(Single(Coloncolon));
      assert PunctuationId(Coloncolon) == 80;
    }
  }

  lemma IdTokenRoundTripPart20(id: int)
    requires 81 <= id <= 84
    ensures TokenOfTypeId(id).Some? && TypeId(TokenOfTypeId(id).value) == Some(id)
  {
    if id == 81 {
      assert TokenOfTypeId(81) == Some(Single(Colon));
      assert PunctuationId(Colon) == 81;
    } else if id == 82 {
      assert TokenOfTypeId(82) == Some(Single(Semicolon));
      assert PunctuationId(Semicolon) == 82;
    } else if id == 83 {
      assert TokenOfTypeId(83) == Some(Single(DoubleSemicolon));
      assert PunctuationId(DoubleSemicolon) == 83;
    } else {
      assert TokenOfTypeId(84) == Some(Single(Range));
      assert PunctuationId(Range) == 84;
    }
  }

  lemma IdTokenRoundTripPart21(id: int)
    requires 85 <= id <= 88
    ensures TokenOfTypeId(id).Some? && TypeId(TokenOfTypeId(id).value) == Some(id)
  {
    if id == 85 {
      assert TokenOfTypeId(85) == Some(Single(RangeUntil));
      assert PunctuationId(RangeUntil) == 85;
    } else if id == 86 {
      assert TokenOfTypeId(86) == Some(Single(Eq));
      assert PunctuationId(Eq) == 86;
    } else if id == 87 {
      assert TokenOfTypeId(87) == Some(Single(Multeq));
      assert PunctuationId(Multeq) == 87;
    } else {
      assert TokenOfTypeId(88) == Some(Single(Diveq));
      assert PunctuationId(Diveq) == 88;
    }
  }

  lemma IdTokenRoundTripPart22(id: int)
    requires 89 <= id <= 92
    ensures TokenOfTypeId(id).Some? && TypeId(TokenOfTypeId(id).value) == Some(id)
  {
    if id == 89 {
      assert TokenOfTypeId(89) == Some(Single(Perceq));
      assert PunctuationId(Perceq) == 89;
    } else if id == 90 {
      assert TokenOfTypeId(90) == Some(Single(Pluseq));
      assert PunctuationId(Pluseq) == 90;
    } else if id == 91 {
      assert TokenOfTypeId(91) == Some(Single(Minuseq));
      assert PunctuationId(Minuseq) == 91;
    } else {
      assert TokenOfTypeId(92) == Some(Hard(NotIn));
      assert HardId(NotIn) == 92;
    }
  }

  lemma IdTokenRoundTripPart23(id: int)
    requires 93 <= id <= 96
    ensures TokenOfTypeId(id).Some? && TypeId(TokenOfTypeId(id).value) == Some(id)
  {
    if id == 93 {
      assert TokenOfTypeId(93) == Some(Hard(NotIs));
      assert HardId(NotIs) == 93;
    } else if id == 94 {
      assert TokenOfTypeId(94) == Some(Single(Hash));
      assert PunctuationId(Hash) == 94;
    } else if id == 95 {
      assert TokenOfTypeId(95) == Some(Single(At));
      assert PunctuationId(At) == 95;
    } else {
      assert TokenOfTypeId(96) == Some(Single(Comma));
      assert PunctuationId(Comma) == 96;
    }
  }

  lemma IdTokenRoundTripPart24(id: int)
    requires 97 <= id <= 100
    ensures TokenOfTypeId(id).Some? && TypeId(TokenOfTypeId(id).value) == Some(id)
  {
    if id == 97 {
      assert TokenOfTypeId(97) == Some(Plain(EolOrSemicolon));
      assert PlainId(EolOrSemicolon) == 97;
    } else if id == 98 {
      assert TokenOfTypeId(98) == Some(Soft(File));
      assert SoftId(File) == 98;
    } else if id == 99 {
      assert TokenOfTypeId(99) == Some(Soft(Field));
      assert SoftId(Field) == 99;
    } else {
      assert TokenOfTypeId(100) == Some(Soft(Property));
      assert SoftId(Property) == 100;
    }
  }

  lemma IdTokenRoundTripPart25(id: int)
    requires 101 <= id <= 104
    ensures TokenOfTypeId(id).Some? && TypeId(TokenOfTypeId(id).value) == Some(id)
  {
    if id == 101 {
      assert TokenOfTypeId(101) == Some(Soft(Receiver));
      assert SoftId(Receiver) == 101;
    } else if id == 102 {
      assert TokenOfTypeId(102) == Some(Soft(Param));
      assert SoftId(Param) == 102;
    } else if id == 103 {
      assert TokenOfTypeId(103) == Some(Soft(Setparam));
      assert SoftId(Setparam) == 103;
    } else {
      assert TokenOfTypeId(104) == Some(Soft(Delegate));
      assert SoftId(Delegate) == 104;
    }
  }

  lemma IdTokenRoundTripPart26(id: int)
    requires 105 <= id <= 108
    ensures TokenOfTypeId(id).Some? && TypeId(TokenOfTypeId(id).value) == Some(id)
  {
    if id == 105 {
      assert TokenOfTypeId(105) == Some(Soft(Import));
      assert SoftId(Import) == 105;
    } else if id == 106 {
      assert TokenOfTypeId(106) == Some(Soft(Where));
      assert SoftId(Where) == 106;
    } else if id == 107 {
      assert TokenOfTypeId(107) == Some(Soft(By));
      assert SoftId(By) == 107;
    } else {
      assert TokenOfTypeId(108) == Some(Soft(Get));
      assert SoftId(Get) == 108;
    }
  }

  lemma IdTokenRoundTripPart27(id: int)
    requires 109 <= id <= 112
    ensures TokenOfTypeId(id).Some? && TypeId(TokenOfTypeId(id).value) == Some(id)
  {
    if id == 109 {
      assert TokenOfTypeId(109) == Some(Soft(Set));
      assert SoftId(Set) == 109;
    } else if id == 110 {
      assert TokenOfTypeId(110) == Some(Soft(Constructor));
      assert SoftId(Constructor) == 110;
    } else if id == 111 {
      assert TokenOfTypeId(111) == Some(Soft(Init));
      assert SoftId(Init) == 111;
    } else {
      assert TokenOfTypeId(112) == Some(Soft(Context));
      assert SoftId(Context) == 112;
    }
  }

  lemma IdTokenRoundTripPart28(id: int)
    requires 113 <= id <= 116
    ensures TokenOfTypeId(id).Some? && TypeId(TokenOfTypeId(id).value) == Some(id)
  {
    if id == 113 {
      assert TokenOfTypeId(113) == Some(Soft(Abstract));
      assert SoftId(Abstract) == 113;
    } else if id == 114 {
      assert TokenOfTypeId(114) == Some(Soft(Enum));
      assert SoftId(Enum) == 114;
    } else if id == 115 {
      assert TokenOfTypeId(115) == Some(Soft(Contract));
      assert SoftId(Contract) == 115;
    } else {
      assert TokenOfTypeId(116) == Some(Soft(Open));
      assert SoftId(Open) == 116;
    }
  }

  lemma IdTokenRoundTripPart29(id: int)
    requires 117 <= id <= 120
    ensures TokenOfTypeId(id).Some? && TypeId(TokenOfTypeId(id).value) == Some(id)
  {
    if id == 117 {
      assert TokenOfTypeId(117) == Some(Soft(Inner));
      assert SoftId(Inner) == 117;
    } else if id == 118 {
      assert TokenOfTypeId(118) == Some(Soft(Override));
      assert SoftId(Override) == 118;
    } else if id == 119 {
      assert TokenOfTypeId(119) == Some(Soft(Private));
      assert SoftId(Private) == 119;
    } else {
      assert TokenOfTypeId(120) == Some(Soft(Public));
      assert SoftId(Public) == 120;
    }
  }

  lemma IdTokenRoundTripPart30(id: int)
    requires 121 <= id <= 124
    ensures TokenOfTypeId(id).Some? && TypeId(TokenOfTypeId(id).value) == Some(id)
  {
    if id == 121 {
      assert TokenOfTypeId(121) == Some(Soft(Internal));
      assert SoftId(Internal) == 121;
    } else if id == 122 {
      assert TokenOfTypeId(122) == Some(Soft(Protected));
      assert SoftId(Protected) == 122;
    } else if id == 123 {
      assert TokenOfTypeId(123) == Some(Soft(Catch));
      assert SoftId(Catch) == 123;
    } else {
      assert TokenOfTypeId(124) == Some(Soft(Out));
      assert SoftId(Out) == 124;
    }
  }

  lemma IdTokenRoundTripPart31(id: int)
    requires 125 <= id <= 128
    ensures TokenOfTypeId(id).Some? && TypeId(TokenOfTypeId(id).value) == Some(id)
  {
    if id == 125 {
      assert TokenOfTypeId(125) == Some(Soft(Vararg));
      assert SoftId(Vararg) == 125;
    } else if id == 126 {
      assert TokenOfTypeId(126) == Some(Soft(Reified));
      assert SoftId(Reified) == 126;
    } else if id == 127 {
      assert TokenOfTypeId(127) == Some(Soft(Dynamic));
      assert SoftId(Dynamic) == 127;
    } else {
      assert TokenOfTypeId(128) == Some(Soft(Companion));
      assert SoftId(Companion) == 128;
    }
  }

  lemma IdTokenRoundTripPart32(id: int)
    requires 129 <= id <= 132
    ensures TokenOfTypeId(id).Some? && TypeId(TokenOfTypeId(id).value) == Some(id)
  {
    if id == 129 {
      assert TokenOfTypeId(129) == Some(Soft(Sealed));
      assert SoftId(Sealed) == 129;
    } else if id == 130 {
      assert TokenOfTypeId(130) == Some(Soft(Finally));
      assert SoftId(Finally) == 130;
    } else if id == 131 {
      assert TokenOfTypeId(131) == Some(Soft(Final));
      assert SoftId(Final) == 131;
    } else {
      assert TokenOfTypeId(132) == Some(Soft(Lateinit));
      assert SoftId(Lateinit) == 132;
    }
  }

  lemma IdTokenRoundTripPart33(id: int)
    requires 133 <= id <= 136
    ensures TokenOfTypeId(id).Some? && TypeId(TokenOfTypeId(id).value) == Some(id)
  {
    if id == 133 {
      assert TokenOfTypeId(133) == Some(Soft(Data));
      assert SoftId(Data) == 133;
    } else if id == 134 {
      assert TokenOfTypeId(134) == Some(Soft(Value));
      assert SoftId(Value) == 134;
    } else if id == 135 {
      assert TokenOfTypeId(135) == Some(Soft(Inline));
      assert SoftId(Inline) == 135;
    } else {
      assert TokenOfTypeId(136) == Some(Soft(Noinline));
      assert SoftId(Noinline) == 136;
    }
  }

  lemma IdTokenRoundTripPart34(id: int)
    requires 137 <= id <= 140
    ensures TokenOfTypeId(id).Some? && TypeId(TokenOfTypeId(id).value) == Some(id)
  {
    if id == 137 {
      assert TokenOfTypeId(137) == Some(Soft(Tailrec));
      assert SoftId(Tailrec) == 137;
    } else if id == 138 {
      assert TokenOfTypeId(138) == Some(Soft(External));
      assert SoftId(External) == 138;
    } else if id == 139 {
      assert TokenOfTypeId(139) == Some(Soft(Annotation));
      assert SoftId(Annotation) == 139;
    } else {
      assert TokenOfTypeId(140) == Some(Soft(Crossinline));
      assert SoftId(Crossinline) == 140;
    }
  }

  lemma IdTokenRoundTripPart35(id: int)
    requires 141 <= id <= 144
    ensures TokenOfTypeId(id).Some? && TypeId(TokenOfTypeId(id).value) == Some(id)
  {
    if id == 141 {
      assert TokenOfTypeId(141) == Some(Soft(Operator));
      assert SoftId(Operator) == 141;
    } else if id == 142 {
      assert TokenOfTypeId(142) == Some(Soft(Infix));
      assert SoftId(Infix) == 142;
    } else if id == 143 {
      assert TokenOfTypeId(143) == Some(Soft(Const));
      assert SoftId(Const) == 143;
    } else {
      assert TokenOfTypeId(144) == Some(Soft(Suspend));
      assert SoftId(Suspend) == 144;
    }
  }

  lemma IdTokenRoundTripPart36(id: int)
    requires 145 <= id <= 148
    ensures TokenOfTypeId(id).Some? && TypeId(TokenOfTypeId(id).value) == Some(id)
  {
    if id == 145 {
      assert TokenOfTypeId(145) == Some(Soft(Header));
      assert SoftId(Header) == 145;
    } else if id == 146 {
      assert TokenOfTypeId(146) == Some(Soft(Impl));
      assert SoftId(Impl) == 146;
    } else if id == 147 {
      assert TokenOfTypeId(147) == Some(Soft(Expect));
      assert SoftId(Expect) == 147;
    } else {
      assert TokenOfTypeId(148) == Some(Soft(Actual));
      assert SoftId(Actual) == 148;
    }
  }

  /** Exactly the ids 1 to 148 are in use, each by a constant that carries it;
      in particular INVALID_Type names no token. */
  lemma {:induction false} IdTokenRoundTrip(id: int)
    ensures TokenOfTypeId(id).Some? <==> 1 <= id <= 148
    ensures TokenOfTypeId(id).Some? ==> TypeId(TokenOfTypeId(id).value) == Some(id)
  {
    if id <= 4 {
      if 1 <= id { IdTokenRoundTripPart0(id); }
    }
    else if id <= 8 {
      if 5 <= id { IdTokenRoundTripPart1(id); }
    }
    else if id <= 12 {
      if 9 <= id { IdTokenRoundTripPart2(id); }
    }
    else if id <= 16 {
      if 13 <= id { IdTokenRoundTripPart3(id); }
    }
    else if id <= 20 {
      if 17 <= id { IdTokenRoundTripPart4(id); }
    }
    else if id <= 24 {
      if 21 <= id { IdTokenRoundTripPart5(id); }
    }
    else if id <= 28 {
      if 25 <= id { IdTokenRoundTripPart6(id); }
    }
    else if id <= 32 {
      if 29 <= id { IdTokenRoundTripPart7(id); }
    }
    else if id <= 36 {
      if 33 <= id { IdTokenRoundTripPart8(id); }
    }
    else if id <= 40 {
      if 37 <= id { IdTokenRoundTripPart9(id); }
    }
    else if id <= 44 {
      if 41 <= id { IdTokenRoundTripPart10(id); }
    }
    else if id <= 48 {
      if 45 <= id { IdTokenRoundTripPart11(id); }
    }
    else if id <= 52 {
      if 49 <= id { IdTokenRoundTripPart12(id); }
    }
    else if id <= 56 {
      if 53 <= id { IdTokenRoundTripPart13(id); }
    }
    else if id <= 60 {
      if 57 <= id { IdTokenRoundTripPart14(id); }
    }
    else if id <= 64 {
      if 61 <= id { IdTokenRoundTripPart15(id); }
    }
    else if id <= 68 {
      if 65 <= id { IdTokenRoundTripPart16(id); }
    }
    else if id <= 72 {
      if 69 <= id { IdTokenRoundTripPart17(id); }
    }
    else if id <= 76 {
      if 73 <= id { IdTokenRoundTripPart18(id); }
    }
    else if id <= 80 {
      if 77 <= id { IdTokenRoundTripPart19(id); }
    }
    else if id <= 84 {
      if 81 <= id { IdTokenRoundTripPart20(id); }
    }
    else if id <= 88 {
      if 85 <= id { IdTokenRoundTripPart21(id); }
    }
    else if id <= 92 {
      if 89 <= id { IdTokenRoundTripPart22(id); }
    }
    else if id <= 96 {
      if 93 <= id { IdTokenRoundTripPart23(id); }
    }
    else if id <= 100 {
      if 97 <= id { IdTokenRoundTripPart24(id); }
    }
    else if id <= 104 {
      if 101 <= id { IdTokenRoundTripPart25(id); }
    }
    else if id <= 108 {
      if 105 <= id { IdTokenRoundTripPart26(id); }
    }
    else if id <= 112 {
      if 109 <= id { IdTokenRoundTripPart27(id); }
    }
    else if id <= 116 {
      if 113 <= id { IdTokenRoundTripPart28(id); }
    }
    else if id <= 120 {
      if 117 <= id { IdTokenRoundTripPart29(id); }
    }
    else if id <= 124 {
      if 121 <= id { IdTokenRoundTripPart30(id); }
    }
    else if id <= 128 {
      if 125 <= id { IdTokenRoundTripPart31(id); }
    }
    else if id <= 132 {
      if 129 <= id { IdTokenRoundTripPart32(id); }
    }
    else if id <= 136 {
      if 133 <= id { IdTokenRoundTripPart33(id); }
    }
    else if id <= 140 {
      if 137 <= id { IdTokenRoundTripPart34(id); }
    }
    else if id <= 144 {
      if 141 <= id { IdTokenRoundTripPart35(id); }
    }
    else if 145 <= id <= 148 {
      IdTokenRoundTripPart36(id);
    }
  }

  /** Each SoftSpellingRoundTripPartN below proves SoftSpellingRoundTrip for one slice of the
      cases; SoftSpellingRoundTrip, after the slices, combines them. The split keeps each
      proof obligation small. */
  lemma SoftSpellingRoundTripPart0(k: SoftKeyword)
    requires k == File || k == Field || k == Property || k == Receiver || k == Param
    ensures SoftKeywordOfSpelling(SoftSpelling(k)) == Some(k)
  {
    match k
    case File => assert SoftSpelling(k) == "file";
    case Field => assert SoftSpelling(k) == "field";
    case Property => assert SoftSpelling(k) == "property";
    case Receiver => assert SoftSpelling(k) == "receiver";
    case Param => assert SoftSpelling(k) == "param";
  }

  lemma SoftSpellingRoundTripPart1(k: SoftKeyword)
    requires k == Setparam || k == Delegate || k == Import || k == Where || k == By
    ensures SoftKeywordOfSpelling(SoftSpelling(k)) == Some(k)
  {
    match k
    case Setparam => assert SoftSpelling(k) == "setparam";
    case Delegate => assert SoftSpelling(k) == "delegate";
    case Import => assert SoftSpelling(k) == "import";
    case Where => assert SoftSpelling(k) == "where";
    case By => assert SoftSpelling(k) == "by";
  }

  lemma SoftSpellingRoundTripPart2(k: SoftKeyword)
    requires k == Get || k == Set || k == Constructor || k == Init || k == Context
    ensures SoftKeywordOfSpelling(SoftSpelling(k)) == Some(k)
  {
    match k
    case Get => assert SoftSpelling(k) == "get";
    case Set => assert SoftSpelling(k) == "set";
    case Constructor => assert SoftSpelling(k) == "constructor";
    case Init => assert SoftSpelling(k) == "init";
    case Context => assert SoftSpelling(k) == "context";
  }

  lemma SoftSpellingRoundTripPart3(k: SoftKeyword)
    requires k == Abstract || k == Enum || k == Contract || k == Open || k == Inner
    ensures SoftKeywordOfSpelling(SoftSpelling(k)) == Some(k)
  {
    match k
    case Abstract => assert SoftSpelling(k) == "abstract";
    case Enum => assert SoftSpelling(k) == "enum";
    case Contract => assert SoftSpelling(k) == "contract";
    case Open => assert SoftSpelling(k) == "open";
    case Inner => assert SoftSpelling(k) == "inner";
  }

  lemma SoftSpellingRoundTripPart4(k: SoftKeyword)
    requires k == Override || k == Private || k == Public || k == Internal || k == Protected
    ensures SoftKeywordOfSpelling(SoftSpelling(k)) == Some(k)
  {
    match k
    case Override => assert SoftSpelling(k) == "override";
    case Private => assert SoftSpelling(k) == "private";
    case Public => assert SoftSpelling(k) == "public";
    case Internal => assert SoftSpelling(k) == "internal";
    case Protected => assert SoftSpelling(k) == "protected";
  }

  lemma SoftSpellingRoundTripPart5(k: SoftKeyword)
    requires k == Catch || k == Out || k == Vararg || k == Reified || k == Dynamic
    ensures SoftKeywordOfSpelling(SoftSpelling(k)) == Some(k)
  {
    match k
    case Catch => assert SoftSpelling(k) == "catch";
    case Out => assert SoftSpelling(k) == "out";
    case Vararg => assert SoftSpelling(k) == "vararg";
    case Reified => assert SoftSpelling(k) == "reified";
    case Dynamic => assert SoftSpelling(k) == "dynamic";
  }

  lemma SoftSpellingRoundTripPart6(k: SoftKeyword)
    requires k == Companion || k == Sealed || k == Finally || k == Final || k == Lateinit
    ensures SoftKeywordOfSpelling(SoftSpelling(k)) == Some(k)
  {
    match k
    case Companion => assert SoftSpelling(k) == "companion";
    case Sealed => assert SoftSpelling(k) == "sealed";
    case Finally => assert SoftSpelling(k) == "finally";
    case Final => assert SoftSpelling(k) == "final";
    case Lateinit => assert SoftSpelling(k) == "lateinit";
  }

  lemma SoftSpellingRoundTripPart7(k: SoftKeyword)
    requires k == Data || k == Value || k == Inline || k == Noinline || k == Tailrec
    ensures SoftKeywordOfSpelling(SoftSpelling(k)) == Some(k)
  {
    match k
    case Data => assert SoftSpelling(k) == "data";
    case Value => assert SoftSpelling(k) == "value";
    case Inline => assert SoftSpelling(k) == "inline";
    case Noinline => assert SoftSpelling(k) == "noinline";
    case Tailrec => assert SoftSpelling(k) == "tailrec";
  }

  lemma SoftSpellingRoundTripPart8(k: SoftKeyword)
    requires k == External || k == Annotation || k == Crossinline || k == Operator || k == Infix
    ensures SoftKeywordOfSpelling(SoftSpelling(k)) == Some(k)
  {
    match k
    case External => assert SoftSpelling(k) == "external";
    case Annotation => assert SoftSpelling(k) == "annotation";
    case Crossinline => assert SoftSpelling(k) == "crossinline";
    case Operator => assert SoftSpelling(k) == "operator";
    case Infix => assert SoftSpelling(k) == "infix";
  }

  lemma SoftSpellingRoundTripPart9(k: SoftKeyword)
    requires k == Const || k == Suspend || k == Header || k == Impl || k == Expect
    ensures SoftKeywordOfSpelling(SoftSpelling(k)) == Some(k)
  {
    match k
    case Const => assert SoftSpelling(k) == "const";
    case Suspend => assert SoftSpelling(k) == "suspend";
    case Header => assert SoftSpelling(k) == "header";
    case Impl => assert SoftSpelling(k) == "impl";
    case Expect => assert SoftSpelling(k) == "expect";
  }

  lemma SoftSpellingRoundTripPart10(k: SoftKeyword)
    requires k == Actual
    ensures SoftKeywordOfSpelling(SoftSpelling(k)) == Some(k)
  {
    match k
    case Actual => assert SoftSpelling(k) == "actual";
  }

  /** Soft keyword spellings are pairwise distinct: every spelling decodes back to its keyword. */
  lemma {:induction false} SoftSpellingRoundTrip(k: SoftKeyword)
    ensures SoftKeywordOfSpelling(SoftSpelling(k)) == Some(k)
  {
    match k
    case File | Field | Property | Receiver | Param =>
      SoftSpellingRoundTripPart0(k);
    case Setparam | Delegate | Import | Where | By =>
      SoftSpellingRoundTripPart1(k);
    case Get | Set | Constructor | Init | Context =>
      SoftSpellingRoundTripPart2(k);
    case Abstract | Enum | Contract | Open | Inner =>
      SoftSpellingRoundTripPart3(k);
    case Override | Private | Public | Internal | Protected =>
      SoftSpellingRoundTripPart4(k);
    case Catch | Out | Vararg | Reified | Dynamic =>
      SoftSpellingRoundTripPart5(k);
    case Companion | Sealed | Finally | Final | Lateinit =>
      SoftSpellingRoundTripPart6(k);
    case Data | Value | Inline | Noinline | Tailrec =>
      SoftSpellingRoundTripPart7(k);
    case External | Annotation | Crossinline | Operator | Infix =>
      SoftSpellingRoundTripPart8(k);
    case Const | Suspend | Header | Impl | Expect =>
      SoftSpellingRoundTripPart9(k);
    case Actual =>
      SoftSpellingRoundTripPart10(k);
  }

  lemma SoftSpellingInjective(a: SoftKeyword, b: SoftKeyword)
    requires SoftSpelling(a) == SoftSpelling(b)
    ensures a == b
  {
    SoftSpellingRoundTrip(a);
    SoftSpellingRoundTrip(b);
  }

  /** Every member of KEYWORDS is a fixed keyword. */
  lemma KeywordsHoldOnlyFixedKeywords()
    ensures forall t | t in Keywords :: t.Hard?
  {
  }

  /** Each EveryFixedKeywordIsListedPartN below proves EveryFixedKeywordIsListed for one slice of the
      cases; EveryFixedKeywordIsListed, after the slices, combines them. The split keeps each
      proof obligation small. */
  lemma EveryFixedKeywordIsListedPart0(k: HardKeyword)
    requires k == Package || k == As || k == TypeAlias || k == Class || k == This || k == Super || k == Val || k == Var
    ensures Hard(k) in Keywords
  {
    match k
    case Package => 
    case As => 
    case TypeAlias => 
    case Class => 
    case This => 
    case Super => 
    case Val => 
    case Var => 
  }

  lemma EveryFixedKeywordIsListedPart1(k: HardKeyword)
    requires k == Fun || k == For || k == Null || k == True || k == False || k == Is || k == In || k == Throw
    ensures Hard(k) in Keywords
  {
    match k
    case Fun => 
    case For => 
    case Null => 
    case True => 
    case False => 
    case Is => 
    case In => 
    case Throw => 
  }

  lemma EveryFixedKeywordIsListedPart2(k: HardKeyword)
    requires k == Return || k == Break || k == Continue || k == Object || k == If || k == Try || k == Else || k == While
    ensures Hard(k) in Keywords
  {
    match k
    case Return => 
    case Break => 
    case Continue => 
    case Object => 
    case If => 
    case Try => 
    case Else => 
    case While => 
  }

  lemma EveryFixedKeywordIsListedPart3(k: HardKeyword)
    requires k == Do || k == When || k == Interface || k == Typeof || k == AsSafe || k == NotIn || k == NotIs
    ensures Hard(k) in Keywords
  {
    match k
    case Do => 
    case When => 
    case Interface => 
    case Typeof => 
    case AsSafe => 
    case NotIn => 
    case NotIs => 
  }

  /** Every fixed keyword is a member of KEYWORDS. */
  lemma {:induction false} EveryFixedKeywordIsListed(k: HardKeyword)
    ensures Hard(k) in Keywords
  {
    match k
    case Package | As | TypeAlias | Class | This | Super | Val | Var =>
      EveryFixedKeywordIsListedPart0(k);
    case Fun | For | Null | True | False | Is | In | Throw =>
      EveryFixedKeywordIsListedPart1(k);
    case Return | Break | Continue | Object | If | Try | Else | While =>
      EveryFixedKeywordIsListedPart2(k);
    case Do | When | Interface | Typeof | AsSafe | NotIn | NotIs =>
      EveryFixedKeywordIsListedPart3(k);
  }

  /** Every member of SOFT_KEYWORDS is a soft keyword. */
  lemma SoftKeywordsHoldOnlySoftKeywords()
    ensures forall t | t in SoftKeywords :: t.Soft?
  {
  }

  /** Each EverySoftKeywordIsListedPartN below proves EverySoftKeywordIsListed for one slice of the
      cases; EverySoftKeywordIsListed, after the slices, combines them. The split keeps each
      proof obligation small. */
  lemma EverySoftKeywordIsListedPart0(k: SoftKeyword)
    requires k == File || k == Field || k == Property || k == Receiver || k == Param || k == Setparam || k == Delegate || k == Import
    ensures Soft(k) in SoftKeywords
  {
    match k
    case File => 
    case Field => 
    case Property => 
    case Receiver => 
    case Param => 
    case Setparam => 
    case Delegate => 
    case Import => 
  }

  lemma EverySoftKeywordIsListedPart1(k: SoftKeyword)
    requires k == Where || k == By || k == Get || k == Set || k == Constructor || k == Init || k == Context || k == Abstract
    ensures Soft(k) in SoftKeywords
  {
    match k
    case Where => 
    case By => 
    case Get => 
    case Set => 
    case Constructor => 
    case Init => 
    case Context => 
    case Abstract => 
  }

  lemma EverySoftKeywordIsListedPart2(k: SoftKeyword)
    requires k == Enum || k == Contract || k == Open || k == Inner || k == Override || k == Private || k == Public || k == Internal
    ensures Soft(k) in SoftKeywords
  {
    match k
    case Enum => 
    case Contract => 
    case Open => 
    case Inner => 
    case Override => 
    case Private => 
    case Public => 
    case Internal => 
  }

  lemma EverySoftKeywordIsListedPart3(k: SoftKeyword)
    requires k == Protected || k == Catch || k == Out || k == Vararg || k == Reified || k == Dynamic || k == Companion || k == Sealed
    ensures Soft(k) in SoftKeywords
  {
    match k
    case Protected => 
    case Catch => 
    case Out => 
    case Vararg => 
    case Reified => 
    case Dynamic => 
    case Companion => 
    case Sealed => 
  }

  lemma EverySoftKeywordIsListedPart4(k: SoftKeyword)
    requires k == Finally || k == Final || k == Lateinit || k == Data || k == Value || k == Inline || k == Noinline || k == Tailrec
    ensures Soft(k) in SoftKeywords
  {
    match k
    case Finally => 
    case Final => 
    case Lateinit => 
    case Data => 
    case Value => 
    case Inline => 
    case Noinline => 
    case Tailrec => 
  }

  lemma EverySoftKeywordIsListedPart5(k: SoftKeyword)
    requires k == External || k == Annotation || k == Crossinline || k == Operator || k == Infix || k == Const || k == Suspend || k == Header
    ensures Soft(k) in SoftKeywords
  {
    match k
    case External => 
    case Annotation => 
    case Crossinline => 
    case Operator => 
    case Infix => 
    case Const => 
    case Suspend => 
    case Header => 
  }

  lemma EverySoftKeywordIsListedPart6(k: SoftKeyword)
    requires k == Impl || k == Expect || k == Actual
    ensures Soft(k) in SoftKeywords
  {
    match k
    case Impl => 
    case Expect => 
    case Actual => 
  }

  /** Every soft keyword is a member of SOFT_KEYWORDS. */
  lemma {:induction false} EverySoftKeywordIsListed(k: SoftKeyword)
    ensures Soft(k) in SoftKeywords
  {
    match k
    case File | Field | Property | Receiver | Param | Setparam | Delegate | Import =>
      EverySoftKeywordIsListedPart0(k);
    case Where | By | Get | Set | Constructor | Init | Context | Abstract =>
      EverySoftKeywordIsListedPart1(k);
    case Enum | Contract | Open | Inner | Override | Private | Public | Internal =>
      EverySoftKeywordIsListedPart2(k);
    case Protected | Catch | Out | Vararg | Reified | Dynamic | Companion | Sealed =>
      EverySoftKeywordIsListedPart3(k);
    case Finally | Final | Lateinit | Data | Value | Inline | Noinline | Tailrec =>
      EverySoftKeywordIsListedPart4(k);
    case External | Annotation | Crossinline | Operator | Infix | Const | Suspend | Header =>
      EverySoftKeywordIsListedPart5(k);
    case Impl | Expect | Actual =>
      EverySoftKeywordIsListedPart6(k);
  }

  /** KEYWORDS holds exactly the fixed keywords; none of them is soft. */
  lemma KeywordsAreTheFixedKeywords(t: TokenKind)
    ensures t in Keywords <==> IsKeywordToken(t) && !IsSoftKeyword(t)
  {
    KeywordsHoldOnlyFixedKeywords();
    if t.Hard? {
      EveryFixedKeywordIsListed(t.hard);
    }
  }

  /** SOFT_KEYWORDS holds exactly the soft keywords. */
  lemma SoftKeywordsAreTheSoftKeywords(t: TokenKind)
    ensures t in SoftKeywords <==> IsSoftKeyword(t)
  {
    SoftKeywordsHoldOnlySoftKeywords();
    if t.Soft? {
      EverySoftKeywordIsListed(t.soft);
    }
  }

  /** Every member of MODIFIER_KEYWORDS_ARRAY is a KtModifierKeywordToken. */
  lemma ModifierKeywordsHoldOnlyModifiers()
    ensures forall t | t in ModifierKeywords :: IsModifierKeyword(t)
  {
    forall t | t in ModifierKeywords
      ensures IsModifierKeyword(t)
    {
      var i :| 0 <= i < |ModifierKeywordsArray| && ModifierKeywordsArray[i] == t;
      ModifierIndexInverts(i);
      OnlyModifiersHaveAnIndex(t);
    }
  }

  lemma OnlyModifiersHaveAnIndex(t: TokenKind)
    requires ModifierIndex(t).Some?
    ensures IsModifierKeyword(t)
  {
  }

  /** Every KtModifierKeywordToken is listed in MODIFIER_KEYWORDS_ARRAY. */
  lemma {:induction false} EveryModifierIsListed(t: TokenKind)
    requires IsModifierKeyword(t)
    ensures t in ModifierKeywords
  {
    match t
    case Hard(k) => {
      match k
      case Fun => assert Hard(k) in ModifierKeywordsArray;
      case In => assert Hard(k) in ModifierKeywordsArray;
      case _ =>
    }
    case Soft(k) => {
      match k
      case Abstract => assert Soft(k) in ModifierKeywordsArray;
      case Enum => assert Soft(k) in ModifierKeywordsArray;
      case Contract => assert Soft(k) in ModifierKeywordsArray;
      case Open => assert Soft(k) in ModifierKeywordsArray;
      case Inner => assert Soft(k) in ModifierKeywordsArray;
      case Override => assert Soft(k) in ModifierKeywordsArray;
      case Private => assert Soft(k) in ModifierKeywordsArray;
      case Public => assert Soft(k) in ModifierKeywordsArray;
      case Internal => assert Soft(k) in ModifierKeywordsArray;
      case Protected => assert Soft(k) in ModifierKeywordsArray;
      case Out => assert Soft(k) in ModifierKeywordsArray;
      case Vararg => assert Soft(k) in ModifierKeywordsArray;
      case Reified => assert Soft(k) in ModifierKeywordsArray;
      case Companion => assert Soft(k) in ModifierKeywordsArray;
      case Sealed => assert Soft(k) in ModifierKeywordsArray;
      case Final => assert Soft(k) in ModifierKeywordsArray;
      case Lateinit => assert Soft(k) in ModifierKeywordsArray;
      case Data => assert Soft(k) in ModifierKeywordsArray;
      case Value => assert Soft(k) in ModifierKeywordsArray;
      case Inline => assert Soft(k) in ModifierKeywordsArray;
      case Noinline => assert Soft(k) in ModifierKeywordsArray;
      case Tailrec => assert Soft(k) in ModifierKeywordsArray;
      case External => assert Soft(k) in ModifierKeywordsArray;
      case Annotation => assert Soft(k) in ModifierKeywordsArray;
      case Crossinline => assert Soft(k) in ModifierKeywordsArray;
      case Operator => assert Soft(k) in ModifierKeywordsArray;
      case Infix => assert Soft(k) in ModifierKeywordsArray;
      case Const => assert Soft(k) in ModifierKeywordsArray;
      case Suspend => assert Soft(k) in ModifierKeywordsArray;
      case Header => assert Soft(k) in ModifierKeywordsArray;
      case Impl => assert Soft(k) in ModifierKeywordsArray;
      case Expect => assert Soft(k) in ModifierKeywordsArray;
      case Actual => assert Soft(k) in ModifierKeywordsArray;
      case _ =>
    }
  }

  /** MODIFIER_KEYWORDS holds exactly the modifier keywords. */
  lemma ModifierKeywordsAreTheModifiers(t: TokenKind)
    ensures t in ModifierKeywords <==> IsModifierKeyword(t)
  {
    ModifierKeywordsHoldOnlyModifiers();
    if IsModifierKeyword(t) {
      EveryModifierIsListed(t);
    }
  }

  /** The position of a modifier keyword in MODIFIER_KEYWORDS_ARRAY, the
      number stub serialisation records for it. */
  function ModifierIndex(t: TokenKind): Option<nat>
  {
    match t
    case Soft(Abstract) => Some(0)
    case Soft(Enum) => Some(1)
    case Soft(Contract) => Some(2)
    case Soft(Open) => Some(3)
    case Soft(Inner) => Some(4)
    case Soft(Override) => Some(5)
    case Soft(Private) => Some(6)
    case Soft(Public) => Some(7)
    case Soft(Internal) => Some(8)
    case Soft(Protected) => Some(9)
    case Soft(Out) => Some(10)
    case Hard(In) => Some(11)
    case Soft(Final) => Some(12)
    case Soft(Vararg) => Some(13)
    case Soft(Reified) => Some(14)
    case Soft(Companion) => Some(15)
    case Soft(Sealed) => Some(16)
    case Soft(Lateinit) => Some(17)
    case Soft(Data) => Some(18)
    case Soft(Inline) => Some(19)
    case Soft(Noinline) => Some(20)
    case Soft(Tailrec) => Some(21)
    case Soft(External) => Some(22)
    case Soft(Annotation) => Some(23)
    case Soft(Crossinline) => Some(24)
    case Soft(Const) => Some(25)
    case Soft(Operator) => Some(26)
    case Soft(Infix) => Some(27)
    case Soft(Suspend) => Some(28)
    case Soft(Header) => Some(29)
    case Soft(Impl) => Some(30)
    case Soft(Expect) => Some(31)
    case Soft(Actual) => Some(32)
    case Hard(Fun) => Some(33)
    case Soft(Value) => Some(34)
    case _ => None
  }

  /** Each ModifierIndexInvertsPartN below proves ModifierIndexInverts for one slice of the
      cases; ModifierIndexInverts, after the slices, combines them. The split keeps each
      proof obligation small. */
  lemma ModifierIndexInvertsPart0(i: int)
    requires 0 <= i <= 3
    ensures 0 <= i < |ModifierKeywordsArray| && ModifierIndex(ModifierKeywordsArray[i]) == Some(i)
  {
    if i == 0 {
      assert ModifierKeywordsArray[0] == Soft(Abstract);
    } else if i == 1 {
      assert ModifierKeywordsArray[1] == Soft(Enum);
    } else if i == 2 {
      assert ModifierKeywordsArray[2] == Soft(Contract);
    } else {
      assert ModifierKeywordsArray[3] == Soft(Open);
    }
  }

  lemma ModifierIndexInvertsPart1(i: int)
    requires 4 <= i <= 7
    ensures 0 <= i < |ModifierKeywordsArray| && ModifierIndex(ModifierKeywordsArray[i]) == Some(i)
  {
    if i == 4 {
      assert ModifierKeywordsArray[4] == Soft(Inner);
    } else if i == 5 {
      assert ModifierKeywordsArray[5] == Soft(Override);
    } else if i == 6 {
      assert ModifierKeywordsArray[6] == Soft(Private);
    } else {
      assert ModifierKeywordsArray[7] == Soft(Public);
    }
  }

  lemma ModifierIndexInvertsPart2(i: int)
    requires 8 <= i <= 11
    ensures 0 <= i < |ModifierKeywordsArray| && ModifierIndex(ModifierKeywordsArray[i]) == Some(i)
  {
    if i == 8 {
      assert ModifierKeywordsArray[8] == Soft(Internal);
    } else if i == 9 {
      assert ModifierKeywordsArray[9] == Soft(Protected);
    } else if i == 10 {
      assert ModifierKeywordsArray[10] == Soft(Out);
    } else {
      assert ModifierKeywordsArray[11] == Hard(In);
    }
  }

  lemma ModifierIndexInvertsPart3(i: int)
    requires 12 <= i <= 15
    ensures 0 <= i < |ModifierKeywordsArray| && ModifierIndex(ModifierKeywordsArray[i]) == Some(i)
  {
    if i == 12 {
      assert ModifierKeywordsArray[12] == Soft(Final);
    } else if i == 13 {
      assert ModifierKeywordsArray[13] == Soft(Vararg);
    } else if i == 14 {
      assert ModifierKeywordsArray[14] == Soft(Reified);
    } else {
      assert ModifierKeywordsArray[15] == Soft(Companion);
    }
  }

  lemma ModifierIndexInvertsPart4(i: int)
    requires 16 <= i <= 19
    ensures 0 <= i < |ModifierKeywordsArray| && ModifierIndex(ModifierKeywordsArray[i]) == Some(i)
  {
    if i == 16 {
      assert ModifierKeywordsArray[16] == Soft(Sealed);
    } else if i == 17 {
      assert ModifierKeywordsArray[17] == Soft(Lateinit);
    } else if i == 18 {
      assert ModifierKeywordsArray[18] == Soft(Data);
    } else {
      assert ModifierKeywordsArray[19] == Soft(Inline);
    }
  }

  lemma ModifierIndexInvertsPart5(i: int)
    requires 20 <= i <= 23
    ensures 0 <= i < |ModifierKeywordsArray| && ModifierIndex(ModifierKeywordsArray[i]) == Some(i)
  {
    if i == 20 {
      assert ModifierKeywordsArray[20] == Soft(Noinline);
    } else if i == 21 {
      assert ModifierKeywordsArray[21] == Soft(Tailrec);
    } else if i == 22 {
      assert ModifierKeywordsArray[22] == Soft(External);
    } else {
      assert ModifierKeywordsArray[23] == Soft(Annotation);
    }
  }

  lemma ModifierIndexInvertsPart6(i: int)
    requires 24 <= i <= 27
    ensures 0 <= i < |ModifierKeywordsArray| && ModifierIndex(ModifierKeywordsArray[i]) == Some(i)
  {
    if i == 24 {
      assert ModifierKeywordsArray[24] == Soft(Crossinline);
    } else if i == 25 {
      assert ModifierKeywordsArray[25] == Soft(Const);
    } else if i == 26 {
      assert ModifierKeywordsArray[26] == Soft(Operator);
    } else {
      assert ModifierKeywordsArray[27] == Soft(Infix);
    }
  }

  lemma ModifierIndexInvertsPart7(i: int)
    requires 28 <= i <= 31
    ensures 0 <= i < |ModifierKeywordsArray| && ModifierIndex(ModifierKeywordsArray[i]) == Some(i)
  {
    if i == 28 {
      assert ModifierKeywordsArray[28] == Soft(Suspend);
    } else if i == 29 {
      assert ModifierKeywordsArray[29] == Soft(Header);
    } else if i == 30 {
      assert ModifierKeywordsArray[30] == Soft(Impl);
    } else {
      assert ModifierKeywordsArray[31] == Soft(Expect);
    }
  }

  lemma ModifierIndexInvertsPart8(i: int)
    requires 32 <= i <= 34
    ensures 0 <= i < |ModifierKeywordsArray| && ModifierIndex(ModifierKeywordsArray[i]) == Some(i)
  {
    if i == 32 {
      assert ModifierKeywordsArray[32] == Soft(Actual);
    } else if i == 33 {
      assert ModifierKeywordsArray[33] == Hard(Fun);
    } else {
      assert ModifierKeywordsArray[34] == Soft(Value);
    }
  }

  /** ModifierIndex recovers the position of every entry of MODIFIER_KEYWORDS_ARRAY. */
  lemma {:induction false} ModifierIndexInverts(i: int)
    requires 0 <= i < |ModifierKeywordsArray|
    ensures ModifierIndex(ModifierKeywordsArray[i]) == Some(i)
  {
    if i <= 3 {
      ModifierIndexInvertsPart0(i);
    }
    else if i <= 7 {
      ModifierIndexInvertsPart1(i);
    }
    else if i <= 11 {
      ModifierIndexInvertsPart2(i);
    }
    else if i <= 15 {
      ModifierIndexInvertsPart3(i);
    }
    else if i <= 19 {
      ModifierIndexInvertsPart4(i);
    }
    else if i <= 23 {
      ModifierIndexInvertsPart5(i);
    }
    else if i <= 27 {
      ModifierIndexInvertsPart6(i);
    }
    else if i <= 31 {
      ModifierIndexInvertsPart7(i);
    }
    else {
      ModifierIndexInvertsPart8(i);
    }
  }

  /** MODIFIER_KEYWORDS_ARRAY lists no modifier twice, so a serialised index
      names one modifier. */
  lemma ModifierArrayHasNoDuplicates(i: int, j: int)
    requires 0 <= i < |ModifierKeywordsArray| && 0 <= j < |ModifierKeywordsArray|
    requires ModifierKeywordsArray[i] == ModifierKeywordsArray[j]
    ensures i == j
  {
    ModifierIndexInverts(i);
    ModifierIndexInverts(j);
  }

  /** The modifier subsets that KtTokens names consist of modifier keywords. */
  lemma ModifierSubsetsAreModifiers()
    ensures TypeModifierKeywords + TypeArgumentModifierKeywords <= ModifierKeywords
    ensures ReservedValueParameterModifierKeywords <= ModifierKeywords
  {
    forall t | t in TypeModifierKeywords + TypeArgumentModifierKeywords + ReservedValueParameterModifierKeywords
      ensures t in ModifierKeywords
    {
      EveryModifierIsListed(t);
    }
  }

  /** VISIBILITY_MODIFIERS and MODALITY_MODIFIERS consist of modifier keywords,
      and DEFAULT_VISIBILITY_KEYWORD is a visibility modifier. */
  lemma VisibilityAndModalityAreModifiers()
    ensures VisibilityModifiers + ModalityModifiers <= ModifierKeywords
    ensures DefaultVisibilityKeyword in VisibilityModifiers
  {
    forall t | t in VisibilityModifiers + ModalityModifiers
      ensures t in ModifierKeywords
    {
      EveryModifierIsListed(t);
    }
  }

  /** FUN and IN are both modifier keywords and fixed keywords. */
  lemma FunAndInAreFixedModifiers()
    ensures Hard(Fun) in ModifierKeywords && Hard(Fun) in Keywords
    ensures Hard(In) in ModifierKeywords && Hard(In) in Keywords
  {
    assert Hard(Fun) in ModifierKeywordsArray && Hard(In) in ModifierKeywordsArray;
  }

  /** No modifier keyword other than FUN and IN is a fixed keyword. */
  lemma OnlyFunAndInAreFixedModifiers(t: TokenKind)
    requires t in ModifierKeywords && t in Keywords
    ensures t == Hard(Fun) || t == Hard(In)
  {
    ModifierKeywordsAreTheModifiers(t);
    KeywordsAreTheFixedKeywords(t);
  }

  /** ALL_ASSIGNMENTS is `=` plus the augmented assignments, the increment
      operators are operations, and no trivia token is a keyword. */
  lemma TokenSetRelations()
    ensures AllAssignments == AugmentedAssignments + {Single(Eq)}
    ensures IncrementAndDecrement <= Operations
    ensures WhiteSpaceOrCommentBitSet !! Keywords + SoftKeywords
  {
    forall t | t in WhiteSpaceOrCommentBitSet
      ensures t !in Keywords + SoftKeywords
    {
      KeywordsAreTheFixedKeywords(t);
      SoftKeywordsAreTheSoftKeywords(t);
    }
  }
}
