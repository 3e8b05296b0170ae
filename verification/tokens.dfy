/** The token catalogue of the language (data/tokens/types.ts): every token kind with the
    name and numeric code under which the scanner and the parser know it, plus the runtime
    type tags and the token record the lexer produces. */
module Tokens {

  /** One constructor per entry of the TokenType table, spelled as the table spells it:
      the keyword lookup of the lexer compares identifiers with exactly these names. */
  datatype TokenKind =
    | NULL | EOF | NEWLINE | IDENT
    | INT_TYPE | FLOAT_TYPE | CHAR_TYPE | STR_TYPE | BOOL_TYPE | ARR_TYPE
    | COMMA | COLON | PARLEFT | PARRIGHT | BRALEFT | BRARIGHT
    | PROGRAM | BEGIN | END | VARIABLES | CONSTANTS
    | INTEGER | FLOAT | CHARACTER | STRING | BOOLEAN | TRUE | FALSE
    | LET | PRINT | IF | THEN | ELSE | ENDIF | WHILE | DO | ENDWHILE
    | FOR | FROM | TO | STEP | ENDFOR | REPEAT | UNTIL | ENDREPEAT
    | SWITCH | CASE | DEFAULT | ENDSWITCH | RESIZE
    | AND | OR | NOT | PLUS | MINUS | ASTERISK | SLASH | CARET | PERCENT | AMPERSAND
    | EQ | EQEQ | NOTEQ | GT | GTEQ | LT | LTEQ

  /** A token: the slice of source text it was scanned from and its kind. */
  datatype Token = Token(lexeme: string, kind: TokenKind)

  /** The runtime type tags a value can carry (the *_TYPE entries of the table, plus NULL). */
  datatype TypeTag = IntType | FloatType | CharType | StrType | BoolType | ArrType | NullType

  /** The key of a kind in the TokenType table. */
  function Name(k: TokenKind): string {
    match k
    case NULL => "NULL"           case EOF => "EOF"               case NEWLINE => "NEWLINE"
    case IDENT => "IDENT"         case INT_TYPE => "INT_TYPE"     case FLOAT_TYPE => "FLOAT_TYPE"
    case CHAR_TYPE => "CHAR_TYPE" case STR_TYPE => "STR_TYPE"     case BOOL_TYPE => "BOOL_TYPE"
    case ARR_TYPE => "ARR_TYPE"   case COMMA => "COMMA"           case COLON => "COLON"
    case PARLEFT => "PARLEFT"     case PARRIGHT => "PARRIGHT"     case BRALEFT => "BRALEFT"
    case BRARIGHT => "BRARIGHT"   case PROGRAM => "PROGRAM"       case BEGIN => "BEGIN"
    case END => "END"             case VARIABLES => "VARIABLES"   case CONSTANTS => "CONSTANTS"
    case INTEGER => "INTEGER"     case FLOAT => "FLOAT"           case CHARACTER => "CHARACTER"
    case STRING => "STRING"       case BOOLEAN => "BOOLEAN"       case TRUE => "TRUE"
    case FALSE => "FALSE"         case LET => "LET"               case PRINT => "PRINT"
    case IF => "IF"               case THEN => "THEN"             case ELSE => "ELSE"
    case ENDIF => "ENDIF"         case WHILE => "WHILE"           case DO => "DO"
    case ENDWHILE => "ENDWHILE"   case FOR => "FOR"               case FROM => "FROM"
    case TO => "TO"               case STEP => "STEP"             case ENDFOR => "ENDFOR"
    case REPEAT => "REPEAT"       case UNTIL => "UNTIL"           case ENDREPEAT => "ENDREPEAT"
    case SWITCH => "SWITCH"       case CASE => "CASE"             case DEFAULT => "DEFAULT"
    case ENDSWITCH => "ENDSWITCH" case RESIZE => "RESIZE"         case AND => "AND"
    case OR => "OR"               case NOT => "NOT"               case PLUS => "PLUS"
    case MINUS => "MINUS"         case ASTERISK => "ASTERISK"     case SLASH => "SLASH"
    case CARET => "CARET"         case PERCENT => "PERCENT"       case AMPERSAND => "AMPERSAND"
    case EQ => "EQ"               case EQEQ => "EQEQ"             case NOTEQ => "NOTEQ"
    case GT => "GT"               case GTEQ => "GTEQ"             case LT => "LT"
    case LTEQ => "LTEQ"
  }

  datatype Option<T> = None | Some(value: T)

  /** The entry of the TokenType table whose key is `w`, if there is one; keys are unique, so
      this is also the first such entry in table order. */
  function Named(w: string): Option<TokenKind> {
    match |w|
    case 2 =>
      (match w
      case "IF" => Some(IF)
      case "DO" => Some(DO)
      case "TO" => Some(TO)
      case "OR" => Some(OR)
      case "EQ" => Some(EQ)
      case "GT" => Some(GT)
      case "LT" => Some(LT)
      case _ => None)
    case 3 =>
      (match w
      case "EOF" => Some(EOF)
      case "END" => Some(END)
      case "LET" => Some(LET)
      case "FOR" => Some(FOR)
      case "AND" => Some(AND)
      case "NOT" => Some(NOT)
      case _ => None)
    case 4 =>
      (match w
      case "NULL" => Some(NULL)
      case "TRUE" => Some(TRUE)
      case "THEN" => Some(THEN)
      case "ELSE" => Some(ELSE)
      case "FROM" => Some(FROM)
      case "STEP" => Some(STEP)
      case "CASE" => Some(CASE)
      case "PLUS" => Some(PLUS)
      case "EQEQ" => Some(EQEQ)
      case "GTEQ" => Some(GTEQ)
      case "LTEQ" => Some(LTEQ)
      case _ => None)
    case 5 =>
      (match w
      case "IDENT" => Some(IDENT)
      case "COMMA" => Some(COMMA)
      case "COLON" => Some(COLON)
      case "BEGIN" => Some(BEGIN)
      case "FLOAT" => Some(FLOAT)
      case "FALSE" => Some(FALSE)
      case "PRINT" => Some(PRINT)
      case "ENDIF" => Some(ENDIF)
      case "WHILE" => Some(WHILE)
      case "UNTIL" => Some(UNTIL)
      case "MINUS" => Some(MINUS)
      case "SLASH" => Some(SLASH)
      case "CARET" => Some(CARET)
      case "NOTEQ" => Some(NOTEQ)
      case _ => None)
    case 6 =>
      (match w
      case "STRING" => Some(STRING)
      case "ENDFOR" => Some(ENDFOR)
      case "REPEAT" => Some(REPEAT)
      case "SWITCH" => Some(SWITCH)
      case "RESIZE" => Some(RESIZE)
      case _ => None)
    case 7 =>
      (match w
      case "NEWLINE" => Some(NEWLINE)
      case "PARLEFT" => Some(PARLEFT)
      case "BRALEFT" => Some(BRALEFT)
      case "PROGRAM" => Some(PROGRAM)
      case "INTEGER" => Some(INTEGER)
      case "BOOLEAN" => Some(BOOLEAN)
      case "DEFAULT" => Some(DEFAULT)
      case "PERCENT" => Some(PERCENT)
      case _ => None)
    case 8 =>
      (match w
      case "INT_TYPE" => Some(INT_TYPE)
      case "STR_TYPE" => Some(STR_TYPE)
      case "ARR_TYPE" => Some(ARR_TYPE)
      case "PARRIGHT" => Some(PARRIGHT)
      case "BRARIGHT" => Some(BRARIGHT)
      case "ENDWHILE" => Some(ENDWHILE)
      case "ASTERISK" => Some(ASTERISK)
      case _ => None)
    case 9 =>
      (match w
      case "CHAR_TYPE" => Some(CHAR_TYPE)
      case "BOOL_TYPE" => Some(BOOL_TYPE)
      case "VARIABLES" => Some(VARIABLES)
      case "CONSTANTS" => Some(CONSTANTS)
      case "CHARACTER" => Some(CHARACTER)
      case "ENDREPEAT" => Some(ENDREPEAT)
      case "ENDSWITCH" => Some(ENDSWITCH)
      case "AMPERSAND" => Some(AMPERSAND)
      case _ => None)
    case 10 =>
      (match w
      case "FLOAT_TYPE" => Some(FLOAT_TYPE)
      case _ => None)
    case _ => None
  }

  /** The numeric code of a kind in the TokenType table: below 100 for general tokens,
      100..199 for keywords, 200 and above for operators, -1 for NULL. */
  function Code(k: TokenKind): int {
    match k
    case NULL => -1
    case EOF => 0        case NEWLINE => 1     case IDENT => 2
    case INT_TYPE => 3   case FLOAT_TYPE => 4  case CHAR_TYPE => 5
    case STR_TYPE => 6   case BOOL_TYPE => 7   case ARR_TYPE => 8
    case COMMA => 9      case COLON => 10      case PARLEFT => 11
    case PARRIGHT => 12  case BRALEFT => 13    case BRARIGHT => 14
    case PROGRAM => 100  case BEGIN => 101     case END => 102
    case VARIABLES => 103 case CONSTANTS => 104
    case INTEGER => 105  case FLOAT => 106     case CHARACTER => 107
    case STRING => 108   case BOOLEAN => 109   case TRUE => 110
    case FALSE => 111    case LET => 112       case PRINT => 113
    case IF => 114       case THEN => 115      case ELSE => 116
    case ENDIF => 117    case WHILE => 118     case DO => 119
    case ENDWHILE => 120 case FOR => 121       case FROM => 122
    case TO => 123       case STEP => 124      case ENDFOR => 125
    case REPEAT => 126   case UNTIL => 127     case ENDREPEAT => 128
    case SWITCH => 129   case CASE => 130      case DEFAULT => 131
    case ENDSWITCH => 132 case RESIZE => 133
    case AND => 200      case OR => 201        case NOT => 202
    case PLUS => 203     case MINUS => 204     case ASTERISK => 205
    case SLASH => 206    case CARET => 207     case PERCENT => 208
    case AMPERSAND => 209
    case EQ => 210       case EQEQ => 211      case NOTEQ => 212
    case GT => 213       case GTEQ => 214      case LT => 215
    case LTEQ => 216
  }

  /** Looking up the key of a kind finds that kind (proved for four kinds at a time, in table
      order, to keep each proof small). */
  lemma NamedRoundTrip(k: TokenKind)
    ensures Named(Name(k)) == Some(k)
  {
    match k
    case NULL | EOF | NEWLINE | IDENT => NamedRoundTripFromNull(k);
    case INT_TYPE | FLOAT_TYPE | CHAR_TYPE | STR_TYPE => NamedRoundTripFromIntType(k);
    case BOOL_TYPE | ARR_TYPE | COMMA | COLON => NamedRoundTripFromBoolType(k);
    case PARLEFT | PARRIGHT | BRALEFT | BRARIGHT => NamedRoundTripFromParleft(k);
    case PROGRAM | BEGIN | END | VARIABLES => NamedRoundTripFromProgram(k);
    case CONSTANTS | INTEGER | FLOAT | CHARACTER => NamedRoundTripFromConstants(k);
    case STRING | BOOLEAN | TRUE | FALSE => NamedRoundTripFromString(k);
    case LET | PRINT | IF | THEN => NamedRoundTripFromLet(k);
    case ELSE | ENDIF | WHILE | DO => NamedRoundTripFromElse(k);
    case ENDWHILE | FOR | FROM | TO => NamedRoundTripFromEndwhile(k);
    case STEP | ENDFOR | REPEAT | UNTIL => NamedRoundTripFromStep(k);
    case ENDREPEAT | SWITCH | CASE | DEFAULT => NamedRoundTripFromEndrepeat(k);
    case ENDSWITCH | RESIZE | AND | OR => NamedRoundTripFromEndswitch(k);
    case NOT | PLUS | MINUS | ASTERISK => NamedRoundTripFromNot(k);
    case SLASH | CARET | PERCENT | AMPERSAND => NamedRoundTripFromSlash(k);
    case EQ | EQEQ | NOTEQ | GT => NamedRoundTripFromEq(k);
    case GTEQ | LT | LTEQ => NamedRoundTripFromGteq(k);
  }

  lemma NamedRoundTripFromNull(k: TokenKind)
    requires k == NULL || k == EOF || k == NEWLINE || k == IDENT
    ensures Named(Name(k)) == Some(k)
  {
  }

  lemma NamedRoundTripFromIntType(k: TokenKind)
    requires k == INT_TYPE || k == FLOAT_TYPE || k == CHAR_TYPE || k == STR_TYPE
    ensures Named(Name(k)) == Some(k)
  {
  }

  lemma NamedRoundTripFromBoolType(k: TokenKind)
    requires k == BOOL_TYPE || k == ARR_TYPE || k == COMMA || k == COLON
    ensures Named(Name(k)) == Some(k)
  {
  }

  lemma NamedRoundTripFromParleft(k: TokenKind)
    requires k == PARLEFT || k == PARRIGHT || k == BRALEFT || k == BRARIGHT
    ensures Named(Name(k)) == Some(k)
  {
  }

  lemma NamedRoundTripFromProgram(k: TokenKind)
    requires k == PROGRAM || k == BEGIN || k == END || k == VARIABLES
    ensures Named(Name(k)) == Some(k)
  {
  }

  lemma NamedRoundTripFromConstants(k: TokenKind)
    requires k == CONSTANTS || k == INTEGER || k == FLOAT || k == CHARACTER
    ensures Named(Name(k)) == Some(k)
  {
  }

  lemma NamedRoundTripFromString(k: TokenKind)
    requires k == STRING || k == BOOLEAN || k == TRUE || k == FALSE
    ensures Named(Name(k)) == Some(k)
  {
  }

  lemma NamedRoundTripFromLet(k: TokenKind)
    requires k == LET || k == PRINT || k == IF || k == THEN
    ensures Named(Name(k)) == Some(k)
  {
  }

  lemma NamedRoundTripFromElse(k: TokenKind)
    requires k == ELSE || k == ENDIF || k == WHILE || k == DO
    ensures Named(Name(k)) == Some(k)
  {
  }

  lemma NamedRoundTripFromEndwhile(k: TokenKind)
    requires k == ENDWHILE || k == FOR || k == FROM || k == TO
    ensures Named(Name(k)) == Some(k)
  {
  }

  lemma NamedRoundTripFromStep(k: TokenKind)
    requires k == STEP || k == ENDFOR || k == REPEAT || k == UNTIL
    ensures Named(Name(k)) == Some(k)
  {
  }

  lemma NamedRoundTripFromEndrepeat(k: TokenKind)
    requires k == ENDREPEAT || k == SWITCH || k == CASE || k == DEFAULT
    ensures Named(Name(k)) == Some(k)
  {
  }

  lemma NamedRoundTripFromEndswitch(k: TokenKind)
    requires k == ENDSWITCH || k == RESIZE || k == AND || k == OR
    ensures Named(Name(k)) == Some(k)
  {
  }

  lemma NamedRoundTripFromNot(k: TokenKind)
    requires k == NOT || k == PLUS || k == MINUS || k == ASTERISK
    ensures Named(Name(k)) == Some(k)
  {
  }

  lemma NamedRoundTripFromSlash(k: TokenKind)
    requires k == SLASH || k == CARET || k == PERCENT || k == AMPERSAND
    ensures Named(Name(k)) == Some(k)
  {
  }

  lemma NamedRoundTripFromEq(k: TokenKind)
    requires k == EQ || k == EQEQ || k == NOTEQ || k == GT
    ensures Named(Name(k)) == Some(k)
  {
  }

  lemma NamedRoundTripFromGteq(k: TokenKind)
    requires k == GTEQ || k == LT || k == LTEQ
    ensures Named(Name(k)) == Some(k)
  {
  }

  /** A key the lookup finds is the key of the kind it finds (proved for one group of keys at a
      time, to keep each proof small). */
  lemma NamedInverse(w: string)
    ensures Named(w).Some? ==> Name(Named(w).value) == w
  {
    match |w|
    case 2 =>
      if w[0] < 'G' {
        NamedInverseOfLength2Lowest(w);
      } else if w[0] < 'M' {
        NamedInverseOfLength2Low(w);
      } else {
        NamedInverseOfLength2High(w);
      }
    case 3 => NamedInverseOfLength3(w);
    case 4 =>
      if w[0] < 'F' {
        NamedInverseOfLength4Lowest(w);
      } else if w[0] < 'M' {
        NamedInverseOfLength4Low(w);
      } else {
        NamedInverseOfLength4High(w);
      }
    case 5 =>
      if w[0] < 'M' {
        NamedInverseOfLength5Low(w);
      } else if w[0] < 'S' {
        NamedInverseOfLength5High(w);
      } else {
        NamedInverseOfLength5Highest(w);
      }
    case 6 => NamedInverseOfLength6(w);
    case 7 => NamedInverseOfLength7(w);
    case 8 => NamedInverseOfLength8(w);
    case 9 => NamedInverseOfLength9(w);
    case 10 => NamedInverseOfLength10(w);
    case _ =>
  }

  lemma NamedInverseOfLength2Lowest(w: string)
    requires |w| == 2 && w[0] < 'G'
    ensures Named(w).Some? ==> Name(Named(w).value) == w
  {
  }

  lemma NamedInverseOfLength2Low(w: string)
    requires |w| == 2 && 'G' <= w[0] < 'M'
    ensures Named(w).Some? ==> Name(Named(w).value) == w
  {
  }

  lemma NamedInverseOfLength2High(w: string)
    requires |w| == 2 && 'M' <= w[0]
    ensures Named(w).Some? ==> Name(Named(w).value) == w
  {
  }

  lemma NamedInverseOfLength3(w: string)
    requires |w| == 3
    ensures Named(w).Some? ==> Name(Named(w).value) == w
  {
  }

  lemma NamedInverseOfLength4Lowest(w: string)
    requires |w| == 4 && w[0] < 'F'
    ensures Named(w).Some? ==> Name(Named(w).value) == w
  {
  }

  lemma NamedInverseOfLength4Low(w: string)
    requires |w| == 4 && 'F' <= w[0] < 'M'
    ensures Named(w).Some? ==> Name(Named(w).value) == w
  {
  }

  lemma NamedInverseOfLength4High(w: string)
    requires |w| == 4 && 'M' <= w[0]
    ensures Named(w).Some? ==> Name(Named(w).value) == w
  {
  }

  lemma NamedInverseOfLength5Low(w: string)
    requires |w| == 5 && w[0] < 'M'
    ensures Named(w).Some? ==> Name(Named(w).value) == w
  {
  }

  lemma NamedInverseOfLength5High(w: string)
    requires |w| == 5 && 'M' <= w[0] < 'S'
    ensures Named(w).Some? ==> Name(Named(w).value) == w
  {
  }

  lemma NamedInverseOfLength5Highest(w: string)
    requires |w| == 5 && 'S' <= w[0]
    ensures Named(w).Some? ==> Name(Named(w).value) == w
  {
  }

  lemma NamedInverseOfLength6(w: string)
    requires |w| == 6
    ensures Named(w).Some? ==> Name(Named(w).value) == w
  {
  }

  lemma NamedInverseOfLength7(w: string)
    requires |w| == 7
    ensures Named(w).Some? ==> Name(Named(w).value) == w
  {
  }

  lemma NamedInverseOfLength8(w: string)
    requires |w| == 8
    ensures Named(w).Some? ==> Name(Named(w).value) == w
  {
  }

  lemma NamedInverseOfLength9(w: string)
    requires |w| == 9
    ensures Named(w).Some? ==> Name(Named(w).value) == w
  {
  }

  lemma NamedInverseOfLength10(w: string)
    requires |w| == 10
    ensures Named(w).Some? ==> Name(Named(w).value) == w
  {
  }
}
