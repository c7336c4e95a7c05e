/** The token vocabulary of the definition-file language and the pure description of
    what one call of the scanner reads: whitespace, at most one `//...//` comment, then
    one lexical unit.  The class in scanner.dfy is proved to behave as described here. */
module Lexicon {
  import opened Common
  import opened Chars
  import opened NameTable

  /** The symbol types, in the order the source numbers them (0..8). */
  datatype SymbolType = Comma | Semicolon | Dot | Arrow | Equals | Keyword | Number | Name | Eof

  /** One token: its type (absent for the start-up and stray-newline reads), the interned
      id of a name or the value of a number, and the scanner's line and column after it. */
  datatype Symbol = Symbol(kind: Option<SymbolType>, id: Option<int>, line: nat, position: nat)

  /** The four reserved section words, interned first so that they take ids 0..3. */
  const Keywords: seq<string> := ["DEVICES", "CONNECT", "MONITOR", "END"]

  /** The scanner's error codes, numbered 0..12 in this order. */
  datatype ErrorCode =
    | NoNumber | NoArrow | UnknownSym | NoName | NoEqual | NoSemicolon | NoComma
    | NoDot | IncorrectKeyword | NoKeyword | InvalidVariable | NoConnect | NoEof

  function CodeNumber(e: ErrorCode): (n: nat)
    ensures n < 13
  {
    match e
    case NoNumber => 0
    case NoArrow => 1
    case UnknownSym => 2
    case NoName => 3
    case NoEqual => 4
    case NoSemicolon => 5
    case NoComma => 6
    case NoDot => 7
    case IncorrectKeyword => 8
    case NoKeyword => 9
    case InvalidVariable => 10
    case NoConnect => 11
    case NoEof => 12
  }

  /** Distinct codes have distinct numbers, so the parser's integer comparisons are exact. */
  lemma CodeNumberInjective(e1: ErrorCode, e2: ErrorCode)
    ensures CodeNumber(e1) == CodeNumber(e2) ==> e1 == e2
  {
  }

  /** The severity `display_error` gives a code: a raised SyntaxError, or only a message. */
  function DisplayError(e: ErrorCode): (r: Option<Fatal>)
    ensures r.Some? ==> r.value == SyntaxError
    ensures r.Some? <==> e in {NoNumber, IncorrectKeyword, InvalidVariable, NoConnect,
                               NoName, NoEqual, NoSemicolon, NoComma}
    ensures r.None? <==> e in {NoArrow, UnknownSym, NoDot, NoKeyword, NoEof}
  {
    match e
    case NoArrow | UnknownSym | NoDot | NoKeyword | NoEof => None
    case _ => Some(SyntaxError)
  }

  /** The first position at or after `i` where two slashes stand next to each other. */
  function FirstPair(s: seq<char>, i: nat): (r: Option<nat>)
    ensures r.Some? ==> i <= r.value && r.value + 1 < |s| && s[r.value] == '/' && s[r.value + 1] == '/'
    decreases |s| - i
  {
    if i + 1 >= |s| then None
    else if s[i] == '/' && s[i + 1] == '/' then Some(i)
    else FirstPair(s, i + 1)
  }

  /** The pair found is the first one from `i` on, and when none is found there is none. */
  lemma {:induction false} FirstPairFirst(s: seq<char>, i: nat)
    ensures FirstPair(s, i).Some? ==>
              forall k :: i <= k < FirstPair(s, i).value ==> !(s[k] == '/' && s[k + 1] == '/')
    ensures FirstPair(s, i).None? ==> forall k :: i <= k && k + 1 < |s| ==> !(s[k] == '/' && s[k + 1] == '/')
    decreases |s| - i
  {
    if i + 1 < |s| && !(s[i] == '/' && s[i + 1] == '/') {
      FirstPairFirst(s, i + 1);
    }
  }

  /** The first pair at or after `i` is at `k` when there is one at `k` and none before. */
  lemma {:induction false} FirstPairAt(s: seq<char>, i: nat, k: nat)
    requires i <= k && k + 1 < |s| && s[k] == '/' && s[k + 1] == '/'
    requires forall j :: i <= j < k ==> s[j] != '/' || s[j + 1] != '/'
    ensures FirstPair(s, i) == Some(k)
    decreases k - i
  {
    if i < k {
      FirstPairAt(s, i + 1, k);
    }
  }

  /** What `skip_comments` leaves of the stream `r` (its current character first), or
      None when it would never return.  A lone slash is consumed; `//` opens a comment
      that the next `//` closes, after which whitespace is skipped too. */
  function SkipComment(r: seq<char>): (o: Option<seq<char>>)
    ensures o.Some? ==> |o.value| <= |r|
  {
    if |r| >= 1 && r[0] == '/' then
      if |r| >= 2 && r[1] == '/' then
        var body := r[2..];
        match FirstPair(body, 0)
        case None => None
        case Some(k) => Some(DropWhile(IsSpace, body[k + 2..]))
      else Some(r[1..])
    else Some(r)
  }

  /** The outcome of reading one token: its type and id, the remaining stream and the
      updated name table; or the fatal condition the read ends in. */
  datatype Lexed =
    | Lexed(kind: Option<SymbolType>, id: Option<int>, rest: seq<char>, names: seq<string>)
    | LexError(error: Fatal)

  /** One lexical unit at the head of `r`, where `r` starts after whitespace and comments. */
  function LexUnit(r: seq<char>, names: seq<string>): Lexed {
    if r == [] then Lexed(Some(Eof), None, [], names)
    else if IsAlpha(r[0]) then
      var word := TakeWhile(IsAlnum, r);
      var (table, id) := Lookup(names, word);
      Lexed(Some(if word in Keywords then Keyword else Name), Some(id), DropWhile(IsAlnum, r), table)
    else if IsDigit(r[0]) then
      Lexed(Some(Number), Some(DecimalValue(TakeWhile(IsDigit, r))), DropWhile(IsDigit, r), names)
    else if r[0] == '=' then Lexed(Some(Equals), None, r[1..], names)
    else if r[0] == '.' then Lexed(Some(Dot), None, r[1..], names)
    else if r[0] == ',' then Lexed(Some(Comma), None, r[1..], names)
    else if r[0] == ';' then Lexed(Some(Semicolon), None, r[1..], names)
    else if r[0] == '-' then
      if |r| >= 2 && r[1] == '>' then Lexed(Some(Arrow), None, r[2..], names)
      else LexError(SyntaxError)
    else if r[0] == '\n' then Lexed(None, None, r[1..], names)
    else LexError(SyntaxError)
  }

  /** One call of `get_symbol` on the stream `r`, once the scanner has started. */
  function Scan(r: seq<char>, names: seq<string>): Lexed {
    match SkipComment(DropWhile(IsSpace, r))
    case None => LexError(NonTermination)
    case Some(r2) => LexUnit(r2, names)
  }

  /** What a token's id can be: a NAME or KEYWORD carries an id of the table, a NUMBER
      its (non-negative) value, and no other token carries an id. */
  predicate IdShape(kind: Option<SymbolType>, id: Option<int>, names: seq<string>) {
    && (kind in {Some(Name), Some(Keyword)} ==> id.Some? && 0 <= id.value < |names|)
    && (kind == Some(Number) ==> id.Some? && id.value >= 0)
    && (id.Some? ==> kind in {Some(Name), Some(Keyword), Some(Number)})
  }

  lemma LexUnitShape(r: seq<char>, names: seq<string>)
    ensures var step := LexUnit(r, names);
            && (step.LexError? ==> step.error == SyntaxError)
            && (step.Lexed? ==> IdShape(step.kind, step.id, step.names) && names <= step.names)
  {
    if r != [] && IsAlpha(r[0]) {
      var word := TakeWhile(IsAlnum, r);
      var (table, id) := Lookup(names, word);
      assert id < |table|;
    }
  }

  /** Every step of the scanner either fails with a SyntaxError or by never returning, or
      yields a token whose id has the expected shape. */
  lemma ScanShape(r: seq<char>, names: seq<string>)
    ensures var step := Scan(r, names);
            && (step.LexError? ==> step.error == SyntaxError || step.error == NonTermination)
            && (step.Lexed? ==> IdShape(step.kind, step.id, step.names) && names <= step.names)
  {
    match SkipComment(DropWhile(IsSpace, r))
    case None =>
    case Some(r2) => LexUnitShape(r2, names);
  }
}
