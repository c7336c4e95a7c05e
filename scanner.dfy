/** The scanner: a cursor over the definition text that is advanced one character at a
    time and turned into symbols on demand.  The text is given as a sequence instead of
    an open file. */
module Scanning {
  import opened Common
  import opened Chars
  import opened NameTable
  import opened Lexicon

  /** One more digit of the run `r0` read at index `k`, where the stream is `rest`. */
  lemma DigitRunStep(r0: seq<char>, k: nat, rest: seq<char>)
    requires k < |r0| && rest == r0[k..] && IsDigit(rest[0])
    requires forall i :: 0 <= i < k ==> IsDigit(r0[i])
    ensures rest[0] == r0[k] && rest[1..] == r0[k + 1..]
    ensures forall i :: 0 <= i < k + 1 ==> IsDigit(r0[i])
    ensures DecimalValue(r0[..k + 1]) == 10 * DecimalValue(r0[..k]) + DigitValue(r0[k])
  {
    DecimalStep(r0, k);
  }

  /** The first `k` characters of `s` are its whole leading run of digits. */
  predicate DigitRun(s: seq<char>, k: nat) {
    && k <= |s|
    && (forall i :: 0 <= i < k ==> IsDigit(s[i]))
    && (k < |s| ==> !IsDigit(s[k]))
  }

  class Scanner {
    /** The whole definition text. */
    const input: seq<char>
    /** How many characters have been read from the text. */
    var pos: nat
    /** The current character; None stands for the empty string read before the first
        advance and at the end of the text. */
    var cur: Option<char>
    /** 0-based line of the current character and its column on that line. */
    var line: nat
    var position: nat
    /** The shared name table. */
    var names: seq<string>
    /** The ids the four section keywords were interned under. */
    const devicesId: nat
    const connectId: nat
    const monitorId: nat
    const endId: nat

    ghost predicate Valid()
      reads this
    {
      && pos <= |input|
      && (cur.Some? ==> 1 <= pos && cur.value == input[pos - 1])
      && (cur.None? ==> pos == |input| || (pos == 0 && line == 0 && position == 0))
      && (line == 0 && position == 0 ==> pos == 0 && cur.None?)
    }

    /** The state before the first advance: empty current character at line 0, column 0. */
    predicate Fresh()
      reads this
    {
      cur.None? && line == 0 && position == 0
    }

    /** The characters the scanning loops still see, the current one first.  It is empty
        while the current character is the empty string. */
    ghost function Rest(): seq<char>
      reads this
      requires Valid()
    {
      if cur.None? then [] else input[pos - 1..]
    }

    /** A bound on the number of advances left that do real work. */
    ghost function Measure(): nat
      reads this
      requires Valid()
    {
      2 * (|input| - pos) + (if cur.Some? || (line == 0 && position == 0) then 1 else 0)
    }

    /** Intern the section keywords first and start before the first character. */
    constructor(text: seq<char>, table: seq<string>)
      ensures Valid() && Fresh() && input == text && pos == 0
      ensures LookupAll(table, Keywords) == (names, [devicesId, connectId, monitorId, endId])
    {
      var (t, ids) := LookupAll(table, Keywords);
      assert ids == [ids[0], ids[1], ids[2], ids[3]];
      input := text;
      names := t;
      devicesId, connectId, monitorId, endId := ids[0], ids[1], ids[2], ids[3];
      cur := None;
      pos, line, position := 0, 0, 0;
    }

    /** Read the next character; a newline moves to the next line at column 0, anything
        else (the empty string at the end included) moves one column right. */
    method Advance()
      requires Valid()
      modifies this`pos, this`cur, this`line, this`position
      ensures Valid() && !Fresh()
      ensures old(pos) < |input| ==> cur == Some(input[old(pos)]) && pos == old(pos) + 1
      ensures old(pos) == |input| ==> cur.None? && pos == old(pos)
      ensures cur == Some('\n') ==> line == old(line) + 1 && position == 0
      ensures cur != Some('\n') ==> line == old(line) && position == old(position) + 1
      ensures old(cur).Some? ==> Rest() == old(Rest())[1..]
      ensures old(Measure()) > 0 ==> Measure() < old(Measure())
    {
      if pos < |input| {
        cur := Some(input[pos]);
        pos := pos + 1;
      } else {
        cur := None;
      }
      position := position + 1;
      if cur == Some('\n') {
        line := line + 1;
        position := 0;
      }
    }

    /** Advance past whitespace; the current character is then not whitespace. */
    method SkipSpaces()
      requires Valid()
      modifies this`pos, this`cur, this`line, this`position
      ensures Valid() && Fresh() == old(Fresh())
      ensures Rest() == DropWhile(IsSpace, old(Rest()))
      ensures !(cur.Some? && IsSpace(cur.value))
      ensures old(cur).None? ==> cur == old(cur) && pos == old(pos) && line == old(line) && position == old(position)
      ensures Measure() <= old(Measure())
    {
      if cur.None? {
        WhileStop(IsSpace, Rest());
        return;
      }
      ghost var rest0, m0 := Rest(), Measure();
      while cur.Some? && IsSpace(cur.value)
        invariant SpacesSkipped(rest0, m0)
        decreases Measure()
      {
        SkipSpace(rest0, m0);
      }
      WhileStop(IsSpace, Rest());
    }

    /** The state of the whitespace loop: past the start, and what is left once the
        whitespace is dropped is what it was at the start. */
    ghost predicate SpacesSkipped(rest0: seq<char>, m0: nat)
      reads this
    {
      && Valid() && !Fresh()
      && DropWhile(IsSpace, Rest()) == DropWhile(IsSpace, rest0)
      && Measure() <= m0
    }

    /** One pass of the whitespace loop. */
    method SkipSpace(ghost rest0: seq<char>, ghost m0: nat)
      requires SpacesSkipped(rest0, m0) && cur.Some? && IsSpace(cur.value)
      modifies this`pos, this`cur, this`line, this`position
      ensures SpacesSkipped(rest0, m0)
      ensures Measure() < old(Measure())
    {
      WhileStep(IsSpace, Rest());
      Advance();
    }

    /** Skip one `//...//` comment and the whitespace after it.  `diverges` reports the
        case where the comment is never closed: the source then reads the empty string
        forever, and this model stops at the end of the text instead. */
    method SkipComments() returns (diverges: bool)
      requires Valid()
      modifies this`pos, this`cur, this`line, this`position
      ensures Valid() && Fresh() == old(Fresh())
      ensures diverges <==> SkipComment(old(Rest())).None?
      ensures !diverges ==> Rest() == SkipComment(old(Rest())).value
      ensures old(cur).None? ==> cur == old(cur) && pos == old(pos) && line == old(line) && position == old(position)
      ensures Measure() <= old(Measure())
    {
      diverges := false;
      ghost var r0 := Rest();
      if cur == Some('/') {
        assert r0[0] == '/';
        Advance();
        if cur == Some('/') {
          Advance();
          assert Rest() == r0[2..];
          diverges := CloseComment();
        } else {
          assert SkipComment(r0) == Some(r0[1..]);
        }
      } else {
        assert SkipComment(r0) == Some(r0);
      }
    }

    /** The body of an open comment: advance through the next `//` and the whitespace
        after it, or report that the text ends first. */
    method CloseComment() returns (diverges: bool)
      requires Valid() && !Fresh()
      modifies this`pos, this`cur, this`line, this`position
      ensures Valid() && !Fresh()
      ensures diverges <==> FirstPair(old(Rest()), 0).None?
      ensures !diverges ==> Rest() == DropWhile(IsSpace, old(Rest())[FirstPair(old(Rest()), 0).value + 2..])
      ensures Measure() <= old(Measure())
    {
      var found := FindCommentEnd();
      if !found {
        return true;
      }
      SkipSpaces();
      return false;
    }

    /** Advance through the next `//` of an open comment, or to the end of the text when
        there is none. */
    method FindCommentEnd() returns (found: bool)
      requires Valid() && !Fresh()
      modifies this`pos, this`cur, this`line, this`position
      ensures Valid() && !Fresh()
      ensures found <==> FirstPair(old(Rest()), 0).Some?
      ensures found ==> Rest() == old(Rest())[FirstPair(old(Rest()), 0).value + 2..]
      ensures Measure() <= old(Measure())
    {
      ghost var body, m0 := Rest(), Measure();
      ghost var j: nat := 0;
      while true
        invariant CommentScan(body, j, m0)
        decreases Measure()
      {
        var done;
        done, found := CommentStep(body, j, m0);
        if done {
          return;
        }
        j := j + 1;
      }
    }

    /** The state of the search for the end of a comment after `j` characters of `body`:
        the stream has moved past them and they hold no `//`. */
    ghost predicate CommentScan(body: seq<char>, j: nat, m0: nat)
      reads this
    {
      && Valid() && !Fresh()
      && j <= |body| && Rest() == body[j..]
      && FirstPair(body, 0) == FirstPair(body, j)
      && Measure() <= m0
    }

    /** One pass of the comment loop: the end of the text, a `//` (stepped over), or one
        more character of the comment. */
    method CommentStep(ghost body: seq<char>, ghost j: nat, ghost m0: nat) returns (done: bool, found: bool)
      requires CommentScan(body, j, m0)
      modifies this`pos, this`cur, this`line, this`position
      ensures Valid() && !Fresh() && Measure() <= m0
      ensures done ==> (found <==> FirstPair(body, 0).Some?)
      ensures done && found ==> Rest() == body[FirstPair(body, 0).value + 2..]
      ensures !done ==> CommentScan(body, j + 1, m0) && Measure() < old(Measure())
    {
      if cur.None? {
        assert FirstPair(body, j) == None;
        return true, false;
      }
      if cur == Some('/') {
        var closed := SlashInComment();
        if closed {
          assert FirstPair(body, j) == Some(j);
          assert body[j..][2..] == body[j + 2..];
          return true, true;
        }
        assert FirstPair(body, j) == FirstPair(body, j + 1);
      } else {
        assert FirstPair(body, j) == FirstPair(body, j + 1);
        Advance();
      }
      return false, false;
    }

    /** At a `/` inside a comment: advance past it and, when another `/` follows, past
        that one too. */
    method SlashInComment() returns (closed: bool)
      requires Valid() && cur == Some('/')
      modifies this`pos, this`cur, this`line, this`position
      ensures Valid() && !Fresh()
      ensures closed <==> |old(Rest())| >= 2 && old(Rest())[1] == '/'
      ensures closed ==> Rest() == old(Rest())[2..]
      ensures !closed ==> Rest() == old(Rest())[1..]
      ensures Measure() < old(Measure())
    {
      Advance();
      if cur == Some('/') {
        Advance();
        return true;
      }
      return false;
    }

    /** Collect the alphanumeric run that starts at the current character. */
    method GetName() returns (name: string)
      requires Valid()
      modifies this`pos, this`cur, this`line, this`position
      ensures Valid() && Fresh() == old(Fresh())
      ensures name == TakeWhile(IsAlnum, old(Rest()))
      ensures Rest() == DropWhile(IsAlnum, old(Rest()))
      ensures Measure() + |name| <= old(Measure())
    {
      name := "";
      ghost var r0, m0, fresh0 := Rest(), Measure(), Fresh();
      while cur.Some? && IsAlnum(cur.value)
        invariant NameRead(r0, name, m0, fresh0)
        decreases Measure()
      {
        name := ReadNameChar(r0, name, m0, fresh0);
      }
      HeadOfRest();
      TakeWhileUnique(IsAlnum, r0, name);
    }

    /** The state of the `get_name` loop: `name` is the alphanumeric start of `r0` read so
        far and the stream has moved past it. */
    ghost predicate NameRead(r0: seq<char>, name: string, m0: nat, fresh0: bool)
      reads this
    {
      && Valid() && Fresh() == fresh0
      && |name| <= |r0| && name == r0[..|name|] && Rest() == r0[|name|..]
      && (forall i :: 0 <= i < |name| ==> IsAlnum(name[i]))
      && Measure() + |name| <= m0
    }

    /** One pass of the `get_name` loop: append the current character and advance. */
    method ReadNameChar(ghost r0: seq<char>, name: string, ghost m0: nat, ghost fresh0: bool)
      returns (longer: string)
      requires NameRead(r0, name, m0, fresh0) && cur.Some? && IsAlnum(cur.value)
      modifies this`pos, this`cur, this`line, this`position
      ensures NameRead(r0, longer, m0, fresh0)
      ensures Measure() < old(Measure())
    {
      ghost var rest := Rest();
      assert rest[0] == r0[|name|] && rest[1..] == r0[|name| + 1..];
      assert r0[..|name| + 1] == r0[..|name|] + [r0[|name|]];
      longer := name + [cur.value];
      Advance();
    }

    /** Read the decimal digit run at the current character as n := 10 * n + digit. */
    method GetNumber() returns (number: nat)
      requires Valid()
      modifies this`pos, this`cur, this`line, this`position
      ensures Valid() && Fresh() == old(Fresh())
      ensures number == DecimalValue(TakeWhile(IsDigit, old(Rest())))
      ensures Rest() == DropWhile(IsDigit, old(Rest()))
      ensures Measure() + |TakeWhile(IsDigit, old(Rest()))| <= old(Measure())
    {
      ghost var r0 := Rest();
      ghost var k: nat;
      number, k := ReadDigits();
      TakeWhileUnique(IsDigit, r0, r0[..k]);
    }

    /** The loop of `get_number`: the first `k` characters of the stream are digits, the
        one after them is not, and `number` is their value. */
    method ReadDigits() returns (number: nat, ghost k: nat)
      requires Valid()
      modifies this`pos, this`cur, this`line, this`position
      ensures Valid() && Fresh() == old(Fresh())
      ensures DigitRun(old(Rest()), k) && Rest() == old(Rest())[k..]
      ensures number == DecimalValue(old(Rest())[..k])
      ensures Measure() + k <= old(Measure())
    {
      number, k := 0, 0;
      ghost var r0, m0, fresh0 := Rest(), Measure(), Fresh();
      while cur.Some? && IsDigit(cur.value)
        invariant DigitsRead(r0, k, number, m0, fresh0)
        decreases Measure()
      {
        number := ReadDigit(r0, k, number, m0, fresh0);
        k := k + 1;
      }
      HeadOfRest();
    }

    /** The state of the `get_number` loop after `k` characters of `r0`: they are all
        digits, `number` is their value and the stream has moved past them. */
    ghost predicate DigitsRead(r0: seq<char>, k: nat, number: nat, m0: nat, fresh0: bool)
      reads this
    {
      && Valid() && Fresh() == fresh0
      && k <= |r0| && Rest() == r0[k..]
      && (forall i :: 0 <= i < k ==> IsDigit(r0[i]))
      && number == DecimalValue(r0[..k])
      && Measure() + k <= m0
    }

    /** One step of the `get_number` loop: `n := 10 * n + digit`, then advance. */
    method ReadDigit(ghost r0: seq<char>, ghost k: nat, number: nat, ghost m0: nat, ghost fresh0: bool)
      returns (next: nat)
      requires DigitsRead(r0, k, number, m0, fresh0) && cur.Some? && IsDigit(cur.value)
      modifies this`pos, this`cur, this`line, this`position
      ensures DigitsRead(r0, k + 1, next, m0, fresh0)
      ensures Measure() < old(Measure())
    {
      DigitRunStep(r0, k, Rest());
      next := 10 * number + DigitValue(cur.value);
      Advance();
    }

    /** The stream is empty exactly when there is no current character, and otherwise
        starts with it. */
    lemma HeadOfRest()
      requires Valid()
      ensures Rest() == [] <==> cur.None?
      ensures cur.Some? ==> Rest()[0] == cur.value
    {
    }

    /** The symbol this call returns and the state it leaves agree with one step of
        `Scan` on the stream before the call. */
    ghost predicate Agrees(r: Result<Symbol>, step: Lexed)
      reads this
      requires Valid()
    {
      match step
      case LexError(e) => r == Err(e)
      case Lexed(k, id, rest, table) =>
        r.Ok? && r.value.kind == k && r.value.id == id && Rest() == rest && names == table
    }

    /** Read a name at the current letter, interning it; a reserved word is a KEYWORD. */
    method ReadWord() returns (r: Result<Symbol>)
      requires Valid() && cur.Some? && IsAlpha(cur.value)
      modifies this`pos, this`cur, this`line, this`position, this`names
      ensures Valid() && !Fresh() && old(names) <= names
      ensures Agrees(r, LexUnit(old(Rest()), old(names)))
      ensures r.Ok? && r.value.line == line && r.value.position == position
      ensures r.value.kind != Some(Eof) && Measure() < old(Measure())
    {
      ghost var r0 := Rest();
      var word := GetName();
      assert word != [];
      var (table, i) := Lookup(names, word);
      names := table;
      r := Ok(Symbol(Some(if word in Keywords then Keyword else Name), Some(i), line, position));
    }

    /** Read one lexical unit at the current character (whitespace and comments are
        already skipped). */
    method ReadUnit() returns (r: Result<Symbol>)
      requires Valid()
      modifies this`pos, this`cur, this`line, this`position, this`names
      ensures Valid() && old(names) <= names
      ensures r.Ok? ==> r.value.line == line && r.value.position == position
      ensures old(Fresh()) ==> r.Ok? && r.value.kind.None? && r.value.id.None?
                               && names == old(names) && Rest() == input && !Fresh()
      ensures !old(Fresh()) ==> Agrees(r, LexUnit(old(Rest()), old(names))) && !Fresh()
      ensures Measure() <= old(Measure())
      ensures r.Ok? && r.value.kind != Some(Eof) ==> Measure() < old(Measure())
      ensures r.Ok? && r.value.kind == Some(Eof) ==> Rest() == [] && !Fresh()
    {
      if cur.Some? && IsAlpha(cur.value) {
        r := ReadWord();
        return;
      }
      var kind: Option<SymbolType> := None;
      var id: Option<int> := None;
      if cur.Some? && IsDigit(cur.value) {
        var n := GetNumber();
        kind, id := Some(Number), Some(n);
      } else if cur.Some? && cur.value in "=.,;-" {
        r := ReadPunctuation();
        return;
      } else if cur.None? {
        if line == 0 && position == 0 {
          Advance();
        } else {
          kind := Some(Eof);
        }
      } else if cur == Some('\n') {
        Advance();
      } else {
        return Err(SyntaxError);
      }
      r := Ok(Symbol(kind, id, line, position));
    }

    /** Read one of the punctuation symbols `=`, `.`, `,`, `;` and `->`. */
    method ReadPunctuation() returns (r: Result<Symbol>)
      requires Valid() && cur.Some? && cur.value in "=.,;-"
      modifies this`pos, this`cur, this`line, this`position
      ensures Valid() && !Fresh()
      ensures r.Ok? ==> r.value.line == line && r.value.position == position
      ensures Agrees(r, LexUnit(old(Rest()), old(names)))
      ensures Measure() < old(Measure())
    {
      ghost var r0 := Rest();
      assert r0[0] == cur.value;
      var kind: SymbolType;
      if cur == Some('=') {
        kind := Equals;
      } else if cur == Some('.') {
        kind := Dot;
      } else if cur == Some(',') {
        kind := Comma;
      } else if cur == Some(';') {
        kind := Semicolon;
      } else {
        Advance();
        assert Rest() == r0[1..];
        if cur != Some('>') {
          assert !(|r0| >= 2 && r0[1] == '>');
          return Err(SyntaxError);
        }
        assert LexUnit(r0, names) == Lexed(Some(Arrow), None, r0[2..], names);
        Advance();
        assert Rest() == r0[2..];
        return Ok(Symbol(Some(Arrow), None, line, position));
      }
      Advance();
      assert Rest() == r0[1..];
      r := Ok(Symbol(Some(kind), None, line, position));
    }

    /** Translate the next characters into a symbol.  The very first call, made while
        the current character is still the initial empty string, only reads the first
        character and returns a symbol without a type. */
    method GetSymbol() returns (r: Result<Symbol>)
      requires Valid()
      modifies this`pos, this`cur, this`line, this`position, this`names
      ensures Valid() && old(names) <= names
      ensures r.Ok? ==> r.value.line == line && r.value.position == position
      ensures old(Fresh()) ==> r.Ok? && r.value.kind.None? && r.value.id.None?
                               && names == old(names) && Rest() == input && !Fresh()
      ensures !old(Fresh()) ==> Agrees(r, Scan(old(Rest()), old(names))) && !Fresh()
      ensures Measure() <= old(Measure())
      ensures r.Ok? && r.value.kind != Some(Eof) ==> Measure() < old(Measure())
      ensures r.Ok? && r.value.kind == Some(Eof) ==> Rest() == [] && !Fresh()
      ensures r.Err? ==> r.error == SyntaxError || r.error == NonTermination
      ensures r.Ok? ==> IdShape(r.value.kind, r.value.id, names)
    {
      ghost var r0 := Rest();
      if !Fresh() {
        ScanShape(r0, names);
      }
      var diverges := SkipBlank();
      if diverges {
        return Err(NonTermination);
      }
      r := ReadUnit();
    }

    /** Skip the whitespace and then the comment before a symbol. */
    method SkipBlank() returns (diverges: bool)
      requires Valid()
      modifies this`pos, this`cur, this`line, this`position
      ensures Valid() && Fresh() == old(Fresh())
      ensures diverges <==> SkipComment(DropWhile(IsSpace, old(Rest()))).None?
      ensures !diverges ==> Rest() == SkipComment(DropWhile(IsSpace, old(Rest()))).value
      ensures old(Fresh()) ==> cur == old(cur) && pos == old(pos) && line == old(line) && position == old(position)
      ensures Measure() <= old(Measure())
    {
      SkipSpaces();
      diverges := SkipComments();
    }
  }
}
