/** Properties of one scanner step, general and on the sample inputs the scanner's own
    tests use. */
module ScanFacts {
  import opened Common
  import opened Chars
  import opened NameTable
  import opened Lexicon

  /** Interning the keywords into an empty table numbers them DEVICES=0 .. END=3. */
  lemma KeywordIds()
    ensures LookupAll([], Keywords).0 == Keywords
    ensures LookupAll([], Keywords).1 == [0, 1, 2, 3]
  {
    var e: seq<string> := [];
    var t1: seq<string> := ["DEVICES"];
    var t2 := t1 + ["CONNECT"];
    var t3 := t2 + ["MONITOR"];
    assert "DEVICES" !in e && e + ["DEVICES"] == t1;
    assert Lookup(e, "DEVICES") == (t1, 0);
    assert "CONNECT" !in t1;
    assert Lookup(t1, "CONNECT") == (t2, 1);
    assert "MONITOR" !in t2;
    assert Lookup(t2, "MONITOR") == (t3, 2);
    assert "END" !in t3 && t3 + ["END"] == Keywords;
    assert Lookup(t3, "END") == (Keywords, 3);
    var k3: seq<string> := ["END"];
    assert k3[0] == "END" && k3[1..] == [];
    assert LookupAll(Keywords, k3[1..]) == (Keywords, []);
    var i3: seq<nat> := [3];
    assert LookupAll(t3, k3).0 == Keywords && LookupAll(t3, k3).1 == i3;
    var k2: seq<string> := ["MONITOR", "END"];
    assert k2[0] == "MONITOR" && k2[1..] == k3;
    var i2: seq<nat> := [2, 3];
    assert LookupAll(t2, k2).0 == Keywords && LookupAll(t2, k2).1 == i2;
    var k1: seq<string> := ["CONNECT", "MONITOR", "END"];
    assert k1[0] == "CONNECT" && k1[1..] == k2;
    var i1: seq<nat> := [1, 2, 3];
    assert LookupAll(t1, k1).0 == Keywords && LookupAll(t1, k1).1 == i1;
    assert Keywords[0] == "DEVICES" && Keywords[1..] == k1;
  }

  /** A word is a KEYWORD exactly when it is one of the four section words, and either
      way the token carries the id the word is interned under. */
  lemma WordClassification(r: seq<char>, names: seq<string>)
    requires r != [] && IsAlpha(r[0])
    ensures var step := LexUnit(r, names);
            var word := TakeWhile(IsAlnum, r);
            && step.Lexed?
            && (step.kind == Some(Keyword) <==> word in Keywords)
            && (step.kind == Some(Name) <==> word !in Keywords)
            && step.id.Some? && step.id.value < |step.names|
            && step.names[step.id.value] == word
            && step.rest == DropWhile(IsAlnum, r)
  {
  }

  /** `=`, `.`, `,` and `;` each become their own symbol and consume one character. */
  lemma PunctuationOneChar(c: char, rest: seq<char>, names: seq<string>)
    requires c in "=.,;"
    ensures var step := LexUnit([c] + rest, names);
            && step.Lexed? && step.id.None? && step.rest == rest && step.names == names
            && step.kind == Some(if c == '=' then Equals else if c == '.' then Dot
                                 else if c == ',' then Comma else Semicolon)
  {
  }

  /** A `-` that is not followed by `>` is a syntax error. */
  lemma DashWithoutGreater(rest: seq<char>, names: seq<string>)
    requires rest == [] || rest[0] != '>'
    ensures LexUnit(['-'] + rest, names) == LexError(SyntaxError)
  {
  }

  /** Characters outside the language are a syntax error as soon as they are met. */
  lemma UnknownSymbols(c: char, names: seq<string>)
    requires c == '@' || c == '$' || c == '^' || c == '#' || c == '-'
    ensures Scan([c], names) == LexError(SyntaxError)
  {
    WhileStop(IsSpace, [c]);
  }

  /** Reading "DEVICES\nX1 =" with the keywords interned first gives KEYWORD 0, then the
      new NAME X1 with id 4, then EQUALS. */
  lemma SampleKeyword()
    ensures Scan("DEVICES\nX1 =", Keywords) == Lexed(Some(Keyword), Some(0), "\nX1 =", Keywords)
  {
    var s := "DEVICES\nX1 =";
    WhileStop(IsSpace, s);
    assert SkipComment(s) == Some(s);
    TakeWhileUnique(IsAlnum, s, "DEVICES");
    assert s[7..] == "\nX1 =";
    assert Keywords[0] == "DEVICES";
    assert Lookup(Keywords, "DEVICES") == (Keywords, 0);
    assert LexUnit(s, Keywords) == Lexed(Some(Keyword), Some(0), "\nX1 =", Keywords);
  }

  lemma SampleName()
    ensures Scan("\nX1 =", Keywords) == Lexed(Some(Name), Some(4), " =", Keywords + ["X1"])
  {
    var s := "\nX1 =";
    WhileStep(IsSpace, s);
    WhileStop(IsSpace, s[1..]);
    var w := s[1..];
    TakeWhileUnique(IsAlnum, w, "X1");
    assert w[2..] == " =";
    assert |"X1"| != |"DEVICES"| && |"X1"| != |"CONNECT"| && |"X1"| != |"MONITOR"| && "X1" != "END";
    assert "X1" !in Keywords;
    assert Lookup(Keywords, "X1") == (Keywords + ["X1"], 4);
  }

  lemma SampleEquals()
    ensures Scan(" =", Keywords + ["X1"]) == Lexed(Some(Equals), None, [], Keywords + ["X1"])
  {
    WhileStep(IsSpace, " =");
    WhileStop(IsSpace, "=");
  }

  /** "     DEVICES": after the spaces the current character is D. */
  lemma SpacesThenName()
    ensures DropWhile(IsSpace, "     DEVICES") == "DEVICES"
  {
    TakeWhileUnique(IsSpace, "     DEVICES", "     ");
  }

  /** "//     DEVICES//D": the comment and its closing pair are skipped, leaving D. */
  lemma CommentThenName()
    ensures SkipComment("//     DEVICES//D") == Some("D")
  {
    var r := "//     DEVICES//D";
    var body := "     DEVICES//D";
    assert r[2..] == body;
    assert forall k :: 0 <= k < 12 ==> body[k] != '/';
    FirstPairAt(body, 0, 12);
    assert body[14..] == "D";
    WhileStop(IsSpace, "D");
    assert r[0] == '/' && r[1] == '/';
    assert SkipComment(r) == Some(DropWhile(IsSpace, body[14..]));
  }

  /** The digit run "112" is the number 112, and a run stops at the first non-digit. */
  lemma SampleNumber()
    ensures DecimalValue("112") == 112
    ensures TakeWhile(IsDigit, "112;") == "112"
  {
    assert "112"[..2] == "11" && "11"[..1] == "1";
    TakeWhileUnique(IsDigit, "112;", "112");
  }

  /** The name at the start of "XOR" is all of it. */
  lemma SampleWords()
    ensures TakeWhile(IsAlnum, "XOR") == "XOR" && TakeWhile(IsAlnum, "X1") == "X1"
  {
    TakeWhileUnique(IsAlnum, "XOR", "XOR");
    TakeWhileUnique(IsAlnum, "X1", "X1");
  }

  /** Once the stream holds nothing but whitespace, every further read is END OF FILE
      and leaves the stream empty. */
  lemma {:induction false} TrailingSpaceIsEof(r: seq<char>, names: seq<string>)
    requires forall i :: 0 <= i < |r| ==> IsSpace(r[i])
    ensures Scan(r, names) == Lexed(Some(Eof), None, [], names)
  {
    TakeWhileUnique(IsSpace, r, r);
  }
}
