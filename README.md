# GF2 logic simulator: definition-file scanner and parser

This project models the front end of the GF2 logic simulator. That front end reads a circuit
definition file of the form

    DEVICES  name = KIND[, n[, m]]; ...
    CONNECT  source[.port] -> dest[.port], dest[.port]; ...
    MONITOR  name[.output]; ...
    END

and turns it into a device table, connections and monitor points. The scanner
(`scanner.py`) turns characters into symbols. The parser (`parse.py`) works in three steps:

- It pre-scans the text for the four section keywords.
- It walks the three sections, building the device table, counting recoverable errors and
  raising on fatal ones.
- It returns END's id when no error was counted, and `False` otherwise.

The model is organised as follows.

- `Chars`, `NameTable`, `Lexicon`: the character classes, the shared name table (lookup
  interns a new name at the end), and a pure description of one `get_symbol` call (`Scan`).
  `Scan` covers whitespace, one `//...//` comment and one lexical unit.
- `Scanning.Scanner`: a class with the scanner's cursor state (`pos`, current character,
  line, column, name table). Its methods advance one character at a time, as the source does.
  Each method is proved to agree with `Scan`, and every token other than END OF FILE strictly
  lowers a termination measure.
- `ScanFacts`: properties of one scan step, and the scanner's own sample inputs.
- `KeywordScan`: the keyword pre-scan, both as written and corrected (see Findings).
- `Circuit`: the device table as values. Devices have inputs that are either connected to a
  source or floating. The module also defines wiring, grounding the D-type inputs, and the
  floating-input count.
- `Checks`: the parser's pure classifiers (`device_check`, `network_error_check`,
  `monitor_error_check`, `call_error`).
- `Parsing.Parser`: a class with the parser's state. The state is the error count, LINE,
  POSITION, MISSING, the device table and the monitor points. Each section routine is a
  method with a loop over tokens.

Python exceptions become the `Fatal` outcomes of a `Result`:

- `SyntaxError` and `ValueError`.
- `TypeError`, `AttributeError` and `UnboundLocalError`, for the crashes the code
  reaches on `None` names and on unbound locals.
- `IndexError`, in the pre-scan.

A loop that the source would never leave is reported as `NonTermination`. Such loops are
an unclosed comment, and a skip to `;` or `->` once the text is exhausted.

The network and monitor modules are not part of this model. The parser holds their answers
as two function fields: `connectOutcome` stands for `make_connection` as the CONNECT section
calls it, and `monitorOutcome` for `make_monitor`. A connection the network accepts connects
the named input of the destination device. A monitor it accepts is appended to `monitored`.
When the D-type inputs are grounded, the source ignores `make_connection`'s answer; the model
takes each of those connections as made.

Where the code and the language's description differ, the model follows the code. A
duplicate device name is fatal even when the CONNECT keyword is missing, because both
branches raise a SyntaxError.

## Model

Loop-body and step helpers have no row of their own; each is a step of a member listed below. They are `Scanning.Scanner.ReadDigit`, `ReadNameChar`, `SkipSpace` and `CommentStep`, `Checks.NetworkErrorCheckStable`, and `Parsing.DevicesDone`, `Parsing.NoSemicolons` and `Parsing.Parser.DeclaredIsNamed`.

| member | source | states |
|---|---|---|
| Chars.Span | 3rd/GF2/scanner.py:182-191 | the length of the longest prefix whose characters satisfy the predicate: every character before it does, and the one at it (if any) does not |
| Chars.DecimalValue | 3rd/GF2/scanner.py:193-202 | the value of a digit run accumulated as `10*n + digit`; the empty run is 0 |
| Chars.DecimalStep | 3rd/GF2/scanner.py:198-200 | a bridge for the digit loop's invariant: reading one more digit multiplies the value read so far by ten and adds the digit |
| Chars.DecimalValueBound | 3rd/GF2/scanner.py:193-202 | a run of k digits has a value below 10^k |
| Chars.TakeWhileUnique | 3rd/GF2/scanner.py:182-191 | a prefix that satisfies the predicate and stops before a non-satisfying character (or the end) is the prefix taken |
| NameTable.IndexOf | 3rd/GF2/scanner.py:104 | the first index holding the string, or none exactly when the string is absent |
| NameTable.Lookup | 3rd/GF2/scanner.py:104 | a known name keeps its first id and leaves the table alone; a new name is appended and gets the next id |
| NameTable.LookupAll | 3rd/GF2/scanner.py:80-81 | the table only grows, and every string gets an id holding that string |
| NameTable.NameString | 3rd/GF2/parse.py:624 | a name string exists exactly for ids inside the table, and it is the table's entry |
| Lexicon.CodeNumber | 3rd/GF2/scanner.py:72-76 | the thirteen error codes are numbered below 13 |
| Lexicon.CodeNumberInjective | 3rd/GF2/scanner.py:72-76 | distinct error codes have distinct numbers |
| Lexicon.DisplayError | 3rd/GF2/scanner.py:240-268 | exactly NO_NUMBER, INCORRECT_KEYWORD, INVALID_VARIABLE, NO_CONNECT, NO_NAME, NO_EQUAL, NO_SEMICOLON and NO_COMMA raise a SyntaxError; the other five only print |
| Lexicon.FirstPair | 3rd/GF2/scanner.py:171-179 | a place at or after i where two slashes stand together |
| Lexicon.FirstPairFirst | 3rd/GF2/scanner.py:171-179 | the place found is the first such place from i on, and when none is found there is no such place |
| Lexicon.FirstPairAt | 3rd/GF2/scanner.py:171-179 | a pair of slashes at k with none between i and k is the one found |
| Lexicon.SkipComment | 3rd/GF2/scanner.py:164-179 | a comment skip never lengthens the stream |
| Lexicon.LexUnitShape | 3rd/GF2/scanner.py:98-148 | a lexical unit either fails with a SyntaxError or gives a token whose id fits its type, and the name table only grows |
| Lexicon.ScanShape | 3rd/GF2/scanner.py:92-153 | one `get_symbol` fails only with a SyntaxError or by never returning; otherwise the token's id fits its type |
| Scanning.Scanner.constructor | 3rd/GF2/scanner.py:57-88 | the keywords are interned first and their ids recorded; the scanner starts before the first character, at line 0, column 0 |
| Scanning.Scanner.Advance | 3rd/GF2/scanner.py:204-209 | the next character is read, or the empty string at the end; a newline moves to the next line at column 0, anything else moves one column right |
| Scanning.Scanner.SkipSpaces | 3rd/GF2/scanner.py:155-162 | the stream becomes the input with its leading whitespace dropped, and the current character is not whitespace |
| Scanning.Scanner.SkipComments | 3rd/GF2/scanner.py:164-179 | the stream becomes what the comment skip describes, and the method reports divergence exactly when an opened comment is never closed |
| Scanning.Scanner.CloseComment | 3rd/GF2/scanner.py:171-179 | inside an opened comment: diverges exactly when no `//` follows; otherwise the stream continues after that `//` and the whitespace after it |
| Scanning.Scanner.FindCommentEnd | 3rd/GF2/scanner.py:171-179 | reports a `//` exactly when one occurs in the rest of the comment, and then leaves the stream just after the first one |
| Scanning.Scanner.SlashInComment | 3rd/GF2/scanner.py:172-177 | a `/` inside a comment closes it exactly when another `/` follows, then the whitespace after is skipped; otherwise only the `/` is consumed |
| Scanning.Scanner.GetName | 3rd/GF2/scanner.py:182-191 | returns the alphanumeric run at the head of the stream and leaves the rest |
| Scanning.Scanner.GetNumber | 3rd/GF2/scanner.py:193-202 | returns the decimal value of the digit run at the head of the stream and leaves the rest |
| Scanning.Scanner.ReadDigits | 3rd/GF2/scanner.py:196-202 | consumes exactly the leading run of digits and returns its decimal value |
| Scanning.Scanner.ReadWord | 3rd/GF2/scanner.py:98-104 | a word is a KEYWORD or NAME token carrying its interned id, exactly as the lexical description says |
| Scanning.Scanner.ReadPunctuation | 3rd/GF2/scanner.py:110-134 | `=`, `.`, `,`, `;` and `->` agree with the lexical description: each gives its token and is consumed, and a `-` without `>` raises a SyntaxError |
| Scanning.Scanner.ReadUnit | 3rd/GF2/scanner.py:98-153 | agrees with the lexical description of one unit; the first read returns a token with no type; every token but END OF FILE is progress |
| Scanning.Scanner.SkipBlank | 3rd/GF2/scanner.py:95-96 | the stream becomes the comment skip of the input with its leading whitespace dropped, and divergence is reported exactly when that skip never returns |
| Scanning.Scanner.GetSymbol | 3rd/GF2/scanner.py:92-153 | agrees with `Scan` on the remaining stream and the old name table; the name table only grows; errors are SyntaxError or non-termination; the id fits the token's type; progress except at END OF FILE |
| ScanFacts.KeywordIds | 3rd/GF2/scanner.py:78-81 | interning the keywords into an empty table gives DEVICES=0, CONNECT=1, MONITOR=2, END=3 |
| ScanFacts.WordClassification | 3rd/GF2/scanner.py:98-104 | a word is a KEYWORD exactly when it is a section word, otherwise a NAME, and the token's id holds the word |
| ScanFacts.PunctuationOneChar | 3rd/GF2/scanner.py:110-124 | `=`, `.`, `,` and `;` each give their own token and consume one character |
| ScanFacts.DashWithoutGreater | 3rd/GF2/scanner.py:126-134 | a `-` not followed by `>` raises a SyntaxError |
| ScanFacts.UnknownSymbols | 3rd/GF2/test_scanner.py:37-47 | `@`, `$`, `^`, `#` and a lone `-` each raise a SyntaxError |
| ScanFacts.SampleKeyword | 3rd/GF2/test_scanner.py:21-35 | "DEVICES\nX1 =" first reads KEYWORD 0 |
| ScanFacts.SampleName | 3rd/GF2/test_scanner.py:21-35 | then reads the new NAME X1 with id 4, appending it to the table |
| ScanFacts.SampleEquals | 3rd/GF2/test_scanner.py:21 | then reads EQUALS, which ends the text |
| ScanFacts.SpacesThenName | 3rd/GF2/test_scanner.py:49-59 | skipping the spaces of "     DEVICES" leaves D current |
| ScanFacts.CommentThenName | 3rd/GF2/test_scanner.py:62-71 | skipping the comment of "//     DEVICES//D" leaves D current |
| ScanFacts.SampleNumber | 3rd/GF2/test_scanner.py:85-94 | the digit run 112 reads as 112 and stops at the first non-digit |
| ScanFacts.SampleWords | 3rd/GF2/test_scanner.py:74-83 | the names XOR and X1 are read whole |
| ScanFacts.TrailingSpaceIsEof | 3rd/GF2/scanner.py:136-140 | once only whitespace remains, every read is END OF FILE and empties the stream |
| KeywordScan.PyIndex | 3rd/GF2/parse.py:104-105 | Python indexing: defined from -len to len-1, with negative indices counted from the end |
| KeywordScan.Find | 3rd/GF2/parse.py:103 | `str.find`: the first occurrence at or after start, or -1 exactly when there is none |
| KeywordScan.FindJump | 3rd/GF2/parse.py:103 | `find` passes over a stretch in which no character can start the keyword |
| KeywordScan.FindLands | 3rd/GF2/parse.py:103 | `find` lands on the first place the keyword is spelled out when nothing before it can start the keyword |
| KeywordScan.Count | 3rd/GF2/parse.py:99-100 | `str.count` is 0 exactly when the keyword does not occur |
| KeywordScan.SearchFrom | 3rd/GF2/parse.py:102-107 | the only failure of the search loop is an IndexError |
| KeywordScan.KeywordFound | 3rd/GF2/parse.py:97-113 | a keyword that does not occur is not found; the only failure is an IndexError |
| KeywordScan.SearchKeyword | 3rd/GF2/parse.py:98-113 | the search loop with its `break` and `else` computes `KeywordFound` |
| KeywordScan.SearchRound | 3rd/GF2/parse.py:103-107 | one round either settles the search as `SearchFrom` does, or hands it on to the restart point `start + ind + 1` with one round fewer |
| KeywordScan.RoundSkips | 3rd/GF2/parse.py:103-107 | a match with a non-separator before it passes the search on to `start + ind + 1` with one round fewer |
| KeywordScan.RoundHits | 3rd/GF2/parse.py:103-106 | a match with a separator read on both sides ends the search with the keyword found |
| KeywordScan.MissingAfter | 3rd/GF2/parse.py:97-113 | MISSING changes only to one of the keywords, and the only failure is an IndexError |
| KeywordScan.ScanKeywords | 3rd/GF2/parse.py:95-113 | the loop over the four keywords computes the pre-scan |
| KeywordScan.AllFoundKeepsMissing | 3rd/GF2/parse.py:97-113 | when every keyword is found, MISSING is left as it was |
| KeywordScan.MissingIsLast | 3rd/GF2/parse.py:97-113 | MISSING ends as the last keyword not found |
| KeywordScan.FreeFromExact | 3rd/GF2/parse.py:97-113 | the corrected search finds a keyword exactly when a free-standing occurrence exists at or after the start |
| KeywordScan.FreeFromSound | 3rd/GF2/parse.py:97-113 | an occurrence the corrected search reports stands free |
| KeywordScan.FreeFromComplete | 3rd/GF2/parse.py:97-113 | the corrected search misses no free-standing occurrence at or after its start |
| KeywordScan.CorrectedFound | 3rd/GF2/parse.py:97-113 | the corrected keyword test holds exactly when the keyword stands free: at the start of the text or after a space or newline, and at the end of the text or before one |
| KeywordScan.CorrectedMissing | 3rd/GF2/parse.py:97-113 | empty exactly when every keyword stands free; otherwise a keyword that does not stand free |
| KeywordScan.KeywordAtEndFails | 3rd/GF2/parse.py:104-105 | "\nEND": the pre-scan as written raises IndexError, although END stands free |
| KeywordScan.LeadingKeywordWraps | 3rd/GF2/parse.py:104 | "END": the pre-scan as written does not find END, although it stands free |
| KeywordScan.OvershootMisses | 3rd/GF2/parse.py:107 | "xxxEND yEND END ": the pre-scan as written misses the free-standing END |
| KeywordScan.OvershootInvents | 3rd/GF2/parse.py:107 | "ab xEND yEND zEND\n\n": the pre-scan as written finds END, although none stands free |
| Circuit.GetDevice | 3rd/GF2/parse.py:172 | a device is found exactly when one with that id exists, and it is the first one |
| Circuit.Unconnected | 3rd/GF2/parse.py:259 | one unconnected input per port, in order |
| Circuit.InputPorts | 3rd/GF2/parse.py:215-230 | XOR has two inputs, a D-type its four, clocks, switches and generators none, other gates n inputs |
| Circuit.NewDevice | 3rd/GF2/parse.py:215-230 | a new device has the given id, kind and parameters, and all its inputs unconnected |
| Circuit.WireInputs | 3rd/GF2/parse.py:460-462 | the input with that port is connected to the source, and the other inputs are unchanged |
| Circuit.AppendUnique | 3rd/GF2/parse.py:171-178 | extending the table by one device whose id is not yet used keeps the ids unique |
| Circuit.NamedPrefix | 3rd/GF2/parse.py:155-158 | extending the table by a device whose id is in the grown name table keeps every id inside the name table |
| Circuit.RewiredGetDevice | 3rd/GF2/parse.py:465-466 | rewiring keeps every device present with its kind |
| Circuit.RewiredTransitive | 3rd/GF2/parse.py:441-490 | rewirings compose |
| Circuit.FirstIndex | 3rd/GF2/parse.py:460-462 | the index of the first device with that id, or none exactly when no device has it |
| Circuit.Wire | 3rd/GF2/parse.py:460-462 | only the first device with the destination id changes, and only that input; every device keeps its ids, kind, parameters and connected inputs |
| Circuit.GroundInputs | 3rd/GF2/parse.py:522-525 | grounding keeps a device's id, kind, parameters and number of inputs |
| Circuit.GroundDtypes | 3rd/GF2/parse.py:512-527 | every device is grounded in place and the table keeps its length |
| Circuit.GroundDtypesEffect | 3rd/GF2/parse.py:512-527 | after grounding every D-type input is connected, and every other device is unchanged |
| Circuit.GroundedUnique | 3rd/GF2/parse.py:618-629 | adding the ground under a fresh id and grounding keeps the ids unique |
| Circuit.OpenInputs | 3rd/GF2/parse.py:502-504 | a bridge for `check_connection`'s inner loop: the unconnected inputs among the first n, never more than n |
| Circuit.OpenInputsZero | 3rd/GF2/parse.py:502-504 | no open input is counted exactly when every inspected input is connected |
| Circuit.FloatingCountZero | 3rd/GF2/parse.py:492-510 | no floating input is counted exactly when every input of every gate and D-type is connected |
| Circuit.GroundingLowersFloating | 3rd/GF2/parse.py:512-527 | grounding never raises the floating count and leaves no D-type input floating |
| Checks.DeviceCheck | 3rd/GF2/parse.py:410-437 | SyntaxError exactly for D-types and XOR; ValueError exactly for a gate outside 1..16, a clock below 1 or a switch other than 0 or 1; nothing exactly when the parameter is acceptable |
| Checks.NetworkErrorCheck | 3rd/GF2/parse.py:529-596 | NO_ERROR counts nothing; the listed failures and any other value count one; PORT_ABSENT fails with AttributeError exactly when the device is missing or the bad port has no name; it counts nothing exactly for a numeric port name up to 16 |
| Checks.MonitorErrorCheck | 3rd/GF2/parse.py:598-616 | one error exactly for NOT_OUTPUT, DEVICE_ABSENT and MONITOR_PRESENT |
| Checks.CodeOf | 3rd/GF2/scanner.py:72-76 | a code exists exactly for 0..12 and has that number |
| Checks.CallError | 3rd/GF2/parse.py:631-651 | AttributeError exactly for an unlisted integer other than the current column marker; SyntaxError exactly for a listed code, not the marker, that `display_error` raises |
| Checks.ParserCodesRaise | 3rd/GF2/parse.py:631-651 | every code the parser reports raises a SyntaxError, whatever the column marker is |
| Checks.Raise | 3rd/GF2/parse.py:631-651 | reporting one of the parser's codes ends in a SyntaxError |
| Checks.MarkersNeverRaise | 3rd/GF2/parse.py:639-647 | the semantic marker and the current column marker only locate the error |
| Checks.StaleMarkerCrashes | 3rd/GF2/parse.py:641-644 | a column marker other than the current one reaches the misspelled locator and fails |
| Parsing.NumberTakenForEnd | 3rd/GF2/parse.py:135 | the text "3" reads as the NUMBER 3, which the END test as written accepts and the intended test rejects |
| Parsing.IsEndIsTheWord | 3rd/GF2/parse.py:135 | the corrected END test accepts a token exactly when the word read is END |
| Parsing.UnreachedNotRead | 3rd/GF2/parse.py:660-677 | a recovery after a dot that never reaches an arrow does not make the arrow part of a connection |
| Parsing.PastNotRead | 3rd/GF2/parse.py:296-298 | a recovery that reaches its arrow but not the destination after it does not either |
| Parsing.SemicolonsAppend | 3rd/GF2/parse.py:147-272 | the `;` tokens of two stretches of text add up |
| Parsing.EntryTokens | 3rd/GF2/parse.py:151-272 | one more definition `name = ... ;` adds exactly one `;` and no keyword to the DEVICES section read so far |
| Parsing.Parser.DeclaredGrows | 3rd/GF2/parse.py:147-272 | a declared device stays declared as the name table grows |
| Parsing.Parser.DeclaredOneMore | 3rd/GF2/parse.py:147-272 | appending a declared device keeps every device of the section declared as the name table grows |
| Parsing.Parser.DefinedTokens | 3rd/GF2/parse.py:189-272 | a definition's tokens hold no keyword and exactly one `;` |
| Parsing.Parser.DefinitionAdded | 3rd/GF2/parse.py:151-272 | one more definition appends one declared device under a fresh id: the ids stay unique and named and the devices added still match the `;` tokens read |
| Parsing.Parser.OfferAllStep | 3rd/GF2/parse.py:442-472 | each destination of a connection is offered against the table the earlier destinations left |
| Parsing.Parser.ErrorsAllStep | 3rd/GF2/parse.py:442-472 | the errors of one more destination add to those of the earlier ones |
| Parsing.Parser.ErrorsAllGrow | 3rd/GF2/parse.py:529-596 | the errors counted for a connection's destinations do not change as names are interned after them |
| Parsing.Parser.constructor | 3rd/GF2/parse.py:77-88 | no errors, LINE and POSITION 0, MISSING empty, no devices and no monitors |
| Parsing.Parser.SetGround | 3rd/GF2/parse.py:618-629 | the ground id is the least id without a name, and a switch in state 0 is appended there |
| Parsing.Parser.SetDtypeInputValues | 3rd/GF2/parse.py:512-527 | the new table connects every open D-type input to the ground and changes nothing else (`GroundDtypesEffect`) |
| Parsing.Parser.CheckConnection | 3rd/GF2/parse.py:492-510 | counts one error per floating input of each gate and D-type; fails with TypeError only when a port has no name |
| Parsing.Parser.Next | 3rd/GF2/scanner.py:92-153 | the token read agrees with `Scan` on the rest of the text and the name table (token, error, or divergence); the name table only grows, a token other than END OF FILE is progress, and the id fits the type |
| Parsing.Parser.Advance | 3rd/GF2/scanner.py:92-153 | the same read as the section routines rely on it: one token, a grown name table, progress except at END OF FILE, an id that fits its type |
| Parsing.Parser.NetworkArrowCheck | 3rd/GF2/parse.py:653-685 | an arrow changes nothing; a dot counts one error and the tokens read are the output name then every token through the next arrow; a comma or any other token raises a SyntaxError and counts nothing |
| Parsing.Parser.SkipToArrow | 3rd/GF2/parse.py:660-677 | on success the tokens read are the output name and a skip that ends at the first arrow after it; on failure no arrow was read after the name; a D-type output without a name fails with TypeError at once, and reaching END OF FILE never returns |
| Parsing.Parser.ArrowPart | 3rd/GF2/parse.py:296-298 | the tokens read are an arrow, or a dot and the recovery through the next arrow, then the first destination, which is returned; exactly one error for the dot; any other token after the source is a SyntaxError |
| Parsing.Parser.ReadPort | 3rd/GF2/parse.py:450-459 | after a destination: `. port separator` returns the port's id and the separator, and a separator alone returns no port |
| Parsing.Parser.Offer | 3rd/GF2/parse.py:460-472 | an accepted request connects exactly that input, and otherwise the table is unchanged; the count grows by what `network_error_check` makes of the answer, against the table as it was, except for a D-type source without a port |
| Parsing.Parser.ConnectOne | 3rd/GF2/parse.py:442-472 | one destination: the port is the one read after its dot, the table becomes that offer's result, and the count grows by exactly that offer's errors |
| Parsing.Parser.ListSeparator | 3rd/GF2/parse.py:473-485 | a `;` is returned as it is, a comma moves on to the token after it, a name or any other token raises a SyntaxError |
| Parsing.Parser.ConnectNext | 3rd/GF2/parse.py:442-485 | one pass of the destination loop: the table and the count become those of the destinations offered so far plus this one |
| Parsing.Parser.Connect | 3rd/GF2/parse.py:439-490 | on success the table is each destination offered in turn and the count grows by the sum of their errors; the first destination is the token given; a `;` at once offers nothing |
| Parsing.Parser.ReadParameters | 3rd/GF2/parse.py:204-232 | the parameters are the NUMBER tokens read, one the kind accepts (two for SIGGEN), then `;`; a non-number, a rejected value, a missing comma or a missing `;` each fail with the matching error |
| Parsing.Parser.ReadDefinition | 3rd/GF2/parse.py:189-272 | the device's kind is the one its kind name stands for and its parameters are the numbers read; a non-NAME or unknown kind and a bare `;` after CLOCK, SWITCH, AND, OR, NAND or NOR raise a SyntaxError |
| Parsing.Parser.DefineDevice | 3rd/GF2/parse.py:151-272 | a non-NAME, a reserved name, a duplicate name or a missing `=` raises a SyntaxError; on success exactly one device, made from the definition's tokens, is appended under that name |
| Parsing.Parser.SetDevices | 3rd/GF2/parse.py:147-272 | on success one device is appended per definition (one per `;` read), the ids stay unique and named, the old table is a prefix, and the section ends at the first keyword; a first token other than a NAME raises a SyntaxError |
| Parsing.Parser.SkipConnection | 3rd/GF2/parse.py:282-291 | an unnamed source fails with TypeError and counts nothing; otherwise exactly one error is counted and every token through the next `;` is skipped, the token after it returned |
| Parsing.Parser.DtypeSourcePort | 3rd/GF2/parse.py:306-320 | `. Q` or `. QBAR` binds that output and counts nothing; `. other` binds no output and counts one error; without a dot the earlier binding stays and one error is counted |
| Parsing.Parser.ConnectionHead | 3rd/GF2/parse.py:294-325 | the tokens read are the source port of a D-type then the arrow part; the binding is the one those tokens make; the count grows by exactly the port's and the arrow's errors; a token other than an arrow or a dot raises a SyntaxError |
| Parsing.Parser.ConnectSource | 3rd/GF2/parse.py:294-326 | a D-type source whose port was never bound fails with UnboundLocalError, and only then; otherwise the destinations are offered in turn from the bound port (none for other devices), and the count grows by exactly their errors |
| Parsing.Parser.SetConnections | 3rd/GF2/parse.py:274-332 | the table is only rewired, errors only grow, and the section ends at a keyword |
| Parsing.Parser.MakeMonitor | 3rd/GF2/parse.py:386-408 | a monitor the module accepts is recorded; the count grows by the answer's error plus exactly one for a dot after the name; a third token other than `;` raises a SyntaxError |
| Parsing.Parser.MakeMonitorDtype | 3rd/GF2/parse.py:361-384 | no dot: one error and UnboundLocalError; an output other than Q or QBAR: one error and nothing recorded; a valid output: the module's answer decides the record and the count; a third token other than `;` raises a SyntaxError |
| Parsing.Parser.MonitorPoints | 3rd/GF2/parse.py:336-354 | monitors are only added and errors only counted until the first token that is not a NAME, which is returned |
| Parsing.Parser.SetMonitor | 3rd/GF2/parse.py:334-359 | at the first non-NAME the ground is appended and the D-types are grounded; the count covers every floating input |
| Parsing.Parser.FirstToken | 3rd/GF2/parse.py:115-119 | the first real token is `Scan` of the text; its errors pass through |
| Parsing.Parser.Sections | 3rd/GF2/parse.py:120-134 | the tokens closing DEVICES and CONNECT must be CONNECT and MONITOR, or a SyntaxError is raised; success exactly when all three sections closed; the ids are unique, every D-type input is connected and the count covers every floating input |
| Parsing.Parser.Run | 3rd/GF2/parse.py:115-145 | a first token other than DEVICES is a SyntaxError; the token after MONITOR must pass the END test chosen; the result is END's id exactly when no error was counted |
| Parsing.Parser.ParseNetwork | 3rd/GF2/parse.py:90-145 | as written: a pre-scan failure is an IndexError; MISSING is what the pre-scan leaves; the section ends are tested as above, END only by its id; the result is END's id exactly when no error was counted, and then no input floats |
| Parsing.Parser.ParseNetworkIntended | 3rd/GF2/parse.py:90-145 | as evidently intended: MISSING is the corrected pre-scan's; the token after MONITOR must be the keyword END; otherwise as `ParseNetwork` |

## Left out

- Reading the definition file is not modelled: the text is given as a sequence of characters, so the `seek` after the pre-scan has no effect.
- Printed messages are not modelled. `error_location` is treated as printing only; its own failure when a line number lies past the text is left out.
- `names.py`, `devices.py`, `network.py` and `monitors.py` are not part of this model. The answers of `make_connection` in the CONNECT section and of `make_monitor` are the parser's `connectOutcome` and `monitorOutcome` functions. The effect of an accepted connection is modelled as connecting that destination input, and of an accepted monitor as recording the point.
- Parsing.Parser.SetDtypeInputValues: `set_dtype_input_values` calls `make_connection` for each open D-type input and ignores its answer. The model assumes the network accepts every one of these ground connections, so each open D-type input ends connected to the ground (`Circuit.GroundDtypes`). The network module that would decide this is not part of the model.
- `gui.py` and `gui_3D.py` are user interface and are not part of this model.
- Chars.IsSpace, Chars.IsAlpha, Chars.IsDigit, Chars.IsAlnum and Checks.IsNumeric are ASCII-only, while Python's `isspace`, `isalpha`, `isdigit`, `isalnum` and `isnumeric` follow Unicode. Three consequences: "é1 = AND, 1;" defines a NAME in the source and raises a SyntaxError in the model; U+00A0 (no-break space) is skipped as whitespace in the source and is an unknown symbol in the model; '²' passes `isdigit` in the source, where `int()` then raises ValueError, and is a SyntaxError in the model.
- Python's `is` on small integers and literal strings is taken as equality. The one identity test that matters is handled: POSITION passed as a value against POSITION the field (`Checks.CallError`).
- Parsing.Parser.ParseNetwork: the source's `while keyword.type is KEYWORD` loop is modelled as a single pass, since each pass returns or raises.
- Parsing.Parser.ParseNetwork: the MISSING marker has no observable effect beyond its value. Where the code consults it, both branches raise a SyntaxError.
- Parsing.Parser.Advance: omits `Next`'s agreement with `Scan`, so it does not say which token is read from the text. The section routines read through `Advance`, and their contracts speak of the tokens read (their ghost `read` results), not of the text those tokens come from. Only `Parsing.Parser.Next` relates a token to the text.
- Parsing.Parser.SetConnections: states only that the table is rewired and the error count does not fall across the whole section. The exact table and count are stated per statement, by `Parsing.Parser.ConnectSource`, `Parsing.Parser.ConnectionHead` and `Parsing.Parser.SkipConnection`.
- Parsing.Parser.MonitorPoints: states only that monitors are added and errors counted, not one monitor statement per NAME across the whole loop. The exact effect is stated per statement, by `Parsing.Parser.MakeMonitor` and `Parsing.Parser.MakeMonitorDtype`.
- Parsing.Parser.SetMonitor: states that the count covers the floating inputs, not its exact value, and that monitors are only added; the monitor errors before the count are stated per statement, as above.
- Parsing.Parser.NetworkArrowCheck: the `network_error_check` text of its recovery is not modelled; only the count and the failures are.
- Circuit.GetDevice: in `network_error_check` a destination device's own name is assumed to exist, because every device except the ground is named and the ground is made only after the connections.
- The order of `find_devices()` and of each device's input dictionary is taken to be table order and port order.

## Findings

`Parsing.Parser.ParseNetwork` models `parse_network` as written, with the pre-scan `KeywordScan.ScanKeywords` and the END test `Parsing.EndTestAsWritten`. `Parsing.Parser.ParseNetworkIntended` is the same walk with the corrected pre-scan `KeywordScan.CorrectedMissing` and the corrected END test `Parsing.IsKeywordToken`.

| source | as written | input that shows it | evidently intended | confidence | as-written member | corrected member |
|---|---|---|---|---|---|---|
| 3rd/GF2/parse.py:104-105 | the character after a keyword occurrence is read with `file[ind+len(i)]`, which is out of range when the keyword ends the text | "\nEND" raises IndexError | a keyword that ends the text counts as free-standing | not executed | KeywordScan.KeywordAtEndFails | KeywordScan.CorrectedMissing |
| 3rd/GF2/parse.py:104 | the character before an occurrence at index 0 is `file[-1]`, the LAST character of the text | "END" reports END missing | a keyword at the start of the text counts as free-standing | not executed | KeywordScan.LeadingKeywordWraps | KeywordScan.CorrectedFound |
| 3rd/GF2/parse.py:107 | the next search starts at `start + ind + 1`, adding the absolute match position to the old start, so it can jump past a free-standing keyword | "xxxEND yEND END " reports END missing | the next search starts just after the match, at `ind + 1` | not executed | KeywordScan.OvershootMisses | KeywordScan.FreeFromExact |
| 3rd/GF2/parse.py:107 | the same overshoot sends `find` to -1, and the test then looks at `file[-2]` and `file[2]`, here a newline and a space | "ab xEND yEND zEND\n\n" reports END present, though every END is glued to a letter | a failed search ends the loop with the keyword missing | not executed | KeywordScan.OvershootInvents | KeywordScan.CorrectedMissing |
| 3rd/GF2/parse.py:135 | the END test compares only the token's id, so the NUMBER whose value equals END's id passes | "3" after the MONITOR section is taken for END | the token must be the KEYWORD END | not executed | Parsing.NumberTakenForEnd | Parsing.IsEndIsTheWord |
