/** The parser: it pre-scans the text for the section keywords, then pulls tokens from
    the scanner through the DEVICES, CONNECT and MONITOR sections, building the device
    table, counting recoverable errors and stopping at the first fatal one.  The network
    and monitor modules it calls are represented by their answers: `connectOutcome` is
    what `make_connection` reports for a request against the current table, and
    `monitorOutcome` what `make_monitor` reports given the points already monitored. */
module Parsing {
  import opened Common
  import opened Chars
  import opened NameTable
  import opened Lexicon
  import opened Scanning
  import opened KeywordScan
  import opened Circuit
  import opened Checks

  /** What `parse_network` returns: the END id when no error was counted, else False. */
  datatype Outcome = Success(endId: int) | Failure

  /** A monitored output: a device and, for a D-type, its output port. */
  type Point = (Option<int>, Option<int>)

  /** Names a device may not take: gate and device kinds, D-type ports, section words. */
  predicate Reserved(s: string) {
    s in ["AND", "OR", "NAND", "NOR", "XOR"] || s in ["CLOCK", "SWITCH", "DTYPE", "SIGGEN"]
    || s in ["CLK", "SET", "CLEAR", "DATA"] || s in ["Q", "QBAR"] || s in Keywords
  }

  /** The test `parse_network` applies to the token after the MONITOR section, as
      written: only the id is compared with END's id, whatever the token's type. */
  predicate EndTestAsWritten(kind: Option<SymbolType>, id: Option<int>, endId: int) {
    id == Some(endId)
  }

  /** The intended test: the token is the keyword interned under `keywordId`, as the
      section loop already demands of DEVICES. */
  predicate IsKeywordToken(kind: Option<SymbolType>, id: Option<int>, keywordId: int) {
    kind == Some(Keyword) && id == Some(keywordId)
  }

  /** With the keywords interned into an empty table END's id is 3 (see
      `ScanFacts.KeywordIds`), and the text "3" reads as the NUMBER 3: the test as
      written takes it for END, the intended test does not. */
  lemma {:induction false} NumberTakenForEnd(s: seq<char>, names: seq<string>)
    requires s == "3"
    ensures var t := Scan(s, names);
            && t.Lexed? && t.kind == Some(Number)
            && EndTestAsWritten(t.kind, t.id, 3) && !IsKeywordToken(t.kind, t.id, 3)
  {
    assert |s| == 1 && s[0] == '3' && !IsSpace(s[0]) && IsDigit(s[0]) && !IsAlpha(s[0]);
    WhileStop(IsSpace, s);
    assert SkipComment(s) == Some(s);
    TakeWhileUnique(IsDigit, s, s);
    assert s[..0] == [];
    assert DecimalValue(s) == 10 * DecimalValue(s[..0]) + DigitValue(s[0]) == 3;
  }

  /** The intended test accepts exactly the word END: a token passes it iff the unit
      read is a word starting with a letter whose alphanumeric run is "END", provided
      END is interned under `endId`. */
  lemma {:induction false} IsEndIsTheWord(r: seq<char>, names: seq<string>, endId: nat)
    requires IndexOf(names, "END") == Some(endId)
    ensures var t := LexUnit(r, names);
            t.Lexed? && IsKeywordToken(t.kind, t.id, endId) <==> r != [] && IsAlpha(r[0]) && TakeWhile(IsAlnum, r) == "END"
  {
    if r != [] && IsAlpha(r[0]) {
      var word := TakeWhile(IsAlnum, r);
      var (table, id) := Lookup(names, word);
      if id == endId && word in Keywords {
        assert names[endId] == "END";
      }
      if word == "END" {
        assert Keywords[3] == "END";
      }
    }
  }

  /** The test applied to the token after the MONITOR section: the intended one or the
      one as written. */
  predicate EndTest(intended: bool, t: Symbol, endId: int) {
    if intended then IsKeywordToken(t.kind, t.id, endId) else EndTestAsWritten(t.kind, t.id, endId)
  }

  // The token streams the section routines read.  Each routine's contract describes the
  // tokens it read, in order, by the predicates below.

  /** Tokens a skip to the next `stop` passes over: none is a `stop` or END OF FILE. */
  predicate Skipping(t: seq<Symbol>, stop: SymbolType) {
    forall i :: 0 <= i < |t| ==> t[i].kind != Some(stop) && t[i].kind != Some(Eof)
  }

  /** The tokens of a skip through the next `stop`: that token last, none before it. */
  predicate SkipsThrough(t: seq<Symbol>, stop: SymbolType) {
    |t| >= 1 && t[|t| - 1].kind == Some(stop) && Skipping(t[..|t| - 1], stop)
  }

  /** The recovery after a dot where the arrow belongs: the output name, then every token
      through the next arrow. */
  predicate PastArrow(t: seq<Symbol>) {
    |t| >= 2 && SkipsThrough(t[1..], Arrow)
  }

  /** No arrow after the output name: the recovery has not reached its arrow. */
  predicate ArrowUnreached(t: seq<Symbol>) {
    forall i :: 1 <= i < |t| ==> t[i].kind != Some(Arrow)
  }

  /** The tokens from where a connection's arrow belongs up to its first destination: an
      arrow, or a dot and the recovery through the next arrow; then that destination. */
  predicate ArrowRead(t: seq<Symbol>) {
    && |t| >= 2
    && (t[0].kind == Some(Arrow) || t[0].kind == Some(Dot))
    && (t[0].kind == Some(Arrow) ==> |t| == 2)
    && (t[0].kind == Some(Dot) ==> PastArrow(t[1..|t| - 1]))
  }

  /** A recovery that never reached its arrow is not the arrow part of a connection. */
  lemma {:induction false} UnreachedNotRead(t: seq<Symbol>)
    requires |t| >= 1 && t[0].kind == Some(Dot) && ArrowUnreached(t[1..])
    ensures !ArrowRead(t)
  {
    if |t| >= 4 {
      assert t[1..][|t| - 3] == t[|t| - 2];
      assert t[1..|t| - 1][1..][|t| - 4] == t[|t| - 2];
    }
  }

  /** Nor is a completed recovery without the destination after its arrow. */
  lemma {:induction false} PastNotRead(t: seq<Symbol>)
    requires |t| >= 1 && t[0].kind == Some(Dot) && PastArrow(t[1..])
    ensures !ArrowRead(t)
  {
    if |t| >= 4 {
      assert t[1..][1..][..|t| - 3][|t| - 4] == t[|t| - 2];
      assert t[1..|t| - 1][1..][|t| - 4] == t[|t| - 2];
    }
  }

  /** The tokens after a destination device: `. port separator`, or the separator alone;
      `port` is the id after the dot (none without one). */
  predicate PortRead(t: seq<Symbol>, port: Option<int>, separator: Symbol) {
    if |t| >= 1 && t[0].kind == Some(Dot) then |t| == 3 && port == t[1].id && separator == t[2]
    else |t| == 1 && port.None? && separator == t[0]
  }

  /** The tokens after `kind ,`: a NUMBER (for SIGGEN `n , m`) and the `;`; the
      parameters are the numbers read. */
  predicate ParamsRead(kind: Kind, t: seq<Symbol>, params: seq<int>) {
    if kind == Siggen then
      && |t| == 4 && t[0].kind == Some(Number) && t[1].kind == Some(Comma)
      && t[2].kind == Some(Number) && t[3].kind == Some(Semicolon)
      && t[0].id.Some? && t[2].id.Some? && params == [t[0].id.value, t[2].id.value]
    else
      && |t| == 2 && t[0].kind == Some(Number) && t[1].kind == Some(Semicolon)
      && t[0].id.Some? && params == [t[0].id.value]
  }

  /** No token of `t` is a keyword. */
  predicate KeywordFree(t: seq<Symbol>) {
    forall i :: 0 <= i < |t| ==> t[i].kind != Some(Keyword)
  }

  /** The number of `;` tokens in `t`. */
  function Semicolons(t: seq<Symbol>): (n: nat)
    ensures n <= |t|
  {
    if t == [] then 0
    else Semicolons(t[..|t| - 1]) + (if t[|t| - 1].kind == Some(Semicolon) then 1 else 0)
  }

  lemma {:induction false} SemicolonsAppend(a: seq<Symbol>, b: seq<Symbol>)
    ensures Semicolons(a + b) == Semicolons(a) + Semicolons(b)
    decreases |b|
  {
    if b == [] {
      assert a + b == a;
    } else {
      assert (a + b)[..|a + b| - 1] == a + b[..|b| - 1];
      assert (a + b)[|a + b| - 1] == b[|b| - 1];
      SemicolonsAppend(a, b[..|b| - 1]);
    }
  }

  lemma {:induction false} NoSemicolons(t: seq<Symbol>)
    requires forall i :: 0 <= i < |t| ==> t[i].kind != Some(Semicolon)
    ensures Semicolons(t) == 0
  {
    if t != [] {
      NoSemicolons(t[..|t| - 1]);
    }
  }

  /** The tokens of a statement ended by its first `;`. */
  predicate EndsAtSemicolon(t: seq<Symbol>) {
    && |t| >= 1 && t[|t| - 1].kind == Some(Semicolon)
    && forall i :: 0 <= i < |t| - 1 ==> t[i].kind != Some(Semicolon)
  }

  /** The tokens `set_devices` has read while it is at the name `t` ends with: `n`
      definitions, each ended by its `;`, and no keyword, from a NAME on. */
  predicate DevicesUpTo(t: seq<Symbol>, n: nat) {
    && |t| >= 1 && KeywordFree(t[..|t| - 1]) && Semicolons(t[..|t| - 1]) == n
    && (|t| > 1 ==> t[0].kind == Some(Name))
  }

  /** One more definition `name = ... ;` after the tokens `prefix`, which end with that
      name: one more `;` and still no keyword before the token after it. */
  lemma {:induction false} EntryTokens(prefix: seq<Symbol>, more: seq<Symbol>, n: nat)
    requires DevicesUpTo(prefix, n) && prefix[|prefix| - 1].kind == Some(Name)
    requires |more| >= 3 && more[0].kind == Some(Equals)
    requires KeywordFree(more[1..|more| - 1]) && Semicolons(more[1..|more| - 1]) == 1
    ensures DevicesUpTo(prefix + more, n + 1)
  {
    var t := prefix + more;
    var head := prefix[..|prefix| - 1];
    var entry := [prefix[|prefix| - 1], more[0]];
    var def := more[1..|more| - 1];
    assert t[..|t| - 1] == head + (entry + def);
    SemicolonsAppend(head, entry + def);
    SemicolonsAppend(entry, def);
    NoSemicolons(entry);
    assert t[0] == prefix[0];
  }

  /** At the keyword that ends the section, the definitions read are its `;` tokens. */
  lemma {:induction false} DevicesDone(t: seq<Symbol>, n: nat)
    requires DevicesUpTo(t, n) && t[|t| - 1].kind == Some(Keyword)
    ensures Semicolons(t) == n
  {
  }

  /** A destination of a connection: the device named and the input port after its dot. */
  type Destination = (Option<int>, Option<int>)
  class Parser {
    const scanner: Scanner
    /** The ids of the kind names (`gate_types` and `device_types`) and their kinds. */
    const kinds: map<int, Kind>
    /** The ids of the gate inputs I1..I16, of the D-type inputs and of its outputs. */
    const gateInputs: seq<int>
    const dtypeInputs: seq<int>
    const dtypeOutputs: seq<int>
    const connectOutcome: (seq<Device>, int, Option<int>, Option<int>, Option<int>) -> NetCode
    const monitorOutcome: (seq<Point>, Option<int>, Option<int>) -> MonCode

    var errorCount: nat
    /** LINE and POSITION: where the last error is reported; POSITION also serves as the
        column marker `call_error` recognises. */
    var line: int
    var position: int
    var missing: string
    var devices: seq<Device>
    var monitored: seq<Point>

    ghost predicate Valid()
      reads this, scanner
    {
      scanner.Valid() && |gateInputs| == MaxGateInputs && (position == 0 || position >= 50)
    }

    /** The state while the sections are read: the start-up read is behind the scanner. */
    ghost predicate Reading()
      reads this, scanner
    {
      Valid() && !scanner.Fresh()
    }

    /** Every device is named: its id has a string in the name table. */
    ghost predicate Named()
      reads this, scanner
    {
      forall i :: 0 <= i < |devices| ==> 0 <= devices[i].id < |scanner.names|
    }

    /** A device as a definition makes it: a name that is not reserved, a kind from the
        kind table, every input unconnected, and the parameters the kind admits (SIGGEN
        takes two numbers, XOR and DTYPE none, the other kinds one acceptable number). */
    ghost predicate Declared(d: Device, names: seq<string>)
      requires |gateInputs| == MaxGateInputs
    {
      && 0 <= d.id < |names| && !Reserved(names[d.id])
      && d.kind in kinds.Values
      && d == NewDevice(d.id, d.kind, d.params, gateInputs, dtypeInputs)
      && |d.params| <= 2
      && (d.params == [] ==> d.kind in {Xor, DType, Siggen})
      && (|d.params| == 1 ==> d.kind != Siggen && ParamAcceptable(d.kind, d.params[0]))
      && (|d.params| == 2 ==> d.kind == Siggen)
    }

    /** A declared device stays declared as the name table grows. */
    lemma {:induction false} DeclaredGrows(ds: seq<Device>, from: nat, names: seq<string>, grown: seq<string>)
      requires |gateInputs| == MaxGateInputs && names <= grown && from <= |ds|
      requires forall i {:trigger Declared(ds[i], names)} :: from <= i < |ds| ==> Declared(ds[i], names)
      ensures forall i {:trigger Declared(ds[i], grown)} :: from <= i < |ds| ==> Declared(ds[i], grown)
    {
      forall i | from <= i < |ds|
        ensures Declared(ds[i], grown)
      {
        assert Declared(ds[i], names);
        assert grown[ds[i].id] == names[ds[i].id];
      }
    }

    /** Appending a device defined under a fresh id keeps every device from `from` on
        declared, as the table grows. */
    lemma {:induction false} DeclaredOneMore(from: nat, before: seq<Device>, after: seq<Device>, names: seq<string>, grown: seq<string>)
      requires |gateInputs| == MaxGateInputs && names <= grown && from <= |before|
      requires |after| == |before| + 1 && after[..|before|] == before
      requires forall i {:trigger Declared(before[i], names)} :: from <= i < |before| ==> Declared(before[i], names)
      requires Declared(after[|before|], grown)
      ensures forall i {:trigger Declared(after[i], grown)} :: from <= i < |after| ==> Declared(after[i], grown)
    {
      DeclaredGrows(before, from, names, grown);
      forall i | from <= i < |after|
        ensures Declared(after[i], grown)
      {
        if i < |before| {
          assert after[i] == after[..|before|][i] == before[i];
          assert Declared(before[i], grown);
        } else {
          assert i == |before|;
        }
      }
    }

    lemma {:induction false} DeclaredIsNamed(d: Device, names: seq<string>)
      requires |gateInputs| == MaxGateInputs && Declared(d, names)
      ensures 0 <= d.id < |names|
    {
    }

    constructor(s: Scanner, kindIds: map<int, Kind>, gates: seq<int>, dIn: seq<int>, dOut: seq<int>,
                connects: (seq<Device>, int, Option<int>, Option<int>, Option<int>) -> NetCode,
                monitors: (seq<Point>, Option<int>, Option<int>) -> MonCode)
      requires s.Valid() && |gates| == MaxGateInputs
      ensures Valid() && scanner == s && kinds == kindIds && gateInputs == gates
      ensures dtypeInputs == dIn && dtypeOutputs == dOut
      ensures connectOutcome == connects && monitorOutcome == monitors
      ensures errorCount == 0 && line == 0 && position == 0 && missing == ""
      ensures devices == [] && monitored == []
    {
      scanner := s;
      kinds := kindIds;
      gateInputs, dtypeInputs, dtypeOutputs := gates, dIn, dOut;
      connectOutcome, monitorOutcome := connects, monitors;
      errorCount, line, position, missing := 0, 0, 0, "";
      devices, monitored := [], [];
    }

    /** `set_ground`: the ground is the least id without a name, i.e. the next free id of
        the name table, and a switch in state 0 is made there. */
    method SetGround() returns (gnd: int)
      requires Valid()
      modifies this`devices
      ensures gnd == |scanner.names|
      ensures NameString(scanner.names, gnd).None?
      ensures forall k :: 0 <= k < gnd ==> NameString(scanner.names, k).Some?
      ensures devices == old(devices) + [NewDevice(gnd, Switch, [0], gateInputs, dtypeInputs)]
    {
      gnd := 0;
      while NameString(scanner.names, gnd).Some?
        invariant 0 <= gnd <= |scanner.names|
        invariant forall k :: 0 <= k < gnd ==> NameString(scanner.names, k).Some?
        decreases |scanner.names| - gnd
      {
        gnd := gnd + 1;
      }
      devices := devices + [NewDevice(gnd, Switch, [0], gateInputs, dtypeInputs)];
    }

    /** `set_dtype_input_values`: every unconnected D-type input is connected to `gnd`. */
    method SetDtypeInputValues(gnd: int)
      modifies this`devices
      ensures devices == GroundDtypes(old(devices), gnd)
    {
      ghost var devices0 := devices;
      var i := 0;
      while i < |devices|
        invariant 0 <= i <= |devices| == |devices0|
        invariant forall j :: 0 <= j < i ==> devices[j] == GroundInputs(devices0[j], gnd)
        invariant forall j :: i <= j < |devices| ==> devices[j] == devices0[j]
      {
        var d := devices[i];
        if d.kind == DType {
          var ins := d.inputs;
          for k := 0 to |ins|
            invariant |ins| == |d.inputs|
            invariant forall m :: 0 <= m < k ==> ins[m] == GroundInputs(d, gnd).inputs[m]
            invariant forall m :: k <= m < |ins| ==> ins[m] == d.inputs[m]
          {
            if ins[k].source.None? {
              ins := ins[k := Input(ins[k].port, Some(Source(gnd, None)))];
            }
          }
          assert ins == GroundInputs(d, gnd).inputs;
          devices := devices[i := d.(inputs := ins)];
        }
        i := i + 1;
      }
      assert devices == GroundDtypes(old(devices), gnd);
    }

    /** `check_connection`: one error per unconnected input of every device other than a
        clock or a switch.  Reporting it prints the port's name, which fails when the
        port id has no name. */
    method CheckConnection() returns (r: Result<()>)
      requires Valid()
      modifies this`errorCount
      ensures r.Ok? ==> errorCount == old(errorCount) + FloatingCount(devices, |devices|)
      ensures r.Err? ==> r.error == TypeError
    {
      ghost var errors0 := errorCount;
      for i := 0 to |devices|
        invariant errorCount == errors0 + FloatingCount(devices, i)
      {
        var d := devices[i];
        if Inspected(d) {
          for k := 0 to |d.inputs|
            invariant errorCount == errors0 + FloatingCount(devices, i) + OpenInputs(d.inputs, k)
          {
            if d.inputs[k].source.None? {
              errorCount := errorCount + 1;
              if NameString(scanner.names, d.inputs[k].port).None? {
                return Err(TypeError);
              }
            }
          }
        }
      }
      return Ok(());
    }

    // What the network makes of a connection statement, as the parser sees it.

    /** The table after the source `firstId.firstPort` is offered to `target.port`: a
        request the network accepts connects that input of the first device `target`. */
    ghost function Offered(ds: seq<Device>, firstId: int, firstPort: Option<int>,
                           target: Option<int>, port: Option<int>): seq<Device>
    {
      if connectOutcome(ds, firstId, firstPort, target, port) == NoError && target.Some? && port.Some? then
        Wire(ds, target.value, port.value, Source(firstId, firstPort))
      else ds
    }

    /** The errors counted for that offer, or the crash: none for a D-type source given
        without a port, otherwise what `network_error_check` makes of the network's answer,
        with the destination looked up in the table before the offer. */
    ghost function OfferErrors(ds: seq<Device>, names: seq<string>, firstId: int, firstPort: Option<int>,
                               target: Option<int>, port: Option<int>): Result<nat>
    {
      var first := GetDevice(ds, Some(firstId));
      if first.Some? && first.value.kind == DType && firstPort.None? then Ok(0)
      else NetworkErrorCheck(connectOutcome(ds, firstId, firstPort, target, port), port,
                             GetDevice(ds, target), names, dtypeInputs)
    }

    /** The table after the destinations `dests` were offered in turn. */
    ghost function OfferAll(ds: seq<Device>, firstId: int, firstPort: Option<int>, dests: seq<Destination>): seq<Device>
      decreases |dests|
    {
      if dests == [] then ds
      else
        var last := dests[|dests| - 1];
        Offered(OfferAll(ds, firstId, firstPort, dests[..|dests| - 1]), firstId, firstPort, last.0, last.1)
    }

    /** The errors counted for the destinations `dests` offered in turn, or the first crash. */
    ghost function ErrorsAll(ds: seq<Device>, names: seq<string>, firstId: int, firstPort: Option<int>,
                             dests: seq<Destination>): Result<nat>
      decreases |dests|
    {
      if dests == [] then Ok(0)
      else
        var init, last := dests[..|dests| - 1], dests[|dests| - 1];
        var n := ErrorsAll(ds, names, firstId, firstPort, init);
        var m := OfferErrors(OfferAll(ds, firstId, firstPort, init), names, firstId, firstPort, last.0, last.1);
        if n.Err? then n else if m.Err? then m else Ok(n.value + m.value)
    }

    /** One more destination: its offer is made against the table the earlier ones left. */
    lemma {:induction false} OfferAllStep(ds: seq<Device>, firstId: int, firstPort: Option<int>,
                       dests: seq<Destination>, last: Destination)
      ensures OfferAll(ds, firstId, firstPort, dests + [last]) ==
              Offered(OfferAll(ds, firstId, firstPort, dests), firstId, firstPort, last.0, last.1)
    {
      assert (dests + [last])[..|dests + [last]| - 1] == dests;
      assert (dests + [last])[|dests + [last]| - 1] == last;
    }

    /** And its errors add to theirs. */
    lemma {:induction false} ErrorsAllStep(ds: seq<Device>, names: seq<string>, firstId: int, firstPort: Option<int>,
                        dests: seq<Destination>, last: Destination)
      requires ErrorsAll(ds, names, firstId, firstPort, dests).Ok?
      requires OfferErrors(OfferAll(ds, firstId, firstPort, dests), names, firstId, firstPort, last.0, last.1).Ok?
      ensures ErrorsAll(ds, names, firstId, firstPort, dests + [last]) ==
              Ok(ErrorsAll(ds, names, firstId, firstPort, dests).value
                 + OfferErrors(OfferAll(ds, firstId, firstPort, dests), names, firstId, firstPort, last.0, last.1).value)
    {
      assert (dests + [last])[..|dests + [last]| - 1] == dests;
      assert (dests + [last])[|dests + [last]| - 1] == last;
    }

    /** Counting the errors of offers that did not crash gives the same result once more
        names are interned. */
    lemma {:induction false} ErrorsAllGrow(ds: seq<Device>, names: seq<string>, grown: seq<string>,
                                           firstId: int, firstPort: Option<int>, dests: seq<Destination>)
      requires names <= grown
      requires ErrorsAll(ds, names, firstId, firstPort, dests).Ok?
      ensures ErrorsAll(ds, grown, firstId, firstPort, dests) == ErrorsAll(ds, names, firstId, firstPort, dests)
      decreases |dests|
    {
      if dests != [] {
        var init, last := dests[..|dests| - 1], dests[|dests| - 1];
        var before := OfferAll(ds, firstId, firstPort, init);
        ErrorsAllGrow(ds, names, grown, firstId, firstPort, init);
        var first := GetDevice(before, Some(firstId));
        if !(first.Some? && first.value.kind == DType && firstPort.None?) {
          NetworkErrorCheckStable(connectOutcome(before, firstId, firstPort, last.0, last.1), last.1,
                                  GetDevice(before, last.0), names, grown, dtypeInputs);
        }
      }
    }

    /** The output a D-type source port token names: Q or QBAR, or none for any other. */
    ghost function DtypePort(p: Symbol): Option<int> {
      if p.id.Some? && p.id.value in dtypeOutputs then p.id else None
    }

    /** The D-type source port binding after the tokens `t` that follow a D-type source:
        `. port` binds that output (or no output), and without the dot the binding `bound`
        already in force stays. */
    ghost function Binding(t: seq<Symbol>, bound: Option<Option<int>>): Option<Option<int>> {
      if |t| >= 2 && t[0].kind == Some(Dot) then Some(DtypePort(t[1])) else bound
    }

    /** How many tokens the source port takes after the source `first`. */
    ghost function HeadWidth(first: Device, t: seq<Symbol>): nat {
      if first.kind != DType then 0 else if |t| >= 1 && t[0].kind == Some(Dot) then 2 else 1
    }

    /** The tokens of a connection's head after its source `first`: the source port of a
        D-type, then the arrow part up to the first destination. */
    ghost predicate HeadRead(first: Device, t: seq<Symbol>) {
      |t| >= HeadWidth(first, t) && ArrowRead(t[HeadWidth(first, t)..])
    }

    /** The errors the source port counts: one for a D-type without a dot, or with a port
        other than Q and QBAR. */
    ghost function PortErrors(first: Device, t: seq<Symbol>): nat {
      if first.kind != DType then 0
      else if |t| >= 2 && t[0].kind == Some(Dot) then (if DtypePort(t[1]).None? then 1 else 0)
      else 1
    }

    /** The errors a connection's head counts: the source port's, and one for a dot where
        the arrow belongs. */
    ghost function HeadErrors(first: Device, t: seq<Symbol>): nat {
      PortErrors(first, t)
      + (if |t| > HeadWidth(first, t) && t[HeadWidth(first, t)].kind == Some(Dot) then 1 else 0)
    }

    /** The tokens of a definition after `name =`, the kind name then `;` or `,` and the
        parameters, and the device `d` they make under `id`: the kind the kind name stands
        for, every input unconnected, and the numbers read as its parameters. */
    ghost predicate Defined(id: int, t: seq<Symbol>, d: Device)
      requires |gateInputs| == MaxGateInputs
    {
      && |t| >= 2 && t[0].kind == Some(Name) && t[0].id.Some? && t[0].id.value in kinds
      && d == NewDevice(id, kinds[t[0].id.value], d.params, gateInputs, dtypeInputs)
      && (t[1].kind == Some(Semicolon) || t[1].kind == Some(Comma))
      && (t[1].kind == Some(Semicolon) ==> |t| == 2 && d.params == [])
      && (t[1].kind == Some(Comma) ==> ParamsRead(d.kind, t[2..], d.params))
    }

    /** A definition holds no keyword and exactly one `;`, its last token. */
    lemma {:induction false} DefinedTokens(id: int, t: seq<Symbol>, d: Device)
      requires |gateInputs| == MaxGateInputs && Defined(id, t, d)
      ensures KeywordFree(t) && Semicolons(t) == 1
    {
      var body := t[..|t| - 1];
      assert forall i :: 0 <= i < |body| ==> body[i] == t[i] && body[i].kind != Some(Semicolon);
      NoSemicolons(body);
    }

    /** Where `set_devices` stands after the tokens `t`, the table having grown from `ds0`
        to `ds` under the name table `names`: the ids are unique and named, every device
        added is declared, one per definition read. */
    ghost predicate DevicesSoFar(ds0: seq<Device>, ds: seq<Device>, names: seq<string>, t: seq<Symbol>)
      requires |gateInputs| == MaxGateInputs
    {
      && UniqueIds(ds) && (forall i :: 0 <= i < |ds| ==> 0 <= ds[i].id < |names|)
      && |ds0| <= |ds| && ds[..|ds0|] == ds0
      && (forall i {:trigger Declared(ds[i], names)} :: |ds0| <= i < |ds| ==> Declared(ds[i], names))
      && DevicesUpTo(t, |ds| - |ds0|)
    }

    /** One more definition, `name` then the tokens `more`, appends its device. */
    lemma {:induction false} DefinitionAdded(ds0: seq<Device>, before: seq<Device>, after: seq<Device>,
                          names: seq<string>, grown: seq<string>, prefix: seq<Symbol>, more: seq<Symbol>)
      requires |gateInputs| == MaxGateInputs && names <= grown
      requires DevicesSoFar(ds0, before, names, prefix) && prefix[|prefix| - 1].kind == Some(Name)
      requires |after| == |before| + 1 && after[..|before|] == before
      requires GetDevice(before, Some(after[|before|].id)).None? && Declared(after[|before|], grown)
      requires |more| >= 3 && more[0].kind == Some(Equals) && Defined(after[|before|].id, more[1..|more| - 1], after[|before|])
      ensures DevicesSoFar(ds0, after, grown, prefix + more)
    {
      AppendUnique(before, after);
      DeclaredIsNamed(after[|before|], grown);
      NamedPrefix(before, after, |names|, |grown|);
      DeclaredOneMore(|ds0|, before, after, names, grown);
      DefinedTokens(after[|before|].id, more[1..|more| - 1], after[|before|]);
      EntryTokens(prefix, more, |before| - |ds0|);
      assert after[..|ds0|] == after[..|before|][..|ds0|];
    }

    /** The scanner's `get_symbol` as the parser relies on it: the token is the one `Scan`
        finds in the rest of the text, `read` lists it unless the scan failed, the name table only
        grows, every token other than END OF FILE is progress, and a token's id fits its
        type. */
    method Next() returns (r: Result<Symbol>, ghost read: seq<Symbol>)
      requires Reading()
      modifies scanner`pos, scanner`cur, scanner`line, scanner`position, scanner`names
      ensures Reading() && old(scanner.names) <= scanner.names
      ensures scanner.Agrees(r, Scan(old(scanner.Rest()), old(scanner.names)))
      ensures read == (if r.Ok? then [r.value] else [])
      ensures scanner.Measure() <= old(scanner.Measure())
      ensures r.Ok? && r.value.kind != Some(Eof) ==> scanner.Measure() < old(scanner.Measure())
      ensures r.Ok? ==> IdShape(r.value.kind, r.value.id, scanner.names)
      ensures r.Err? ==> r.error == SyntaxError || r.error == NonTermination
    {
      r := scanner.GetSymbol();
      read := if r.Ok? then [r.value] else [];
    }

    /** `get_symbol` as the section routines use it: `Next` without the lexical detail. */
    method Advance() returns (r: Result<Symbol>, ghost read: seq<Symbol>)
      requires Reading()
      modifies scanner`pos, scanner`cur, scanner`line, scanner`position, scanner`names
      ensures Reading() && old(scanner.names) <= scanner.names
      ensures read == (if r.Ok? then [r.value] else [])
      ensures scanner.Measure() <= old(scanner.Measure())
      ensures r.Ok? && r.value.kind != Some(Eof) ==> scanner.Measure() < old(scanner.Measure())
      ensures r.Ok? ==> IdShape(r.value.kind, r.value.id, scanner.names)
      ensures r.Err? ==> r.error == SyntaxError || r.error == NonTermination
    {
      r, read := Next();
    }

    /** `network_arrow_check`: the token after a connection's source.  An arrow is
        accepted; a dot counts one error and the tokens are skipped through the next arrow;
        a comma or anything else is fatal. */
    method NetworkArrowCheck(firstId: int, arrow: Symbol) returns (r: Result<()>, ghost read: seq<Symbol>)
      requires Reading()
      modifies this`errorCount, scanner`pos, scanner`cur, scanner`line, scanner`position, scanner`names
      ensures Reading() && old(scanner.names) <= scanner.names
      ensures scanner.Measure() <= old(scanner.Measure())
      ensures arrow.kind == Some(Arrow) ==> r.Ok? && errorCount == old(errorCount) && read == [] && unchanged(scanner)
      ensures arrow.kind == Some(Dot) ==> errorCount == old(errorCount) + 1
      ensures arrow.kind == Some(Dot) && r.Ok? ==> PastArrow(read)
      ensures arrow.kind == Some(Dot) && r.Err? ==> ArrowUnreached(read)
      ensures arrow.kind != Some(Arrow) && arrow.kind != Some(Dot) ==>
                r == Err(SyntaxError) && errorCount == old(errorCount) && read == []
      ensures r.Err? ==> r.error in {SyntaxError, TypeError, NonTermination}
    {
      read := [];
      if arrow.kind == Some(Arrow) {
        return Ok(()), read;
      } else if arrow.kind == Some(Dot) {
        errorCount := errorCount + 1;
        r, read := SkipToArrow();
      } else if arrow.kind == Some(Comma) {
        return Raise(InvalidVariable, position), read;
      } else if missing == "MONITOR" {
        return Raise(IncorrectKeyword, position), read;
      } else {
        return Raise(NoConnect, position), read;
      }
    }

    /** The recovery after a dot where the arrow belongs: the output name is read (and
        printed, which fails for a D-type output id without a name), then every token
        through the next arrow is skipped.  The skip never ends once the text is
        exhausted, which is reported as NonTermination. */
    method SkipToArrow() returns (r: Result<()>, ghost read: seq<Symbol>)
      requires Reading()
      modifies scanner`pos, scanner`cur, scanner`line, scanner`position, scanner`names
      ensures Reading() && old(scanner.names) <= scanner.names
      ensures scanner.Measure() <= old(scanner.Measure())
      ensures r.Ok? ==> PastArrow(read)
      ensures r.Err? ==> ArrowUnreached(read)
      ensures (|read| >= 1 && read[0].id.Some? && read[0].id.value in dtypeOutputs
               && NameString(scanner.names, read[0].id.value).None?) ==> r == Err(TypeError) && |read| == 1
      ensures |read| >= 2 && read[|read| - 1].kind == Some(Eof) ==> r == Err(NonTermination)
      ensures r.Err? ==> r.error in {SyntaxError, TypeError, NonTermination}
    {
      ghost var names0, m0 := scanner.names, scanner.Measure();
      var output;
      output, read :- Advance();
      if output.id.Some? && output.id.value in dtypeOutputs && NameString(scanner.names, output.id.value).None? {
        return Err(TypeError), read;
      }
      ghost var skipped: seq<Symbol> := [];
      var a := Symbol(Some(Dot), None, 0, 0);
      while a.kind != Some(Arrow)
        invariant Reading() && names0 <= scanner.names
        invariant scanner.Measure() <= m0
        invariant read == [output] + skipped
        invariant output.id.Some? && output.id.value in dtypeOutputs ==> NameString(scanner.names, output.id.value).Some?
        invariant a.kind != Some(Arrow) ==> Skipping(skipped, Arrow)
        invariant a.kind == Some(Arrow) ==> SkipsThrough(skipped, Arrow)
        decreases scanner.Measure()
      {
        ghost var more;
        a, more :- Advance();
        assert (skipped + more)[..|skipped|] == skipped;
        skipped, read := skipped + more, read + more;
        if a.kind == Some(Eof) {
          return Err(NonTermination), read;
        }
      }
      assert read[1..] == skipped;
      return Ok(()), read;
    }

    /** The part of a connection from where its arrow belongs to its first destination:
        the arrow check, then the token after it. */
    method ArrowPart(firstId: int) returns (r: Result<Symbol>, ghost read: seq<Symbol>)
      requires Reading()
      modifies this`errorCount, scanner`pos, scanner`cur, scanner`line, scanner`position, scanner`names
      ensures Reading() && old(scanner.names) <= scanner.names
      ensures scanner.Measure() <= old(scanner.Measure())
      ensures r.Ok? ==> scanner.Measure() < old(scanner.Measure())
      ensures r.Ok? ==> ArrowRead(read) && r.value == read[|read| - 1]
      ensures r.Err? ==> !ArrowRead(read)
      ensures |read| >= 1 && read[0].kind != Some(Arrow) && read[0].kind != Some(Dot) ==> r == Err(SyntaxError)
      ensures errorCount == old(errorCount) + (if |read| >= 1 && read[0].kind == Some(Dot) then 1 else 0)
      ensures r.Ok? ==> IdShape(r.value.kind, r.value.id, scanner.names)
      ensures r.Err? ==> r.error in {SyntaxError, TypeError, NonTermination}
    {
      ghost var m0 := scanner.Measure();
      var arrow;
      arrow, read :- Advance();
      var checked; ghost var more;
      checked, more := NetworkArrowCheck(firstId, arrow);
      read := read + more;
      ghost var skip := more;
      assert read[1..] == skip;
      if checked.Err? {
        if arrow.kind == Some(Dot) {
          UnreachedNotRead(read);
        }
        return Err(checked.error), read;
      }
      assert scanner.Measure() < m0;
      ghost var recovered := read;
      r, more := Advance();
      read := read + more;
      if r.Err? && arrow.kind == Some(Dot) {
        assert read == recovered;
        PastNotRead(read);
      }
      assert r.Ok? ==> read[1..|read| - 1] == recovered[1..];
    }

    /** The tokens after a destination device: an optional `.port`, then the separator.
        Returns the port id (none without a dot) and the separator token. */
    method ReadPort() returns (r: Result<(Option<int>, Symbol)>, ghost read: seq<Symbol>)
      requires Reading()
      modifies scanner`pos, scanner`cur, scanner`line, scanner`position, scanner`names
      ensures Reading() && old(scanner.names) <= scanner.names
      ensures scanner.Measure() <= old(scanner.Measure())
      ensures r.Ok? && r.value.1.kind != Some(Eof) ==> scanner.Measure() < old(scanner.Measure())
      ensures r.Ok? ==> PortRead(read, r.value.0, r.value.1)
      ensures r.Ok? ==> IdShape(r.value.1.kind, r.value.1.id, scanner.names)
      ensures r.Err? ==> r.error in {SyntaxError, NonTermination}
    {
      var dotCheck;
      dotCheck, read :- Advance();
      if dotCheck.kind == Some(Dot) {
        var p; ghost var more;
        p, more :- Advance();
        read := read + more;
        var commaCheck;
        commaCheck, more :- Advance();
        read := read + more;
        return Ok((p.id, commaCheck)), read;
      }
      return Ok((None, dotCheck)), read;
    }

    /** Offer the connection from the source to `target[.port]` to the network and check
        the answer: the table becomes `Offered` and the count grows by `OfferErrors`, or
        the check crashes. */
    method Offer(firstId: int, firstPort: Option<int>, target: Option<int>, port: Option<int>) returns (r: Result<()>)
      requires GetDevice(devices, Some(firstId)).Some?
      modifies this`errorCount, this`devices
      ensures Rewired(old(devices), devices)
      ensures devices == Offered(old(devices), firstId, firstPort, target, port)
      ensures var check := OfferErrors(old(devices), scanner.names, firstId, firstPort, target, port);
              && (r.Ok? <==> check.Ok?)
              && (r.Ok? ==> errorCount == old(errorCount) + check.value)
              && (r.Err? ==> r.error == check.error && errorCount == old(errorCount))
      ensures r.Err? ==> r.error == AttributeError
    {
      var dst := GetDevice(devices, target);
      var code := connectOutcome(devices, firstId, firstPort, target, port);
      if code == NoError && target.Some? && port.Some? {
        devices := Wire(devices, target.value, port.value, Source(firstId, firstPort));
      }
      RewiredGetDevice(old(devices), devices, Some(firstId));
      var first := GetDevice(devices, Some(firstId));
      if first.value.kind == DType && firstPort.None? {
        return Ok(());
      }
      var delta :- NetworkErrorCheck(code, port, dst, scanner.names, dtypeInputs);
      errorCount := errorCount + delta;
      return Ok(());
    }

    /** One destination of a connection, the part of `connect` before its separator is
        examined: the destination's port is read and the connection offered.  Returns the
        port and the separator. */
    method ConnectOne(firstId: int, firstPort: Option<int>, target: Symbol)
      returns (r: Result<(Option<int>, Symbol)>, ghost read: seq<Symbol>)
      requires Reading() && GetDevice(devices, Some(firstId)).Some?
      modifies this`errorCount, this`line, this`position, this`devices
      modifies scanner`pos, scanner`cur, scanner`line, scanner`position, scanner`names
      ensures Reading() && old(scanner.names) <= scanner.names
      ensures scanner.Measure() <= old(scanner.Measure())
      ensures r.Ok? && r.value.1.kind != Some(Eof) ==> scanner.Measure() < old(scanner.Measure())
      ensures Rewired(old(devices), devices)
      ensures errorCount >= old(errorCount)
      ensures r.Ok? ==> PortRead(read, r.value.0, r.value.1) && IdShape(r.value.1.kind, r.value.1.id, scanner.names)
      ensures r.Ok? ==> devices == Offered(old(devices), firstId, firstPort, target.id, r.value.0)
      ensures r.Ok? ==> var check := OfferErrors(old(devices), scanner.names, firstId, firstPort, target.id, r.value.0);
                        check.Ok? && errorCount == old(errorCount) + check.value
      ensures r.Err? ==> r.error in {SyntaxError, AttributeError, NonTermination}
    {
      line := scanner.line;
      position := scanner.position + 50;
      var step;
      step, read :- ReadPort();
      var (port, separator) := step;
      var _ :- Offer(firstId, firstPort, target.id, port);
      return Ok((port, separator)), read;
    }

    /** The token after a destination: a comma continues with the token after it, the `;`
        ends the list and is returned, a name is NO_COMMA and anything else NO_SEMICOLON. */
    method ListSeparator(separator: Symbol) returns (r: Result<Symbol>, ghost read: seq<Symbol>)
      requires Reading() && IdShape(separator.kind, separator.id, scanner.names)
      modifies scanner`pos, scanner`cur, scanner`line, scanner`position, scanner`names
      ensures Reading() && old(scanner.names) <= scanner.names
      ensures scanner.Measure() <= old(scanner.Measure())
      ensures separator.kind == Some(Comma) ==> read == (if r.Ok? then [r.value] else [])
      ensures separator.kind != Some(Comma) ==> read == []
      ensures separator.kind == Some(Semicolon) ==> r == Ok(separator)
      ensures separator.kind != Some(Comma) && separator.kind != Some(Semicolon) ==> r == Err(SyntaxError)
      ensures r.Ok? ==> IdShape(r.value.kind, r.value.id, scanner.names)
      ensures r.Err? ==> r.error in {SyntaxError, NonTermination}
    {
      read := [];
      if separator.kind == Some(Comma) {
        r, read := Advance();
      } else if separator.kind == Some(Semicolon) {
        r := Ok(separator);
      } else if separator.kind == Some(Name) {
        r := Raise(NoComma, position);
      } else {
        r := Raise(NoSemicolon, position);
      }
    }

    /** One pass of `connect`'s loop: the destination `target` is offered with its port and
        the separator after it examined.  `dests` are the destinations offered before it
        since the table was `ds0` and the count `errors0`; on success `port` is the port read,
        the table and the count take in this offer too, and the next destination or the `;`
        is returned. */
    method ConnectNext(firstId: int, firstPort: Option<int>, target: Symbol,
                       ghost ds0: seq<Device>, ghost dests: seq<Destination>, ghost errors0: int)
      returns (r: Result<Symbol>, ghost port: Option<int>, ghost read: seq<Symbol>)
      requires Reading() && GetDevice(devices, Some(firstId)).Some?
      requires devices == OfferAll(ds0, firstId, firstPort, dests)
      requires ErrorsAll(ds0, scanner.names, firstId, firstPort, dests).Ok?
      requires errorCount == errors0 + ErrorsAll(ds0, scanner.names, firstId, firstPort, dests).value
      modifies this`errorCount, this`line, this`position, this`devices
      modifies scanner`pos, scanner`cur, scanner`line, scanner`position, scanner`names
      ensures Reading() && old(scanner.names) <= scanner.names
      ensures scanner.Measure() <= old(scanner.Measure())
      ensures r.Ok? ==> scanner.Measure() < old(scanner.Measure())
      ensures Rewired(old(devices), devices)
      ensures errorCount >= old(errorCount)
      ensures r.Ok? ==> devices == OfferAll(ds0, firstId, firstPort, dests + [(target.id, port)])
      ensures r.Ok? ==> ErrorsAll(ds0, scanner.names, firstId, firstPort, dests + [(target.id, port)]).Ok?
      ensures r.Ok? ==> errorCount == errors0 + ErrorsAll(ds0, scanner.names, firstId, firstPort, dests + [(target.id, port)]).value
      ensures r.Err? ==> r.error in {SyntaxError, AttributeError, NonTermination}
    {
      port := None;
      var step;
      step, read := ConnectOne(firstId, firstPort, target);
      if step.Err? {
        return Err(step.error), port, read;
      }
      var separator;
      port, separator := step.value.0, step.value.1;
      ErrorsAllGrow(ds0, old(scanner.names), scanner.names, firstId, firstPort, dests);
      OfferAllStep(ds0, firstId, firstPort, dests, (target.id, port));
      ErrorsAllStep(ds0, scanner.names, firstId, firstPort, dests, (target.id, port));
      ghost var mid := scanner.names;
      ghost var more;
      r, more := ListSeparator(separator);
      read := read + more;
      if r.Ok? {
        ErrorsAllGrow(ds0, mid, scanner.names, firstId, firstPort, dests + [(target.id, port)]);
      }
    }

    /** `connect`: the destinations of one connection, up to its `;`.  The destinations
        `dests` are offered in turn: the table becomes `OfferAll` of them and the count grows
        by `ErrorsAll`.  A name where `,` or `;` belongs is fatal with NO_COMMA, any other
        token with NO_SEMICOLON.  On success the token after the `;` is returned. */
    method Connect(firstId: int, firstPort: Option<int>, next: Symbol)
      returns (r: Result<Symbol>, ghost dests: seq<Destination>, ghost read: seq<Symbol>)
      requires Reading() && GetDevice(devices, Some(firstId)).Some?
      modifies this`errorCount, this`line, this`position, this`devices
      modifies scanner`pos, scanner`cur, scanner`line, scanner`position, scanner`names
      ensures Reading() && old(scanner.names) <= scanner.names
      ensures scanner.Measure() <= old(scanner.Measure())
      ensures Rewired(old(devices), devices)
      ensures errorCount >= old(errorCount)
      ensures next.kind == Some(Semicolon) ==> dests == [] && read == (if r.Ok? then [r.value] else [])
      ensures |dests| >= 1 ==> dests[0].0 == next.id
      ensures r.Ok? && next.kind != Some(Semicolon) ==> |dests| >= 1
      ensures r.Ok? ==> devices == OfferAll(old(devices), firstId, firstPort, dests)
      ensures r.Ok? ==> ErrorsAll(old(devices), scanner.names, firstId, firstPort, dests).Ok?
      ensures r.Ok? ==> errorCount == old(errorCount) + ErrorsAll(old(devices), scanner.names, firstId, firstPort, dests).value
      ensures r.Ok? ==> |read| >= 1 && r.value == read[|read| - 1]
      ensures r.Ok? ==> IdShape(r.value.kind, r.value.id, scanner.names)
      ensures r.Err? ==> r.error in {SyntaxError, AttributeError, NonTermination}
    {
      ghost var names0, m0, devices0, errors0 := scanner.names, scanner.Measure(), devices, errorCount;
      dests, read := [], [];
      var target := next;
      while target.kind != Some(Semicolon)
        invariant Reading() && names0 <= scanner.names
        invariant scanner.Measure() <= m0
        invariant Rewired(devices0, devices) && GetDevice(devices, Some(firstId)).Some?
        invariant errorCount >= errors0
        invariant devices == OfferAll(devices0, firstId, firstPort, dests)
        invariant ErrorsAll(devices0, scanner.names, firstId, firstPort, dests).Ok?
        invariant errorCount == errors0 + ErrorsAll(devices0, scanner.names, firstId, firstPort, dests).value
        invariant dests == [] ==> target == next && read == []
        invariant next.kind == Some(Semicolon) ==> dests == []
        invariant |dests| >= 1 ==> dests[0].0 == next.id
        decreases scanner.Measure()
      {
        ghost var before := devices;
        var step; ghost var port, more;
        step, port, more := ConnectNext(firstId, firstPort, target, devices0, dests, errors0);
        read := read + more;
        RewiredTransitive(devices0, before, devices);
        RewiredGetDevice(before, devices, Some(firstId));
        if step.Err? {
          return Err(step.error), dests, read;
        }
        dests := dests + [(target.id, port)];
        target := step.value;
      }
      line := scanner.line;
      ghost var namesEnd := scanner.names;
      ghost var more;
      r, more := Advance();
      read := read + more;
      ErrorsAllGrow(devices0, namesEnd, scanner.names, firstId, firstPort, dests);
    }

    /** The parameters after `kind ,`: a number the kind accepts, for SIGGEN a second
        `, m`, then the closing `;`. */
    method ReadParameters(kind: Kind) returns (r: Result<seq<int>>, ghost read: seq<Symbol>)
      requires Reading()
      modifies this`line, scanner`pos, scanner`cur, scanner`line, scanner`position, scanner`names
      ensures Reading() && old(scanner.names) <= scanner.names
      ensures scanner.Measure() <= old(scanner.Measure())
      ensures r.Ok? ==> scanner.Measure() < old(scanner.Measure())
      ensures r.Ok? ==> ParamsRead(kind, read, r.value) && ParamAcceptable(kind, r.value[0])
      ensures |read| >= 1 && read[0].kind != Some(Number) ==> r == Err(SyntaxError) && |read| == 1
      ensures |read| >= 1 && read[0].kind == Some(Number) && read[0].id.Some?
              && DeviceCheck(kind, read[0].id.value).Some? ==>
                r == Err(DeviceCheck(kind, read[0].id.value).value) && |read| == 1
      ensures kind == Siggen && |read| >= 2 && read[1].kind != Some(Comma) ==> r == Err(SyntaxError)
      ensures kind == Siggen && |read| >= 3 && read[2].kind != Some(Number) ==> r == Err(SyntaxError)
      ensures |read| == (if kind == Siggen then 4 else 2) && read[|read| - 1].kind != Some(Semicolon) ==>
                r == Err(SyntaxError)
      ensures r.Err? ==> r.error in {SyntaxError, ValueError, NonTermination}
    {
      var property;
      property, read :- Advance();
      if property.kind != Some(Number) {
        return Err(DisplayError(NoNumber).value), read;
      }
      var n := property.id.value;
      var bad := DeviceCheck(kind, n);
      if bad.Some? {
        return Err(bad.value), read;
      }
      var params := [n];
      ghost var more;
      if kind == Siggen {
        line := scanner.line;
        var comma;
        comma, more :- Advance();
        read := read + more;
        if comma.kind != Some(Comma) {
          return Raise(NoComma, position), read;
        }
        var property2;
        property2, more :- Advance();
        read := read + more;
        if property2.kind != Some(Number) {
          return Err(DisplayError(NoNumber).value), read;
        }
        params := [n, property2.id.value];
      }
      var semicolon;
      semicolon, more :- Advance();
      read := read + more;
      if semicolon.kind != Some(Semicolon) {
        return Err(DisplayError(NoSemicolon).value), read;
      }
      return Ok(params), read;
    }

    /** The kind and parameters after `name =`: the kind name, then `;` or `, n` (and for
        SIGGEN a second `, m`) and `;`.  Returns the device to make, or the error. */
    method ReadDefinition(id: int) returns (r: Result<Device>, ghost read: seq<Symbol>)
      requires Reading()
      modifies this`line, scanner`pos, scanner`cur, scanner`line, scanner`position, scanner`names
      ensures Reading() && old(scanner.names) <= scanner.names
      ensures scanner.Measure() <= old(scanner.Measure())
      ensures r.Ok? ==> scanner.Measure() < old(scanner.Measure())
      ensures r.Ok? ==> Defined(id, read, r.value)
      ensures r.Ok? ==> r.value.id == id && r.value.kind in kinds.Values && |r.value.params| <= 2
      ensures r.Ok? && r.value.params == [] ==> r.value.kind in {Xor, DType, Siggen}
      ensures r.Ok? && |r.value.params| == 1 ==> r.value.kind != Siggen && ParamAcceptable(r.value.kind, r.value.params[0])
      ensures r.Ok? && |r.value.params| == 2 ==> r.value.kind == Siggen
      ensures |read| >= 1 && read[0].kind != Some(Name) ==> r == Err(SyntaxError)
      ensures |read| >= 1 && read[0].kind == Some(Name) && (read[0].id.None? || read[0].id.value !in kinds) ==>
                r == Err(SyntaxError)
      ensures (|read| >= 2 && read[0].id.Some? && read[0].id.value in kinds && read[1].kind == Some(Semicolon)
               && kinds[read[0].id.value] in {Clock, Switch, And, Or, Nand, Nor}) ==> r == Err(SyntaxError)
      ensures |read| >= 2 && read[1].kind != Some(Comma) && read[1].kind != Some(Semicolon) ==> r == Err(SyntaxError)
      ensures r.Err? ==> r.error in {SyntaxError, ValueError, NonTermination}
    {
      var kindName;
      kindName, read :- Advance();
      if kindName.kind != Some(Name) {
        return Raise(NoName, position), read;
      }
      if kindName.id.value !in kinds {
        return Err(SyntaxError), read;
      }
      var kind := kinds[kindName.id.value];
      line := scanner.line;
      var separator; ghost var more;
      separator, more :- Advance();
      read := read + more;
      if separator.kind == Some(Comma) {
        var params;
        params, more := ReadParameters(kind);
        read := read + more;
        if params.Err? {
          return Err(params.error), read;
        }
        assert read[2..] == more;
        return Ok(NewDevice(id, kind, params.value, gateInputs, dtypeInputs)), read;
      } else if separator.kind == Some(Semicolon) {
        if kind in {Clock, Switch, And, Or, Nand, Nor} {
          return Err(SyntaxError), read;
        }
        return Ok(NewDevice(id, kind, [], gateInputs, dtypeInputs)), read;
      } else {
        return Err(DisplayError(NoSemicolon).value), read;
      }
    }

    /** One device definition `name = kind[, n[, m]];` whose name token is `name`.  The
        name must be a NAME, not reserved and not yet a device; then `=` must follow.  The
        device the definition describes is appended, and the token after the definition
        returned. */
    method DefineDevice(name: Symbol) returns (r: Result<Symbol>, ghost read: seq<Symbol>)
      requires Reading() && IdShape(name.kind, name.id, scanner.names)
      modifies this`line, this`devices
      modifies scanner`pos, scanner`cur, scanner`line, scanner`position, scanner`names
      ensures Reading() && old(scanner.names) <= scanner.names
      ensures scanner.Measure() <= old(scanner.Measure())
      ensures name.kind != Some(Name) ==> r == Err(SyntaxError) && read == []
      ensures name.kind == Some(Name) && Reserved(old(scanner.names)[name.id.value]) ==> r == Err(SyntaxError) && read == []
      ensures name.kind == Some(Name) && GetDevice(old(devices), name.id).Some? ==> r == Err(SyntaxError) && read == []
      ensures |read| >= 1 && read[0].kind != Some(Equals) ==> r == Err(SyntaxError)
      ensures r.Ok? ==> && scanner.Measure() < old(scanner.Measure())
                        && name.kind == Some(Name) && GetDevice(old(devices), name.id).None?
                        && |devices| == |old(devices)| + 1 && devices[..|old(devices)|] == old(devices)
                        && devices[|old(devices)|].id == name.id.value
                        && Declared(devices[|old(devices)|], scanner.names)
                        && IdShape(r.value.kind, r.value.id, scanner.names)
      ensures r.Ok? ==> && |read| >= 3 && read[0].kind == Some(Equals) && r.value == read[|read| - 1]
                        && Defined(name.id.value, read[1..|read| - 1], devices[|old(devices)|])
      ensures r.Err? ==> r.error in {SyntaxError, ValueError, NonTermination}
    {
      read := [];
      if name.kind != Some(Name) {
        return Raise(NoName, position), read;
      }
      var id := name.id.value;
      if Reserved(scanner.names[id]) {
        return Err(SyntaxError), read;
      }
      if GetDevice(devices, name.id).Some? {
        if missing == "CONNECT" {
          return Raise(IncorrectKeyword, position), read;
        }
        return Err(SyntaxError), read;
      }
      var equal;
      equal, read :- Advance();
      if equal.kind != Some(Equals) {
        if missing == "CONNECT" {
          return Raise(IncorrectKeyword, position), read;
        }
        return Raise(NoEqual, position), read;
      }
      var d; ghost var more;
      d, more := ReadDefinition(id);
      read := read + more;
      if d.Err? {
        return Err(d.error), read;
      }
      devices := devices + [d.value];
      line := scanner.line;
      ghost var definition := more;
      r, more := Advance();
      read := read + more;
      assert r.Ok? ==> read[1..|read| - 1] == definition;
    }

    /** `set_devices`: device definitions until a keyword follows one.  Each definition
        ends with its one `;` and appends one device, so the table grows by the number of
        `;` read; the keyword is returned. */
    method SetDevices() returns (r: Result<Symbol>, ghost read: seq<Symbol>)
      requires Reading() && UniqueIds(devices) && Named()
      modifies this`line, this`devices
      modifies scanner`pos, scanner`cur, scanner`line, scanner`position, scanner`names
      ensures Reading() && old(scanner.names) <= scanner.names
      ensures r.Ok? ==> UniqueIds(devices) && Named()
      ensures r.Ok? ==> |old(devices)| <= |devices| && devices[..|old(devices)|] == old(devices)
      ensures r.Ok? ==> forall i {:trigger Declared(devices[i], scanner.names)} :: |old(devices)| <= i < |devices| ==> Declared(devices[i], scanner.names)
      ensures r.Ok? ==> r.value.kind == Some(Keyword) && IdShape(r.value.kind, r.value.id, scanner.names)
      ensures r.Ok? ==> |read| >= 1 && r.value == read[|read| - 1] && KeywordFree(read[..|read| - 1])
      ensures r.Ok? ==> |devices| == |old(devices)| + Semicolons(read)
      ensures |read| >= 1 && read[0].kind != Some(Name) ==> r == Err(SyntaxError)
      ensures r.Err? ==> r.error in {SyntaxError, ValueError, NonTermination}
    {
      ghost var devices0, names0 := devices, scanner.names;
      var name;
      name, read :- Advance();
      assert devices[..|devices0|] == devices0;
      while true
        invariant Reading() && names0 <= scanner.names
        invariant DevicesSoFar(devices0, devices, scanner.names, read)
        invariant IdShape(name.kind, name.id, scanner.names) && name == read[|read| - 1]
        decreases scanner.Measure()
      {
        ghost var before, names, prefix := devices, scanner.names, read;
        var next; ghost var more;
        next, more := DefineDevice(name);
        read := read + more;
        if next.Err? {
          return Err(next.error), read;
        }
        DefinitionAdded(devices0, before, devices, names, scanner.names, prefix, more);
        if next.value.kind == Some(Keyword) {
          DevicesDone(read, |devices| - |devices0|);
          return Ok(next.value), read;
        }
        name := next.value;
      }
    }

    /** The recovery in `set_connections` after a source that is not a device: the name
        is reported (printing it fails for a token without a name string), one error is
        counted, and the tokens are skipped through the next `;`; the token after it is
        returned.  The skip never ends once the text is exhausted. */
    method SkipConnection(source: Symbol) returns (r: Result<Symbol>, ghost read: seq<Symbol>)
      requires Reading() && IdShape(source.kind, source.id, scanner.names)
      modifies this`errorCount, scanner`pos, scanner`cur, scanner`line, scanner`position, scanner`names
      ensures Reading() && old(scanner.names) <= scanner.names
      ensures scanner.Measure() <= old(scanner.Measure())
      ensures r.Ok? ==> scanner.Measure() < old(scanner.Measure())
      ensures r.Ok? ==> IdShape(r.value.kind, r.value.id, scanner.names)
      ensures source.id.None? || NameString(old(scanner.names), source.id.value).None? ==>
                r == Err(TypeError) && errorCount == old(errorCount) && read == []
      ensures errorCount >= old(errorCount)
      ensures r.Ok? ==> errorCount == old(errorCount) + 1
      ensures r.Ok? ==> |read| >= 2 && SkipsThrough(read[..|read| - 1], Semicolon) && r.value == read[|read| - 1]
      ensures |read| >= 1 && read[|read| - 1].kind == Some(Eof) && Skipping(read[..|read| - 1], Semicolon) ==>
                r == Err(NonTermination)
      ensures r.Err? ==> r.error in {SyntaxError, TypeError, NonTermination}
    {
      ghost var names0, m0, errors0 := scanner.names, scanner.Measure(), errorCount;
      read := [];
      if source.id.None? || NameString(scanner.names, source.id.value).None? {
        return Err(TypeError), read;
      }
      errorCount := errorCount + 1;
      var s := source;
      while s.kind != Some(Semicolon)
        invariant Reading() && names0 <= scanner.names
        invariant scanner.Measure() <= m0
        invariant s.kind == Some(Semicolon) ==> scanner.Measure() < m0 && SkipsThrough(read, Semicolon)
        invariant s.kind != Some(Semicolon) ==> Skipping(read, Semicolon)
        invariant errorCount == errors0 + 1
        decreases scanner.Measure()
      {
        ghost var more;
        s, more :- Advance();
        assert (read + more)[..|read|] == read;
        read := read + more;
        if s.kind == Some(Eof) {
          return Err(NonTermination), read;
        }
      }
      ghost var skipped := read;
      ghost var more;
      r, more := Advance();
      read := read + more;
      assert r.Ok? ==> read[..|read| - 1] == skipped;
    }

    /** The port after a D-type source: `.Q` or `.QBAR` binds that output; another port
        counts one error and binds no output; a missing dot counts one error and binds
        nothing, so the binding `bound` already in force stays. */
    method DtypeSourcePort(first: Device, bound: Option<Option<int>>)
      returns (r: Result<Option<Option<int>>>, ghost read: seq<Symbol>)
      requires Reading() && first.kind == DType
      requires bound.Some? && bound.value.Some? ==> bound.value.value in dtypeOutputs
      modifies this`errorCount, scanner`pos, scanner`cur, scanner`line, scanner`position, scanner`names
      ensures Reading() && old(scanner.names) <= scanner.names
      ensures scanner.Measure() <= old(scanner.Measure())
      ensures r.Ok? ==> |read| == HeadWidth(first, read) && r.value == Binding(read, bound)
      ensures r.Ok? ==> errorCount == old(errorCount) + PortErrors(first, read)
      ensures r.Err? ==> errorCount == old(errorCount)
      ensures r.Ok? && r.value.Some? && r.value.value.Some? ==> r.value.value.value in dtypeOutputs
      ensures r.Err? ==> read == [] || (|read| == 1 && read[0].kind == Some(Dot))
      ensures r.Err? ==> r.error in {SyntaxError, NonTermination}
    {
      var dot;
      dot, read :- Advance();
      if dot.kind == Some(Dot) {
        var port; ghost var more;
        port, more :- Advance();
        read := read + more;
        if port.id.None? || port.id.value !in dtypeOutputs {
          errorCount := errorCount + NetworkErrorCheck(PortAbsent, None, Some(first), scanner.names, dtypeInputs).value;
          return Ok(Some(None)), read;
        }
        return Ok(Some(port.id)), read;
      }
      errorCount := errorCount + NetworkErrorCheck(Unlisted, None, None, scanner.names, dtypeInputs).value;
      return Ok(bound), read;
    }

    /** The head of a connection statement: the source port if `first` is a D-type, then
        the arrow part.  Returns the first destination token and the D-type source port
        binding as it now stands. */
    method ConnectionHead(first: Device, sourcePort: Option<Option<int>>)
      returns (r: Result<(Symbol, Option<Option<int>>)>, ghost read: seq<Symbol>)
      requires Reading()
      requires sourcePort.Some? && sourcePort.value.Some? ==> sourcePort.value.value in dtypeOutputs
      modifies this`errorCount, scanner`pos, scanner`cur, scanner`line, scanner`position, scanner`names
      ensures Reading() && old(scanner.names) <= scanner.names
      ensures scanner.Measure() <= old(scanner.Measure())
      ensures r.Ok? ==> scanner.Measure() < old(scanner.Measure())
      ensures r.Ok? ==> HeadRead(first, read) && r.value.0 == read[|read| - 1]
      ensures r.Err? ==> !HeadRead(first, read)
      ensures r.Ok? ==> r.value.1 == (if first.kind == DType then Binding(read, sourcePort) else sourcePort)
      ensures r.Ok? ==> errorCount == old(errorCount) + HeadErrors(first, read)
      ensures errorCount >= old(errorCount)
      ensures (|read| > HeadWidth(first, read) && read[HeadWidth(first, read)].kind != Some(Arrow)
               && read[HeadWidth(first, read)].kind != Some(Dot)) ==> r == Err(SyntaxError)
      ensures r.Ok? ==> IdShape(r.value.0.kind, r.value.0.id, scanner.names)
      ensures r.Ok? && r.value.1.Some? && r.value.1.value.Some? ==> r.value.1.value.value in dtypeOutputs
      ensures r.Err? ==> r.error in {SyntaxError, TypeError, NonTermination}
    {
      var port := sourcePort;
      read := [];
      if first.kind == DType {
        port, read :- DtypeSourcePort(first, sourcePort);
      }
      ghost var head := read;
      var next; ghost var more;
      next, more := ArrowPart(first.id);
      read := read + more;
      assert read[|head|..] == more;
      assert |read| > |head| ==> read[|head|] == more[0];
      if next.Err? {
        return Err(next.error), read;
      }
      return Ok((next.value, port)), read;
    }

    /** The source port a connection from `first` is offered with: the binding in force
        for a D-type, none for any other device. */
    function SourcePort(first: Device, bound: Option<Option<int>>): Option<int> {
      if first.kind == DType && bound.Some? then bound.value else None
    }

    /** The rest of a connection statement whose source is the device `first`, after its
        head left the D-type source port binding `port`: a D-type whose port was never
        bound is an unbound local; otherwise the destinations `dests`, read as `rest`, are
        offered with the source port `SourcePort(first, port)`.  Returns the token after
        the `;`. */
    method ConnectSource(first: Device, port: Option<Option<int>>, next: Symbol)
      returns (r: Result<Symbol>, ghost dests: seq<Destination>, ghost rest: seq<Symbol>)
      requires Reading() && GetDevice(devices, Some(first.id)).Some?
      modifies this`errorCount, this`line, this`position, this`devices
      modifies scanner`pos, scanner`cur, scanner`line, scanner`position, scanner`names
      ensures Reading() && old(scanner.names) <= scanner.names
      ensures scanner.Measure() <= old(scanner.Measure())
      ensures Rewired(old(devices), devices)
      ensures errorCount >= old(errorCount)
      ensures r == Err(UnboundLocalError) <==> first.kind == DType && port.None?
      ensures r.Ok? ==> devices == OfferAll(old(devices), first.id, SourcePort(first, port), dests)
      ensures r.Ok? ==> ErrorsAll(old(devices), scanner.names, first.id, SourcePort(first, port), dests).Ok?
      ensures r.Ok? ==> errorCount == old(errorCount)
                                      + ErrorsAll(old(devices), scanner.names, first.id, SourcePort(first, port), dests).value
      ensures r.Ok? ==> |rest| >= 1 && r.value == rest[|rest| - 1]
      ensures r.Ok? ==> IdShape(r.value.kind, r.value.id, scanner.names)
      ensures r.Err? ==> r.error in {SyntaxError, AttributeError, UnboundLocalError, NonTermination}
    {
      dests, rest := [], [];
      if first.kind == DType && port.None? {
        return Err(UnboundLocalError), dests, rest;
      }
      r, dests, rest := Connect(first.id, SourcePort(first, port), next);
    }

    /** `set_connections`: one connection per statement `source[.port] -> destinations;`
        until a keyword.  Returns that keyword. */
    method SetConnections() returns (r: Result<Symbol>)
      requires Reading()
      modifies this`errorCount, this`line, this`position, this`devices
      modifies scanner`pos, scanner`cur, scanner`line, scanner`position, scanner`names
      ensures Reading() && old(scanner.names) <= scanner.names
      ensures Rewired(old(devices), devices)
      ensures errorCount >= old(errorCount)
      ensures r.Ok? ==> r.value.kind == Some(Keyword) && IdShape(r.value.kind, r.value.id, scanner.names)
      ensures r.Err? ==> r.error in {SyntaxError, AttributeError, TypeError, UnboundLocalError, NonTermination}
    {
      ghost var names0, devices0, errors0 := scanner.names, devices, errorCount;
      ghost var more;
      var source;
      source, more :- Advance();
      // The D-type source port is a local of the whole loop: None until first bound.
      var sourcePort: Option<Option<int>> := None;
      while source.kind != Some(Keyword)
        invariant Reading() && names0 <= scanner.names
        invariant Rewired(devices0, devices)
        invariant errorCount >= errors0
        invariant IdShape(source.kind, source.id, scanner.names)
        invariant sourcePort.Some? && sourcePort.value.Some? ==> sourcePort.value.value in dtypeOutputs
        decreases scanner.Measure()
      {
        ghost var before := devices;
        var first := GetDevice(devices, source.id);
        if first.None? {
          source, more :- SkipConnection(source);
        } else {
          var start; ghost var head, dests;
          start, head :- ConnectionHead(first.value, sourcePort);
          sourcePort := start.1;
          source, dests, more :- ConnectSource(first.value, sourcePort, start.0);
          RewiredTransitive(devices0, before, devices);
        }
      }
      return Ok(source);
    }

    /** `make_monitor` for a device other than a D-type (or an unknown one): a dot after
        the name counts one error; the monitor module's answer for the device's single
        output is checked, and a monitor it accepts is recorded; then up to two more
        tokens are read looking for the `;`, and without one the call fails with
        NO_SEMICOLON. */
    method MakeMonitor(device: Option<int>) returns (r: Result<()>, ghost read: seq<Symbol>)
      requires Reading()
      modifies this`errorCount, this`line, this`monitored
      modifies scanner`pos, scanner`cur, scanner`line, scanner`position, scanner`names
      ensures Reading() && old(scanner.names) <= scanner.names
      ensures scanner.Measure() <= old(scanner.Measure())
      ensures old(monitored) <= monitored && errorCount >= old(errorCount)
      ensures read == [] ==> r.Err? && errorCount == old(errorCount) && monitored == old(monitored)
      ensures read != [] ==>
                var code := monitorOutcome(old(monitored), device, None);
                && monitored == old(monitored) + (if code == MonNoError then [(device, None)] else [])
                && errorCount == old(errorCount) + (if read[0].kind == Some(Dot) then 1 else 0) + MonitorErrorCheck(code)
      ensures r.Ok? ==> |read| <= 3 && EndsAtSemicolon(read)
      ensures |read| == 3 && read[2].kind != Some(Semicolon) ==> r == Err(SyntaxError)
      ensures r.Err? ==> r.error in {SyntaxError, NonTermination}
    {
      ghost var names0, m0 := scanner.names, scanner.Measure();
      var check;
      check, read :- Advance();
      ghost var first := check;
      if check.kind == Some(Dot) {
        errorCount := errorCount + MonitorErrorCheck(NotOutput);
      }
      var code := monitorOutcome(monitored, device, None);
      if code == MonNoError {
        monitored := monitored + [(device, None)];
      }
      errorCount := errorCount + MonitorErrorCheck(code);
      line := scanner.line;
      ghost var counted, recorded := errorCount, monitored;
      for n := 0 to 3
        invariant Reading() && names0 <= scanner.names
        invariant scanner.Measure() <= m0
        invariant errorCount == counted && monitored == recorded
        invariant 1 <= |read| <= 3 && read[0] == first && check == read[|read| - 1]
        invariant forall i :: 0 <= i < |read| - 1 ==> read[i].kind != Some(Semicolon)
        invariant n < 3 ==> |read| == n + 1
        invariant n == 3 ==> check.kind == Some(Semicolon)
      {
        if check.kind == Some(Semicolon) {
          break;
        } else if n < 2 {
          ghost var more;
          check, more :- Advance();
          read := read + more;
        } else {
          return Raise(NoSemicolon, position), read;
        }
      }
      return Ok(()), read;
    }

    /** `make_monitor_dtype`: a D-type must be followed by `.output`.  Without the dot
        one error is counted and the output, never read, is used unbound.  An output
        that is not Q or QBAR counts one error; otherwise the monitor module's answer is
        checked and a monitor it accepts is recorded.  A `;` must follow. */
    method MakeMonitorDtype(device: int) returns (r: Result<()>, ghost read: seq<Symbol>)
      requires Reading()
      modifies this`errorCount, this`line, this`monitored
      modifies scanner`pos, scanner`cur, scanner`line, scanner`position, scanner`names
      ensures Reading() && old(scanner.names) <= scanner.names
      ensures scanner.Measure() <= old(scanner.Measure())
      ensures old(monitored) <= monitored && errorCount >= old(errorCount)
      ensures |read| <= 1 && (read == [] || read[0].kind == Some(Dot)) ==>
                r.Err? && errorCount == old(errorCount) && monitored == old(monitored)
      ensures |read| >= 1 && read[0].kind != Some(Dot) ==>
                r == Err(UnboundLocalError) && |read| == 1
                && errorCount == old(errorCount) + 1 && monitored == old(monitored)
      ensures |read| >= 2 ==>
                var port := read[1].id;
                var code := monitorOutcome(old(monitored), Some(device), port);
                && read[0].kind == Some(Dot)
                && (port.Some? && port.value in dtypeOutputs ==>
                      && monitored == old(monitored) + (if code == MonNoError then [(Some(device), port)] else [])
                      && errorCount == old(errorCount) + MonitorErrorCheck(code))
                && (!(port.Some? && port.value in dtypeOutputs) ==>
                      monitored == old(monitored) && errorCount == old(errorCount) + 1)
      ensures |read| == 3 && read[2].kind != Some(Semicolon) ==> r == Err(SyntaxError)
      ensures r.Ok? ==> |read| == 3 && read[2].kind == Some(Semicolon)
      ensures r.Err? ==> r.error in {SyntaxError, NonTermination, UnboundLocalError}
    {
      var dot;
      dot, read :- Advance();
      if dot.kind != Some(Dot) {
        errorCount := errorCount + MonitorErrorCheck(NotOutput);
        return Err(UnboundLocalError), read;
      }
      var output; ghost var more;
      output, more :- Advance();
      read := read + more;
      if output.id.Some? && output.id.value in dtypeOutputs {
        var code := monitorOutcome(monitored, Some(device), output.id);
        if code == MonNoError {
          monitored := monitored + [(Some(device), output.id)];
        }
        errorCount := errorCount + MonitorErrorCheck(code);
      } else {
        errorCount := errorCount + MonitorErrorCheck(NotOutput);
      }
      line := scanner.line;
      var semicolon;
      semicolon, more :- Advance();
      read := read + more;
      if semicolon.kind != Some(Semicolon) {
        return Raise(NoSemicolon, position), read;
      }
      return Ok(()), read;
    }

    /** `set_monitor`: one monitor statement per NAME token; at the first other token the
        ground switch is made, the open D-type inputs are tied to it and the floating
        inputs are counted, and that token is returned. */
    method SetMonitor() returns (r: Result<Symbol>)
      requires Reading()
      modifies this`errorCount, this`line, this`devices, this`monitored
      modifies scanner`pos, scanner`cur, scanner`line, scanner`position, scanner`names
      ensures Reading() && old(scanner.names) <= scanner.names
      ensures r.Ok? ==> old(monitored) <= monitored
      ensures r.Ok? ==> r.value.kind != Some(Name) && IdShape(r.value.kind, r.value.id, scanner.names)
      ensures r.Ok? ==> devices == GroundDtypes(old(devices) + [NewDevice(|scanner.names|, Switch, [0], gateInputs, dtypeInputs)],
                                                |scanner.names|)
      ensures r.Ok? ==> errorCount >= old(errorCount) + FloatingCount(devices, |devices|)
      ensures r.Err? ==> r.error in {SyntaxError, UnboundLocalError, TypeError, NonTermination}
    {
      var first; ghost var more;
      first, more :- Advance();
      var name :- MonitorPoints(first);
      var gnd := SetGround();
      SetDtypeInputValues(gnd);
      var _ :- CheckConnection();
      return Ok(name);
    }

    /** The loop of `set_monitor`: one monitor statement per NAME token, from `first` on;
        returns the first token that is not a NAME. */
    method MonitorPoints(first: Symbol) returns (r: Result<Symbol>)
      requires Reading() && IdShape(first.kind, first.id, scanner.names)
      modifies this`errorCount, this`line, this`monitored
      modifies scanner`pos, scanner`cur, scanner`line, scanner`position, scanner`names
      ensures Reading() && old(scanner.names) <= scanner.names
      ensures errorCount >= old(errorCount) && old(monitored) <= monitored
      ensures r.Ok? ==> r.value.kind != Some(Name) && IdShape(r.value.kind, r.value.id, scanner.names)
      ensures r.Err? ==> r.error in {SyntaxError, UnboundLocalError, NonTermination}
    {
      ghost var names0, errors0, monitored0 := scanner.names, errorCount, monitored;
      var name := first;
      while name.kind == Some(Name)
        invariant Reading() && names0 <= scanner.names
        invariant errorCount >= errors0
        invariant monitored0 <= monitored
        invariant IdShape(name.kind, name.id, scanner.names)
        decreases scanner.Measure(), if name.kind == Some(Name) then 1 else 0
      {
        var device := GetDevice(devices, name.id);
        var done: (); ghost var more;
        if device.None? || device.value.kind != DType {
          done, more :- MakeMonitor(name.id);
        } else {
          done, more :- MakeMonitorDtype(name.id.value);
        }
        line := scanner.line;
        name, more :- Advance();
      }
      return Ok(name);
    }

    /** The start of `parse_network` after the pre-scan: the start-up read yields a
        token without a type, so the first token is read again. */
    method FirstToken() returns (r: Result<Symbol>)
      requires Valid() && scanner.Fresh()
      modifies scanner`pos, scanner`cur, scanner`line, scanner`position, scanner`names
      ensures Reading() && old(scanner.names) <= scanner.names
      ensures var first := Scan(scanner.input, old(scanner.names));
              && (first.LexError? ==> r == Err(first.error))
              && (first.Lexed? ==> r.Ok? && r.value.kind == first.kind && r.value.id == first.id)
      ensures r.Err? ==> r.error == SyntaxError || r.error == NonTermination
    {
      var keyword := scanner.GetSymbol();
      if keyword.Ok? && keyword.value.kind.None? {
        keyword := scanner.GetSymbol();
      }
      r := keyword;
    }

    /** How `parse_network` tests the keywords that close the DEVICES and CONNECT
        sections, `ends[0]` and `ends[1]`: each is the keyword the section stopped at, and
        each must carry the next section's id or the parse fails with a SyntaxError
        (`raised`) and stops there.  `ends[2]` is then the token after the MONITOR
        section. */
    ghost predicate SectionsClosed(ends: seq<Symbol>, raised: bool) {
      && |ends| <= 3
      && (|ends| >= 1 ==> ends[0].kind == Some(Keyword))
      && (|ends| >= 1 && ends[0].id != Some(scanner.connectId) ==> raised && |ends| == 1)
      && (|ends| >= 2 ==> ends[0].id == Some(scanner.connectId) && ends[1].kind == Some(Keyword))
      && (|ends| >= 2 && ends[1].id != Some(scanner.monitorId) ==> raised && |ends| == 2)
      && (|ends| == 3 ==> ends[1].id == Some(scanner.monitorId) && ends[2].kind != Some(Name))
    }

    /** The three sections once DEVICES has been read; `ends` are the tokens each stopped
        at.  Returns the token after the MONITOR section.  On success the ids are unique,
        every D-type input is connected and the error count covers every floating
        input. */
    method Sections() returns (r: Result<Symbol>, ghost ends: seq<Symbol>)
      requires Reading() && devices == []
      modifies this`errorCount, this`line, this`position, this`devices, this`monitored
      modifies scanner`pos, scanner`cur, scanner`line, scanner`position, scanner`names
      ensures Reading()
      ensures SectionsClosed(ends, r == Err(SyntaxError))
      ensures r.Ok? <==> |ends| == 3
      ensures r.Ok? ==> r.value == ends[2]
      ensures r.Ok? ==> UniqueIds(devices)
      ensures r.Ok? ==> forall i, k :: 0 <= i < |devices| && devices[i].kind == DType && 0 <= k < |devices[i].inputs| ==>
                          devices[i].inputs[k].source.Some?
      ensures r.Ok? ==> errorCount >= FloatingCount(devices, |devices|)
      ensures r.Err? ==> r.error in {SyntaxError, ValueError, AttributeError, TypeError, UnboundLocalError, NonTermination}
    {
      ends := [];
      var k; ghost var read;
      k, read :- SetDevices();
      ends := [k];
      ghost var namesAfterDevices := scanner.names;
      if k.id != Some(scanner.connectId) {
        return Raise(IncorrectKeyword, position), ends;
      }
      k :- SetConnections();
      ends := ends + [k];
      if k.id != Some(scanner.monitorId) {
        return Raise(IncorrectKeyword, position), ends;
      }
      ghost var connected := devices;
      assert forall i :: 0 <= i < |connected| ==> connected[i].id < |namesAfterDevices|;
      k :- SetMonitor();
      ends := ends + [k];
      var ground := NewDevice(|scanner.names|, Switch, [0], gateInputs, dtypeInputs);
      GroundedUnique(connected, ground, |scanner.names|);
      GroundDtypesEffect(connected + [ground], |scanner.names|);
      return Ok(k), ends;
    }

    /** `parse_network` after the keyword pre-scan: DEVICES must come first, then the
        sections, then the END test on the token after them (as written, or the intended
        test).  The result is END's id when no error was counted and Failure otherwise;
        either way every D-type input is then connected, and a success leaves no input of
        any gate or D-type floating. */
    method Run(intended: bool) returns (r: Result<Outcome>, ghost ends: seq<Symbol>)
      requires Valid() && scanner.Fresh() && devices == [] && errorCount == 0
      modifies this`errorCount, this`line, this`position, this`devices, this`monitored
      modifies scanner`pos, scanner`cur, scanner`line, scanner`position, scanner`names
      ensures Valid()
      ensures var first := Scan(scanner.input, old(scanner.names));
              first.LexError? ==> r == Err(first.error) && ends == []
      ensures var first := Scan(scanner.input, old(scanner.names));
              first.Lexed? && !IsKeywordToken(first.kind, first.id, scanner.devicesId) ==> r == Err(SyntaxError) && ends == []
      ensures SectionsClosed(ends, r == Err(SyntaxError))
      ensures |ends| == 3 && !EndTest(intended, ends[2], scanner.endId) ==> r == Err(SyntaxError)
      ensures r.Ok? ==> |ends| == 3 && EndTest(intended, ends[2], scanner.endId)
      ensures r.Ok? ==> (r.value.Success? <==> errorCount == 0)
      ensures r.Ok? && r.value.Success? ==> r.value.endId == scanner.endId
      ensures r.Ok? ==> UniqueIds(devices)
      ensures r.Ok? ==> forall i, k :: 0 <= i < |devices| && devices[i].kind == DType && 0 <= k < |devices[i].inputs| ==>
                          devices[i].inputs[k].source.Some?
      ensures r.Ok? && r.value.Success? ==>
                forall i, k :: 0 <= i < |devices| && Inspected(devices[i]) && 0 <= k < |devices[i].inputs| ==>
                  devices[i].inputs[k].source.Some?
      ensures r.Err? ==> r.error in {SyntaxError, ValueError, AttributeError, TypeError, UnboundLocalError, NonTermination}
    {
      ends := [];
      var first :- FirstToken();
      // The section loop of the source runs at most once: each pass returns or raises.
      if !IsKeywordToken(first.kind, first.id, scanner.devicesId) {
        return Raise(IncorrectKeyword, position), ends;
      }
      var last;
      last, ends :- Sections();
      if !EndTest(intended, last, scanner.endId) {
        return Raise(IncorrectKeyword, position), ends;
      }
      if errorCount == 0 {
        FloatingCountZero(devices, |devices|);
        return Ok(Success(last.id.value)), ends;
      }
      return Ok(Failure), ends;
    }

    /** `parse_network` as written: the keyword pre-scan, whose out-of-range index is fatal
        and whose last missing keyword is kept in MISSING, then the sections, with the END
        test as written. */
    method ParseNetwork() returns (r: Result<Outcome>, ghost ends: seq<Symbol>)
      requires Valid() && scanner.Fresh() && devices == [] && errorCount == 0
      modifies this`errorCount, this`line, this`position, this`missing, this`devices, this`monitored
      modifies scanner`pos, scanner`cur, scanner`line, scanner`position, scanner`names
      ensures Valid()
      ensures PreScan(scanner.input).Err? ==> r == Err(IndexError) && ends == []
      ensures PreScan(scanner.input).Ok? ==> missing == PreScan(scanner.input).value
      ensures var first := Scan(scanner.input, old(scanner.names));
              PreScan(scanner.input).Ok? && first.LexError? ==> r == Err(first.error) && ends == []
      ensures var first := Scan(scanner.input, old(scanner.names));
              PreScan(scanner.input).Ok? && first.Lexed? && !IsKeywordToken(first.kind, first.id, scanner.devicesId) ==>
                r == Err(SyntaxError) && ends == []
      ensures SectionsClosed(ends, r == Err(SyntaxError))
      ensures |ends| == 3 && !EndTestAsWritten(ends[2].kind, ends[2].id, scanner.endId) ==> r == Err(SyntaxError)
      ensures r.Ok? ==> |ends| == 3 && EndTestAsWritten(ends[2].kind, ends[2].id, scanner.endId)
      ensures r.Ok? ==> (r.value.Success? <==> errorCount == 0)
      ensures r.Ok? && r.value.Success? ==> r.value.endId == scanner.endId
      ensures r.Ok? ==> UniqueIds(devices)
      ensures r.Ok? ==> forall i, k :: 0 <= i < |devices| && devices[i].kind == DType && 0 <= k < |devices[i].inputs| ==>
                          devices[i].inputs[k].source.Some?
      ensures r.Ok? && r.value.Success? ==>
                forall i, k :: 0 <= i < |devices| && Inspected(devices[i]) && 0 <= k < |devices[i].inputs| ==>
                  devices[i].inputs[k].source.Some?
      ensures r.Err? ==> r.error in {SyntaxError, ValueError, AttributeError, TypeError, UnboundLocalError, NonTermination, IndexError}
    {
      var pre := ScanKeywords(scanner.input);
      if pre.Err? {
        return Err(pre.error), [];
      }
      missing := pre.value;
      r, ends := Run(false);
    }

    /** `parse_network` as evidently intended: the corrected pre-scan, which never fails,
        and the END test that demands the keyword END. */
    method ParseNetworkIntended() returns (r: Result<Outcome>, ghost ends: seq<Symbol>)
      requires Valid() && scanner.Fresh() && devices == [] && errorCount == 0
      modifies this`errorCount, this`line, this`position, this`missing, this`devices, this`monitored
      modifies scanner`pos, scanner`cur, scanner`line, scanner`position, scanner`names
      ensures Valid()
      ensures missing == CorrectedMissing(scanner.input, Keywords)
      ensures var first := Scan(scanner.input, old(scanner.names));
              first.LexError? ==> r == Err(first.error) && ends == []
      ensures var first := Scan(scanner.input, old(scanner.names));
              first.Lexed? && !IsKeywordToken(first.kind, first.id, scanner.devicesId) ==> r == Err(SyntaxError) && ends == []
      ensures SectionsClosed(ends, r == Err(SyntaxError))
      ensures |ends| == 3 && !IsKeywordToken(ends[2].kind, ends[2].id, scanner.endId) ==> r == Err(SyntaxError)
      ensures r.Ok? ==> |ends| == 3 && IsKeywordToken(ends[2].kind, ends[2].id, scanner.endId)
      ensures r.Ok? ==> (r.value.Success? <==> errorCount == 0)
      ensures r.Ok? && r.value.Success? ==> r.value.endId == scanner.endId
      ensures r.Ok? ==> UniqueIds(devices)
      ensures r.Ok? ==> forall i, k :: 0 <= i < |devices| && devices[i].kind == DType && 0 <= k < |devices[i].inputs| ==>
                          devices[i].inputs[k].source.Some?
      ensures r.Ok? && r.value.Success? ==>
                forall i, k :: 0 <= i < |devices| && Inspected(devices[i]) && 0 <= k < |devices[i].inputs| ==>
                  devices[i].inputs[k].source.Some?
      ensures r.Err? ==> r.error in {SyntaxError, ValueError, AttributeError, TypeError, UnboundLocalError, NonTermination}
    {
      missing := CorrectedMissing(scanner.input, Keywords);
      r, ends := Run(true);
    }
  }
}
