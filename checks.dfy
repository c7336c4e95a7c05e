/** The parser's decision procedures that only classify: the parameter check of a device
    definition, the bookkeeping after a connection or monitor request, and the dispatch of
    an error code to the scanner's error routines. */
module Checks {
  import opened Common
  import opened Chars
  import opened NameTable
  import opened Lexicon
  import opened Circuit

  /** The parameter a device definition may carry, per kind. */
  predicate ParamAcceptable(kind: Kind, n: int) {
    match kind
    case And | Or | Nand | Nor => 1 <= n <= MaxGateInputs
    case Clock => n >= 1
    case Switch => n == 0 || n == 1
    case Siggen => true
    case Xor | DType => false
  }

  /** `device_check`: what a definition `kind, n` raises, if anything. */
  function DeviceCheck(kind: Kind, n: int): (r: Option<Fatal>)
    ensures r == Some(SyntaxError) <==> kind == DType || kind == Xor
    ensures r == Some(ValueError) <==>
              (IsGate(kind) && kind != Xor && !(1 <= n <= MaxGateInputs))
              || (kind == Clock && n < 1) || (kind == Switch && n != 0 && n != 1)
    ensures r.None? <==> ParamAcceptable(kind, n)
  {
    if kind == DType || kind == Xor then Some(SyntaxError)
    else if IsGate(kind) && (n > MaxGateInputs || n < 1) then Some(ValueError)
    else if kind == Clock && n < 1 then Some(ValueError)
    else if kind == Switch && n != 0 && n != 1 then Some(ValueError)
    else None
  }

  /** The outcomes `make_connection` reports, and any other value the parser passes on
      (such as its "semantic error" marker). */
  datatype NetCode = NoError | DeviceAbsent | OutputToOutput | InputConnected | PortAbsent | Unlisted

  /** `str.isnumeric` in the ASCII range. */
  predicate IsNumeric(s: string) {
    s != [] && forall i :: 0 <= i < |s| ==> IsDigit(s[i])
  }

  /** `network_error_check`: how much the error count grows for a connection outcome, or
      the crash when the code dereferences a missing device or port name.  `port` is the
      port id after the dot (if any) and `target` the device being connected to. */
  function NetworkErrorCheck(code: NetCode, port: Option<int>, target: Option<Device>,
                             names: seq<string>, dtypeInputs: seq<int>): (r: Result<nat>)
    ensures r.Ok? ==> r.value <= 1
    ensures code == NoError ==> r == Ok(0)
    ensures code in {DeviceAbsent, OutputToOutput, InputConnected, Unlisted} ==> r == Ok(1)
    ensures r.Err? ==> code == PortAbsent && r.error == AttributeError
    ensures code == PortAbsent ==>
              (r.Err? <==> (target.None? || (port.Some? && !HasPort(target.value, port.value)
                                             && NameString(names, port.value).None?)))
    ensures r == Ok(0) <==>
              code == NoError
              || (code == PortAbsent && port.Some? && target.Some? && !HasPort(target.value, port.value)
                  && port.value !in dtypeInputs && NameString(names, port.value).Some?
                  && IsNumeric(NameString(names, port.value).value)
                  && DecimalValue(NameString(names, port.value).value) <= MaxGateInputs)
  {
    match code
    case NoError => Ok(0)
    case DeviceAbsent | OutputToOutput | InputConnected | Unlisted => Ok(1)
    case PortAbsent =>
      if port.Some? && (target.None? || !HasPort(target.value, port.value)) then
        if target.None? then Err(AttributeError)
        else match NameString(names, port.value)
          case None => Err(AttributeError)
          case Some(name) =>
            if port.value in dtypeInputs then Ok(1)
            else if IsNumeric(name) then Ok(if DecimalValue(name) > MaxGateInputs then 1 else 0)
            else Ok(1)
      else if target.None? then Err(AttributeError)
      else Ok(1)
  }

  /** The check reads the name table only for a port name it prints, so a check that did
      not crash gives the same count once more names are interned. */
  lemma NetworkErrorCheckStable(code: NetCode, port: Option<int>, target: Option<Device>,
                                names: seq<string>, grown: seq<string>, dtypeInputs: seq<int>)
    requires names <= grown
    requires NetworkErrorCheck(code, port, target, names, dtypeInputs).Ok?
    ensures NetworkErrorCheck(code, port, target, grown, dtypeInputs) == NetworkErrorCheck(code, port, target, names, dtypeInputs)
  {
  }

  /** The outcomes `make_monitor` reports; MonUnlisted stands for any other value. */
  datatype MonCode = MonNoError | NotOutput | MonDeviceAbsent | MonitorPresent | MonUnlisted

  /** `monitor_error_check`: the three recognised failures count one error each. */
  function MonitorErrorCheck(code: MonCode): (n: nat)
    ensures n <= 1
    ensures n == 1 <==> code in {NotOutput, MonDeviceAbsent, MonitorPresent}
  {
    match code
    case NotOutput | MonDeviceAbsent | MonitorPresent => 1
    case MonNoError | MonUnlisted => 0
  }

  /** The argument of `call_error`: an integer (a scanner error code or a column marker) or
      the parser's "semantic error" marker. */
  datatype CallArg = Code(n: int) | Semantic

  /** The scanner error code numbered `n`, if there is one. */
  function CodeOf(n: int): (r: Option<ErrorCode>)
    ensures r.Some? <==> 0 <= n < 13
    ensures r.Some? ==> CodeNumber(r.value) == n
  {
    if n == 0 then Some(NoNumber) else if n == 1 then Some(NoArrow)
    else if n == 2 then Some(UnknownSym) else if n == 3 then Some(NoName)
    else if n == 4 then Some(NoEqual) else if n == 5 then Some(NoSemicolon)
    else if n == 6 then Some(NoComma) else if n == 7 then Some(NoDot)
    else if n == 8 then Some(IncorrectKeyword) else if n == 9 then Some(NoKeyword)
    else if n == 10 then Some(InvalidVariable) else if n == 11 then Some(NoConnect)
    else if n == 12 then Some(NoEof) else None
  }

  /** `call_error(arg)` with the parser's POSITION field at `position`: the locating step
      handles the two special codes, every listed code, the semantic marker and the current
      column marker, and anything else reaches the misspelled `error_locaiton`, an
      AttributeError; then a listed code that is not the column marker goes to
      `display_error`. */
  function CallError(arg: CallArg, position: int): (r: Option<Fatal>)
    ensures r == Some(AttributeError) <==> arg.Code? && CodeOf(arg.n).None? && arg.n != position
    ensures r == Some(SyntaxError) <==>
              arg.Code? && arg.n != position && CodeOf(arg.n).Some? && DisplayError(CodeOf(arg.n).value).Some?
    ensures r.Some? ==> r.value in {AttributeError, SyntaxError}
  {
    match arg
    case Semantic => None
    case Code(n) =>
      if CodeOf(n).None? && n != position then Some(AttributeError)
      else if n == position then None
      else DisplayError(CodeOf(n).value)
  }

  /** Every code the parser itself reports raises a SyntaxError, whatever column marker
      is current (it is 0 before the first connection and at least 50 afterwards). */
  lemma ParserCodesRaise(e: ErrorCode, position: int)
    requires e in {NoName, NoEqual, NoSemicolon, NoComma, IncorrectKeyword, InvalidVariable, NoConnect}
    requires position == 0 || position >= 50
    ensures CallError(Code(CodeNumber(e)), position) == Some(SyntaxError)
  {
    assert CodeOf(CodeNumber(e)) == Some(e);
  }

  /** The outcome of the parser's `call_error` for one of its own codes. */
  function Raise<T>(e: ErrorCode, position: int): (r: Result<T>)
    requires e in {NoName, NoEqual, NoSemicolon, NoComma, IncorrectKeyword, InvalidVariable, NoConnect}
    requires position == 0 || position >= 50
    ensures r == Err(SyntaxError)
  {
    ParserCodesRaise(e, position);
    Err(CallError(Code(CodeNumber(e)), position).value)
  }

  /** The semantic marker and the current column marker only locate the error. */
  lemma MarkersNeverRaise(position: int)
    ensures CallError(Semantic, position) == None
    ensures CallError(Code(position), position) == None
  {
  }

  /** Passing a column marker that is not the current one is what reaches the
      misspelled locator. */
  lemma StaleMarkerCrashes(n: int, position: int)
    requires n >= 50 && n != position
    ensures CallError(Code(n), position) == Some(AttributeError)
  {
  }
}
