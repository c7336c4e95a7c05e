/** The parser's view of the device table it builds: each device has an id (the interned
    name), a kind, its parameters and its input ports, each either unconnected or wired to
    a source output.  Devices keep the order in which they were made, the order in which
    the cleanup passes of the MONITOR section visit them. */
module Circuit {
  import opened Common

  datatype Kind = And | Or | Nand | Nor | Xor | Clock | Switch | DType | Siggen

  /** The output a connected input reads from: a device and, for a D-type, its port. */
  datatype Source = Source(device: int, port: Option<int>)

  datatype Input = Input(port: int, source: Option<Source>)

  datatype Device = Device(id: int, kind: Kind, inputs: seq<Input>, params: seq<int>)

  const MaxGateInputs: int := 16

  predicate IsGate(k: Kind) {
    k == And || k == Or || k == Nand || k == Nor || k == Xor
  }

  /** The first device with this id, or none (an absent id never matches). */
  function GetDevice(ds: seq<Device>, id: Option<int>): (r: Option<Device>)
    ensures r.Some? <==> id.Some? && exists i :: 0 <= i < |ds| && ds[i].id == id.value
    ensures r.Some? ==> r.value.id == id.value
    ensures r.Some? ==>
              exists i :: 0 <= i < |ds| && ds[i] == r.value && forall j :: 0 <= j < i ==> ds[j].id != id.value
  {
    if id.None? || ds == [] then None
    else if ds[0].id == id.value then Some(ds[0])
    else
      var r := GetDevice(ds[1..], id);
      assert forall i :: 0 <= i < |ds| - 1 ==> ds[1..][i] == ds[i + 1];
      r
  }

  predicate HasPort(d: Device, p: int) {
    exists i :: 0 <= i < |d.inputs| && d.inputs[i].port == p
  }

  /** Unconnected inputs on the given ports. */
  function Unconnected(ports: seq<int>): (r: seq<Input>)
    ensures |r| == |ports|
    ensures forall i :: 0 <= i < |r| ==> r[i] == Input(ports[i], None)
  {
    if ports == [] then [] else [Input(ports[0], None)] + Unconnected(ports[1..])
  }

  /** The input ports a new device gets: the first n gate inputs of an n-input gate (an
      XOR always has two), the four D-type inputs, and none for the sources. */
  function InputPorts(kind: Kind, params: seq<int>, gateInputs: seq<int>, dtypeInputs: seq<int>): (r: seq<int>)
    requires |gateInputs| == MaxGateInputs
    ensures kind == Xor ==> r == gateInputs[..2]
    ensures kind == DType ==> r == dtypeInputs
    ensures kind in {Clock, Switch, Siggen} ==> r == []
    ensures IsGate(kind) && kind != Xor && params != [] && 1 <= params[0] <= MaxGateInputs ==>
              r == gateInputs[..params[0]]
  {
    match kind
    case Xor => gateInputs[..2]
    case DType => dtypeInputs
    case Clock | Switch | Siggen => []
    case _ => if params != [] && 1 <= params[0] <= MaxGateInputs then gateInputs[..params[0]] else []
  }

  /** `devices.make_device`: a new device with every input unconnected. */
  function NewDevice(id: int, kind: Kind, params: seq<int>, gateInputs: seq<int>, dtypeInputs: seq<int>): (d: Device)
    requires |gateInputs| == MaxGateInputs
    ensures d.id == id && d.kind == kind && d.params == params
    ensures forall i :: 0 <= i < |d.inputs| ==> d.inputs[i].source.None?
    ensures |d.inputs| == |InputPorts(kind, params, gateInputs, dtypeInputs)|
  {
    Device(id, kind, Unconnected(InputPorts(kind, params, gateInputs, dtypeInputs)), params)
  }

  /** Wire input `port` of the first device `dst` to `src`, as a successful connection does. */
  function WireInputs(inputs: seq<Input>, port: int, src: Source): (r: seq<Input>)
    ensures |r| == |inputs|
    ensures forall i :: 0 <= i < |r| ==> r[i].port == inputs[i].port
    ensures forall i :: 0 <= i < |r| ==>
              r[i].source == (if inputs[i].port == port then Some(src) else inputs[i].source)
  {
    if inputs == [] then []
    else [if inputs[0].port == port then Input(port, Some(src)) else inputs[0]]
         + WireInputs(inputs[1..], port, src)
  }

  /** No two devices share an id. */
  predicate UniqueIds(ds: seq<Device>) {
    forall i, j :: 0 <= i < j < |ds| ==> ds[i].id != ds[j].id
  }

  /** A device made under an id no device has keeps the ids unique. */
  lemma AppendUnique(ds: seq<Device>, after: seq<Device>)
    requires |after| == |ds| + 1 && after[..|ds|] == ds
    requires UniqueIds(ds) && GetDevice(ds, Some(after[|ds|].id)).None?
    ensures UniqueIds(after)
  {
    forall i | 0 <= i < |ds|
      ensures after[i] == ds[i]
    {
      assert after[..|ds|][i] == after[i];
    }
  }

  /** Extending a table whose ids are below `bound` by one device whose id is below
      `grown` gives a table whose ids are all below `grown`, when `bound <= grown`. */
  lemma NamedPrefix(ds: seq<Device>, after: seq<Device>, bound: nat, grown: nat)
    requires |after| == |ds| + 1 && after[..|ds|] == ds && bound <= grown
    requires forall i :: 0 <= i < |ds| ==> 0 <= ds[i].id < bound
    requires 0 <= after[|ds|].id < grown
    ensures forall i :: 0 <= i < |after| ==> 0 <= after[i].id < grown
  {
    forall i | 0 <= i < |ds|
      ensures after[i] == ds[i]
    {
      assert after[..|ds|][i] == after[i];
    }
  }

  /** `after` is `before` with possibly more of its inputs connected: same id, kind,
      parameters and ports, and an input that was connected stays connected. */
  predicate Extends(before: Device, after: Device) {
    && after.id == before.id && after.kind == before.kind && after.params == before.params
    && |after.inputs| == |before.inputs|
    && forall k :: 0 <= k < |before.inputs| ==>
         after.inputs[k].port == before.inputs[k].port
         && (before.inputs[k].source.Some? ==> after.inputs[k].source.Some?)
  }

  /** The table after connections were made: the same devices, each extended. */
  predicate Rewired(before: seq<Device>, after: seq<Device>) {
    |after| == |before| && forall i :: 0 <= i < |before| ==> Extends(before[i], after[i])
  }

  /** Rewiring keeps which ids are devices and what kind each one is. */
  lemma {:induction false} RewiredGetDevice(before: seq<Device>, after: seq<Device>, id: Option<int>)
    requires Rewired(before, after)
    ensures GetDevice(after, id).Some? <==> GetDevice(before, id).Some?
    ensures GetDevice(after, id).Some? ==> GetDevice(after, id).value.kind == GetDevice(before, id).value.kind
  {
    if id.Some? && before != [] && before[0].id != id.value {
      assert Extends(before[0], after[0]);
      assert forall i :: 0 <= i < |before| - 1 ==> before[1..][i] == before[i + 1] && after[1..][i] == after[i + 1];
      RewiredGetDevice(before[1..], after[1..], id);
    }
  }

  lemma RewiredTransitive(a: seq<Device>, b: seq<Device>, c: seq<Device>)
    requires Rewired(a, b) && Rewired(b, c)
    ensures Rewired(a, c)
  {
    forall i | 0 <= i < |a|
      ensures Extends(a[i], c[i])
    {
      assert Extends(a[i], b[i]) && Extends(b[i], c[i]);
    }
  }

  /** The position of the first device with id `id`, if any. */
  function FirstIndex(ds: seq<Device>, id: int): (r: Option<nat>)
    ensures r.None? ==> forall i :: 0 <= i < |ds| ==> ds[i].id != id
    ensures r.Some? ==> r.value < |ds| && ds[r.value].id == id
                        && forall j :: 0 <= j < r.value ==> ds[j].id != id
  {
    if ds == [] then None
    else if ds[0].id == id then Some(0)
    else match FirstIndex(ds[1..], id)
      case None => None
      case Some(k) => Some(k + 1)
  }

  function Wire(ds: seq<Device>, dst: int, port: int, src: Source): (r: seq<Device>)
    ensures Rewired(ds, r)
    ensures forall i :: 0 <= i < |r| && ds[i].id != dst ==> r[i] == ds[i]
    ensures forall i :: (0 <= i < |r| && ds[i].id == dst && forall j :: 0 <= j < i ==> ds[j].id != dst) ==>
              r[i] == ds[i].(inputs := WireInputs(ds[i].inputs, port, src))
    ensures forall i, j :: 0 <= j < i < |r| && ds[j].id == dst ==> r[i] == ds[i]
  {
    match FirstIndex(ds, dst)
    case None => ds
    case Some(k) => ds[k := ds[k].(inputs := WireInputs(ds[k].inputs, port, src))]
  }

  /** A D-type with each unconnected input tied to the ground switch `gnd`; any other
      device as it was. */
  function GroundInputs(d: Device, gnd: int): (r: Device)
    ensures r.id == d.id && r.kind == d.kind && r.params == d.params && |r.inputs| == |d.inputs|
  {
    if d.kind != DType then d
    else d.(inputs := seq(|d.inputs|, i requires 0 <= i < |d.inputs| =>
                           if d.inputs[i].source.None? then Input(d.inputs[i].port, Some(Source(gnd, None)))
                           else d.inputs[i]))
  }

  /** What `set_dtype_input_values` leaves: every D-type's unconnected inputs grounded. */
  function GroundDtypes(ds: seq<Device>, gnd: int): (r: seq<Device>)
    ensures |r| == |ds|
    ensures forall i :: 0 <= i < |ds| ==> r[i] == GroundInputs(ds[i], gnd)
  {
    seq(|ds|, i requires 0 <= i < |ds| => GroundInputs(ds[i], gnd))
  }

  /** Grounding completes the D-types and touches nothing else: every D-type input is
      connected, inputs that were connected keep their source, ports keep their order,
      and the devices of any other kind are unchanged. */
  lemma GroundDtypesEffect(ds: seq<Device>, gnd: int)
    ensures var r := GroundDtypes(ds, gnd);
            && (forall i, k :: 0 <= i < |r| && r[i].kind == DType && 0 <= k < |r[i].inputs| ==>
                  r[i].inputs[k].source.Some?)
            && (forall i, k :: 0 <= i < |r| && 0 <= k < |r[i].inputs| ==>
                  r[i].inputs[k].port == ds[i].inputs[k].port)
            && (forall i, k :: 0 <= i < |r| && 0 <= k < |r[i].inputs| && ds[i].inputs[k].source.Some? ==>
                  r[i].inputs[k] == ds[i].inputs[k])
            && (forall i, k :: (0 <= i < |r| && 0 <= k < |r[i].inputs| && ds[i].inputs[k].source.None?
                                && ds[i].kind == DType) ==> r[i].inputs[k].source == Some(Source(gnd, None)))
            && (forall i :: 0 <= i < |r| && ds[i].kind != DType ==> r[i] == ds[i])
  {
  }

  /** A ground switch under an id above every device's keeps the ids unique, and
      grounding leaves the ids as they were. */
  lemma GroundedUnique(ds: seq<Device>, g: Device, gnd: int)
    requires UniqueIds(ds) && forall i :: 0 <= i < |ds| ==> ds[i].id < g.id
    ensures UniqueIds(GroundDtypes(ds + [g], gnd))
  {
    var r := GroundDtypes(ds + [g], gnd);
    assert forall i :: 0 <= i < |r| ==> r[i].id == (ds + [g])[i].id;
  }

  /** A device whose inputs `check_connection` inspects: all but clocks and switches. */
  predicate Inspected(d: Device) {
    d.kind != Clock && d.kind != Switch
  }

  /** The unconnected inputs among the first `n` of `inputs`. */
  function OpenInputs(inputs: seq<Input>, n: nat): (c: nat)
    requires n <= |inputs|
    ensures c <= n
  {
    if n == 0 then 0
    else OpenInputs(inputs, n - 1) + (if inputs[n - 1].source.None? then 1 else 0)
  }

  /** The floating inputs a device contributes. */
  function DeviceFloating(d: Device): nat {
    if Inspected(d) then OpenInputs(d.inputs, |d.inputs|) else 0
  }

  /** The floating inputs among the first `n` devices. */
  function FloatingCount(ds: seq<Device>, n: nat): nat
    requires n <= |ds|
  {
    if n == 0 then 0 else FloatingCount(ds, n - 1) + DeviceFloating(ds[n - 1])
  }

  lemma {:induction false} OpenInputsZero(inputs: seq<Input>, n: nat)
    requires n <= |inputs|
    ensures OpenInputs(inputs, n) == 0 <==> forall k :: 0 <= k < n ==> inputs[k].source.Some?
  {
    if n > 0 {
      OpenInputsZero(inputs, n - 1);
    }
  }

  /** No error is counted exactly when every inspected device has all its inputs connected. */
  lemma {:induction false} FloatingCountZero(ds: seq<Device>, n: nat)
    requires n <= |ds|
    ensures FloatingCount(ds, n) == 0 <==>
            forall i, k :: 0 <= i < n && Inspected(ds[i]) && 0 <= k < |ds[i].inputs| ==>
              ds[i].inputs[k].source.Some?
  {
    if n > 0 {
      FloatingCountZero(ds, n - 1);
      OpenInputsZero(ds[n - 1].inputs, |ds[n - 1].inputs|);
    }
  }

  /** Grounding never adds a floating input, and a D-type contributes none after it. */
  lemma {:induction false} GroundingLowersFloating(ds: seq<Device>, gnd: int, n: nat)
    requires n <= |ds|
    ensures FloatingCount(GroundDtypes(ds, gnd), n) <= FloatingCount(ds, n)
    ensures forall i :: 0 <= i < n && ds[i].kind == DType ==> DeviceFloating(GroundDtypes(ds, gnd)[i]) == 0
  {
    if n > 0 {
      GroundingLowersFloating(ds, gnd, n - 1);
      var d := ds[n - 1];
      var g := GroundInputs(d, gnd);
      GroundDtypesEffect(ds, gnd);
      if d.kind == DType {
        OpenInputsZero(g.inputs, |g.inputs|);
      }
    }
  }
}
