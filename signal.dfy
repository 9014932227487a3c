/**
 * Signals: typed messages with a class name, an instance name and optional
 * source and destination pids. A signal's numeric type id belongs to its
 * class and is looked up (and, on first use, allocated) through `TypeIds`.
 *
 * The framework's signal subclasses are told apart by `kind`; the two that
 * carry extra data (the ProcessNotExist error signal and timers) carry it there.
 */
module Signals {
  import opened Wrappers
  import Text
  import opened IdGenerator

  datatype Kind =
    | User
    | Start
    | Stopping
    | Stop
    | Star
    | ProcessNotExist(originalSignal: string, destination: string, source: string)
    | Timer(appcorr: int, deadline: int, observed: int)

  datatype Signal = Signal(className: string, kind: Kind, name: string, src: Option<string>, dst: Option<string>)
  {
    /** `set_src`: only the source changes. */
    function WithSrc(pid: string): (r: Signal)
      ensures r.src == Some(pid)
      ensures r.(src := src) == this
    {
      this.(src := Some(pid))
    }

    /** `set_dst`: only the destination changes. */
    function WithDst(pid: string): (r: Signal)
      ensures r.dst == Some(pid)
      ensures r.(dst := dst) == this
    {
      this.(dst := Some(pid))
    }

    /** `set_name`: only the name changes; the class, and with it the type id, stays. */
    function WithName(newName: string): (r: Signal)
      ensures r.name == newName && r.className == className
      ensures r.(name := name) == this
    {
      this.(name := newName)
    }

    /** `str(signal)` for a plain signal whose class id is `id`. */
    function Describe(id: nat): (r: string)
      ensures r == "name: " + name + " id: " + Text.NatToString(id)
                   + " [src: " + OptionText(src) + "] [dst: " + OptionText(dst) + "]"
      ensures r[|r| - 1] == ']'
    {
      "name: " + name + " id: " + Text.NatToString(id) + " [src: " + OptionText(src) + "] [dst: " + OptionText(dst) + "]"
    }
  }

  /** How an f-string prints an optional pid: the pid itself, or "None". */
  function OptionText(o: Option<string>): (r: string)
    ensures o.Some? ==> r == o.value
    ensures o.None? ==> r == "None"
  {
    match o
    case None => "None"
    case Some(s) => s
  }

  /** `SignalClass(_data)`: a new signal is named after its class and is not yet addressed. */
  function NewSignal(className: string, kind: Kind): (s: Signal)
    ensures s.className == className && s.kind == kind
    ensures s.name == className && s.src.None? && s.dst.None?
  {
    Signal(className, kind, className, None, None)
  }

  /** `signal.id()` / `SignalClass.id()`: the class's id, allocated on first use and the same ever after. */
  method SignalId(types: TypeIds, s: Signal) returns (id: nat)
    requires types.Valid()
    modifies types, types.gen
    ensures types.Valid()
    ensures SignalType(s.className) in types.ids && id == types.ids[SignalType(s.className)]
    ensures SignalType(s.className) in old(types.ids) ==> id == old(types.ids)[SignalType(s.className)]
    ensures types.ids.Keys == old(types.ids).Keys + {SignalType(s.className)}
    ensures forall k :: k in old(types.ids) ==> k in types.ids && types.ids[k] == old(types.ids)[k]
  {
    id := types.IdOf(SignalType(s.className));
  }

  /** `SignalClass.create(_data)`: a new signal, with its class id assigned if it had none. */
  method Create(types: TypeIds, className: string, kind: Kind) returns (s: Signal)
    requires types.Valid()
    modifies types, types.gen
    ensures types.Valid()
    ensures s == NewSignal(className, kind)
    ensures SignalType(className) in types.ids
    ensures forall k :: k in old(types.ids) ==> k in types.ids && types.ids[k] == old(types.ids)[k]
  {
    s := NewSignal(className, kind);
    var _ := types.IdOf(SignalType(className));
  }

  /** Two instances of one signal class share one id, however many ids are allocated in between. */
  method SameClassSameId(types: TypeIds, a: Signal, b: Signal, other: Signal) returns (idA: nat, idB: nat)
    requires types.Valid()
    requires a.className == b.className
    modifies types, types.gen
    ensures types.Valid()
    ensures idA == idB
    ensures SignalType(other.className) in types.ids
    ensures other.className != a.className ==> types.ids[SignalType(other.className)] != idA
  {
    idA := SignalId(types, a);
    var _ := SignalId(types, other);
    idB := SignalId(types, b);
  }
}
