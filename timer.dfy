/**
 * Timers: signals that carry an application correlator, a deadline and the
 * last observed time. A timer has fired once the observed time has reached
 * the deadline. Timers are compared by (class id, correlator), not by identity.
 */
module Timers {
  import opened Wrappers
  import Text
  import opened IdGenerator
  import opened Signals

  type Timer = s: Signal | s.kind.Timer? witness Signal("SdlTimer", Kind.Timer(0, 0, 0), "SdlTimer", None, None)

  /** `TimerClass()`: correlator, deadline and observed time all start at 0; not yet addressed. */
  function NewTimer(className: string): (t: Timer)
    ensures t.className == className && t.name == className
    ensures Appcorr(t) == 0 && Deadline(t) == 0 && Observed(t) == 0
    ensures t.src.None? && t.dst.None?
  {
    NewSignal(className, Kind.Timer(0, 0, 0))
  }

  /** `appcorr()`. */
  function Appcorr(t: Timer): int { t.kind.appcorr }

  /** The deadline (the source's `_duration`). */
  function Deadline(t: Timer): int { t.kind.deadline }

  /** The last observed time (the source's `_expiry`). */
  function Observed(t: Timer): int { t.kind.observed }

  /** `set_appcorr(a)`: only the correlator changes. */
  function SetAppcorr(t: Timer, a: int): (r: Timer)
    ensures Appcorr(r) == a && Deadline(r) == Deadline(t) && Observed(r) == Observed(t)
    ensures r.className == t.className && r.name == t.name && r.src == t.src && r.dst == t.dst
  {
    t.(kind := t.kind.(appcorr := a))
  }

  /** `start(msec)`: the deadline becomes `msec` and the observed time is reset to 0. */
  function Start(t: Timer, msec: int): (r: Timer)
    ensures Deadline(r) == msec && Observed(r) == 0 && Appcorr(r) == Appcorr(t)
    ensures r.className == t.className && r.name == t.name && r.src == t.src && r.dst == t.dst
  {
    t.(kind := t.kind.(deadline := msec, observed := 0))
  }

  /** `expire(msec)`: records `msec` as the observed time and changes nothing else. */
  function Expire(t: Timer, msec: int): (r: Timer)
    ensures Observed(r) == msec
    ensures r == t.(kind := t.kind.(observed := msec))
    ensures Expired(r) <==> Deadline(t) <= msec
  {
    t.(kind := t.kind.(observed := msec))
  }

  /** `expired()`: the observed time has reached the deadline. */
  predicate Expired(t: Timer)
  {
    Observed(t) >= Deadline(t)
  }

  /**
   * `_compare` on the class ids and correlators of two timers. Ids order timers; with equal
   * ids, any difference in correlator yields -1, whichever side is larger.
   */
  function Compare(id: nat, appcorr: int, rhsId: nat, rhsAppcorr: int): (c: int)
    ensures c == 0 <==> id == rhsId && appcorr == rhsAppcorr
    ensures id < rhsId ==> c == -1
    ensures id > rhsId ==> c == 1
    ensures id == rhsId && appcorr != rhsAppcorr ==> c == -1
    ensures c in {-1, 0, 1}
  {
    if id < rhsId then -1
    else if id > rhsId then 1
    else if appcorr < rhsAppcorr then -1
    else if appcorr > rhsAppcorr then -1
    else 0
  }

  /** Because of the correlator case, two different timers of one class can each compare below the other. */
  lemma CompareNotAntisymmetric(id: nat, a: int, b: int)
    requires a != b
    ensures Compare(id, a, id, b) < 0 && Compare(id, b, id, a) < 0
  {
  }

  /**
   * `==` between timers: same class and same correlator. This is what `_compare(...) == 0`
   * means once both classes have ids, because distinct classes never share an id.
   */
  predicate SameTimer(a: Signal, b: Signal)
  {
    a.kind.Timer? && b.kind.Timer? && a.className == b.className && a.kind.appcorr == b.kind.appcorr
  }

  /** With the id allocator's invariant, `_compare == 0` and `SameTimer` agree in both directions. */
  lemma CompareZeroIffSameTimer(types: TypeIds, a: Timer, b: Timer)
    requires types.Valid()
    requires SignalType(a.className) in types.ids && SignalType(b.className) in types.ids
    ensures Compare(types.ids[SignalType(a.className)], Appcorr(a), types.ids[SignalType(b.className)], Appcorr(b)) == 0
            <==> SameTimer(a, b)
  {
    if a.className != b.className {
      assert SignalType(a.className) != SignalType(b.className);
    }
  }

  /** `dumpdata()`. */
  function Dumpdata(t: Timer): (r: string)
    ensures r == "appcorr: " + Text.IntToString(Appcorr(t))
  {
    "appcorr: " + Text.IntToString(t.kind.appcorr)
  }

  /** `str(timer)`: the plain signal rendering followed by the correlator, in brackets. */
  function TimerText(t: Timer, id: nat): (r: string)
    ensures r == "[" + t.Describe(id) + " " + Dumpdata(t) + "]"
  {
    "[" + t.Describe(id) + " appcorr: " + Text.IntToString(t.kind.appcorr) + "]"
  }
}
