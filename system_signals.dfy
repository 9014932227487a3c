/**
 * The framework's own signals: Start (sent once to every new process),
 * Stopping (a cooperative stop request), Stop (reserved), the wildcard Star
 * signal used only as a dispatch-table key, and the ProcessNotExist error
 * signal sent back to a sender whose destination does not exist.
 */
module SystemSignals {
  import opened Wrappers
  import opened Signals

  const StartClass := "SdlStartSignal"
  const StoppingClass := "SdlStoppingSignal"
  const StopClass := "SdlStopSignal"
  const StarClass := "SdlStarSignal"
  const ProcessNotExistClass := "SdlProcessNotExistSignal"

  /** The three keys of the ProcessNotExist error data. */
  const OriginalSignalKey := "original_signal"
  const DestinationKey := "destination"
  const SourceKey := "source"

  /**
   * `SdlProcessNotExistSignal(original_signal, destination, source)`; every field defaults to "".
   * The new signal is unaddressed and named after its class.
   */
  function ProcessNotExistSignal(originalSignal: string := "", destination: string := "", source: string := ""): (s: Signal)
    ensures s.className == ProcessNotExistClass && s.name == ProcessNotExistClass
    ensures s.src.None? && s.dst.None?
    ensures s.kind.ProcessNotExist?
    ensures GetData(s, OriginalSignalKey) == originalSignal
    ensures GetData(s, DestinationKey) == destination
    ensures GetData(s, SourceKey) == source
  {
    NewSignal(ProcessNotExistClass, ProcessNotExist(originalSignal, destination, source))
  }

  /** `get_data(key)`: the stored value for one of the three keys, "" for any other key. */
  function GetData(s: Signal, key: string): (r: string)
    requires s.kind.ProcessNotExist?
    ensures key !in {OriginalSignalKey, DestinationKey, SourceKey} ==> r == ""
    ensures key == OriginalSignalKey ==> r == s.kind.originalSignal
    ensures key == DestinationKey ==> r == s.kind.destination
    ensures key == SourceKey ==> r == s.kind.source
  {
    if key == OriginalSignalKey then s.kind.originalSignal
    else if key == DestinationKey then s.kind.destination
    else if key == SourceKey then s.kind.source
    else ""
  }

  /** `str()` of a Start, Stopping, Stop or Star signal: the plain rendering in brackets. */
  function BracketedText(s: Signal, id: nat): (r: string)
    requires s.kind.Start? || s.kind.Stopping? || s.kind.Stop? || s.kind.Star?
    ensures |r| == |s.Describe(id)| + 2
    ensures r[0] == '[' && r[|r| - 1] == ']' && r[1..|r| - 1] == s.Describe(id)
  {
    "[" + s.Describe(id) + "]"
  }

  /** `str()` of a ProcessNotExist signal: `[<plain rendering> dest=<destination> signal=<original signal>]`. */
  function ProcessNotExistText(s: Signal, id: nat): (r: string)
    requires s.kind.ProcessNotExist?
    ensures r == "[" + s.Describe(id) + " dest=" + GetData(s, DestinationKey)
                 + " signal=" + GetData(s, OriginalSignalKey) + "]"
  {
    "[" + s.Describe(id) + " dest=" + s.kind.destination + " signal=" + s.kind.originalSignal + "]"
  }
}
