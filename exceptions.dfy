/**
 * The framework's exception kinds and the default message each constructor
 * computes when it is given no explicit message.
 */
module Exceptions {

  /** One constructor per exception class; `message` is the message the exception carries. */
  datatype SdlError =
    | ProcessNotFound(pid: string, message: string)
    | SignalDelivery(destination: string, signal: string, message: string)
    | StateTransition(currentState: string, signal: string, process: string, message: string)
    | TimerFailure(timer: string, message: string)
    | InvalidState(state: string, message: string)
    | QueueFailure(message: string)
    | Validation(parameter: string, message: string)

  /** `ProcessNotFoundError(pid, message)`. */
  function ProcessNotFoundError(pid: string, message: string := ""): (e: SdlError)
    ensures e.ProcessNotFound? && e.pid == pid && e.message != ""
    ensures message != "" ==> e.message == message
    ensures message == "" ==> e.message == "Process not found: " + pid
  {
    ProcessNotFound(pid, if message != "" then message else "Process not found: " + pid)
  }

  /** `SignalDeliveryError(destination, message, signal)`: the default names the signal only when one is given. */
  function SignalDeliveryError(destination: string, message: string := "", signal: string := ""): (e: SdlError)
    ensures e.SignalDelivery? && e.destination == destination && e.signal == signal && e.message != ""
    ensures message != "" ==> e.message == message
    ensures message == "" && signal != "" ==>
      e.message == "Failed to deliver signal '" + signal + "' to process '" + destination + "'"
    ensures message == "" && signal == "" ==>
      e.message == "Failed to deliver signal to process '" + destination + "'"
  {
    var m :=
      if message != "" then message
      else if signal != "" then "Failed to deliver signal '" + signal + "' to process '" + destination + "'"
      else "Failed to deliver signal to process '" + destination + "'";
    SignalDelivery(destination, signal, m)
  }

  /** The part of the default state-transition message that names the signal and the state. */
  function NoHandlerText(signal: string, currentState: string): string
  {
    "no handler for signal '" + signal + "' in state '" + currentState + "'"
  }

  /** `StateTransitionError(current_state, signal, process, message)`: the default names the process only when one is given. */
  function StateTransitionError(currentState: string, signal: string, process: string := "", message: string := ""): (e: SdlError)
    ensures e.StateTransition? && e.currentState == currentState && e.signal == signal && e.process == process
    ensures e.message != ""
    ensures message != "" ==> e.message == message
    ensures message == "" && process != "" ==>
      e.message == "Invalid state transition in process '" + process + "': " + NoHandlerText(signal, currentState)
    ensures message == "" && process == "" ==>
      e.message == "Invalid state transition: " + NoHandlerText(signal, currentState)
  {
    var m :=
      if message != "" then message
      else if process != "" then "Invalid state transition in process '" + process + "': " + NoHandlerText(signal, currentState)
      else "Invalid state transition: " + NoHandlerText(signal, currentState);
    StateTransition(currentState, signal, process, m)
  }

  /** `TimerError(timer, message)`: "Timer error: <timer>" when only the timer is given, a fixed text when neither is. */
  function TimerError(timer: string := "", message: string := ""): (e: SdlError)
    ensures e.TimerFailure? && e.timer == timer && e.message != ""
    ensures message != "" ==> e.message == message
    ensures message == "" && timer != "" ==> e.message == "Timer error: " + timer
    ensures message == "" && timer == "" ==> e.message == "Timer operation failed"
  {
    TimerFailure(timer, if message != "" then message else if timer != "" then "Timer error: " + timer else "Timer operation failed")
  }

  /** `InvalidStateError(state, message)`. */
  function InvalidStateError(state: string, message: string := ""): (e: SdlError)
    ensures e.InvalidState? && e.state == state && e.message != ""
    ensures message != "" ==> e.message == message
    ensures message == "" ==> e.message == "Invalid state: " + state
  {
    InvalidState(state, if message != "" then message else "Invalid state: " + state)
  }

  /**
   * `QueueError(message)`: the message defaults to "Queue operation failed" only when it is omitted;
   * an explicit empty string is kept.
   */
  function QueueError(message: string := "Queue operation failed"): (e: SdlError)
    ensures e.QueueFailure? && e.message == message
  {
    QueueFailure(message)
  }

  /** `ValidationError(parameter, message)`. */
  function ValidationError(parameter: string, message: string := ""): (e: SdlError)
    ensures e.Validation? && e.parameter == parameter && e.message != ""
    ensures message != "" ==> e.message == message
    ensures message == "" ==> e.message == "Validation error: invalid " + parameter
  {
    Validation(parameter, if message != "" then message else "Validation error: invalid " + parameter)
  }
}
