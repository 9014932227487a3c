/**
 * The runtime: `SdlSystem` (process registry, timer registry, ready list, signal
 * queue and the scheduler step) and `SdlProcess` (pid, state, save buffer and the
 * operations a process uses to talk to its system). They refer to each other, so
 * they share this module.
 *
 * The FIFO signal queue is a sequence field; the scheduler's wait-with-timeout becomes
 * "None when the queue is empty"; the wall clock is a parameter.
 */
module Runtime {
  import opened Wrappers
  import opened Text
  import opened Exceptions
  import opened IdGenerator
  import opened States
  import opened Signals
  import opened SystemSignals
  import opened Timers
  import TT = TimerTables
  import opened SeqFacts
  import opened StateMachines

  /** The source the system stamps on the notices it sends. */
  const SystemPid := "SdlSystem"

  // ---------------------------------------------------------------------------
  // Process ids

  /** `f"{name}({id}.{instance})"`. */
  function BuildPid(name: string, id: nat, instance: nat): (pid: string)
    ensures |pid| > 0 && pid[|pid| - 1] == ')'
    ensures pid != SystemPid
  {
    name + "(" + NatToString(id) + "." + NatToString(instance) + ")"
  }

  /** The position of the first `c` in `s`, or |s|. */
  function IndexOfChar(s: string, c: char): (i: nat)
    ensures i <= |s|
    ensures i < |s| ==> s[i] == c
    ensures forall j :: 0 <= j < i ==> s[j] != c
  {
    if s == [] then 0 else if s[0] == c then 0 else 1 + IndexOfChar(s[1..], c)
  }

  /** Cutting `x + [c] + y` at its first `c` gives back `x` and `y` when `x` holds no `c`. */
  lemma SplitAtFirst(x1: string, y1: string, x2: string, y2: string, c: char)
    requires c !in x1 && c !in x2
    requires x1 + [c] + y1 == x2 + [c] + y2
    ensures x1 == x2 && y1 == y2
  {
    var s := x1 + [c] + y1;
    assert IndexOfChar(s, c) == |x1| by {
      assert s[|x1|] == c;
      assert forall j :: 0 <= j < |x1| ==> s[j] == x1[j];
    }
    assert IndexOfChar(s, c) == |x2| by {
      assert s[|x2|] == c;
      assert forall j :: 0 <= j < |x2| ==> s[j] == x2[j];
    }
    assert x1 == s[..|x1|] && x2 == s[..|x2|];
    assert y1 == s[|x1| + 1..] && y2 == s[|x2| + 1..];
  }

  /**
   * A pid names its process: equal pids (class names never contain '(') come from the same
   * class name, the same class id and the same instance number.
   */
  lemma PidDeterminesProcess(n1: string, id1: nat, i1: nat, n2: string, id2: nat, i2: nat)
    requires '(' !in n1 && '(' !in n2
    requires BuildPid(n1, id1, i1) == BuildPid(n2, id2, i2)
    ensures n1 == n2 && id1 == id2 && i1 == i2
  {
    var d1, e1 := NatToString(id1), NatToString(i1);
    var d2, e2 := NatToString(id2), NatToString(i2);
    PidShape(n1, id1, i1);
    PidShape(n2, id2, i2);
    SplitAtFirst(n1, d1 + ['.'] + (e1 + ")"), n2, d2 + ['.'] + (e2 + ")"), '(');
    assert '.' !in d1 && '.' !in d2 by {
      assert IsDigits(d1) && IsDigits(d2);
    }
    SplitAtFirst(d1, e1 + ")", d2, e2 + ")", '.');
    assert e1 == e2 by {
      assert e1 == (e1 + ")")[..|e1|] && e2 == (e2 + ")")[..|e2|];
    }
    NatToStringInjective(id1, id2);
    NatToStringInjective(i1, i2);
  }

  /** A pid is the class name, '(', then the rest, which starts with the class id and a '.'. */
  lemma PidShape(n: string, id: nat, i: nat)
    ensures BuildPid(n, id, i) == n + ['('] + (NatToString(id) + ['.'] + (NatToString(i) + ")"))
  {
    var d, e := NatToString(id), NatToString(i);
    assert n + "(" + d + "." + e + ")" == n + ['('] + (d + ['.'] + (e + ")"));
  }

  // ---------------------------------------------------------------------------
  // Delivery, as a value

  /** What one `output` returns and appends to the queue and to the ready list. */
  datatype Delivery = Delivery(result: Result<bool, SdlError>, enqueued: seq<Signal>, readied: seq<Process>)

  predicate HasDestination(s: Signal)
  {
    s.dst.Some? && s.dst.value != ""
  }

  /** `signal.set_dst(dst); signal.set_src(src)`. */
  function Addressed(s: Signal, src: string, dst: string): (r: Signal)
    ensures r == s.(src := Some(src), dst := Some(dst))
  {
    s.WithDst(dst).WithSrc(src)
  }

  /** The notice sent back to `src` when `s` is addressed to a `dst` that does not exist. */
  function Notice(s: Signal, dst: string, src: string): (n: Signal)
    ensures n.className == ProcessNotExistClass && n.kind == Kind.ProcessNotExist(s.className, dst, src)
    ensures n.src == Some(SystemPid) && n.dst == Some(src)
  {
    var n := ProcessNotExistSignal(s.className, dst, src);
    assert GetData(n, OriginalSignalKey) == s.className;
    assert GetData(n, DestinationKey) == dst && GetData(n, SourceKey) == src;
    Addressed(n, SystemPid, src)
  }

  /**
   * `output(signal)`: a missing signal or destination is a Validation error and nothing is sent;
   * a registered destination gets the signal (and is marked ready) and the result is true;
   * otherwise the result is false and, when the sender is registered, it gets a notice.
   */
  function Send(procMap: map<string, Process>, s: Option<Signal>): (d: Delivery)
    ensures |d.enqueued| == |d.readied| <= 1
    ensures s.None? ==> d.result == Err(ValidationError("signal", "Cannot output None as a signal"))
    ensures s.Some? && !HasDestination(s.value) ==>
      d.result == Err(ValidationError("signal.dst", "Signal has no destination"))
    ensures d.result.Err? ==> d.enqueued == []
    ensures d.result == Ok(true) <==> s.Some? && HasDestination(s.value) && s.value.dst.value in procMap
    ensures d.result == Ok(true) ==> d.enqueued == [s.value] && d.readied == [procMap[s.value.dst.value]]
    ensures d.result == Ok(false) ==>
      (d.enqueued != [] <==> s.value.src.Some? && s.value.src.value != "" && s.value.src.value in procMap)
    ensures d.result == Ok(false) && d.enqueued != [] ==>
      d.enqueued == [Notice(s.value, s.value.dst.value, s.value.src.value)] &&
      d.readied == [procMap[s.value.src.value]]
  {
    if s.None? then Delivery(Err(ValidationError("signal", "Cannot output None as a signal")), [], [])
    else if !HasDestination(s.value) then Delivery(Err(ValidationError("signal.dst", "Signal has no destination")), [], [])
    else
      var dst := s.value.dst.value;
      if dst in procMap then Delivery(Ok(true), [s.value], [procMap[dst]])
      else
        var src := s.value.src;
        if src.Some? && src.value != "" && src.value in procMap then
          Delivery(Ok(false), [Notice(s.value, dst, src.value)], [procMap[src.value]])
        else Delivery(Ok(false), [], [])
  }

  /**
   * A notice is never answered by another notice: its source is the system's own name, which
   * is no pid, so a notice to a vanished process is simply dropped.
   */
  lemma NoticeIsNeverBounced(procMap: map<string, Process>, s: Signal, dst: string, src: string)
    requires SystemPid !in procMap
    requires src != "" && src !in procMap
    ensures Send(procMap, Some(Notice(s, dst, src))) == Delivery(Ok(false), [], [])
  {
  }

  /** `output` on each signal in turn: everything enqueued and everything marked ready, in order. */
  function Broadcast(procMap: map<string, Process>, sigs: seq<Signal>): (d: (seq<Signal>, seq<Process>))
    ensures |d.0| == |d.1| <= |sigs|
    decreases |sigs|
  {
    if sigs == [] then ([], [])
    else
      var prior := Broadcast(procMap, sigs[..|sigs| - 1]);
      var last := Send(procMap, Some(sigs[|sigs| - 1]));
      (prior.0 + last.enqueued, prior.1 + last.readied)
  }

  lemma BroadcastSnoc(procMap: map<string, Process>, sigs: seq<Signal>, s: Signal)
    ensures var d := Send(procMap, Some(s));
      Broadcast(procMap, sigs + [s]) == (Broadcast(procMap, sigs).0 + d.enqueued, Broadcast(procMap, sigs).1 + d.readied)
  {
    assert (sigs + [s])[..|sigs|] == sigs;
  }

  /** Sending two batches one after the other delivers what sending them as one batch delivers. */
  lemma {:induction false} BroadcastAppend(procMap: map<string, Process>, a: seq<Signal>, b: seq<Signal>)
    ensures Broadcast(procMap, a + b) ==
      (Broadcast(procMap, a).0 + Broadcast(procMap, b).0, Broadcast(procMap, a).1 + Broadcast(procMap, b).1)
    decreases |b|
  {
    if b == [] {
      assert a + b == a;
      assert Broadcast(procMap, a).0 + [] == Broadcast(procMap, a).0;
      assert Broadcast(procMap, a).1 + [] == Broadcast(procMap, a).1;
    } else {
      var pre, x := b[..|b| - 1], b[|b| - 1];
      assert a + b == (a + pre) + [x];
      assert b == pre + [x];
      BroadcastAppend(procMap, a, pre);
      BroadcastSnoc(procMap, a + pre, x);
      BroadcastSnoc(procMap, pre, x);
      var d := Send(procMap, Some(x));
      AppendAssoc(Broadcast(procMap, a).0, Broadcast(procMap, pre).0, d.enqueued);
      AppendAssoc(Broadcast(procMap, a).1, Broadcast(procMap, pre).1, d.readied);
    }
  }

  /** Signals that all have a live destination are enqueued exactly, in order, each marking its receiver ready. */
  lemma {:induction false} BroadcastToRegistered(procMap: map<string, Process>, sigs: seq<Signal>)
    requires forall i :: 0 <= i < |sigs| ==> HasDestination(sigs[i]) && sigs[i].dst.value in procMap
    ensures Broadcast(procMap, sigs).0 == sigs
    ensures forall i :: 0 <= i < |sigs| && sigs[i].dst.Some? ==> Broadcast(procMap, sigs).1[i] == procMap[sigs[i].dst.value]
    decreases |sigs|
  {
    if sigs != [] {
      var pre := sigs[..|sigs| - 1];
      BroadcastToRegistered(procMap, pre);
      assert sigs == pre + [sigs[|sigs| - 1]];
    }
  }

  /**
   * What the re-send of a save buffer hands to the system: every saved signal that has a
   * destination, re-addressed to it and stamped with the sender's pid; one without a
   * destination is refused by `output` before anything is sent.
   */
  function Forwarded(pid: string, saved: seq<Signal>): (r: seq<Signal>)
    ensures |r| <= |saved|
    ensures forall i :: 0 <= i < |r| ==> r[i].src == Some(pid) && HasDestination(r[i])
    decreases |saved|
  {
    if saved == [] then []
    else
      var last := saved[|saved| - 1];
      Forwarded(pid, saved[..|saved| - 1]) + if HasDestination(last) then [Addressed(last, pid, last.dst.value)] else []
  }

  /** When every saved signal has a destination, all of them are re-sent, in the order they were saved. */
  lemma {:induction false} ForwardedAll(pid: string, saved: seq<Signal>)
    requires forall i :: 0 <= i < |saved| ==> HasDestination(saved[i])
    ensures |Forwarded(pid, saved)| == |saved|
    ensures forall i :: 0 <= i < |saved| && saved[i].dst.Some? ==> Forwarded(pid, saved)[i] == Addressed(saved[i], pid, saved[i].dst.value)
    decreases |saved|
  {
    if saved != [] {
      ForwardedAll(pid, saved[..|saved| - 1]);
    }
  }

  /** The ready list without any entry for `p`. */
  function Without(ready: seq<Process>, p: Process): (r: seq<Process>)
    ensures p !in r
    ensures forall i :: 0 <= i < |r| ==> r[i] in ready
    ensures forall i :: 0 <= i < |ready| && ready[i] != p ==> ready[i] in r
    ensures |r| <= |ready|
  {
    if ready == [] then []
    else if ready[0] == p then Without(ready[1..], p)
    else [ready[0]] + Without(ready[1..], p)
  }

  /** `list.remove(p)`: drops the first entry for `p`. */
  function RemoveFirst(ready: seq<Process>, p: Process): (r: seq<Process>)
    requires p in ready
    ensures |r| == |ready| - 1
  {
    if ready[0] == p then ready[1..] else [ready[0]] + RemoveFirst(ready[1..], p)
  }

  /** Removing one entry for `p` leaves the other processes' entries as they were. */
  lemma {:induction false} RemoveFirstKeepsOthers(ready: seq<Process>, p: Process)
    requires p in ready
    ensures Without(RemoveFirst(ready, p), p) == Without(ready, p)
    decreases |ready|
  {
    if ready[0] != p {
      assert p in ready[1..];
      RemoveFirstKeepsOthers(ready[1..], p);
    }
  }

  /** The Start signal a process sends itself when it registers. */
  function StartSignal(pid: string): (s: Signal)
    ensures s.className == StartClass && s.kind == Kind.Start && s.src == Some(pid) && s.dst == Some(pid)
  {
    Addressed(NewSignal(StartClass, Kind.Start), pid, pid)
  }

  /** The Stopping signal a process sends itself when it is asked to stop. */
  function StoppingSignal(pid: string): (s: Signal)
    ensures s.className == StoppingClass && s.kind == Kind.Stopping && s.src == Some(pid) && s.dst == Some(pid)
  {
    Addressed(NewSignal(StoppingClass, Kind.Stopping), pid, pid)
  }

  // ---------------------------------------------------------------------------
  // The system

  /** Every registered process is filed under its own pid and belongs to `system`. */
  ghost predicate FiledUnder(procMap: map<string, Process>, system: System)
  {
    forall pid :: pid in procMap ==> procMap[pid].pid == pid && procMap[pid].system == system
  }

  class System {
    /** The id allocator shared by every signal and process class. */
    const types: TypeIds
    /** The predefined start, wait and star states. */
    const states: PredefinedStates
    var procMap: map<string, Process>
    var timers: TT.TimerTable
    var readyList: seq<Process>
    var queue: seq<Signal>
    var stopped: bool

    /** Every registered process is filed under its own pid and belongs to this system; the timer registry is well formed. */
    ghost predicate Valid()
      reads this, types, types.gen
    {
      types.Valid() && Filed() && TT.Valid(timers)
    }

    ghost predicate Filed()
      reads this
    {
      FiledUnder(procMap, this)
    }

    constructor (types: TypeIds, states: PredefinedStates)
      requires types.Valid()
      ensures Valid() && this.types == types && this.states == states
      ensures procMap == map[] && timers == TT.Empty() && readyList == [] && queue == [] && !stopped
    {
      this.types := types;
      this.states := states;
      procMap := map[];
      timers := TT.Empty();
      readyList := [];
      queue := [];
      stopped := false;
    }

    /** `register(process)`: files a new pid; an already registered pid is left as it was. */
    method Register(p: Process?) returns (r: Result<bool, SdlError>)
      requires Valid()
      requires p != null ==> p.system == this
      modifies this
      ensures Valid()
      ensures p == null ==> r == Err(ValidationError("process", "Cannot register None as a process"))
      ensures p != null && p.pid == "" ==> r == Err(ValidationError("pid", "Process has invalid PID: " + p.pid))
      ensures p != null && p.pid != "" ==> r == Ok(p.pid !in old(procMap)) && p.pid in procMap
      ensures procMap == if p != null && p.pid != "" && p.pid !in old(procMap) then old(procMap)[p.pid := p] else old(procMap)
      ensures timers == old(timers) && readyList == old(readyList) && queue == old(queue) && stopped == old(stopped)
    {
      if p == null {
        return Err(ValidationError("process", "Cannot register None as a process"));
      }
      var pid := p.pid;
      if pid == "" {
        return Err(ValidationError("pid", "Process has invalid PID: " + pid));
      }
      if pid !in procMap {
        procMap := procMap[pid := p];
        return Ok(true);
      }
      r := Ok(false);
    }

    /**
     * `unregister(process)`: forgets the pid, deletes the pid's timers and removes every
     * ready-list entry for the process, keeping the others in order.
     */
    method Unregister(p: Process?) returns (r: Result<bool, SdlError>)
      requires Valid()
      modifies this
      ensures Valid()
      ensures p == null ==> r == Err(ValidationError("process", "Cannot unregister None as a process"))
      ensures p != null && p.pid == "" ==> r == Err(ValidationError("pid", "Process has invalid PID"))
      ensures p == null || p.pid == "" ==>
        procMap == old(procMap) && timers == old(timers) && readyList == old(readyList)
      ensures p != null && p.pid != "" ==>
        && r == Ok(true)
        && procMap == old(procMap) - {p.pid}
        && timers == TT.Put(old(timers), p.pid, [])
        && readyList == Without(old(readyList), p)
      ensures queue == old(queue) && stopped == old(stopped)
    {
      if p == null {
        return Err(ValidationError("process", "Cannot unregister None as a process"));
      }
      var pid := p.pid;
      if pid == "" {
        return Err(ValidationError("pid", "Process has invalid PID"));
      }
      var ready := RemoveAll(readyList, p);
      TT.PutValid(timers, pid, []);
      // Both deletions are no-ops for a pid that is not there.
      procMap := procMap - {pid};
      timers := TT.Put(timers, pid, []);
      readyList := ready;
      r := Ok(true);
    }

    /** `enqueue(signal)`: appends to the queue; None is a Validation error. */
    method Enqueue(s: Option<Signal>) returns (r: Result<(), SdlError>)
      modifies this
      ensures s.None? ==> r == Err(ValidationError("signal", "Cannot enqueue None as a signal")) && queue == old(queue)
      ensures s.Some? ==> r == Ok(()) && queue == old(queue) + [s.value]
      ensures procMap == old(procMap) && timers == old(timers) && readyList == old(readyList) && stopped == old(stopped)
    {
      if s.None? {
        return Err(ValidationError("signal", "Cannot enqueue None as a signal"));
      }
      queue := queue + [s.value];
      r := Ok(());
    }

    /** `lookup_proc_map(dst)`: a missing or empty pid is a Validation error; otherwise the process filed under it, if any. */
    function LookupProcMap(dst: Option<string>): (r: Result<Option<Process>, SdlError>)
      reads this
      ensures r.Err? <==> dst.None? || dst.value == ""
      ensures r.Err? ==> r.error == ValidationError("dst", "Invalid destination PID: " + OptionText(dst))
      ensures r.Ok? ==> (r.value.Some? <==> dst.value in procMap)
      ensures r.Ok? && r.value.Some? ==> procMap[dst.value] == r.value.value
    {
      if dst.None? || dst.value == "" then Err(ValidationError("dst", "Invalid destination PID: " + OptionText(dst)))
      else if dst.value in procMap then Ok(Some(procMap[dst.value]))
      else Ok(None)
    }

    /** `output(signal)`, as `Send` describes it. */
    method Output(s: Option<Signal>) returns (r: Result<bool, SdlError>)
      requires Filed()
      modifies this
      ensures Filed()
      ensures var d := Send(old(procMap), s);
        r == d.result && queue == old(queue) + d.enqueued && readyList == old(readyList) + d.readied
      ensures procMap == old(procMap) && timers == old(timers) && stopped == old(stopped)
    {
      if s.None? {
        return Err(ValidationError("signal", "Cannot output None as a signal"));
      }
      var signal := s.value;
      if signal.dst.None? || signal.dst.value == "" {
        return Err(ValidationError("signal.dst", "Signal has no destination"));
      }
      var dst := signal.dst.value;
      if dst in procMap {
        var process := procMap[dst];
        readyList := readyList + [process];
        process.Input(signal);
        return Ok(true);
      }
      var src := signal.src;
      if src.Some? && src.value != "" && src.value in procMap {
        var notice := Notice(signal, dst, src.value);
        var source := procMap[src.value];
        readyList := readyList + [source];
        source.Input(notice);
      }
      r := Ok(false);
    }

    /**
     * `startTimer(timer)`: None is a Validation error and a timer without a source a Timer
     * error (rendering the timer needs its class id); otherwise an equal running timer is
     * stopped and the timer is appended to its owner's list.
     */
    method StartTimer(t: Option<Timer>) returns (r: Result<(), SdlError>)
      requires Valid()
      modifies this, types, types.gen
      ensures Valid()
      ensures t.None? ==> r == Err(ValidationError("timer", "Cannot start None as a timer")) && timers == old(timers)
      ensures t.Some? && (t.value.src.None? || t.value.src.value == "") ==>
        && SignalType(t.value.className) in types.ids
        && r == Err(TimerError(TimerText(t.value, types.ids[SignalType(t.value.className)]), "Timer has no source PID"))
        && timers == old(timers)
      ensures t.Some? && t.value.src.Some? && t.value.src.value != "" ==>
        && r == Ok(())
        && timers == TT.Start(old(timers), t.value)
      ensures procMap == old(procMap) && readyList == old(readyList) && queue == old(queue) && stopped == old(stopped)
      ensures forall k :: k in old(types.ids) ==> k in types.ids && types.ids[k] == old(types.ids)[k]
    {
      if t.None? {
        return Err(ValidationError("timer", "Cannot start None as a timer"));
      }
      var timer := t.value;
      if timer.src.None? || timer.src.value == "" {
        r := NoSourceError(types, timer);
        return;
      }
      TT.StartKeepsOneEqual(timers, timer);
      timers := TT.Start(timers, timer);
      r := Ok(());
    }

    /** The Timer error for a timer without a source; rendering the timer needs its class id. */
    static method NoSourceError(types: TypeIds, timer: Timer) returns (r: Result<(), SdlError>)
      requires types.Valid()
      modifies types, types.gen
      ensures types.Valid()
      ensures SignalType(timer.className) in types.ids
      ensures r == Err(TimerError(TimerText(timer, types.ids[SignalType(timer.className)]), "Timer has no source PID"))
      ensures forall k :: k in old(types.ids) ==> k in types.ids && types.ids[k] == old(types.ids)[k]
    {
      var id := SignalId(types, timer);
      r := Err(TimerError(TimerText(timer, id), "Timer has no source PID"));
    }

    /**
     * `stopTimer(timer)`: None is a Validation error; otherwise removes the first timer equal to
     * it from its source's list (deleting an emptied list) and says whether there was one.
     */
    method StopTimer(t: Option<Timer>) returns (r: Result<bool, SdlError>)
      requires Valid()
      modifies this
      ensures Valid()
      ensures t.None? ==> r == Err(ValidationError("timer", "Cannot stop None as a timer")) && timers == old(timers)
      ensures t.Some? ==> r == Ok(TT.Stop(old(timers), t.value).1) && timers == TT.Stop(old(timers), t.value).0
      ensures procMap == old(procMap) && readyList == old(readyList) && queue == old(queue) && stopped == old(stopped)
    {
      if t.None? {
        return Err(ValidationError("timer", "Cannot stop None as a timer"));
      }
      var timer := t.value;
      TT.StopValid(timers, timer);
      if timer.src.None? || timer.src.value == "" {
        return Ok(false);
      }
      var pid := timer.src.value;
      if pid !in timers.lists {
        return Ok(false);
      }
      var list := timers.lists[pid];
      var i := TT.FirstSame(list, timer);
      if i == |list| {
        return Ok(false);
      }
      timers := TT.Put(timers, pid, TT.RemoveFirstSame(list, timer));
      r := Ok(true);
    }

    /** `get_next_signal()` under the scheduler's timeout: the head of the queue, or None when it is empty. */
    method GetNextSignal() returns (s: Option<Signal>)
      modifies this
      ensures old(queue) == [] ==> s.None? && queue == []
      ensures old(queue) != [] ==> s == Some(old(queue)[0]) && queue == old(queue)[1..]
      ensures procMap == old(procMap) && timers == old(timers) && readyList == old(readyList) && stopped == old(stopped)
    {
      if queue == [] {
        return None;
      }
      s := Some(queue[0]);
      queue := queue[1..];
    }

    /**
     * `_process_signal(signal)`: a missing destination is a Validation error; a signal for an
     * unknown pid is dropped; otherwise the receiver's handler for its current state and the
     * signal's class, by the four-tier lookup, or none.
     */
    method ProcessSignal(s: Signal) returns (r: Result<Option<HandlerId>, SdlError>)
      requires Valid()
      modifies types, types.gen
      ensures Valid()
      ensures !HasDestination(s) ==> r == Err(ValidationError("dst", "Invalid destination PID: " + OptionText(s.dst)))
      ensures HasDestination(s) && s.dst.value !in procMap ==> r == Ok(None)
      ensures HasDestination(s) && s.dst.value in procMap ==>
        var p := procMap[s.dst.value];
        && SignalType(s.className) in types.ids
        && r == Ok(Lookup(p.fsm.handlers, p.fsm.star, StarSignalId(types), p.state, types.ids[SignalType(s.className)]))
      ensures !HasDestination(s) || s.dst.value !in procMap ==> types.ids == old(types.ids)
      ensures types.ids.Keys <= old(types.ids).Keys + {SignalType(s.className), SignalType(StarClass)}
      ensures forall k :: k in old(types.ids) ==> k in types.ids && types.ids[k] == old(types.ids)[k]
    {
      var found := LookupProcMap(s.dst);
      if found.Err? {
        return Err(found.error);
      }
      if found.value.None? {
        return Ok(None);
      }
      var process := found.value.value;
      r := process.LookupTransition(Some(s));
    }

    /** `stop()`: asks the scheduler to stop after the current step. */
    method Stop()
      modifies this
      ensures stopped
      ensures procMap == old(procMap) && timers == old(timers) && readyList == old(readyList) && queue == old(queue)
    {
      stopped := true;
    }

    /**
     * `expire(now)`: observes `now` on every timer, owner by owner in registry order, sending each
     * fired one through `output` as it goes; then stops every timer that fired. Afterwards each
     * owner holds exactly its timers whose deadline lies after `now`.
     */
    method Expire(now: int)
      requires Valid()
      modifies this
      ensures Valid()
      ensures timers == TT.Swept(old(timers), now)
      ensures var observed := TT.Observe(old(timers), now);
        var sent := Broadcast(old(procMap), TT.Due(observed, observed.owners));
        queue == old(queue) + sent.0 && readyList == old(readyList) + sent.1
      ensures procMap == old(procMap) && stopped == old(stopped)
    {
      var expired := ObserveAll(now);
      TT.ObserveValid(old(timers), now);
      StopEach(expired);
      TT.ExpireKeepsPending(old(timers), now);
    }

    /**
     * `expire`'s first pass: observes `now` on every timer, owner by owner in registry order,
     * sending each fired one as it goes. Returns the fired timers in that order.
     */
    method ObserveAll(now: int) returns (expired: seq<Timer>)
      requires Filed() && TT.NoDuplicates(timers.owners)
      requires forall q :: q in timers.lists <==> q in timers.owners
      modifies this
      ensures Filed()
      ensures timers == TT.Observe(old(timers), now)
      ensures expired == TT.Due(timers, timers.owners)
      ensures queue == old(queue) + Broadcast(procMap, expired).0 && readyList == old(readyList) + Broadcast(procMap, expired).1
      ensures procMap == old(procMap) && stopped == old(stopped)
    {
      ghost var start := timers;
      ghost var observed := TT.Observe(start, now);
      var owners := timers.owners;
      var table := timers;
      expired := [];
      var i := 0;
      while i < |owners|
        invariant 0 <= i <= |owners|
        invariant start.owners == owners && TT.NoDuplicates(owners)
        invariant forall q :: q in owners ==> q in start.lists
        invariant Filed() && procMap == old(procMap) && stopped == old(stopped) && timers == start
        invariant table == TT.ObserveOwners(start, owners[..i], now)
        invariant expired == TT.Due(observed, owners[..i])
        invariant queue == old(queue) + Broadcast(procMap, expired).0
        invariant readyList == old(readyList) + Broadcast(procMap, expired).1
      {
        table, expired := ObserveNextOwner(now, start, owners, i, table, expired, old(queue), old(readyList));
        i := i + 1;
      }
      TT.ObserveWalkDone(start, now, owners, i, table, expired);
      timers := table;
    }

    /** One step of `ObserveAll`: observes the timers of the `i`-th owner and sends those that fire. */
    method ObserveNextOwner(now: int, ghost start: TT.TimerTable, owners: seq<string>, i: nat, table: TT.TimerTable,
                            expired: seq<Timer>, ghost q0: seq<Signal>, ghost r0: seq<Process>)
      returns (table': TT.TimerTable, expired': seq<Timer>)
      requires i < |owners| && TT.NoDuplicates(owners) && forall q :: q in owners ==> q in start.lists
      requires Filed()
      requires table == TT.ObserveOwners(start, owners[..i], now)
      requires expired == TT.Due(TT.Observe(start, now), owners[..i])
      requires queue == q0 + Broadcast(procMap, expired).0 && readyList == r0 + Broadcast(procMap, expired).1
      modifies this
      ensures Filed() && procMap == old(procMap) && stopped == old(stopped) && timers == old(timers)
      ensures table' == TT.ObserveOwners(start, owners[..i+1], now)
      ensures expired' == TT.Due(TT.Observe(start, now), owners[..i+1])
      ensures queue == q0 + Broadcast(procMap, expired').0 && readyList == r0 + Broadcast(procMap, expired').1
    {
      var pid := owners[i];
      TT.ObserveOwnersStep(start, owners, i, now);
      var seen, fired := ObserveAndSend(table.lists[pid], now, expired, q0, r0);
      table' := TT.TimerTable(table.lists[pid := seen], table.owners);
      expired' := expired + fired;
    }

    method ObserveAndSend(list: seq<Timer>, now: int, ghost prior: seq<Timer>, ghost q0: seq<Signal>, ghost r0: seq<Process>)
      returns (seen: seq<Timer>, fired: seq<Timer>)
      requires Filed()
      requires queue == q0 + Broadcast(procMap, prior).0 && readyList == r0 + Broadcast(procMap, prior).1
      modifies this
      ensures Filed()
      ensures seen == TT.ObserveList(list, now) && fired == TT.Fired(seen)
      ensures queue == q0 + Broadcast(procMap, prior + fired).0 && readyList == r0 + Broadcast(procMap, prior + fired).1
      ensures procMap == old(procMap) && timers == old(timers) && stopped == old(stopped)
    {
      seen := [];
      fired := [];
      assert prior + fired == prior;
      ghost var sent := Broadcast(procMap, prior);
      var j := 0;
      while j < |list|
        invariant 0 <= j <= |list|
        invariant Filed() && procMap == old(procMap) && stopped == old(stopped) && timers == old(timers)
        invariant seen == TT.ObserveList(list[..j], now)
        invariant fired == TT.Fired(seen)
        invariant sent == Broadcast(procMap, prior + fired)
        invariant queue == q0 + sent.0 && readyList == r0 + sent.1
      {
        var t := Timers.Expire(list[j], now);
        TT.FiredSnoc(seen, t);
        ObservePrefix(list, j, now);
        seen := seen + [t];
        if Expired(t) {
          ghost var qb, rb := queue, readyList;
          var _ := Output(Some(t));
          ghost var d := Send(procMap, Some(t));
          assert queue == qb + d.enqueued && readyList == rb + d.readied;
          AppendAssoc(q0, sent.0, d.enqueued);
          AppendAssoc(r0, sent.1, d.readied);
          BroadcastSnoc(procMap, prior + fired, t);
          AppendAssoc(prior, fired, [t]);
          sent := (sent.0 + d.enqueued, sent.1 + d.readied);
          fired := fired + [t];
        }
        j := j + 1;
      }
      WholePrefix(list);
    }

    /** `expire`'s second pass: `stopTimer` on each timer that fired, in order. */
    method StopEach(ts: seq<Timer>)
      requires Valid()
      modifies this
      ensures Valid()
      ensures timers == TT.StopAll(old(timers), ts)
      ensures procMap == old(procMap) && queue == old(queue) && readyList == old(readyList) && stopped == old(stopped)
    {
      var k := 0;
      while k < |ts|
        invariant 0 <= k <= |ts|
        invariant Valid()
        invariant timers == TT.StopAll(old(timers), ts[..k])
        invariant procMap == old(procMap) && queue == old(queue) && readyList == old(readyList) && stopped == old(stopped)
      {
        var _ := StopTimer(Some(ts[k]));
        TT.StopAllSnoc(old(timers), ts[..k], ts[k]);
        assert ts[..k + 1] == ts[..k] + [ts[k]];
        k := k + 1;
      }
      assert ts[..|ts|] == ts;
    }

    /**
     * One turn of `run()`: take the next signal if there is one and find its handler, then
     * sweep the timers at `now`, then report whether the system has been asked to stop.
     */
    method RunStep(now: int) returns (handled: Option<HandlerId>, done: bool)
      requires Valid()
      modifies this, types, types.gen
      ensures Valid()
      ensures done == stopped && stopped == old(stopped)
      ensures old(queue) == [] ==> handled.None?
      ensures timers == TT.Swept(old(timers), now)
      ensures var rest := if old(queue) == [] then [] else old(queue)[1..];
        var observed := TT.Observe(old(timers), now);
        queue == rest + Broadcast(old(procMap), TT.Due(observed, observed.owners)).0
      ensures old(queue) == [] ==> types.ids == old(types.ids)
      ensures old(queue) != [] ==> types.ids.Keys <= old(types.ids).Keys + {SignalType(old(queue)[0].className), SignalType(StarClass)}
      ensures procMap == old(procMap)
    {
      handled := None;
      var signal := GetNextSignal();
      if signal.Some? {
        var found := ProcessSignal(signal.value);
        if found.Ok? {
          handled := found.value;
        }
      }
      Expire(now);
      done := stopped;
    }
  }

  /** `while p in ready: ready.remove(p)`: every entry for `p` goes, the others stay in order. */
  method RemoveAll(ready: seq<Process>, p: Process) returns (r: seq<Process>)
    ensures r == Without(ready, p)
  {
    r := ready;
    while p in r
      invariant Without(r, p) == Without(ready, p)
      decreases |r|
    {
      RemoveFirstKeepsOthers(r, p);
      r := RemoveFirst(r, p);
    }
    WithoutAbsent(r, p);
  }

  /** One more timer observed. */
  lemma ObservePrefix(list: seq<Timer>, j: nat, now: int)
    requires j < |list|
    ensures TT.ObserveList(list[..j + 1], now) == TT.ObserveList(list[..j], now) + [Timers.Expire(list[j], now)]
  {
    assert list[..j + 1] == list[..j] + [list[j]];
    assert TT.ObserveList(list[..j + 1], now) == TT.ObserveList(list[..j], now) + [Timers.Expire(list[j], now)];
  }

  /** One more saved signal re-sent: a signal without a destination changes nothing. */
  lemma ResendStep(procMap: map<string, Process>, pid: string, saved: seq<Signal>, i: nat)
    requires i < |saved|
    ensures var before := Broadcast(procMap, Forwarded(pid, saved[..i]));
      var after := Broadcast(procMap, Forwarded(pid, saved[..i + 1]));
      if HasDestination(saved[i]) then
        var d := Send(procMap, Some(Addressed(saved[i], pid, saved[i].dst.value)));
        after == (before.0 + d.enqueued, before.1 + d.readied)
      else after == before
  {
    var prefix := saved[..i + 1];
    assert prefix[..|prefix| - 1] == saved[..i] && prefix[|prefix| - 1] == saved[i];
    assert Forwarded(pid, prefix) == Forwarded(pid, saved[..i]) + if HasDestination(saved[i]) then [Addressed(saved[i], pid, saved[i].dst.value)] else [];
    if HasDestination(saved[i]) {
      BroadcastSnoc(procMap, Forwarded(pid, saved[..i]), Addressed(saved[i], pid, saved[i].dst.value));
    } else {
      assert Forwarded(pid, saved[..i]) + [] == Forwarded(pid, saved[..i]);
    }
  }

  lemma {:induction false} WithoutAbsent(ready: seq<Process>, p: Process)
    requires p !in ready
    ensures Without(ready, p) == ready
    decreases |ready|
  {
    if ready != [] {
      WithoutAbsent(ready[1..], p);
    }
  }

  // ---------------------------------------------------------------------------
  // Process classes and processes

  /** One `self._event(state, SignalClass, handler)` call of a class's state-machine setup. */
  datatype Setup = Setup(state: State, signalClass: string, handler: HandlerId)

  /**
   * A process class: its name, whether it is a singleton, its state-machine setup, and the
   * class attributes that `__init__` and the singleton `create` update.
   */
  class ProcessClass {
    const name: string
    const isSingleton: bool
    const setup: seq<Setup>
    var instanceCount: nat
    var singletonInstance: Process?

    /** A singleton class never counts instances: its one instance is number 0. */
    ghost predicate Valid()
      reads this
    {
      isSingleton ==> instanceCount == 0
    }

    constructor (name: string, isSingleton: bool, setup: seq<Setup>)
      ensures Valid()
      ensures this.name == name && this.isSingleton == isSingleton && this.setup == setup
      ensures instanceCount == 0 && singletonInstance == null
    {
      this.name := name;
      this.isSingleton := isSingleton;
      this.setup := setup;
      instanceCount := 0;
      singletonInstance := null;
    }
  }

  /** The setup calls with their signal classes turned into ids. */
  function Resolve(setup: seq<Setup>, ids: map<TypeKey, nat>): (bs: seq<Binding>)
    requires forall k :: 0 <= k < |setup| ==> SignalType(setup[k].signalClass) in ids
    ensures |bs| == |setup|
    ensures forall k :: 0 <= k < |setup| ==>
      bs[k] == Binding(setup[k].state, ids[SignalType(setup[k].signalClass)], setup[k].handler)
  {
    seq(|setup|, k requires 0 <= k < |setup| => Binding(setup[k].state, ids[SignalType(setup[k].signalClass)], setup[k].handler))
  }

  /** One more setup call replayed, with ids that only grew since the earlier ones were resolved. */
  lemma ResolveStep(t: Table, setup: seq<Setup>, i: nat, before: map<TypeKey, nat>, after: map<TypeKey, nat>)
    requires i < |setup|
    requires forall k :: 0 <= k < i ==> SignalType(setup[k].signalClass) in before
    requires forall k :: k in before ==> k in after && after[k] == before[k]
    requires SignalType(setup[i].signalClass) in after
    ensures forall k :: 0 <= k <= i ==> SignalType(setup[k].signalClass) in after
    ensures BuildTable(t, Resolve(setup[..i + 1], after))
         == Bind(BuildTable(t, Resolve(setup[..i], before)), setup[i].state, after[SignalType(setup[i].signalClass)], setup[i].handler)
  {
    var longer := Resolve(setup[..i + 1], after);
    assert longer[..i] == Resolve(setup[..i], before);
  }

  /** Ids that only grow resolve the same setup to the same bindings. */
  lemma ResolveStable(setup: seq<Setup>, before: map<TypeKey, nat>, after: map<TypeKey, nat>)
    requires forall k :: 0 <= k < |setup| ==> SignalType(setup[k].signalClass) in before
    requires forall k :: k in before ==> k in after && after[k] == before[k]
    ensures forall k :: 0 <= k < |setup| ==> SignalType(setup[k].signalClass) in after
    ensures Resolve(setup, after) == Resolve(setup, before)
  {
  }

  class Process {
    const system: System
    const cls: ProcessClass
    const parent: Option<string>
    /** The class id. */
    const typeId: nat
    const instance: nat
    const pid: string
    const fsm: StateMachine
    var state: State
    var saved: seq<Signal>

    /** The pid is built from the class name, class id and instance number; the system is well formed. */
    ghost predicate Valid()
      reads system, system.types, system.types.gen
    {
      pid == BuildPid(cls.name, typeId, instance) && system.Valid()
    }

    /**
     * `__init__`: takes the class id (allocating it on first use), counts the instance unless
     * the class is a singleton, builds the pid and starts in the start state with an empty
     * state machine and an empty save buffer.
     */
    constructor (cls: ProcessClass, parent: Option<string>, system: System)
      requires system.Valid() && cls.Valid()
      modifies cls, system.types, system.types.gen
      ensures Valid() && cls.Valid()
      ensures this.system == system && this.cls == cls && this.parent == parent
      ensures ProcessType(cls.name) in system.types.ids && typeId == system.types.ids[ProcessType(cls.name)]
      ensures cls.isSingleton ==> instance == 0 && cls.instanceCount == 0
      ensures !cls.isSingleton ==> instance == old(cls.instanceCount) + 1 && cls.instanceCount == instance
      ensures cls.singletonInstance == old(cls.singletonInstance)
      ensures fresh(fsm) && fsm.star == system.states.star && fsm.handlers == map[]
      ensures state == system.states.start && saved == []
      ensures forall k :: k in old(system.types.ids) ==> k in system.types.ids && system.types.ids[k] == old(system.types.ids)[k]
    {
      var id := system.types.IdOf(ProcessType(cls.name));
      if !cls.isSingleton {
        cls.instanceCount := cls.instanceCount + 1;
      }
      this.system := system;
      this.cls := cls;
      this.parent := parent;
      typeId := id;
      instance := cls.instanceCount;
      pid := BuildPid(cls.name, id, cls.instanceCount);
      fsm := new StateMachine(system.states.star);
      state := system.states.start;
      saved := [];
    }

    /** `input(signal)`: posts the signal on the system queue. */
    method Input(s: Signal)
      modifies system
      ensures system.queue == old(system.queue) + [s]
      ensures system.procMap == old(system.procMap) && system.timers == old(system.timers)
      ensures system.readyList == old(system.readyList) && system.stopped == old(system.stopped)
    {
      var _ := system.Enqueue(Some(s));
    }

    /** `save_signal(signal)`: appends to the save buffer. */
    method SaveSignal(s: Signal)
      modifies this
      ensures saved == old(saved) + [s] && state == old(state)
    {
      saved := saved + [s];
    }

    /** `output(signal, dst)`: an empty destination is a Validation error; otherwise the signal is addressed and stamped with this pid and handed to the system. */
    method Output(s: Signal, dst: Option<string>) returns (r: Result<bool, SdlError>)
      requires Valid()
      modifies system
      ensures Valid()
      ensures dst.None? || dst.value == "" ==>
        && r == Err(ValidationError("dst", "Invalid destination PID: " + OptionText(dst)))
        && system.queue == old(system.queue) && system.readyList == old(system.readyList)
      ensures dst.Some? && dst.value != "" ==>
        var d := Send(old(system.procMap), Some(Addressed(s, pid, dst.value)));
        r == d.result && system.queue == old(system.queue) + d.enqueued && system.readyList == old(system.readyList) + d.readied
      ensures system.procMap == old(system.procMap) && system.timers == old(system.timers) && system.stopped == old(system.stopped)
    {
      if dst.None? || dst.value == "" {
        return Err(ValidationError("dst", "Invalid destination PID: " + OptionText(dst)));
      }
      var signal := Addressed(s, pid, dst.value);
      r := system.Output(Some(signal));
    }

    /**
     * `next_state(state)`: None is a Validation error. Moving to the current state does nothing;
     * moving to another state re-sends every saved signal to its own destination, in order,
     * and keeps the buffer (it is never emptied).
     */
    method NextState(s: State?) returns (r: Result<(), SdlError>)
      requires Valid()
      modifies this, system
      ensures Valid()
      ensures s == null ==> r == Err(ValidationError("state", "Cannot transition to None state"))
      ensures s != null ==> r == Ok(()) && state == s
      ensures s == null || s == old(state) ==>
        state == old(state) && system.queue == old(system.queue) && system.readyList == old(system.readyList)
      ensures s != null && s != old(state) ==>
        var sent := Broadcast(old(system.procMap), Forwarded(pid, saved));
        system.queue == old(system.queue) + sent.0 && system.readyList == old(system.readyList) + sent.1
      ensures saved == old(saved)
      ensures system.procMap == old(system.procMap) && system.timers == old(system.timers) && system.stopped == old(system.stopped)
    {
      if s == null {
        return Err(ValidationError("state", "Cannot transition to None state"));
      }
      if s != state {
        state := s;
        ResendSaved();
      }
      r := Ok(());
    }

    /** `next_state`'s loop: outputs every saved signal to its own destination, in order. */
    method ResendSaved()
      requires Valid()
      modifies system
      ensures Valid()
      ensures var sent := Broadcast(old(system.procMap), Forwarded(pid, saved));
        system.queue == old(system.queue) + sent.0 && system.readyList == old(system.readyList) + sent.1
      ensures system.procMap == old(system.procMap) && system.timers == old(system.timers) && system.stopped == old(system.stopped)
    {
      var i := 0;
      while i < |saved|
        invariant 0 <= i <= |saved|
        invariant Valid()
        invariant system.procMap == old(system.procMap) && system.timers == old(system.timers)
        invariant system.stopped == old(system.stopped)
        invariant var sent := Broadcast(system.procMap, Forwarded(pid, saved[..i]));
          system.queue == old(system.queue) + sent.0 && system.readyList == old(system.readyList) + sent.1
      {
        var signal := saved[i];
        ghost var before := Broadcast(system.procMap, Forwarded(pid, saved[..i]));
        ResendStep(system.procMap, pid, saved, i);
        var _ := Output(signal, signal.dst);
        if HasDestination(signal) {
          ghost var d := Send(system.procMap, Some(Addressed(signal, pid, signal.dst.value)));
          AppendAssoc(old(system.queue), before.0, d.enqueued);
          AppendAssoc(old(system.readyList), before.1, d.readied);
        }
        i := i + 1;
      }
      WholePrefix(saved);
    }

    /**
     * `start_timer(timer, msec)` at wall-clock time `now`: a negative duration is a Timer error;
     * otherwise the timer is addressed to this process, set to fire at `now + msec` and started.
     */
    method StartTimer(t: Timer, msec: int, now: int) returns (r: Result<(), SdlError>)
      requires Valid()
      modifies system, system.types, system.types.gen
      ensures Valid()
      ensures msec < 0 ==>
        && SignalType(t.className) in system.types.ids
        && r == Err(TimerError(TimerText(t, system.types.ids[SignalType(t.className)]),
                               "Timer duration cannot be negative: " + IntToString(msec) + "ms"))
        && system.timers == old(system.timers)
      ensures msec >= 0 ==>
        r == Ok(()) && system.timers == TT.Start(old(system.timers), Timers.Start(Addressed(t, pid, pid), now + msec))
      ensures system.procMap == old(system.procMap) && system.queue == old(system.queue)
      ensures system.readyList == old(system.readyList) && system.stopped == old(system.stopped)
    {
      if msec < 0 {
        var id := SignalId(system.types, t);
        return Err(TimerError(TimerText(t, id), "Timer duration cannot be negative: " + IntToString(msec) + "ms"));
      }
      var timer := Timers.Start(Addressed(t, pid, pid), now + msec);
      r := system.StartTimer(Some(timer));
    }

    /** `start_timer_abs(timer, sec)`: a deadline that is not positive is a Timer error; otherwise as `StartTimer` with that deadline. */
    method StartTimerAbs(t: Timer, sec: int) returns (r: Result<(), SdlError>)
      requires Valid()
      modifies system, system.types, system.types.gen
      ensures Valid()
      ensures sec <= 0 ==>
        && SignalType(t.className) in system.types.ids
        && r == Err(TimerError(TimerText(t, system.types.ids[SignalType(t.className)]),
                               "Timer absolute time must be positive: " + IntToString(sec)))
        && system.timers == old(system.timers)
      ensures sec > 0 ==>
        r == Ok(()) && system.timers == TT.Start(old(system.timers), Timers.Start(Addressed(t, pid, pid), sec))
      ensures system.procMap == old(system.procMap) && system.queue == old(system.queue)
      ensures system.readyList == old(system.readyList) && system.stopped == old(system.stopped)
    {
      if sec <= 0 {
        var id := SignalId(system.types, t);
        return Err(TimerError(TimerText(t, id), "Timer absolute time must be positive: " + IntToString(sec)));
      }
      var timer := Timers.Start(Addressed(t, pid, pid), sec);
      r := system.StartTimer(Some(timer));
    }

    /** `stop_timer(timer)`: addresses the timer to this process and stops it; failures are only logged. */
    method StopTimer(t: Timer)
      requires Valid()
      modifies system
      ensures Valid()
      ensures system.timers == TT.Stop(old(system.timers), Addressed(t, pid, pid)).0
      ensures system.procMap == old(system.procMap) && system.queue == old(system.queue)
      ensures system.readyList == old(system.readyList) && system.stopped == old(system.stopped)
    {
      var timer := Addressed(t, pid, pid);
      var _ := system.StopTimer(Some(timer));
    }

    /** `stop()`: sends itself a Stopping signal. */
    method Stop()
      requires Valid()
      modifies system, system.types, system.types.gen
      ensures Valid()
      ensures var d := Send(old(system.procMap), Some(StoppingSignal(pid)));
        system.queue == old(system.queue) + d.enqueued && system.readyList == old(system.readyList) + d.readied
      ensures system.procMap == old(system.procMap) && system.timers == old(system.timers) && system.stopped == old(system.stopped)
    {
      var s := Signals.Create(system.types, StoppingClass, Kind.Stopping);
      var _ := Output(s, Some(pid));
    }

    /** `stop_process()`: unregisters this process from its system. */
    method StopProcess()
      requires Valid()
      modifies system
      ensures Valid()
      ensures system.procMap == old(system.procMap) - {pid}
      ensures system.timers == TT.Put(old(system.timers), pid, [])
      ensures system.readyList == Without(old(system.readyList), this)
      ensures system.queue == old(system.queue)
    {
      var _ := system.Unregister(this);
    }

    /** `_register`'s loop: replays the class's `state(s).event(e).handler(h)` calls on the state machine. */
    method RunSetup()
      requires system.types.Valid()
      modifies fsm, system.types, system.types.gen
      ensures system.types.Valid()
      ensures forall k :: 0 <= k < |cls.setup| ==> SignalType(cls.setup[k].signalClass) in system.types.ids
      ensures fsm.handlers == BuildTable(old(fsm.handlers), Resolve(cls.setup, system.types.ids))
      ensures forall k :: k in old(system.types.ids) ==> k in system.types.ids && system.types.ids[k] == old(system.types.ids)[k]
    {
      var i := 0;
      while i < |cls.setup|
        invariant 0 <= i <= |cls.setup|
        invariant system.types.Valid()
        invariant forall k :: 0 <= k < i ==> SignalType(cls.setup[k].signalClass) in system.types.ids
        invariant fsm.handlers == BuildTable(old(fsm.handlers), Resolve(cls.setup[..i], system.types.ids))
        invariant forall k :: k in old(system.types.ids) ==> k in system.types.ids && system.types.ids[k] == old(system.types.ids)[k]
      {
        var b := cls.setup[i];
        ghost var before := system.types.ids;
        var _ := fsm.SetState(b.state);
        var _ := fsm.SetEvent(system.types, Some(b.signalClass));
        var _ := fsm.SetHandler(b.handler);
        ResolveStep(old(fsm.handlers), cls.setup, i, before, system.types.ids);
        i := i + 1;
      }
      WholePrefix(cls.setup);
    }

    /**
     * `_register()`: runs the class's state-machine setup, registers with the system and sends
     * itself the Start signal, which (the pid being registered now) is enqueued.
     */
    method Register()
      requires Valid()
      modifies fsm, system, system.types, system.types.gen
      ensures Valid()
      ensures forall k :: 0 <= k < |cls.setup| ==> SignalType(cls.setup[k].signalClass) in system.types.ids
      ensures fsm.handlers == BuildTable(old(fsm.handlers), Resolve(cls.setup, system.types.ids))
      ensures system.procMap == if pid in old(system.procMap) then old(system.procMap) else old(system.procMap)[pid := this]
      ensures system.queue == old(system.queue) + [StartSignal(pid)]
      ensures system.readyList == old(system.readyList) + [system.procMap[pid]]
      ensures system.timers == old(system.timers) && system.stopped == old(system.stopped)
    {
      RunSetup();
      ghost var resolved := system.types.ids;
      var _ := system.Register(this);
      var start := Signals.Create(system.types, StartClass, Kind.Start);
      ResolveStable(cls.setup, resolved, system.types.ids);
      var _ := Output(start, Some(pid));
    }

    /** `lookup_transition(signal)`: None is a Validation error; otherwise the four-tier lookup for the current state and the signal's class id. */
    method LookupTransition(s: Option<Signal>) returns (r: Result<Option<HandlerId>, SdlError>)
      requires system.types.Valid()
      modifies system.types, system.types.gen
      ensures system.types.Valid()
      ensures s.None? ==> r == Err(ValidationError("signal", "Cannot lookup transition for None signal"))
      ensures s.Some? ==>
        && SignalType(s.value.className) in system.types.ids
        && r == Ok(Lookup(fsm.handlers, fsm.star, StarSignalId(system.types), state, system.types.ids[SignalType(s.value.className)]))
      ensures s.None? ==> system.types.ids == old(system.types.ids)
      ensures s.Some? ==> system.types.ids.Keys <= old(system.types.ids).Keys + {SignalType(s.value.className), SignalType(StarClass)}
      ensures s.Some? && SignalType(s.value.className) in system.types.ids &&
              (Bound(fsm.handlers, state, system.types.ids[SignalType(s.value.className)]) ||
               Bound(fsm.handlers, fsm.star, system.types.ids[SignalType(s.value.className)])) ==>
        system.types.ids.Keys == old(system.types.ids).Keys + {SignalType(s.value.className)}
      ensures forall k :: k in old(system.types.ids) ==> k in system.types.ids && system.types.ids[k] == old(system.types.ids)[k]
    {
      if s.None? {
        return Err(ValidationError("signal", "Cannot lookup transition for None signal"));
      }
      var id := SignalId(system.types, s.value);
      ghost var afterId := system.types.ids;
      r := fsm.Find(system.types, state, Some(id));
    }

    /** `create(parent, system=...)` of an ordinary process class: a missing system is a Validation error; otherwise a new, registered instance. */
    static method Create(cls: ProcessClass, parent: Option<string>, system: System?) returns (r: Result<Process, SdlError>)
      requires cls.Valid() && !cls.isSingleton
      requires system != null ==> system.Valid()
      modifies cls, if system == null then {} else {system, system.types, system.types.gen}
      ensures system == null ==> r == Err(ValidationError("system", "Process creation requires a system instance"))
      ensures system == null ==> cls.instanceCount == old(cls.instanceCount)
      ensures system != null ==>
        && r.Ok? && fresh(r.value) && r.value.Valid() && r.value.system == system && r.value.cls == cls
        && r.value.instance == old(cls.instanceCount) + 1 && cls.instanceCount == r.value.instance
        && r.value.pid in system.procMap
        && system.queue == old(system.queue) + [StartSignal(r.value.pid)]
      ensures cls.Valid()
    {
      if system == null {
        return Err(ValidationError("system", "Process creation requires a system instance"));
      }
      var process := new Process(cls, parent, system);
      process.Register();
      r := Ok(process);
    }

    /**
     * `SdlSingletonProcess.create(...)`: the first call (which needs a system) builds, stores and
     * registers the one instance, numbered 0; every later call returns that same instance.
     */
    static method CreateSingleton(cls: ProcessClass, parent: Option<string>, system: System?) returns (r: Result<Process, SdlError>)
      requires cls.Valid() && cls.isSingleton
      requires system != null ==> system.Valid()
      modifies cls, if system == null then {} else {system, system.types, system.types.gen}
      ensures old(cls.singletonInstance) != null ==> r == Ok(old(cls.singletonInstance)) && cls.singletonInstance == old(cls.singletonInstance)
      ensures old(cls.singletonInstance) == null && system == null ==>
        r == Err(ValidationError("system", "Singleton process creation requires a system instance"))
      ensures old(cls.singletonInstance) == null && system != null ==>
        && r.Ok? && fresh(r.value) && r.value.Valid() && r.value.system == system && r.value.cls == cls
        && cls.singletonInstance == r.value
        && r.value.instance == 0 && r.value.pid == BuildPid(cls.name, r.value.typeId, 0)
        && r.value.pid in system.procMap
        && system.queue == old(system.queue) + [StartSignal(r.value.pid)]
      ensures cls.Valid()
    {
      if cls.singletonInstance == null {
        if system == null {
          return Err(ValidationError("system", "Singleton process creation requires a system instance"));
        }
        var process := new Process(cls, parent, system);
        cls.singletonInstance := process;
        process.Register();
      }
      r := Ok(cls.singletonInstance);
    }
  }
}
