/**
 * A process's dispatch table: a fluent builder (`state`, `event`, `handler`)
 * fills a map from state to signal class id to handler, and `find` resolves a
 * (state, signal id) pair through four tiers of wildcard matching.
 */
module StateMachines {
  import opened Wrappers
  import opened Exceptions
  import opened States
  import opened IdGenerator
  import opened SystemSignals

  /** Handlers are user code; the table stores an opaque name for each. */
  type HandlerId = nat

  /** The nested handler map: state (by identity) to signal class id to handler. */
  type Table = map<State, map<nat, HandlerId>>

  /** A binding at (`state`, `event`) exists. */
  predicate Bound(t: Table, state: State, event: nat)
  {
    state in t && event in t[state]
  }

  /** The four (state, event) keys `find` tries, highest priority first. */
  function Candidates(star: State, starId: nat, state: State, event: nat): (c: seq<(State, nat)>)
    ensures |c| == 4
  {
    [(state, event), (star, event), (state, starId), (star, starId)]
  }

  /**
   * The lookup cascade of `find`: exact, then wildcard state, then wildcard signal, then both.
   * Its result is the handler of the first bound candidate, and None exactly when no candidate is bound.
   */
  function Lookup(t: Table, star: State, starId: nat, state: State, event: nat): (r: Option<HandlerId>)
    ensures var c := Candidates(star, starId, state, event);
      r.Some? <==> exists i :: 0 <= i < 4 && Bound(t, c[i].0, c[i].1)
    ensures var c := Candidates(star, starId, state, event);
      r.Some? ==> exists i :: 0 <= i < 4 && Bound(t, c[i].0, c[i].1) && r.value == t[c[i].0][c[i].1]
                              && forall j :: 0 <= j < i ==> !Bound(t, c[j].0, c[j].1)
  {
    var c := Candidates(star, starId, state, event);
    if Bound(t, state, event) then
      assert Bound(t, c[0].0, c[0].1);
      Some(t[state][event])
    else if Bound(t, star, event) then
      assert Bound(t, c[1].0, c[1].1);
      Some(t[star][event])
    else if Bound(t, state, starId) then
      assert Bound(t, c[2].0, c[2].1);
      Some(t[state][starId])
    else if Bound(t, star, starId) then
      assert Bound(t, c[3].0, c[3].1);
      Some(t[star][starId])
    else
      None
  }

  /** Tier 1: an exact binding wins whatever wildcard bindings exist. */
  lemma ExactBindingWins(t: Table, star: State, starId: nat, state: State, event: nat)
    requires Bound(t, state, event)
    ensures Lookup(t, star, starId, state, event) == Some(t[state][event])
  {
    var r := Lookup(t, star, starId, state, event);
    var c := Candidates(star, starId, state, event);
    assert Bound(t, c[0].0, c[0].1);
  }

  /** Tier 2 before tier 3: with no exact binding, a (star, event) binding beats a (state, Star signal) one. */
  lemma StarStateBeatsStarSignal(t: Table, star: State, starId: nat, state: State, event: nat)
    requires !Bound(t, state, event) && Bound(t, star, event)
    ensures Lookup(t, star, starId, state, event) == Some(t[star][event])
  {
  }

  /** Tier 4 answers only when tiers 1 to 3 all miss; None exactly when all four miss. */
  lemma CatchAllIsLastResort(t: Table, star: State, starId: nat, state: State, event: nat)
    ensures !Bound(t, state, event) && !Bound(t, star, event) && !Bound(t, state, starId) && Bound(t, star, starId) ==>
      Lookup(t, star, starId, state, event) == Some(t[star][starId])
    ensures Lookup(t, star, starId, state, event).None? <==>
      !Bound(t, state, event) && !Bound(t, star, event) && !Bound(t, state, starId) && !Bound(t, star, starId)
  {
  }

  /** `handler(h)` on a filled cursor: binds exactly (state, event), overwriting, and leaves every other entry as it was. */
  function Bind(t: Table, state: State, event: nat, h: HandlerId): (r: Table)
    ensures Bound(r, state, event) && r[state][event] == h
    ensures forall s, e :: s in r && (s != state || e != event) ==>
      (e in r[s] <==> Bound(t, s, e)) && (Bound(t, s, e) ==> r[s][e] == t[s][e])
    ensures r.Keys == t.Keys + {state}
  {
    var row := if state in t then t[state] else map[];
    t[state := row[event := h]]
  }

  /** A builder call resolved to its (state, signal id, handler) triple. */
  datatype Binding = Binding(state: State, event: nat, handler: HandlerId)

  /** The table that a sequence of `state(s).event(e).handler(h)` calls builds from `t`. */
  function BuildTable(t: Table, bs: seq<Binding>): Table
    decreases |bs|
  {
    if bs == [] then t
    else
      var last := bs[|bs| - 1];
      Bind(BuildTable(t, bs[..|bs| - 1]), last.state, last.event, last.handler)
  }

  /** Last write wins: after building, (s, e) holds the handler of the LAST binding for it, or what `t` had if there is none. */
  lemma {:induction false} BuildTableLastWriteWins(t: Table, bs: seq<Binding>, s: State, e: nat)
    ensures Bound(BuildTable(t, bs), s, e) <==>
      Bound(t, s, e) || exists i :: 0 <= i < |bs| && bs[i].state == s && bs[i].event == e
    ensures forall i :: 0 <= i < |bs| && bs[i].state == s && bs[i].event == e &&
                        (forall j :: i < j < |bs| ==> bs[j].state != s || bs[j].event != e) ==>
              Bound(BuildTable(t, bs), s, e) && BuildTable(t, bs)[s][e] == bs[i].handler
    ensures (forall i :: 0 <= i < |bs| ==> bs[i].state != s || bs[i].event != e) ==>
              (Bound(BuildTable(t, bs), s, e) <==> Bound(t, s, e)) &&
              (Bound(t, s, e) ==> BuildTable(t, bs)[s][e] == t[s][e])
    decreases |bs|
  {
    if bs != [] {
      var pre := bs[..|bs| - 1];
      BuildTableLastWriteWins(t, pre, s, e);
      assert forall i :: 0 <= i < |pre| ==> pre[i] == bs[i];
    }
  }

  /** The dispatch table of one process, with the builder's cursor. */
  class StateMachine {
    /** The wildcard state that tiers 2 and 4 of `find` use. */
    const star: State
    var cursorState: State?
    var cursorEvent: Option<nat>
    /** Every state and every event id the builder has been given. */
    var states: set<State>
    var events: set<nat>
    var handlers: Table

    constructor (star: State)
      ensures this.star == star
      ensures cursorState == null && cursorEvent.None?
      ensures states == {} && events == {} && handlers == map[]
    {
      this.star := star;
      cursorState := null;
      cursorEvent := None;
      states := {};
      events := {};
      handlers := map[];
    }

    /** `state(s)`: sets the state cursor and records the state; a None state is a Validation error. */
    method SetState(s: State?) returns (r: Result<(), SdlError>)
      modifies this
      ensures s == null ==> r == Err(ValidationError("state", "State cannot be None")) && unchanged(this)
      ensures s != null ==> r.Ok? && cursorState == s && states == old(states) + {s}
                            && cursorEvent == old(cursorEvent) && events == old(events) && handlers == old(handlers)
    {
      if s == null {
        return Err(ValidationError("state", "State cannot be None"));
      }
      cursorState := s;
      states := states + {s};
      r := Ok(());
    }

    /** `event(SignalClass)`: sets the event cursor to the class's id (allocated on first use) and records it. */
    method SetEvent(types: TypeIds, signalClass: Option<string>) returns (r: Result<(), SdlError>)
      requires types.Valid()
      modifies this, types, types.gen
      ensures types.Valid()
      ensures signalClass.None? ==> r == Err(ValidationError("event", "Event cannot be None"))
                                    && unchanged(this) && unchanged(types) && unchanged(types.gen)
      ensures signalClass.Some? ==>
        && r.Ok?
        && SignalType(signalClass.value) in types.ids
        && cursorEvent == Some(types.ids[SignalType(signalClass.value)])
        && events == old(events) + {cursorEvent.value}
        && cursorState == old(cursorState) && states == old(states) && handlers == old(handlers)
      ensures forall k :: k in old(types.ids) ==> k in types.ids && types.ids[k] == old(types.ids)[k]
    {
      if signalClass.None? {
        return Err(ValidationError("event", "Event cannot be None"));
      }
      var id := types.IdOf(SignalType(signalClass.value));
      cursorEvent := Some(id);
      events := events + {id};
      r := Ok(());
    }

    /**
     * `handler(h)`: binds `h` at the cursor, overwriting any earlier binding there. With the state
     * or the event cursor unset it is a Validation error and the table is unchanged.
     */
    method SetHandler(h: HandlerId) returns (r: Result<(), SdlError>)
      modifies this
      ensures cursorState == null ==>
        r == Err(ValidationError("state", "State must be set before adding handler")) && unchanged(this)
      ensures cursorState != null && cursorEvent.None? ==>
        r == Err(ValidationError("event", "Event must be set before adding handler")) && unchanged(this)
      ensures cursorState != null && cursorEvent.Some? ==>
        r.Ok? && handlers == Bind(old(handlers), cursorState, cursorEvent.value, h)
      ensures cursorState == old(cursorState) && cursorEvent == old(cursorEvent)
      ensures states == old(states) && events == old(events)
    {
      if cursorState == null {
        return Err(ValidationError("state", "State must be set before adding handler"));
      }
      if cursorEvent.None? {
        return Err(ValidationError("event", "Event must be set before adding handler"));
      }
      handlers := Bind(handlers, cursorState, cursorEvent.value, h);
      r := Ok(());
    }

    /** `done()`: ends the definition; always true. */
    function Done(): (r: bool)
      ensures r
    {
      true
    }

    /**
     * `find(state, event)`: the four-tier cascade. The Star signal's class id is only asked for
     * (and so allocated) when tiers 1 and 2 both miss. A None state or event is a Validation error.
     */
    method Find(types: TypeIds, state: State?, event: Option<nat>) returns (r: Result<Option<HandlerId>, SdlError>)
      requires types.Valid()
      modifies types, types.gen
      ensures types.Valid()
      ensures state == null ==> r == Err(ValidationError("state", "Cannot find handler for None state"))
      ensures state != null && event.None? ==> r == Err(ValidationError("event", "Cannot find handler for None event"))
      ensures state != null && event.Some? ==>
        r == Ok(Lookup(handlers, star, StarSignalId(types), state, event.value))
      ensures state != null && event.Some? && !Bound(handlers, state, event.value) && !Bound(handlers, star, event.value) ==>
        SignalType(StarClass) in types.ids
      ensures state != null && event.Some? && (Bound(handlers, state, event.value) || Bound(handlers, star, event.value)) ==>
        types.ids == old(types.ids)
      ensures types.ids.Keys <= old(types.ids).Keys + {SignalType(StarClass)}
      ensures forall k :: k in old(types.ids) ==> k in types.ids && types.ids[k] == old(types.ids)[k]
    {
      if state == null {
        return Err(ValidationError("state", "Cannot find handler for None state"));
      }
      if event.None? {
        return Err(ValidationError("event", "Cannot find handler for None event"));
      }
      var e := event.value;
      if Bound(handlers, state, e) {
        return Ok(Some(handlers[state][e]));
      }
      if Bound(handlers, star, e) {
        return Ok(Some(handlers[star][e]));
      }
      var starId := types.IdOf(SignalType(StarClass));
      if Bound(handlers, state, starId) {
        return Ok(Some(handlers[state][starId]));
      }
      if Bound(handlers, star, starId) {
        return Ok(Some(handlers[star][starId]));
      }
      r := Ok(None);
    }
  }

  /** The Star signal's class id, or 0 while it has none (the lookup then never needs it). */
  function StarSignalId(types: TypeIds): nat
    reads types
  {
    if SignalType(StarClass) in types.ids then types.ids[SignalType(StarClass)] else 0
  }

  /**
   * States are table keys by identity, whatever their names: a binding made for one state object
   * (other than the wildcard) changes no lookup from any other state object, for every table,
   * event and handler, even when the two states share a name.
   */
  lemma BindingIsPerStateObject(t: Table, star: State, starId: nat, s1: State, e: nat, h: HandlerId, s2: State, event: nat)
    requires s1 != s2 && s1 != star
    ensures Lookup(Bind(t, s1, e, h), star, starId, s2, event) == Lookup(t, star, starId, s2, event)
  {
    var r := Bind(t, s1, e, h);
    assert Bound(r, s2, event) <==> Bound(t, s2, event);
    assert Bound(r, star, event) <==> Bound(t, star, event);
    assert Bound(r, s2, starId) <==> Bound(t, s2, starId);
    assert Bound(r, star, starId) <==> Bound(t, star, starId);
  }
}
