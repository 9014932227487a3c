/**
 * Automaton states. A state is an object: it has no equality of its own, so
 * two states with the same name are still two different states, and a
 * dispatch table keyed by states is keyed by the objects themselves.
 */
module States {

  class State {
    var name: string

    constructor (name: string)
      ensures this.name == name
    {
      this.name := name;
    }

    /** `name()`. */
    function Name(): (r: string)
      reads this
      ensures r == name
    {
      name
    }

    /** `id()`: the same text as `name()`. */
    function Id(): (r: string)
      reads this
      ensures r == Name()
    {
      name
    }

    /** `str(state)`: the same text as `name()`. */
    function ToString(): (r: string)
      reads this
      ensures r == Name() && r == Id()
    {
      name
    }

    /** `_set_name`: renames the state in place; the object, and so its identity as a key, stays the same. */
    method SetName(newName: string)
      modifies this
      ensures name == newName
      ensures Name() == newName && Id() == newName && ToString() == newName
    {
      name := newName;
    }
  }

  /** The predefined states `start` (every process's initial state), `wait` and the wildcard `star`. */
  class PredefinedStates {
    const start: State
    const wait: State
    const star: State

    constructor ()
      ensures fresh(start) && fresh(wait) && fresh(star)
      ensures start.name == "start" && wait.name == "wait" && star.name == "*"
      ensures start != wait && start != star && wait != star
    {
      start := new State("start");
      wait := new State("wait");
      star := new State("*");
    }
  }
}
