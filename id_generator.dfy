/**
 * The shared id counter and the per-type ids drawn from it.
 *
 * `SdlIdGenerator` is one counter shared by every signal, timer and process
 * type. A type's numeric id is taken from it lazily, the first time the type's
 * id is asked for, and cached on the type; `TypeIds` holds those caches, one
 * entry per type, keyed by the type's kind and class name.
 */
module IdGenerator {
  import opened Wrappers

  class SdlIdGenerator {
    /** The last id handed out (0 before the first). */
    var current: nat
    /** Every id handed out so far, oldest first. */
    ghost var issued: seq<nat>

    ghost predicate Valid()
      reads this
    {
      && (forall i, j :: 0 <= i < j < |issued| ==> issued[i] < issued[j])
      && (forall i :: 0 <= i < |issued| ==> 0 < issued[i] <= current)
    }

    constructor ()
      ensures Valid() && current == 0 && issued == []
    {
      current := 0;
      issued := [];
    }

    /** `id()`: the current value, unchanged. */
    function Id(): (r: nat)
      reads this
      ensures r == current
    {
      current
    }

    /** `next()`: increment by one and return the new value, which exceeds every id handed out before. */
    method Next() returns (r: nat)
      requires Valid()
      modifies this
      ensures Valid()
      ensures r == old(current) + 1 && current == r
      ensures issued == old(issued) + [r]
      ensures forall i :: 0 <= i < |old(issued)| ==> old(issued)[i] < r
    {
      current := current + 1;
      r := current;
      issued := issued + [r];
    }
  }

  /** The types that own an id: signal classes (timers included) and process classes. */
  datatype TypeKey = SignalType(name: string) | ProcessType(name: string)

  /** The class-level `_id` caches of all types, drawn lazily from one shared counter. */
  class TypeIds {
    const gen: SdlIdGenerator
    var ids: map<TypeKey, nat>

    ghost predicate Valid()
      reads this, gen
    {
      && gen.Valid()
      && (forall k :: k in ids ==> 0 < ids[k] <= gen.current)
      && (forall k1, k2 :: k1 in ids && k2 in ids && k1 != k2 ==> ids[k1] != ids[k2])
    }

    constructor (gen: SdlIdGenerator)
      requires gen.Valid()
      ensures Valid() && this.gen == gen && ids == map[]
    {
      this.gen := gen;
      ids := map[];
    }

    /**
     * `cls.id()`: the type's cached id, or a fresh one from the counter on first use.
     * Ids of distinct types stay distinct, and an id once given never changes.
     */
    method IdOf(key: TypeKey) returns (id: nat)
      requires Valid()
      modifies this, gen
      ensures Valid()
      ensures key in ids && id == ids[key]
      ensures key in old(ids) ==> ids == old(ids) && gen.current == old(gen.current)
      ensures key !in old(ids) ==> ids == old(ids)[key := id] && id == old(gen.current) + 1
    {
      if key in ids {
        id := ids[key];
      } else {
        id := gen.Next();
        ids := ids[key := id];
      }
    }
  }
}
