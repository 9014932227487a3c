/**
 * The name registry: one store from names to values shared by every handle on it.
 * The store and the cached instance are class attributes, so they live on the class
 * object here, and every handle refers to that one class object.
 */
module Registry {
  import opened Wrappers
  import opened Values

  /** `KeyError(key)` raised by a lookup of an absent name. */
  datatype LookupError = KeyError(key: string)

  /** The class object: the shared store and the cached singleton instance. */
  class RegistryClass {
    var store: map<string, Value>
    var instance: SdlRegistry?

    /** The cached instance is a handle on this class. */
    ghost predicate Valid()
      reads this
    {
      instance != null ==> instance.cls == this
    }

    /** Class definition: an empty store and no instance yet. */
    constructor ()
      ensures Valid() && store == map[] && instance == null
    {
      store := map[];
      instance := null;
    }

    /** `SdlRegistry()` (`__new__`): the first call creates the instance, every later call returns it. */
    method New() returns (r: SdlRegistry)
      requires Valid()
      modifies this
      ensures Valid()
      ensures old(instance) != null ==> r == old(instance)
      ensures old(instance) == null ==> fresh(r)
      ensures instance == r && r.cls == this && store == old(store)
    {
      if instance == null {
        instance := new SdlRegistry(this);
      }
      r := instance;
    }
  }

  class SdlRegistry {
    const cls: RegistryClass

    constructor (cls: RegistryClass)
      ensures this.cls == cls
    {
      this.cls := cls;
    }

    /** `add(key, value)`: sets or overwrites one name; every other name keeps its value. */
    method Add(key: string, value: Value)
      modifies cls
      ensures cls.store == old(cls.store)[key := value] && cls.instance == old(cls.instance)
    {
      cls.store := cls.store[key := value];
    }

    /** `get(key)`: the value stored under the name; an absent name raises KeyError. */
    method Get(key: string) returns (r: Result<Value, LookupError>)
      ensures r == Lookup(cls.store, key)
    {
      if key !in cls.store {
        return Err(KeyError(key));
      }
      return Ok(cls.store[key]);
    }
  }

  /** What `get` answers for a store. */
  function Lookup(store: map<string, Value>, key: string): (r: Result<Value, LookupError>)
    ensures r.Ok? <==> key in store
    ensures r.Ok? ==> r.value == store[key]
    ensures r.Err? ==> r.error == KeyError(key)
  {
    if key in store then Ok(store[key]) else Err(KeyError(key))
  }

  /** After `add(k, v)`, `get(k)` answers `v` and every other name answers what it did before. */
  lemma AddThenGet(store: map<string, Value>, key: string, value: Value, other: string)
    ensures Lookup(store[key := value], key) == Ok(value)
    ensures other != key ==> Lookup(store[key := value], other) == Lookup(store, other)
  {
  }

  /** A second `add` to the same name overwrites the first. */
  lemma AddTwice(store: map<string, Value>, key: string, first: Value, second: Value)
    ensures store[key := first][key := second] == store[key := second]
  {
  }

  /** Two constructions give the same handle, so a name added through one is read back through the other. */
  method HandlesShareOneStore(key: string, value: Value) returns (same: bool, got: Result<Value, LookupError>)
    ensures same && got == Ok(value)
  {
    var cls := new RegistryClass();
    var first := cls.New();
    var second := cls.New();
    first.Add(key, value);
    same := first == second;
    got := second.Get(key);
  }
}
