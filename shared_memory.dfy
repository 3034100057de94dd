/** The phase-namespaced key-value store of memory/shared_memory.py: a singleton
    holding a two-level mapping phase -> key -> value. Values may be of any type,
    so the store is generic in the value type `V`. */
module SharedMemory {

  datatype Option<T> = None | Some(value: T)

  type Store<V> = map<string, map<string, V>>

  /** `get(phase, key)`: the value, or `None` when the phase or the key is absent. */
  function Lookup<V>(data: Store<V>, phase: string, key: string): (r: Option<V>)
    ensures r.Some? <==> phase in data && key in data[phase]
    ensures r.Some? ==> r.value == data[phase][key]
  {
    if phase in data && key in data[phase] then Some(data[phase][key]) else None
  }

  /** `get_phase_data(phase)`: the phase's mapping, or an empty one (which is not inserted). */
  function PhaseData<V>(data: Store<V>, phase: string): (r: map<string, V>)
    ensures phase in data ==> r == data[phase]
    ensures phase !in data ==> r == map[]
    ensures forall k :: k in r <==> Lookup(data, phase, k).Some?
  {
    if phase in data then data[phase] else map[]
  }

  /** `set(phase, key, value)`: the phase is created when absent, then the key is (over)written. */
  function Put<V>(data: Store<V>, phase: string, key: string, value: V): (r: Store<V>)
    ensures r.Keys == data.Keys + {phase}
    ensures Lookup(r, phase, key) == Some(value)
    ensures forall p, k :: (p != phase || k != key) ==> Lookup(r, p, k) == Lookup(data, p, k)
  {
    var table := if phase in data then data[phase] else map[];
    data[phase := table[key := value]]
  }

  /** A read after a write of the same entry sees the written value. */
  lemma GetAfterSet<V>(data: Store<V>, phase: string, key: string, value: V)
    ensures Lookup(Put(data, phase, key, value), phase, key) == Some(value)
  {
  }

  /** A second write of the same entry leaves only the later value. */
  lemma SetOverwrites<V>(data: Store<V>, phase: string, key: string, v1: V, v2: V)
    ensures Put(Put(data, phase, key, v1), phase, key, v2) == Put(data, phase, key, v2)
  {
    var once := Put(data, phase, key, v2);
    var twice := Put(Put(data, phase, key, v1), phase, key, v2);
    assert twice.Keys == once.Keys;
    forall p | p in once ensures twice[p] == once[p] {
      if p == phase {
        assert twice[p].Keys == once[p].Keys;
      }
    }
  }

  /** Writes of two different entries commute. */
  lemma SetsCommute<V>(data: Store<V>, p1: string, k1: string, v1: V, p2: string, k2: string, v2: V)
    requires p1 != p2 || k1 != k2
    ensures Put(Put(data, p1, k1, v1), p2, k2, v2) == Put(Put(data, p2, k2, v2), p1, k1, v1)
  {
    var a := Put(Put(data, p1, k1, v1), p2, k2, v2);
    var b := Put(Put(data, p2, k2, v2), p1, k1, v1);
    forall p, k ensures Lookup(a, p, k) == Lookup(b, p, k) {
    }
    SameLookups(a, b);
  }

  /** Two stores with the same phases that answer every lookup alike are equal. */
  lemma SameLookups<V>(a: Store<V>, b: Store<V>)
    requires a.Keys == b.Keys
    requires forall p, k :: Lookup(a, p, k) == Lookup(b, p, k)
    ensures a == b
  {
    forall p | p in a ensures a[p] == b[p] {
      forall k ensures k in a[p] <==> k in b[p] {
        assert Lookup(a, p, k).Some? <==> Lookup(b, p, k).Some?;
      }
      forall k | k in a[p] ensures a[p][k] == b[p][k] {
        assert Lookup(a, p, k) == Lookup(b, p, k);
      }
    }
  }

  /** The phase mapping after a write holds the new entry and the phase's other entries. */
  lemma PhaseDataAfterSet<V>(data: Store<V>, phase: string, key: string, value: V)
    ensures PhaseData(Put(data, phase, key, value), phase) == PhaseData(data, phase)[key := value]
  {
  }

  /** After `clear()` nothing is found, in any phase. */
  lemma ClearedIsEmpty<V>(phase: string, key: string)
    ensures Lookup<V>(map[], phase, key) == None
    ensures PhaseData<V>(map[], phase) == map[]
  {
  }

  /** The store object. Its one field is the nested mapping that `set` updates in place. */
  class Memory<V> {
    var data: Store<V>

    /** A store starts empty. */
    constructor ()
      ensures data == map[]
    {
      data := map[];
    }

    method Set(phase: string, key: string, value: V)
      modifies this
      ensures data == Put(old(data), phase, key, value)
    {
      var table: map<string, V> := map[];
      if phase in data {
        table := data[phase];
      }
      data := data[phase := table[key := value]];
    }

    /** `get` reads without changing anything. */
    method Get(phase: string, key: string) returns (r: Option<V>)
      ensures r == Lookup(data, phase, key)
    {
      if phase in data && key in data[phase] {
        r := Some(data[phase][key]);
      } else {
        r := None;
      }
    }

    /** `get_phase_data` reads without inserting the missing phase. */
    method GetPhaseData(phase: string) returns (r: map<string, V>)
      ensures r == PhaseData(data, phase)
    {
      if phase in data {
        r := data[phase];
      } else {
        r := map[];
      }
    }

    method Clear()
      modifies this
      ensures data == map[]
    {
      data := map[];
    }
  }

  /** The class-level slot `_instance` that `__new__` consults. */
  class Singleton<V> {
    var instance: Option<Memory<V>>

    constructor ()
      ensures instance == None
    {
      instance := None;
    }

    /** `SharedMemory()`: the first call creates the instance, every later call returns it. */
    method New() returns (m: Memory<V>)
      modifies this
      ensures instance == Some(m)
      ensures old(instance).Some? ==> m == old(instance).value
      ensures old(instance).None? ==> fresh(m) && m.data == map[]
    {
      if instance.None? {
        m := new Memory();
        instance := Some(m);
      } else {
        m := instance.value;
      }
    }
  }

  /** Two constructions yield the same object, so a write through one is seen through the other. */
  method SharedBetweenCallers<V>(s: Singleton<V>, phase: string, key: string, value: V) returns (a: Memory<V>, b: Memory<V>, seen: Option<V>)
    modifies s, if s.instance.Some? then {s.instance.value} else {}
    ensures a == b
    ensures seen == Some(value)
  {
    a := s.New();
    b := s.New();
    a.Set(phase, key, value);
    seen := b.Get(phase, key);
  }
}
