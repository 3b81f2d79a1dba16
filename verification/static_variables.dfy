/**
 * The OpenCascade static-variable store (Interface_Static) and the rollback
 * object through which the readers and writers change it for the duration
 * of one call.
 */
module StaticVariables {
  import opened Wrappers

  /** The value of a static variable: an integer or a string. */
  datatype StaticValue = IntValue(i: int) | TextValue(text: string)

  /** One `rollback->change(key, value)` call. */
  datatype StaticChange = StaticChange(key: string, value: StaticValue)

  function Get(values: map<string, StaticValue>, key: string): Option<StaticValue>
  {
    if key in values then Some(values[key]) else None
  }

  /** Interface_Static::IVal: the integer value of a key, 0 when it holds none. */
  function IVal(values: map<string, StaticValue>, key: string): int
  {
    if key in values && values[key].IntValue? then values[key].i else 0
  }

  /** The store after a sequence of changes, applied in order. */
  function Applied(values: map<string, StaticValue>, changes: seq<StaticChange>): map<string, StaticValue>
    decreases changes
  {
    if changes == [] then values
    else Applied(values[changes[0].key := changes[0].value], changes[1..])
  }

  /** Applying one more change is one more map update. */
  lemma {:induction false} AppliedSnoc(values: map<string, StaticValue>, changes: seq<StaticChange>, c: StaticChange)
    ensures Applied(values, changes + [c]) == Applied(values, changes)[c.key := c.value]
    decreases changes
  {
    if changes != [] {
      assert (changes + [c])[1..] == changes[1..] + [c];
      AppliedSnoc(values[changes[0].key := changes[0].value], changes[1..], c);
    }
  }

  /** A key no change names keeps its value (or its absence). */
  lemma {:induction false} AppliedElsewhere(values: map<string, StaticValue>, changes: seq<StaticChange>, key: string)
    requires forall i :: 0 <= i < |changes| ==> changes[i].key != key
    ensures Get(Applied(values, changes), key) == Get(values, key)
    decreases changes
  {
    if changes != [] {
      AppliedElsewhere(values[changes[0].key := changes[0].value], changes[1..], key);
    }
  }

  /** The last change of a key decides its value. */
  lemma {:induction false} AppliedLastWins(values: map<string, StaticValue>, changes: seq<StaticChange>, i: int)
    requires 0 <= i < |changes|
    requires forall j :: i < j < |changes| ==> changes[j].key != changes[i].key
    ensures Get(Applied(values, changes), changes[i].key) == Some(changes[i].value)
    decreases changes
  {
    if i == 0 {
      AppliedElsewhere(values[changes[0].key := changes[0].value], changes[1..], changes[0].key);
    } else {
      AppliedLastWins(values[changes[0].key := changes[0].value], changes[1..], i - 1);
    }
  }

  /** Interface_Static: the process-wide store OpenCascade translators consult. */
  class StaticStore {
    var values: map<string, StaticValue>

    constructor (values: map<string, StaticValue>)
      ensures this.values == values
    {
      this.values := values;
    }
  }

  /**
   * OccStaticVariablesRollback: changes keys of the store and remembers the
   * value each key had before its first change, so that `Restore` (run when
   * the rollback object goes out of scope) puts the store back as it was.
   */
  class StaticVariablesRollback {
    const store: StaticStore
    var saved: map<string, Option<StaticValue>>
    ghost var original: map<string, StaticValue>

    ghost predicate Valid()
      reads this, store
    {
      && (forall k :: k in saved ==> saved[k] == Get(original, k))
      && (forall k :: k !in saved ==> Get(store.values, k) == Get(original, k))
    }

    constructor (store: StaticStore)
      ensures this.store == store && Valid()
      ensures original == store.values
    {
      this.store := store;
      saved := map[];
      original := store.values;
    }

    method Change(key: string, value: StaticValue)
      requires Valid()
      modifies this, store
      ensures Valid() && original == old(original)
      ensures store.values == old(store.values)[key := value]
    {
      if key !in saved {
        saved := saved[key := Get(store.values, key)];
      }
      store.values := store.values[key := value];
    }

    /** Puts back every changed key: the store is again what it was at construction. */
    method Restore()
      requires Valid()
      modifies store
      ensures store.values == original
    {
      var restored := map k | k in store.values.Keys + saved.Keys && (k in saved ==> saved[k].Some?) ::
        if k in saved then saved[k].value else store.values[k];
      forall k
        ensures Get(restored, k) == Get(original, k)
      {
        if k in saved {
          assert saved[k] == Get(original, k);
        } else {
          assert Get(store.values, k) == Get(original, k);
        }
      }
      assert forall k :: k in restored <==> k in original by {
        forall k ensures k in restored <==> k in original {
          assert Get(restored, k) == Get(original, k);
        }
      }
      store.values := restored;
    }
  }
}
