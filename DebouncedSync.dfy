/** The debounced writer of renderer state into the persisted key-value
    store: updates for one store key accumulate in a pending record and
    are written together when the 100 ms timer fires, when the caller asks
    for an immediate write, or when everything is flushed at shutdown.
    Timers are modelled as a flag per key and their firing as an explicit
    `Flush` call. */
module DebouncedSync {
  import opened Common

  const DebounceMs := 100

  /** The per-key state: whether a timer is pending, and the fields not yet
      written. */
  datatype PendingSync<V> = PendingSync(timerArmed: bool, pending: map<string, V>)

  /** The record stored under a key; a missing one reads as `{}`. */
  function Entry<V>(saved: map<string, map<string, V>>, key: string): map<string, V> {
    if key in saved then saved[key] else map[]
  }

  /** A key's record with its pending fields laid over it. */
  function Merged<V>(saved: map<string, map<string, V>>, key: string, pending: map<string, V>): map<string, V> {
    Overlay(Entry(saved, key), pending)
  }

  /** The persisted store after writing one key's pending fields: nothing
      when there are none, otherwise the fields laid over the record. */
  function FlushOne<V>(saved: map<string, map<string, V>>, key: string, pending: map<string, V>): (r: map<string, map<string, V>>)
    ensures pending == map[] ==> r == saved
    ensures pending != map[] ==> r.Keys == saved.Keys + {key} && r[key] == Merged(saved, key, pending)
    ensures forall k :: k in saved && k != key ==> k in r && r[k] == saved[k]
  {
    if pending == map[] then saved else saved[key := Merged(saved, key, pending)]
  }

  /** Whether a key has fields waiting to be written. */
  predicate Waiting<V>(states: map<string, PendingSync<V>>, k: string) {
    k in states && states[k].pending != map[]
  }

  class SyncQueue<V(==)> {
    /** `syncStates`. */
    var states: map<string, PendingSync<V>>
    /** The persisted key-value store, one record per store key. */
    var saved: map<string, map<string, V>>

    constructor(initial: map<string, map<string, V>>)
      ensures states == map[] && saved == initial
    {
      states, saved := map[], initial;
    }

    /** The pending fields of a key (none before its first update). */
    function PendingOf(key: string): map<string, V>
      reads this
    {
      if key in states then states[key].pending else map[]
    }

    /** `flushSync`: the timer is cleared; pending fields, if any, are laid
        over the stored record and forgotten. Other keys are untouched. */
    method Flush(key: string)
      requires key in states
      modifies this
      ensures saved == FlushOne(old(saved), key, old(states)[key].pending)
      ensures states == old(states)[key := PendingSync(false, map[])]
    {
      saved := FlushOne(saved, key, states[key].pending);
      states := states[key := PendingSync(false, map[])];
    }

    /** `debouncedSyncToStore`: the update is merged into the key's pending
        fields (later fields win); an immediate update is written at once,
        otherwise the timer is (re)started. */
    method Debounced(key: string, update: map<string, V>, immediate: bool)
      modifies this
      ensures key in states
      ensures forall k :: k in old(states) && k != key ==> k in states && states[k] == old(states)[k]
      ensures states.Keys == old(states).Keys + {key}
      ensures immediate ==>
        states[key] == PendingSync(false, map[]) &&
        saved == FlushOne(old(saved), key, Overlay(old(PendingOf(key)), update))
      ensures !immediate ==>
        states[key] == PendingSync(true, Overlay(old(PendingOf(key)), update)) && saved == old(saved)
    {
      var merged := Overlay(PendingOf(key), update);
      states := states[key := PendingSync(true, merged)];
      if immediate {
        Flush(key);
      }
    }

    /** `flushAllPendingSyncs`: every key is flushed, in whatever order the
        map yields them. Each waiting key gets its own fields laid over its
        own record; no other record changes. */
    method FlushAll()
      modifies this
      ensures states.Keys == old(states).Keys
      ensures forall k :: k in states ==> states[k] == PendingSync(false, map[])
      ensures FlushedKeys(old(saved), old(states), old(states).Keys, saved)
    {
      var rem := states.Keys;
      ghost var done: set<string> := {};
      while rem != {}
        invariant rem !! done && rem + done == old(states).Keys
        invariant states.Keys == old(states).Keys
        invariant forall k :: k in rem ==> states[k] == old(states)[k]
        invariant forall k :: k in done ==> states[k] == PendingSync(false, map[])
        invariant FlushedKeys(old(saved), old(states), done, saved)
        decreases rem
      {
        var k :| k in rem;
        FlushedKeysStep(old(saved), old(states), done, saved, k);
        Flush(k);
        rem := rem - {k};
        done := done + {k};
      }
    }
  }

  /** `saved` is `before` with the keys of `done` flushed: each waiting key
      of `done` holds its merged record, every other record is as it was. */
  ghost predicate FlushedKeys<V>(before: map<string, map<string, V>>, states: map<string, PendingSync<V>>,
                                 done: set<string>, saved: map<string, map<string, V>>)
  {
    && (forall k :: k in saved <==> k in before || (k in done && Waiting(states, k)))
    && (forall k :: k in done && Waiting(states, k) ==> saved[k] == Merged(before, k, states[k].pending))
    && (forall k :: k in before && !(k in done && Waiting(states, k)) ==> saved[k] == before[k])
  }

  /** Flushing one more key keeps the others as they were. */
  lemma FlushedKeysStep<V>(before: map<string, map<string, V>>, states: map<string, PendingSync<V>>,
                           done: set<string>, saved: map<string, map<string, V>>, key: string)
    requires key in states && key !in done
    requires FlushedKeys(before, states, done, saved)
    ensures FlushedKeys(before, states, done + {key}, FlushOne(saved, key, states[key].pending))
  {
    var p := states[key].pending;
    var after := FlushOne(saved, key, p);
    var d := done + {key};
    assert Entry(saved, key) == Entry(before, key);
    if p == map[] {
      assert !Waiting(states, key);
      assert forall k :: (k in d && Waiting(states, k)) <==> (k in done && Waiting(states, k));
    } else {
      assert Merged(saved, key, p) == Merged(before, key, p);
      assert after == saved[key := Merged(before, key, p)];
      forall k | k in d && Waiting(states, k)
        ensures after[k] == Merged(before, k, states[k].pending)
      {
        if k != key {
          assert k in done;
        }
      }
    }
  }

  /** Flushing with nothing pending writes nothing. */
  lemma EmptyFlushWritesNothing<V>(saved: map<string, map<string, V>>, key: string)
    ensures FlushOne(saved, key, map[]) == saved
  {
  }

  /** Two updates before a flush write what one merged update writes. */
  lemma UpdatesCoalesce<V>(saved: map<string, map<string, V>>, key: string, a: map<string, V>, b: map<string, V>)
    requires b != map[]
    ensures FlushOne(saved, key, Overlay(a, b))[key] == Overlay(Overlay(Entry(saved, key), a), b)
  {
  }
}
