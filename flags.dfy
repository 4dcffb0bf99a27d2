/** Flags: a record from keys to booleans updated with `{ ...prev, [key]: !prev[key] }`, as the
    checklist rows and the sidebar categories are. A key without an entry reads as `undefined`,
    which is falsy, so it counts as unset. */
module Flags {
  /** `prev[key] || false`: whether `key` is set. */
  function IsSet<K>(flags: map<K, bool>, key: K): bool {
    key in flags && flags[key]
  }

  /** `{ ...prev, [key]: !prev[key] }`: a key never set before becomes set. */
  function Flip<K>(flags: map<K, bool>, key: K): map<K, bool> {
    flags[key := !IsSet(flags, key)]
  }

  /** Flipping changes that key alone: its shown state is negated, every other key keeps its
      entry. Flipping twice shows the original state again everywhere, and restores the record
      itself when the key had an entry. */
  lemma FlipSpec<K>(flags: map<K, bool>, key: K)
    ensures IsSet(Flip(flags, key), key) == !IsSet(flags, key)
    ensures key in Flip(flags, key)
    ensures forall k :: k != key ==> (k in Flip(flags, key) <==> k in flags)
    ensures forall k :: k != key && k in flags ==> Flip(flags, key)[k] == flags[k]
    ensures forall k :: IsSet(Flip(Flip(flags, key), key), k) == IsSet(flags, k)
    ensures key in flags ==> Flip(Flip(flags, key), key) == flags
  {
  }
}
