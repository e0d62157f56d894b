/** The resolution discipline shared by the class-template constructs:
    a generic definition, shadowed by explicit specialisations registered for
    single exact key values. */
module Resolution {

  /** The behaviour chosen for `key`: the specialisation registered for exactly
      that key if there is one, otherwise the generic definition. */
  function Resolve<K(==), B>(specific: map<K, B>, generic: B, key: K): B {
    if key in specific then specific[key] else generic
  }

  /** Registering a specialisation for `k` changes the behaviour of key `k`
      and of no other key. */
  lemma ShadowsOnlyItsKey<K, B>(specific: map<K, B>, generic: B, k: K, b: B, key: K)
    ensures key == k ==> Resolve(specific[k := b], generic, key) == b
    ensures key != k ==> Resolve(specific[k := b], generic, key) == Resolve(specific, generic, key)
  {
  }
}
