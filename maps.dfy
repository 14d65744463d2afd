/** Facts about finite maps used by the proofs of the map-updating loops. */
module Maps {
  /** Two maps with the same keys and the same value at each key are equal. */
  lemma SameMaps<K, V>(r: map<K, V>, d: map<K, V>)
    requires forall k :: (k in r <==> k in d) && (k in r ==> r[k] == d[k])
    ensures r == d
  {
  }
}
