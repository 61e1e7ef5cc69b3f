/** The rows the CSV parser hands to the `complete` callback when it runs
    with `header: true`: one record per data line, keyed by header name.
    A record's keys are listed in `Object.keys` order: keys that look like
    array indices first, in ascending numeric order, then the other keys in
    the order the header names appear in. */
module Rows {

  datatype Option<T> = None | Some(value: T)

  /** One parsed record. `keys` is what `Object.keys` returns for it and
      `fields` maps each key to the cell's (abstract) value. */
  datatype Row<V> = Row(keys: seq<string>, fields: map<string, V>)
  {
    /** An object has each own key once, and exactly the keys it lists. */
    ghost predicate WellFormed() {
      (forall a, b :: 0 <= a < b < |keys| ==> keys[a] != keys[b]) &&
      (forall k :: k in fields <==> k in keys)
    }
  }

  /** Property read `row[key]`: `None` stands for `undefined`, the value of
      a key the record does not have. */
  function Get<V>(row: Row<V>, key: string): Option<V>
  {
    if key in row.fields then Some(row.fields[key]) else None
  }

  /** Every key a well-formed record lists can be read back from it: the
      read gives that key's value, never `undefined`. */
  lemma ListedKeysAreDefined<V>(row: Row<V>, j: nat)
    requires row.WellFormed() && j < |row.keys|
    ensures Get(row, row.keys[j]) == Some(row.fields[row.keys[j]])
  {
    assert row.keys[j] in row.keys;
  }
}
