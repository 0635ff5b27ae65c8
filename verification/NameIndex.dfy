/** A list of names and the map that gives each its place. */
module NameIndex {

  predicate Indexes(names: seq<string>, idx: map<string, nat>)
  {
    && (forall n | n in idx :: idx[n] < |names| && names[idx[n]] == n)
    && (forall i | 0 <= i < |names| :: names[i] in idx && idx[names[i]] == i)
  }
}
