/** Candidate values as the dropdown receives them: bare strings or records.
    A record is a JavaScript object whose fields are all read as strings. */
module Candidates {
  import opened Wrappers

  /** A JavaScript object, field name to (string) field value. */
  type Record = map<string, string>

  /** An entry of the candidate pool, or a selected tag's `model`: `typeof item === 'string'` or an object. */
  datatype Candidate = Str(s: string) | Rec(fields: Record)

  /** `obj[key]`: the field value, or `None` for `undefined`. */
  function Lookup(obj: Record, key: string): (r: Option<string>)
    ensures r.Some? <==> key in obj
    ensures r.Some? ==> r.value == obj[key]
  {
    if key in obj then Some(obj[key]) else None
  }

  /** Writing `{...obj, [key]: v}`; writing `undefined` is observed by every later
      read exactly like an absent field, so it removes the key. */
  function Assign(obj: Record, key: string, v: Option<string>): (r: Record)
    ensures Lookup(r, key) == v
    ensures forall k :: k != key ==> Lookup(r, k) == Lookup(obj, k)
  {
    match v
    case Some(x) => obj[key := x]
    case None => obj - {key}
  }

  /** The string-to-record conversion of the `autocompleteItems` getter and of `populateItems`. */
  function Normalise(displayBy: string, identifyBy: string, item: Candidate): Record {
    match item
    case Str(s) => map[displayBy := s][identifyBy := s]
    case Rec(fields) => fields
  }

  /** `items.map(...)` with the conversion above. */
  function NormaliseAll(displayBy: string, identifyBy: string, items: seq<Candidate>): (r: seq<Record>)
    ensures |r| == |items|
    ensures forall i :: 0 <= i < |items| && items[i].Rec? ==> r[i] == items[i].fields
    ensures forall i :: 0 <= i < |items| && items[i].Str? ==>
      && Lookup(r[i], displayBy) == Some(items[i].s)
      && Lookup(r[i], identifyBy) == Some(items[i].s)
      && r[i].Keys == {displayBy, identifyBy}
  {
    if items == [] then []
    else [Normalise(displayBy, identifyBy, items[0])] + NormaliseAll(displayBy, identifyBy, items[1..])
  }

  /** The getter `autocompleteItems`: a null or undefined pool reads as `[]`. */
  function AutocompleteItems(displayBy: string, identifyBy: string, pool: Option<seq<Candidate>>): (r: seq<Record>)
    ensures pool.None? ==> r == []
    ensures pool.Some? ==> r == NormaliseAll(displayBy, identifyBy, pool.value)
  {
    match pool
    case None => []
    case Some(items) => NormaliseAll(displayBy, identifyBy, items)
  }

  /** `populateItems`: the normalised fetch result, stored back as records. */
  function PopulateItems(displayBy: string, identifyBy: string, data: seq<Candidate>): (r: seq<Candidate>)
    ensures |r| == |data|
    ensures forall i :: 0 <= i < |r| ==> r[i].Rec?
  {
    seq(|data|, i requires 0 <= i < |data| => Rec(Normalise(displayBy, identifyBy, data[i])))
  }

  /** The getter re-normalises what `populateItems` stored; since records pass
      through unchanged, it reads back exactly the normalised data. */
  lemma {:induction false} PopulateThenRead(displayBy: string, identifyBy: string, data: seq<Candidate>)
    ensures AutocompleteItems(displayBy, identifyBy, Some(PopulateItems(displayBy, identifyBy, data)))
         == NormaliseAll(displayBy, identifyBy, data)
    decreases |data|
  {
    if data != [] {
      var stored := PopulateItems(displayBy, identifyBy, data);
      assert stored[1..] == PopulateItems(displayBy, identifyBy, data[1..]);
      PopulateThenRead(displayBy, identifyBy, data[1..]);
      assert Normalise(displayBy, identifyBy, stored[0]) == Normalise(displayBy, identifyBy, data[0]);
    }
  }
}
