/**
 * The two ways the server actions read a submitted `FormData`: the whole of it
 * through `Object.fromEntries`, or one field through `formData.get`.
 */
module FormData {
  import opened Wrappers
  import opened Zod

  /** A submitted value: a string or a file. */
  datatype FormValue = Text(s: string) | Upload(size: int, mimeType: string)

  /** The value a schema sees for a submitted value. */
  function ToValue(f: FormValue): (v: Value)
    ensures v.Str? || v.FileObj?
  {
    match f
    case Text(s) => Str(s)
    case Upload(size, mimeType) => FileObj(size, mimeType)
  }

  /** One submitted entry: a field name and its value. */
  type Entry = (string, FormValue)

  /** The index of the last entry named `k`, if any. */
  function LastIndex(entries: seq<Entry>, k: string): (r: Option<nat>)
    ensures r.Some? ==> r.value < |entries| && entries[r.value].0 == k
    ensures r.Some? ==> forall i :: r.value < i < |entries| ==> entries[i].0 != k
    ensures r.None? ==> forall i :: 0 <= i < |entries| ==> entries[i].0 != k
    decreases |entries|
  {
    if |entries| == 0 then None
    else if entries[|entries| - 1].0 == k then Some(|entries| - 1)
    else
      var init := entries[..|entries| - 1];
      assert forall i :: 0 <= i < |init| ==> init[i] == entries[i];
      LastIndex(init, k)
  }

  /** `Object.fromEntries(formData)`: one key per name, holding the value of its last entry. */
  function FromEntries(entries: seq<Entry>): (fields: map<string, Value>)
    ensures forall k :: k in fields <==> LastIndex(entries, k).Some?
    ensures forall k :: k in fields ==> fields[k] == ToValue(entries[LastIndex(entries, k).value].1)
    decreases |entries|
  {
    if |entries| == 0 then map[]
    else
      var init := entries[..|entries| - 1];
      var last := entries[|entries| - 1];
      var rest := FromEntries(init);
      assert forall i :: 0 <= i < |init| ==> init[i] == entries[i];
      rest[last.0 := ToValue(last.1)]
  }

  /** A key is present exactly when some entry has that name, and holds the value of the last such entry. */
  lemma FromEntriesLastWins(entries: seq<Entry>, k: string)
    ensures k in FromEntries(entries) <==> exists j :: 0 <= j < |entries| && entries[j].0 == k
    ensures k in FromEntries(entries) ==> exists j ::
      0 <= j < |entries| && entries[j].0 == k && ToValue(entries[j].1) == FromEntries(entries)[k]
      && forall i :: j < i < |entries| ==> entries[i].0 != k
  {
    var r := LastIndex(entries, k);
    if r.Some? {
      var j := r.value;
      assert 0 <= j < |entries| && entries[j].0 == k;
    }
  }

  /** `formData.get(name)`: the first entry's value, `null` when there is none. */
  function Get(entries: seq<Entry>, name: string): (v: Value)
    ensures v == Null <==> forall j :: 0 <= j < |entries| ==> entries[j].0 != name
    ensures v != Null ==>
      exists j :: 0 <= j < |entries| && entries[j].0 == name && ToValue(entries[j].1) == v
        && forall i :: 0 <= i < j ==> entries[i].0 != name
    decreases |entries|
  {
    if |entries| == 0 then Null
    else if entries[0].0 == name then ToValue(entries[0].1)
    else
      var v := Get(entries[1..], name);
      assert forall j :: 1 <= j < |entries| ==> entries[j] == entries[1..][j - 1];
      v
  }

  /** A property read on the fields object: `undefined` for a missing key. */
  function Field(fields: map<string, Value>, key: string): (v: Value)
    ensures key in fields ==> v == fields[key]
    ensures key !in fields ==> v == Undefined
  {
    if key in fields then fields[key] else Undefined
  }

  /** `{...prev, ...fields}`: every key of either, the fields winning. */
  function Merge(prev: map<string, Value>, fields: map<string, Value>): (m: map<string, Value>)
    ensures m.Keys == prev.Keys + fields.Keys
    ensures forall k :: k in fields ==> m[k] == fields[k]
    ensures forall k :: k in prev && k !in fields ==> m[k] == prev[k]
  {
    prev + fields
  }
}
