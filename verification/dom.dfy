/**
 * The parts of the page the map scripts read and write: the values of the
 * input elements (looked up by id), the datagrid containers that name a map
 * in their `data-mapgrid` attribute, and the `<id>_<property>` fallback rule
 * both scripts use to read their settings.
 */
module Dom {
  import opened JsValues

  /** A `div` of the page: its `id` and its `data-mapgrid` attribute, if any. */
  datatype Div = Div(id: string, mapgrid: Option<string>)

  /**
   * The ids of `div[data-mapgrid=<mapId>]`, in document order (what
   * `querySelectorAll(...).forEach` visits).
   */
  function MatchingIds(divs: seq<Div>, mapId: string): (ids: seq<string>)
    ensures |ids| <= |divs|
    ensures forall x :: x in ids <==> exists i :: 0 <= i < |divs| && divs[i].mapgrid == Some(mapId) && divs[i].id == x
    decreases |divs|
  {
    if divs == [] then []
    else
      var rest := MatchingIds(divs[1..], mapId);
      assert forall i :: 0 < i < |divs| ==> divs[i] == divs[1..][i - 1];
      assert forall i :: 0 <= i < |divs| - 1 ==> divs[1..][i] == divs[i + 1];
      if divs[0].mapgrid == Some(mapId) then [divs[0].id] + rest else rest
  }

  /** Scanning two stretches of the document one after the other keeps their order. */
  lemma {:induction false} MatchingIdsAppend(a: seq<Div>, b: seq<Div>, mapId: string)
    ensures MatchingIds(a + b, mapId) == MatchingIds(a, mapId) + MatchingIds(b, mapId)
    decreases |a|
  {
    if a == [] {
      assert a + b == b;
    } else {
      assert (a + b)[1..] == a[1..] + b;
      MatchingIdsAppend(a[1..], b, mapId);
    }
  }

  /** The index of the first write whose id is not among `ids` (`|writes|` when there is none). */
  function FirstMissing(ids: set<string>, writes: seq<(string, string)>): (k: nat)
    ensures k <= |writes|
    ensures forall i :: 0 <= i < k ==> writes[i].0 in ids
    ensures k < |writes| ==> writes[k].0 !in ids
    decreases |writes|
  {
    if writes == [] || writes[0].0 !in ids then 0
    else
      assert forall i :: 0 < i < |writes| ==> writes[i] == writes[1..][i - 1];
      1 + FirstMissing(ids, writes[1..])
  }

  /**
   * Assigning `document.getElementById(id).value = v` for each pair in turn:
   * a missing element stops the sequence with a TypeError, after the earlier
   * assignments have taken effect.
   */
  function ApplyWrites(inputs: map<string, string>, writes: seq<(string, string)>)
    : (r: (map<string, string>, Option<Fault>))
    ensures r.1.None? <==> forall i :: 0 <= i < |writes| ==> writes[i].0 in inputs
    ensures r.0.Keys == inputs.Keys
    ensures forall k :: k in inputs && (forall i :: 0 <= i < |writes| ==> writes[i].0 != k) ==> r.0[k] == inputs[k]
    ensures r.1.None? ==>
              forall i :: 0 <= i < |writes| && (forall j :: i < j < |writes| ==> writes[j].0 != writes[i].0)
                ==> r.0[writes[i].0] == writes[i].1
    decreases |writes|
  {
    if writes == [] then (inputs, None)
    else if writes[0].0 !in inputs then (inputs, Some(TypeError("Cannot set properties of null (setting 'value')")))
    else
      var r := ApplyWrites(inputs[writes[0].0 := writes[0].1], writes[1..]);
      assert forall i :: 0 < i < |writes| ==> writes[i] == writes[1..][i - 1];
      r
  }

  /**
   * The writes before the first missing id take effect, and they are all
   * that do: the fields end as if only that prefix had been written, and
   * the sequence fails exactly when such an id exists.
   */
  lemma {:induction false} ApplyWritesPrefix(inputs: map<string, string>, writes: seq<(string, string)>)
    ensures var k := FirstMissing(inputs.Keys, writes);
      && (ApplyWrites(inputs, writes).1.Some? <==> k < |writes|)
      && ApplyWrites(inputs, writes[..k]).1.None?
      && ApplyWrites(inputs, writes).0 == ApplyWrites(inputs, writes[..k]).0
    decreases |writes|
  {
    var k := FirstMissing(inputs.Keys, writes);
    if writes == [] || writes[0].0 !in inputs {
      assert writes[..k] == [];
    } else {
      var next := inputs[writes[0].0 := writes[0].1];
      assert next.Keys == inputs.Keys;
      ApplyWritesPrefix(next, writes[1..]);
      var k' := FirstMissing(next.Keys, writes[1..]);
      assert k == k' + 1;
      assert writes[..k][0] == writes[0] && writes[..k][1..] == writes[1..][..k'];
    }
  }

  /** The input elements of the page, by id, with their current values. */
  class Document {
    var inputs: map<string, string>

    constructor (inputs: map<string, string>)
      ensures this.inputs == inputs
    {
      this.inputs := inputs;
    }

    /** Assigns the values in order; see `ApplyWrites`. */
    method WriteFields(writes: seq<(string, string)>) returns (fault: Option<Fault>)
      modifies this
      ensures (inputs, fault) == ApplyWrites(old(inputs), writes)
    {
      var i := 0;
      while i < |writes|
        invariant 0 <= i <= |writes|
        invariant ApplyWrites(old(inputs), writes) == ApplyWrites(inputs, writes[i..])
      {
        var (id, value) := writes[i];
        if id !in inputs {
          fault := Some(TypeError("Cannot set properties of null (setting 'value')"));
          return;
        }
        assert writes[i..][1..] == writes[i + 1..];
        inputs := inputs[id := value];
        i := i + 1;
      }
      fault := None;
    }
  }

  /** Either the value of the `<id>_<property>` input, or the caller's default. */
  datatype Prop<T> = FromField(text: string) | Fallback(value: T)

  /**
   * `getMapBoxProperty`: the value of the input `#<boxId>_<property>` when
   * that element exists and its value is not empty, the default otherwise.
   */
  function GetMapBoxProperty<T>(inputs: map<string, string>, boxId: string, property: string, default: T)
    : (r: Prop<T>)
    ensures r.Fallback? <==> (boxId + "_" + property !in inputs || inputs[boxId + "_" + property] == "")
    ensures r.Fallback? ==> r.value == default
    ensures r.FromField? ==> r.text == inputs[boxId + "_" + property] && r.text != ""
  {
    var propertyId := boxId + "_" + property;
    if propertyId in inputs && inputs[propertyId] != "" then FromField(inputs[propertyId]) else Fallback(default)
  }
}
