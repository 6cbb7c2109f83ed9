/**
 * Resolution: which device record a channel reads on an update, and the
 * value it then stores. Table-driven channels go through `_dev_id`; the
 * others probe their well-known keys and take the first present one.
 */
module Resolution {
  import opened Wrappers
  import opened Channels
  import opened Snapshots
  import opened Discovery

  /** The if/elif chain over well-known keys: the index of the first candidate present in the list. */
  function FirstPresent(cands: seq<string>, s: seq<(string, Device)>): (r: Option<nat>)
    ensures r.Some? ==> r.value < |cands| && Has(s, cands[r.value])
    ensures r.Some? ==> forall j :: 0 <= j < r.value ==> !Has(s, cands[j])
    ensures r.None? ==> forall j :: 0 <= j < |cands| ==> !Has(s, cands[j])
  {
    if |cands| == 0 then None
    else if Has(s, cands[0]) then Some(0)
    else match FirstPresent(cands[1..], s)
      case None => None
      case Some(i) => Some(i + 1)
  }

  /** The device key a channel reads this update, if any. */
  function SourceKey(c: Channel, t: Table, s: seq<(string, Device)>): Option<string>
  {
    match RoleOf(c)
    case Some(_) => Entry(t, c)
    case None =>
      match FirstPresent(Candidates(c), s)
      case Some(i) => Some(Candidates(c)[i])
      case None => None
  }

  /**
   * The read does not raise KeyError: the resolved key is in the list and its
   * record has the field the channel reads.
   */
  predicate Readable(c: Channel, t: Table, s: seq<(string, Device)>)
  {
    match SourceKey(c, t, s)
    case None => true
    case Some(k) => Has(s, k) && Field(c) in Lookup(s, k).value.fields
  }

  /** The value the channel stores this update, or None when nothing resolves. */
  function Reading(c: Channel, t: Table, s: seq<(string, Device)>): Option<real>
    requires Readable(c, t, s)
  {
    match SourceKey(c, t, s)
    case None => None
    case Some(k) => Some(Convert(c, Lookup(s, k).value.fields[Field(c)]))
  }

  /**
   * A channel without a role reads candidate i exactly when candidate i is
   * present and no earlier candidate is; it never consults the table.
   */
  lemma PriorityOrder(c: Channel, t: Table, s: seq<(string, Device)>, i: nat)
    requires RoleOf(c).None? && i < |Candidates(c)|
    ensures SourceKey(c, t, s) == Some(Candidates(c)[i]) <==>
              (Has(s, Candidates(c)[i]) && forall j :: 0 <= j < i ==> !Has(s, Candidates(c)[j]))
  {
    var cands := Candidates(c);
    if Has(s, cands[i]) && forall j :: 0 <= j < i ==> !Has(s, cands[j]) {
      var r := FirstPresent(cands, s);
      assert r.Some?;
      assert r.value == i;
    }
    if SourceKey(c, t, s) == Some(cands[i]) {
      var r := FirstPresent(cands, s);
      assert r.Some? && cands[r.value] == cands[i];
      assert r.value == i;
    }
  }

  /**
   * A resolved read yields the record's field, divided by 1000 for the scaled
   * channels and unchanged otherwise; an unresolved one yields nothing.
   */
  lemma ReadingValue(c: Channel, t: Table, s: Snapshot)
    requires Readable(c, t, s)
    ensures SourceKey(c, t, s).None? ==> Reading(c, t, s).None?
    ensures SourceKey(c, t, s).Some? ==>
              exists i :: 0 <= i < |s| && s[i].0 == SourceKey(c, t, s).value && Field(c) in s[i].1.fields
                && Reading(c, t, s) == Some(if Scaled(c) then s[i].1.fields[Field(c)] / 1000.0
                                            else s[i].1.fields[Field(c)])
  {
    if SourceKey(c, t, s).Some? {
      var k := SourceKey(c, t, s).value;
      var i :| 0 <= i < |s| && s[i] == (k, Lookup(s, k).value);
      assert s[i].0 == k;
    }
  }
}
