/** Template persistence at the level of key/value maps: saving dumps the
    record's `__dict__` (the eight fields in declaration order) and
    loading rebuilds the record with `PromptElements(**data)`, which fills
    missing keys with "" and rejects any key that is not a field name. */
module Templates {
  import opened Wrappers
  import opened Elements

  /** `elements.__dict__.items()`: the key/value pairs a template file is
      written from, in declaration order. */
  function ToEntries(e: PromptElements): (r: seq<(string, string)>)
    ensures |r| == |AllFields|
    ensures forall i :: 0 <= i < |r| ==> r[i] == (Key(AllFields[i]), Get(e, AllFields[i]))
  {
    [ ("subject", e.subject), ("composition", e.composition), ("style", e.style),
      ("lighting", e.lighting), ("color", e.color), ("mood", e.mood),
      ("details", e.details), ("context", e.context) ]
  }

  /** The dictionary a JSON object with these members decodes to: a later
      member with the same key replaces an earlier one. */
  function EntriesToMap(entries: seq<(string, string)>): map<string, string>
    decreases |entries|
  {
    if |entries| == 0 then map[]
    else
      var last := entries[|entries| - 1];
      EntriesToMap(entries[..|entries| - 1])[last.0 := last.1]
  }

  /** Every listed key is in the dictionary, and every dictionary entry is
      one of the listed pairs. */
  lemma {:induction false} EntriesToMapMembers(entries: seq<(string, string)>)
    ensures forall i :: 0 <= i < |entries| ==> entries[i].0 in EntriesToMap(entries)
    ensures forall k :: k in EntriesToMap(entries) ==>
      exists i :: 0 <= i < |entries| && entries[i] == (k, EntriesToMap(entries)[k])
    decreases |entries|
  {
    if |entries| > 0 {
      var init := entries[..|entries| - 1];
      EntriesToMapMembers(init);
      assert forall i :: 0 <= i < |init| ==> init[i] == entries[i];
    }
  }

  /** `elements.__dict__` as a dictionary: exactly the eight field names,
      each mapped to its field's value. */
  function ToMap(e: PromptElements): (m: map<string, string>)
    ensures m.Keys == FieldKeys
    ensures forall f :: m[Key(f)] == Get(e, f)
  {
    map[ "subject" := e.subject, "composition" := e.composition, "style" := e.style,
         "lighting" := e.lighting, "color" := e.color, "mood" := e.mood,
         "details" := e.details, "context" := e.context ]
  }

  /** `data.get(k, "")`. */
  function Lookup(m: map<string, string>, k: string): string {
    if k in m then m[k] else ""
  }

  /** `PromptElements(**data)`: fails on a key that names no field, and
      otherwise takes each field from its key, or "" when the key is absent. */
  function FromMap(m: map<string, string>): (r: Option<PromptElements>)
    ensures r.None? <==> exists k :: k in m && k !in FieldKeys
    ensures r.Some? ==> forall f :: Get(r.value, f) == Lookup(m, Key(f))
  {
    if m.Keys <= FieldKeys then
      Some(PromptElements(
        Lookup(m, "subject"), Lookup(m, "composition"), Lookup(m, "style"),
        Lookup(m, "lighting"), Lookup(m, "color"), Lookup(m, "mood"),
        Lookup(m, "details"), Lookup(m, "context")))
    else None
  }

  /** Reading back what was written gives the record's dictionary. */
  lemma SavedEntriesReadBack(e: PromptElements)
    ensures EntriesToMap(ToEntries(e)) == ToMap(e)
  {
    var entries := ToEntries(e);
    assert entries[..0] == [];
    EntriesSnoc(entries, 0);
    EntriesSnoc(entries, 1);
    EntriesSnoc(entries, 2);
    EntriesSnoc(entries, 3);
    EntriesSnoc(entries, 4);
    EntriesSnoc(entries, 5);
    EntriesSnoc(entries, 6);
    EntriesSnoc(entries, 7);
    assert entries[..8] == entries;
  }

  /** One more pair updates the map of the pairs before it. */
  lemma EntriesSnoc(entries: seq<(string, string)>, k: nat)
    requires k < |entries|
    ensures EntriesToMap(entries[..k + 1]) == EntriesToMap(entries[..k])[entries[k].0 := entries[k].1]
  {
    assert entries[..k + 1][..k] == entries[..k];
  }

  /** Saving then loading gives back the same record. */
  lemma RoundTrip(e: PromptElements)
    ensures FromMap(ToMap(e)) == Some(e)
  {
    var r := FromMap(ToMap(e));
    assert r.Some?;
    Extensionality(r.value, e);
  }

  /** Loading then saving keeps every key that was present and supplies ""
      for every field name that was missing. */
  lemma LoadThenSave(m: map<string, string>, e: PromptElements)
    requires FromMap(m) == Some(e)
    ensures forall k :: k in m ==> ToMap(e)[k] == m[k]
    ensures forall k :: k in FieldKeys && k !in m ==> ToMap(e)[k] == ""
  {
    forall k | k in FieldKeys
      ensures ToMap(e)[k] == Lookup(m, k)
    {
      var f := FieldOfKey(k).value;
      assert ToMap(e)[Key(f)] == Get(e, f);
    }
  }
}
