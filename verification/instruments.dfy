/** InstrumentScreen's data handling: one instrument list per client,
    stored under `@notepad_instruments_` followed by the client id. */
module Instruments {
  import opened Wrappers
  import opened Json
  import opened Codec
  import opened Storage
  import opened Keys
  import opened Lists
  import opened Text

  /** An instrument as `addInstrument` creates it; the timestamp comes from
      `toISOString()` and is passed in. It has no id: the screen addresses
      instruments by position. */
  datatype Instrument = Instrument(name: string, createdAt: string)

  /** The object `addInstrument` appends: the name as typed and an empty
      legacy `notes` list. */
  function InstrumentValue(i: Instrument): (v: Value)
    ensures v.JObj? && "name" in v.fields && v.fields["name"] == JStr(i.name)
  {
    JObj(map["name" := JStr(i.name), "notes" := JArr([]), "createdAt" := JStr(i.createdAt)])
  }

  /** Reads a stored element back as an instrument, when it has exactly that shape. */
  function InstrumentOf(v: Value): (r: Option<Instrument>)
    ensures r.Some? ==> InstrumentValue(r.value) == v
  {
    if v.JObj? && v.fields.Keys == {"name", "notes", "createdAt"}
       && v.fields["name"].JStr? && v.fields["createdAt"].JStr? && v.fields["notes"] == JArr([])
    then
      var i := Instrument(v.fields["name"].s, v.fields["createdAt"].s);
      assert InstrumentValue(i).fields == v.fields;
      Some(i)
    else None
  }

  lemma InstrumentRoundTrip(i: Instrument)
    ensures InstrumentOf(InstrumentValue(i)) == Some(i)
  {
  }

  /** `loadInstruments`: a client whose partition was never written has no
      instruments; loading never writes. */
  function LoadInstruments(c: Codec, s: Store, clientId: string): (v: View)
    ensures v.store == s
    ensures InstrumentsKey(clientId) !in s ==> v.list == []
  {
    View(s, Load(c, s, InstrumentsKey(clientId)))
  }

  /** `saveInstruments`: overwrites only this client's partition; loading
      it afterwards shows exactly the saved list. */
  function SaveInstruments(c: Codec, s: Store, clientId: string, xs: seq<Value>): (r: Store)
    ensures OnlyChanged(s, r, {InstrumentsKey(clientId)})
    ensures Lawful(c) ==> LoadInstruments(c, r, clientId).list == xs
  {
    Save(c, s, InstrumentsKey(clientId), xs)
  }

  /** `addInstrument`: an empty or whitespace-only name does nothing; any
      other name is appended exactly as typed, untrimmed, and saved. */
  function AddInstrument(c: Codec, st: View, clientId: string, name: string, createdAt: string): (r: View)
    ensures AllSpace(name) ==> r == st
    ensures !AllSpace(name) ==> r.list == st.list + [InstrumentValue(Instrument(name, createdAt))]
    ensures !AllSpace(name) && Lawful(c) ==> LoadInstruments(c, r.store, clientId).list == r.list
    ensures OnlyChanged(st.store, r.store, {InstrumentsKey(clientId)})
  {
    TrimEmptyIffAllSpace(name);
    if Trim(name) != "" then
      var list' := st.list + [InstrumentValue(Instrument(name, createdAt))];
      View(SaveInstruments(c, st.store, clientId, list'), list')
    else st
  }

  /** `removeInstrument`: drops the element at position `index` (nothing
      when it is out of range) and saves the result. */
  function RemoveInstrument(c: Codec, st: View, clientId: string, index: int): (r: View)
    ensures r.list == RemoveAt(st.list, index)
    ensures Lawful(c) ==> LoadInstruments(c, r.store, clientId).list == r.list
    ensures OnlyChanged(st.store, r.store, {InstrumentsKey(clientId)})
  {
    var list' := WithoutIndex(st.list, index);
    View(SaveInstruments(c, st.store, clientId, list'), list')
  }

  /** The answers to the confirmation dialog: the two buttons, and a tap
      outside it, which the dialog allows (`cancelable: true`). */
  datatype Choice = Cancel | Remove | Dismiss

  /** `confirmRemoveInstrument`: only the "Remover" button removes. */
  function ConfirmRemoveInstrument(c: Codec, st: View, clientId: string, index: int, choice: Choice): (r: View)
    ensures choice != Remove ==> r == st
    ensures choice == Remove ==> r.list == RemoveAt(st.list, index)
    ensures OnlyChanged(st.store, r.store, {InstrumentsKey(clientId)})
  {
    if choice == Remove then RemoveInstrument(c, st, clientId, index) else st
  }

  /** Adding an instrument for one client never touches another client's
      instruments, any detail partition, or the client list. */
  lemma AddInstrumentStaysInPartition(c: Codec, st: View, clientId: string, name: string, createdAt: string, other: string, x: string)
    requires other != clientId
    ensures Agree(st.store, AddInstrument(c, st, clientId, name, createdAt).store, InstrumentsKey(other))
    ensures Agree(st.store, AddInstrument(c, st, clientId, name, createdAt).store, ClientsKey)
    ensures Agree(st.store, AddInstrument(c, st, clientId, name, createdAt).store, DetailsKey(x))
  {
    var s' := AddInstrument(c, st, clientId, name, createdAt).store;
    assert OnlyChanged(st.store, s', {InstrumentsKey(clientId)});
    InstrumentsKeyInjective(clientId, other);
    FamiliesDisjoint(clientId, x);
  }

  /** Removing an instrument for one client never touches another client's
      instruments, any detail partition, or the client list. */
  lemma RemoveInstrumentStaysInPartition(c: Codec, st: View, clientId: string, index: int, other: string, x: string)
    requires other != clientId
    ensures Agree(st.store, RemoveInstrument(c, st, clientId, index).store, InstrumentsKey(other))
    ensures Agree(st.store, RemoveInstrument(c, st, clientId, index).store, ClientsKey)
    ensures Agree(st.store, RemoveInstrument(c, st, clientId, index).store, DetailsKey(x))
  {
    var s' := RemoveInstrument(c, st, clientId, index).store;
    assert OnlyChanged(st.store, s', {InstrumentsKey(clientId)});
    InstrumentsKeyInjective(clientId, other);
    FamiliesDisjoint(clientId, x);
  }
}
