/** DetailsScreen's data handling: one list of free-text strings per
    client, stored under `@notepad_item_` followed by the client id. */
module Details {
  import opened Json
  import opened Codec
  import opened Storage
  import opened Keys
  import opened Lists

  /** `loadAdditionalStrings`: a client whose partition was never written
      has no strings; loading never writes. */
  function LoadAdditionalStrings(c: Codec, s: Store, clientId: string): (v: View)
    ensures v.store == s
    ensures DetailsKey(clientId) !in s ==> v.list == []
  {
    View(s, Load(c, s, DetailsKey(clientId)))
  }

  /** `addString`: only the empty string is refused (whitespace is
      accepted); any other string is appended and the list saved. */
  function AddString(c: Codec, st: View, clientId: string, text: string): (r: View)
    ensures text == "" ==> r == st
    ensures text != "" ==> r.list == st.list + [JStr(text)]
    ensures text != "" && Lawful(c) ==> LoadAdditionalStrings(c, r.store, clientId).list == r.list
    ensures OnlyChanged(st.store, r.store, {DetailsKey(clientId)})
  {
    if text != "" then
      var list' := st.list + [JStr(text)];
      View(Save(c, st.store, DetailsKey(clientId), list'), list')
    else st
  }

  /** `removeString`: drops position `index` only, even when other entries
      hold the same string; out of range it keeps the list. */
  function RemoveString(c: Codec, st: View, clientId: string, index: int): (r: View)
    ensures r.list == RemoveAt(st.list, index)
    ensures Lawful(c) ==> LoadAdditionalStrings(c, r.store, clientId).list == r.list
    ensures OnlyChanged(st.store, r.store, {DetailsKey(clientId)})
  {
    var list' := WithoutIndex(st.list, index);
    View(Save(c, st.store, DetailsKey(clientId), list'), list')
  }

  /** Unlike an instrument name, a whitespace-only string is kept. */
  lemma BlankStringAccepted(c: Codec, st: View, clientId: string)
    ensures AddString(c, st, clientId, " ").list == st.list + [JStr(" ")]
  {
  }

  /** Of two equal entries, removal by position drops only the one asked for. */
  lemma RemoveOneOfTwinEntries(c: Codec, st: View, clientId: string, text: string)
    requires st.list == [JStr(text), JStr(text)]
    ensures RemoveString(c, st, clientId, 0).list == [JStr(text)]
  {
  }

  /** A write for one client never touches another client's strings, any
      instrument partition, or the client list. */
  lemma DetailWritesStayInPartition(c: Codec, st: View, clientId: string, text: string, index: int, other: string, x: string)
    requires other != clientId
    ensures Agree(st.store, AddString(c, st, clientId, text).store, DetailsKey(other))
    ensures Agree(st.store, RemoveString(c, st, clientId, index).store, DetailsKey(other))
    ensures Agree(st.store, AddString(c, st, clientId, text).store, ClientsKey)
    ensures Agree(st.store, RemoveString(c, st, clientId, index).store, ClientsKey)
    ensures Agree(st.store, AddString(c, st, clientId, text).store, InstrumentsKey(x))
    ensures Agree(st.store, RemoveString(c, st, clientId, index).store, InstrumentsKey(x))
  {
    DetailsKeyInjective(clientId, other);
    FamiliesDisjoint(x, clientId);
  }
}
