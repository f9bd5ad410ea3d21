/** HomeScreen's data handling: the client list stored under `@notepad_items`. */
module Home {
  import opened Wrappers
  import opened Json
  import opened Codec
  import opened Storage
  import opened Keys
  import opened Lists

  /** A client as `addItem` creates it; the id comes from `Date.now()` and
      the timestamp from `toLocaleString()`, both passed in here. */
  datatype Client = Client(id: string, text: string, createdAt: string)

  /** The object `addItem` appends: the client's fields plus an empty `sublist`. */
  function ClientValue(c: Client): (v: Value)
    ensures HasId(v, c.id)
  {
    JObj(map["id" := JStr(c.id), "text" := JStr(c.text), "createdAt" := JStr(c.createdAt), "sublist" := JArr([])])
  }

  /** Reads a stored element back as a client, when it has exactly that shape. */
  function ClientOf(v: Value): (r: Option<Client>)
    ensures r.Some? ==> ClientValue(r.value) == v
  {
    if v.JObj? && v.fields.Keys == {"id", "text", "createdAt", "sublist"}
       && v.fields["id"].JStr? && v.fields["text"].JStr? && v.fields["createdAt"].JStr?
       && v.fields["sublist"] == JArr([])
    then
      var c := Client(v.fields["id"].s, v.fields["text"].s, v.fields["createdAt"].s);
      assert ClientValue(c).fields == v.fields;
      Some(c)
    else None
  }

  lemma ClientRoundTrip(c: Client)
    ensures ClientOf(ClientValue(c)) == Some(c)
  {
  }

  /** Reading `.id` of a null element inside `filter` throws a TypeError. */
  datatype Fault = NullRecord

  /** `loadItems`: the screen mounts with `[]` and takes the parsed stored
      list when there is one; it never writes. */
  function LoadItems(c: Codec, s: Store): (v: View)
    ensures v.store == s
    ensures ClientsKey !in s || s[ClientsKey] == "" ==> v.list == []
    ensures ClientsKey in s && s[ClientsKey] != "" && c.decode(s[ClientsKey]).None? ==> v.list == []
  {
    View(s, Load(c, s, ClientsKey))
  }

  /** `saveItems`: overwrites `@notepad_items` with the whole list; mounting
      afterwards shows exactly that list. */
  function SaveItems(c: Codec, s: Store, xs: seq<Value>): (r: Store)
    ensures OnlyChanged(s, r, {ClientsKey})
    ensures Lawful(c) ==> LoadItems(c, r).list == xs
  {
    Save(c, s, ClientsKey, xs)
  }

  /** `addItem`: empty text does nothing; otherwise exactly one new record
      goes at the end and the new list is saved. */
  function AddItem(c: Codec, st: View, text: string, id: string, createdAt: string): (r: View)
    ensures text == "" ==> r == st
    ensures text != "" ==> |r.list| == |st.list| + 1 && r.list[..|st.list|] == st.list
    ensures text != "" ==> r.list[|st.list|] == ClientValue(Client(id, text, createdAt))
    ensures text != "" && Lawful(c) ==> LoadItems(c, r.store).list == r.list
    ensures OnlyChanged(st.store, r.store, {ClientsKey})
  {
    if text == "" then st
    else
      var list' := st.list + [ClientValue(Client(id, text, createdAt))];
      View(SaveItems(c, st.store, list'), list')
  }

  /** `removeItem`: keeps exactly the elements whose `id` differs and saves
      the result; the filter throws, and nothing changes, when some element
      is null. */
  function RemoveItem(c: Codec, st: View, id: string): (r: Result<View, Fault>)
    ensures r.Failure? <==> JNull in st.list
    ensures r.Success? ==> r.value.list == WithoutId(st.list, id)
    ensures r.Success? ==> forall x :: x in r.value.list <==> x in st.list && !HasId(x, id)
    ensures r.Success? ==> forall k :: 0 <= k < |r.value.list| ==> !HasId(r.value.list[k], id)
    ensures r.Success? && Lawful(c) ==> LoadItems(c, r.value.store).list == r.value.list
    ensures r.Success? ==> OnlyChanged(st.store, r.value.store, {ClientsKey})
  {
    if JNull in st.list then Failure(NullRecord)
    else
      var list' := WithoutId(st.list, id);
      Success(View(SaveItems(c, st.store, list'), list'))
  }

  /** The in-memory list is what `@notepad_items` holds. */
  predicate InSync(c: Codec, st: View) {
    ClientsKey in st.store && st.store[ClientsKey] == c.encode(JArr(st.list))
  }

  /** Removing an id no record carries changes nothing, neither the list nor
      (when it was in step with the list) the store. */
  lemma RemoveAbsentId(c: Codec, st: View, id: string)
    requires JNull !in st.list
    requires forall k :: 0 <= k < |st.list| ==> !HasId(st.list[k], id)
    ensures RemoveItem(c, st, id).Success? && RemoveItem(c, st, id).value.list == st.list
    ensures InSync(c, st) ==> RemoveItem(c, st, id).value == st
  {
    WithoutAbsentId(st.list, id);
  }

  /** Removing the same client twice is the same as removing it once. */
  lemma RemoveItemIdempotent(c: Codec, st: View, id: string)
    requires RemoveItem(c, st, id).Success?
    ensures RemoveItem(c, RemoveItem(c, st, id).value, id) == RemoveItem(c, st, id)
  {
    var once := RemoveItem(c, st, id).value;
    WithoutIdIdempotent(st.list, id);
    assert JNull !in once.list;
    assert SaveItems(c, once.store, once.list) == once.store;
  }

  /** Removal keeps the surviving records in their original order: removing
      from a concatenation removes from each part. */
  lemma RemoveItemKeepsOrder(c: Codec, st: View, front: seq<Value>, back: seq<Value>, id: string)
    requires st.list == front + back
    requires RemoveItem(c, st, id).Success?
    ensures RemoveItem(c, st, id).value.list == WithoutId(front, id) + WithoutId(back, id)
  {
    WithoutIdAppend(front, back, id);
  }

  /** With unique ids and a fresh id (what `Date.now()` is relied on for),
      ids stay unique after `addItem`. */
  lemma AddItemKeepsIdsUnique(c: Codec, st: View, text: string, id: string, createdAt: string)
    requires UniqueIds(st.list)
    requires forall k :: 0 <= k < |st.list| ==> !HasId(st.list[k], id)
    ensures UniqueIds(AddItem(c, st, text, id, createdAt).list)
  {
  }

  /** Removal keeps ids unique. */
  lemma RemoveItemKeepsIdsUnique(c: Codec, st: View, id: string)
    requires UniqueIds(st.list)
    requires RemoveItem(c, st, id).Success?
    ensures UniqueIds(RemoveItem(c, st, id).value.list)
  {
    WithoutIdKeepsUnique(st.list, id);
  }

  /** Adding or removing a client never touches any client's instrument or
      detail partition: removal does not cascade. */
  lemma ClientWritesDoNotCascade(c: Codec, st: View, text: string, id: string, createdAt: string, x: string)
    ensures Agree(st.store, AddItem(c, st, text, id, createdAt).store, InstrumentsKey(x))
    ensures Agree(st.store, AddItem(c, st, text, id, createdAt).store, DetailsKey(x))
    ensures RemoveItem(c, st, id).Success? ==> Agree(st.store, RemoveItem(c, st, id).value.store, InstrumentsKey(x))
    ensures RemoveItem(c, st, id).Success? ==> Agree(st.store, RemoveItem(c, st, id).value.store, DetailsKey(x))
  {
    FamiliesDisjoint(x, x);
  }
}
