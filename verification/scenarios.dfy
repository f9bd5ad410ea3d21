/** End-to-end runs across the screens. */
module Scenarios {
  import opened Wrappers
  import opened Json
  import opened Codec
  import opened Storage
  import Keys
  import opened Text
  import opened Home
  import opened Instruments
  import opened Backup

  /** A store that holds screen keys only exports three empty arrays. */
  lemma ScreenOnlyStoreExportsNothing(c: Codec, s: Store)
    requires forall k :: k in s ==> Keys.IsScreenKey(k)
    ensures ExportData(c, s) == Success(Document(JArr([]), JArr([]), JArr([])))
  {
    forall k | k in BackupKeys
      ensures k !in s
    {
      Keys.BackupKeysAreNotScreenKeys(k);
    }
  }

  /** Starting from an empty store: add client "Ana" with id "C1", open her
      instrument screen and add "Violino", go back and remove "Ana". Her
      instruments survive the removal (no cascade), and an export sees none
      of it, because the backup keys are not the keys the screens write. */
  lemma ClientRemovalLeavesInstruments(c: Codec)
    requires Lawful(c)
    ensures
      var home := AddItem(c, LoadItems(c, map[]), "Ana", "C1", "t0");
      var inst := AddInstrument(c, LoadInstruments(c, home.store, "C1"), "C1", "Violino", "t1");
      var removed := RemoveItem(c, View(inst.store, home.list), "C1");
      && removed.Success?
      && removed.value.list == []
      && LoadInstruments(c, removed.value.store, "C1").list == [InstrumentValue(Instrument("Violino", "t1"))]
      && ExportData(c, removed.value.store) == Success(Document(JArr([]), JArr([]), JArr([])))
  {
    var home := AddItem(c, LoadItems(c, map[]), "Ana", "C1", "t0");
    assert home.list == [ClientValue(Client("C1", "Ana", "t0"))];
    assert home.store.Keys == {Keys.ClientsKey};
    assert !IsSpace("Violino"[0]);
    var inst := AddInstrument(c, LoadInstruments(c, home.store, "C1"), "C1", "Violino", "t1");
    assert inst.list == [InstrumentValue(Instrument("Violino", "t1"))];
    assert inst.store.Keys == {Keys.ClientsKey, Keys.InstrumentsKey("C1")};
    var removed := RemoveItem(c, View(inst.store, home.list), "C1");
    assert removed.value.list == [];
    Keys.FamiliesDisjoint("C1", "C1");
    assert Agree(inst.store, removed.value.store, Keys.InstrumentsKey("C1"));
    assert removed.value.store.Keys == {Keys.ClientsKey, Keys.InstrumentsKey("C1")};
    ScreenOnlyStoreExportsNothing(c, removed.value.store);
  }
}
