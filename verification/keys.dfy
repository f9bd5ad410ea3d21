/** The storage keys the screens and the backup use, and the facts that
    keep their key families apart. */
module Keys {

  /** HomeScreen's client list. */
  const ClientsKey: string := "@notepad_items"
  /** InstrumentScreen's per-client partitions are this prefix plus the client id. */
  const InstrumentsPrefix: string := "@notepad_instruments_"
  /** DetailsScreen's per-client partitions are this prefix plus the client id. */
  const DetailsPrefix: string := "@notepad_item_"

  /** The three keys the backup reads and overwrites. They are not the keys
      the screens write. */
  const BackupClientsKey: string := "Clientes"
  const BackupInstrumentsKey: string := "Instrumentos"
  const BackupNotesKey: string := "Anota\U{e7}\U{f5}es"

  /** The template literal `${STORAGE_KEY_PREFIX}${item.id}` of InstrumentScreen. */
  function InstrumentsKey(clientId: string): (k: string)
    ensures HasPrefix(k, InstrumentsPrefix) && k[|InstrumentsPrefix|..] == clientId
  {
    InstrumentsPrefix + clientId
  }

  /** The template literal `${STORAGE_KEY_PREFIX}${item.id}` of DetailsScreen. */
  function DetailsKey(clientId: string): (k: string)
    ensures HasPrefix(k, DetailsPrefix) && k[|DetailsPrefix|..] == clientId
  {
    DetailsPrefix + clientId
  }

  predicate HasPrefix(k: string, prefix: string) {
    |prefix| <= |k| && k[..|prefix|] == prefix
  }

  /** Every key some screen reads or writes. */
  predicate IsScreenKey(k: string) {
    k == ClientsKey || HasPrefix(k, InstrumentsPrefix) || HasPrefix(k, DetailsPrefix)
  }

  predicate IsBackupKey(k: string) {
    k == BackupClientsKey || k == BackupInstrumentsKey || k == BackupNotesKey
  }

  /** Distinct client ids get distinct instrument partitions. */
  lemma InstrumentsKeyInjective(x: string, y: string)
    ensures InstrumentsKey(x) == InstrumentsKey(y) <==> x == y
  {
  }

  /** Distinct client ids get distinct detail partitions. */
  lemma DetailsKeyInjective(x: string, y: string)
    ensures DetailsKey(x) == DetailsKey(y) <==> x == y
  {
  }

  /** The three screen key families never collide, for any ids: the
      prefixes already differ at position 10 (`n` against `t`) or at
      position 13 (`s` against `_`). */
  lemma FamiliesDisjoint(x: string, y: string)
    ensures InstrumentsKey(x) != DetailsKey(y)
    ensures InstrumentsKey(x) != ClientsKey
    ensures DetailsKey(y) != ClientsKey
  {
    assert InstrumentsKey(x)[10] == 'n' && DetailsKey(y)[10] == 't' && ClientsKey[10] == 't';
    assert DetailsKey(y)[13] == '_' && ClientsKey[13] == 's';
  }

  /** A backup key is never a screen key: they do not even start with `@`. */
  lemma BackupKeysAreNotScreenKeys(k: string)
    requires IsBackupKey(k)
    ensures !IsScreenKey(k)
  {
  }

  /** The three backup keys are pairwise distinct, so the import writes three
      different entries. */
  lemma BackupKeysDistinct()
    ensures BackupClientsKey != BackupInstrumentsKey
    ensures BackupClientsKey != BackupNotesKey
    ensures BackupInstrumentsKey != BackupNotesKey
  {
  }
}
