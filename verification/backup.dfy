/** BackupScreen's data shaping: `exportData` assembles one document from
    three fixed keys, and `importData` checks a parsed document and
    overwrites those three keys with it. */
module Backup {
  import opened Wrappers
  import opened Json
  import opened Codec
  import opened Storage
  import opened Keys

  /** The backup document `{ clients, instruments, notes }`. Each field is
      whatever the corresponding key parsed to, not necessarily an array. */
  datatype Document = Document(clients: Value, instruments: Value, notes: Value)

  /** The object `JSON.stringify` receives on export. */
  function DocumentValue(d: Document): Value {
    JObj(map["clients" := d.clients, "instruments" := d.instruments, "notes" := d.notes])
  }

  /** Why an export or an import stopped. */
  datatype BackupError =
    | CorruptPartition(key: string)  // a stored value failed to parse on export
    | UnreadableFile                 // the chosen file failed to parse on import
    | InvalidFormat                  // the parsed document failed the field check

  /** The keys an import writes. */
  const BackupKeys: set<string> := {BackupClientsKey, BackupInstrumentsKey, BackupNotesKey}

  /** The document part of `exportData`: each field is the parsed value of
      its key, or `[]` when the key is absent or empty; the first value that
      fails to parse aborts the export. */
  function ExportData(c: Codec, s: Store): (r: Result<Document, BackupError>)
    ensures r.Success? <==>
      Read(c, s, BackupClientsKey).Some? && Read(c, s, BackupInstrumentsKey).Some? && Read(c, s, BackupNotesKey).Some?
    ensures r.Success? ==> r.value.clients == Read(c, s, BackupClientsKey).value
    ensures r.Success? ==> r.value.instruments == Read(c, s, BackupInstrumentsKey).value
    ensures r.Success? ==> r.value.notes == Read(c, s, BackupNotesKey).value
    ensures r.Success? && BackupClientsKey !in s ==> r.value.clients == JArr([])
    ensures r.Success? && BackupInstrumentsKey !in s ==> r.value.instruments == JArr([])
    ensures r.Success? && BackupNotesKey !in s ==> r.value.notes == JArr([])
  {
    match Read(c, s, BackupClientsKey)
    case None => Failure(CorruptPartition(BackupClientsKey))
    case Some(clients) =>
      match Read(c, s, BackupInstrumentsKey)
      case None => Failure(CorruptPartition(BackupInstrumentsKey))
      case Some(instruments) =>
        match Read(c, s, BackupNotesKey)
        case None => Failure(CorruptPartition(BackupNotesKey))
        case Some(notes) => Success(Document(clients, instruments, notes))
  }

  /** The text written to the backup file: the serialized document. */
  function ExportText(c: Codec, s: Store): (r: Result<string, BackupError>)
    ensures r.Success? <==> ExportData(c, s).Success?
    ensures r.Success? && Lawful(c) ==> c.decode(r.value) == Some(DocumentValue(ExportData(c, s).value))
  {
    match ExportData(c, s)
    case Success(d) => Success(c.encode(DocumentValue(d)))
    case Failure(e) => Failure(e)
  }

  /** `parsedData.field` is truthy; `parsedData` itself is known not to be null. */
  predicate FieldTruthy(v: Value, field: string)
    requires v != JNull
  {
    match Prop(v, field)
    case Some(x) => Truthy(x)
    case None => false
  }

  /** The check `parsedData && parsedData.clients && parsedData.instruments
      && parsedData.notes`: the document must be an object whose three fields
      are all present and truthy. Empty arrays pass; null, false, 0 and ""
      do not. */
  function Validate(v: Value): (r: Result<Document, BackupError>)
    ensures r.Success? <==>
      && v.JObj?
      && "clients" in v.fields && Truthy(v.fields["clients"])
      && "instruments" in v.fields && Truthy(v.fields["instruments"])
      && "notes" in v.fields && Truthy(v.fields["notes"])
    ensures r.Success? ==> r.value == Document(v.fields["clients"], v.fields["instruments"], v.fields["notes"])
    ensures r.Failure? ==> r.error == InvalidFormat
  {
    if Truthy(v) && FieldTruthy(v, "clients") && FieldTruthy(v, "instruments") && FieldTruthy(v, "notes") then
      Success(Document(v.fields["clients"], v.fields["instruments"], v.fields["notes"]))
    else
      Failure(InvalidFormat)
  }

  /** A document built by export passes the check, and gives back the same
      fields, exactly when its three fields are truthy. */
  lemma ValidateDocumentValue(d: Document)
    ensures Validate(DocumentValue(d)).Success? <==> Truthy(d.clients) && Truthy(d.instruments) && Truthy(d.notes)
    ensures Validate(DocumentValue(d)).Success? ==> Validate(DocumentValue(d)).value == d
  {
  }

  /** The store after an import, and the error that stopped it, if any. */
  datatype Imported = Imported(store: Store, error: Option<BackupError>)

  /** The storage part of `importData`: a document that fails the check
      leaves the store as it was; one that passes overwrites exactly the
      three backup keys with its serialized fields. */
  function ImportData(c: Codec, s: Store, v: Value): (r: Imported)
    ensures r.error.Some? ==> r.store == s
    ensures r.error.None? <==> Validate(v).Success?
    ensures r.error.Some? ==> r.error.value == InvalidFormat
    ensures r.error.None? ==> r.store.Keys == s.Keys + BackupKeys
    ensures r.error.None? ==> r.store[BackupClientsKey] == c.encode(v.fields["clients"])
    ensures r.error.None? ==> r.store[BackupInstrumentsKey] == c.encode(v.fields["instruments"])
    ensures r.error.None? ==> r.store[BackupNotesKey] == c.encode(v.fields["notes"])
    ensures OnlyChanged(s, r.store, BackupKeys)
  {
    BackupKeysDistinct();
    match Validate(v)
    case Failure(e) => Imported(s, Some(e))
    case Success(d) =>
      Imported(s[BackupClientsKey := c.encode(d.clients)]
                [BackupInstrumentsKey := c.encode(d.instruments)]
                [BackupNotesKey := c.encode(d.notes)], None)
  }

  /** `importData` from the file's text: text that fails to parse is an
      error and writes nothing. */
  function ImportText(c: Codec, s: Store, text: string): (r: Imported)
    ensures c.decode(text).None? ==> r == Imported(s, Some(UnreadableFile))
    ensures c.decode(text).Some? ==> r == ImportData(c, s, c.decode(text).value)
  {
    match c.decode(text)
    case None => Imported(s, Some(UnreadableFile))
    case Some(v) => ImportData(c, s, v)
  }

  /** Export reads nothing but the three backup keys. */
  lemma ExportReadsOnlyBackupKeys(c: Codec, s1: Store, s2: Store)
    requires forall k :: k in BackupKeys ==> Agree(s1, s2, k)
    ensures ExportData(c, s1) == ExportData(c, s2)
  {
  }

  /** Because the backup keys are not the keys the screens write, nothing a
      screen saves shows up in an export. */
  lemma ExportIgnoresScreenWrites(c: Codec, s: Store, k: string, text: string)
    requires IsScreenKey(k)
    ensures ExportData(c, s[k := text]) == ExportData(c, s)
  {
  }

  /** An import never touches a screen partition. */
  lemma ImportLeavesScreenKeys(c: Codec, s: Store, v: Value, k: string)
    requires IsScreenKey(k)
    ensures Agree(s, ImportData(c, s, v).store, k)
  {
  }

  /** Restoring is an overwrite, not a merge: what the backup keys hold after
      a successful import does not depend on what they held before. */
  lemma ImportOverwrites(c: Codec, s1: Store, s2: Store, v: Value)
    requires Validate(v).Success?
    ensures forall k :: k in BackupKeys ==> Agree(ImportData(c, s1, v).store, ImportData(c, s2, v).store, k)
  {
  }

  /** Importing the same document twice gives the same store as once. */
  lemma ImportIdempotent(c: Codec, s: Store, v: Value)
    ensures ImportData(c, ImportData(c, s, v).store, v).store == ImportData(c, s, v).store
  {
  }

  /** A document of three empty arrays passes the check. */
  lemma EmptyArraysPass(c: Codec, s: Store)
    ensures ImportData(c, s, DocumentValue(Document(JArr([]), JArr([]), JArr([])))).error.None?
  {
  }

  /** A document missing any one field fails and leaves the store as it was. */
  lemma MissingFieldFails(c: Codec, s: Store, v: Value, field: string)
    requires field in {"clients", "instruments", "notes"}
    requires v.JObj? && field !in v.fields
    ensures ImportData(c, s, v) == Imported(s, Some(InvalidFormat))
  {
  }

  /** Importing an export: the import passes exactly when all three exported
      values are truthy, and then every backup key reads back as before, an
      absent key now holding an explicit `[]`. */
  lemma ExportImportRoundTrip(c: Codec, s: Store)
    requires Lawful(c)
    requires ExportData(c, s).Success?
    ensures var d := ExportData(c, s).value;
      ImportData(c, s, DocumentValue(d)).error.None? <==> Truthy(d.clients) && Truthy(d.instruments) && Truthy(d.notes)
    ensures var d := ExportData(c, s).value;
      ImportData(c, s, DocumentValue(d)).error.None? ==>
        forall k :: k in BackupKeys ==> Read(c, ImportData(c, s, DocumentValue(d)).store, k) == Read(c, s, k)
    ensures var d := ExportData(c, s).value;
      var after := ImportData(c, s, DocumentValue(d));
      after.error.None? ==>
        forall k :: k in BackupKeys && k !in s ==> k in after.store && after.store[k] == c.encode(JArr([]))
  {
  }

  /** The same round trip through the file's text. */
  lemma ExportTextImportTextRoundTrip(c: Codec, s: Store)
    requires Lawful(c)
    requires ExportText(c, s).Success?
    ensures ImportText(c, s, ExportText(c, s).value) == ImportData(c, s, DocumentValue(ExportData(c, s).value))
  {
  }
}
