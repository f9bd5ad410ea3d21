# Local persistence of the notepad app, in Dafny

This project models the data layer of a React Native notepad app. The layer sits inside its screens. The app keeps three kinds of lists in AsyncStorage, a device-local key-value store that maps string keys to JSON text:

- **Client list** (HomeScreen). It lives under `@notepad_items`. Adding appends a `{id, text, createdAt, sublist: []}` record. Removing filters records out by `id`.
- **Instrument list per client** (InstrumentScreen). It lives under `@notepad_instruments_` followed by the client id. Adding rejects blank names. Removing goes by position, after a confirmation dialog.
- **Free-text string list per client** (DetailsScreen). It lives under `@notepad_item_` followed by the client id. Adding rejects only the empty string. Removing goes by position.
- **Backup** (BackupScreen). Export builds a `{clients, instruments, notes}` document from the keys `Clientes`, `Instrumentos` and `Anotações`. A key that is absent reads as `[]`. Import checks that the document's three fields are truthy. It then overwrites exactly those three keys.

The backup keys are not the keys the screens write. The model keeps them as the code has them. So an export never sees what the screens stored, and an import never changes what the screens show. `Backup.ExportIgnoresScreenWrites`, `Backup.ImportLeavesScreenKeys` and `Scenarios.ClientRemovalLeavesInstruments` state this.

The store is a `map<string, string>` of raw stored text. `JSON.stringify` and `JSON.parse` are a `Codec` parameter, a pair of functions. Every property that needs the parse to undo the serialization assumes `Lawful(c)`. That predicate says decoding an encoded value gives it back, and an encoded value is never the empty string. Each screen handler is a pure function. It maps a `View`, which pairs the store with the screen's in-memory list, plus the handler's input, to the next `View`. Ids, timestamps and the dialog choice are parameters.

Modules:

- `Wrappers`: `Option` and `Result`.
- `Json`: parsed values, truthiness and property access.
- `Codec`: the abstract serializer and parser.
- `Keys`: the storage keys and why they never collide.
- `Storage`: the store, and the load and save pattern every screen repeats.
- `Lists`: filter by id and filter by position.
- `Text`: `String.prototype.trim`.
- `Home`, `Instruments`, `Details` and `Backup`: one per screen.
- `Scenarios`: a run across screens.

## Model

| member | source | states |
|---|---|---|
| Storage.Read | components/BackupScreen.js:22-24 | a missing or empty stored value reads as the empty array; any other value reads as whatever the parser returns, with None for a parse that throws |
| Storage.Load | components/HomeScreen.js:12-21 | a missing or empty value, or one that fails to parse, leaves the list empty; a value that parses to an array gives that array |
| Storage.Save | components/HomeScreen.js:25-32 | the whole list replaces the value under its key; every other key is unchanged; loading the key afterwards gives back exactly the saved list |
| Storage.SaveOverwrites | components/HomeScreen.js:27-28 | a second save under the same key discards the first, so writes overwrite and never merge |
| Keys.InstrumentsKey | components/InstrumentScreen.js:15 | the key starts with `@notepad_instruments_` and the rest of it is the client id |
| Keys.DetailsKey | components/DetailsScreen.js:15 | the key starts with `@notepad_item_` and the rest of it is the client id |
| Keys.InstrumentsKeyInjective | components/InstrumentScreen.js:28 | two client ids give the same instrument key exactly when they are equal |
| Keys.DetailsKeyInjective | components/DetailsScreen.js:31 | two client ids give the same detail key exactly when they are equal |
| Keys.FamiliesDisjoint | components/DetailsScreen.js:5 | for any ids, the instrument key, the detail key and `@notepad_items` are pairwise distinct |
| Keys.BackupKeysAreNotScreenKeys | components/BackupScreen.js:7-9 | no backup key is `@notepad_items` or starts with either screen prefix |
| Keys.BackupKeysDistinct | components/BackupScreen.js:7-9 | the three backup keys are pairwise distinct |
| Lists.WithoutId | components/HomeScreen.js:50 | the result holds exactly the elements that do not carry the id, no element of it carries the id, and it is no longer than the input |
| Lists.WithoutIdAppend | components/HomeScreen.js:50 | filtering a concatenation filters each part, so the kept records keep their relative order |
| Lists.WithoutAbsentId | components/HomeScreen.js:50 | filtering out an id that no element carries returns the list unchanged |
| Lists.WithoutIdIdempotent | components/HomeScreen.js:50 | filtering out the same id twice is the same as filtering it once |
| Lists.AppendFreshKeepsUnique | components/HomeScreen.js:37 | appending a record whose id no element carries keeps ids unique |
| Lists.WithoutIdKeepsUnique | components/HomeScreen.js:50 | filtering by id keeps ids unique |
| Lists.ScanWithoutIsRemoveAt | components/InstrumentScreen.js:68 | the element-by-element scan of `filter((_, i) => i !== index)` equals the slice before the index joined to the slice after it, or the list itself when the index is out of range |
| Lists.WithoutIndex | components/DetailsScreen.js:36 | for an index in range, the length drops by one, earlier elements stay in place and later ones shift down by one; otherwise the list is unchanged |
| Text.Trim | components/InstrumentScreen.js:35 | the trimmed string is the slice of the input left after removing a whitespace-only prefix and a whitespace-only suffix, and it is empty or begins and ends with a non-whitespace character |
| Text.TrimEmptyIffAllSpace | components/InstrumentScreen.js:35 | `trim()` gives the empty string exactly when every character is ECMAScript whitespace or a line terminator |
| Home.ClientValue | components/HomeScreen.js:36-41 | the record built for a new client carries that client's id |
| Home.ClientOf | components/HomeScreen.js:36-41 | a stored element read back as a client is exactly the record built for that client |
| Home.ClientRoundTrip | components/HomeScreen.js:36-41 | reading back the record built for a client gives that client |
| Home.LoadItems | components/HomeScreen.js:12-21 | mounting never writes; an absent, empty or unparsable `@notepad_items` gives the empty list |
| Home.SaveItems | components/HomeScreen.js:25-32 | only `@notepad_items` changes, and mounting afterwards shows exactly the saved list |
| Home.AddItem | components/HomeScreen.js:34-47 | empty text changes neither the list nor the store; other text appends exactly one record holding the given id, text and timestamp and an empty sublist, with the old list as an unchanged prefix; the store then holds the new list; only `@notepad_items` is written |
| Home.RemoveItem | components/HomeScreen.js:49-53 | the handler fails exactly when the list holds a null; otherwise the new list is the id filter of the old one, so it holds exactly the records whose id differs, in their order and multiplicity, none carries the id, the store holds the new list, and only `@notepad_items` is written |
| Home.RemoveAbsentId | components/HomeScreen.js:50-52 | removing an id no record carries leaves the list unchanged, and leaves the store unchanged when it was in step with the list |
| Home.RemoveItemIdempotent | components/HomeScreen.js:49-53 | removing the same client twice gives the same list and store as removing it once |
| Home.RemoveItemKeepsOrder | components/HomeScreen.js:50 | removal from a list split into two parts removes from each part and keeps their order |
| Home.AddItemKeepsIdsUnique | components/HomeScreen.js:37-42 | when ids are unique and the new id is fresh, ids stay unique after adding |
| Home.RemoveItemKeepsIdsUnique | components/HomeScreen.js:50 | removal keeps ids unique |
| Home.ClientWritesDoNotCascade | components/HomeScreen.js:25-28 | adding or removing a client leaves every client's instrument and detail partition as it was |
| Instruments.InstrumentValue | components/InstrumentScreen.js:36-40 | the new instrument record holds the name exactly as typed |
| Instruments.InstrumentOf | components/InstrumentScreen.js:36-40 | a stored element read back as an instrument is exactly the record built for that instrument |
| Instruments.InstrumentRoundTrip | components/InstrumentScreen.js:36-40 | reading back the record built for an instrument gives that instrument |
| Instruments.LoadInstruments | components/InstrumentScreen.js:12-24 | mounting never writes, and a client whose partition was never written has no instruments |
| Instruments.SaveInstruments | components/InstrumentScreen.js:26-32 | only this client's partition changes, and loading it afterwards shows exactly the saved list |
| Instruments.AddInstrument | components/InstrumentScreen.js:34-46 | an empty or whitespace-only name changes nothing; any other name is appended untrimmed with empty notes; the store then holds the new list; only this client's partition is written |
| Instruments.RemoveInstrument | components/InstrumentScreen.js:67-71 | the new list drops exactly the element at the index, or nothing when the index is out of range; the store then holds the new list; only this client's partition is written |
| Instruments.ConfirmRemoveInstrument | components/InstrumentScreen.js:48-65 | cancelling or dismissing the dialog changes neither the list nor the store; only "Remover" removes the element at the index |
| Instruments.AddInstrumentStaysInPartition | components/InstrumentScreen.js:34-46 | adding an instrument leaves other clients' instruments, every detail partition and the client list as they were |
| Instruments.RemoveInstrumentStaysInPartition | components/InstrumentScreen.js:67-71 | removing an instrument leaves other clients' instruments, every detail partition and the client list as they were |
| Details.LoadAdditionalStrings | components/DetailsScreen.js:12-24 | mounting never writes, and a client whose partition was never written has no strings |
| Details.AddString | components/DetailsScreen.js:26-33 | only the empty string is refused; any other string is appended at the end; the store then holds the new list; only this client's partition is written |
| Details.RemoveString | components/DetailsScreen.js:35-39 | the new list drops exactly the element at the index, or nothing when out of range; the store then holds the new list; only this client's partition is written |
| Details.BlankStringAccepted | components/DetailsScreen.js:27 | a whitespace-only string is appended, unlike an instrument name |
| Details.RemoveOneOfTwinEntries | components/DetailsScreen.js:36 | of two equal entries, removal by position drops only the one at that position |
| Details.DetailWritesStayInPartition | components/DetailsScreen.js:26-39 | adding or removing a string leaves other clients' strings, every instrument partition and the client list as they were |
| Backup.ExportData | components/BackupScreen.js:14-25 | export succeeds exactly when each of the three backup keys reads; each field is then what its key reads to, and `[]` for an absent key |
| Backup.ExportText | components/BackupScreen.js:21-28 | the exported text parses back to the exported document |
| Backup.Validate | components/BackupScreen.js:54 | a document passes exactly when it is an object whose `clients`, `instruments` and `notes` fields are present and truthy, and then those three fields are taken as they are |
| Backup.ValidateDocumentValue | components/BackupScreen.js:21-25 | a document built from three fields passes exactly when all three are truthy, and then gives back those same fields |
| Backup.ImportData | components/BackupScreen.js:53-62 | a document that fails the check leaves the store unchanged; one that passes sets exactly the three backup keys to its serialized fields and leaves every other key unchanged |
| Backup.ImportText | components/BackupScreen.js:50-51 | text that fails to parse is an error that writes nothing; otherwise the import proceeds with the parsed document |
| Backup.ExportReadsOnlyBackupKeys | components/BackupScreen.js:17-19 | two stores that agree on the three backup keys export the same document |
| Backup.ExportIgnoresScreenWrites | components/BackupScreen.js:7-9 | writing any screen key does not change the exported document |
| Backup.ImportLeavesScreenKeys | components/BackupScreen.js:55-57 | an import leaves `@notepad_items` and every per-client partition as they were |
| Backup.ImportOverwrites | components/BackupScreen.js:55-57 | after a successful import, what the backup keys hold does not depend on what they held before |
| Backup.ImportIdempotent | components/BackupScreen.js:55-57 | importing the same document twice gives the same store as importing it once |
| Backup.EmptyArraysPass | components/BackupScreen.js:54 | a document of three empty arrays passes the check |
| Backup.MissingFieldFails | components/BackupScreen.js:54-61 | a document missing any one of the three fields fails and leaves the store as it was |
| Backup.ExportImportRoundTrip | components/BackupScreen.js:21-57 | importing an export passes exactly when the three exported values are truthy; each backup key then reads back as before, and a key that was absent now holds the serialized empty array |
| Backup.ExportTextImportTextRoundTrip | components/BackupScreen.js:27-51 | importing the exported text is the same as importing the exported document |
| Scenarios.ScreenOnlyStoreExportsNothing | components/BackupScreen.js:17-24 | a store holding only screen keys exports three empty arrays |
| Scenarios.ClientRemovalLeavesInstruments | components/HomeScreen.js:49-53 | after adding client "Ana", adding her instrument "Violino" and removing her, her instrument partition still loads "Violino"; an export of that store holds three empty arrays |

## Left out

- File I/O in BackupScreen is left out: `RNFS.writeFile`, `DocumentPicker.pick`, `RNFS.readFile`, the file path, and the "no file selected" and "cancelled" messages. The imports of both libraries are commented out (components/BackupScreen.js:4-5). So in the code as written, these calls throw and land in the catch blocks. Export is modelled up to the serialized text. Import is modelled from the file's text.
- The JSON text format is left out. `JSON.stringify` and `JSON.parse` are the abstract `Codec`. The model only assumes `Lawful`.
- `Date.now()`, `toLocaleString()` and `toISOString()` are parameters.
- Async ordering is left out. So are storage failures, which the code logs with `console.error` and swallows. Every write is taken to succeed, in order, and the model does not cover lost updates between overlapping handlers.
- Rendering is left out: JSX, styles, the `loading` flag, `Alert` messages and the `keyExtractor`s. So are navigation (App.js) and the Firebase login and registration screens, which are calls into foreign services.
- Storage.Load: a stored value that parses to something other than an array is read as the empty list. The code would put that value itself into list state, and a later add or remove would then throw or spread it. The screens only ever write arrays under their own keys.
- Home.RemoveItem: the id is a string. The code passes the `item.id` of a displayed record, and `addItem` always creates that id as a string.
- The client id of the per-client screens is a string parameter. The code takes it from `item.id` in the navigation parameters. On one path that is not a client id: InstrumentScreen opens the detail screen with `navigate('Detail', { item, instrument: item })` (components/InstrumentScreen.js:98). There `item` is the instrument being rendered, which has no `id`. So for every instrument of every client the detail screen uses the key `@notepad_item_undefined`, which the model is `DetailsKey("undefined")`. InstrumentScreen is not among the routes App.js registers (App.js:14-15).
- Numbers in parsed JSON are integers. No modelled code produces or inspects a number, except to test the truthiness of a backup field.
