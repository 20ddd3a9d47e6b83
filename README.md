# Medical-office data store, modelled in Dafny

This project models the client-side data store of a small medical-office
management application: the `DataProvider` of `src/contexts/DataContext.tsx`.
The store holds five collections (patients, appointments, supplies, staff
absences, users). Each is an ordered sequence of records, and each record is
an open-ended map of named fields that normally includes a string `id`. Every
collection has `add`, `update` and `delete`. Deleting a patient also removes
the appointments that reference it. The store as a whole can be exported,
imported and reset to its seed datasets.

Layout:

- `wrappers.dfy` — module `Wrappers`, the `Option` datatype.
- `records.dfy` — module `Records`. It defines the record type (a
  `map<string, Value>` over JSON-like values) and the three pure updaters the
  store applies to a collection:
  - `AddRecord` — spread-append with a generated id;
  - `UpdateById` — `map` with a shallow merge;
  - `RemoveWhere` — `filter` on a field's string value.
  It also holds the lemmas about them.
- `data_context.dfy` — module `DataContext`. It holds the class
  `DataProvider` with its five `seq<Record>` fields and one method per
  operation of the provider, plus the whole-store functions (import, export,
  patient delete with cascade) and their lemmas. Three client methods,
  `CascadeScenario`, `PartialImportScenario` and `ReloadAfterReset`, show
  what callers can conclude from the contracts alone.

Modelling choices:

- `x.id === id` is strict equality with a string. It becomes
  `FieldIs(x, "id", id)`: the field is present and holds exactly `Str(id)`.
  A record with no `id`, or with a non-string `id`, never matches.
- `{ ...a, ...b }` becomes map override `a + b`, so the fields of `b` win.
- `crypto.randomUUID()` becomes the `newId` parameter of each `add` method.
  The source never checks generated ids for collisions. So freshness is not a
  precondition. `AddKeepsIdsUnique` instead states what freshness buys:
  identifiers stay unique if and only if the new id is fresh.
- The seed datasets come from a file that is not part of this model. The
  class holds them as the constant `seeds`, fixed at construction.
- `importerDonnees` tests each key with `if (data.k)`. An empty array is
  truthy, so it counts as present and replaces the collection. An absent,
  `null` or `undefined` key does not. The payload type `ImportData` has
  `Some(records)` for the first case and `None` for the second.
- Collections are values (`seq`). In the source, the export hands out the
  store's live arrays and the import keeps the payload's own arrays, so the
  caller and the store share them; see "## Left out".
- Each method's new state is visible to the next call. In the source a
  setter takes effect on the next render, so the model assumes a render
  between operations.

## Model

| member | source | states |
|---|---|---|
| `Records.WithId` | src/contexts/DataContext.tsx:112 | the added record keeps every supplied field except `id`; its `id` is the generated one, even when the caller supplied an `id` |
| `Records.Merge` | src/contexts/DataContext.tsx:117 | a shallow merge has the keys of both records; supplied fields win; the other fields keep their old values |
| `Records.AddRecord` | src/contexts/DataContext.tsx:112 | add grows the collection by exactly one; every earlier record is unchanged at its position; the last record carries the generated id and the supplied fields |
| `Records.UpdateById` | src/contexts/DataContext.tsx:116-118 | update keeps length and order; every record whose `id` matches (all of them, not only the first) becomes the old record merged with the payload; every other record is unchanged |
| `Records.RemoveWhere` | src/contexts/DataContext.tsx:122 | filtering never grows the collection; a record is in the result iff it was in the input and does not match |
| `Records.AddKeepsIdsUnique` | src/contexts/DataContext.tsx:111-113 | from unique ids, an add keeps ids unique iff the generated id is fresh; a fresh id is then carried by the new last record only |
| `Records.UpdateMissingIsNoOp` | src/contexts/DataContext.tsx:115-119 | updating an id that no record carries leaves the collection unchanged |
| `Records.UpdateIsMerge` | src/contexts/DataContext.tsx:117 | a matched record keeps every field absent from the payload and takes every supplied field, `id` included |
| `Records.UpdateKeepsIds` | src/contexts/DataContext.tsx:115-119 | a payload without `id` leaves every record's identifier as it was, so unique ids stay unique |
| `Records.RemoveWhereConcat` | src/contexts/DataContext.tsx:122 | filtering distributes over concatenation, so the kept records stay in their original order |
| `Records.RemoveWhereCounts` | src/contexts/DataContext.tsx:122 | every occurrence of a matching record is removed; every other record keeps its number of occurrences |
| `Records.RemoveWhereNoMatch` | src/contexts/DataContext.tsx:122 | deleting an id that no record carries leaves the collection unchanged |
| `Records.RemoveKeepsIdsUnique` | src/contexts/DataContext.tsx:122 | a delete never introduces a duplicate identifier |
| `DataContext.Overlay` | src/contexts/DataContext.tsx:201 | a collection slot holds the payload's array when the key is present, and the current collection otherwise; the same choice the load at lines 52-60 makes between stored data and seed |
| `DataContext.ApplyImport` | src/contexts/DataContext.tsx:200-206 | a payload carrying no key (a primitive payload included) changes nothing; a payload carrying all five keys replaces every collection |
| `DataContext.ExportOf` | src/contexts/DataContext.tsx:188-198 | the export holds the five given collections, the given date and version "1.0" |
| `DataContext.AsImport` | src/contexts/DataContext.tsx:189-194 | an export read back as a payload carries all five keys, each with the exported collection |
| `DataContext.DeletePatientFrom` | src/contexts/DataContext.tsx:121-125 | after a patient delete no patient has that id and no appointment has that `patientId`; neither collection grows; supplies, absences and users are unchanged |
| `DataContext.ImportReplacesPerKey` | src/contexts/DataContext.tsx:200-206 | import replaces a collection iff the payload carries its key; every other collection is unchanged |
| `DataContext.ExportImportRoundTrip` | src/contexts/DataContext.tsx:188-206 | importing an export into any store, a fresh one included, reproduces all five collections exactly; the export's version is "1.0" |
| `DataContext.LoadAfterResetYieldsSeeds` | src/contexts/DataContext.tsx:52-60 | when each storage slot is absent or holds its seed dataset, a load yields exactly the seed datasets |
| `DataContext.ReloadAfterReset` | src/contexts/DataContext.tsx:208-214 | after a reset, storage holds per slot nothing or the seed written back by the save hooks; a fresh store loaded from it has the same five collections as the reset store |
| `DataContext.DeletePatientCascades` | src/contexts/DataContext.tsx:121-125 | deleting a patient removes exactly the records with that id and exactly the appointments whose `patientId` equals it; each remaining appointment keeps its number of occurrences; supplies, absences and users are untouched |
| `DataContext.DataProvider.constructor` | src/contexts/DataContext.tsx:72-87 | each collection starts from its storage slot when one was read, and from its seed dataset otherwise |
| `DataContext.DataProvider.AddPatient` | src/contexts/DataContext.tsx:111-113 | patients become `AddRecord` of the old patients; the other four collections are unchanged |
| `DataContext.DataProvider.UpdatePatient` | src/contexts/DataContext.tsx:115-119 | patients become `UpdateById` of the old patients; the other four collections are unchanged |
| `DataContext.DataProvider.DeletePatient` | src/contexts/DataContext.tsx:121-125 | patients lose the records with that id and appointments lose those with that `patientId`; the other three collections are unchanged |
| `DataContext.DataProvider.AddAppointment` | src/contexts/DataContext.tsx:128-130 | appointments become `AddRecord` of the old ones; the other collections are unchanged |
| `DataContext.DataProvider.UpdateAppointment` | src/contexts/DataContext.tsx:132-136 | appointments become `UpdateById` of the old ones; the other collections are unchanged |
| `DataContext.DataProvider.DeleteAppointment` | src/contexts/DataContext.tsx:138-140 | appointments lose exactly the records with that id; there is no cascade, and the other collections are unchanged |
| `DataContext.DataProvider.AddSupply` | src/contexts/DataContext.tsx:143-145 | supplies become `AddRecord` of the old ones; the other collections are unchanged |
| `DataContext.DataProvider.UpdateSupply` | src/contexts/DataContext.tsx:147-151 | supplies become `UpdateById` of the old ones; the other collections are unchanged |
| `DataContext.DataProvider.DeleteSupply` | src/contexts/DataContext.tsx:153-155 | supplies lose exactly the records with that id; the other collections are unchanged |
| `DataContext.DataProvider.AddAbsence` | src/contexts/DataContext.tsx:158-160 | absences become `AddRecord` of the old ones; the other collections are unchanged |
| `DataContext.DataProvider.UpdateAbsence` | src/contexts/DataContext.tsx:162-166 | absences become `UpdateById` of the old ones; the other collections are unchanged |
| `DataContext.DataProvider.DeleteAbsence` | src/contexts/DataContext.tsx:168-170 | absences lose exactly the records with that id; the other collections are unchanged |
| `DataContext.DataProvider.AddUser` | src/contexts/DataContext.tsx:173-175 | users become `AddRecord` of the old ones; the other collections are unchanged |
| `DataContext.DataProvider.UpdateUser` | src/contexts/DataContext.tsx:177-181 | users become `UpdateById` of the old ones; the other collections are unchanged |
| `DataContext.DataProvider.DeleteUser` | src/contexts/DataContext.tsx:183-185 | users lose exactly the records with that id; the other collections are unchanged |
| `DataContext.DataProvider.ExporterDonnees` | src/contexts/DataContext.tsx:188-198 | the export holds the five current collections, the supplied date and version "1.0"; the store is not changed |
| `DataContext.DataProvider.ImporterDonnees` | src/contexts/DataContext.tsx:200-206 | the new state is the old state with each collection the payload carries replaced |
| `DataContext.DataProvider.ReinitialiserDonnees` | src/contexts/DataContext.tsx:208-213 | all five collections are set to their seed datasets |

## Left out

- Persistence: the reads and writes of the browser's key-value storage, JSON
  parsing and serialisation, the last-update timestamp, the `try`/`catch`
  fallbacks with their console logging (lines 52-70 and 89-108), and
  `localStorage.clear()` in reset (line 214). These are I/O. The
  constructor takes the storage read as a parameter, with `None` for a slot
  that is absent, empty or unparsable.
- React machinery: the context object, `useData` and its "outside a provider"
  error (lines 41-49), the `useState`/`useEffect` hooks, and the provider's
  rendering (lines 217-250). These are framework glue.
- `crypto.randomUUID()` and `new Date().toISOString()`: the generated id and
  the export timestamp are method parameters. Nothing about randomness or
  the clock is modelled.
- The contents of the seed datasets: that data file is not part of this
  model. The seeds are a constant of the store, given at construction.
- DataContext.DataProvider.ImporterDonnees: covers only payloads whose
  present keys hold arrays of records. A payload key holding some other
  truthy value (a number, a string, an array of non-objects) would be stored
  as the collection as-is, because the source does no validation; this is
  not modelled. Only a `null` or `undefined` payload makes the source throw
  (line 201); this is not modelled. A number, string or boolean payload
  reads every key as `undefined` and so changes nothing: that is the
  payload `EMPTY_IMPORT`, which `ApplyImport` maps to the unchanged store.
- DataContext.DataProvider.ExporterDonnees: the source returns the store's
  live arrays (lines 190-194), so a caller that mutates them changes the
  store without a setter. This sharing is not modelled. The model also
  assumes a render between operations: in the source, `addPatient(p)`
  followed by `exporterDonnees()` in one handler exports the old patients.
- DataContext.DataProvider.ImporterDonnees: the source stores the payload's
  own arrays (lines 201-205), so later mutation of them by the caller
  reaches the store. This sharing is not modelled.
- Records.AddRecord: the spread at line 112 copies one level only, so
  nested objects of the new record stay shared with the caller. This
  sharing is not modelled.
- Records.UpdateById: the merge at line 117 copies one level only, so
  nested objects stay shared with the partial payload and the old record.
  This sharing is not modelled.
- DataContext.DataProvider.constructor: a storage slot whose parsed JSON is
  not an array of records is not modelled, for the same reason.
- Records.Merge: JavaScript's `undefined` is not a `Value`. So a payload
  field set to `undefined`, which in the source overwrites the field with
  `undefined`, cannot be expressed.
- Numbers are modelled as `real`. Floating-point rounding, `NaN` and
  infinities are not modelled. No operation of the store does arithmetic.
- The unused `date-fns` import (line 2).
