# India renewable-energy dashboard: storage and REST handlers in Dafny

The dashboard's server keeps four kinds of records:
- renewable-energy projects;
- organisations' carbon-emission reports;
- government financing schemes;
- per-state installed renewable capacity.

When no database is configured, an in-memory store, `MemStorage`, holds them. It has one JavaScript `Map` per record kind, keyed by a generated UUID. When it is built, it seeds ten Indian states' capacities, five projects and four schemes.

A REST API sits on top of the store. For each record kind it can list the records, look one up, create one and delete one. The projects list and the schemes list take equality filters from the query string.

This model has seven files:

- `records.dfy`: the record shapes and the insertion payloads. A payload's optional fields can be left out, be `null`, or be given. The file also builds the record that a create stores, and proves that building it and reading it back is a round trip.
- `decimal.dfy`: the decimal text that `Number#toString` writes for the seeded capacities, and its inverse.
- `seqs.dfy`: `Array#filter` and `Array#find` over sequences.
- `tables.dfy`: a `Map` as a datatype holding a finite map plus its keys in insertion order. The order matters because `Map#values()` follows it. The file covers `set`, `delete` and `values`, and the lemmas about them.
- `storage.dfy`: `class MemStorage`. Its four fields are tables, and its methods reassign them:
  - id generation;
  - the seeding loops;
  - list, look-up, create and delete for each table.
- `routes.dfy`: the route handlers.
  - Read-only handlers are functions of the store's state. They cover the filter pipelines and the 200/404 choice.
  - Create and delete handlers are methods that drive the store. They cover the 201/400/500 and 204/404 choices.
- `scenarios.dfy`: two client sessions, stated as the responses the client sees.

Three things are parameters or abstractions:
- The store's id generator is a counter whose n-th identifier is the decimal text of n. It never repeats, and the only property of `randomUUID` the store relies on is that it never repeats.
- The server clock is a `now` parameter.
- Schema validation is an abstract verdict: `Passed(payload)`, `Rejected(issues)` or `Threw`.

## Model

| member | source | states |
|---|---|---|
| Records.OrNull | server/storage.ts:223-225 | `field ?? null`: the stored column holds a value exactly when the payload gave one, and then holds that value |
| Records.ProjectRoundTrip | server/storage.ts:214-230 | a created project carries the new id and `now`; it reads back as the payload with each left-out optional field turned into `null`; every stored project is what creating its own payload builds |
| Records.EmissionRoundTrip | server/storage.ts:244-260 | a created report carries the payload's fields verbatim, including `totalEmissions`, which is neither recomputed nor checked against the parts; it carries the new id and `now`, and reads back as its payload |
| Records.SchemeRoundTrip | server/storage.ts:274-289 | a created scheme copies the required fields; a left-out deadline, target technology or contact becomes `null`; it reads back as its payload |
| Records.CapacityRoundTrip | server/storage.ts:303-317 | a created regional record copies the five capacity texts and the state; a left-out population becomes `null`; it reads back as its payload |
| Decimal.DecimalString | server/storage.ts:68-72 | `n.toString()` for a non-negative integer: at least one digit, only digits, no leading zero |
| Decimal.ParseDecimalString | server/storage.ts:68-72 | the text written for `n` reads back as `n` |
| Decimal.DecimalStringInjective | server/storage.ts:68-72 | two numbers get the same text exactly when they are equal |
| Decimal.SumReadsBack | server/storage.ts:71 | the text of a sum reads back as the sum of what the parts' texts read back as |
| Seqs.Filter | server/routes.ts:19-27 | `filter` keeps no more elements than it was given, keeps only accepted elements of the input, and keeps every accepted element |
| Seqs.FilterIsSubsequence | server/routes.ts:19-27 | `filter` keeps the survivors in their original relative order |
| Seqs.FilterTwice | server/routes.ts:19-27 | filtering by one predicate and then another is filtering once by their conjunction |
| Seqs.FilterAll | server/routes.ts:19-27 | a predicate that holds of every element filters nothing out |
| Seqs.Find | server/storage.ts:300 | `find` gives none exactly when no element is accepted; otherwise it gives an accepted element with no accepted element before it |
| Seqs.FindAppend | server/storage.ts:300 | appending elements never changes what `find` already finds in the front part |
| Tables.Table.Values | server/storage.ts:206-208 | `Array.from(map.values())` has one value per key, in insertion order |
| Tables.Table.Set | server/storage.ts:228 | `map.set` keeps the map well formed: keys stay distinct, and the order lists exactly the keys |
| Tables.Table.Delete | server/storage.ts:233 | `map.delete` keeps the map well formed and removes the key |
| Tables.SizeIsCount | server/storage.ts:206-208 | the list `Array.from(map.values())` yields has exactly one element per stored entry (the map's number of keys, a helper of the model, equals its number of entries) |
| Tables.RemoveOne | server/storage.ts:233 | removing a key from a duplicate-free order drops exactly its one occurrence and keeps the rest in place |
| Tables.SetFresh | server/storage.ts:228 | after `set` with a fresh key, `get` returns the new value, the size grows by one, the values gain the new value at the end, and every other key is unchanged |
| Tables.DeleteGet | server/storage.ts:233 | after `delete`, the key is absent and every other key keeps its value |
| Tables.DeleteAbsent | server/storage.ts:233 | deleting an absent key changes nothing |
| Tables.DeletePresent | server/storage.ts:233 | deleting a present key shrinks the map by one; the values lose exactly that key's value and keep the rest in order |
| Tables.DeleteUndoesSet | server/storage.ts:228-233 | deleting a key that was just set fresh gives back the map exactly as it was, entries and insertion order alike |
| Tables.DeleteTwice | server/storage.ts:232-234 | a second delete of the same key finds nothing, so it would return false, and changes nothing |
| Storage.NextUuidIsFresh | server/storage.ts:215 | the next identifier drawn differs from every one drawn before |
| Storage.SeedTotalIsSum | server/storage.ts:63-76 | a seeded regional record's total reads back as solar + wind + hydro |
| Storage.MemStorage.constructor | server/storage.ts:41-47 | the new store is consistent and holds 10 regional records, 5 projects, 4 schemes and 0 reports, each built from its sample in order |
| Storage.MemStorage.RandomUuid | server/storage.ts:215 | the identifier returned has never been returned before |
| Storage.MemStorage.SeedRegions | server/storage.ts:49-76 | one regional record per sample state, in order; total = solar + wind + hydro; the other tables are untouched |
| Storage.MemStorage.SeedProjects | server/storage.ts:78-145 | one project per sample, built as `createProject` builds it, in order; the other tables are untouched |
| Storage.MemStorage.SeedSchemes | server/storage.ts:147-203 | one scheme per sample, built as `createFinancingScheme` builds it, in order; the other tables are untouched |
| Storage.MemStorage.SeedData | server/storage.ts:49-204 | the three seeding loops in sequence; the emissions table stays empty |
| Storage.MemStorage.GetProjects | server/storage.ts:206-208 | every stored project once, in insertion order, each stored under its own id |
| Storage.MemStorage.GetProjectById | server/storage.ts:210-212 | the project stored under `id`, and nothing exactly when there is none |
| Storage.MemStorage.CreateProject | server/storage.ts:214-230 | the id was never a key before; the record is built from the payload; afterwards the look-up returns it, the list gains it at the end, no other project changes, and the other tables are unchanged |
| Storage.MemStorage.DeleteProject | server/storage.ts:232-234 | returns true exactly when `id` was a key; afterwards `id` is absent, other projects and the other tables are unchanged, and the list loses exactly that record and keeps its order |
| Storage.MemStorage.GetCarbonEmissions | server/storage.ts:236-238 | every stored report once, in insertion order |
| Storage.MemStorage.GetCarbonEmissionById | server/storage.ts:240-242 | the report stored under `id`, and nothing exactly when there is none |
| Storage.MemStorage.CreateCarbonEmission | server/storage.ts:244-260 | fresh id; record built from the payload (total as given); look-up returns it; list gains it at the end; everything else unchanged |
| Storage.MemStorage.DeleteCarbonEmission | server/storage.ts:262-264 | true exactly when `id` was a key; `id` absent afterwards; exactly that record removed, order kept; everything else unchanged |
| Storage.MemStorage.GetFinancingSchemes | server/storage.ts:266-268 | every stored scheme once, in insertion order |
| Storage.MemStorage.GetFinancingSchemeById | server/storage.ts:270-272 | the scheme stored under `id`, and nothing exactly when there is none |
| Storage.MemStorage.CreateFinancingScheme | server/storage.ts:274-289 | fresh id; record built from the payload; look-up returns it; list gains it at the end; everything else unchanged |
| Storage.MemStorage.DeleteFinancingScheme | server/storage.ts:291-293 | true exactly when `id` was a key; `id` absent afterwards; exactly that record removed, order kept; everything else unchanged |
| Storage.MemStorage.GetRegionalCapacity | server/storage.ts:295-297 | every stored regional record once, in insertion order |
| Storage.MemStorage.GetRegionalCapacityByState | server/storage.ts:299-301 | nothing exactly when no record is about `state`; otherwise a stored record about `state` that was inserted no later than any other record about `state` |
| Storage.MemStorage.CreateRegionalCapacity | server/storage.ts:303-317 | fresh id, with no check that the state is new; record built from the payload; list gains it at the end; everything else unchanged |
| Storage.MemStorage.DeleteRegionalCapacity | server/storage.ts:319-321 | by id: true exactly when `id` was a key; `id` absent afterwards; exactly that record removed, order kept; everything else unchanged |
| Routes.FilterValue | server/routes.ts:19 | a query parameter filters exactly when it is a single non-empty string; an array, an object, an empty string or a missing parameter is ignored |
| Routes.NarrowSpec | server/routes.ts:124-126 | one filter step keeps, in order, exactly the elements whose field equals the supplied value, and keeps everything when no value is supplied |
| Routes.NarrowCons | server/routes.ts:19-27 | one filter step decides the head of the list independently of the rest |
| Routes.FilterProjectsIsOnePass | server/routes.ts:15-29 | filtering by state, then technology, then status equals filtering once by the conjunction of the supplied equalities |
| Routes.FilterProjectsSpec | server/routes.ts:15-29 | the pipeline yields exactly the projects passing every supplied filter, as an order-preserving subsequence; when none passes, it yields the empty list |
| Routes.ListProjects | server/routes.ts:13-33 | `GET /api/projects` answers 200 with exactly the stored projects matching every supplied filter, in storage order; a filter nothing matches gives 200 with an empty list |
| Routes.GetProject | server/routes.ts:35-45 | 200 with the project exactly when one is stored under `id`; otherwise 404 "Project not found" |
| Routes.PostProject | server/routes.ts:47-58 | a rejected body gives 400 "Validation failed" with the complaints; another failure gives 500; both leave the store unchanged; a valid body gives 201 with the newly stored project, appended to the list |
| Routes.DeleteProject | server/routes.ts:60-70 | 204 with no body exactly when a project was stored under `id`; otherwise 404 "Project not found"; afterwards `id` is absent |
| Routes.ListCarbonEmissions | server/routes.ts:72-79 | 200 with exactly the store's list: every stored report once, each under its own id, in insertion order; the request is not consulted |
| Routes.GetCarbonEmission | server/routes.ts:81-91 | 200 with the report exactly when one is stored under `id`; otherwise 404 "Emission record not found" |
| Routes.PostCarbonEmission | server/routes.ts:93-104 | 400 with the complaints or 500 "Failed to create emission record", store unchanged; otherwise 201 with the newly stored report |
| Routes.DeleteCarbonEmission | server/routes.ts:106-116 | 204 exactly when a report was stored under `id`; otherwise 404 "Emission record not found" |
| Routes.ListFinancingSchemes | server/routes.ts:118-132 | 200 with exactly the stored schemes of the supplied category, in order; all of them when no category is supplied |
| Routes.GetFinancingScheme | server/routes.ts:134-144 | 200 with the scheme exactly when one is stored under `id`; otherwise 404 "Financing scheme not found" |
| Routes.PostFinancingScheme | server/routes.ts:146-157 | 400 with the complaints or 500 "Failed to create financing scheme", store unchanged; otherwise 201 with the newly stored scheme |
| Routes.DeleteFinancingScheme | server/routes.ts:159-169 | 204 exactly when a scheme was stored under `id`; otherwise 404 "Financing scheme not found" |
| Routes.ListRegionalCapacity | server/routes.ts:171-178 | 200 with exactly the store's list: every stored regional record once, each under its own id, in insertion order; the request is not consulted |
| Routes.GetRegionalCapacity | server/routes.ts:180-190 | looked up by state: 200 with the earliest-inserted record about `state` exactly when there is one; otherwise 404 "Regional capacity data not found" |
| Routes.PostRegionalCapacity | server/routes.ts:192-203 | 400 with the complaints or 500 "Failed to create regional capacity", store unchanged; otherwise 201 with the newly stored record, even when its state is already present |
| Routes.DeleteRegionalCapacity | server/routes.ts:205-215 | by id, not state: 204 exactly when a record was stored under `id`; otherwise 404 "Regional capacity not found" |
| Scenarios.OnlyNewMentions | server/storage.ts:303-317 | after inserting into a table with no record about a state, the new record is the only one about it |
| Scenarios.LookupSurvivesAppend | server/storage.ts:299-317 | appending a fresh record never changes which record the look-up by state finds first, once there is one |
| Scenarios.AddDuplicateState | server/routes.ts:180-203 | posting a second record for a state already present succeeds with 201 and leaves the store consistent; the look-up by that state then answers 200 with the very record it found before, not the new one |
| Scenarios.CreateFindDelete | server/routes.ts:180-215 | for a state the store does not mention: POST gives 201; GET by state gives 200 with that record; DELETE by its id gives 204; GET by state then gives 404 |

## Left out

- The React client (pages, map, metric cards, calculator wizard). It is user interface; its aggregates use floating-point `Number` and `toFixed`, and its search uses Unicode case folding.
- The PostgreSQL backend (`DbStorage`), the database seeding script, and the choice of backend through the `DATABASE_URL` environment variable. The ORM's semantics are not visible.
- Schema validation internals. The schemas are generated from table definitions by an external library, so a request body is modelled only by its verdict. No enumeration of statuses or categories is enforced by those schemas, and none is modelled.
- Uniqueness of a regional record's state. Only the database enforces it; the in-memory store accepts duplicates, which is what the model does.
- Storage.MemStorage.RandomUuid: returns the decimal text of a counter instead of a random UUID. The model relies only on the identifiers never repeating, and does not model UUID collisions.
- Storage.MemStorage.constructor: the five seeded projects share one `now`, where the source calls the clock once per project.
- Records.NewProject and Records.NewEmission: the creation time is a parameter, not a read of the server clock.
- The 500 answers of the list, look-up and delete handlers. The in-memory store never throws, so those branches cannot be reached over it.
- Express routing, JSON serialisation, HTTP framing, and the asynchronous `Promise` interleaving of concurrent requests. Each handler runs as one atomic step.
- Decimal.DecimalString: models `Number#toString` only for non-negative integers, which is all the seeding uses.
