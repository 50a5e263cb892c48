# Flawless Portal: tenant-scoped storage and mock payment gateway

A Dafny model of the shared data-access layer of the Flawless back-office
portal (`portal-api.js`). It covers two components:

- **The tenant-scoped store.** Every collection key is the active organisation, an
  underscore and one of eleven fixed suffixes. The active organisation is the
  `active_org` setting, or `FLAWLESS` when that setting is missing or empty.
  `read` falls back to the empty collection when an entry is missing,
  unparseable or falsy. `save` replaces an entry. `push` appends one record.
  `seedUsers` writes the three demo accounts once. `uid` builds identifiers
  from a prefix and the clock in base 36.
- **The mock payment gateway.** It picks a delay, picks a success threshold by
  payment method, decides success from a random draw, and builds the outcome
  record.

Modules, one per component:

- `Wrappers` (`wrappers.dfy`): `Option` (`undefined`/`null`) and `Result`.
- `Tenancy` (`tenancy.dfy`): `activeOrg`, `key`, the `KEYS` suffixes, and the proofs that keys never collide.
- `Identifiers` (`identifiers.dfy`): `toString(36)`, its inverse, and `uid`.
- `Storage` (`storage.dfy`): the stored-value abstraction, `read`, the
  seeding specification, and the class `LocalStore`. Its methods `Save`, `Push` and `SeedUsers` update the
  entry map in place.
- `Gateway` (`gateway.dfy`): the delay, threshold, decision and outcome of `mockPaymentGateway`.
- `Payslip` (`payslip.dfy`): the default file name built by `generatePayslipPdf`.
- `Scenarios` (`scenarios.dfy`): two client walks through the store, proved from the store methods' contracts.
  In the first, tenant `ACME` logs a payment. In the second, tenant `DEMO` is seeded twice.

Modelling choices:

- Stored text is abstracted to what the code can observe of it. An entry is
  `Blank` (the empty string), `Malformed` (non-empty text that `JSON.parse`
  rejects) or `Serialized(v)`. The parsed value `v` is `Falsy`, an `Array` of
  records, or `OtherTruthy` (an object, a non-zero number, a non-empty string,
  or `true`). A key missing from the map is `getItem` returning `null`.
- `read` returns a truthy parsed value as it is. A stored object therefore
  reads as that object, not as `[]`. `push` on such a value throws a
  `TypeError` at `arr.push` before anything is written. The model returns
  `Err(NotAnArray)` and leaves the store unchanged.
- `seedUsers` tests the raw text for truthiness. Any non-empty text, `"[]"` and
  unparseable text included, stops it.
- The `active_org` entry is raw text, not JSON. The store keeps it in its own
  field `orgSetting`. Its invariant `Valid()` keeps that key out of the JSON entries.
  The contract of `CollectionKey` shows that no collection key equals `active_org`.
- Clock readings (`Date.now()`) are parameters in milliseconds. `seedUsers` reads the clock three
  times, so it takes three readings. The ISO timestamp is opaque text.
- Each `Math.random()` draw `r` is passed as the permille integer
  `floor(r * 1000)` in `[0, 1000)`. The thresholds are 900, 920 and 990
  permille. `PermilleDrawIsExact` shows that `r < t / 1000` holds exactly when
  `floor(r * 1000) < t`, so the integer draw decides exactly as the real one would.
- The comment at `portal-api.js:50` says the wallet rate is 98%. The code says 0.99,
  and the model follows the code.
- Each property of the gateway's argument is `Undefined`, `Null` or a given
  scalar. The destructuring default `method = 'bank'` applies only to
  `undefined`. A `null`, empty or non-string method therefore takes the 0.99
  branch and is copied to `provider` as it is.
- Calling the gateway with no argument or with `null` throws a `TypeError`
  while destructuring, before any Promise exists. The model returns
  `Err(CannotDestructure)` for that call. Every other call resolves.

## Model

| member | source | states |
|---|---|---|
| `Tenancy.ActiveOrg` | portal-api.js:6-7 | the active organisation is never empty; it is `FLAWLESS` when the setting is missing or `""`, and the setting itself otherwise |
| `Tenancy.Key` | portal-api.js:10 | `key(k)` is the organisation, `_`, then `k`, and splits back into those parts |
| `Tenancy.OrgsGetDistinctKeys` | portal-api.js:10 | for one suffix, two different organisations give two different keys |
| `Tenancy.KeySplitsUniquely` | portal-api.js:10 | `org_suffix` determines both parts once the suffix length is fixed |
| `Tenancy.Suffix` | portal-api.js:11-23 | each `KEYS` suffix is a non-empty lower-case snake-case word; its distinctness is `SuffixesDistinct` |
| `Tenancy.SuffixesDistinct` | portal-api.js:11-23 | the eleven `KEYS` suffixes are pairwise distinct |
| `Tenancy.SuffixesNotNested` | portal-api.js:11-23 | no `KEYS` suffix ends with an underscore followed by another suffix |
| `Tenancy.CollectionKey` | portal-api.js:7-23 | `KEYS.<C>()` is the tenant prefix `org_` followed by the collection's suffix, and is never the `active_org` entry |
| `Tenancy.CollectionKeysInjective` | portal-api.js:10-23 | two collection keys are equal only for the same organisation and the same collection, whatever the organisations |
| `Identifiers.ToBase36` | portal-api.js:30 | `toString(36)` yields a non-empty string of `0-9a-z` with no leading zero unless the number is 0 |
| `Identifiers.FromToBase36` | portal-api.js:30 | reading the base-36 digits back gives the clock value |
| `Identifiers.ToFromBase36` | portal-api.js:30 | every canonical base-36 string is printed for its own value (the converse round trip) |
| `Identifiers.ToBase36Injective` | portal-api.js:30 | distinct clock readings give distinct suffixes |
| `Identifiers.Uid` | portal-api.js:30 | `uid(prefix)`, prefix `id` by default, is the prefix, `_`, then a non-empty run of `0-9a-z`; `UidInjective` relates ids to clock readings |
| `Identifiers.UidInjective` | portal-api.js:30 | for one prefix, two ids are equal exactly when the clock readings are equal |
| `Storage.Read` | portal-api.js:26-27 | `read` is never falsy; it is either `[]` or the stored parsed value, and it is the stored value whenever that is truthy |
| `Storage.ReadDegrades` | portal-api.js:26-27 | a missing, empty, unparseable or falsy entry reads as `[]` |
| `Storage.ReadAfterSave` | portal-api.js:27-28 | after `save(k, v)`, `read(k)` is `v` unless `v` is falsy, and `[]` then |
| `Storage.SaveLeavesOtherKeys` | portal-api.js:28 | `save` changes what no other key reads |
| `Storage.TenantIsolation` | portal-api.js:10-28 | a write to one tenant's collection is invisible through any other tenant or collection |
| `Storage.LocalStore.Save` | portal-api.js:28 | the entry under `k` becomes the serialisation of `v`; nothing else changes |
| `Storage.LocalStore.Push` | portal-api.js:29 | on an array, returns `obj` and stores the old array with `obj` appended; on a truthy non-array, fails and changes nothing |
| `Storage.ReadAfterPush` | portal-api.js:29 | after a successful `push`, `read(k)` is the old collection followed by `obj` |
| `Storage.DefaultUsers` | portal-api.js:36-40 | exactly three records with the fields id, email, name, role and password; roles hr, finance, teacher in that order; ids `uid('u')` of the three clock readings |
| `Storage.Seeded` | portal-api.js:33-42 | seeding adds only the users key, leaves a users entry holding non-empty text as it was, and always leaves a non-empty users entry behind |
| `Storage.LocalStore.SeedUsers` | portal-api.js:33-42 | the new entries are `Seeded` of the old ones under the active tenant's users key |
| `Storage.SeedKeepsPresentUsers` | portal-api.js:35 | a users entry holding any non-empty text, `"[]"` included, is left unchanged |
| `Storage.SeedWritesThreeUsers` | portal-api.js:36-41 | on a missing or empty users entry, exactly three accounts are written: roles hr, finance, teacher in order, with ids `uid('u')` |
| `Storage.SeedLeavesOtherKeys` | portal-api.js:33-42 | seeding changes no key but the users key |
| `Storage.SeedIdempotent` | portal-api.js:33-42 | seeding twice, at any clock readings, is seeding once |
| `Storage.SeededIdsCollideOnEqualClock` | portal-api.js:37-39 | two seeded accounts share an id exactly when their clock readings are equal |
| `Gateway.MethodOf` | portal-api.js:45 | the method is `bank` when undefined and the given value, `null` included, otherwise |
| `Gateway.DelayMs` | portal-api.js:48 | the delay is `800 + draw`, within 800 to 1799 ms |
| `Gateway.DelayUniform` | portal-api.js:48 | each delay from 800 to 1799 ms comes from exactly one of the 1000 draws |
| `Gateway.ThresholdPermille` | portal-api.js:51 | the success threshold lies between 900 and 990 permille |
| `Gateway.ThresholdsByMethod` | portal-api.js:50-51 | bank 900, momo 920, any other method (`null` included) 990; an undefined method gets 900 |
| `Gateway.Approves` | portal-api.js:51-52 | `ok` is the draw being below the threshold: every draw below 900 approves, none from 990 on does |
| `Gateway.PermilleDrawIsExact` | portal-api.js:48-52 | the permille draw decides `r < t / 1000` exactly as the real draw does |
| `Gateway.SuccessRate` | portal-api.js:51-52 | of the 1000 equally likely draws, exactly the threshold's number approve the payment |
| `Gateway.MockPaymentGateway` | portal-api.js:45-63 | a missing or `null` argument throws; every other call resolves after exactly `800 + delayDraw` ms; success holds exactly when the draw is below the threshold; provider, account, amount and reference are copied; the message is the success text exactly when it succeeds; the id is `uid('tx')` |
| `Payslip.CollapseWhitespace` | portal-api.js:84 | `replace(/\s+/g, '_')` leaves no white space and never lengthens the name |
| `Payslip.CollapseRun` | portal-api.js:84 | text without white space is kept and each maximal run of white space becomes exactly one `_` |
| `Payslip.CollapseKeepsPlainText` | portal-api.js:84 | a name without white space is unchanged |
| `Payslip.CollapseIdempotent` | portal-api.js:84 | replacing twice is replacing once |
| `Payslip.CollapseKeepsVisible` | portal-api.js:84 | every character other than white space and `_` is kept, in order |
| `Payslip.PayslipFilename` | portal-api.js:84 | a truthy `filename` is used as given; otherwise the name is the collapsed employee name, `_payslip_`, the period and `.pdf`, with no white space in the name part |

## Left out

- Timers and Promises (`new Promise`, `setTimeout`). The delay is only a computed number, and the order in which concurrent payments complete is not modelled.
- `Math.random` and floating point. Each draw is an integer permille parameter, and the thresholds are exact decimals rather than IEEE doubles.
- `Date.now()` and `toISOString()`. They are clock reads, so the time is a parameter and the timestamp is opaque text.
- The internals of `JSON.parse` and `JSON.stringify`. Stored text is the abstract `Stored` value. Records hold only text, integer and boolean fields. Saving `undefined` or values `JSON.stringify` cannot encode is not modelled.
- The read-modify-write race between interleaved `push` calls on one key. The model is sequential.
- Storage.LocalStore.Save: requires a key other than `active_org`. Writing JSON text into the tenant setting through `save` is not modelled, because the setting is kept as raw text.
- Storage.LocalStore.Push: requires a key other than `active_org`, for the same reason as `Save`.
- Storage.Read: `read('active_org')` is not modelled. The setting lives outside the JSON entries.
- Payslip.PayslipFilename: `employeeName` and `period` are strings. A missing `employeeName`, which throws at `replace`, and non-string periods are not modelled.
- Gateway.MockPaymentGateway: argument properties are `undefined`, `null` or a text, integer or boolean scalar. An object or array passed as `method`, `account`, `amount` or `reference` is not modelled.
- The jsPDF drawing and saving in `generatePayslipPdf`, its `console.warn`, and its `null` result when jsPDF is absent. These are an external library and I/O. Only the file name is modelled.
- The `PortalAPI` export and the `seedUsers()` call on load. These are module wiring.
- The plaintext demo passwords. They are stored as the code writes them, and no security property is claimed.
