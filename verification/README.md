# Papillon: account reload dispatcher and home-screen list logic

A Dafny model of two pieces of sequential logic in the Papillon school app.

**Account reload (`reload`).** An account carries a service tag, a stored
`authentication` blob and a live `instance`. `reload` picks the provider
routine for the tag and calls it. ARD makes two calls in sequence. It then
normalises the routine's output into one `Reconnected` pair
`{instance, authentication}`. Module `ReloadAccount` models it as the pure
function `Reload`:

- the provider routines are an `Adapters` value of total functions that
  answer `Ok` or `Err` (a rejected promise);
- `Reload` returns the settled result together with the adapter calls it
  made, in order.

This lets the contract state which adapter ran, with which argument and
after which other call, and that a rejection comes back unchanged.

**Home modal (`ModalContent`).** The home screen keeps a list of widgets,
each with an optional importance.

- Module `HomeElements` models the component's `elements` state as class
  `HomeModal`. Its methods cover the mount effect that fills the list, the
  stable descending sort by importance (`undefined` counts as -1), the
  importance update and update-then-sort. The sort runs in place on an
  array copy, as the source does. It is proved equal to the stable
  insertion sort `SortedByImportance`. Lemmas show that function is ordered,
  a permutation, stable, and the only ordered and stable rearrangement.
- Module `HomeTabs` models `checkForNewTabs`: default tabs missing by name
  are appended, disabled but installed, or nothing is written.

In the Turboself branch the code returns `instance: undefined`, even though
its comment (src/services/reload-account.ts:25) says the instance is kept.
`ReloadAccount.TurboselfDropsInstance` states the code's behaviour.

## Model

| member | source | states |
|---|---|---|
| `ReloadAccount.Reload` | src/services/reload-account.ts:13-64 | only the account's own provider is consulted; at most one call, two for ARD; Local and unrecognised tags call nothing and never fail; a call is made only after every earlier one succeeded; the reload fails exactly when its last call is rejected, with that same error |
| `ReloadAccount.PronotePassthrough` | src/services/reload-account.ts:15-18 | `reloadInstance` is called once with the stored authentication, and its answer (pair or rejection) is the result |
| `ReloadAccount.LocalSentinel` | src/services/reload-account.ts:19-21 | no call, never fails, authentication is `true`, instance is `identityProvider.rawData` when truthy and `true` otherwise |
| `ReloadAccount.TurboselfDropsInstance` | src/services/reload-account.ts:22-27 | one call with the account; on success authentication is the adapter's answer and instance is `undefined`, whatever the stored instance |
| `ReloadAccount.ArdStepOrder` | src/services/reload-account.ts:28-31 | a failed reload fails with its error and fetches no balances; otherwise `getOnlinePayments` is called second, on the returned instance, and its failure fails the reload |
| `ReloadAccount.ArdMergesBalances` | src/services/reload-account.ts:32-38 | on success instance is the new instance; authentication is the stored object with `balances` set to the fetched value and every other field unchanged |
| `ReloadAccount.WithField` | src/services/reload-account.ts:34-37 | the spread `{...base, balances}` is an object with exactly the base's keys plus the new key, which holds the new value; other keys keep their values |
| `ReloadAccount.IzlyKeepsAuthentication` | src/services/reload-account.ts:40-44 | one call with the account; on success instance is the adapter's answer and authentication is the stored one, unchanged |
| `ReloadAccount.SkolengoPassthrough` | src/services/reload-account.ts:45-49 | one call with the account; both fields of its answer, or its rejection, are passed through |
| `ReloadAccount.EcoleDirectePassthrough` | src/services/reload-account.ts:50-54 | one call with the account; both fields of its answer, or its rejection, are passed through |
| `ReloadAccount.MultiPassthrough` | src/services/reload-account.ts:55-58 | `reloadInstance` is called once with the stored authentication, and its answer is the result |
| `ReloadAccount.UnrecognizedIsUndefinedPair` | src/services/reload-account.ts:59-62 | an unknown tag yields `{instance: undefined, authentication: undefined}` with no call and no failure |
| `ReloadAccount.AdapterRejectionPropagates` | src/services/reload-account.ts:15-58 | for every tag except Local and unrecognised, under any adapters: when the call the arm makes is rejected (for ARD, the reload or, after it succeeds, the balances fetch), the reload rejects with that same error |
| `ReloadAccount.Truthy` | src/services/reload-account.ts:20 | the `||` test: a value is falsy exactly when it is `undefined`, `null`, `false`, `0` or `""` |
| `ReloadAccount.SpreadFields` | src/services/reload-account.ts:35 | spreading an object contributes its fields; `undefined`, `null`, booleans and numbers contribute none |
| `HomeElements.HomeModal.constructor` | src/views/account/Home/ModalContent.tsx:44 | the element list starts empty |
| `HomeElements.HomeModal.Populate` | src/views/account/Home/ModalContent.tsx:46-58 | the list has one entry per catalogue entry, in catalogue order, with its id and component and importance `undefined` |
| `HomeElements.EffectiveImportance` | src/views/account/Home/ModalContent.tsx:64-65 | the comparator's key is the importance when set and -1 when `undefined` |
| `HomeElements.SortedByImportance` | src/views/account/Home/ModalContent.tsx:63-67 | the list `.sort` with the importance comparator produces, of the input's length; its order, permutation and stability are proved by the lemmas below |
| `HomeElements.ShiftOutranking` | src/views/account/Home/ModalContent.tsx:63-67 | the elements after position `i` that outrank the inserted element move one place left, the rest stay, and the stop position is the first that does not outrank it |
| `HomeElements.SortByImportanceInPlace` | src/views/account/Home/ModalContent.tsx:63-67 | sorting the array in place leaves exactly `SortedByImportance` of its old contents |
| `HomeElements.InsertIntoSuffix` | src/views/account/Home/ModalContent.tsx:63-67 | one insertion step moves an element past the elements of the sorted suffix that outrank it and leaves the prefix alone |
| `HomeElements.HomeModal.SortElementsByImportance` | src/views/account/Home/ModalContent.tsx:60-70 | the new list is `SortedByImportance` of the old list |
| `HomeElements.SortedByImportanceCorrect` | src/views/account/Home/ModalContent.tsx:61-68 | the sorted list is non-increasing by effective importance (`undefined` = -1), is a permutation of the input, and keeps each equal-importance group in input order |
| `HomeElements.SortedByImportanceKeepsIds` | src/views/account/Home/ModalContent.tsx:61-68 | sorting keeps the length and exactly the same elements |
| `HomeElements.StableSortIsUnique` | src/views/account/Home/ModalContent.tsx:63-67 | any ordered list with the same per-importance subsequences as the input is the sort's result |
| `HomeElements.OrderAndStabilityDetermineList` | src/views/account/Home/ModalContent.tsx:63-67 | two ordered lists with equal per-importance subsequences are equal |
| `HomeElements.SortedByImportanceIdempotent` | src/views/account/Home/ModalContent.tsx:60-70 | an already ordered list is unchanged by the sort, so sorting twice equals sorting once |
| `HomeElements.FindIndex` | src/views/account/Home/ModalContent.tsx:75 | the first index whose id matches, or -1 exactly when no element has that id |
| `HomeElements.ImportanceUpdated` | src/views/account/Home/ModalContent.tsx:72-79 | fails exactly when no element has the id; otherwise the first matching element gets the new importance and every other element and the length are unchanged |
| `HomeElements.HomeModal.UpdateImportance` | src/views/account/Home/ModalContent.tsx:72-79 | the list becomes `ImportanceUpdated` of the old list, or is left unchanged when the id is unknown |
| `HomeElements.HomeModal.HandleImportanceChange` | src/views/account/Home/ModalContent.tsx:81-84 | update, then sort; an unknown id leaves the list unchanged |
| `HomeElements.ImportanceChangeSorted` | src/views/account/Home/ModalContent.tsx:81-84 | after update-then-sort the list is ordered, is a permutation of the updated list and holds the element with the new importance |
| `HomeTabs.HasName` | src/views/account/Home/ModalContent.tsx:98 | `.some` over the stored tabs: true exactly when some stored tab has that name |
| `HomeTabs.MissingDefaultsKeepsOrder` | src/views/account/Home/ModalContent.tsx:97-99 | the filter keeps `defaultTabs` order: the missing defaults of a concatenation are those of each part, in sequence |
| `HomeTabs.MissingDefaultsCounts` | src/views/account/Home/ModalContent.tsx:97-99 | duplicates are kept: a missing default occurs as often as in `defaultTabs`, a present one not at all |
| `HomeTabs.MissingDefaults` | src/views/account/Home/ModalContent.tsx:97-99 | a default tab is kept exactly when its name is not among the stored tab names |
| `HomeTabs.MergedTabs` | src/views/account/Home/ModalContent.tsx:102-109 | the stored tabs unchanged and in order, followed by `{name, enabled: false, installed: true}` for each missing default in `defaultTabs` order |
| `HomeTabs.CheckForNewTabs` | src/views/account/Home/ModalContent.tsx:95-116 | nothing is written exactly when every default name is already stored (absent tabs count as `[]`); otherwise the other settings are kept and tabs become the merged list |
| `HomeTabs.MergedTabsCoverDefaults` | src/views/account/Home/ModalContent.tsx:96-109 | after the merge every default tab's name is present |
| `HomeTabs.MergedTabsAddOnlyMissing` | src/views/account/Home/ModalContent.tsx:102-109 | every appended entry is a new entry for a default whose name was not stored |
| `HomeTabs.MergeIdempotent` | src/views/account/Home/ModalContent.tsx:101-115 | merging the written settings again writes nothing and adds no tab |

## Left out

- Provider routines (`./pronote/reload-instance`, `./ard/reload` and the rest) are not part of this model. Their network and authentication protocols are given as parameters that answer `Ok` or `Err`.
- Dynamic `import()`, `Promise`/`await` and the `as Reconnected<T>` casts are not modelled. Awaits are sequential calls, and the module chosen is the match arm. A failure to load a module counts as that adapter's rejection.
- The `console.warn` diagnostic of the default branch is a side effect only and is not modelled.
- The Pronote, Multi, Skolengo and EcoleDirecte adapter answers are modelled as exact `{instance, authentication}` pairs. Extra fields on those objects, which Pronote and Multi would pass on and Skolengo and EcoleDirecte would drop, are not modelled.
- `ReloadAccount.SpreadFields`: spreading a string contributes per-character index keys in JavaScript, and spreading a live client object copies its own enumerable fields. The model gives strings and instance handles no fields, so `WithField` on such a base holds only `balances`.
- `ReloadAccount.Truthy`: `NaN` and `-0` are falsy in JavaScript. Numbers here are integers, so only `0` is falsy.
- Importances are JavaScript numbers; the model uses integers, so the comparator `b - a` has no rounding or `NaN` cases.
- `Array.prototype.sort` is modelled as a stable insertion sort. ECMAScript 2019 and later require a stable sort, so any conforming engine gives the same result (see `HomeElements.StableSortIsUnique`). The engine's own algorithm is not modelled.
- `HomeElements.HomeModal.UpdateImportance`: with an unknown id, the write through `updatedElements[-1]` throws inside the state updater. The model reports failure and leaves the state unchanged. React's error propagation is not modelled, and `HandleImportanceChange` then skips the sort.
- Element objects are shared between the old and the copied list, so the source's in-place importance write also mutates the old list's element. Elements are values here, so this aliasing is not modelled.
- React batching and re-rendering, the AsyncStorage changelog check, the NetInfo and navigation listeners, `mutateProperty` persistence, and all rendering and animation are not modelled. `CheckForNewTabs` returns what would be written.
- src/views/account/Grades/Graph/GradesAverage.tsx is not part of this model. It is UI rendering over floating-point averages from a routine that is not shown.
