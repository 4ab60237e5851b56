# Muci Studio (pre-wedding photo studio) model in Dafny

This project models the core of Muci Studio, a browser app that makes
pre-wedding photo sessions with a remote image-generation service. Most of
that core sits in the main screen component, `MainApp.tsx`. The model
covers six parts of it.

- **The API key pool.** Keys are read from local storage (`getStoredApiKeys`)
  and the user keys are written back (`storeApiKeys`). At boot the key from
  the environment comes first, as the system key. Keys can be typed in,
  imported, exported, removed and cleared. A status write is
  `updateKeyStatus`. The start gate is `hasApiKeyIssue`.
- **`performApiCall`.** It makes one call to the service. With a pinned
  primary key it uses only that key. Otherwise it rotates over the active and
  unvalidated keys. After a quota error the same key is tried once more,
  after a 20-second wait. An invalid key is marked `invalid`, a key whose
  retry also hits the quota is marked `exhausted`, and a successful
  unvalidated key is promoted to `active`. A safety block ends the call, and
  so does having no key left (`ALL_KEYS_FAILED`).
- **`runGeneration` and `handleStop`.** A session is validated, then the
  studio set and the scenarios are prepared; when the scenario service fails,
  six shuffled fallback scenarios are used. Then one photo is made per count,
  with pauses in between. The stop button clears the running flag, and the
  run reads that flag at fixed points.
- **Sessions.** `getFullSessionState` writes a session and
  `loadStateFromSession` opens one.
- **Screen-list edits.** These are the identity-anchor slots, the gallery
  edits (delete, favourite, regenerate, burst winner), the favourites view
  and its count, the negative-prompt toggles and tag builder, and how a
  data URL gives its MIME type.
- **`utils.ts`.** It supplies the Fisher–Yates `shuffleArray`,
  `generateRandomFilename` and `getRandomUnique`.

How the model is built:

- **Values and objects.** The React state updates `setX(prev => ...)` are
  pure functions from the old list to the new one. The studio's own mutable
  state is the class `Batch.Studio`. Its fields are the key pool, the stored
  keys, the primary id, the gallery and the session flags. The run and the
  stop button are its methods. Its invariant is that the stored keys, as
  `getStoredApiKeys` reads them back, are exactly the pool's user keys.
- **The service.** Every remote service is an oracle. It maps a key value
  and an attempt number to a result or to the message of the thrown error.
  `performApiCall` returns its result together with the list of attempts, the
  status writes it asks for and the number of 20-second waits.
- **Inputs from outside.** Randomness (`Math.random`), the stop-button
  moment, the clock (`Date.now`) and the fetch-and-crop of a finished photo
  are all parameters.

The source files are `MainApp.tsx`, `utils.ts` and `types.ts`. The Dafny
modules are:

- `Types` holds the records of `types.ts`.
- `Seqs` and `Text` hold generic list and JavaScript string operations.
- `Utils` is `utils.ts`.
- `KeyPool` is the key pool and its gate.
- `Failover` is `performApiCall`.
- `Lists` holds the list edits and data-URL parsing.
- `Session` is session save and load.
- `Batch` is `runGeneration` and the `Studio` class.

Where the intent of the program and the code disagree, the model follows
the code.

- **A failed photo does not end the session.** A photo whose call fails,
  including with `ALL_KEYS_FAILED` or a safety block, is logged and the
  loop goes on to the next photo (MainApp.tsx:1455-1457). So the handler
  for `ALL_KEYS_FAILED` after the loop (MainApp.tsx:1471-1472) is never
  reached from the photo loop. Preparation also catches its own calls'
  errors, so it is never reached from there either.
- **A stop does not discard a photo already on its way.** A stop pressed
  while a finished photo is being fetched and cropped still adds that photo:
  the flag is not read again after the call.
- **Duplicates are only checked against the pool.** Typed keys and
  imported keys are compared only with the values already in the pool,
  not with each other.

## Model

| member | source | states |
|---|---|---|
| Text.Split | MainApp.tsx:1652 | `split` on one character: at least one piece, no piece holds the separator, joining the pieces gives the input back |
| Text.Trim | MainApp.tsx:1652 | `trim`: both ends of the result are non-white-space and what was cut on either side is white space |
| Text.TrimBlankIff | MainApp.tsx:1306-1307 | a text trims to nothing exactly when it is all white space (the custom-theme blank test) |
| Text.TrimIdempotent | MainApp.tsx:1652 | trimming twice is trimming once |
| Text.Mask | MainApp.tsx:1658 | the masked preview keeps the first four and the last four characters around `...` |
| Utils.RandomIndex | utils.ts:6 | `Math.floor(Math.random() * n)` is an index below `n` |
| Utils.Partners | utils.ts:5-6 | the partner drawn for counter `i` is at most `i` |
| Utils.ShuffleFromPermutes | utils.ts:3-10 | the countdown of swaps keeps the length and every element with its multiplicity |
| Utils.ShuffleArray | utils.ts:3-10 | the result is a fresh array that has the input's length, is a permutation of it and is the countdown-swap shuffle for the drawn values; the input is left alone |
| Utils.RandomChars | utils.ts:13-17 | one alphabet character per draw |
| Utils.GenerateRandomFilename | utils.ts:12-19 | the prefix, `_`, twelve characters of the 62-letter alphabet, `.`, the extension |
| Utils.UsedSet.Add | utils.ts:113 | `add` puts in exactly that item |
| Utils.UsedSet.Clear | utils.ts:105 | `clear` empties the set |
| Utils.Unused | utils.ts:101 | the unused items are the array's items not in the set, all of them |
| Utils.GetRandomUnique | utils.ts:98-116 | empty array: no item and the set unchanged; otherwise an item of the array that is in the set afterwards; an unused item whenever one exists, the set gaining exactly it; when all were used the set restarts as just the item |
| KeyPool.FindById | MainApp.tsx:1027 | `find` by id: none exactly when no key has the id, else the first key with it |
| KeyPool.Candidates | MainApp.tsx:1071 | rotation's candidates are exactly the pool's active and unvalidated keys |
| KeyPool.UpdateKeyStatus | MainApp.tsx:1018-1024 | a status write keeps length and order and every field but the status; keys with that id get the new status, the others are untouched |
| KeyPool.ApplyWritesEffect | MainApp.tsx:1018-1024 | after a series of writes each key keeps its position and fields, and its status is the last one written for its id |
| KeyPool.ApplyWritesConcat | MainApp.tsx:1019-1023 | applying two batches of writes is applying their concatenation |
| KeyPool.Persisted | MainApp.tsx:629-632 | storage receives exactly the user keys of the list |
| KeyPool.PersistedIdempotent | MainApp.tsx:629-632 | storing what was stored changes nothing |
| KeyPool.PersistedAfterUpdate | MainApp.tsx:1019-1022 | storing after a status write is the status write on what is stored |
| KeyPool.PersistedAfterWrites | MainApp.tsx:1019-1022 | the same for any series of writes |
| KeyPool.GetStoredApiKeys | MainApp.tsx:599-627 | nothing stored gives no keys; storage is cleared exactly for a parse error, a non-array or a `null` element, and then no key is read; every key read is a user key with a value |
| KeyPool.StoreThenLoad | MainApp.tsx:599-632 | reading back what `storeApiKeys` wrote gives the user keys in order with their statuses and clears nothing |
| KeyPool.PersistedSystemFirst | MainApp.tsx:835-837 | system keys followed by user keys persist as exactly the user keys |
| KeyPool.BootPoolShape | MainApp.tsx:882-904 | the booted pool has at most one system key, in front; storing it writes back exactly the keys read; a pinned primary is non-empty |
| KeyPool.StoreThenBoot | MainApp.tsx:882-899 | a stored pool boots back as the system key followed by its user keys |
| KeyPool.TypedKeysClean | MainApp.tsx:1652 | every typed key is non-empty, trimmed and on one line |
| KeyPool.AppendNew | MainApp.tsx:1655-1660 | the pool is kept in front and is followed by exactly one key per value not yet in the pool, in input order: the `i`-th has id `newId(i)`, that value, its mask, status unvalidated and is a user key; every value ends up in the result |
| KeyPool.SaveTypedKeys | MainApp.tsx:1651-1664 | no key typed: the pool is unchanged; otherwise the pool is kept in front and is followed by exactly one unvalidated, masked user key per typed value not yet in the pool, in the order typed, with id `newId(i)`; every typed value ends up in the pool |
| KeyPool.ImportedKeys | MainApp.tsx:1720-1729 | exactly one key per importable entry, in file order: the entry's value, its id or else `imported_<now>_<i>` numbered after the filter, its mask or else the computed mask, status unvalidated, a user key; no imported value is in the pool |
| KeyPool.ImportedKeysCover | MainApp.tsx:1720-1729 | every importable entry's value is among the imported keys |
| KeyPool.ImportKeys | MainApp.tsx:1707-1734 | a file that is not an array is refused; otherwise the pool is kept in front and is followed by exactly the imported keys (one per importable entry, in file order), and every importable value ends up in the pool |
| KeyPool.ExportThenImport | MainApp.tsx:1692-1729 | exporting one pool's keys and importing them into a pool without their values appends them in order with ids, values and masks, reset to unvalidated |
| KeyPool.RemoveKey | MainApp.tsx:1676-1683 | exactly the keys without that id remain; when one key has the id, the others stay in order with nothing added or repeated; the primary is cleared exactly when it was that id |
| KeyPool.RemoveAbsentKey | MainApp.tsx:1676-1677 | removing an id no key has keeps the keys |
| KeyPool.ClearKeys | MainApp.tsx:1685-1690 | exactly the system keys stay, no primary, nothing left to store; a pool whose system keys form a front block keeps exactly that block, in order |
| KeyPool.IssueIffNoCandidate | MainApp.tsx:1007-1014 | without a pinned primary the gate is closed exactly when rotation has no candidate |
| Failover.ClassifyPrecedence | MainApp.tsx:1096-1107 | for every message: one that names `API key not valid` is an invalid key; else one that names `SAFETY_BLOCK` is a safety block; else one that names `429` or `RESOURCE_EXHAUSTED` is a quota error; it is another failure exactly when it names none of them |
| Failover.ClassifyExamples | MainApp.tsx:1096-1107 | an invalid-key message that also reports 429 is an invalid key, a safety block reported with 429 is a safety block |
| Failover.TryKey | MainApp.tsx:1082-1122 | one or two attempts per key, two exactly after a first quota error; the outcome is the last attempt's |
| Failover.CallWithRetries | MainApp.tsx:1079-1127 | the retry loop gives exactly that outcome and attempt count |
| Failover.CallPrimary | MainApp.tsx:1026-1065 | the pinned-primary loop computes the pinned-primary trace |
| Failover.Rotate | MainApp.tsx:1078-1131 | the rotation loop computes the rotation trace, whose order, retries and status writes RotateBlocks, RotateExhausts, RotateInvalidates, RotatePromotes, RotateWritesBacked and RotateOutcome state |
| Failover.PerformApiCall | MainApp.tsx:1017-1132 | the whole call computes the specified trace from the pool snapshot, whose properties PerformCalls, PrimaryOutcome and the rotation lemmas state |
| Failover.RotateOutcome | MainApp.tsx:1078-1131 | rotation makes no attempt exactly when there is no candidate; every attempt but the last moved on; it succeeds exactly when the last attempt did, with its value, is blocked exactly when the last was a safety block, and fails with `ALL_KEYS_FAILED` exactly when every attempt moved on |
| Failover.RotateCalls | MainApp.tsx:1078-1131 | rotation calls only candidates, starting with the first; it ends in success, a safety block or `ALL_KEYS_FAILED`, and the last only after calling every candidate |
| Failover.RotateWritesBacked | MainApp.tsx:1087-1120 | every status write of rotation is backed by one of its attempts: a promotion by a success, an invalidation by an invalid-key error, an exhaustion by a second quota error on the same key |
| Failover.RotateInvalidates | MainApp.tsx:1096-1099 | every invalid-key error in rotation invalidates the key that drew it |
| Failover.RotatePromotes | MainApp.tsx:1085-1089 | every success with an unvalidated key promotes it |
| Failover.RotateExhausts | MainApp.tsx:1107-1120 | two quota errors in a row on the same key mark that key exhausted: the converse of the backing of exhaustions |
| Failover.Uses | MainApp.tsx:1078-1126 | rotation reaches at most every candidate, at least the first when there is one, and spends one or two attempts on each |
| Failover.Blocks | MainApp.tsx:1078-1082 | the calls of the candidates reached, each repeated its number of attempts, total length the sum of the attempts |
| Failover.BlocksAt | MainApp.tsx:1078-1082 | the block of candidate `j` lies inside the calls and holds only that candidate |
| Failover.RotateBlocks | MainApp.tsx:1078-1126 | rotation's calls are the candidates reached, in candidate order, each called once or twice in a row, twice exactly when its first response is a quota error |
| Failover.PrimaryOutcome | MainApp.tsx:1026-1065 | pinned mode calls only the primary, twice exactly after a quota error with one wait; its result is decided by the last attempt (success, invalid, blocked, exhausted or failed, never `ALL_KEYS_FAILED`); its one write is backed by that attempt and asked for whenever the attempt calls for it |
| Failover.PerformCalls | MainApp.tsx:1026-1131 | a call only uses usable keys of the pool: the pinned id at most twice in pinned mode, never `ALL_KEYS_FAILED` there; otherwise the calls are the rotation's blocks, one or two consecutive calls per candidate reached, in candidate order, two exactly after a first quota error |
| Failover.GateMatchesCall | MainApp.tsx:1007-1076 | `hasApiKeyIssue` holds exactly when the call would make no attempt: in pinned mode it fails as unusable, otherwise with `ALL_KEYS_FAILED` |
| Lists.MimeMatch | MainApp.tsx:1152 | the capture of `/:(.*?);/` holds no `;` and no line break |
| Lists.MimeOf | MainApp.tsx:1151-1152 | the MIME type of a data URL is never empty |
| Lists.DataUrlRoundTrip | MainApp.tsx:1151-1152 | a data URL built from a plain MIME type and a payload parses back to both |
| Lists.MimeDefault | MainApp.tsx:1152 | a header without a colon gives `image/jpeg` |
| Lists.NewAnchor | MainApp.tsx:1153 | the new anchor has the slot, the URL and the URL's MIME type and payload |
| Lists.ReplaceAnchor | MainApp.tsx:1155-1159 | the new anchor goes last; a couple photo is the only anchor, otherwise exactly the anchors of other slots stay |
| Lists.AnchorFileChange | MainApp.tsx:1146-1164 | no file or a non-image changes nothing; an image becomes the last anchor in its slot with its MIME type and payload, alone for a couple photo |
| Lists.RemoveAnchor | MainApp.tsx:1183-1189 | the couple slot removes all anchors; another slot removes exactly its own |
| Lists.ReplaceKeepsOnePerSlot | MainApp.tsx:1155-1159 | installing an anchor keeps at most one anchor per slot |
| Lists.RemoveUndoesReplace | MainApp.tsx:1155-1189 | removing the slot just filled is removing it before the install |
| Lists.ApplyOutfitChange | MainApp.tsx:1249-1258 | only the front anchor of the subject takes the new photo; ids, slots and other anchors stay |
| Lists.DeleteImage | MainApp.tsx:1490-1498 | exactly the images with other ids remain; with unique ids the deleted image is cut out at its position and the others keep their order; an absent id leaves the gallery as it is |
| Lists.ToggleFavorite | MainApp.tsx:1522-1524 | only the images with that id flip their mark |
| Lists.ReplaceImage | MainApp.tsx:1504 | regeneration changes only url and prompt of that image |
| Lists.ReplaceUrl | MainApp.tsx:1558-1561 | a burst winner changes only the url of that image |
| Lists.FilteredImages | MainApp.tsx:1815-1817 | all images, or exactly the favourites |
| Lists.FavoriteCount | MainApp.tsx:301 | the count is at most the number of images |
| Lists.FilteredCount | MainApp.tsx:1815-1817 | the favourites view shows exactly `favoriteCount` images |
| Lists.ToggleTwice | MainApp.tsx:1522-1524 | toggling twice restores the gallery |
| Lists.ToggleChangesCount | MainApp.tsx:1522-1524 | with unique ids a toggle moves the favourite count by exactly one, in the right direction |
| Lists.ReplaceKeepsFavorites | MainApp.tsx:1504 | regeneration and burst winners keep the favourite count |
| Lists.DeleteKeepsFavoriteBound | MainApp.tsx:1490-1498 | deleting never adds a favourite |
| Lists.ToggleNegativePrompt | MainApp.tsx:1211-1217 | the tag flips membership, everything else stays; a present tag is cut out at its position, the others keeping their order; a new tag goes last |
| Lists.ToggleTwiceSameTags | MainApp.tsx:1211-1217 | toggling a tag twice keeps the same tags selected |
| Lists.ToggleAll | MainApp.tsx:1219-1225 | as many selected as options clears; otherwise exactly the options are selected, starting with the first option, and options without repeats are selected in their own order |
| Lists.ToggleAllClearsIffAll | MainApp.tsx:1219-1225 | with distinct options and only options selected, toggle-all clears exactly when every option is selected |
| Lists.BaseDistinct | MainApp.tsx:1404 | the five base tags are distinct |
| Lists.CustomTags | MainApp.tsx:1405 | custom tags are non-empty and hold no comma |
| Lists.NegativeTags | MainApp.tsx:1404-1406 | the tags have no repeats, come from base, selected or custom tags, and include every selected and custom tag |
| Lists.NegativeTagsStartWithBase | MainApp.tsx:1404-1410 | the five base tags come first, so the prohibited-content text is never empty |
| Session.NatOr | MainApp.tsx:800-801 | `n \|\| d`: a zero or absent number gives the default |
| Session.Normalize | MainApp.tsx:799-813 | counts are positive, the defaulted texts non-empty, and the selected tags are exactly those of the file |
| Session.SessionKeys | MainApp.tsx:827-833 | session keys are unvalidated user keys with a value, at most one per entry |
| Session.LoadStateFromSession | MainApp.tsx:792-838 | it is refused exactly for no file, another version or no settings; a `null` key entry leaves keys, primary and storage as they were; the anchors and images are the file's (or empty), the settings its normalized settings, in both the success and the `null`-entry case; on success the system key is in front, the rest are unvalidated user keys, storage holds them, and the primary is the file's when non-empty, else none |
| Session.Unvalidate | MainApp.tsx:831 | every key reverts to unvalidated, nothing else changes |
| Session.NormalizeRestores | MainApp.tsx:777-813 | settings the defaults leave alone are read back as saved |
| Session.SessionKeysRestore | MainApp.tsx:783-833 | saved user keys come back in order, unvalidated |
| Session.SaveThenLoad | MainApp.tsx:771-838 | saving a session and opening it restores anchors, images, settings and primary, with the system key in front of the saved user keys |
| Session.ZeroComesBackAsFive | MainApp.tsx:800-801 | a saved delay and count of zero come back as five |
| Batch.Validate | MainApp.tsx:1297-1314 | a run is refused exactly when the settings are not ready, and each refusal names the first check, in source order, that failed: a theme refusal only once the photos needed for the mode are present |
| Batch.Cycled | MainApp.tsx:1374-1376 | `pool[i % pool.length]` for each photo |
| Batch.Cycle | MainApp.tsx:1372-1377 | the fallback loop builds exactly that list |
| Batch.CycleCoversPool | MainApp.tsx:1374-1376 | going round the pool once uses every element |
| Batch.FallbackCycle | MainApp.tsx:1367-1377 | one scenario per photo, each of them a fallback scenario |
| Batch.FallbackUsesAll | MainApp.tsx:1367-1377 | with six photos or more the first six scenarios are the six fallbacks, each once |
| Batch.Pad | MainApp.tsx:1381-1384 | the list is kept and padded with the quiet-moment scenario up to the count, never cut |
| Batch.ScenarioPhase | MainApp.tsx:1354-1384 | there are always at least as many scenarios as photos |
| Batch.CustomScenes | MainApp.tsx:1354-1358 | a custom theme gives every photo the theme as its scene and calls no service |
| Batch.MakeImage | MainApp.tsx:1439-1452 | the new image is no favourite, has the cropped picture and a `prewedding_` file name |
| Batch.LoopStopped | MainApp.tsx:1399-1426 | the loop stops only after the flag read false |
| Batch.LoopImages | MainApp.tsx:1415-1457 | the loop appends exactly the kept photos, in order |
| Batch.LoopPauses | MainApp.tsx:1459-1462 | the loop pauses exactly after the photos that call for a pause |
| Batch.LoopKeys | MainApp.tsx:1424 | the pool after the loop carries exactly the status writes of the photo calls made |
| Batch.ProducedShape | MainApp.tsx:1452-1453 | at most one image per photo, none a favourite |
| Batch.ProducedAll | MainApp.tsx:1399-1463 | with no stop and every call and crop succeeding, every photo reaches the gallery |
| Batch.StoppedBeforeLoop | MainApp.tsx:1399-1400 | a stop during preparation makes no photo call, image or pause |
| Batch.PausesBetween | MainApp.tsx:1459-1462 | pauses fall between photos, in order, at most one after each, none with a zero delay |
| Batch.PausesEverywhere | MainApp.tsx:1459-1462 | with no stop and a delay, a pause follows every photo but the last |
| Batch.WritesTouchStatusOnly | MainApp.tsx:1018-1024 | status writes change nothing but statuses |
| Batch.RunGate | MainApp.tsx:1293-1315 | a run already going, or one that fails validation, changes nothing; a run is refused exactly when the settings are not ready, and otherwise completes |
| Batch.RunEndsIdle | MainApp.tsx:1476-1487 | a completed run leaves the studio idle and finished, keeps the primary, keeps storage in step with the pool and only changes key statuses |
| Batch.RunImages | MainApp.tsx:1320-1453 | a fresh run starts from an empty gallery and a continuation keeps it; the new images are exactly the kept photos, none a favourite; the pauses are the specified ones |
| Batch.RunDeliversAll | MainApp.tsx:1399-1463 | an unstopped run whose calls and crops succeed adds exactly the requested number of images and reports no stop |
| Batch.RunStoppedEarly | MainApp.tsx:1465-1466 | a stop during preparation keeps the gallery as the run found it and reports the stop |
| Batch.RunKeepsStudioSet | MainApp.tsx:1341-1346 | a fresh session with a studio theme stores a successful set description and photographs with it |
| Batch.ContinuationUsesStudioSet | MainApp.tsx:1349-1352 | a continuation with a studio theme photographs with the stored set description and keeps it stored |
| Batch.Studio.constructor | MainApp.tsx:882-904 | the studio starts idle with the booted pool; the stored keys are the user keys storage reads back as |
| Batch.Studio.Stop | MainApp.tsx:1580-1584 | the running flag goes down and nothing else changes |
| Batch.Studio.SetKeyStatus | MainApp.tsx:1018-1024 | the pool takes the status write and storage follows |
| Batch.Studio.ApplyCallWrites | MainApp.tsx:1018-1024 | a call's writes reach the pool in order and storage follows |
| Batch.Studio.PrepareStudio | MainApp.tsx:1337-1352 | a fresh session with a studio theme asks for a set description once, keeping it when the call succeeds and going on without it when it fails; a continuation reuses the session's; the call's status writes reach the pool and storage |
| Batch.Studio.PrepareScenarios | MainApp.tsx:1354-1384 | the scenarios are the custom theme repeated, the service's answer, or the shuffled fallbacks cycled to the count, then padded; the call's status writes reach the pool and storage |
| Batch.Studio.KeepPhoto | MainApp.tsx:1428-1453 | a photo that crops joins the end of the gallery; otherwise nothing changes |
| Batch.Studio.PhotoStep | MainApp.tsx:1401-1462 | one photo: its call's status writes reach pool and storage; the loop breaks only when the flag reads false after a successful call, and then the state is the loop specification's final one; otherwise the loop invariant holds for the next photo and the flag is down exactly when the stop was pressed |
| Batch.Studio.PhotoLoop | MainApp.tsx:1399-1463 | after the loop the pool carries the photo calls' status writes with storage in step, the gallery has the kept photos appended, the pauses are the loop specification's, and the flag is down exactly when the stop was pressed during the loop or before it |
| Batch.Studio.Begin | MainApp.tsx:1316-1332 | the flags go up; a fresh run clears the gallery and sets the target count, a continuation adds to it unless a count was forced |
| Batch.Studio.Prepare | MainApp.tsx:1316-1384 | before the loop: flags up, gallery and target count set for a fresh run or a continuation, the studio set and scenario calls' status writes in pool and storage; the photos' look and the loop context are the ones the run specification uses |
| Batch.Studio.RunGeneration | MainApp.tsx:1292-1488 | a run already going returns at once and one that is not ready is refused, both changing nothing; otherwise the run's result and new state are those of preparation followed by the loop |
| Batch.Studio.Generate | MainApp.tsx:1316-1488 | a validated run's result and new state are those of preparation followed by the loop |
| Batch.Studio.Conclude | MainApp.tsx:1399-1487 | the loop's pool, gallery and pauses, then the flags down and the session finished; the outcome reports whether the stop was pressed and the pauses made |

## Left out

- Rendering, modals, toasts and status texts are not modelled. In the places modelled, errors are only logged.
- `setActiveApiKeyMasked` only affects the display and is not modelled.
- The JSON text of prompts is a parameter (`render`); prompt wording and `colorToneMap` are left out.
- Fetching, cropping and reading a finished photo form one parameter (`finish`). This is floating-point canvas work in a browser.
- The 20-second, 1.5-second and per-photo waits are counted, not timed.
- `URL.revokeObjectURL` and blob handling are left out, because they free browser memory and change no state the model keeps.
- `createdAt` is left out of the session file: it is a clock reading that loading ignores.
- JSON parsing is left out: stored, imported and session texts are already values, and fields of the wrong type are absent.
- Google Drive loading at boot is not part of this model; only the local-storage path (MainApp.tsx:880-904) is.
- Every `performApiCall` of one run works from the pool as it was when the run started (the closure's `apiKeys`). The writes go to the live pool, which later calls in the same run do not see. The model keeps exactly this stale snapshot.
- A second run that starts while a stopped run is still awaiting is not modelled: runs are sequential calls on the `Studio` object.
- `handleValidateKeys` is left out, because it is a batch of concurrent calls to a validation service.
- `runSingleImageGeneration`, variations, burst and edits are only modelled as their gallery updates (`ReplaceImage`, `ReplaceUrl`). Their service calls are the same `performApiCall`.
- The negative-prompt options list is a parameter of `ToggleAll`, not a constant.
- The outfit modal's state in `handleApplyOutfitChange` is left out: it is display only.
- The camera shot drawn for `Random` is a parameter draw (`shotDraw`), like every `Math.random`.
- `shuffleArray` never draws `rs[0]`: the countdown stops before counter 0, so that value is unused.
- `base64` of a data URL without a comma is `undefined` in the source and `""` here.
- `toggle-all` compares the number of selected tags with the number of options. The model does the same; its lemma assumes distinct options.
- KeyPool.GetStoredApiKeys: its contract does not spell out each key's fields for arbitrary stored text. StoreThenLoad pins them down for text that `storeApiKeys` wrote.
- Session.SessionKeys: the same holds for session files; SessionKeysRestore covers files that `getFullSessionState` wrote.
- Batch.Studio.constructor: the field `storedKeys` stands for the keys storage reads back as, not for the stored text. Boot writes storage only to clear text that does not parse as an array, so entries that `getStoredApiKeys` drops or completes stay in the text until the next write. BootPoolShape proves that the pool's user keys are exactly the keys read.
- `Date.now()` is read again for each element inside `map` (MainApp.tsx:615, 827, 1725). The model uses one clock reading `now` per call, so fallback ids made in one call share it.
- JavaScript strings are sequences of UTF-16 code units, and `slice`, `trim` and `split` work on code units, so they can split a surrogate pair. The model's strings are sequences of whole characters.
- The throw on a `null` session key entry is modelled as an error value (`MalformedKeyEntry`) that carries the workspace as it stands at the throw: the anchors, images and settings are already replaced, and the keys, primary and storage are not.
