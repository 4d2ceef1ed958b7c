# Local password vault and line-drawing puzzle, modelled in Dafny

The application keeps a list of website credentials (id, website, username,
password) in the browser. The whole list is serialized to JSON, encrypted with
AES under the master password and stored in one `localStorage` slot,
`password-manager-vault`. A React context, `VaultProvider`, holds the session:

- whether the vault is unlocked;
- the decrypted accounts;
- the master password kept for later saves;
- whether a vault exists.

`login` creates or unlocks the vault. `logout` forgets the secrets.
`addAccount` and `deleteAccount` go through `saveData`, which adopts a new list
only once it has been saved. A re-verification dialog (`DecryptModal`) hands
out one account's password only after the master password is accepted again.
Both list views filter the accounts by a case-insensitive search term, and
the table view picks an icon per website. The add-account dialog offers a
random password generator.

The application also bundles a "single line draw" puzzle. Its parts are:

- a table of fifteen levels (points on a grid joined by connections);
- a board on which the player drags a path through the connections, each at
  most once;
- a hint counter and a list of completed levels, each mirrored in
  `localStorage`.

The model has these parts:

- `localStorage` is one shared object: `Storage.LocalStorage`, a class over a
  `map<string, string>`.
- AES and `JSON` are pairs of uninterpreted functions (`VaultCrypto.Cipher`,
  `Json.JsonCodec`). Their round-trip laws are the predicates `AesRoundTrips`
  and `Json.RoundTrips`, which the lemmas that need them require.
- Some of the exceptions that a `try` catches are boolean failure parameters:
  a failing `encryptAndSave`, and `localStorage` throwing inside
  `getSavedHints`. A throwing `getItem` elsewhere, and a throwing `setItem` or
  `removeItem` outside any `try`, are not modelled (see "Left out").
- `Math.random` is an index oracle, and so is the board's floating-point
  hit-test.
- The React components with state (`VaultProvider`, `DecryptModal`,
  `PasswordGenerator`, the two game hooks, `GameGrid`) are classes whose
  methods are their handlers. Each state update runs as one sequential step.
- The search filters, the icon lookup, the level table and the JavaScript
  built-ins they rely on are functions:
  - `toLowerCase`, `includes`, `filter`;
  - the `Set` dedupe;
  - `String(n)` and `parseInt`;
  - the default `sort` order.

## Model

| member | source | states |
|---|---|---|
| VaultCrypto.EncryptAndSave | src/lib/crypto.ts:5-15 | returns true exactly when nothing fails; on success only `VAULT_KEY` changes, to the AES encryption of the JSON text under the password; on failure the store is unchanged |
| VaultCrypto.LoadAndDecrypt | src/lib/crypto.ts:17-34 | `null` when the slot is absent or empty, or when the decryption fails or gives the empty string; otherwise the parse of the decrypted text, `null` when it does not parse |
| VaultCrypto.VaultExists | src/lib/crypto.ts:36-38 | true exactly when the vault slot is present, whatever it holds |
| VaultCrypto.LoadAfterSave | src/lib/crypto.ts:5-34 | with the AES and JSON round-trip laws, what `encryptAndSave` stored loads back under the same password as the very same data |
| VaultCrypto.EmptySlotExistsButLoadsNothing | src/lib/crypto.ts:20-37 | a slot holding `""` counts as an existing vault, yet `loadAndDecrypt` gives `null` for it |
| VaultCrypto.Seal | src/lib/crypto.ts:7-8 | under the AES law the ciphertext is non-empty and decrypts with the same password to the JSON text of the data; with the JSON law as well, that text parses back to the data |
| VaultContext.WithAccount | src/context/VaultContext.tsx:66-68 | the new list is the old list, in order, followed by the new record under the fresh id |
| VaultContext.WithoutId | src/context/VaultContext.tsx:74 | the result is an order-preserving subsequence holding exactly the records whose id differs |
| VaultContext.WithoutIdIdempotent | src/context/VaultContext.tsx:74 | deleting the same id twice gives what deleting it once gave |
| VaultContext.WithoutAbsentId | src/context/VaultContext.tsx:74 | deleting an id no record carries leaves the list equal |
| VaultContext.WithAccountKeepsIdsUnique | src/context/VaultContext.tsx:66-68 | a fresh id keeps the ids unique |
| VaultContext.VaultProvider.constructor | src/context/VaultContext.tsx:24-28 | starts locked, with no account and an empty password; `vaultExists` is what the store says; the session invariant holds |
| VaultContext.VaultProvider.Login | src/context/VaultContext.tsx:30-50 | with no vault: unlocks an empty list under the password and writes the encrypted empty list, or leaves the store alone if that save fails. With a vault: the store is untouched; a successful decryption unlocks exactly the decrypted list; a failed one changes nothing. Afterwards the vault exists and the invariant holds |
| VaultContext.VaultProvider.Logout | src/context/VaultContext.tsx:52-56 | locked, with no account and no password; `vaultExists` and the store are untouched |
| VaultContext.VaultProvider.SaveData | src/context/VaultContext.tsx:58-64 | the in-memory list becomes the new one exactly when the save succeeds; the store then holds it sealed under the kept password; on failure nothing changes |
| VaultContext.VaultProvider.AddAccount | src/context/VaultContext.tsx:66-71 | on success the list is the old one with the new record appended, and it is stored; on failure nothing changes; unique ids stay unique |
| VaultContext.VaultProvider.DeleteAccount | src/context/VaultContext.tsx:73-77 | on success the list is the old one without the records carrying the id, and it is stored; on failure nothing changes |
| VaultContext.VaultProvider.CommittedReloads | src/context/VaultContext.tsx:31-37 | once the session's list is what the slot holds, logging in again with the same password restores exactly that list |
| DecryptModal.SubmitEffects | src/components/DecryptModal.tsx:21-30 | the target account's password is handed out exactly when the entered password is accepted, at most once, and no other secret ever is; a rejection shows the error; the dialog closes exactly once, last |
| DecryptModal.DecryptModal.constructor | src/components/DecryptModal.tsx:17 | the dialog is for the given account, the field starts empty and nothing has happened yet |
| DecryptModal.DecryptModal.Type | src/components/DecryptModal.tsx:47 | the field holds what was typed, and no effect happens |
| DecryptModal.DecryptModal.HandleSubmit | src/components/DecryptModal.tsx:21-30 | the field is cleared and the submit's effects are appended in order |
| PasswordList.FilteredAccounts | src/components/PasswordList.tsx:15-19 | an order-preserving subsequence keeping exactly the accounts whose lower-cased website or username includes the lower-cased term |
| PasswordList.Render | src/components/PasswordList.tsx:26-33 | the empty-state notice is shown exactly when no account matches; otherwise the non-empty filtered list is shown |
| PasswordList.EmptyTermKeepsAll | src/components/PasswordList.tsx:17-18 | the empty term keeps every account |
| PasswordList.TermCaseInsensitive | src/components/PasswordList.tsx:17-18 | filtering by a term and by its lower-cased form give the same list |
| PasswordTable.FilteredAccounts | src/components/PasswordTable.tsx:24-28 | an order-preserving subsequence keeping exactly the accounts where a non-empty website or username includes the term, ignoring case; every shown account has a website or a username |
| PasswordTable.Render | src/components/PasswordTable.tsx:44-51 | the empty-state notice is shown exactly when no account matches; otherwise the non-empty filtered list is shown |
| PasswordTable.EmptyTermShowsLabelled | src/components/PasswordTable.tsx:24-28 | with the empty term, the table shows exactly the accounts with a non-empty website or username |
| PasswordTable.TermCaseInsensitive | src/components/PasswordTable.tsx:26-27 | two terms equal up to case select the same accounts |
| PasswordTable.FieldCaseInsensitive | src/components/PasswordTable.tsx:26-27 | accounts whose fields are equal up to case are shown or hidden together |
| PasswordTable.AgreesWithListOnFilledFields | src/components/PasswordTable.tsx:26-27 | on accounts with both fields filled, the table and the card list match alike; an account with neither field is never in the table, though the card list shows it under the empty term |
| IconMap.FirstMatch | src/lib/icon-map.tsx:43-47 | the first table entry, in key order, whose key occurs in the website; none when no key occurs |
| IconMap.GetIconForWebsite | src/lib/icon-map.tsx:38-49 | `Globe` for the empty website; `Globe` exactly when the website is empty or contains no key; otherwise the icon of the first key, in table order, that occurs in the lower-cased website |
| IconMap.DependsOnLowerCase | src/lib/icon-map.tsx:42 | the icon depends only on the lower-cased website |
| IconMap.EmailEntryShadowed | src/lib/icon-map.tsx:33-34 | the `email` entry is never the first match, because `mail` comes before it and occurs in it |
| IconMap.EmailGetsMail | src/lib/icon-map.tsx:21-34 | a website containing `email` and none of the keys before `mail` gets the mail icon |
| PasswordGenerator.CharPool | src/components/PasswordGenerator.tsx:21-29 | the pool starts with the 26 lower-case letters; its length is 26, plus 26, 10 and the symbol count for the options that are on; it holds exactly the characters of the selected classes |
| PasswordGenerator.PasswordGenerator.constructor | src/components/PasswordGenerator.tsx:14-18 | length 16, every option on, no password yet |
| PasswordGenerator.PasswordGenerator.GeneratePassword | src/components/PasswordGenerator.tsx:20-38 | exactly `length` characters, each taken from the pool at the oracle's index for that draw; the shown password and the one handed to the form are the same string |
| PasswordGenerator.LowerCaseOnlyPool | src/components/PasswordGenerator.tsx:21-29 | with every option off, the pool holds exactly the letters `a` to `z` |
| HintSystem.GetSavedHints | src/hooks/useHintSystem.ts:6-19 | a missing entry is written as "500" and 500 is returned; a present entry is returned as `parseInt` reads it, and nothing is written; when storage throws, 500 is returned and nothing is written |
| HintSystem.HintSystem.constructor | src/hooks/useHintSystem.ts:22 | the count starts at 0 |
| HintSystem.HintSystem.Load | src/hooks/useHintSystem.ts:24-26 | the count becomes what `getSavedHints` returns, and the store changes as it does |
| HintSystem.HintSystem.UseHint | src/hooks/useHintSystem.ts:28-37 | a positive count drops by exactly one and is written; otherwise nothing changes; a count that is not negative never becomes negative |
| HintSystem.HintSystem.AddHints | src/hooks/useHintSystem.ts:39-45 | the count grows by the amount and is written; only the hint key changes |
| HintSystem.HintSystem.ResetHints | src/hooks/useHintSystem.ts:47-50 | store and count are both 500; repeating it changes nothing further |
| HintSystem.HintSystem.ReloadReadsCount | src/hooks/useHintSystem.ts:14 | whenever the stored text was written from the count, a reload's `parseInt` reads back that count, `NaN` included |
| GameProgress.GetSavedProgress | src/hooks/useGameProgress.ts:5-13 | `[]` when the entry is missing or empty or does not parse; otherwise the parsed list |
| GameProgress.MarkCompleted | src/hooks/useGameProgress.ts:24 | the result has no duplicates, contains the level and every earlier level, and nothing else |
| GameProgress.MarkOnDistinct | src/hooks/useGameProgress.ts:24 | on a list without duplicates, marking appends the level unless it is already there, so the length grows by at most one |
| GameProgress.MarkIdempotent | src/hooks/useGameProgress.ts:24 | marking a level twice gives what marking it once gave |
| GameProgress.GameProgress.constructor | src/hooks/useGameProgress.ts:16 | the list of completed levels starts empty |
| GameProgress.GameProgress.Load | src/hooks/useGameProgress.ts:18-20 | the list becomes what `getSavedProgress` reads |
| GameProgress.GameProgress.MarkLevelAsCompleted | src/hooks/useGameProgress.ts:22-28 | the list becomes the deduplicated list with the level added, it is written under the progress key, and with JSON round-tripping a reload reads it back; the level now counts as completed and every level completed before still does |
| GameProgress.GameProgress.IsLevelCompleted | src/hooks/useGameProgress.ts:30-32 | true exactly when some position of the list holds the level |
| GameProgress.GameProgress.ResetProgress | src/hooks/useGameProgress.ts:34-37 | the entry is removed and the list emptied, so no level counts as completed and a reload reads `[]` |
| Levels.Find | src/game/levels.ts:127 | none exactly when no level has the id; otherwise the first level in table order with that id |
| Levels.GetLevelById | src/game/levels.ts:127 | none exactly when no level has the id; otherwise a level of the table carrying that id |
| Levels.LevelsWellFormed | src/game/levels.ts:16-125 | in every level, each connection joins two different existing points; no unordered pair repeats; every point lies inside its grid |
| Levels.LevelIds | src/game/levels.ts:16-125 | there are fifteen levels with ids 1 to 15 in order; ids 1-5 are easy, 6-10 medium, 11-15 hard |
| Levels.GetLevelByIdIndexes | src/game/levels.ts:127 | ids 1 to 15 look up `levels[id - 1]`; every other id finds nothing |
| GameGrid.EdgeKey | src/components/GameGrid.tsx:36 | the two decimal strings in code-unit order, joined by `-` |
| GameGrid.EdgeKeySymmetric | src/components/GameGrid.tsx:36 | the key of a pair does not depend on its direction |
| GameGrid.EdgeKeyInjective | src/components/GameGrid.tsx:36 | two keys are equal exactly when they name the same unordered pair of points |
| GameGrid.Steps | src/components/GameGrid.tsx:33-35 | the consecutive pairs of the path: one fewer than its points, the `i`-th being points `i` and `i + 1` |
| GameGrid.KeysCount | src/components/GameGrid.tsx:31-40 | a list with no repeated unordered pair has as many distinct keys as elements |
| GameGrid.DrawnCount | src/components/GameGrid.tsx:31-40 | on a trail, the drawn set has one key fewer than the path has points |
| GameGrid.DrawnAreConnections | src/components/GameGrid.tsx:88-94 | everything a trail has drawn is a connection of the level |
| GameGrid.CompleteIffAllDrawn | src/components/GameGrid.tsx:42-46 | on a trail over a level with no repeated pair, the completion test holds exactly when every connection is drawn; the path then has one point more than the level has connections |
| GameGrid.Moved | src/components/GameGrid.tsx:75-95 | the path only grows, by at most one point, and not at all unless drawing on a point; a new last point is the hit point, differs from the old last point, and joins it along a connection not drawn before |
| GameGrid.StepsAppend | src/components/GameGrid.tsx:94 | appending a point adds exactly one step, from the old last point to it |
| GameGrid.MovedKeepsTrail | src/components/GameGrid.tsx:88-95 | a drag keeps the path a trail: every step follows a connection, and none is walked twice |
| GameGrid.GameGrid.constructor | src/components/GameGrid.tsx:14-15 | empty path, not drawing |
| GameGrid.GameGrid.DrawnConnections | src/components/GameGrid.tsx:31-40 | the loop builds exactly the set of keys of the path's consecutive pairs |
| GameGrid.GameGrid.IsComplete | src/components/GameGrid.tsx:42-46 | on a board path over a level with no repeated pair, the test holds exactly when every connection is drawn; the path then has one point more than the level has connections |
| GameGrid.GameGrid.InteractionStart | src/components/GameGrid.tsx:65-72 | a press on a point starts a fresh path there and starts drawing; a press off every point changes nothing |
| GameGrid.GameGrid.InteractionMove | src/components/GameGrid.tsx:74-97 | the path grows by the hit point exactly when drawing, the point differs from the last one, the pair is a connection and is not yet drawn; otherwise it is unchanged; the path stays a trail |
| GameGrid.GameGrid.InteractionEnd | src/components/GameGrid.tsx:99-102 | drawing stops and the path is kept |
| Storage.LocalStorage.GetItem | src/lib/crypto.ts:19 | the stored string, or none exactly when the key is absent |
| Storage.LocalStorage.SetItem | src/lib/crypto.ts:9 | that key is overwritten and every other key keeps its value |
| Storage.LocalStorage.RemoveItem | src/hooks/useGameProgress.ts:35 | that key is dropped and every other key keeps its value |
| JsString.ToLowerCase | src/components/PasswordList.tsx:17 | same length; no upper-case ASCII letter is left; each upper-case letter's code goes up by 32, to its lower-case letter; every other character is kept |
| JsString.ToLowerCaseIdempotent | src/components/PasswordList.tsx:17 | lower-casing twice is lower-casing once |
| JsString.Includes | src/components/PasswordList.tsx:17 | true exactly when `sub` occurs in `s` at some position |
| JsString.IncludesTransitive | src/lib/icon-map.tsx:44 | a string included in an included string is itself included |
| JsString.CodeUnitOrderTotal | src/components/GameGrid.tsx:36 | the default `sort` order on strings is total: of any two strings, one sorts no later than the other |
| JsString.CodeUnitOrderAntisymmetric | src/components/GameGrid.tsx:36 | two strings that each sort no later than the other are equal |
| JsNumber.ToString | src/hooks/useHintSystem.ts:11 | `NaN` for `NaN`; otherwise a minus sign exactly for negative numbers, followed by decimal digits with no leading zero |
| JsNumber.NatToString | src/hooks/useHintSystem.ts:11 | the decimal digits, non-empty, with no leading zero |
| JsNumber.ParseInt | src/hooks/useHintSystem.ts:14 | `NaN` exactly when, after leading white space and a sign, no digit follows |
| JsNumber.ParseIntToString | src/hooks/useHintSystem.ts:11-14 | `parseInt(String(n))` is `n` for every integer and for `NaN` |
| JsNumber.NatToStringInjective | src/components/GameGrid.tsx:36 | different numbers have different decimal forms |
| JsArray.Filter | src/components/PasswordList.tsx:15 | an order-preserving subsequence holding exactly the elements that pass, each as many times as in the input |
| JsArray.FilterIdempotent | src/context/VaultContext.tsx:74 | filtering twice by the same test is filtering once |
| JsArray.Dedupe | src/hooks/useGameProgress.ts:24 | no duplicates, and exactly the elements of the input |
| JsArray.DedupeAppend | src/hooks/useGameProgress.ts:24 | adding one element through the `Set` appends it unless it is already present |
| JsArray.DedupeOfDistinct | src/hooks/useGameProgress.ts:24 | a list without duplicates passes through the `Set` unchanged |

## Left out

- AES, the key derivation inside `CryptoJS.AES`, and UTF-8 decoding are not modelled. They are an abstract `Cipher` with a round-trip law. Nothing is claimed about decrypting with a wrong password: the code only notices an empty result.
- `JSON.stringify` and `JSON.parse` are an abstract `JsonCodec` with a round-trip law. A parse that succeeds with a value of another shape (a number instead of a list, say) is folded into `None`.
- VaultCrypto.EncryptAndSave: a throw from `JSON.stringify`, crypto-js or `setItem` is the boolean `fails`. A failing `setItem` is taken to leave the store unchanged.
- VaultCrypto.EncryptAndSave: `CryptoJS.AES.encrypt` with a passphrase draws a fresh random salt on every call. The model's `encrypt` is a function, so the same text and password always give the same ciphertext. The clauses that name the stored string as `Seal(...)` hold only for this deterministic stand-in. This covers `EncryptAndSave`, `Login`, `SaveData`, `AddAccount`, `DeleteAccount` and `Committed`. Only the round-trip law carries over to the real cipher: what was saved decrypts back to the same data under the same password.
- VaultCrypto.LoadAndDecrypt: a throwing `getItem` is not modelled. The source then returns `null`; the model reads the store as it is.
- GameProgress.GetSavedProgress: a throwing `getItem` is not modelled. The source then returns `[]`; the model reads the store as it is.
- HintSystem.HintSystem.UseHint: a throwing `setItem` is not modelled. It is outside any `try`, so the source loses the update and the exception escapes; the model always succeeds. HintSystem.HintSystem.AddHints and HintSystem.HintSystem.ResetHints are the same.
- GameProgress.GameProgress.MarkLevelAsCompleted: a throwing `setItem` is not modelled. It is outside any `try`, so the source loses the update and the exception escapes; the model always succeeds. GameProgress.GameProgress.ResetProgress is the same for `removeItem`.
- VaultContext.VaultProvider.Login: any decrypted value that parses counts as a success. The source's truthiness test agrees on every parsed list, `[]` included, since a list is an object.
- VaultContext.VaultProvider.Login: in the create branch the result of the save is ignored, as in the source. After a failed save the session reports an existing, unlocked vault that the store does not hold.
- VaultContext.VaultProvider.AddAccount: `crypto.randomUUID` is a parameter. Its freshness against the current ids is a precondition. The add form's non-empty-fields guard (src/components/AddPasswordForm.tsx:22) is also a precondition. The requirement to be unlocked comes from the Dashboard being rendered only then (src/App.tsx:10).
- VaultContext.VaultProvider.SaveData: requires an unlocked session. Its only callers are `addAccount` and `deleteAccount`, reached from the Dashboard, which is rendered only while unlocked (src/App.tsx:10).
- VaultContext.VaultProvider.DeleteAccount: requires an unlocked session, for the same reason: the Dashboard is rendered only while unlocked (src/App.tsx:10).
- `updateAccount` is called by the edit form but is not part of the context, so it is not modelled.
- DecryptModal.DecryptModal.HandleSubmit: `verifyMasterPassword` is not part of the context either. As written, `useVault()` provides no such function, so the call at src/components/DecryptModal.tsx:23 would throw before the field is cleared and `onClose` runs. The model passes an abstract predicate instead. "Always clears and closes" holds only for that predicate.
- The remote sign-in in `PasswordVerificationDialog.tsx` is network I/O and is not part of this model.
- JsString.ToLowerCase: only ASCII letters are mapped. Unicode case mapping is not modelled.
- JsNumber.ParseInt: only the integer part is modelled. Leading white space is limited to space, tab, newline and carriage return. JavaScript numbers are unbounded integers or `NaN`. Floating-point rounding of very large counts is not modelled.
- PasswordTable.FilteredAccounts: the `typeof … === 'string'` guards are not modelled, because the fields are always strings here. IconMap.GetIconForWebsite has the same restriction.
- IconMap.EmailGetsMail: a website containing `email` maps to the mail icon only when no earlier key also occurs in it. For example, `github-email` gets the GitHub icon.
- PasswordGenerator.PasswordGenerator.GeneratePassword: `Math.floor(Math.random() * n)` is an index oracle assumed to stay below `n`. The sliders and check boxes that set the options are plain fields.
- GameGrid:
  - The SVG geometry and the floating-point hit-test are not modelled. `getPointIndexFromCoords` is an oracle returning a point index or -1. A missing `svgRef` reads as -1.
  - `mousePos`, the line that follows the pointer, is not modelled.
  - `onComplete` is not modelled; `GameGrid.GameGrid.IsComplete` is its condition.
  - Each handler runs as one step on the current state. React's batched updates and the stale `path` closure are not modelled.
- Levels: ids are integers and connection endpoints naturals. Each level is its own constant so that its data can be checked one level at a time.
- The pages, the forms and the other components that only render are not part of this model, for example `Dashboard.tsx`, `Login.tsx`, `LevelSelect.tsx`, `Game.tsx` and `AccountList.tsx`. The same goes for toasts, the clipboard and routing.
