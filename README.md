# Encrypted mini-app rules, modelled in Dafny

This project models the logic that the FHE demo repository owns itself. The encryption, the
permit machinery and the contracts are all external, so each of their answers becomes an input
to the operations. Four parts are modelled:

- **Rock-paper-scissors** (`rps.dfy`, module `Rps`). This covers the outcome of a game against
  the CPU, `(player - cpu + 3) % 3`, with JavaScript's truncating `%`. The `playAgainstCPU`
  state cells are modelled, including a log of every `setIsPlayingCpu` call. So are the
  `createGame` and `joinGame` call lists and the game panel's predicates: the player test,
  which ignores case, the Player 2 line and the reveal-winner button.
- **Encrypted value toggle** (`fhe_counter.dfy`, module `FheCounter`). This is the
  `EncryptedValue` component: its four state cells, `handleToggle`, the reset when `ctHash`
  changes, `renderContent` and the "Click to decrypt" hint. The step function `Toggle` is the
  specification, and the class `EncryptedValue` updates the cells step by step against it.
- **Deployment address book** (`deployments.dfy`, module `Deployments`). The deployments
  directory is a map from file path (`<dir>/<network>.json`) to the record that the file's
  JSON holds. `saveDeployment` and `getDeployment` are methods of `DeploymentStore`, proved
  against the functions `Saved` and `Lookup`.
- **Permit hook** (`permit.dfy`, module `Permit`). This covers `checkPermit`,
  `generatePermit` and `removePermit` over `hasValidPermit`, `isGeneratingPermit` and
  `error`. The SDK permit store is a map from (chain id text, account) to permit hashes in key
  order.

`decimal.dfy` gives the decimal text of `bigint.toString()` and `chainId.toString()`, with a
round-trip proof. `wrappers.dfy` gives `Option`, which stands for `null` and `undefined`.
JavaScript truthiness is written out where the code relies on it: `0n`, `0` and `""` are
falsy.

## Model

| member | source | states |
|---|---|---|
| Rps.MoveName | packages/miniapp/src/components/EncryptedRPS.tsx:38-42 | move id 0 is named "Rock", id 1 "Paper" and id 2 "Scissors" |
| Rps.MoveNamesDistinct | packages/miniapp/src/components/EncryptedRPS.tsx:38-42 | distinct move ids have distinct names |
| Rps.TruncRem | packages/miniapp/src/components/EncryptedRPS.tsx:137 | JavaScript `%` keeps the sign of the dividend; its magnitude is the magnitude's remainder |
| Rps.Outcome | packages/miniapp/src/components/EncryptedRPS.tsx:135-141 | for move ids: a draw exactly when the moves are equal, a win exactly when the player's move beats the CPU's by the rules, a loss exactly when the CPU's beats the player's |
| Rps.Diff | packages/miniapp/src/components/EncryptedRPS.tsx:137 | for move ids, `(player - cpu + 3) % 3` lies in 0..2 and is the residue of `player - cpu` modulo 3, so exactly one branch is taken |
| Rps.OutcomeSwap | packages/miniapp/src/components/EncryptedRPS.tsx:137-141 | swapping the moves turns a win into a loss and back; a draw stays a draw |
| Rps.EachMoveBeatsExactlyOne | packages/miniapp/src/components/EncryptedRPS.tsx:38-42 | each move beats exactly one move, the one two ids ahead, and is beaten by exactly one move |
| Rps.ResultMessage | packages/miniapp/src/components/EncryptedRPS.tsx:163-169 | each result has a non-empty success message |
| Rps.ResultMessagesDistinct | packages/miniapp/src/components/EncryptedRPS.tsx:163-169 | distinct results have distinct success messages |
| Rps.CpuGame.constructor | packages/miniapp/src/components/EncryptedRPS.tsx:49-71 | no move selected, no game running, no result and no message; the selected move, when there is one, is a move id |
| Rps.CpuGame.SelectMove | packages/miniapp/src/components/EncryptedRPS.tsx:243 | clicking a move card selects that move id and clears the previous CPU game result; nothing else changes, and the selected move stays a move id |
| Rps.CpuGame.PlayAgainstCpu | packages/miniapp/src/components/EncryptedRPS.tsx:105-175 | without a move nothing changes; otherwise `isPlayingCpu` is set true then false, even when encryption throws, and the stored result is the outcome of the two moves |
| Rps.FirstInput | packages/miniapp/src/components/EncryptedRPS.tsx:501 | `data?.[0]` is the first element when data is present and non-empty, and undefined otherwise |
| Rps.CreateGameCalls | packages/miniapp/src/components/EncryptedRPS.tsx:489-506 | the list is empty without a selected move; otherwise it is rejected exactly when encryption throws, or else holds one `createGame` call with the encrypted move |
| Rps.JoinGameCalls | packages/miniapp/src/components/EncryptedRPS.tsx:573-590 | the list is empty without a selected move or with an empty game id; otherwise it holds one `joinGame` call with the game id and the encrypted move |
| Rps.CallsNonEmptyIff | packages/miniapp/src/components/EncryptedRPS.tsx:489-590 | each list is non-empty exactly when its guard passes and encryption succeeds |
| Rps.StatusLabel | packages/miniapp/src/components/EncryptedRPS.tsx:35 | a label exists exactly for states 0..3; state 2 reads "Waiting for Reveal" |
| Rps.Lower | packages/miniapp/src/components/EncryptedRPS.tsx:659 | lower-casing keeps the length and maps each character to its lower-case form |
| Rps.IsSameAccount | packages/miniapp/src/components/EncryptedRPS.tsx:659-660 | a match needs a connected address of the same length; an address always matches itself |
| Rps.IsPlayer | packages/miniapp/src/components/EncryptedRPS.tsx:659-661 | with no wallet nobody is a player; an address equal to player 1 or player 2 is a player |
| Rps.ShowsPlayer2 | packages/miniapp/src/components/EncryptedRPS.tsx:677 | the line shows for every address other than the zero address, including an upper-case spelling of it |
| Rps.ShowsRevealButton | packages/miniapp/src/components/EncryptedRPS.tsx:682 | the button appears only in the "Waiting for Reveal" state and only for a player |
| Rps.SameLowerIff | packages/miniapp/src/components/EncryptedRPS.tsx:659-660 | two addresses compare equal after lower-casing exactly when they agree letter by letter, ignoring case |
| Rps.LowerIdempotent | packages/miniapp/src/components/EncryptedRPS.tsx:659 | lower-casing twice is lower-casing once |
| Rps.IsPlayerIgnoresCase | packages/miniapp/src/components/EncryptedRPS.tsx:659-661 | the player test gives the same answer for two spellings of an address that differ only in case |
| Rps.Player2LineCases | packages/miniapp/src/components/EncryptedRPS.tsx:677 | the Player 2 line is hidden only for the exact zero address |
| Rps.RevealButtonIff | packages/miniapp/src/components/EncryptedRPS.tsx:658-682 | the reveal button shows exactly when the state is 2 and a connected address matches player 1 or player 2, ignoring case |
| Rps.RevealButtonCases | packages/miniapp/src/components/EncryptedRPS.tsx:682 | either player sees the button in state 2; with no wallet or in another state nobody does |
| FheCounter.Toggle | packages/miniapp/src/components/FHECounter.tsx:53-83 | a click never leaves `isDecrypting` different from before; unless it starts a decryption it keeps the value and the message; a decryption ends with a value exactly when unseal succeeds and with a message exactly when it does not |
| FheCounter.Reset | packages/miniapp/src/components/FHECounter.tsx:47-51 | a new handle clears the value, the visibility and the message, and keeps `isDecrypting` |
| FheCounter.RenderContent | packages/miniapp/src/components/FHECounter.tsx:85-89 | "decrypting..." while decrypting; the value only when it exists and is visible; "encryp*ed" otherwise |
| FheCounter.ToggleIgnored | packages/miniapp/src/components/FHECounter.tsx:54 | without a truthy handle (`0n` included) or during a decryption a click changes nothing |
| FheCounter.ToggleTwiceRestores | packages/miniapp/src/components/FHECounter.tsx:57-60 | with a value a click only flips the visibility, and two clicks restore the cells |
| FheCounter.ToggleSuccessShowsPlaintext | packages/miniapp/src/components/FHECounter.tsx:69-71 | a successful unseal stores and shows the plaintext's decimal text, which reads back as the plaintext |
| FheCounter.ToggleFailureKeepsNoValue | packages/miniapp/src/components/FHECounter.tsx:72-79 | a refused unseal sets the "not allowed" message; a thrown one sets the "unexpected error" message; the value stays absent |
| FheCounter.ResetHidesValue | packages/miniapp/src/components/FHECounter.tsx:47-51 | after a reset nothing decrypted is shown, and the next click decrypts exactly when the handle is truthy |
| FheCounter.ShowHint | packages/miniapp/src/components/FHECounter.tsx:91 | while the hint shows, the masked text is rendered and no decrypted text is visible |
| FheCounter.HintMeansClickDecrypts | packages/miniapp/src/components/FHECounter.tsx:91 | the hint shows exactly when there is no value, no decryption running and a truthy handle, which is exactly when a click would decrypt |
| FheCounter.HiddenValueNeverRendered | packages/miniapp/src/components/FHECounter.tsx:85-89 | a hidden value is never rendered |
| FheCounter.EncryptedValue.constructor | packages/miniapp/src/components/FHECounter.tsx:41-51 | on mount the four cells are empty |
| FheCounter.EncryptedValue.ChangeHash | packages/miniapp/src/components/FHECounter.tsx:47-51 | a handle that differs from the last one resets the cells; the same handle changes nothing |
| FheCounter.EncryptedValue.HandleToggle | packages/miniapp/src/components/FHECounter.tsx:53-83 | the cells end as `Toggle` says; a decryption calls unseal once, and `isDecrypting` is set true then false; otherwise unseal is not called |
| Decimal.NatToDecimal | packages/miniapp/src/components/FHECounter.tsx:70 | the text is non-empty, all digits, with no leading zero |
| Decimal.IntToDecimal | packages/miniapp/src/components/FHECounter.tsx:70 | the text starts with '-' exactly for negative values and is all digits otherwise |
| Decimal.NatToDecimalRoundTrip | packages/miniapp/src/components/FHECounter.tsx:70 | reading the digits back gives the number |
| Decimal.IntToDecimalRoundTrip | packages/miniapp/src/components/FHECounter.tsx:70 | reading the text back gives the integer |
| Decimal.IntToDecimalInjective | packages/miniapp/src/hooks/usePermit.ts:97 | distinct integers have distinct decimal texts |
| Deployments.DeploymentPath | packages/hardhat/tasks/utils.ts:13 | the path is the directory, '/', the network name and ".json" |
| Deployments.DeploymentPathInjective | packages/hardhat/tasks/utils.ts:13 | distinct networks have distinct files |
| Deployments.RecordOf | packages/hardhat/tasks/utils.ts:19-22 | the stored record, or the empty record when the file does not exist |
| Deployments.Saved | packages/hardhat/tasks/utils.ts:16-28 | the network's file exists afterwards; its record gains or replaces one entry and keeps the others; other files are untouched |
| Deployments.Lookup | packages/hardhat/tasks/utils.ts:31-40 | an address exactly when the file exists and the entry is present and non-empty; null otherwise |
| Deployments.SaveThenLookup | packages/hardhat/tasks/utils.ts:16-40 | after saving a non-empty address, looking it up returns it |
| Deployments.SaveFrame | packages/hardhat/tasks/utils.ts:19-26 | saving changes no other lookup, in this network or another |
| Deployments.SaveCreatesRecord | packages/hardhat/tasks/utils.ts:19-24 | the first save for a network creates a record holding only that entry |
| Deployments.SaveIdempotent | packages/hardhat/tasks/utils.ts:24-26 | saving the same entry twice is saving it once |
| Deployments.LookupMissingNetwork | packages/hardhat/tasks/utils.ts:34-36 | without the network's file every lookup is null |
| Deployments.DeploymentStore.constructor | packages/hardhat/tasks/utils.ts:5-10 | the store sits over a fixed directory and the files already in it |
| Deployments.DeploymentStore.SaveDeployment | packages/hardhat/tasks/utils.ts:16-28 | reads the record, sets one entry and writes it back, as `Saved` says |
| Deployments.DeploymentStore.GetDeployment | packages/hardhat/tasks/utils.ts:31-40 | returns what `Lookup` says, and never an empty address |
| Permit.AfterCheckPermit | packages/miniapp/src/hooks/usePermit.ts:18-29 | false without CoFHE; otherwise whether `getPermit` reported success with data; `hasValidPermit` takes that answer and nothing else changes |
| Permit.ReadyToGenerate | packages/miniapp/src/hooks/usePermit.ts:33 | ready only with CoFHE initialized, a non-empty address and no generation running |
| Permit.ExpirationSeconds | packages/miniapp/src/hooks/usePermit.ts:42-49 | the expiration is thirty days after now, in seconds, rounded to the nearest second |
| Permit.RequestFor | packages/miniapp/src/hooks/usePermit.ts:41-50 | a "self" permit named after the app, issued by the address, with that expiration |
| Permit.FailureMessage | packages/miniapp/src/hooks/usePermit.ts:58-66 | the SDK's message when it is non-empty, else "Failed to create permit"; for a throw, the Error's message or "Unknown error generating permit" |
| Permit.AfterGeneratePermit | packages/miniapp/src/hooks/usePermit.ts:32-71 | when not ready it answers "Not ready to generate permit" and changes nothing; otherwise generation ends idle, success matches the SDK's answer, and a failure records and returns the same message |
| Permit.GenerateEndsIdle | packages/miniapp/src/hooks/usePermit.ts:68-70 | no generation is in progress afterwards unless one already was; success means a valid permit |
| Permit.StoreKey | packages/miniapp/src/hooks/usePermit.ts:97 | the key is the account and the decimal text of the chain id, which reads back as the chain id |
| Permit.HasStoredPermits | packages/miniapp/src/hooks/usePermit.ts:97-98 | stored permits mean a non-empty record for that account in the store |
| Permit.AfterRemovePermit | packages/miniapp/src/hooks/usePermit.ts:81-119 | removal succeeds exactly when every guard passes and the store does not throw; success drops the first hash, clears the flag and the error; a failed guard changes nothing; a throw from the store records "Failed to remove permit" and changes nothing else |
| Permit.RemoveGuardsChangeNothing | packages/miniapp/src/hooks/usePermit.ts:82-106 | missing data, no active permit or no stored permits: false, and nothing changes |
| Permit.RemoveDropsFirstHash | packages/miniapp/src/hooks/usePermit.ts:97-102 | a successful removal drops exactly the first hash of that account's record and leaves every other record |
| Permit.StoreKeysDistinguishChains | packages/miniapp/src/hooks/usePermit.ts:97 | two store keys are equal only for the same chain and account |
| Permit.PermitHook.constructor | packages/miniapp/src/hooks/usePermit.ts:13-15 | no valid permit, no generation, no error |
| Permit.PermitHook.CheckPermit | packages/miniapp/src/hooks/usePermit.ts:18-29 | updates `hasValidPermit` and returns as `AfterCheckPermit` says |
| Permit.PermitHook.InitializedEffect | packages/miniapp/src/hooks/usePermit.ts:74-78 | once CoFHE is initialized the permit is checked; before that nothing changes |
| Permit.PermitHook.GeneratePermit | packages/miniapp/src/hooks/usePermit.ts:32-71 | the cells and reply are as `AfterGeneratePermit` says; a generation sets `isGeneratingPermit` true then false and sends one request |
| Permit.PermitHook.RemovePermit | packages/miniapp/src/hooks/usePermit.ts:81-119 | the cells, store and answer are as `AfterRemovePermit` says |

## Left out

- The FHE SDK is not modelled. `encrypt`, `unseal`, `createPermit`, `getPermit` and
  `permitStore` are replaced by their possible answers: success, failure or throw.
- The proof fields of a CPU game result (ciphertext hash, shortened signature, security zone)
  are SDK data and are not modelled.
- `Math.random` for the CPU move is not modelled. The move is a parameter in 0..2.
- Timers are not modelled: the encryption delay, the automatic clearing of success messages and
  the waits before refetching.
- The contracts are not modelled. `getGame`, `isGameJoinable`, `getTotalGames`, the counter
  contract and the transaction lifecycle (`onStatus`, disabled buttons) are outside the model.
- React scheduling is not modelled. State updates are applied in program order, and stale
  closures are not captured. A `ctHash` change while an unseal is in flight is not modelled.
- Rps.Lower: lower-cases ASCII letters only. `toLowerCase` folds all of Unicode, but addresses
  are hexadecimal text.
- Rps.JoinGameCalls: the game id is passed as text. The `BigInt(gameId)` conversion is not
  modelled, and neither is its throw on text that is not a number.
- FheCounter.Toggle: the plaintext is an integer. Boolean ciphertexts, whose `toString` is
  "true" or "false", are not modelled.
- Permit.ExpirationSeconds: thirty days are counted as 30 × 86,400,000 ms. `Date.setDate`
  counts local calendar days, which can differ by a daylight-saving hour.
- Permit.AfterRemovePermit: only a throw from `permitStore.removePermit` is modelled. In that
  case the store is taken as unchanged. `getPermit` reports failures through its result
  instead of throwing.
- Permit.AfterCheckPermit: a throw from `getPermit` is not modelled.
- Deployments.Saved, Deployments.Lookup: a record is a map, not a JavaScript object. For
  names inherited from `Object.prototype` the object differs: `getDeployment` returns the
  truthy inherited member for a name such as "toString" where `Lookup` answers null, and an
  assignment to "__proto__" does not create an entry. The callers use only "Counter" and
  "EncryptedRPS".
- Deployments: `fs`, `path` and JSON are abstracted. Each file holds its parsed record, and
  the JSON round trip is taken to hold. Not modelled: `path.join` normalisation of network
  names that contain separators or "..", a file that fails to parse, non-string values,
  creating the directory, and the log line.
- The hardhat task scripts and the hardhat configuration are not modelled, and neither is the
  app shell (page, layout, providers, wallet button). `useCofhe.ts` and `cofheStore.ts` are
  not part of this model.
