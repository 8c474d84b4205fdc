# Verification of the TAT protocol core

A Dafny model of the protocol's forge (issuer ledger), pocket (wallet), replay filter and encodings, and
gate (access server), with proofs of what they keep over whole runs and of what their pairs of operations
undo. `dafny verify dfyconfig.toml` checks everything.

## How it is organised

- **Forge.** `Tokens` (symbolic hashes and signatures, value of a set of tokens), `ForgeRules` (what one
  request is checked for and produces), `FungibleForge` and `NonFungibleForge` (the handlers over mutable
  state), `PromiseLock` (the chain of promises is a first-come queue), `FungibleLedger` and `NftLedger`
  (step machines: every `await` is a boundary, writes land late, in order, or fail, the process may crash
  anywhere and reload), `FungibleSafety`, `FungibleSerial`, `NftSafety`, `LiveValue` (the theorems),
  `LockedLedger` (the fungible ledger run on the chain of promises itself), `FungibleProgress` and
  `NftProgress` (an acceptable request can always be carried through).
- **Pocket.** `CoinSelection` (the exhaustive search over one shared array), `CoinCounts`,
  `TransactionBuild`, `JsMap` (insertion-ordered maps), `WalletIndexes`, `PocketTokens` (token map and
  derived indexes), `KeyPaths`, `KeyRules`, `PocketKeys` (keys, counter, recovery), `KeyRuns` (overlapping
  derivations, failing saves, restarts), `KeyOvertaken` (short runs after which a promise about keys fails),
  `PocketBackup`, `WalletToForge` (witnesses, acceptance, a whole transfer), `LockedCoins` (a transfer refused although
  spendable funds would do).
- **Replay filter and encodings.** `Numerals`, `Json`, `Utf8`, `Base64`, `Decimal`, `Jwt`, `SpendAuth`, `DataHelpers`,
  `Bloom`, `ReplayFilter`.
- **Gate.** `GateRules`, `GateServer`, `GateSafety`, `Strategies`, `StrategyRuns`.

Methods follow the source's loops and in-place updates and are proved equal to specification functions;
the theorems are about those functions, and the step machines use the same functions.

## Modelling decisions

- A hash determines its payload and a signature its key and message (`Tokens`); clients know only tokens
  that were released. The 32-bit mixing of the Bloom filter is an arbitrary function into its range.
- A token's hash passes through the text of an inner hash (`Token.ts:545-551`); that the whole is collision-free is assumed, `Jwt.HashInputIdentifiesPayload` covers what is hashed.
- Amounts, indexes and times are unbounded integers; strings are sequences of Unicode scalar values. A JSON number that is
  not an integer, such as a filter's error rate, is carried by its literal text (section 6 of RFC 8259).
- A wallet save is one step that writes memory as it stands; a save that fails is one that does not happen. Replay-filter
  saves are written in the order they were issued and may fail.
- Two outputs with equal payloads have one hash and are one token: live value is counted over sets of hashes.
- A request reads the clock once while it is validated; a new token's issue time is read per token.
- Hash-time-locks enter as the set of locks a spend may refund now; proof verification in the gate is an arbitrary boolean.
- Key derivation is an arbitrary deterministic function of mnemonic and index.

## Where the code and its documentation part

- `Pocket.ts:69` says the derivation counter is always at least the number of keys. A recovery scan that runs past
  the counter breaks that, and the counter's being above every held index: `KeyOvertaken.CounterOvertaken` gives the run,
  `KeyRules.RecoverKeepsCounter` the exact condition, `KeyRuns.OwnWalletNeverOvertaken` the wallets it cannot happen to.
- `addSingleUseKey` takes a name and a key apart. A key filed under a name that is not its public key is what recovery
  of that name returns, and a backup does not bring it back under that name (`KeyOvertaken.MisfiledKeyReturned`); the exact
  conditions are in `KeyRules.RecoverMatches` and `PocketBackup.KeysComeBack`, and `KeyRuns.OwnWalletFiled` shows the wallets
  that meet them.
- The save that ends a derivation is logged when it fails. A restart then finds the older counter and hands the index
  out again (`KeyOvertaken.LostSaveRepeats`); `KeyRuns.RestartKeeps` says when it does not.
- Coin selection looks at amounts alone, not at time locks or expiry, so a wallet with spendable funds enough can be refused
  by the forge (`LockedCoins.SpendableFundsYetRefused`).
- Reading a token from text stores the header before the payload is parsed: when the payload is not JSON, the header stays
  replaced (`Jwt.Token.FromJWT`).
- `importTokens` counts a token that storing rejects (hash or signature) as imported.
- `restoreKeyMaterial` can lower the counter; only the keys themselves bound it (`PocketKeys.KeyRing.RestoreKeyMaterial`).
- `validateTXInputs` recomputes the header's hash before comparing it, so its hash-mismatch error cannot occur (`ForgeRules.ClaimedHashIgnored`).
- The first non-fungible id is 0, which as a number is refused as a missing parameter (`NonFungibleForge.NumericZeroRefused`).
- When a loaded replay state has an old-format id list, a filter saved beside it is not consulted (`ReplayFilter.ReplayGuard.LoadState`).
- When funds are short, `build` returns no inputs and a change output of the whole amount (`TransactionBuild.Transaction.Build`).

## Model

| member | source | states |
|---|---|---|
| PromiseLock.ChainRefinesQueue | packages/forge/src/ForgeBase.ts:405-415 | every step of the promise chain is a step of a first-come, one-at-a-time queue |
| PromiseLock.RejectionNeverBlocks | packages/forge/src/ForgeBase.ts:405-415 | whether earlier callbacks resolved or rejected, the next caller gets its turn |
| PromiseLock.NothingBlocks | packages/forge/src/ForgeBase.ts:405-415 | a caller can always line up, and a running callback can always settle, either way, after which the lock behind it can be |
| PromiseLock.MutualExclusion | packages/forge/src/ForgeBase.ts:399-415 | in every reachable state at most one callback runs, the earliest unfinished one |
| ForgeRules.ValidateMeans | packages/forge/src/ForgeBase.ts:615-800 | validation passes if and only if the inputs are given, pairwise different tokens, and each is issued here, unspent, not expired, past its time lock, refundable if it has an HTLC, and unlocked by the witness at its own position |
| ForgeRules.LockNeedsItsKey | packages/forge/src/ForgeBase.ts:695-745 | when validation passes, the witness of a locked input is a signature by the lock's own key over that input and every output's recipient, amount and id, or, with the legacy switch on, over the input alone |
| ForgeRules.WitnessBindsOutputs | packages/utils/src/CryptoHelpers.ts:24-61 | with the legacy switch off, two accepted requests that show one witness for one locked token have the same recipients, amounts and ids |
| ForgeRules.RefusalExplained | packages/forge/src/ForgeBase.ts:615-800 | a refusal names a condition that the first input that is not good really fails |
| ForgeRules.FreshInputFindsItself | packages/forge/src/ForgeBase.ts:678-745 | an input not seen before is found by `indexOf` at its own position, so the witness looked up is its own |
| ForgeRules.ClaimedHashIgnored | packages/forge/src/ForgeBase.ts:631-660 | the hash an input's header claims never decides, because it is recomputed first |
| ForgeRules.TransferConserves | packages/forge/src/FungibleForge.ts:187-290 | outputs and change of an accepted transfer are positive and worth exactly its inputs; there is change exactly when inputs exceed outputs |
| ForgeRules.PlanConsumesUnspent | packages/forge/src/FungibleForge.ts:77-172 | a transfer or burn marks pairwise different hashes, all unspent before |
| ForgeRules.TransferPlanSound | packages/forge/src/FungibleForge.ts:131-172 | what a transfer marks are tokens this forge signed, and what it releases is worth exactly those |
| ForgeRules.TransferPlanMeans | packages/forge/src/FungibleForge.ts:131-290 | token i of an accepted transfer is locked to recipient i, with its amount and time lock; what is over is the sender's, with the first input's time lock |
| ForgeRules.BurnMeans | packages/forge/src/ForgeBase.ts:463-512 | a burn passes if and only if the token restores, states its own hash, is signed by its issuer and is not spent; each error has its own cause |
| FungibleForge.FungibleForge.ValidateTXInputs | packages/forge/src/ForgeBase.ts:615-745 | the loop with its growing set of seen hashes gives the verdict characterised by ValidateMeans |
| FungibleForge.FungibleForge.ValidateFungibleTransfer | packages/forge/src/FungibleForge.ts:187-237 | no error if and only if there are inputs, their claimed hashes differ, all amounts are positive, recipients are named, and outputs do not exceed inputs; each error names what is wrong |
| FungibleForge.FungibleForge.PrepareFungibleTransfer | packages/forge/src/FungibleForge.ts:239-290 | one token per recipient in order, locked to it, with its amount and time lock; then the change, locked to the sender, present exactly when inputs exceed outputs |
| FungibleForge.FungibleForge.PublishSpentToken | packages/forge/src/ForgeBase.ts:447-451 | the hash is marked in memory and the state holding it is saved |
| FungibleForge.FungibleForge.TransferToken | packages/forge/src/FungibleForge.ts:77-172 | a refused transfer changes nothing; an accepted one durably marks exactly its inputs and sends, in order, a token locked to each recipient with the amount asked for, and the change to the sender |
| FungibleForge.FungibleForge.HandleBurn | packages/forge/src/ForgeBase.ts:463-512 | a burn marks exactly the burnt token durably, and succeeds only on an unspent token signed by its issuer |
| FungibleForge.FungibleForge.ForgeToken | packages/forge/src/FungibleForge.ts:20-74 | minting succeeds exactly within the cap for a positive amount and a recipient; it raises the counter by the amount and sends one token of that amount locked to the recipient |
| FungibleSafety.ValueNeverExceedsMinted | packages/forge/src/FungibleForge.ts:131-172 | over every run, live value never exceeds what was minted, not even with what the lock holder may still send |
| FungibleSafety.ConsumedOnce | packages/forge/src/ForgeBase.ts:417-461 | over every run, restarts included, no hash is consumed by two successful transfers or burns, and consumption is durable |
| FungibleSafety.DurableBeforeSending | packages/forge/src/FungibleForge.ts:155-166 | an output can be sent only when every input of its transfer is durably spent |
| FungibleSafety.CommitKeeps | packages/forge/src/FungibleForge.ts:155-160 | when all saves of the marks have resolved, every marked hash is in the durable spent-set |
| FungibleSafety.DecideKeeps | packages/forge/src/FungibleForge.ts:143-153 | replacing checked inputs by prepared outputs keeps live value plus what is owed within what was minted |
| FungibleSerial.SerialEquivalence | packages/forge/src/ForgeBase.ts:399-415 | whenever the lock is free, verdicts, spent-set and released tokens are those of serving the requests one by one in arrival order |
| FungibleProgress.AcceptedCanComplete | packages/forge/src/FungibleForge.ts:77-172 | whenever the lock is free and the first in line would be accepted, some run completes its section: hashes durably spent, all outputs sent, lock free again, whatever writes were under way |
| FungibleProgress.ReleasedAreOwn | packages/forge/src/FungibleForge.ts:20-172 | over every run, each token ever released names this forge as issuer and a positive amount |
| FungibleProgress.MintGoesOut | packages/forge/src/FungibleForge.ts:60-73 | a mint can always go out as it was made, raising what was minted by its amount |
| LockedLedger.ChainGuards | packages/forge/src/ForgeBase.ts:399-415 | when the promise chain lets a callback begin, no section runs and that callback's request is the first not served |
| LockedLedger.RunProjects | packages/forge/src/ForgeBase.ts:399-415 | every run behind the promise chain, where a callback begins whenever the chain allows, is a run of the ledger, crashes included |
| LockedLedger.LockedSerialEquivalence | packages/forge/src/ForgeBase.ts:399-415 | behind the promise chain: requests are served in arrival order, with the verdicts, spent-set and released tokens of serving them one by one |
| LockedLedger.LockedSafety | packages/forge/src/ForgeBase.ts:399-461 | behind the promise chain: live value stays within what was minted and no hash is consumed twice |
| LiveValue.TransferLiveValue | packages/forge/src/FungibleForge.ts:131-172 | a transfer never raises live value, and keeps it exactly if and only if its outputs are pairwise different and new |
| NonFungibleForge.ChooseMeans | packages/forge/src/NonFungibleForge.ts:158-185 | a recipient is served if and only if it is complete and some input not yet consumed has its id |
| NonFungibleForge.RefusalMeans | packages/forge/src/NonFungibleForge.ts:163-185 | a recipient is refused for a missing id or name, or because no unconsumed input has the id; else the first such input is used |
| NonFungibleForge.ServingStops | packages/forge/src/NonFungibleForge.ts:163-210 | the loop ends early only at a recipient that is refused, for the reason reported |
| NonFungibleForge.ReissueMeans | packages/forge/src/NonFungibleForge.ts:187-202 | the new token is locked to the recipient and keeps time lock, data and a numeric id; an id that is the text of a number becomes that number |
| NonFungibleForge.ServedUseIsGood | packages/forge/src/NonFungibleForge.ts:158-210 | recipients served use pairwise different inputs, each with the id asked for |
| NonFungibleForge.ServedInFull | packages/forge/src/NonFungibleForge.ts:158-210 | with distinct input ids, all recipients are served if and only if the ids asked for are given, present and not repeated |
| NonFungibleForge.NumericZeroRefused | packages/forge/src/NonFungibleForge.ts:160-170 | the numeric id 0 is refused as missing, whatever the inputs |
| NonFungibleForge.NonFungibleForge.ForgeToken | packages/forge/src/NonFungibleForge.ts:25-78 | a mint takes exactly the next id, moves the counter by one, saves it and sends exactly one token with that id, locked to the recipient; a refused one changes nothing |
| NonFungibleForge.NonFungibleForge.HandleNonFungibleTransfer | packages/forge/src/NonFungibleForge.ts:146-212 | token k sent is locked to recipient k and reissued from the input chosen for it; exactly the chosen inputs are durably spent; recipients before a failing one stay served |
| NftSafety.OneLiveTokenPerId | packages/forge/src/NonFungibleForge.ts:158-210 | over every run with sequential ids, two live tokens never share an id, and every live token has an issued one |
| NftSafety.IdsNeverReissued | packages/forge/src/NonFungibleForge.ts:55-75 | over every run, overlapping mints and crashes included, no id is released twice and the durable counter is above all of them |
| NftSafety.SendReleases | packages/forge/src/NonFungibleForge.ts:186-210 | sending the reissued token of a durably marked input leaves one live token per id |
| NftSafety.ServedIsPassedOn | packages/forge/src/NonFungibleForge.ts:173-206 | in the ledger, a served recipient's output is its own, for the input with the id it asked for, now marked |
| NftSafety.MintedFor | packages/forge/src/NonFungibleForge.ts:55-75 | in the ledger, a mint is locked to its recipient and has the next id |
| NftProgress.TransferCanComplete | packages/forge/src/NonFungibleForge.ts:146-212 | whenever the lock is free and the first in line has good inputs, some run completes its section and does what the handler does: the same recipients served with the same tokens, their inputs spent in memory and on disk |
| NftProgress.MintCanComplete | packages/forge/src/NonFungibleForge.ts:55-78 | a mint can always go out as it was made, with its id on disk by then |
| NftProgress.BurnCanComplete | packages/forge/src/ForgeBase.ts:463-512 | a burn that passes its checks can be carried through, its hash spent in memory and on disk |
| CoinSelection.Search.Explore | packages/pocket/src/Transaction.ts:63-80 | a branch leaves the shared array as it found it, keeps the best reachable, and beats every choice that continues its prefix, despite the cut at the first prefix over the target |
| CoinSelection.Greedy | packages/pocket/src/Transaction.ts:56-88 | with coins enough, counts within the holdings whose sum is the least that reaches the target, and the overshoot; short of coins, the target and nothing selected |
| CoinSelection.PrefixIsCheapest | packages/pocket/src/Transaction.ts:64-70 | a prefix with nothing after it is the cheapest of its extensions: pruning loses nothing |
| CoinCounts.HoldingsAreFunds | packages/pocket/src/Transaction.ts:109-117 | the coins read from the index are worth exactly what is held |
| CoinCounts.OptimalOverChoices | packages/pocket/src/Transaction.ts:56-88 | optimal counts are optimal over all choices of held tokens |
| TransactionBuild.Transaction.Build | packages/pocket/src/Transaction.ts:97-146 | the three refusals exactly; funds enough: distinct held inputs, no choice of tokens being cheaper, the outputs asked for first and, exactly for an overshoot, one more to the change key of exactly what is over; funds short: no inputs |
| TransactionBuild.Transaction.Gather | packages/pocket/src/Transaction.ts:118-135 | the JWTs collected are those of the first hashes of each bucket used; an error only when a bucket or a JWT is missing |
| TransactionBuild.SelectionIsSound | packages/pocket/src/Transaction.ts:114-135 | a selection from agreeing indexes names pairwise different held tokens worth exactly its sum |
| TransactionBuild.ChangeBalances | packages/pocket/src/Transaction.ts:136-144 | with the change, outputs are worth exactly what the inputs are; one more output exactly when something is over |
| TransactionBuild.Transaction.TransferTAT | packages/pocket/src/Transaction.ts:39-52 | an access token's transfer has as its one input the held token with that id |
| WalletIndexes.IndexMeans | packages/pocket/src/Pocket.ts:519-553 | a denomination is listed exactly when such tokens are held, with their hashes in order |
| WalletIndexes.BalanceMeans | packages/pocket/src/Pocket.ts:519-553 | a token set has a balance exactly when it is held, and it is the sum of the amounts |
| WalletIndexes.TatMeans | packages/pocket/src/Pocket.ts:536-540 | an id is listed exactly when held, and points to a token with that id |
| PocketTokens.TokenStore.ReindexIssuerState | packages/pocket/src/Pocket.ts:508-577 | everything derived for the issuer is rebuilt from its stored tokens alone; other issuers are untouched |
| PocketTokens.TokenStore.StoreToken | packages/pocket/src/Pocket.ts:451-485 | a token that states its own hash, is signed by its issuer and is not held is filed under both; every other place is as it was; the indexes agree afterwards |
| PocketTokens.TokenStore.DeleteToken | packages/pocket/src/Pocket.ts:1308-1323 | exactly the entry under the token's issuer and hash goes, every other place is as it was; the indexes agree afterwards |
| PocketTokens.TokenStore.RebuildIndexesAndBalances | packages/pocket/src/Pocket.ts:491-502 | every issuer any map mentions is rebuilt from the tokens as they were |
| PocketTokens.TokenStore.Load | packages/pocket/src/Pocket.ts:244-261 | the saved indexes are ignored; the rebuilt ones agree whenever the saved tokens state different hashes, and only if no two fungible ones state the same |
| PocketTokens.TokenStore.ImportTokens | packages/pocket/src/Pocket.ts:829-850 | the tokens are stored one by one, the indexes agree, and the counts are those of malformed, already held and other tokens |
| PocketTokens.TokenStore.ExportTokens | packages/pocket/src/Pocket.ts:792-798 | importing the exported list into an empty wallet gives back exactly the token map |
| PocketTokens.BalanceAgrees | packages/pocket/src/Pocket.ts:508-577 | in an agreeing wallet each balance is the sum of the held amounts of its set |
| PocketTokens.BucketAgrees | packages/pocket/src/Pocket.ts:508-577 | each denomination lists exactly the held hashes of that amount, each once, and no empty one is listed |
| PocketTokens.TatAgrees | packages/pocket/src/Pocket.ts:508-577 | each id points to a token held under that hash and with that id; every held id is listed |
| PocketTokens.NothingHeldNothingListed | packages/pocket/src/Pocket.ts:508-516 | an issuer of whom nothing is held appears in none of the maps |
| PocketTokens.StoreKeepsGenuine | packages/pocket/src/Pocket.ts:451-480 | storing keeps every held token verified: hash and issuer signature |
| PocketTokens.StoreMeans | packages/pocket/src/Pocket.ts:451-480 | what is found under any issuer and hash after storing, and each outcome's exact cause |
| PocketTokens.DeleteMeans | packages/pocket/src/Pocket.ts:1308-1323 | what is found under any issuer and hash after deleting: nothing under the one named, all else as before |
| PocketTokens.DeleteKeepsGenuine | packages/pocket/src/Pocket.ts:1308-1323 | so does deleting |
| PocketTokens.CanonicalKeeps | packages/pocket/src/Pocket.ts:519-534 | rekeying by the stated hash loses nothing when the hashes differ |
| KeyPaths.PathRoundTrip | packages/pocket/src/Pocket.ts:279-289 | an index is read back from its path, and a negative one never |
| KeyPaths.ParseMeans | packages/pocket/src/Pocket.ts:283-289 | any path that ends in a slash and digits tells the number they write |
| PocketKeys.KeyRing.AddSingleUseKey | packages/pocket/src/Pocket.ts:417-436 | the key is filed last under the name given, unless the name is held; the counter ends above every index and at least at the number of keys, never lower |
| PocketKeys.KeyRing.RemoveSingleUseKey | packages/pocket/src/Pocket.ts:438-446 | exactly the entry of that name goes; every other entry and the counter stay |
| PocketKeys.KeyRing.BeginDerive | packages/pocket/src/Pocket.ts:384-392 | the index is taken and the counter advanced before anything is awaited; the key is the pair derived at that index, with its path |
| PocketKeys.KeyRing.FindOrRecover | packages/pocket/src/Pocket.ts:325-382 | what is found and filed is the outcome characterised by RecoverMatches and RecoverFinds; nothing else changes |
| PocketKeys.KeyRing.RestoreKeyMaterial | packages/pocket/src/Pocket.ts:856-919 | snapshot keys are merged over held ones; the counter ends above every index and at least at the number of keys |
| PocketKeys.KeyRing.Load | packages/pocket/src/Pocket.ts:253-260 | a missing or low counter is repaired, a higher one kept |
| KeyRules.RecoverMatches | packages/pocket/src/Pocket.ts:325-382 | recovery returns the key asked for if and only if no entry with a secret under that name is another key |
| KeyRules.RecoverKeepsFiled | packages/pocket/src/Pocket.ts:325-382 | where every entry is filed under its own public key, recovery returns only the key asked for and files it so |
| KeyRules.RecoverFinds | packages/pocket/src/Pocket.ts:363-382 | recovery finds every key derived from the current mnemonic below the counter, held or not; it throws exactly on an entry without secret and with a negative index |
| KeyRules.RecoveredSecret | packages/pocket/src/Pocket.ts:325-382 | a recovered key has the held secret, or the pair derived at the index it states, its path, and the held entry's other fields |
| KeyRules.CompletedMeans | packages/pocket/src/Pocket.ts:418-427 | index and path are filled in from each other, only where missing, and nothing else changes |
| KeyRules.RecoverKeepsCounter | packages/pocket/src/Pocket.ts:363-382 | the counter stays above every held index if and only if the scan does not hit at or beyond the counter |
| KeyRules.IndexedNeverHitsAbove | packages/pocket/src/Pocket.ts:363-364 | with distinct known indexes below the counter there are no more keys than the counter counts, so the scan ends at the counter |
| KeyRules.RestoredIsAbove | packages/pocket/src/Pocket.ts:906-911 | after a restore the counter is above every held index |
| KeyRules.RestoredIsLeast | packages/pocket/src/Pocket.ts:906-911 | and it is the least counter that is at least the snapshot's and covers held and restored keys |
| KeyRules.MergedMeans | packages/pocket/src/Pocket.ts:876-904 | merging a snapshot key, held or not: its fields are found under its public key, relatedTxIds stay, other entries are untouched |
| KeyRuns.NoIndexTwice | packages/pocket/src/Pocket.ts:384-415 | between restores no index is handed out twice, under overlapping derivations, deletions, failing saves and restarts that find a counter above what was handed out |
| KeyRuns.RestartKeeps | packages/pocket/src/Pocket.ts:244-261 | a restart keeps what was handed out below the counter if and only if the last landed save covers it |
| KeyRuns.SavedFinishesCover | packages/pocket/src/Pocket.ts:384-415 | when the save that ends every derivation lands, every restart finds a counter above all handed-out indexes |
| KeyRuns.CounterNeverDrops | packages/pocket/src/Pocket.ts:384-446 | between restores and restarts the counter never goes down |
| KeyRuns.CounterStep | packages/pocket/src/Pocket.ts:310-446 | one step keeps the counter above every held index if and only if it is not a recovery that hits at or beyond it |
| KeyRuns.Perform | packages/pocket/src/Pocket.ts:310-446 | each step of a run is what the key ring's own method does to mnemonic, keys and counter |
| KeyRuns.OwnWalletFiled | packages/pocket/src/Pocket.ts:310-446 | in every reachable state of a wallet that only files keys it derived, each entry stands under its own public key, has index and path, and no two share an index |
| KeyRuns.OwnWalletNeverOvertaken | packages/pocket/src/Pocket.ts:384-446 | a wallet that only files keys it derived keeps the counter above every held index in every reachable state |
| KeyOvertaken.CounterOvertaken | packages/pocket/src/Pocket.ts:363-382 | a run of one addition and two recoveries after which a held key has the counter's own index |
| KeyOvertaken.MisfiledKeyReturned | packages/pocket/src/Pocket.ts:417-436 | after adding a key under another name, recovery of that name returns the other key |
| KeyOvertaken.LostSaveRepeats | packages/pocket/src/Pocket.ts:384-415 | an index handed out whose save is lost is handed out again after a restart |
| PocketBackup.BackupAndRestore | packages/pocket/src/Pocket.ts:776-919 | a backup restored into an empty wallet gives the same tokens, indexes and balances; the same keys up to relatedTxIds if and only if they are filed under their own names and normal; the same counter if and only if it covers them |
| PocketBackup.KeysComeBack | packages/pocket/src/Pocket.ts:876-904 | keys come back up to relatedTxIds if and only if each is filed under its own public key and has index and path, or neither tells an index |
| PocketBackup.FiledKeysAreNormal | packages/pocket/src/Pocket.ts:279-446 | keys filed by derivation, recovery or restore are normal, and added ones are unless their index is negative |
| PocketBackup.CounterComesBack | packages/pocket/src/Pocket.ts:906-911 | the counter comes back if and only if it was at least the number of public keys held and above their indexes |
| PocketBackup.OwnWalletComesBack | packages/pocket/src/Pocket.ts:776-919 | in every reachable state of a wallet that only files keys it derived, keys and counter come back |
| PocketBackup.TokensDetermineState | packages/pocket/src/Pocket.ts:508-577 | wallets in agreement with the same tokens have the same indexes and balances |
| WalletToForge.Sender.BuildWitnessData | packages/pocket/src/Pocket.ts:1019-1064 | witness i is the signature of input i's lock over its hash and the outputs; it fails only when some key cannot be found |
| WalletToForge.Sender.PrepareTx | packages/pocket/src/Pocket.ts:1183-1211 | the request carries the inputs, the final outputs, and, if any input is locked, for each locked one a signature by its lock over its hash and every output |
| WalletToForge.WitnessedInputsPass | packages/forge/src/ForgeBase.ts:631-745 | genuine held inputs with proper witnesses pass input validation if and only if each is unspent, unexpired, past its time lock and free of an HTLC lock |
| WalletToForge.HonestTransferAccepted | packages/forge/src/FungibleForge.ts:187-237 | a balanced transaction of an honest wallet is accepted if and only if its inputs are still spendable, and then with no change of the forge's own |
| WalletToForge.SelectedPlan | packages/pocket/src/Transaction.ts:97-146 | for what `build` selects, the forge has a plan if and only if there is a recipient, a positive amount, funds enough, and the selected inputs are spendable; short funds give none |
| WalletToForge.Transfer | packages/pocket/src/Pocket.ts:1074-1176 | a whole transfer: accepted exactly under those conditions; then the forge marks exactly the selected inputs and sends the recipient a token of the amount asked for and the wallet's fresh key what is over; else it is left as it was |
| WalletToForge.SpendableFundsCarry | packages/pocket/src/Pocket.ts:1074-1176 | when everything held is spendable, any transfer within the funds is carried out |
| LockedCoins.SpendableFundsYetRefused | packages/pocket/src/Transaction.ts:56-88 | coins of 3 free and 2 locked, amount 2: the locked coin is selected and the forge refuses, though the free one would do |
| Bloom.BloomFilter.SetBit | packages/utils/src/BloomFilter.ts:170-175 | exactly one bit is added |
| Bloom.BloomFilter.GetBit | packages/utils/src/BloomFilter.ts:177-181 | the bit read is the one at that position |
| Bloom.BloomFilter.Add | packages/utils/src/BloomFilter.ts:184-191 | exactly the item's positions are added, nothing is cleared |
| Bloom.BloomFilter.Contains | packages/utils/src/BloomFilter.ts:193-201 | true if and only if all of the item's positions are set |
| Bloom.BloomFilter.Union | packages/utils/src/BloomFilter.ts:298-321 | the bits of a union are exactly those of both; different parameters are refused |
| Bloom.BloomFilter.Serialize | packages/utils/src/BloomFilter.ts:245-265 | reading the text gives back the filter's size, seeds, counters, error rate and bits |
| Bloom.ImageRoundTrip | packages/utils/src/BloomFilter.ts:245-296 | deserialising what was serialised restores size, seeds, counters, error rate and every byte |
| ReplayFilter.ReplayGuard.IsEventProcessed | packages/nwpc/src/NWPCBase.ts:295-301 | an event is reported exactly when the recent cache or the filter has it |
| ReplayFilter.ReplayGuard.MarkEventProcessed | packages/nwpc/src/NWPCBase.ts:303-308 | a marked event is reported, and no filter bit is lost by an eviction |
| ReplayFilter.TouchMeans | packages/nwpc/src/NWPCBase.ts:155-156 | the recent cache holds at most 1000 ids, the marked one last; only the oldest is lost, and only when there is no room |
| ReplayFilter.ReplayGuard.SaveState | packages/nwpc/src/NWPCBase.ts:416-443 | the stored text is that of the state with the filter's current image |
| ReplayFilter.ReplayGuard.LoadState | packages/nwpc/src/NWPCBase.ts:445-467 | a readable state restores its filter and is returned as stored; an old-format one is migrated and the filter beside it dropped |
| ReplayFilter.ReplayGuard.Migrate | packages/nwpc/src/NWPCBase.ts:449-459 | the ids join the filter; the state returned and stored has the filter's image, no id list, and every other field as it was |
| ReplayFilter.SaveLoadRestoresImage | packages/nwpc/src/NWPCBase.ts:391-467 | whatever else the state holds, saving and loading restores the filter's image |
| ReplayFilter.NeverForgets | packages/nwpc/src/NWPCBase.ts:117-135 | no false negatives over any run with overlapping and failing saves: marked in this life, or before a save that was the last to land before the crash, means reported |
| ReplayFilter.SavedMarkSurvives | packages/forge/src/ForgeBase.ts:392-397 | a mark, then a save issued and, behind older ones that land or fail, landed, then anything, crashes and lost saves included: still reported |
| Json.RoundTrip | packages/utils/src/CryptoHelpers.ts:40-61 | parsing undoes serialising for every value, fractions and exponents included, with string escapes as in section 7 of RFC 8259 |
| Json.NothingMayFollow | packages/utils/src/CryptoHelpers.ts:45-58 | text that goes on with punctuation after a value is refused |
| Utf8.RoundTrip | packages/utils/src/CryptoHelpers.ts:63-70 | decoding undoes encoding for every text |
| Utf8.DecodedIsEncoded | packages/token/src/Token.ts:230-245 | bytes that decode are exactly the encoding of what they decode to |
| Base64.RoundTrip | packages/token/src/Token.ts:275-286 | decoding undoes encoding for every byte string (section 4 of RFC 4648) |
| Base64.DecodedText | packages/token/src/Token.ts:230-245 | only whole groups of symbols decode, padded at the very end or not at all |
| Base64.PaddingRoundTrip | packages/utils/src/CryptoHelpers.ts:71-73 | padding stripped and recomputed to the next multiple of four restores the text |
| Base64.PaddingsAgree | packages/token/src/Token.ts:230-245 | the reader's own padding and the shared helper give the same text at every length |
| SpendAuth.MessageUnambiguous | packages/utils/src/CryptoHelpers.ts:40-61 | two messages are equal if and only if the hashes are, the outputs are equally many, and position by position recipient, amount and id are the same, absent counting as null |
| SpendAuth.MessageThrows | packages/utils/src/CryptoHelpers.ts:44-56 | there is no message if and only if some output is text that does not parse or parses to null |
| SpendAuth.OrderAndExtrasIrrelevant | packages/utils/src/CryptoHelpers.ts:40-61 | field order and other fields of an output do not change the message |
| SpendAuth.TextOutsSameMessage | packages/utils/src/CryptoHelpers.ts:45-58 | outputs given as JSON text give the same message as objects |
| Jwt.Token.ToJWT | packages/token/src/Token.ts:204-208 | the text is header, payload and signature joined by dots, and the signature is kept |
| Jwt.Token.FromJWT | packages/token/src/Token.ts:213-270 | the three parts are restored exactly when the text has them; on failure payload and signature stay, and the header is replaced exactly when both parts decode to bytes and the first holds JSON |
| Jwt.TokenTextRoundTrip | packages/token/src/Token.ts:204-286 | header, payload and signature come back if and only if the signature is non-empty and dot-free (section 7.1 of RFC 7515) |
| Jwt.PartsAreBare | packages/token/src/Token.ts:275-286 | header and payload parts are base64 symbols without padding, and decode to the JSON text |
| Jwt.HashInputIdentifiesPayload | packages/token/src/Token.ts:545-556 | the text that is hashed determines the payload |
| DataHelpers.DataRoundTrip | packages/utils/src/DataHelpers.ts:1-23 | a value comes back from its text if and only if no plain object in it carries the tag of a Set or a Map |
| DataHelpers.BackIffClashFree | packages/utils/src/DataHelpers.ts:1-23 | untagging bottom-up undoes tagging top-down exactly for values without such a clash, with order and distinct keys kept |
| DataHelpers.AddAllKeeps | packages/utils/src/DataHelpers.ts:12-23 | a Set read back keeps every element, and primitive ones once |
| GateServer.GateServer.HandleRequestAccess | packages/gate/src/GateServerSpec.ts:151-201 | a challenge is recorded under its nonce with its expiry, nothing else changes; an answer is given only when it is saved |
| GateServer.GateServer.HandleProof | packages/gate/src/GateServerSpec.ts:206-310 | access is granted if and only if the parameters are readable, the nonce was known, unused and not past its expiry, the proof is valid and both saves succeed; exactly one session is added when the proof is valid and the mark saved; an ignored proof changes nothing |
| GateServer.GateServer.VerifySession | packages/gate/src/GateServerSpec.ts:598-608 | a session counts until its end; one past it is dropped |
| GateServer.GateServer.CleanupExpired | packages/gate/src/GateServerSpec.ts:617-635 | exactly the challenges an hour past expiry, their nonces, and the sessions past their end go |
| GateSafety.OneSessionPerNonce | packages/gate/src/GateServerSpec.ts:206-310 | over any run with fresh nonces, sessions added or access granted, a nonce brings about at most one, whatever the clock says, saves that fail and restarts included |
| GateSafety.ChallengeRedeemable | packages/gate/src/GateServerSpec.ts:151-310 | an answered challenge's first valid proof in time is granted its resource, whatever else happened, restarts included, if the gate can save |
| GateSafety.SweepingIsInvisible | packages/gate/src/GateServerSpec.ts:617-635 | with a monotone clock and fresh nonces, cleanups inserted anywhere change no answer of the run |
| Strategies.Validate | packages/gate/src/ValidationStrategies.ts:69-120 | a tree allows a use exactly when every strategy object in it does |
| Strategies.AllowsMeans | packages/gate/src/ValidationStrategies.ts:58-126 | single use: never used; maximum: used fewer times; window: from its start through its end, 0 being no bound |
| Strategies.Consume | packages/gate/src/ValidationStrategies.ts:45-54 | every object is consumed once per occurrence in the tree, shared ones several times |
| Strategies.Gate.GrantAccess | packages/gate/src/GateBase.ts:308-344 | granted exactly when everything allows it and the state is saved; refused calls consume nothing |
| StrategyRuns.UsesCount | packages/gate/src/ValidationStrategies.ts:45-54 | over any run each object's uses are its occurrences times the consumptions; unshared and with saves that succeed, exactly the grants |
| StrategyRuns.GrantedWhen | packages/gate/src/GateBase.ts:308-344 | which call is granted follows from the history: windows open and, for every limited object, occurrences times consumptions below its limit |
| StrategyRuns.ConsumptionsBelowLimit | packages/gate/src/ValidationStrategies.ts:69-89 | occurrences times all consumptions but the last stay below every limit in the tree |
| StrategyRuns.GrantsNeverExceedLimit | packages/gate/src/ValidationStrategies.ts:69-126 | over any run, grants of a token never exceed the least limit in the tree, however nested or shared |

## Left out

- Transport, relays, subscriptions, keepalive and message wrapping: network I/O over libraries that are not part of this model.
- SHA-256, Schnorr, BIP-32/39: symbolic hashes and signatures, an arbitrary derivation function (no limit on the size of an index).
- Supply cap across overlapping mints and restarts: the cap is in `FungibleForge.FungibleForge.ForgeToken` for one mint at a time; the ledger bounds value by what was minted.
- The `"unique"` id strategy: transfer coerces string ids to numbers, so identity is not claimed for it.
- HTLC phases: a lock is refundable now or not.
- Overlapping wallet and gate operations other than key derivation: each runs to its end; so does a cleanup of the gate.
- Handling an event at most once: the check and the mark are separated by the awaited handler.
- Bloom sizing and how often the filter reports a new event as seen; only the absence of false negatives is shown.
- Leftover bits in base64 text are not checked, as in the source.
- JavaScript's reordering of integer-like object keys; an array with fewer than two elements offered as a Map entry.
- A wallet's two halves, tokens and keys, are two classes; storage of the wallet is reduced to what each operation's final save leaves (`KeyRuns`).
- Merging a snapshot key over a held one treats an absent field as undefined, as the exported object in memory has it; a snapshot that went through JSON text keeps the held field instead.
- `used`, `createdAt` and `relatedTxIds` of keys are carried but never decide anything.
- Usage records' last use and metadata, recorded attempts, blocked tokens and access policies of the gate: one boolean for all checks but the strategy.
- One clock reading serves a whole strategy tree in a call.
- Messages that carry no token: spent notices to the sender, posts to the feed, error codes beyond their kind.
- The wording of a gate denial: it may differ with what is still remembered.
- `getUsage`, `canUse` and `reset` of strategies, introspection, booth orders, payment adapters, storage backends.
- FungibleSafety.ValueNeverExceedsMinted: a section breaks off only before any mark or after all of them, because marks are made without an `await` between them.
- Json.RoundTrip: text is Unicode scalar values, so lone surrogates and escapes of surrogate pairs are not values here; a number that is not an integer keeps its literal text instead of being rounded to the nearest double.
- Jwt.Token.FromJWT: bytes that are not UTF-8 fail here, where the source puts replacement characters.
- NonFungibleForge.NonFungibleForge.ForgeToken: says what holds at the end of a mint that runs alone; that the save lands before the send, under overlapping mints and crashes, is in `NftSafety.IdsNeverReissued`.
- PocketTokens.TokenStore.Load: with an access token and another token stating one hash, or tokens without amount, nothing is claimed; the wallet itself never writes two entries stating one hash.
- ReplayFilter.ReplayGuard.LoadState: an image whose byte count does not fit its size is refused, where the source would read past its bytes as unset.
