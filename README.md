# Transaction admission core, modelled in Dafny

This project models the part of a crypto-exchange back end that decides
whether a transfer between two wallets is approved or rejected.

- **Decision workflow** (`src/services/decision.ts`). A state machine moves
  one transfer's context through these stages:
  - start routing;
  - an external risk lookup for transfers that touch an external wallet;
  - a reload of the stored risk scores;
  - a combined-risk policy;
  - verdict routing;
  - the terminal states `approve` and `reject`. `reject` applies a penalty to
    the internal parties' risk scores.
- **Admission gate** (`src/services/TransactionManager.ts`). A set of wallet
  addresses in use makes runs that share an address wait for each other.

Files:

- `wrappers.dfy`: the `Option` type.
- `types.dfy`: `Wallet`, `Transaction`, `Context` and the collaborators'
  `Scores`, shaped after `src/types.ts`. An optional TypeScript field becomes
  an `Option`. `blocked` becomes a `bool` that defaults to `false`, because
  only its truthiness is ever read.
- `decision.dfy`: the guards, one function per stage action, the states, the
  guarded transition lists and `Select`. `Select` takes the first candidate
  whose guard holds, or stays put when none does. It also holds `Step`, which
  is fed the collaborators' answers, and `Run` / `Decide`, which run the
  machine to a final state.
- `decision_properties.dfy`: properties of whole runs, worked scenarios, and
  the two readings of `totalRisk`.
- `transaction_manager.dfy`: the `TransactionManager` class. It has a
  `set<string>` lock field. A ghost map records which admitted run holds which
  addresses. Its invariant `Valid()` says that no address is held by two runs.

The five configuration constants live in a file that is not part of this
model. They are the fields of `Decision.Config`. `ValidConfig` asks them to be
non-negative, and only the lemma that needs that uses it. The external lookup
and the store load are not called. Their answers arrive in `Decision.Env`, and
`None` there means the call failed.

Where the code and the behaviour one would expect of it disagree, the model
follows the code:

- The policy's blocked test reads only the receiver's flag.
- A rejection never reaches `blockWallet`.
- The block-sender path ends in `reject` without setting the transaction's
  outcome flags.
- A failed collaborator call enters `reject`, and `reject` applies the penalty
  on entry.

## Model

| member | source | states |
|---|---|---|
| `Decision.OneIsBlocked` | src/services/decision.ts:12-14 | the policy's blocked test is true iff the receiver is blocked; the sender's flag is never consulted |
| `Decision.OneIsBlockedIgnoresSender` | src/services/decision.ts:12-14 | changing the sender's blocked flag never changes the blocked test |
| `Decision.Holds` | src/services/decision.ts:23-148 | the unguarded candidate always holds; `isExternal` holds iff either party is external; the blocked guard holds iff the receiver is blocked; the block-limit guard holds iff some party's score reaches `BLOCK_LIMIT` inclusively, and never when both scores are absent |
| `Decision.NewTransactionCandidates` | src/services/decision.ts:21-35 | three candidates in order: external, receiver blocked, then an unguarded fallback; none targets idle or a final state |
| `Decision.ApprovalCandidates` | src/services/decision.ts:139-151 | the first candidate of each verdict event is unguarded; `APPROVE_TRANSACTION` only targets approve; `REJECT_TRANSACTION` targets reject first and lists the block-limit candidate for blockWallet last |
| `Decision.VerdictEvent` | src/services/decision.ts:130-133 | the policy sends `REJECT_TRANSACTION` iff `rejected` is truthy and `APPROVE_TRANSACTION` otherwise |
| `Decision.Select` | src/services/decision.ts:22-36 | a guarded transition list takes the target of the first candidate whose guard holds, and stays in the current state when no guard holds |
| `Decision.StartTarget` | src/services/decision.ts:22-36 | `NEW_TRANSACTION` goes to the external lookup iff either wallet is external, whatever the blocked flags say; otherwise to blockSender iff the receiver is blocked; otherwise to updateRiskScores |
| `Decision.ApprovalTarget` | src/services/decision.ts:130-153 | the verdict routes to approve iff `rejected` is not truthy and to reject iff it is; the block-limit candidate is never taken |
| `Decision.BlockSenderAction` | src/services/decision.ts:39-55 | the sender becomes blocked; its address, score and custody, the receiver, the transaction and `totalRisk` are unchanged |
| `Decision.BlockWalletAction` | src/services/decision.ts:189-205 | the spread copy has the same effect: the sender is blocked and nothing else changes |
| `Decision.CaptureExternal` | src/services/decision.ts:61-67 | intended reading: both looked-up scores are stored, `totalRisk` becomes their sum, nothing else changes |
| `Decision.CaptureExternalAsWritten` | src/services/decision.ts:61-67 | as written: both looked-up scores are stored and `totalRisk` keeps its previous value |
| `Decision.CrossAssign` | src/services/decision.ts:77-88 | with exactly one external party, only the internal party's score becomes `totalRisk`. Otherwise both scores are unchanged. A `totalRisk` at or above the internal risk limit (inclusive) marks the transaction rejected with "Internal risk limit exceeded"; below it the transaction is unchanged |
| `Decision.LoadScores` | src/services/decision.ts:99-104 | both scores are overwritten with the stored values; nothing else changes |
| `Decision.Policy` | src/services/decision.ts:113-129 | afterwards both flags are set and `approved == !rejected`. `rejected` holds iff any of these hold: the transaction was already rejected, the score sum is at or above the internal-to-internal limit, or the receiver is blocked. The reason is set exactly in the last two cases. The wallets are unchanged |
| `Decision.AddPenalty` | src/services/decision.ts:160 | `s + s*p` is the score scaled by `1 + p`; an absent score stays absent |
| `Decision.AddInternalPenalty` | src/services/decision.ts:167-168 | `s*q + s` is the score scaled by `1 + q`; an absent score stays absent |
| `Decision.Penalty` | src/services/decision.ts:157-171 | with one external party, only the internal party's score is scaled by `1 + REJECTION_PENALTY`. With two internal parties, both are scaled by `1 + INTERNAL_TO_INTERNAL_REJECTION_PENALTY`. With two external parties, nothing changes. An external party's score, all blocked flags and the transaction are never touched |
| `Decision.PenaltyNeverLowers` | src/services/decision.ts:157-171 | with non-negative scores and penalties, no score decreases and no score appears or disappears |
| `Decision.Enter` | src/services/decision.ts:39-196 | entering a state keeps that state and both parties; blockSender and blockWallet block the sender and change nothing else; reject applies the rejection penalty and leaves the transaction and `totalRisk` alone; every other state leaves the context unchanged |
| `Decision.Step` | src/services/decision.ts:19-207 | every transition strictly lowers the distance to a final state, never enters idle or blockWallet, and keeps both parties' addresses and custody; blockSender and blockWallet always move on to reject |
| `Decision.Run` | src/services/decision.ts:19-207 | every run ends in a final state after at most rank + 1 visited states, starting where it was asked to and never passing through idle again or blockWallet |
| `Decision.Decide` | src/services/decision.ts:16-19 | a run from idle ends in approve or reject, never visits blockWallet, and keeps both parties |
| `DecisionProperties.RunFromCheck` | src/services/decision.ts:138-171 | from checkTransactionApproval, a truthy `rejected` ends in reject with the penalty applied once; anything else ends in approve with the context unchanged |
| `DecisionProperties.RunFromUpdate` | src/services/decision.ts:94-137 | a failed store load goes straight to reject; a successful one runs the policy on the loaded scores and continues at checkTransactionApproval |
| `DecisionProperties.RunFromLookup` | src/services/decision.ts:56-93 | a failed lookup goes straight to reject; a successful one stores the scores, cross-assigns and continues at updateRiskScores |
| `DecisionProperties.DecideExternal` | src/services/decision.ts:22-28 | a run from idle with an external party continues at the external lookup |
| `DecisionProperties.DecideInternal` | src/services/decision.ts:29-35 | a run from idle of an internal transfer to an unblocked receiver continues at the store load |
| `DecisionProperties.PolicyPath` | src/services/decision.ts:94-171 | a run whose collaborators answer visits checkTransactionApproval. It ends in reject with the penalty applied once when the policy rejected, and in approve with the policy's context otherwise |
| `DecisionProperties.StoreFailsPath` | src/services/decision.ts:94-108 | a failed store load ends in reject, with the penalty applied to what the earlier stages left, without reaching the policy |
| `DecisionProperties.DecidePaths` | src/services/decision.ts:20-207 | a run takes one of four paths: failed lookup, block-sender, failed store load, or the policy path. The policy path visits checkTransactionApproval and ends as the policy decided, with the penalty only on rejection |
| `DecisionProperties.ApproveIffAdmissible` | src/services/decision.ts:113-153 | a transfer is approved iff it is admissible. Admissible means: the receiver is not blocked and the transaction is not already rejected; an external party's lookup succeeded below the internal risk limit; and the stored scores loaded and sum below the internal-to-internal limit |
| `DecisionProperties.ApprovedContext` | src/services/decision.ts:61-188 | an approved run ends with the stored scores on both parties, whose blocked flags and custody are as they came in; the transaction as it came in except `rejected = false` and `approved = true`; and `totalRisk` equal to the looked-up sum when either party is external (whose lookup must then have succeeded), as it came in otherwise |
| `DecisionProperties.VerdictFlags` | src/services/decision.ts:113-135 | a run through the policy ends with exactly one verdict flag, matching its final state; every other run ends in reject with `approved` as it came in |
| `DecisionProperties.BlockedFlags` | src/services/decision.ts:39-55 | the sender ends up blocked iff it already was, or both parties are internal and the receiver is blocked; the receiver's flag never changes |
| `DecisionProperties.BlockSenderPath` | src/services/decision.ts:29-55 | an internal transfer to a blocked receiver is rejected, the sender is blocked, both scores are scaled once by `1 + INTERNAL_TO_INTERNAL_REJECTION_PENALTY`, and the outcome fields are left as they came in |
| `DecisionProperties.RunFromBlocking` | src/services/decision.ts:189-205 | a run from blockSender or blockWallet visits that state and reject only, and ends with the rejection penalty applied to the context it started from |
| `DecisionProperties.InternalRejectPenalizedOnce` | src/services/decision.ts:166-169 | a rejected internal transfer that reached the policy ends with the stored scores scaled exactly once by the internal penalty factor, and its verdict flags say rejected |
| `DecisionProperties.ScenarioApprove` | src/services/decision.ts:113-128 | scores 10 and 20 against a limit of 300 are approved and keep the stored scores |
| `DecisionProperties.ScenarioExternalSender` | src/services/decision.ts:78-84 | an external sender with lookup 80 + 40 briefly gives the internal receiver 120, but the final scores are the stored ones |
| `DecisionProperties.ScenarioOverBlockLimit` | src/services/decision.ts:143-151 | stored scores over the block limit are rejected without blocking the sender |
| `DecisionProperties.AsWrittenLookupIgnoresLimit` | src/services/decision.ts:61-88 | as written, with no caller-supplied `totalRisk`, the internal party's score is wiped and the transaction is never marked rejected by the lookup stage |
| `DecisionProperties.AsWrittenCounterexample` | src/services/decision.ts:65-86 | lookup scores 150 + 150 against a limit of 200 are let through as written and rejected as intended |
| `DecisionProperties.LookupStage` | src/services/decision.ts:61-88 | as intended, the internal party holds the combined score and the external party its looked-up score. The transaction is rejected iff it already was or the sum reaches the internal risk limit, with the internal-limit reason in the second case |
| `TransactionManager.Pair` | src/services/TransactionManager.ts:23-26 | a transfer needs both addresses and no others: one address for a self-transfer, two otherwise |
| `TransactionManager.TransactionManager.constructor` | src/services/TransactionManager.ts:6 | a new manager holds no address |
| `TransactionManager.TransactionManager.IsLocked` | src/services/TransactionManager.ts:19-21 | not locked iff neither the sender's nor the receiver's address is held |
| `TransactionManager.TransactionManager.LockWallets` | src/services/TransactionManager.ts:23-26 | the held set gains exactly the two addresses |
| `TransactionManager.TransactionManager.UnlockWallets` | src/services/TransactionManager.ts:51-54 | the held set loses exactly the two addresses |
| `TransactionManager.TransactionManager.TryAcquire` | src/services/TransactionManager.ts:11-15 | both addresses are taken together iff neither was held, nothing is taken otherwise, and no address is ever held by two runs |
| `TransactionManager.TransactionManager.Release` | src/services/TransactionManager.ts:51-54 | the run's two addresses are freed and every other run keeps what it holds |
| `TransactionManager.TransactionManager.ProcessTransaction` | src/services/TransactionManager.ts:28-49 | the answer is true iff the run ends in approve, and reaching either final state releases both addresses |
| `TransactionManager.TransactionManager.AddTransaction` | src/services/TransactionManager.ts:8-17 | a round waits (`None`) iff either address is held. Otherwise it returns the run's verdict. Either way the held set is the same afterwards |
| `TransactionManager.LockThenUnlockRestores` | src/services/TransactionManager.ts:23-26 | locking a free pair and unlocking it restores the held set exactly; a self-transfer adds one element, any other transfer two |

## Findings

| source | as written | input that shows it | evidently intended | confidence | as-written member | corrected member |
|---|---|---|---|---|---|---|
| src/services/decision.ts:66 | the lookup's sum is stored under `newExternalRiskScore`, but the next action reads `totalRisk`, which stays unset | sender internal, receiver external, no `totalRisk` supplied, lookup 150 + 150, internal risk limit 200: not marked rejected, and the sender's score becomes undefined | `totalRisk` is the sum of the looked-up scores | high, not executed | `DecisionProperties.AsWrittenCounterexample` | `DecisionProperties.LookupStage` |

The workflow in `Decision.Step` uses the intended reading (`CaptureExternal`).
The as-written action is `Decision.CaptureExternalAsWritten`.

## Left out

- The risk store and the external lookup (`src/services/RiskService.ts`: a JSON file read through lowdb and lodash) are not called. Their answers are the inputs in `Decision.Env`. `save` is not modelled; note that it writes the receiver's `blocked` from the sender's flag (RiskService.ts:53).
- The xstate interpreter is not modelled: the event queue, `send`, `invoke`/`onDone`/`onError`, `interpret` and `onTransition`. Each stage is a step of `Decision.Step`, run after the collaborator's answer is in.
- `UPDATE_COMPLETE` is sent only on the external path (decision.ts:89). In the library, an internal transfer would therefore wait in `updateRiskScores`. The model runs the policy after the load on both paths.
- `Decision.Enter`: the assign actions passed as `invoke.src` (blockSender, blockWallet, reject) are modelled as updates on entry. How the library treats an assign object used as a service is not modelled.
- `Decision.Penalty`: an absent score stays absent. JavaScript would produce NaN. Both compare false to every threshold, and the penalty arithmetic is otherwise exact.
- `Types.SumAtLeast` reads an absent operand as NaN: the comparison is false.
- A context without a `transcation` is not modelled. The field is mandatory in `Types.Context`, whereas the source would throw a TypeError at decision.ts:85, 122 or 126.
- The `newExternalRiskScore` property that the as-written lookup action adds is not a field of `Types.Context`. Nothing reads it.
- Risk scores are exact reals, so floating-point rounding is not modelled. This makes `s + s*p` and `s*q + s` exactly the scaled score.
- The values of the five configuration constants are unknown, because `../config` is not part of this model. They are `Decision.Config` parameters.
- `TransactionManager.TransactionManager.AddTransaction`: the polling loop with `sleep(100)` is one round here. A busy pair answers `None` where the source would sleep and check again.
- `TransactionManager.TransactionManager.AddTransaction`: a rejection is a rejected promise in the source. Here it is `Some(false)`.
- Concurrency between runs is modelled by `TryAcquire` and `Release` with ghost tickets. Whole asynchronous interleavings are not modelled.
- `src/test/test.ts` is test scaffolding over the on-disk database and is not modelled.
