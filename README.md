# Transaction message router of the argent-x extension background, in Dafny

This project models `handleTransactionMessage`, the handler the extension's
background uses for transaction messages. One inbound message leads to at most
one call on the action queue or fee query and at most one outbound message:

- `EXECUTE_TRANSACTION` pushes a `TRANSACTION` action carrying the message's
  payload onto the action queue. It answers `EXECUTE_TRANSACTION_RES` with the
  hash the push returned.
- `ESTIMATE_TRANSACTION_FEE` first looks up the selected account and the
  selected chain account. With no account selected it throws "no accounts".
  Otherwise it asks for the deployment fee (account not yet deployed) or for
  the chain account's estimate of the payload. It answers
  `ESTIMATE_TRANSACTION_FEE_RES` with the overall fee in hex and the suggested
  maximum fee doubled, in hex. If the query throws, it answers
  `ESTIMATE_TRANSACTION_FEE_REJ` with the error's message, else the error's
  string form, else "Unkown error".
- `TRANSACTION_FAILED` removes the reported action hash from the queue and
  sends nothing.
- Any other message type throws `UnhandledMessage`.

Layout:

- `wrappers.dfy`: `Option`.
- `hex_number.dfy`: the starknet `number.toHex` encoding of non-negative
  integers as "0x" plus lower-case digits, a decoder, and the round trips both
  ways.
- `stark_fees.dfy`: `stark.estimatedFeeToMaxFee` with overhead 1, i.e. exact
  doubling on integers.
- `messages.dfy`: messages, actions, wallet answers, thrown values, and the
  trace of effects (wallet and chain queries, queue calls, sent messages) with
  its three projections.
- `action_queue.dfy`: the action queue as an object with `Push` and `Remove`.
  It records each call in its log and answers a push with the action's content
  hash.
- `transaction_messaging.dfy`: `Route`, the pure description of what handling
  a message does, and `HandleTransactionMessage`, the step-by-step handler over
  the queue object (its fee-estimate branch is `HandleFeeEstimate`). The handler is proved to produce exactly `Route`'s trace and
  outcome, and to grow the queue's log by exactly the trace's queue calls.
- `router_properties.dfy`: the router's promises, proved over `Route`.

The collaborators become inputs. The wallet's answers are a `Wallet` value:
the selected account (optional), and what the deployment-fee and fee-estimate
queries settle to (a fee pair, or a thrown value). The transaction payload is
a type parameter, which the router passes on without looking into it.
`sendToTabAndUi` appends a `Send` effect to the trace.

transactionMessaging.ts:62 spells the fallback text "Unkown error"; the model
keeps that spelling.

`Other` messages carry a type name outside the listed message types
(`UnlistedType`), so a message's type name always decides its shape.

## Model

| member | source | states |
|---|---|---|
| `HexNumber.Digits` | packages/extension/src/background/transactions/transactionMessaging.ts:34-35 | the digits of a fee are lower case, non-empty, without leading zero, and are "0" exactly for zero |
| `HexNumber.ToHex` | packages/extension/src/background/transactions/transactionMessaging.ts:34-35 | `toHex` output is "0x" followed by canonical digits |
| `HexNumber.FromHex` | packages/extension/src/background/transactions/transactionMessaging.ts:43-44 | a hex string is read as a number only when it has the "0x" prefix and at least one digit |
| `HexNumber.DigitsRoundTrip` | packages/extension/src/background/transactions/transactionMessaging.ts:34-35 | reading back the digits of `n` gives `n` |
| `HexNumber.HexRoundTrip` | packages/extension/src/background/transactions/transactionMessaging.ts:43-44 | decoding `toHex(n)` gives `n`, so the hex `maxFee` handed to the fee doubling stands for the collaborator's number |
| `HexNumber.ToHexInjective` | packages/extension/src/background/transactions/transactionMessaging.ts:47-52 | two fees have the same hex string if and only if they are equal |
| `HexNumber.CanonicalDigitsRoundTrip` | packages/extension/src/background/transactions/transactionMessaging.ts:34-35 | every canonical digit string is the encoding of the number it denotes |
| `HexNumber.CanonicalHexRoundTrip` | packages/extension/src/background/transactions/transactionMessaging.ts:34-35 | every string of the form `toHex` produces is `toHex` of its decoded value (encoding is onto canonical strings) |
| `TransactionMessaging.ErrorText` | packages/extension/src/background/transactions/transactionMessaging.ts:59-62 | the rejection text is the error's message if not nullish, else its string form if not nullish, else "Unkown error" |
| `TransactionMessaging.FeeResponse` | packages/extension/src/background/transactions/transactionMessaging.ts:34-52 | the response is exactly `toHex` of the overall fee and `toHex` of twice the collaborator's suggested maximum fee, whose strings decode back to those two numbers |
| `TransactionMessaging.FeeReplyMessage` | packages/extension/src/background/transactions/transactionMessaging.ts:47-64 | a settled query gives a `_RES` and only then; a thrown one gives the `_REJ` carrying the error text |
| `StarkFees.EstimatedFeeToMaxFee` | packages/extension/src/background/transactions/transactionMessaging.ts:43-44 | at overhead 1 the maximum fee is exactly twice the estimate |
| `TransactionMessaging.FeeQuery` | packages/extension/src/background/transactions/transactionMessaging.ts:30-41 | the deployment fee is queried exactly when the account needs deploying, otherwise the payload's estimate; the answer used is that of the collaborator queried |
| `TransactionMessaging.Route` | packages/extension/src/background/transactions/transactionMessaging.ts:9-73 | `UnhandledMessage` is thrown exactly for the unhandled types, "no accounts" exactly for a fee estimate without a selected account, and a thrown outcome has only consulted the wallet |
| `TransactionMessaging.RouteProjections` | packages/extension/src/background/transactions/transactionMessaging.ts:9-73 | per message type: the exact wallet and chain queries and the messages sent (the queue calls are `QueueCallsOfRoute`'s) |
| `TransactionMessaging.QueueCallsOfRoute` | packages/extension/src/background/transactions/transactionMessaging.ts:9-73 | the queue sees one push of the transaction for an execution, one remove of the reported hash for a failure, and nothing for any other message |
| `TransactionMessaging.HandleFeeEstimate` | packages/extension/src/background/transactions/transactionMessaging.ts:21-66 | the fee-estimate branch, run step by step (lookups, "no accounts" throw, query chosen by `needsDeploy`, reply), has exactly `Route`'s trace and outcome for that message |
| `TransactionMessaging.HandleTransactionMessage` | packages/extension/src/background/transactions/transactionMessaging.ts:6-74 | the handler's trace and outcome are `Route`'s, and the queue log grows by exactly the trace's queue calls |
| `ActionQueues.ActionQueue.Push` | packages/extension/src/background/transactions/transactionMessaging.ts:11-14 | a push is recorded once and answers with meta whose hash is the action's content hash |
| `ActionQueues.ActionQueue.Remove` | packages/extension/src/background/transactions/transactionMessaging.ts:69 | a remove is recorded once with exactly the given hash |
| `RouterProperties.ExecutePushesThenReplies` | packages/extension/src/background/transactions/transactionMessaging.ts:10-19 | execution pushes exactly one `TRANSACTION` action with the payload, first, then sends exactly one `EXECUTE_TRANSACTION_RES` with that push's hash; no wallet query |
| `RouterProperties.NoAccountThrows` | packages/extension/src/background/transactions/transactionMessaging.ts:21-26 | with no selected account: throws "no accounts" after both lookups, no fee query, nothing sent, queue untouched |
| `RouterProperties.FeePathSelection` | packages/extension/src/background/transactions/transactionMessaging.ts:22-41 | with an account selected the queries are exactly the two lookups, then the deployment fee if the account needs deploying, else the payload's estimate |
| `RouterProperties.FeePathsExclusive` | packages/extension/src/background/transactions/transactionMessaging.ts:30-41 | an account that needs deploying never gets the payload estimate, and one that does not never gets the deployment fee |
| `RouterProperties.FeeEstimateResponds` | packages/extension/src/background/transactions/transactionMessaging.ts:28-53 | a settled estimate sends exactly one `_RES`, carrying `toHex` of the overall fee and `toHex` of twice the collaborator's suggested maximum, which decode to those numbers |
| `RouterProperties.ThreeTimesOverallFee` | packages/extension/src/background/transactions/transactionMessaging.ts:35-45 | if the collaborator's maximum is 1.5 times the overall fee, the fee sent is 3 times it |
| `RouterProperties.FeeExample` | packages/extension/src/background/transactions/transactionMessaging.ts:43-45 | overall fee 0x64 with suggested maximum 0x96 is answered with "0x64" and "0x12c" |
| `RouterProperties.FeeEstimateRejects` | packages/extension/src/background/transactions/transactionMessaging.ts:54-64 | a thrown query sends exactly one message, the `_REJ` with the error text, and completes normally |
| `RouterProperties.TransactionFailedRemoves` | packages/extension/src/background/transactions/transactionMessaging.ts:68-70 | a failure report removes exactly the reported hash, sends nothing, queries nothing |
| `RouterProperties.UnhandledExactlyOutsideHandledTypes` | packages/extension/src/background/transactions/transactionMessaging.ts:9-73 | a message that throws `UnhandledMessage` (exactly the unhandled types, by `Route`'s contract) has no effects at all |
| `RouterProperties.AtMostOneMessage` | packages/extension/src/background/transactions/transactionMessaging.ts:9-73 | at most one message sent and at most one queue call per message; a thrown outcome sends nothing and leaves the queue alone |

## Left out

- Asynchrony: each `await` is a call that settles before the next step; suspension and interleaving with other messages are not modelled.
- `console.error(error)` in the rejection path is not modelled (logging).
- `sendToTabAndUi` is an append to the trace. Its own failures and its return value are not modelled.
- Action queue failures: `actionQueue.push` (transactionMessaging.ts:11) and `actionQueue.remove` (transactionMessaging.ts:69) may reject, in which case the handler throws that error and sends nothing; in the model both always succeed.
- Thrown values in the rejection path: reading `error?.message?.toString?.()` and `error?.toString?.()` (transactionMessaging.ts:60-61) may itself throw or give a non-string; `Thrown` holds each as absent or a string and reading it never throws.
- Return values: what the handler returns (the result of `sendToTabAndUi`, and the result of `actionQueue.remove` at transactionMessaging.ts:69) is not modelled; the model records only the completion, the trace and the queue's log.
- Wallet lookups (`getSelectedAccount`, `getSelectedStarknetAccount`) always succeed in the model; a throw from them is not modelled.
- Collaborator fee answers are non-negative integers. Answers of another shape, which would make `toHex` throw inside the `try`, are not modelled.
- The action queue's own behaviour (deduplication, ordering, the worker, persistence) is not part of this model. The queue is an object that records calls and answers a push with a content hash.
- `number.toHex` and `stark.estimatedFeeToMaxFee` are library code that is not part of this model. They are modelled by their stated behaviour: canonical lower-case hex, and doubling at overhead 1.
- `HexNumber.FromHex` reads "0x" or "0X" followed by one or more digits of either case. It stands for the library's reading of the hex string at line 44 only as far as `toHex` output goes; how the library reads other strings is not modelled.
- `RouterProperties.ThreeTimesOverallFee`: the 1.5 times policy of the collaborator's suggested maximum fee is a hypothesis of the lemma, not a property of the model.
- packages/extension/src/ui/features/accounts/AccountListItem.tsx is a presentation component and is not part of this model.
