# Payment handler and pagination defaults (thenewboston-js), modelled in Dafny

This project models two parts of the thenewboston JavaScript client.

**The payment handler** (`src/payment-handler.ts`). `PaymentHandler` talks to a bank node and to that bank's primary validator. It has three slots that start empty:

- the bank's config;
- a proxy for the primary validator;
- the primary validator's config.

`init` fills the slots in order. First `updateBank` fetches the bank's config. Then `updatePrimaryValidator` composes the validator URL `protocol://ip[:port]` from the bank's config, builds a proxy for that URL, and fetches the validator's config. Without a bank config, `updatePrimaryValidator` silently does nothing. `createTransaction` fetches the sender's balance lock from the validator. It then appends two fee transactions to the caller's transactions: the bank's first, then the validator's. Each fee transaction is derived from the matching config: the amount is the default transaction fee, the fee label is the node type, and the recipient is the node's account number. `broadcastTransaction` submits a bundle to the bank in one `addBlocks` call. `sendCoins` and `sendBulkTransactions` create a bundle and then broadcast it.

**The pagination-defaults merge** (`src/utils/format-default-options.ts`). `formatDefaultOptions` keeps every key of the options. It sets `defaultPagination` to `{limit: 20, offset: 0}`, overridden by whatever `...(options.defaultPagination || {})` spreads in.

Layout:

- `wrappers.dfy`: the `Option`, `Result` and `Outcome` datatypes.
- `decimal.dfy`: module `Decimal`. It renders a port number in decimal, the way `${port}` does, and parses a numeral back. Both round trips are proved.
- `models.dfy`: module `Models`. The value objects, with only the fields the handler reads.
- `payment_handler.dfy`: module `Payment`. The class `PaymentHandler` holds the three slots as fields. `updateBank`, `updatePrimaryValidator` and `init` are methods with `modifies this`. `createTransaction`, `broadcastTransaction` and the two send compositions are functions that read the handler. Bundle assembly and URL composition are pure functions, with lemmas about them.
- `format_default_options.dfy`: module `DefaultOptions`. It models JavaScript values, truthiness and object spread, and defines `formatDefaultOptions` as a map merge.

Remote calls are parameters of the operations:

- the outcome of the bank's config fetch is a `Result` value;
- the validator's config fetch is a function from the validator URL to a `Result`;
- the balance-lock fetch is a function from the validator URL and the account number to a `Result`;
- `addBlocks` is a function from the bank URL and the request to an `Outcome`.

So the contracts can say which URL was asked and what was submitted. An error raised through `throwError` is modelled as `LoadError(message, cause)`, which carries the source's exact message text. A rejection from `addBlocks` surfaces unwrapped, as `RemoteError(cause)`.

## Model

| member | source | states |
|---|---|---|
| `Decimal.ToDecimal` | src/payment-handler.ts:37-39 | The port renders as a non-empty string of digits only, with no leading zero except for port 0 itself ("0"). |
| `Decimal.DecimalRoundTrip` | src/payment-handler.ts:38 | Parsing the rendered port gives the port number back. |
| `Decimal.CanonicalRoundTrip` | src/payment-handler.ts:38 | Every canonical numeral is the rendering of the number it denotes (the other half of the round trip). |
| `Decimal.ToDecimalInjective` | src/payment-handler.ts:38 | Distinct ports render as distinct strings. |
| `Payment.ValidatorUrl` | src/payment-handler.ts:35-39 | The URL is exactly `protocol://ip` when the port is null and `protocol://ip:port` otherwise. It starts with `protocol://ip`, and the rest parses back to the locator's port (empty exactly when the port is null). |
| `Payment.NoNullPortSegment` | src/payment-handler.ts:36-39 | The composed URL never contains `:null` unless `protocol://ip` itself does. |
| `Payment.AssembleBundle` | src/payment-handler.ts:60-68 | The bundle keeps the fetched lock and the sender. Its transactions are the caller's, unchanged and first, then exactly two fee transactions: the bank's, then the validator's. Each fee has amount = default fee, fee label = node type and recipient = account number of its own config. |
| `Payment.FeeEnrichedUnique` | src/payment-handler.ts:60-67 | The caller's transactions and the two configs determine the fee-enriched sequence completely: no other order, duplicate or omission satisfies the shape. |
| `Payment.SendCoinsExample` | src/payment-handler.ts:60-68 | Worked example: sending 100 to "R" with bank fee 1 ("BANK", account "B") and validator fee 2 ("VALIDATOR", account "V") under lock "L" gives `[R:100, B:1 BANK, V:2 VALIDATOR]`. |
| `Payment.RecipientAccountNumber` | src/payment-handler.ts:88 | A raw recipient string is used as it is. An account recipient is replaced by its hex account number. |
| `Payment.CoinTransfer` | src/payment-handler.ts:89 | `sendCoins` passes a single transaction: the normalised recipient, the amount, and no fee label. |
| `Payment.PaymentHandler.constructor` | src/payment-handler.ts:16-18 | A new handler knows only its bank URL. All three slots are empty (phase Uninitialized). |
| `Payment.PaymentHandler.UpdateBank` | src/payment-handler.ts:26-29 | On success the bank config is replaced by the fetched one. On failure the error "Failed to load the bank's config." carries the cause and the old config is kept. The validator slots never change. |
| `Payment.PaymentHandler.UpdatePrimaryValidator` | src/payment-handler.ts:31-45 | Without a bank config: succeeds and changes nothing, and (by the slot invariant) both validator slots are empty. Otherwise the proxy is replaced by one for `ValidatorUrl` of the bank's locator, and the config is fetched from that URL. On success the validator config is replaced. On failure the old validator config is kept (the proxy is already replaced) and "Failed to load the primary validator's config." carries the cause. The bank config never changes. |
| `Payment.PaymentHandler.Init` | src/payment-handler.ts:21-24 | Runs `updateBank` and then `updatePrimaryValidator` against the newly fetched bank config. A bank failure stops with nothing changed. Full success leaves the handler Ready. A validator failure keeps the state the completed steps left. |
| `Payment.PaymentHandler.CreateTransaction` | src/payment-handler.ts:53-69 | The lock is asked of the current validator proxy's URL for the sender's hex account number. If that fetch fails, the result is the balance-lock error carrying the cause, and there is no bundle. Otherwise the bundle carries the fetched lock, the sender, and the fee-enriched transactions for the current bank and validator configs. |
| `Payment.PaymentHandler.ReadyCanCreate` | src/payment-handler.ts:54-62 | A Ready handler (slot invariant kept) has all three slots filled, so `createTransaction` is callable for any sender and any lock answer. |
| `Payment.PaymentHandler.BroadcastTransaction` | src/payment-handler.ts:75-81 | One `addBlocks` call on the handler's bank carries the bundle's lock, its transactions in order, and its sender. The result succeeds exactly when the bank accepts. A rejection surfaces with its cause unwrapped. |
| `Payment.PaymentHandler.SendBulkTransactions` | src/payment-handler.ts:98-101 | If the lock fetch fails, the result is the balance-lock error. Once a lock is obtained, the result is the bank's answer to the request carrying that lock, the fee-enriched transactions and the sender: success with that request exactly when the bank accepts it, otherwise the bank's cause unwrapped. |
| `Payment.PaymentHandler.SendCoins` | src/payment-handler.ts:87-91 | If the lock fetch fails, the result is the balance-lock error. Once a lock is obtained, the result is the bank's answer to the request carrying that lock, the sender, and the single transfer to the normalised recipient followed by the two fee transactions: success exactly when the bank accepts, otherwise the bank's cause unwrapped. |
| `Payment.PaymentHandler.SendCoinsRecipientForms` | src/payment-handler.ts:87-90 | A raw account number and an account with that number as recipient lead to identical submissions. |
| `Payment.PaymentHandler.NoLockNoBroadcast` | src/payment-handler.ts:53-58 | When the lock fetch fails, the send fails and its outcome does not depend on the bank's `addBlocks` at all. |
| `DefaultOptions.IndexedEntries` | src/utils/format-default-options.ts:21 | Spreading a sequence gives exactly its elements, keyed by their decimal indices. |
| `DefaultOptions.Characters` | src/utils/format-default-options.ts:21 | A string spreads as its one-character strings, in order. |
| `DefaultOptions.SpreadEntries` | src/utils/format-default-options.ts:21 | `...v` contributes an object's own fields, an array's or a string's indexed elements, and nothing for null, booleans or numbers. |
| `DefaultOptions.FormatDefaultOptions` | src/utils/format-default-options.ts:16-23 | The result has the input's keys plus `defaultPagination`, and every other key keeps its value. `defaultPagination` is an object with `limit` and `offset` plus the overriding fields. Each override wins, and `limit` = 20 and `offset` = 0 remain wherever they are not overridden. |
| `DefaultOptions.DefaultsWhenAbsent` | src/utils/format-default-options.ts:18-22 | With no (or a falsy) `defaultPagination`, the result's `defaultPagination` is exactly `{limit: 20, offset: 0}`. |
| `DefaultOptions.LimitOnlyOverride` | src/utils/format-default-options.ts:19-21 | An override that names only `limit` replaces it and keeps `offset = 0`. |
| `DefaultOptions.FormatIdempotent` | src/utils/format-default-options.ts:16-23 | Formatting options twice gives the same result as formatting them once. |

## Left out

- Network I/O. `Bank.getConfig`, `PrimaryValidator.getConfig`, `getAccountBalanceLock` and `Bank.addBlocks` are not modelled. Their outcomes are parameters (see above). The internals of `addBlocks` (block construction and signing) are not part of this model.
- Async/Promise semantics. Each handler method is a sequential call. Concurrent interleavings of handler calls are not modelled.
- `throwError` is not part of this model. Its result is modelled as an error value that carries the message and the cause.
- `Account.accountNumberHex` is an opaque string. How it is derived from keys is not modelled.
- TypeScript non-null assertions (`!`). The model turns them into `requires` clauses:
  - `primaryValidator!`, `bankConfig!` and `primaryValidatorConfig!` become the predicates `CanCreate` and `CanSend`;
  - `primary_validator!` becomes a precondition of `UpdatePrimaryValidator` and `Init`;
  - `balanceLock!` becomes preconditions of `BroadcastTransaction` and `CanSend`.
  In JavaScript, `balanceLock!` is erased, so a null lock would be forwarded to `addBlocks`; the model does not cover that call.
- Payment.PaymentHandler.BroadcastTransaction: returns the accepted `addBlocks` request where the source returns nothing. `SendCoins` and `SendBulkTransactions` do the same, so that the submission can be stated.
- Numbers. Amounts and fees are unbounded integers, and the port is a non-negative integer. Floating-point values, NaN and negative or fractional ports (which `${port}` would render differently) are not modelled.
- Decimal.ToDecimal: renders every non-negative integer in plain digits; JavaScript switches to exponent form from 10^21 on ("1e+21"), far above any port number (below 65536).
- DefaultOptions.Characters: strings are sequences of Unicode scalar values, while JavaScript spreads a string by UTF-16 code units; a character outside the Basic Multilingual Plane spreads as one entry here but as two surrogate entries in JavaScript.
- JavaScript values in `formatDefaultOptions`. `undefined` is modelled as an absent key. These are not modelled: functions, symbols, getters, inherited (prototype) properties, key order, and the truthiness of NaN.
- `src/bank.ts` and `src/confirmation-validator.ts`. Their methods are one-line forwards to the unmodelled `ServerNode`, and the rest are TODO stubs.
- The code defines no error classes: errors are fixed messages (with their trailing period) wrapped through `throwError`, and a bank rejection surfaces unwrapped. The model has exactly these two kinds of error.
