# Fill-transaction construction for the Anthic venue

This project models how the service builds the transaction that fills a
user's order on the Anthic trading venue (Radix ledger, `service/src/core.rs`):

- `create_fill_manifest` takes the opposite side of the user's order. The
  filler sells what the user buys and buys what the user sells. It looks up
  the flat settlement fee for the sold resource and fixes the maker fee at
  zero. When instamint is requested, it first mints the sold amount plus both
  fees into the filler's account, which needs the account's instamint badge.
  It then appends the limit order. The builder is modelled as a class whose
  step list the methods append to (`Builder.ManifestBuilder`). The method
  `Core.CreateFillManifest` runs it and is proved equal to the reference
  function `Core.FillManifest`, about which the properties are proved.
- `create_fill_subintent` wraps the manifest's parts in an intent header:
  - valid from the current epoch for two epochs;
  - no earliest time;
  - an exclusive expiry of `now + expire_after_secs`;
  - the nonce as discriminator;
  - no message.

  Its contract is stated against the ledger's acceptance rule
  (`Ledger.ValidAt`: start epoch inclusive, end epoch exclusive, minimum
  timestamp inclusive, maximum timestamp exclusive). It is also stated
  against the manifest it carries.
- `create_signed_partial_transaction` puts the subintent at the root, with
  exactly one root signature and no non-root subintents or signatures.
  `Core.Disassemble` is its inverse. The two are proved to correspond both
  ways.

Value conventions:
- `Decimal` is an integer count of 10^-18 units in the signed 192-bit range.
  Addition past that range panics, as Radix's `Decimal` does.
- Epochs and the nonce are `u64`.
- The clock reading `now` is a parameter.

Rust separates an `Err` that is returned from a panic, and so does `Core.Outcome`:
- `Err(message)` is the function's own error.
- `Panic(UnwrapOnNone)` is the `.unwrap()` on a missing fee entry.
- `Panic(DecimalOverflow)` is `Decimal` addition overflow.
- `Panic(EpochOverflow)` is `cur_epoch + 2` past the `u64` range, with overflow checks on.

In these points the model follows the code literally:
- An unknown fee symbol panics (`unwrap`); the function returns no `Err` for it.
- The fee lookup comes before the badge check. A missing fee therefore panics even when the badge is also missing.
- `expire_after_secs` is not checked. With zero or a negative value, the subintent is not valid at `now` (proved in `Core.CreateFillSubintent`).

## Model

| member | source | states |
|---|---|---|
| Core.CreateFillManifest | service/src/core.rs:129-162 | Running the builder gives exactly the reference outcome `FillManifest`: the same panic, the same error or the same manifest. |
| Core.FillInvertsUserOrder | service/src/core.rs:136-160 | A produced manifest ends with the account's limit order on the venue. It sells exactly the user's `buy` and buys exactly the user's `sell`, so it is the opposite side of the user's order. |
| Core.OppositeInvolutive | service/src/core.rs:136-138 | Taking the opposite side twice gives back the order. |
| Core.SettlementFeeLookup | service/src/core.rs:142-144 | The fill panics on the fee lookup exactly when the sold symbol (the user's buy symbol) has no fee entry, whatever the flag and badge. Otherwise the limit order's settlement fee is that entry. |
| Core.MakerFeeIsZero | service/src/core.rs:145-160 | The limit order's maker fee is zero. When there is a mint, its amount is the order's sell amount plus the same settlement fee and maker fee the order carries. |
| Core.InstamintPrecedesLimitOrder | service/src/core.rs:148-160 | With instamint, a badge, a fee entry and no overflow, the manifest is exactly two steps: mint, then limit order. The mint uses the given instamint config, the account address and the badge. It mints the sold symbol, for sold amount + settlement fee + maker fee. |
| Core.MissingBadgeFails | service/src/core.rs:148-157 | With instamint requested and a fee entry, the fill returns an error iff the account has no badge. That error is "Cannot instamint without badge", with no manifest. |
| Core.NoInstamintSingleStep | service/src/core.rs:148-161 | Without instamint and with a fee entry, the fill succeeds with exactly one step, the limit order. |
| Core.InstamintFundsTheFill | service/src/core.rs:148-160 | Under the model's deposit rule (`Ledger.StepDeposit`), with instamint and non-negative amounts, running the steps in order never withdraws from the account more of the sold resource than was minted before, and the mint exactly covers the order and both fees, so the net deposit is zero. |
| Core.LimitOrderDrawsOnHoldings | service/src/core.rs:144-160 | Under the model's deposit rule (`Ledger.StepDeposit`), without instamint the fill withdraws sold amount + settlement fee + maker fee of the sold resource from the account's existing holdings. |
| Core.FundingAfterTheFillIsTooLate | service/src/core.rs:148-160 | Under the model's deposit rule (`Ledger.StepDeposit`), step order matters: with the two steps swapped, the limit order withdraws before anything is minted whenever the amount it draws is positive. |
| Core.CreateFillSubintent | service/src/core.rs:164-190 | Succeeds iff `cur_epoch + 2` fits in `u64` (else panics); carries the manifest's parts unchanged; the ledger accepts it exactly in epochs `cur_epoch` and `cur_epoch + 1` at proposer times before `now + expire_after_secs`; start epoch < end epoch; valid at `now` iff `expire_after_secs > 0`; network id, nonce as discriminator, no message. |
| Core.NonceDistinguishesSubintents | service/src/core.rs:169-182 | Two subintents built from the same inputs but different nonces differ. |
| Core.CreateSignedPartialTransaction | service/src/core.rs:192-205 | Disassembling the result gives back exactly the given subintent as root and the given signature as its one signature. It has no non-root subintents and no non-root signatures. |
| Core.AssemblyIsOnlyInverse | service/src/core.rs:192-205 | Every transaction with exactly one root signature and empty non-root containers is the assembly of its own root and signature. |
| Core.FillTransactionCarriesTheFill | service/src/core.rs:160-199 | Composing the three steps gives a transaction with one signature whose root carries the composed steps unchanged. Its last step is the limit order opposite to the user's order. |
| Ledger.CheckedAdd | service/src/core.rs:152 | `Decimal` addition gives the exact sum when it lies in the 192-bit range, and nothing (a panic) otherwise. |
| Ledger.ForIntent | service/src/core.rs:171 | The manifest's instructions, blobs and children, from which the manifest is reassembled unchanged. |
| Builder.ManifestBuilder.constructor | service/src/core.rs:140 | A new builder is bound to the venue configuration and has no steps. |
| Builder.ManifestBuilder.InstamintIntoAccount | service/src/core.rs:154 | Appends one mint step for the account, badge and amount, after the existing steps. |
| Builder.ManifestBuilder.AddAnthicLimitOrder | service/src/core.rs:160 | Appends one limit order on the builder's venue, after the existing steps. |
| Builder.ManifestBuilder.Build | service/src/core.rs:160 | The manifest's instructions are the appended steps, in order. |

## Left out

- The HTTP handler `execute` (service/src/core.rs:38-127) and the server in service/src/main.rs: request parsing, response framing and logging are I/O.
- The venue client's loads of the venue, instamint and account configuration, and of the current epoch: these are network calls, and the model takes their results as parameters.
- Environment-variable reads and private-key decoding.
- `Decimal::from_str` parsing of the request's amounts: library code. The model starts from parsed amounts.
- Nonce generation from the thread-local random generator. The nonce is a parameter, so the model cannot state that nonces are unpredictable.
- Canonical preparation, subintent hashing, secp256k1 signing and `to_raw().to_hex()` serialisation: foreign library code. No hash, signature-verification or encoding round trip is stated.
- Core.CreateFillSubintent: the clock read `Utc::now()` is the parameter `now`. chrono's panic when `now + expire_after_secs` leaves its representable date range is not modelled: the expiry timestamp is an unbounded integer.
- Core.CreateFillSubintent: `cur_epoch + 2` overflow is modelled as the panic of a build with overflow checks. A build without them would wrap instead.
- Builder.ManifestBuilder.Build: how the venue's builder turns each step into ledger instructions is library code. In the model, each step is one instruction, and the builder adds no blobs and no child subintents.
- Core.InstamintFundsTheFill: the resource the counterparty delivers at settlement is not modelled. The deposit accounting covers only what the fill's own steps mint into or withdraw from the account.
- Ledger.StepDeposit: what a limit order withdraws from the account (sold amount plus settlement fee plus maker fee, in the sold resource) is an assumption about the venue's library code, not taken from service/src/core.rs; the rebate of part of the settlement fee within the transaction (service/src/core.rs:142-143) is not modelled, so `NetDeposit` and `SelfFunded`, and the lemmas stated with them, speak of this deposit rule rather than of the ledger's actual balances.
