/**
 * The fill pipeline of service/src/core.rs: compose the manifest that fills
 * a user's order from the opposite side, wrap it in a subintent valid for a
 * two-epoch window and until an expiry time, and assemble the signed partial
 * transaction around the subintent and its one signature.
 *
 * Rust distinguishes an `Err` the function returns from a panic (`unwrap` on
 * a missing map entry, `Decimal` overflow, `u64` overflow with overflow
 * checks on); `Outcome` keeps the two apart.
 */
module Core {
  import opened Ledger
  import opened Builder

  /** The order the user wants filled: receive `buy`, give up `sell`. */
  datatype NewUserOrder = NewUserOrder(buy: TokenAmount, sell: TokenAmount)

  datatype PanicReason = UnwrapOnNone | DecimalOverflow | EpochOverflow

  datatype Outcome<+T> = Ok(value: T) | Err(message: string) | Panic(reason: PanicReason)

  const NO_BADGE_ERROR: string := "Cannot instamint without badge"

  /** The maker fee the venue charges a fill; zero for now. */
  const MAKER_FEE: Decimal := 0

  /** Number of epochs, starting with the current one, in which a fill subintent is valid. */
  const EPOCH_WINDOW: nat := 2

  /** The opposite side of an order: what one side gives up, the other receives. */
  function Opposite(order: NewUserOrder): NewUserOrder {
    NewUserOrder(buy := order.sell, sell := order.buy)
  }

  /** Reference definition of create_fill_manifest, step by step as the source decides. */
  function FillManifest(venue: AnthicConfig, instamint: InstamintConfig, account: AnthicAccount,
                        order: NewUserOrder, useInstamint: bool): Outcome<SubintentManifest>
  {
    var fill := Opposite(order);
    var fees := venue.settlementFeePerResource;
    if fill.sell.symbol !in fees then Panic(UnwrapOnNone)
    else
      var order := LimitOrder(venue, account.address, fill.sell, fill.buy, fees[fill.sell.symbol], MAKER_FEE);
      if !useInstamint then Ok(SubintentManifest([order], [], []))
      else if account.instamintCustomerBadgeLocalId.None? then Err(NO_BADGE_ERROR)
      else
        var covered := fill.sell.amount + fees[fill.sell.symbol];
        if !InDecimalRange(covered) || !InDecimalRange(covered + MAKER_FEE) then Panic(DecimalOverflow)
        else
          var mint := Instamint(instamint, account.address, account.instamintCustomerBadgeLocalId.value,
                                TokenAmount(fill.sell.symbol, covered + MAKER_FEE));
          Ok(SubintentManifest([mint, order], [], []))
  }

  /** create_fill_manifest: runs the manifest builder on the inverted order. */
  method CreateFillManifest(venue: AnthicConfig, instamint: InstamintConfig, account: AnthicAccount,
                            newUserOrder: NewUserOrder, useInstamint: bool)
    returns (r: Outcome<SubintentManifest>)
    ensures r == FillManifest(venue, instamint, account, newUserOrder, useInstamint)
  {
    // the filler takes the opposite side of the user's order
    var buy := newUserOrder.sell;
    var sell := newUserOrder.buy;

    var builder := new ManifestBuilder(venue);

    if sell.symbol !in venue.settlementFeePerResource {
      return Panic(UnwrapOnNone);
    }
    var settlementFeeAmount := venue.settlementFeePerResource[sell.symbol];
    var anthicFeeAmount := MAKER_FEE;

    if useInstamint {
      match account.instamintCustomerBadgeLocalId
      case Some(localId) =>
        var withFee := CheckedAdd(sell.amount, settlementFeeAmount);
        if withFee.None? {
          return Panic(DecimalOverflow);
        }
        var total := CheckedAdd(withFee.value, anthicFeeAmount);
        if total.None? {
          return Panic(DecimalOverflow);
        }
        var toMint := TokenAmount(sell.symbol, total.value);
        builder.InstamintIntoAccount(instamint, account.address, localId, toMint);
        assert builder.steps == [Instamint(instamint, account.address, localId, toMint)];
      case None =>
        return Err(NO_BADGE_ERROR);
    }

    builder.AddAnthicLimitOrder(account.address, sell, buy, settlementFeeAmount, anthicFeeAmount);
    var manifest := builder.Build();
    assert manifest == SubintentManifest(builder.steps, [], []);
    ghost var fill := LimitOrder(venue, account.address, newUserOrder.buy, newUserOrder.sell, settlementFeeAmount, MAKER_FEE);
    if useInstamint {
      assert builder.steps == [builder.steps[0], fill];
    } else {
      assert builder.steps == [fill];
    }
    r := Ok(manifest);
  }

  /** The limit order a manifest ends with. */
  function FillStep(m: SubintentManifest): Step
    requires |m.instructions| > 0
  {
    m.instructions[|m.instructions| - 1]
  }

  lemma OppositeInvolutive(order: NewUserOrder)
    ensures Opposite(Opposite(order)) == order
  {
  }

  /** The manifest ends with the account's limit order on the opposite side of the user's order. */
  lemma FillInvertsUserOrder(venue: AnthicConfig, instamint: InstamintConfig, account: AnthicAccount,
                             order: NewUserOrder, useInstamint: bool)
    requires FillManifest(venue, instamint, account, order, useInstamint).Ok?
    ensures var m := FillManifest(venue, instamint, account, order, useInstamint).value;
      && |m.instructions| > 0
      && FillStep(m).LimitOrder?
      && FillStep(m).venue == venue
      && FillStep(m).account == account.address
      && FillStep(m).sell == order.buy
      && FillStep(m).buy == order.sell
  {
  }

  /**
   * The settlement fee is the venue's entry for the sold resource, the
   * resource the user buys; without an entry the lookup panics before
   * anything else is decided, whatever the instamint flag and badge.
   */
  lemma SettlementFeeLookup(venue: AnthicConfig, instamint: InstamintConfig, account: AnthicAccount,
                            order: NewUserOrder, useInstamint: bool)
    ensures var r := FillManifest(venue, instamint, account, order, useInstamint);
      && (order.buy.symbol !in venue.settlementFeePerResource <==> r == Panic(UnwrapOnNone))
      && (r.Ok? ==> FillStep(r.value).settlementFee == venue.settlementFeePerResource[order.buy.symbol])
  {
  }

  /** The maker fee is zero, and the limit order and the mint account for the same value. */
  lemma MakerFeeIsZero(venue: AnthicConfig, instamint: InstamintConfig, account: AnthicAccount,
                       order: NewUserOrder, useInstamint: bool)
    requires FillManifest(venue, instamint, account, order, useInstamint).Ok?
    ensures var m := FillManifest(venue, instamint, account, order, useInstamint).value;
      && FillStep(m).anthicFee == 0
      && (|m.instructions| == 2 ==>
            m.instructions[0].toMint.amount == FillStep(m).sell.amount + FillStep(m).settlementFee + FillStep(m).anthicFee)
  {
  }

  /**
   * With instamint and a badge, the manifest is the mint followed by the
   * limit order; the mint goes into the account, under its badge, of the
   * sold resource, for the sold amount plus both fees.
   */
  lemma InstamintPrecedesLimitOrder(venue: AnthicConfig, instamint: InstamintConfig, account: AnthicAccount,
                                    order: NewUserOrder)
    requires order.buy.symbol in venue.settlementFeePerResource
    requires account.instamintCustomerBadgeLocalId.Some?
    requires InDecimalRange(order.buy.amount + venue.settlementFeePerResource[order.buy.symbol] + MAKER_FEE)
    ensures var r := FillManifest(venue, instamint, account, order, true);
      && r.Ok?
      && |r.value.instructions| == 2
      && r.value.instructions[0].Instamint?
      && r.value.instructions[1].LimitOrder?
      && r.value.instructions[0].instamint == instamint
      && r.value.instructions[0].account == account.address
      && r.value.instructions[0].badge == account.instamintCustomerBadgeLocalId.value
      && r.value.instructions[0].toMint.symbol == order.buy.symbol
      && r.value.instructions[0].toMint.amount
         == order.buy.amount + venue.settlementFeePerResource[order.buy.symbol] + MAKER_FEE
  {
  }

  /** With instamint requested and no badge, the fill fails with the badge error and yields no manifest. */
  lemma MissingBadgeFails(venue: AnthicConfig, instamint: InstamintConfig, account: AnthicAccount,
                          order: NewUserOrder)
    requires order.buy.symbol in venue.settlementFeePerResource
    ensures FillManifest(venue, instamint, account, order, true).Err?
        <==> account.instamintCustomerBadgeLocalId.None?
    ensures FillManifest(venue, instamint, account, order, true).Err?
        ==> FillManifest(venue, instamint, account, order, true) == Err(NO_BADGE_ERROR)
  {
  }

  /** Without instamint, the manifest is the limit order alone. */
  lemma NoInstamintSingleStep(venue: AnthicConfig, instamint: InstamintConfig, account: AnthicAccount,
                              order: NewUserOrder)
    requires order.buy.symbol in venue.settlementFeePerResource
    ensures var r := FillManifest(venue, instamint, account, order, false);
      r.Ok? && |r.value.instructions| == 1 && r.value.instructions[0].LimitOrder?
  {
  }

  /**
   * Funding precedes the step that consumes it: with instamint, no step of
   * the manifest withdraws from the account more of the sold resource than
   * the steps before it deposited, and the mint exactly covers the order and
   * its fees. The amounts are taken non-negative.
   */
  lemma {:induction false} InstamintFundsTheFill(venue: AnthicConfig, instamint: InstamintConfig,
                                                 account: AnthicAccount, order: NewUserOrder)
    requires FillManifest(venue, instamint, account, order, true).Ok?
    requires order.buy.symbol in venue.settlementFeePerResource
    requires order.buy.amount >= 0 && venue.settlementFeePerResource[order.buy.symbol] >= 0
    ensures var steps := FillManifest(venue, instamint, account, order, true).value.instructions;
      && SelfFunded(steps, account.address, order.buy.symbol)
      && NetDeposit(steps, account.address, order.buy.symbol) == 0
  {
    var steps := FillManifest(venue, instamint, account, order, true).value.instructions;
    var a, s := account.address, order.buy.symbol;
    assert |steps| == 2;
    var mint, fill := steps[0], steps[1];
    NetDepositAppend([], mint, a, s);
    assert [] + [mint] == [mint] == steps[..1];
    NetDepositAppend([mint], fill, a, s);
    assert [mint] + [fill] == steps == steps[..2];
    assert StepDeposit(mint, a, s) >= 0;
    assert StepDeposit(mint, a, s) + StepDeposit(fill, a, s) == 0;
    forall k | 0 <= k <= |steps|
      ensures NetDeposit(steps[..k], a, s) >= 0
    {
      if k == 0 {
        assert steps[..k] == [];
      }
    }
  }

  /** Without instamint, the fill draws the sold amount and both fees from what the account already holds. */
  lemma LimitOrderDrawsOnHoldings(venue: AnthicConfig, instamint: InstamintConfig,
                                   account: AnthicAccount, order: NewUserOrder)
    requires order.buy.symbol in venue.settlementFeePerResource
    ensures var steps := FillManifest(venue, instamint, account, order, false).value.instructions;
      NetDeposit(steps, account.address, order.buy.symbol)
        == -(order.buy.amount + venue.settlementFeePerResource[order.buy.symbol] + MAKER_FEE)
  {
  }

  /** Order matters: the same two steps with the limit order first withdraw before anything is minted. */
  lemma {:induction false} FundingAfterTheFillIsTooLate(venue: AnthicConfig, instamint: InstamintConfig,
                                                       account: AnthicAccount, order: NewUserOrder)
    requires FillManifest(venue, instamint, account, order, true).Ok?
    requires order.buy.symbol in venue.settlementFeePerResource
    requires order.buy.amount + venue.settlementFeePerResource[order.buy.symbol] > 0
    ensures var steps := FillManifest(venue, instamint, account, order, true).value.instructions;
      !SelfFunded([steps[1], steps[0]], account.address, order.buy.symbol)
  {
    var steps := FillManifest(venue, instamint, account, order, true).value.instructions;
    var swapped := [steps[1], steps[0]];
    NetDepositAppend([], steps[1], account.address, order.buy.symbol);
    assert [] + [steps[1]] == swapped[..1];
    assert NetDeposit(swapped[..1], account.address, order.buy.symbol) < 0;
  }

  /**
   * create_fill_subintent: the manifest's parts under a header for the
   * network, valid from the current epoch for EPOCH_WINDOW epochs and until
   * `now + expireAfterSecs` (exclusive), with no earliest time, the nonce as
   * discriminator and no message. `now` is the clock reading the source
   * takes itself. `curEpoch + 2` past the u64 range panics.
   */
  function CreateFillSubintent(network: NetworkDefinition, manifest: SubintentManifest,
                               expireAfterSecs: I64, curEpoch: U64, nonce: U64, now: I64): (r: Outcome<Subintent>)
    ensures r.Ok? <==> curEpoch + EPOCH_WINDOW < U64_LIMIT
    ensures r.Ok? || r == Panic(EpochOverflow)
    ensures r.Ok? ==> SubintentManifestOf(r.value) == manifest
    ensures r.Ok? ==> (forall epoch, timestamp :: ValidAt(r.value.intentCore.header, epoch, timestamp)
                         <==> curEpoch <= epoch < curEpoch + EPOCH_WINDOW && timestamp < now + expireAfterSecs)
    ensures r.Ok? ==> r.value.intentCore.header.startEpochInclusive < r.value.intentCore.header.endEpochExclusive
    ensures r.Ok? ==> (ValidAt(r.value.intentCore.header, curEpoch, now) <==> expireAfterSecs > 0)
    ensures r.Ok? ==> && r.value.intentCore.header.networkId == network.id
                      && r.value.intentCore.header.intentDiscriminator == nonce
                      && r.value.intentCore.message == NoMessage
  {
    var (instructions, blobs, children) := ForIntent(manifest);
    var expiryTimestampSecs := now + expireAfterSecs;
    if curEpoch + EPOCH_WINDOW >= U64_LIMIT then Panic(EpochOverflow)
    else
      Ok(Subintent(IntentCore(
        header := IntentHeader(
          networkId := network.id,
          startEpochInclusive := curEpoch,
          endEpochExclusive := curEpoch + EPOCH_WINDOW,
          minProposerTimestampInclusive := None,
          maxProposerTimestampExclusive := Some(expiryTimestampSecs),
          intentDiscriminator := nonce),
        blobs := blobs,
        message := NoMessage,
        children := children,
        instructions := instructions)))
  }

  /** Two subintents built alike except for the nonce differ: the nonce keeps their hashes apart. */
  lemma NonceDistinguishesSubintents(network: NetworkDefinition, manifest: SubintentManifest,
                                     expireAfterSecs: I64, curEpoch: U64, nonce1: U64, nonce2: U64, now: I64)
    requires nonce1 != nonce2
    requires curEpoch + EPOCH_WINDOW < U64_LIMIT
    ensures CreateFillSubintent(network, manifest, expireAfterSecs, curEpoch, nonce1, now)
         != CreateFillSubintent(network, manifest, expireAfterSecs, curEpoch, nonce2, now)
  {
  }

  /**
   * create_signed_partial_transaction: the subintent as root, its one
   * signature, no other subintents and no signatures for them.
   */
  function CreateSignedPartialTransaction(subintent: Subintent, signature: SignatureWithPublicKey)
    : (tx: SignedPartialTransaction)
    ensures Disassemble(tx) == Some((subintent, signature))
  {
    SignedPartialTransaction(
      partialTransaction := PartialTransaction(
        rootSubintent := subintent,
        nonRootSubintents := NonRootSubintents([])),
      rootSubintentSignatures := IntentSignatures([IntentSignature(signature)]),
      nonRootSubintentSignatures := NonRootSubintentSignatures([]))
  }

  /**
   * The root subintent and its signature, for a transaction that has exactly
   * one root signature and nothing besides its root; None for any other.
   */
  function Disassemble(tx: SignedPartialTransaction): Option<(Subintent, SignatureWithPublicKey)> {
    if && |tx.rootSubintentSignatures.signatures| == 1
       && tx.partialTransaction.nonRootSubintents.subintents == []
       && tx.nonRootSubintentSignatures.bySubintent == []
    then Some((tx.partialTransaction.rootSubintent, tx.rootSubintentSignatures.signatures[0].signature))
    else None
  }

  /** Every single-signer, single-intent transaction is the assembly of its root and signature. */
  lemma AssemblyIsOnlyInverse(tx: SignedPartialTransaction)
    requires Disassemble(tx).Some?
    ensures CreateSignedPartialTransaction(Disassemble(tx).value.0, Disassemble(tx).value.1) == tx
  {
  }

  /**
   * The pipeline end to end: the transaction assembled from a fill's
   * subintent carries the composed manifest unchanged under the one given
   * signature, ending with the limit order on the opposite side of the
   * user's order.
   */
  lemma FillTransactionCarriesTheFill(venue: AnthicConfig, instamint: InstamintConfig, account: AnthicAccount,
                                      order: NewUserOrder, useInstamint: bool, network: NetworkDefinition,
                                      expireAfterSecs: I64, curEpoch: U64, nonce: U64, now: I64,
                                      signature: SignatureWithPublicKey)
    requires FillManifest(venue, instamint, account, order, useInstamint).Ok?
    requires curEpoch + EPOCH_WINDOW < U64_LIMIT
    ensures var m := FillManifest(venue, instamint, account, order, useInstamint).value;
      var s := CreateFillSubintent(network, m, expireAfterSecs, curEpoch, nonce, now).value;
      var tx := CreateSignedPartialTransaction(s, signature);
      && tx.partialTransaction.rootSubintent.intentCore.instructions == m.instructions
      && tx.rootSubintentSignatures.signatures == [IntentSignature(signature)]
      && FillStep(m).sell == order.buy && FillStep(m).buy == order.sell
  {
  }
}
