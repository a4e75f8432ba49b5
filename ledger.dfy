/**
 * Values of the ledger and venue libraries that the fill pipeline in
 * service/src/core.rs builds: Radix `Decimal` and `u64`, token amounts,
 * the venue and instamint configuration, the account record, manifest
 * steps, the subintent with its header, and the signed partial transaction.
 * The libraries themselves are not part of this model; only the shape of
 * their values and the ledger's validity rule for an intent header are.
 */
module Ledger {

  datatype Option<+T> = None | Some(value: T)

  /** Radix `Decimal` is a signed 192-bit integer counting 10^-18 units. */
  const DECIMAL_MIN: int := -0x800000000000000000000000000000000000000000000000
  const DECIMAL_MAX: int := 0x800000000000000000000000000000000000000000000000 - 1

  type Decimal = x: int | DECIMAL_MIN <= x <= DECIMAL_MAX

  predicate InDecimalRange(x: int) {
    DECIMAL_MIN <= x <= DECIMAL_MAX
  }

  /** Radix `Decimal + Decimal`: the sum, or None where the library panics with "Overflow". */
  function CheckedAdd(a: Decimal, b: Decimal): (r: Option<Decimal>)
    ensures r.Some? <==> InDecimalRange(a + b)
    ensures r.Some? ==> r.value == a + b
  {
    if InDecimalRange(a + b) then Some(a + b) else None
  }

  const U64_LIMIT: int := 0x1_0000_0000_0000_0000
  type U64 = x: int | 0 <= x < U64_LIMIT
  type I64 = x: int | -0x8000_0000_0000_0000 <= x < 0x8000_0000_0000_0000
  type U8 = x: int | 0 <= x < 0x100

  type Address = seq<bv8>
  type LocalId = string

  /** A resource named by its symbol and an amount of it. */
  datatype TokenAmount = TokenAmount(symbol: string, amount: Decimal)

  /** The venue's configuration; of it the fill uses the flat settlement fee per resource. */
  datatype AnthicConfig = AnthicConfig(component: Address, settlementFeePerResource: map<string, Decimal>)

  /** The instamint service's configuration, passed through to the mint step. */
  datatype InstamintConfig = InstamintConfig(component: Address)

  /** The filler's account, with the badge that lets it instamint when it holds one. */
  datatype AnthicAccount = AnthicAccount(address: Address, instamintCustomerBadgeLocalId: Option<LocalId>)

  /** The steps of a fill manifest, at the level of the venue's manifest builder. */
  datatype Step =
    | Instamint(instamint: InstamintConfig, account: Address, badge: LocalId, toMint: TokenAmount)
    | LimitOrder(venue: AnthicConfig, account: Address, sell: TokenAmount, buy: TokenAmount,
                 settlementFee: Decimal, anthicFee: Decimal)

  type Blob = seq<bv8>
  datatype ChildSubintent = ChildSubintent(hash: seq<bv8>)

  /** A subintent manifest: its instructions, blobs and child subintents. */
  datatype SubintentManifest = SubintentManifest(instructions: seq<Step>, blobs: seq<Blob>, children: seq<ChildSubintent>)

  datatype NetworkDefinition = NetworkDefinition(id: U8, logicalName: string)

  datatype IntentHeader = IntentHeader(
    networkId: U8,
    startEpochInclusive: U64,
    endEpochExclusive: U64,
    minProposerTimestampInclusive: Option<int>,
    maxProposerTimestampExclusive: Option<int>,
    intentDiscriminator: U64)

  datatype Message = NoMessage | PlaintextMessage(text: string) | EncryptedMessage(bytes: seq<bv8>)

  datatype IntentCore = IntentCore(
    header: IntentHeader,
    blobs: seq<Blob>,
    message: Message,
    children: seq<ChildSubintent>,
    instructions: seq<Step>)

  datatype Subintent = Subintent(intentCore: IntentCore)

  /** `manifest.for_intent()`: the parts of a manifest that an intent core carries. */
  function ForIntent(m: SubintentManifest): (parts: (seq<Step>, seq<Blob>, seq<ChildSubintent>))
    ensures ManifestOf(parts) == m
  {
    (m.instructions, m.blobs, m.children)
  }

  /** Reassembles a manifest from the parts `ForIntent` separates. */
  function ManifestOf(parts: (seq<Step>, seq<Blob>, seq<ChildSubintent>)): SubintentManifest {
    SubintentManifest(parts.0, parts.1, parts.2)
  }

  /** The manifest a subintent carries. */
  function SubintentManifestOf(s: Subintent): SubintentManifest {
    ManifestOf((s.intentCore.instructions, s.intentCore.blobs, s.intentCore.children))
  }

  /**
   * The ledger accepts an intent proposed in `epoch` at proposer time
   * `timestamp` when both lie in the header's windows: epochs from the
   * inclusive start to the exclusive end, timestamps from the optional
   * inclusive minimum to the optional exclusive maximum.
   */
  predicate ValidAt(h: IntentHeader, epoch: int, timestamp: int) {
    && h.startEpochInclusive <= epoch < h.endEpochExclusive
    && (h.minProposerTimestampInclusive.None? || h.minProposerTimestampInclusive.value <= timestamp)
    && (h.maxProposerTimestampExclusive.None? || timestamp < h.maxProposerTimestampExclusive.value)
  }

  datatype SignatureWithPublicKey =
    | Secp256k1(signature: seq<bv8>)
    | Ed25519(publicKey: seq<bv8>, signature: seq<bv8>)

  datatype IntentSignature = IntentSignature(signature: SignatureWithPublicKey)
  datatype IntentSignatures = IntentSignatures(signatures: seq<IntentSignature>)
  datatype NonRootSubintents = NonRootSubintents(subintents: seq<Subintent>)
  datatype NonRootSubintentSignatures = NonRootSubintentSignatures(bySubintent: seq<IntentSignatures>)

  datatype PartialTransaction = PartialTransaction(rootSubintent: Subintent, nonRootSubintents: NonRootSubintents)

  datatype SignedPartialTransaction = SignedPartialTransaction(
    partialTransaction: PartialTransaction,
    rootSubintentSignatures: IntentSignatures,
    nonRootSubintentSignatures: NonRootSubintentSignatures)

  /*
   * What running the steps of a manifest in order does to one account's
   * holding of one resource, before the counterparty settles: a mint step
   * deposits its amount into the account it targets, and a limit order
   * withdraws what it sells together with both fees, which are charged in
   * the sold resource. This deposit rule is assumed of the venue's library;
   * the rebate of part of the settlement fee is not part of it.
   */

  function StepDeposit(step: Step, account: Address, symbol: string): int {
    match step
    case Instamint(_, to, _, minted) =>
      if to == account && minted.symbol == symbol then minted.amount else 0
    case LimitOrder(_, from, sell, _, settlementFee, anthicFee) =>
      if from == account && sell.symbol == symbol then -(sell.amount + settlementFee + anthicFee) else 0
  }

  /** Net deposit of `steps`, taken in order. */
  function NetDeposit(steps: seq<Step>, account: Address, symbol: string): int {
    if steps == [] then 0 else StepDeposit(steps[0], account, symbol) + NetDeposit(steps[1..], account, symbol)
  }

  /** No step withdraws more of the resource than the steps before it deposited. */
  ghost predicate SelfFunded(steps: seq<Step>, account: Address, symbol: string) {
    forall k :: 0 <= k <= |steps| ==> NetDeposit(steps[..k], account, symbol) >= 0
  }

  /** Running one more step adds exactly that step's deposit. */
  lemma {:induction false} NetDepositAppend(steps: seq<Step>, step: Step, account: Address, symbol: string)
    ensures NetDeposit(steps + [step], account, symbol)
         == NetDeposit(steps, account, symbol) + StepDeposit(step, account, symbol)
  {
    if steps == [] {
      assert [] + [step] == [step];
      assert [step][1..] == [];
    } else {
      assert (steps + [step])[1..] == steps[1..] + [step];
      NetDepositAppend(steps[1..], step, account, symbol);
    }
  }
}
