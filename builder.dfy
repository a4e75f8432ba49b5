/**
 * The venue's subintent manifest builder, as create_fill_manifest uses it:
 * a builder made for one venue configuration that records, in order, the
 * steps appended to it and finally yields the manifest. How each step is
 * translated into ledger instructions is the library's and is not part of
 * this model; the model's builder adds no blobs and no child subintents.
 */
module Builder {
  import opened Ledger

  class ManifestBuilder {
    const venue: AnthicConfig
    var steps: seq<Step>

    constructor (venue: AnthicConfig)
      ensures this.venue == venue && steps == []
    {
      this.venue := venue;
      steps := [];
    }

    /** Appends a step that mints `toMint` into `account`, authorised by the badge `badge`. */
    method InstamintIntoAccount(instamint: InstamintConfig, account: Address, badge: LocalId, toMint: TokenAmount)
      modifies this
      ensures steps == old(steps) + [Instamint(instamint, account, badge, toMint)]
    {
      steps := steps + [Instamint(instamint, account, badge, toMint)];
    }

    /** Appends a limit order of `account` on the builder's venue: sell `sell`, buy `buy`, paying both fees. */
    method AddAnthicLimitOrder(account: Address, sell: TokenAmount, buy: TokenAmount,
                               settlementFee: Decimal, anthicFee: Decimal)
      modifies this
      ensures steps == old(steps) + [LimitOrder(venue, account, sell, buy, settlementFee, anthicFee)]
    {
      steps := steps + [LimitOrder(venue, account, sell, buy, settlementFee, anthicFee)];
    }

    /** The manifest whose instructions are the appended steps, in the order they were appended. */
    method Build() returns (m: SubintentManifest)
      ensures m.instructions == steps && m.blobs == [] && m.children == []
    {
      m := SubintentManifest(steps, [], []);
    }
  }
}
