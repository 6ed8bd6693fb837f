/** The net transaction fee the handler adds to `total_transaction_fee`:
    computation cost plus storage cost minus storage rebate, read through
    `ctx.transaction.effects?.gasUsed?` with every missing figure taken as 0. */
module Fees {
  import opened Wrappers

  /** The gas figures of a transaction; any of them may be missing. */
  datatype GasCostSummary = GasCostSummary(
    computationCost: Option<nat>,
    storageCost: Option<nat>,
    storageRebate: Option<nat>)

  datatype TransactionEffects = TransactionEffects(gasUsed: Option<GasCostSummary>)

  /** The enclosing transaction as the handler sees it. */
  datatype Transaction = Transaction(effects: Option<TransactionEffects>)

  /** JavaScript `x || 0` on an optional gas figure. */
  function OrZero(figure: Option<nat>): nat
  {
    match figure
    case Some(n) => n
    case None => 0
  }

  /** `effects?.gasUsed?`: undefined as soon as one link of the chain is. */
  function GasUsed(tx: Transaction): Option<GasCostSummary>
  {
    match tx.effects
    case Some(e) => e.gasUsed
    case None => None
  }

  /** The three figures the fee is made of. */
  datatype GasField = Computation | Storage | Rebate

  /** One figure through the whole optional chain, `|| 0` applied. */
  function Figure(tx: Transaction, field: GasField): nat
  {
    match GasUsed(tx)
    case None => 0
    case Some(g) =>
      match field
      case Computation => OrZero(g.computationCost)
      case Storage => OrZero(g.storageCost)
      case Rebate => OrZero(g.storageRebate)
  }

  function ComputationCost(tx: Transaction): nat { Figure(tx, Computation) }
  function StorageCost(tx: Transaction): nat { Figure(tx, Storage) }
  function StorageRebate(tx: Transaction): nat { Figure(tx, Rebate) }

  /** The fee, exact and unclamped. */
  function NetFee(tx: Transaction): (fee: int)
    ensures fee + StorageRebate(tx) == ComputationCost(tx) + StorageCost(tx)
    ensures fee < 0 <==> StorageRebate(tx) > ComputationCost(tx) + StorageCost(tx)
    ensures 0 - StorageRebate(tx) as int <= fee <= ComputationCost(tx) + StorageCost(tx)
    ensures GasUsed(tx).None? ==> fee == 0
  {
    ComputationCost(tx) + StorageCost(tx) - StorageRebate(tx)
  }

  /** The fee in terms of the raw optional figures of a present gas summary. */
  lemma NetFeeOfSummary(tx: Transaction, g: GasCostSummary)
    requires GasUsed(tx) == Some(g)
    ensures NetFee(tx) == OrZero(g.computationCost) + OrZero(g.storageCost) - OrZero(g.storageRebate)
    ensures g.computationCost.None? && g.storageCost.None? && g.storageRebate.None? ==> NetFee(tx) == 0
  {
  }

  /** All figures absent gives 0; (1000, 500, 300) gives 1200; a rebate alone is negative. */
  lemma NetFeeExamples()
    ensures NetFee(Transaction(None)) == 0
    ensures NetFee(Transaction(Some(TransactionEffects(Some(GasCostSummary(None, None, None)))))) == 0
    ensures NetFee(Transaction(Some(TransactionEffects(Some(GasCostSummary(Some(1000), Some(500), Some(300))))))) == 1200
    ensures NetFee(Transaction(Some(TransactionEffects(Some(GasCostSummary(None, None, Some(5))))))) == -5
  {
  }
}
