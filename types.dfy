/**
 * The shapes the decision workflow works on: a wallet, a transaction and the
 * context one workflow run owns, plus the pair of scores the two risk
 * collaborators hand back.
 */
module Types {
  import opened Wrappers

  /**
   * A wallet. `riskScore` is absent until a score has been computed;
   * `blocked` is optional in the source and only ever read for its
   * truthiness, so an absent flag is modelled as `false`.
   */
  datatype Wallet = Wallet(address: string, riskScore: Option<real>, blocked: bool, isExternal: bool)

  /** A transfer; the three outcome fields stay unset until a workflow stage writes them. */
  datatype Transaction = Transaction(
    sender: string,
    receiver: string,
    amount: real,
    rejected: Option<bool>,
    approved: Option<bool>,
    rejectionReason: Option<string>)

  /** The unit of work of one workflow run. */
  datatype Context = Context(receiver: Wallet, sender: Wallet, transaction: Transaction, totalRisk: Option<real>)

  /** The scores returned by the external lookup and by the store load. */
  datatype Scores = Scores(senderRiskScore: real, receiverRiskScore: real)

  /** JavaScript truthiness of an optional boolean: only a present `true` counts. */
  predicate Truthy(b: Option<bool>) {
    b == Some(true)
  }

  /**
   * `a + b >= limit` on two optional scores as JavaScript evaluates it: an
   * absent operand makes the sum NaN, and NaN compares false to everything.
   */
  predicate SumAtLeast(a: Option<real>, b: Option<real>, limit: real) {
    a.Some? && b.Some? && a.value + b.value >= limit
  }

  /** `s >= limit` on an optional score, false when the score is absent. */
  predicate AtLeast(s: Option<real>, limit: real) {
    s.Some? && s.value >= limit
  }
}
