/**
 * The transaction decision workflow: the guards, the context updates of each
 * stage, and the state machine that strings the stages together.
 *
 * Every stage is a function from the context before to the context after.
 * The two collaborator calls (the external risk lookup and the load from the
 * risk store) do not happen here: their results arrive in an `Env`, where
 * `None` stands for a call that failed.
 */
module Decision {
  import opened Wrappers
  import opened Types

  /** The five thresholds and penalties; their values live outside the model. */
  datatype Config = Config(
    internalRiskLimit: real,
    internalToInternalRiskLimit: real,
    blockLimit: real,
    rejectionPenalty: real,
    internalToInternalRejectionPenalty: real)

  predicate ValidConfig(cfg: Config) {
    && cfg.internalRiskLimit >= 0.0
    && cfg.internalToInternalRiskLimit >= 0.0
    && cfg.blockLimit >= 0.0
    && cfg.rejectionPenalty >= 0.0
    && cfg.internalToInternalRejectionPenalty >= 0.0
  }

  /** What the collaborators answered for this run; `None` is a failed call. */
  datatype Env = Env(lookup: Option<Scores>, stored: Option<Scores>)

  const InternalRiskReason: string := "Internal risk limit exceeded"
  const CombinedRiskReason: string :=
    " sum of the risk scores for the two wallets is above 300 or if one of the wallets is marked as blocked."

  // ---------------------------------------------------------------------------
  // Which side is external

  predicate EitherExternal(ctx: Context) {
    ctx.sender.isExternal || ctx.receiver.isExternal
  }

  predicate OnlySenderExternal(ctx: Context) {
    ctx.sender.isExternal && !ctx.receiver.isExternal
  }

  predicate OnlyReceiverExternal(ctx: Context) {
    !ctx.sender.isExternal && ctx.receiver.isExternal
  }

  predicate BothInternal(ctx: Context) {
    !ctx.sender.isExternal && !ctx.receiver.isExternal
  }

  predicate BothExternal(ctx: Context) {
    ctx.sender.isExternal && ctx.receiver.isExternal
  }

  /** `w` and `w0` agree on everything but the risk score. */
  predicate SameButScore(w: Wallet, w0: Wallet) {
    w.address == w0.address && w.blocked == w0.blocked && w.isExternal == w0.isExternal
  }

  /** Both contexts name the same two parties (addresses and custody). */
  predicate SameParties(c: Context, c0: Context) {
    && c.sender.address == c0.sender.address && c.sender.isExternal == c0.sender.isExternal
    && c.receiver.address == c0.receiver.address && c.receiver.isExternal == c0.receiver.isExternal
  }

  /** `after` is `before` multiplied by `factor`; an absent score stays absent. */
  predicate ScaledBy(after: Option<real>, before: Option<real>, factor: real) {
    match before
    case None => after.None?
    case Some(s) => after.Some? && after.value == s * factor
  }

  // ---------------------------------------------------------------------------
  // Guards

  /**
   * The blocked test of the combined-risk policy. It reads the receiver's
   * flag twice, so the sender's flag never takes part.
   */
  function OneIsBlocked(ctx: Context): (b: bool)
    ensures b <==> ctx.receiver.blocked
  {
    ctx.receiver.blocked || ctx.receiver.blocked
  }

  /** Changing the sender's blocked flag never changes `OneIsBlocked`. */
  lemma OneIsBlockedIgnoresSender(ctx: Context, flag: bool)
    ensures OneIsBlocked(ctx.(sender := ctx.sender.(blocked := flag))) == OneIsBlocked(ctx)
  {
  }

  /** The guard of a transition candidate. */
  datatype Guard = Always | AnyExternal | ReceiverBlocked | OverBlockLimit

  /**
   * Guard evaluation. `isExternal` looks at either party, `isBlocked` at the
   * receiver alone (the same flag the policy stage reads), and the block-limit
   * guard at whichever party's score reaches the limit, inclusively; an
   * absent score never reaches it.
   */
  function Holds(cfg: Config, ctx: Context, g: Guard): (b: bool)
    ensures g == Always ==> b
    ensures g == AnyExternal ==> (b <==> !BothInternal(ctx))
    ensures g == ReceiverBlocked ==> (b <==> OneIsBlocked(ctx))
    ensures g == OverBlockLimit ==>
      (b <==> exists w :: w in {ctx.sender, ctx.receiver} && AtLeast(w.riskScore, cfg.blockLimit))
    ensures g == OverBlockLimit && ctx.sender.riskScore.None? && ctx.receiver.riskScore.None? ==> !b
  {
    match g
    case Always => true
    case AnyExternal => EitherExternal(ctx)
    case ReceiverBlocked => ctx.receiver.blocked
    case OverBlockLimit =>
      AtLeast(ctx.sender.riskScore, cfg.blockLimit) || AtLeast(ctx.receiver.riskScore, cfg.blockLimit)
  }

  // ---------------------------------------------------------------------------
  // States, events and transition tables

  datatype State =
    | Idle
    | GetExternalWalletRiskScore
    | UpdateRiskScores
    | CheckTransactionApproval
    | BlockSender
    | BlockWallet
    | Reject
    | Approve

  predicate IsFinal(s: State) {
    s == Reject || s == Approve
  }

  /** Distance to a final state; every transition lowers it. */
  function Rank(s: State): nat {
    match s
    case Idle => 5
    case GetExternalWalletRiskScore => 4
    case UpdateRiskScores => 3
    case CheckTransactionApproval => 2
    case BlockSender => 1
    case BlockWallet => 1
    case Reject => 0
    case Approve => 0
  }

  /** The verdict event sent after the policy stage. */
  datatype Event = ApproveTransaction | RejectTransaction

  /** One entry of a guarded transition list. */
  datatype Candidate = Candidate(guard: Guard, target: State)

  /**
   * The target of the first candidate whose guard holds, or `current` when
   * no guard holds (no transition is taken).
   */
  function Select(cfg: Config, ctx: Context, cands: seq<Candidate>, current: State): (t: State)
    ensures (forall i :: 0 <= i < |cands| ==> !Holds(cfg, ctx, cands[i].guard)) ==> t == current
    ensures (exists i :: 0 <= i < |cands| && Holds(cfg, ctx, cands[i].guard)) ==>
      exists i :: 0 <= i < |cands| && Holds(cfg, ctx, cands[i].guard) && t == cands[i].target &&
        forall j :: 0 <= j < i ==> !Holds(cfg, ctx, cands[j].guard)
  {
    if cands == [] then current
    else if Holds(cfg, ctx, cands[0].guard) then cands[0].target
    else
      var t := Select(cfg, ctx, cands[1..], current);
      assert forall i :: 1 <= i < |cands| ==> cands[i] == cands[1..][i - 1];
      t
  }

  /** The candidates of `NEW_TRANSACTION` in the idle state, in order. */
  function NewTransactionCandidates(): (c: seq<Candidate>)
    ensures |c| == 3 && c[|c| - 1].guard == Always
    ensures forall i :: 0 <= i < |c| ==> c[i].target != Idle && !IsFinal(c[i].target)
    ensures c[0].guard == AnyExternal && c[1].guard == ReceiverBlocked
  {
    [ Candidate(AnyExternal, GetExternalWalletRiskScore),
      Candidate(ReceiverBlocked, BlockSender),
      Candidate(Always, UpdateRiskScores) ]
  }

  /** The candidates of the verdict events in `checkTransactionApproval`, in order. */
  function ApprovalCandidates(ev: Event): (c: seq<Candidate>)
    ensures c != [] && c[0].guard == Always
    ensures ev == ApproveTransaction ==> forall i :: 0 <= i < |c| ==> c[i].target == Approve
    ensures ev == RejectTransaction ==>
      c[0].target == Reject && |c| > 1 && c[|c| - 1] == Candidate(OverBlockLimit, BlockWallet)
  {
    match ev
    case ApproveTransaction => [Candidate(Always, Approve)]
    case RejectTransaction => [Candidate(Always, Reject), Candidate(OverBlockLimit, BlockWallet)]
  }

  /**
   * Start routing: an external party wins over any blocked flag; then a
   * blocked receiver; otherwise the risk scores are refreshed.
   */
  function StartTarget(cfg: Config, ctx: Context): (t: State)
    ensures t == GetExternalWalletRiskScore <==> EitherExternal(ctx)
    ensures t == BlockSender <==> !EitherExternal(ctx) && ctx.receiver.blocked
    ensures t == UpdateRiskScores <==> !EitherExternal(ctx) && !ctx.receiver.blocked
  {
    var cands := NewTransactionCandidates();
    assert Holds(cfg, ctx, cands[2].guard);
    var t := Select(cfg, ctx, cands, Idle);
    assert Holds(cfg, ctx, cands[0].guard) ==> t == cands[0].target;
    assert !Holds(cfg, ctx, cands[0].guard) && Holds(cfg, ctx, cands[1].guard) ==> t == cands[1].target;
    t
  }

  /** The event the policy stage sends: a rejection iff `rejected` is truthy. */
  function VerdictEvent(ctx: Context): (ev: Event)
    ensures ev == RejectTransaction <==> Truthy(ctx.transaction.rejected)
    ensures ev == ApproveTransaction <==> !Truthy(ctx.transaction.rejected)
  {
    if Truthy(ctx.transaction.rejected) then RejectTransaction else ApproveTransaction
  }

  /**
   * Verdict routing. A rejection always goes to `reject`: the unguarded
   * candidate comes first, so the block-limit candidate is never taken.
   */
  function ApprovalTarget(cfg: Config, ctx: Context): (t: State)
    ensures t == Approve <==> !Truthy(ctx.transaction.rejected)
    ensures t == Reject <==> Truthy(ctx.transaction.rejected)
  {
    var cands := ApprovalCandidates(VerdictEvent(ctx));
    assert Holds(cfg, ctx, cands[0].guard);
    Select(cfg, ctx, cands, CheckTransactionApproval)
  }

  // ---------------------------------------------------------------------------
  // Context updates of the stages

  /** `blockSender`: the sender becomes blocked; nothing else changes. */
  function BlockSenderAction(ctx: Context): (r: Context)
    ensures r.sender.blocked
    ensures SameButBlocked(r.sender, ctx.sender)
    ensures r.receiver == ctx.receiver && r.transaction == ctx.transaction && r.totalRisk == ctx.totalRisk
  {
    ctx.(sender := ctx.sender.(blocked := true))
  }

  /** `blockWallet`: a fresh context whose sender is a blocked copy. */
  function BlockWalletAction(ctx: Context): (r: Context)
    ensures r.sender.blocked
    ensures SameButBlocked(r.sender, ctx.sender)
    ensures r.receiver == ctx.receiver && r.transaction == ctx.transaction && r.totalRisk == ctx.totalRisk
  {
    Context(ctx.receiver, Wallet(ctx.sender.address, ctx.sender.riskScore, true, ctx.sender.isExternal),
            ctx.transaction, ctx.totalRisk)
  }

  /** `w` and `w0` agree on everything but the blocked flag. */
  predicate SameButBlocked(w: Wallet, w0: Wallet) {
    w.address == w0.address && w.riskScore == w0.riskScore && w.isExternal == w0.isExternal
  }

  /**
   * The first action after a successful external lookup, as the workflow
   * intends it: both looked-up scores are stored and `totalRisk` is their sum.
   */
  function CaptureExternal(ctx: Context, sc: Scores): (r: Context)
    ensures r.sender.riskScore == Some(sc.senderRiskScore) && SameButScore(r.sender, ctx.sender)
    ensures r.receiver.riskScore == Some(sc.receiverRiskScore) && SameButScore(r.receiver, ctx.receiver)
    ensures r.totalRisk == Some(sc.senderRiskScore + sc.receiverRiskScore)
    ensures r.transaction == ctx.transaction
  {
    var withScores := ctx.(receiver := ctx.receiver.(riskScore := Some(sc.receiverRiskScore)),
                           sender := ctx.sender.(riskScore := Some(sc.senderRiskScore)));
    withScores.(totalRisk := Some(sc.senderRiskScore + sc.receiverRiskScore))
  }

  /**
   * The same action as the code writes it: the sum goes into a property
   * named `newExternalRiskScore`, which the context type does not have and
   * nothing reads, so `totalRisk` keeps whatever value it had before.
   */
  function CaptureExternalAsWritten(ctx: Context, sc: Scores): (r: Context)
    ensures r.sender.riskScore == Some(sc.senderRiskScore) && SameButScore(r.sender, ctx.sender)
    ensures r.receiver.riskScore == Some(sc.receiverRiskScore) && SameButScore(r.receiver, ctx.receiver)
    ensures r.totalRisk == ctx.totalRisk
    ensures r.transaction == ctx.transaction
  {
    ctx.(receiver := ctx.receiver.(riskScore := Some(sc.receiverRiskScore)),
         sender := ctx.sender.(riskScore := Some(sc.senderRiskScore)))
  }

  /**
   * The action on `EXTERNAL_RISK_CAPTURED`: when exactly one party is
   * external, the internal party's score becomes `totalRisk`; then a
   * `totalRisk` at or above the internal risk limit marks the transaction
   * rejected with its reason.
   */
  function CrossAssign(cfg: Config, ctx: Context): (r: Context)
    ensures OnlyReceiverExternal(ctx) ==> r.sender.riskScore == ctx.totalRisk
    ensures OnlySenderExternal(ctx) ==> r.receiver.riskScore == ctx.totalRisk
    ensures !OnlyReceiverExternal(ctx) ==> r.sender.riskScore == ctx.sender.riskScore
    ensures !OnlySenderExternal(ctx) ==> r.receiver.riskScore == ctx.receiver.riskScore
    ensures SameButScore(r.sender, ctx.sender) && SameButScore(r.receiver, ctx.receiver)
    ensures r.totalRisk == ctx.totalRisk
    ensures AtLeast(ctx.totalRisk, cfg.internalRiskLimit) ==>
      r.transaction == ctx.transaction.(rejected := Some(true), rejectionReason := Some(InternalRiskReason))
    ensures !AtLeast(ctx.totalRisk, cfg.internalRiskLimit) ==> r.transaction == ctx.transaction
  {
    var crossed :=
      if !ctx.sender.isExternal && ctx.receiver.isExternal then
        ctx.(sender := ctx.sender.(riskScore := ctx.totalRisk))
      else if !ctx.receiver.isExternal && ctx.sender.isExternal then
        ctx.(receiver := ctx.receiver.(riskScore := ctx.totalRisk))
      else
        ctx;
    if AtLeast(crossed.totalRisk, cfg.internalRiskLimit) then
      crossed.(transaction := crossed.transaction.(rejected := Some(true),
                                                     rejectionReason := Some(InternalRiskReason)))
    else
      crossed
  }

  /** The action after a successful store load: both scores are overwritten. */
  function LoadScores(ctx: Context, sc: Scores): (r: Context)
    ensures r.sender.riskScore == Some(sc.senderRiskScore) && SameButScore(r.sender, ctx.sender)
    ensures r.receiver.riskScore == Some(sc.receiverRiskScore) && SameButScore(r.receiver, ctx.receiver)
    ensures r.transaction == ctx.transaction && r.totalRisk == ctx.totalRisk
  {
    ctx.(receiver := ctx.receiver.(riskScore := Some(sc.receiverRiskScore)),
         sender := ctx.sender.(riskScore := Some(sc.senderRiskScore)))
  }

  /**
   * The combined-risk policy on `UPDATE_COMPLETE`. Afterwards exactly one
   * verdict holds. The transaction is rejected iff it was already rejected,
   * the two scores add up to at least the internal-to-internal limit, or the
   * receiver is blocked; the last two also set the explanatory reason.
   */
  function Policy(cfg: Config, ctx: Context): (r: Context)
    ensures r.transaction.rejected.Some? && r.transaction.approved.Some?
    ensures r.transaction.approved.value == !r.transaction.rejected.value
    ensures r.transaction.rejected.value <==>
      || Truthy(ctx.transaction.rejected)
      || SumAtLeast(ctx.sender.riskScore, ctx.receiver.riskScore, cfg.internalToInternalRiskLimit)
      || ctx.receiver.blocked
    ensures r.transaction.rejectionReason ==
      if SumAtLeast(ctx.sender.riskScore, ctx.receiver.riskScore, cfg.internalToInternalRiskLimit)
         || ctx.receiver.blocked
      then Some(CombinedRiskReason) else ctx.transaction.rejectionReason
    ensures r.transaction.sender == ctx.transaction.sender && r.transaction.receiver == ctx.transaction.receiver
    ensures r.transaction.amount == ctx.transaction.amount
    ensures r.sender == ctx.sender && r.receiver == ctx.receiver && r.totalRisk == ctx.totalRisk
  {
    var alreadyRejected := Truthy(ctx.transaction.rejected);
    var policyHit :=
      SumAtLeast(ctx.sender.riskScore, ctx.receiver.riskScore, cfg.internalToInternalRiskLimit)
      || OneIsBlocked(ctx);
    var rejected := alreadyRejected || policyHit;
    var reason := if policyHit then Some(CombinedRiskReason) else ctx.transaction.rejectionReason;
    ctx.(transaction := ctx.transaction.(rejectionReason := reason,
                                         rejected := Some(rejected),
                                         approved := Some(!rejected)))
  }

  /** `s + s * p`: the score grows by the factor `1 + p`. */
  function AddPenalty(score: Option<real>, p: real): (r: Option<real>)
    ensures ScaledBy(r, score, 1.0 + p)
  {
    match score
    case None => None
    case Some(s) =>
      assert s * (1.0 + p) == s + s * p;
      Some(s + s * p)
  }

  /** `s * q + s`, the internal-to-internal form: the score grows by the factor `1 + q`. */
  function AddInternalPenalty(score: Option<real>, q: real): (r: Option<real>)
    ensures ScaledBy(r, score, 1.0 + q)
  {
    match score
    case None => None
    case Some(s) =>
      assert s * (1.0 + q) == s * q + s;
      Some(s * q + s)
  }

  /**
   * The rejection penalty applied on entering `reject`: the internal party
   * of a mixed transfer grows by the rejection penalty, both parties of an
   * internal transfer by the internal-to-internal penalty, and a transfer
   * between two external wallets is left alone.
   */
  function Penalty(cfg: Config, ctx: Context): (r: Context)
    ensures OnlySenderExternal(ctx) ==>
      ScaledBy(r.receiver.riskScore, ctx.receiver.riskScore, 1.0 + cfg.rejectionPenalty)
    ensures OnlyReceiverExternal(ctx) ==>
      ScaledBy(r.sender.riskScore, ctx.sender.riskScore, 1.0 + cfg.rejectionPenalty)
    ensures BothInternal(ctx) ==>
      && ScaledBy(r.sender.riskScore, ctx.sender.riskScore, 1.0 + cfg.internalToInternalRejectionPenalty)
      && ScaledBy(r.receiver.riskScore, ctx.receiver.riskScore, 1.0 + cfg.internalToInternalRejectionPenalty)
    ensures BothExternal(ctx) ==> r == ctx
    ensures ctx.sender.isExternal ==> r.sender.riskScore == ctx.sender.riskScore
    ensures ctx.receiver.isExternal ==> r.receiver.riskScore == ctx.receiver.riskScore
    ensures SameButScore(r.sender, ctx.sender) && SameButScore(r.receiver, ctx.receiver)
    ensures r.transaction == ctx.transaction && r.totalRisk == ctx.totalRisk
  {
    if ctx.sender.isExternal && !ctx.receiver.isExternal then
      ctx.(receiver := ctx.receiver.(riskScore := AddPenalty(ctx.receiver.riskScore, cfg.rejectionPenalty)))
    else if ctx.receiver.isExternal && !ctx.sender.isExternal then
      ctx.(sender := ctx.sender.(riskScore := AddPenalty(ctx.sender.riskScore, cfg.rejectionPenalty)))
    else if !ctx.sender.isExternal && !ctx.receiver.isExternal then
      var q := cfg.internalToInternalRejectionPenalty;
      ctx.(sender := ctx.sender.(riskScore := AddInternalPenalty(ctx.sender.riskScore, q)),
           receiver := ctx.receiver.(riskScore := AddInternalPenalty(ctx.receiver.riskScore, q)))
    else
      ctx
  }

  /** With non-negative scores and penalties, the penalty lowers no score. */
  lemma PenaltyNeverLowers(cfg: Config, ctx: Context)
    requires ValidConfig(cfg)
    requires ctx.sender.riskScore.Some? ==> ctx.sender.riskScore.value >= 0.0
    requires ctx.receiver.riskScore.Some? ==> ctx.receiver.riskScore.value >= 0.0
    ensures var r := Penalty(cfg, ctx);
      && r.sender.riskScore.Some? == ctx.sender.riskScore.Some?
      && r.receiver.riskScore.Some? == ctx.receiver.riskScore.Some?
      && (ctx.sender.riskScore.Some? ==> r.sender.riskScore.value >= ctx.sender.riskScore.value)
      && (ctx.receiver.riskScore.Some? ==> r.receiver.riskScore.value >= ctx.receiver.riskScore.value)
  {
    var r := Penalty(cfg, ctx);
    if ctx.sender.riskScore.Some? {
      var s := ctx.sender.riskScore.value;
      assert s * cfg.rejectionPenalty >= 0.0;
      assert s * cfg.internalToInternalRejectionPenalty >= 0.0;
    }
    if ctx.receiver.riskScore.Some? {
      var s := ctx.receiver.riskScore.value;
      assert s * cfg.rejectionPenalty >= 0.0;
      assert s * cfg.internalToInternalRejectionPenalty >= 0.0;
    }
  }

  // ---------------------------------------------------------------------------
  // The machine

  /**
   * Entering a state: `blockSender`, `blockWallet` and `reject` update the
   * context on entry; the other states leave it as it is.
   */
  function Enter(cfg: Config, s: State, ctx: Context): (r: (State, Context))
    ensures r.0 == s && SameParties(r.1, ctx)
    ensures s == BlockSender || s == BlockWallet ==>
      && r.1.sender.blocked && SameButBlocked(r.1.sender, ctx.sender)
      && r.1.receiver == ctx.receiver && r.1.transaction == ctx.transaction
      && r.1.totalRisk == ctx.totalRisk
    ensures s == Reject ==> r.1 == Penalty(cfg, ctx)
    ensures s == Reject ==> r.1.transaction == ctx.transaction && r.1.totalRisk == ctx.totalRisk
    ensures s != BlockSender && s != BlockWallet && s != Reject ==> r.1 == ctx
  {
    match s
    case BlockSender => (s, BlockSenderAction(ctx))
    case BlockWallet => (s, BlockWalletAction(ctx))
    case Reject => (s, Penalty(cfg, ctx))
    case _ => (s, ctx)
  }

  /**
   * One transition out of a non-final state, fed the collaborator results:
   * the next state and the context once that state has been entered. A
   * failed collaborator call leads to `reject`.
   */
  function Step(cfg: Config, env: Env, s: State, ctx: Context): (r: (State, Context))
    requires !IsFinal(s)
    ensures Rank(r.0) < Rank(s)
    ensures r.0 != Idle && r.0 != BlockWallet
    ensures SameParties(r.1, ctx)
    ensures s == BlockSender || s == BlockWallet ==> r.0 == Reject
  {
    match s
    case Idle => Enter(cfg, StartTarget(cfg, ctx), ctx)
    case GetExternalWalletRiskScore =>
      (match env.lookup
       case None => Enter(cfg, Reject, ctx)
       case Some(sc) => (UpdateRiskScores, CrossAssign(cfg, CaptureExternal(ctx, sc))))
    case UpdateRiskScores =>
      (match env.stored
       case None => Enter(cfg, Reject, ctx)
       case Some(sc) => (CheckTransactionApproval, Policy(cfg, LoadScores(ctx, sc))))
    case CheckTransactionApproval => Enter(cfg, ApprovalTarget(cfg, ctx), ctx)
    case BlockSender => Enter(cfg, Reject, ctx)
    case BlockWallet => Enter(cfg, Reject, ctx)
  }

  /** A finished run: its final state, its final context, and every state it visited. */
  datatype Outcome = Outcome(state: State, ctx: Context, visited: seq<State>)

  /** Runs the machine from `s` until a final state is reached. */
  function Run(cfg: Config, env: Env, s: State, ctx: Context): (o: Outcome)
    decreases Rank(s)
    ensures IsFinal(o.state)
    ensures 1 <= |o.visited| <= Rank(s) + 1
    ensures o.visited[0] == s && o.visited[|o.visited| - 1] == o.state
    ensures forall i :: 1 <= i < |o.visited| ==> o.visited[i] != Idle && o.visited[i] != BlockWallet
    ensures SameParties(o.ctx, ctx)
  {
    if IsFinal(s) then Outcome(s, ctx, [s])
    else
      var next := Step(cfg, env, s, ctx);
      var o := Run(cfg, env, next.0, next.1);
      Outcome(o.state, o.ctx, [s] + o.visited)
  }

  /**
   * A workflow run for one new transaction: it always ends in `approve` or
   * `reject`, never passes through `blockWallet`, and keeps both parties.
   */
  function Decide(cfg: Config, env: Env, ctx: Context): (o: Outcome)
    ensures o.state == Approve || o.state == Reject
    ensures BlockWallet !in o.visited
    ensures SameParties(o.ctx, ctx)
  {
    Run(cfg, env, Idle, ctx)
  }
}
