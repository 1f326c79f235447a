/**
 * Properties of whole workflow runs: when a transfer is approved, what a run
 * leaves in the context, which wallet ends up blocked, and worked scenarios
 * (an approved internal transfer, an external sender, scores over the block
 * limit). Also the two readings of `totalRisk` after the external lookup.
 */
module DecisionProperties {
  import opened Wrappers
  import opened Types
  import opened Decision

  function Sum(sc: Scores): real {
    sc.senderRiskScore + sc.receiverRiskScore
  }

  /**
   * Reference definition of an admissible transfer: the receiver is not
   * blocked, the transaction was not already rejected, an external party's
   * lookup succeeded below the internal risk limit, and the stored scores
   * were loaded and add up to less than the internal-to-internal limit.
   */
  predicate Admissible(cfg: Config, env: Env, ctx: Context) {
    && !ctx.receiver.blocked
    && !Truthy(ctx.transaction.rejected)
    && (EitherExternal(ctx) ==> env.lookup.Some? && Sum(env.lookup.value) < cfg.internalRiskLimit)
    && env.stored.Some?
    && Sum(env.stored.value) < cfg.internalToInternalRiskLimit
  }

  // ---------------------------------------------------------------------------
  // Runs from each intermediate state

  lemma RunFromCheck(cfg: Config, env: Env, ctx: Context)
    ensures Run(cfg, env, CheckTransactionApproval, ctx) ==
      if Truthy(ctx.transaction.rejected)
      then Outcome(Reject, Penalty(cfg, ctx), [CheckTransactionApproval, Reject])
      else Outcome(Approve, ctx, [CheckTransactionApproval, Approve])
  {
    var t := ApprovalTarget(cfg, ctx);
    assert Step(cfg, env, CheckTransactionApproval, ctx) == Enter(cfg, t, ctx);
  }

  /** The context the policy stage produces once the scores have been loaded. */
  function AfterPolicy(cfg: Config, ctx: Context, st: Scores): Context {
    Policy(cfg, LoadScores(ctx, st))
  }

  lemma RunFromUpdate(cfg: Config, env: Env, ctx: Context)
    ensures env.stored.None? ==>
      Run(cfg, env, UpdateRiskScores, ctx) == Outcome(Reject, Penalty(cfg, ctx), [UpdateRiskScores, Reject])
    ensures env.stored.Some? ==>
      var c := AfterPolicy(cfg, ctx, env.stored.value);
      var o := Run(cfg, env, CheckTransactionApproval, c);
      Run(cfg, env, UpdateRiskScores, ctx) == Outcome(o.state, o.ctx, [UpdateRiskScores] + o.visited)
  {
  }

  /** The context the external-lookup stage hands on to the store load. */
  function AfterLookup(cfg: Config, ctx: Context, sc: Scores): Context {
    CrossAssign(cfg, CaptureExternal(ctx, sc))
  }

  lemma RunFromLookup(cfg: Config, env: Env, ctx: Context)
    ensures env.lookup.None? ==>
      Run(cfg, env, GetExternalWalletRiskScore, ctx) ==
        Outcome(Reject, Penalty(cfg, ctx), [GetExternalWalletRiskScore, Reject])
    ensures env.lookup.Some? ==>
      var o := Run(cfg, env, UpdateRiskScores, AfterLookup(cfg, ctx, env.lookup.value));
      Run(cfg, env, GetExternalWalletRiskScore, ctx) == Outcome(o.state, o.ctx, [GetExternalWalletRiskScore] + o.visited)
  {
  }

  /** The context the policy stage sees on a successful run up to it. */
  function PolicyInput(cfg: Config, env: Env, ctx: Context): Context
    requires env.stored.Some?
    requires EitherExternal(ctx) ==> env.lookup.Some?
  {
    if EitherExternal(ctx) then AfterLookup(cfg, ctx, env.lookup.value) else ctx
  }

  /** A run from idle of a transfer with an external party starts with the lookup. */
  lemma DecideExternal(cfg: Config, env: Env, ctx: Context)
    requires EitherExternal(ctx)
    ensures var o := Run(cfg, env, GetExternalWalletRiskScore, ctx);
      Decide(cfg, env, ctx) == Outcome(o.state, o.ctx, [Idle] + o.visited)
  {
    assert Step(cfg, env, Idle, ctx) == (GetExternalWalletRiskScore, ctx);
  }

  /** A run from idle of an internal transfer to an unblocked receiver starts with the store load. */
  lemma DecideInternal(cfg: Config, env: Env, ctx: Context)
    requires !EitherExternal(ctx) && !ctx.receiver.blocked
    ensures var o := Run(cfg, env, UpdateRiskScores, ctx);
      Decide(cfg, env, ctx) == Outcome(o.state, o.ctx, [Idle] + o.visited)
  {
    assert Step(cfg, env, Idle, ctx) == (UpdateRiskScores, ctx);
  }

  /** The path through the policy stage: the verdict and the final context are the policy's. */
  lemma {:induction false} PolicyPath(cfg: Config, env: Env, ctx: Context)
    requires EitherExternal(ctx) ==> env.lookup.Some?
    requires EitherExternal(ctx) || !ctx.receiver.blocked
    requires env.stored.Some?
    ensures var c := AfterPolicy(cfg, PolicyInput(cfg, env, ctx), env.stored.value);
      var o := Decide(cfg, env, ctx);
      && CheckTransactionApproval in o.visited
      && o.state == (if Truthy(c.transaction.rejected) then Reject else Approve)
      && o.ctx == (if Truthy(c.transaction.rejected) then Penalty(cfg, c) else c)
  {
    var p := PolicyInput(cfg, env, ctx);
    var c := AfterPolicy(cfg, p, env.stored.value);
    RunFromCheck(cfg, env, c);
    RunFromUpdate(cfg, env, p);
    if EitherExternal(ctx) {
      RunFromLookup(cfg, env, ctx);
      DecideExternal(cfg, env, ctx);
    } else {
      DecideInternal(cfg, env, ctx);
    }
  }

  /** The path of a failed store load: rejected, with the penalty on what the earlier stages left. */
  lemma {:induction false} StoreFailsPath(cfg: Config, env: Env, ctx: Context)
    requires EitherExternal(ctx) ==> env.lookup.Some?
    requires EitherExternal(ctx) || !ctx.receiver.blocked
    requires env.stored.None?
    ensures var o := Decide(cfg, env, ctx);
      && o.state == Reject
      && o.ctx == Penalty(cfg, PolicyInputOrSelf(cfg, env, ctx))
      && CheckTransactionApproval !in o.visited
  {
    var p := PolicyInputOrSelf(cfg, env, ctx);
    RunFromUpdate(cfg, env, p);
    if EitherExternal(ctx) {
      RunFromLookup(cfg, env, ctx);
      DecideExternal(cfg, env, ctx);
    } else {
      DecideInternal(cfg, env, ctx);
    }
  }

  /**
   * Every run of the workflow, path by path: a failed lookup, the
   * block-sender path, a failed store load, and the policy path, where the
   * verdict is the policy's.
   */
  lemma {:induction false} DecidePaths(cfg: Config, env: Env, ctx: Context)
    ensures EitherExternal(ctx) && env.lookup.None? ==>
      Decide(cfg, env, ctx) == Outcome(Reject, Penalty(cfg, ctx), [Idle, GetExternalWalletRiskScore, Reject])
    ensures !EitherExternal(ctx) && ctx.receiver.blocked ==>
      Decide(cfg, env, ctx) == Outcome(Reject, Penalty(cfg, BlockSenderAction(ctx)), [Idle, BlockSender, Reject])
    ensures (EitherExternal(ctx) ==> env.lookup.Some?) && (EitherExternal(ctx) || !ctx.receiver.blocked) &&
            env.stored.None? ==>
      Decide(cfg, env, ctx).state == Reject &&
      Decide(cfg, env, ctx).ctx == Penalty(cfg, PolicyInputOrSelf(cfg, env, ctx)) &&
      CheckTransactionApproval !in Decide(cfg, env, ctx).visited
    ensures (EitherExternal(ctx) ==> env.lookup.Some?) && (EitherExternal(ctx) || !ctx.receiver.blocked) &&
            env.stored.Some? ==>
      var c := AfterPolicy(cfg, PolicyInput(cfg, env, ctx), env.stored.value);
      && CheckTransactionApproval in Decide(cfg, env, ctx).visited
      && (Truthy(c.transaction.rejected) ==>
            Decide(cfg, env, ctx).state == Reject && Decide(cfg, env, ctx).ctx == Penalty(cfg, c))
      && (!Truthy(c.transaction.rejected) ==>
            Decide(cfg, env, ctx).state == Approve && Decide(cfg, env, ctx).ctx == c)
  {
    if EitherExternal(ctx) && env.lookup.None? {
      RunFromLookup(cfg, env, ctx);
      DecideExternal(cfg, env, ctx);
    } else if !EitherExternal(ctx) && ctx.receiver.blocked {
      assert Step(cfg, env, Idle, ctx) == (BlockSender, BlockSenderAction(ctx));
    } else if env.stored.None? {
      StoreFailsPath(cfg, env, ctx);
    } else {
      PolicyPath(cfg, env, ctx);
    }
  }

  /** The context a failed store load leaves to the penalty. */
  function PolicyInputOrSelf(cfg: Config, env: Env, ctx: Context): Context {
    if EitherExternal(ctx) && env.lookup.Some? then AfterLookup(cfg, ctx, env.lookup.value) else ctx
  }

  // ---------------------------------------------------------------------------
  // End-to-end properties

  /** A transfer is approved exactly when it is admissible. */
  lemma {:induction false} ApproveIffAdmissible(cfg: Config, env: Env, ctx: Context)
    ensures Decide(cfg, env, ctx).state == Approve <==> Admissible(cfg, env, ctx)
  {
    DecidePaths(cfg, env, ctx);
    if env.stored.Some? && (EitherExternal(ctx) ==> env.lookup.Some?) && (EitherExternal(ctx) || !ctx.receiver.blocked) {
      var p := PolicyInput(cfg, env, ctx);
      var st := env.stored.value;
      var c := AfterPolicy(cfg, p, st);
      var loaded := LoadScores(p, st);
      assert SumAtLeast(loaded.sender.riskScore, loaded.receiver.riskScore, cfg.internalToInternalRiskLimit)
        <==> Sum(st) >= cfg.internalToInternalRiskLimit;
      if EitherExternal(ctx) {
        var sc := env.lookup.value;
        assert Truthy(p.transaction.rejected) <==>
          Truthy(ctx.transaction.rejected) || Sum(sc) >= cfg.internalRiskLimit;
      }
    }
  }

  /**
   * An approved run leaves the stored scores in place, both verdict flags
   * set the approving way, the blocked flags and the rejection reason as
   * they came in.
   */
  lemma {:induction false} ApprovedContext(cfg: Config, env: Env, ctx: Context)
    requires Decide(cfg, env, ctx).state == Approve
    ensures env.stored.Some?
    ensures var r := Decide(cfg, env, ctx).ctx; var st := env.stored.value;
      && r.sender == ctx.sender.(riskScore := Some(st.senderRiskScore))
      && r.receiver == ctx.receiver.(riskScore := Some(st.receiverRiskScore))
      && r.transaction == ctx.transaction.(rejected := Some(false), approved := Some(true))
    ensures EitherExternal(ctx) ==> env.lookup.Some?
    ensures Decide(cfg, env, ctx).ctx.totalRisk ==
      (if EitherExternal(ctx) then Some(Sum(env.lookup.value)) else ctx.totalRisk)
  {
    ApproveIffAdmissible(cfg, env, ctx);
    DecidePaths(cfg, env, ctx);
  }

  /**
   * The approval flag is written only by the policy stage: a run that
   * reaches `checkTransactionApproval` ends with exactly one verdict flag
   * set, matching its final state; any other run leaves it as it came in.
   */
  lemma {:induction false} VerdictFlags(cfg: Config, env: Env, ctx: Context)
    ensures var o := Decide(cfg, env, ctx);
      CheckTransactionApproval in o.visited ==>
        && o.ctx.transaction.rejected.Some? && o.ctx.transaction.approved.Some?
        && o.ctx.transaction.approved.value == !o.ctx.transaction.rejected.value
        && (o.state == Approve <==> o.ctx.transaction.approved.value)
    ensures var o := Decide(cfg, env, ctx);
      CheckTransactionApproval !in o.visited ==>
        o.state == Reject && o.ctx.transaction.approved == ctx.transaction.approved
  {
    DecidePaths(cfg, env, ctx);
  }

  /**
   * Only the block-sender path blocks anyone: the sender ends up blocked iff
   * it already was or both parties are internal and the receiver is
   * blocked; the receiver's flag never changes.
   */
  lemma {:induction false} BlockedFlags(cfg: Config, env: Env, ctx: Context)
    ensures var r := Decide(cfg, env, ctx).ctx;
      && (r.sender.blocked <==> ctx.sender.blocked || (!EitherExternal(ctx) && ctx.receiver.blocked))
      && r.receiver.blocked == ctx.receiver.blocked
  {
    DecidePaths(cfg, env, ctx);
  }

  /**
   * The block-sender path: an internal transfer to a blocked receiver is
   * rejected without consulting any collaborator, the sender is blocked,
   * both scores take the internal-to-internal penalty once, and the
   * transaction's outcome fields are left as they came in.
   */
  lemma {:induction false} BlockSenderPath(cfg: Config, env: Env, ctx: Context)
    requires !EitherExternal(ctx) && ctx.receiver.blocked
    ensures var o := Decide(cfg, env, ctx);
      && o.state == Reject
      && o.ctx.sender.blocked
      && o.ctx.transaction == ctx.transaction
      && ScaledBy(o.ctx.sender.riskScore, ctx.sender.riskScore, 1.0 + cfg.internalToInternalRejectionPenalty)
      && ScaledBy(o.ctx.receiver.riskScore, ctx.receiver.riskScore, 1.0 + cfg.internalToInternalRejectionPenalty)
  {
    DecidePaths(cfg, env, ctx);
  }

  /**
   * The two blocking states lead straight to `reject`, whose entry applies
   * the rejection penalty to the context the blocking state left behind.
   */
  lemma {:induction false} RunFromBlocking(cfg: Config, env: Env, s: State, ctx: Context)
    requires s == BlockSender || s == BlockWallet
    ensures Run(cfg, env, s, ctx) == Outcome(Reject, Penalty(cfg, ctx), [s, Reject])
  {
    assert Step(cfg, env, s, ctx) == (Reject, Penalty(cfg, ctx));
  }

  /**
   * A rejected internal transfer that reached the policy: the final scores
   * are the stored scores with the internal-to-internal penalty applied
   * exactly once.
   */
  lemma {:induction false} InternalRejectPenalizedOnce(cfg: Config, env: Env, ctx: Context)
    requires BothInternal(ctx) && !ctx.receiver.blocked && env.stored.Some?
    requires Decide(cfg, env, ctx).state == Reject
    ensures var r := Decide(cfg, env, ctx).ctx; var st := env.stored.value;
      var f := 1.0 + cfg.internalToInternalRejectionPenalty;
      && r.sender.riskScore.Some? && r.sender.riskScore.value == st.senderRiskScore * f
      && r.receiver.riskScore.Some? && r.receiver.riskScore.value == st.receiverRiskScore * f
      && r.transaction.rejected == Some(true) && r.transaction.approved == Some(false)
  {
    DecidePaths(cfg, env, ctx);
  }

  // ---------------------------------------------------------------------------
  // Worked scenarios

  function Internal(address: string, score: Option<real>, blocked: bool): Wallet {
    Wallet(address, score, blocked, false)
  }

  function External(address: string, score: Option<real>): Wallet {
    Wallet(address, score, false, true)
  }

  function NewContext(sender: Wallet, receiver: Wallet): Context {
    Context(receiver, sender, Transaction(sender.address, receiver.address, 10.0, None, None, None), None)
  }

  /** Two internal wallets whose stored scores add up to 30, below a limit of 300: approved, scores as stored. */
  lemma ScenarioApprove(cfg: Config)
    requires cfg.internalToInternalRiskLimit == 300.0
    ensures var ctx := NewContext(Internal("user-1", Some(10.0), false), Internal("user-2", Some(20.0), false));
      var o := Decide(cfg, Env(None, Some(Scores(10.0, 20.0))), ctx);
      && o.state == Approve
      && o.ctx.sender.riskScore == Some(10.0) && o.ctx.receiver.riskScore == Some(20.0)
      && o.ctx.transaction.approved == Some(true) && o.ctx.transaction.rejected == Some(false)
  {
    var ctx := NewContext(Internal("user-1", Some(10.0), false), Internal("user-2", Some(20.0), false));
    var env := Env(None, Some(Scores(10.0, 20.0)));
    ApproveIffAdmissible(cfg, env, ctx);
    ApprovedContext(cfg, env, ctx);
  }

  /**
   * External sender, internal receiver with score 50: the lookup answers 80
   * and 40 (total 120, below a limit of 200), so the receiver briefly holds
   * 120, but the final scores are the stored ones.
   */
  lemma ScenarioExternalSender(cfg: Config)
    requires cfg.internalRiskLimit == 200.0 && cfg.internalToInternalRiskLimit == 300.0
    ensures var ctx := NewContext(External("ext-1", None), Internal("user-2", Some(50.0), false));
      var env := Env(Some(Scores(80.0, 40.0)), Some(Scores(5.0, 7.0)));
      var o := Decide(cfg, env, ctx);
      && AfterLookup(cfg, ctx, env.lookup.value).receiver.riskScore == Some(120.0)
      && o.state == Approve
      && o.ctx.sender.riskScore == Some(5.0) && o.ctx.receiver.riskScore == Some(7.0)
  {
    var ctx := NewContext(External("ext-1", None), Internal("user-2", Some(50.0), false));
    var env := Env(Some(Scores(80.0, 40.0)), Some(Scores(5.0, 7.0)));
    ApproveIffAdmissible(cfg, env, ctx);
    ApprovedContext(cfg, env, ctx);
  }

  /**
   * Stored scores 400 and 100 against a block limit of 350: the transfer is
   * rejected, but the sender is not blocked, because `blockWallet` is never
   * entered.
   */
  lemma ScenarioOverBlockLimit(cfg: Config)
    requires cfg.internalToInternalRiskLimit == 300.0 && cfg.blockLimit == 350.0
    ensures var ctx := NewContext(Internal("user-1", Some(0.0), false), Internal("user-2", Some(0.0), false));
      var o := Decide(cfg, Env(None, Some(Scores(400.0, 100.0))), ctx);
      && o.state == Reject
      && !o.ctx.sender.blocked
      && BlockWallet !in o.visited
  {
    var ctx := NewContext(Internal("user-1", Some(0.0), false), Internal("user-2", Some(0.0), false));
    var env := Env(None, Some(Scores(400.0, 100.0)));
    ApproveIffAdmissible(cfg, env, ctx);
    BlockedFlags(cfg, env, ctx);
  }

  // ---------------------------------------------------------------------------
  // The two readings of `totalRisk` after the external lookup

  /**
   * As written: when the caller supplied no `totalRisk`, the internal
   * party's score is wiped and the internal risk limit never rejects,
   * whatever the lookup returned.
   */
  lemma AsWrittenLookupIgnoresLimit(cfg: Config, ctx: Context, sc: Scores)
    requires ctx.totalRisk.None?
    requires OnlySenderExternal(ctx) || OnlyReceiverExternal(ctx)
    ensures var r := CrossAssign(cfg, CaptureExternalAsWritten(ctx, sc));
      && r.transaction == ctx.transaction
      && (OnlySenderExternal(ctx) ==> r.receiver.riskScore.None?)
      && (OnlyReceiverExternal(ctx) ==> r.sender.riskScore.None?)
  {
  }

  /** A concrete lookup of 150 + 150 against a limit of 200 that the code as written lets through. */
  lemma AsWrittenCounterexample(cfg: Config)
    requires cfg.internalRiskLimit == 200.0
    ensures var ctx := NewContext(Internal("user-1", None, false), External("user-2", None));
      var sc := Scores(150.0, 150.0);
      && Sum(sc) >= cfg.internalRiskLimit
      && !Truthy(CrossAssign(cfg, CaptureExternalAsWritten(ctx, sc)).transaction.rejected)
      && Truthy(AfterLookup(cfg, ctx, sc).transaction.rejected)
  {
  }

  /**
   * As intended: after the lookup stage the internal party of a mixed
   * transfer holds the combined score, the external party keeps its
   * looked-up score, and the transaction is marked rejected exactly when the
   * combined score reaches the internal risk limit.
   */
  lemma LookupStage(cfg: Config, ctx: Context, sc: Scores)
    ensures var r := AfterLookup(cfg, ctx, sc);
      && (OnlySenderExternal(ctx) ==>
            r.receiver.riskScore == Some(Sum(sc)) && r.sender.riskScore == Some(sc.senderRiskScore))
      && (OnlyReceiverExternal(ctx) ==>
            r.sender.riskScore == Some(Sum(sc)) && r.receiver.riskScore == Some(sc.receiverRiskScore))
      && (Truthy(r.transaction.rejected) <==> Truthy(ctx.transaction.rejected) || Sum(sc) >= cfg.internalRiskLimit)
      && (Sum(sc) >= cfg.internalRiskLimit ==> r.transaction.rejectionReason == Some(InternalRiskReason))
      && r.sender.blocked == ctx.sender.blocked && r.receiver.blocked == ctx.receiver.blocked
  {
  }
}
