/**
 * The admission gate: a set of wallet addresses in use. A transfer may start
 * only when neither of its two addresses is held; it then holds both until
 * its workflow run ends in `approve` or `reject`.
 *
 * `holders` is a ghost record of which admitted run holds which addresses,
 * keyed by a ticket; the invariant ties it to `lock` and says that no address
 * is held by two runs at once.
 */
module TransactionManager {
  import opened Wrappers
  import opened Types
  import opened Decision

  /** The addresses a transfer between `sender` and `receiver` needs; one address for a self-transfer. */
  function Pair(sender: Wallet, receiver: Wallet): (p: set<string>)
    ensures sender.address in p && receiver.address in p
    ensures forall a :: a in p ==> a == sender.address || a == receiver.address
    ensures |p| == if sender.address == receiver.address then 1 else 2
  {
    {sender.address, receiver.address}
  }

  class TransactionManager {
    var lock: set<string>
    ghost var holders: map<nat, set<string>>
    ghost var nextTicket: nat

    /** Every held address belongs to exactly one admitted run, and nothing else is held. */
    ghost predicate Valid()
      reads this
    {
      && (forall t :: t in holders ==> t < nextTicket)
      && (forall a :: a in lock <==> exists t :: t in holders && a in holders[t])
      && (forall t, u :: t in holders && u in holders && t != u ==> holders[t] !! holders[u])
    }

    constructor ()
      ensures Valid() && lock == {} && holders == map[]
    {
      lock := {};
      holders := map[];
      nextTicket := 0;
    }

    /** Busy when either address is held; free exactly when the pair is disjoint from the held set. */
    function IsLocked(sender: Wallet, receiver: Wallet): (locked: bool)
      reads this
      ensures !locked <==> Pair(sender, receiver) !! lock
    {
      sender.address in lock || receiver.address in lock
    }

    /** Adds both addresses; no other membership changes. */
    method LockWallets(sender: Wallet, receiver: Wallet)
      modifies this`lock
      ensures lock == old(lock) + Pair(sender, receiver)
    {
      lock := lock + {sender.address};
      lock := lock + {receiver.address};
    }

    /** Removes both addresses; every other held address stays held. */
    method UnlockWallets(sender: Wallet, receiver: Wallet)
      modifies this`lock
      ensures lock == old(lock) - Pair(sender, receiver)
    {
      lock := lock - {sender.address};
      lock := lock - {receiver.address};
    }

    /**
     * The check and the lock of `addTransaction` with nothing in between:
     * both addresses are taken together when neither is held, and nothing
     * is taken otherwise. `ticket` names the run that now holds them.
     */
    method TryAcquire(sender: Wallet, receiver: Wallet) returns (acquired: bool, ghost ticket: nat)
      requires Valid()
      modifies this
      ensures Valid()
      ensures acquired <==> Pair(sender, receiver) !! old(lock)
      ensures acquired ==> && lock == old(lock) + Pair(sender, receiver)
                           && ticket !in old(holders)
                           && holders == old(holders)[ticket := Pair(sender, receiver)]
      ensures !acquired ==> lock == old(lock) && holders == old(holders)
    {
      ticket := nextTicket;
      acquired := !IsLocked(sender, receiver);
      if acquired {
        ghost var p := Pair(sender, receiver);
        ghost var before := holders;
        LockWallets(sender, receiver);
        holders := holders[ticket := p];
        nextTicket := nextTicket + 1;
        forall a | a in lock
          ensures exists t :: t in holders && a in holders[t]
        {
          if a in p {
            assert ticket in holders && a in holders[ticket];
          } else {
            var t :| t in before && a in before[t];
            assert t in holders && a in holders[t];
          }
        }
        forall t | t in before
          ensures before[t] !! p
        {
          assert forall a :: a in before[t] ==> a in old(lock);
        }
      }
    }

    /** Frees the two addresses a run holds under `ticket`; the other runs keep theirs. */
    method Release(sender: Wallet, receiver: Wallet, ghost ticket: nat)
      requires Valid()
      requires ticket in holders && holders[ticket] == Pair(sender, receiver)
      modifies this
      ensures Valid()
      ensures lock == old(lock) - Pair(sender, receiver)
      ensures holders == old(holders) - {ticket}
    {
      ghost var p := Pair(sender, receiver);
      ghost var before := holders;
      UnlockWallets(sender, receiver);
      holders := holders - {ticket};
      forall a | a in lock
        ensures exists t :: t in holders && a in holders[t]
      {
        var t :| t in before && a in before[t];
        assert t != ticket;
        assert t in holders && a in holders[t];
      }
      forall a | exists t :: t in holders && a in holders[t]
        ensures a in lock
      {
        var t :| t in holders && a in holders[t];
        assert before[t] !! p;
      }
    }

    /**
     * `processTransaction`: runs the workflow on the admitted context and
     * releases both addresses when it reaches `approve` or `reject`. The
     * answer is `true` for an approval.
     */
    method ProcessTransaction(cfg: Config, env: Env, ctx: Context, ghost ticket: nat) returns (approved: bool)
      requires Valid()
      requires ticket in holders && holders[ticket] == Pair(ctx.sender, ctx.receiver)
      modifies this
      ensures Valid()
      ensures approved <==> Decide(cfg, env, ctx).state == Approve
      ensures lock == old(lock) - Pair(ctx.sender, ctx.receiver)
      ensures holders == old(holders) - {ticket}
    {
      var outcome := Decide(cfg, env, ctx);
      approved := outcome.state == Approve;
      Release(ctx.sender, ctx.receiver, ticket);
    }

    /**
     * One round of `addTransaction`: if either address is busy the caller
     * would sleep and check again, which is reported as `None`; otherwise
     * the run is admitted, decided and released, and its verdict returned.
     * Either way the held set is the same afterwards.
     */
    method AddTransaction(cfg: Config, env: Env, ctx: Context) returns (result: Option<bool>)
      requires Valid()
      modifies this
      ensures Valid()
      ensures result.None? <==> old(IsLocked(ctx.sender, ctx.receiver))
      ensures result.Some? ==> (result.value <==> Decide(cfg, env, ctx).state == Approve)
      ensures lock == old(lock) && holders == old(holders)
    {
      ghost var held := holders;
      var acquired, ticket := TryAcquire(ctx.sender, ctx.receiver);
      if !acquired {
        return None;
      }
      var approved := ProcessTransaction(cfg, env, ctx, ticket);
      MapPutRemove(held, ticket, Pair(ctx.sender, ctx.receiver));
      result := Some(approved);
    }
  }

  lemma MapPutRemove(m: map<nat, set<string>>, k: nat, v: set<string>)
    requires k !in m
    ensures m[k := v] - {k} == m
  {
  }

  /** Locking a pair that was free and unlocking it again restores the held set exactly. */
  lemma LockThenUnlockRestores(held: set<string>, sender: Wallet, receiver: Wallet)
    requires Pair(sender, receiver) !! held
    ensures (held + Pair(sender, receiver)) - Pair(sender, receiver) == held
    ensures |held + Pair(sender, receiver)| == |held| + (if sender.address == receiver.address then 1 else 2)
  {
  }
}
