/** The async mutex: a semaphore with one permit that is never closed or refilled. */
module Mutex {
  import opened Tally
  import opened Semaphore

  /** `lock` starts, polls and may drop an acquire of one permit, `try_lock` tries one; a guard is
      dropped or leaked. */
  predicate MutexOp(op: Op) { SingleOp(op) && !op.DoAddPermits? && !op.DoClose? }

  lemma {:induction false} LedgerOnlyMoves(s: Sem, ops: seq<Op>, t: Sem)
    requires Valid(s) && Reaches(s, ops, t) && forall i :: 0 <= i < |ops| ==> MutexOp(ops[i])
    ensures t.ledger.initial == s.ledger.initial && t.ledger.added == s.ledger.added && t.closed == s.closed
    decreases |ops|
  {
    if ops != [] {
      StepKeeps(s, ops[0]);
      StepLedger(s, ops[0]);
      StepStaysOpen(s, ops[0]);
      LedgerOnlyMoves(Step(s, ops[0]), ops[1..], t);
    }
  }

  lemma StepStaysOpen(s: Sem, op: Op)
    requires Valid(s) && Enabled(s, op) && MutexOp(op)
    ensures Step(s, op).closed == s.closed
  {
    match op {
      case DoDropFuture(id) =>
        if id !in s.waiters && s.futures[id].granted {
          DropUnlinked(s, id);
          GrantServesPrefix(Released(s.(futures := s.futures - {id}), s.futures[id].permits));
        }
      case DoDropPermit(g) =>
        GrantServesPrefix(Released(s.(ledger := s.ledger.(held := s.ledger.held - {g})), s.ledger.held[g]));
      case _ =>
    }
  }

  /** Over every run there is at most one guard; while there is one nothing is available or promised
      to anybody else; and whoever is parked waits for a guard, for a granted locker that has not yet
      run, or for a leaked guard. */
  lemma AtMostOneGuard(ops: seq<Op>, t: Sem)
    requires Reaches(New(1), ops, t) && forall i :: 0 <= i < |ops| ==> MutexOp(ops[i])
    ensures |t.ledger.held| <= 1
    ensures |t.ledger.held| == 1 ==> t.permits == 0 && Granted(t.futures) == map[]
    ensures t.waiters != [] ==> |t.ledger.held| + |Granted(t.futures)| + t.ledger.forgotten >= 1
    ensures !t.closed
  {
    NewIsValid(1);
    NobodyParkedWhilePermitFree(New(1), ops, t);
    LedgerOnlyMoves(New(1), ops, t);
    SumAtLeast(t.ledger.held);
    SumAtLeast(Granted(t.futures));
    NothingIsLost(New(1), ops, t);
    if t.waiters != [] && t.ledger.held == map[] && Granted(t.futures) == map[] {
      assert t.ledger.forgotten == 1;
    }
  }

  /** `try_lock` succeeds exactly when there is no guard, no granted locker and no leaked guard. */
  lemma TryLockIff(ops: seq<Op>, t: Sem, g: nat)
    requires Reaches(New(1), ops, t) && (forall i :: 0 <= i < |ops| ==> MutexOp(ops[i])) && g !in t.ledger.held
    ensures TryAcquire(t, 1, g).1 <==> t.ledger.held == map[] && Granted(t.futures) == map[] && t.ledger.forgotten == 0
  {
    NewIsValid(1);
    NobodyParkedWhilePermitFree(New(1), ops, t);
    LedgerOnlyMoves(New(1), ops, t);
    PermitsAreConserved(1, ops, t);
    AtMostOneGuard(ops, t);
    SumAtLeast(t.ledger.held);
    SumAtLeast(Granted(t.futures));
  }
}
