/** The semaphore: a permit count, a FIFO list of waiting acquire futures, and the permits that are
    out. Every operation runs under the state lock, so it is one step. */
module Semaphore {
  import opened Tally
  import opened Waiters

  const USIZE_MAX: nat := 0xFFFF_FFFF_FFFF_FFFF

  /** An `Acquire` future: how many permits it wants, and whether it was granted and not yet polled.
      It is linked exactly while its id is in the waiter list. */
  datatype Acquire = Acquire(permits: nat, granted: bool)

  /** Live permit guards by id, and what ever entered and left the semaphore. `lost` is what
      saturating addition has cut off. */
  datatype Ledger = Ledger(held: map<nat, nat>, initial: nat, added: nat, forgotten: nat, lost: nat)

  datatype Sem = Sem(permits: nat, closed: bool, waiters: seq<nat>, futures: map<nat, Acquire>, ledger: Ledger)

  datatype Outcome = Pending | Acquired | Closed

  function New(permits: nat): Sem {
    Sem(permits, false, [], map[], Ledger(map[], permits, 0, 0, 0))
  }

  // ----- Operations -----

  /** Ids in the list are those of live futures that have not been granted, each once. */
  predicate Linked(s: Sem) {
    && Distinct(s.waiters)
    && (forall w :: w in s.waiters ==> w in s.futures && !s.futures[w].granted)
  }

  /** The grant loop of `release_locked`: serve from the front while the head can be served. */
  function GrantAll(s: Sem): (t: Sem)
    requires Linked(s)
    ensures Linked(t)
    decreases |s.waiters|
  {
    if s.waiters == [] || s.futures[s.waiters[0]].permits > s.permits then s
    else
      var w := s.waiters[0];
      var f := s.futures[w];
      GrantAll(s.(permits := s.permits - f.permits, waiters := s.waiters[1..],
                  futures := s.futures[w := f.(granted := true)]))
  }

  function Released(s: Sem, n: nat): Sem {
    var total := s.permits + n;
    var kept := if total > USIZE_MAX then USIZE_MAX else total;
    s.(permits := kept, ledger := s.ledger.(lost := s.ledger.lost + (total - kept)))
  }

  function Release(s: Sem, n: nat): (t: Sem)
    requires Linked(s)
    ensures Linked(t)
  {
    GrantAll(Released(s, n))
  }

  function Start(s: Sem, id: nat, n: nat): Sem
    requires n > 0 && id !in s.futures
  {
    s.(futures := s.futures[id := Acquire(n, false)])
  }

  /** `Acquire::poll`; `g` is the id of the guard it may return, `proceed` the cooperative budget. */
  function Poll(s: Sem, id: nat, g: nat, proceed: bool): (Sem, Outcome)
    requires id in s.futures && g !in s.ledger.held
  {
    var f := s.futures[id];
    if !proceed then (s, Pending)
    else if f.granted then
      (s.(futures := s.futures[id := f.(granted := false)], ledger := s.ledger.(held := s.ledger.held[g := f.permits])), Acquired)
    else if s.closed then (s.(waiters := Without(s.waiters, id)), Closed)
    else if id !in s.waiters && s.waiters == [] && s.permits >= f.permits then
      (s.(permits := s.permits - f.permits, ledger := s.ledger.(held := s.ledger.held[g := f.permits])), Acquired)
    else if id !in s.waiters then (s.(waiters := s.waiters + [id]), Pending)
    else (s, Pending)
  }

  /** Dropping a linked future does not rerun the grant loop; dropping a granted one does. */
  function DropFuture(s: Sem, id: nat): Sem
    requires Linked(s) && id in s.futures
  {
    if id in s.waiters then
      s.(waiters := Without(s.waiters, id), futures := s.futures - {id})
    else if s.futures[id].granted then
      DropUnlinked(s, id);
      Release(s.(futures := s.futures - {id}), s.futures[id].permits)
    else s.(futures := s.futures - {id})
  }

  function DropPermit(s: Sem, g: nat): Sem
    requires Linked(s) && g in s.ledger.held
  {
    Release(s.(ledger := s.ledger.(held := s.ledger.held - {g})), s.ledger.held[g])
  }

  function Forget(s: Sem, g: nat): Sem
    requires g in s.ledger.held
  {
    s.(ledger := s.ledger.(held := s.ledger.held - {g}, forgotten := s.ledger.forgotten + s.ledger.held[g]))
  }

  function TryAcquire(s: Sem, n: nat, g: nat): (Sem, bool)
    requires n > 0 && g !in s.ledger.held
  {
    if s.closed || s.waiters != [] || s.permits < n then (s, false)
    else (s.(permits := s.permits - n, ledger := s.ledger.(held := s.ledger.held[g := n])), true)
  }

  function AddPermits(s: Sem, n: nat): Sem
    requires Linked(s)
  {
    if n == 0 then s else Release(s.(ledger := s.ledger.(added := s.ledger.added + n)), n)
  }

  function Close(s: Sem): Sem { s.(closed := true, waiters := []) }

  lemma DropUnlinked(s: Sem, id: nat)
    requires Linked(s) && id !in s.waiters
    ensures Linked(s.(futures := s.futures - {id}))
  {
  }

  // ----- The invariant -----

  ghost function Granted(futures: map<nat, Acquire>): map<nat, nat> {
    map id | id in futures && futures[id].granted :: futures[id].permits
  }

  /** Every permit, wherever it is. */
  ghost function Everything(s: Sem): nat {
    s.permits + Sum(s.ledger.held) + Sum(Granted(s.futures)) + s.ledger.forgotten + s.ledger.lost
  }

  ghost predicate Valid(s: Sem) {
    && Linked(s)
    && (s.closed ==> s.waiters == [])
    && (forall id :: id in s.futures ==> s.futures[id].permits > 0)
    && (forall g :: g in s.ledger.held ==> s.ledger.held[g] > 0)
    && Everything(s) == s.ledger.initial + s.ledger.added
  }

  /** The waiter at the front cannot be served with what is available. */
  predicate HeadBlocked(s: Sem)
    requires Linked(s)
  {
    s.waiters != [] ==> s.futures[s.waiters[0]].permits > s.permits
  }

  /** Every request, past and present, asks for one permit. */
  predicate SingleRequests(s: Sem) {
    && (forall id :: id in s.futures ==> s.futures[id].permits == 1)
    && (forall g :: g in s.ledger.held ==> s.ledger.held[g] == 1)
  }

  /** The state after serving the head. */
  function ServeHead(s: Sem): Sem
    requires Linked(s) && s.waiters != [] && s.futures[s.waiters[0]].permits <= s.permits
  {
    var w := s.waiters[0];
    var f := s.futures[w];
    s.(permits := s.permits - f.permits, waiters := s.waiters[1..], futures := s.futures[w := f.(granted := true)])
  }

  lemma ServeHeadStep(s: Sem)
    requires Linked(s) && s.waiters != [] && s.futures[s.waiters[0]].permits <= s.permits
    ensures Linked(ServeHead(s)) && GrantAll(s) == GrantAll(ServeHead(s))
  {
    TailDistinct(s.waiters);
  }

  /** Granting serves a prefix of the queue, and stops only at a head it cannot serve. */
  lemma {:induction false} GrantServesPrefix(s: Sem)
    requires Linked(s)
    ensures var t := GrantAll(s); var k := |s.waiters| - |t.waiters|;
            && 0 <= k && t.waiters == s.waiters[k..] && HeadBlocked(t)
            && t.futures.Keys == s.futures.Keys && t.closed == s.closed && t.ledger == s.ledger
    decreases |s.waiters|
  {
    if s.waiters != [] && s.futures[s.waiters[0]].permits <= s.permits {
      TailDistinct(s.waiters);
      GrantServesPrefix(ServeHead(s));
    }
  }

  /** Exactly the served futures are marked, and nothing else about any future changes. */
  lemma {:induction false} GrantMarks(s: Sem, id: nat)
    requires Linked(s) && id in s.futures
    ensures GrantAll(s).futures.Keys == s.futures.Keys
    ensures GrantAll(s).futures[id] ==
            if id in s.waiters && id !in GrantAll(s).waiters then s.futures[id].(granted := true) else s.futures[id]
    decreases |s.waiters|
  {
    GrantServesPrefix(s);
    if s.waiters != [] && s.futures[s.waiters[0]].permits <= s.permits {
      TailDistinct(s.waiters);
      GrantServesPrefix(ServeHead(s));
      GrantMarks(ServeHead(s), id);
      assert s.waiters == [s.waiters[0]] + s.waiters[1..];
    }
  }

  /** Granting moves permits from the pool to futures and loses none. */
  lemma {:induction false} GrantBalances(s: Sem)
    requires Linked(s)
    ensures Everything(GrantAll(s)) == Everything(s)
    decreases |s.waiters|
  {
    if s.waiters != [] && s.futures[s.waiters[0]].permits <= s.permits {
      TailDistinct(s.waiters);
      var w := s.waiters[0];
      var mid := ServeHead(s);
      assert Granted(mid.futures) == Granted(s.futures)[w := s.futures[w].permits];
      SumAdd(Granted(s.futures), w, s.futures[w].permits);
      GrantBalances(mid);
    }
  }

  lemma ReleaseKeeps(s: Sem, n: nat)
    requires Linked(s) && (s.closed ==> s.waiters == [])
    requires forall id :: id in s.futures ==> s.futures[id].permits > 0
    requires forall g :: g in s.ledger.held ==> s.ledger.held[g] > 0
    requires Everything(s) + n == s.ledger.initial + s.ledger.added
    ensures Valid(Release(s, n)) && HeadBlocked(Release(s, n))
    ensures SingleRequests(s) ==> SingleRequests(Release(s, n))
  {
    var r := Released(s, n);
    GrantServesPrefix(r);
    GrantBalances(r);
    forall id | id in s.futures ensures GrantAll(r).futures[id].permits == s.futures[id].permits {
      GrantMarks(r, id);
    }
  }

  /** A granted future turns its grant into a guard. */
  lemma CollectKeeps(s: Sem, id: nat, g: nat)
    requires Valid(s) && id in s.futures && s.futures[id].granted && g !in s.ledger.held
    ensures Valid(Poll(s, id, g, true).0)
  {
    var f := s.futures[id];
    SumRemove(Granted(s.futures), id);
    assert Granted(s.futures[id := f.(granted := false)]) == Granted(s.futures) - {id};
    SumAdd(s.ledger.held, g, f.permits);
  }

  /** A future without a grant is told of the close, takes permits that are free, or queues. */
  lemma UngrantedPollKeeps(s: Sem, id: nat, g: nat)
    requires Valid(s) && id in s.futures && !s.futures[id].granted && g !in s.ledger.held
    ensures Valid(Poll(s, id, g, true).0)
  {
    var f := s.futures[id];
    if s.closed {
      assert Without(s.waiters, id) == [];
    } else if id !in s.waiters && s.waiters == [] && s.permits >= f.permits {
      SumAdd(s.ledger.held, g, f.permits);
    } else if id !in s.waiters {
      AppendDistinct(s.waiters, id);
    }
  }

  lemma PollKeeps(s: Sem, id: nat, g: nat, proceed: bool)
    requires Valid(s) && id in s.futures && g !in s.ledger.held
    ensures var t := Poll(s, id, g, proceed).0;
            && Valid(t)
            && (HeadBlocked(s) ==> HeadBlocked(t))
            && (SingleRequests(s) ==> SingleRequests(t))
  {
    if s.futures[id].granted { CollectKeeps(s, id, g); } else { UngrantedPollKeeps(s, id, g); }
  }

  lemma DropFutureKeeps(s: Sem, id: nat)
    requires Valid(s) && id in s.futures
    ensures Valid(DropFuture(s, id))
    ensures SingleRequests(s) ==> SingleRequests(DropFuture(s, id))
    ensures SingleRequests(s) && HeadBlocked(s) ==> HeadBlocked(DropFuture(s, id))
    ensures HeadBlocked(s) && id !in s.waiters ==> HeadBlocked(DropFuture(s, id))
  {
    var left := s.futures - {id};
    if id in s.waiters {
      WithoutKeeps(s.waiters, id);
      assert Granted(left) == Granted(s.futures);
    } else if s.futures[id].granted {
      SumRemove(Granted(s.futures), id);
      assert Granted(left) == Granted(s.futures) - {id};
      DropUnlinked(s, id);
      ReleaseKeeps(s.(futures := left), s.futures[id].permits);
    } else {
      assert Granted(left) == Granted(s.futures);
    }
  }

  lemma DropPermitKeeps(s: Sem, g: nat)
    requires Valid(s) && g in s.ledger.held
    ensures Valid(DropPermit(s, g)) && HeadBlocked(DropPermit(s, g))
    ensures SingleRequests(s) ==> SingleRequests(DropPermit(s, g))
  {
    SumRemove(s.ledger.held, g);
    ReleaseKeeps(s.(ledger := s.ledger.(held := s.ledger.held - {g})), s.ledger.held[g]);
  }

  lemma TryAcquireKeeps(s: Sem, n: nat, g: nat)
    requires Valid(s) && n > 0 && g !in s.ledger.held
    ensures Valid(TryAcquire(s, n, g).0)
    ensures HeadBlocked(s) ==> HeadBlocked(TryAcquire(s, n, g).0)
    ensures SingleRequests(s) && n == 1 ==> SingleRequests(TryAcquire(s, n, g).0)
  {
    SumAdd(s.ledger.held, g, n);
  }

  lemma ForgetKeeps(s: Sem, g: nat)
    requires Valid(s) && g in s.ledger.held
    ensures Valid(Forget(s, g)) && (HeadBlocked(s) ==> HeadBlocked(Forget(s, g)))
    ensures SingleRequests(s) ==> SingleRequests(Forget(s, g))
  {
    SumRemove(s.ledger.held, g);
  }

  lemma StartKeeps(s: Sem, id: nat, n: nat)
    requires Valid(s) && n > 0 && id !in s.futures
    ensures Valid(Start(s, id, n)) && (HeadBlocked(s) ==> HeadBlocked(Start(s, id, n)))
    ensures SingleRequests(s) && n == 1 ==> SingleRequests(Start(s, id, n))
  {
    assert Granted(Start(s, id, n).futures) == Granted(s.futures);
  }

  // ----- Runs -----

  datatype Op =
    | DoStart(id: nat, n: nat)
    | DoPoll(id: nat, g: nat, proceed: bool)
    | DoDropFuture(id: nat)
    | DoDropPermit(g: nat)
    | DoForget(g: nat)
    | DoTryAcquire(n: nat, g: nat)
    | DoAddPermits(n: nat)
    | DoClose

  /** What the caller must respect: fresh ids, live ids, and a non-zero request. */
  predicate Enabled(s: Sem, op: Op) {
    match op
    case DoStart(id, n) => n > 0 && id !in s.futures
    case DoPoll(id, g, _) => id in s.futures && g !in s.ledger.held
    case DoDropFuture(id) => id in s.futures
    case DoDropPermit(g) => g in s.ledger.held
    case DoForget(g) => g in s.ledger.held
    case DoTryAcquire(n, g) => n > 0 && g !in s.ledger.held
    case DoAddPermits(_) => true
    case DoClose => true
  }

  function Step(s: Sem, op: Op): Sem
    requires Linked(s) && Enabled(s, op)
  {
    match op
    case DoStart(id, n) => Start(s, id, n)
    case DoPoll(id, g, proceed) => Poll(s, id, g, proceed).0
    case DoDropFuture(id) => DropFuture(s, id)
    case DoDropPermit(g) => DropPermit(s, g)
    case DoForget(g) => Forget(s, g)
    case DoTryAcquire(n, g) => TryAcquire(s, n, g).0
    case DoAddPermits(n) => AddPermits(s, n)
    case DoClose => Close(s)
  }

  predicate SingleOp(op: Op) { (op.DoStart? ==> op.n == 1) && (op.DoTryAcquire? ==> op.n == 1) }

  lemma StepKeeps(s: Sem, op: Op)
    requires Valid(s) && Enabled(s, op)
    ensures Valid(Step(s, op))
    ensures SingleRequests(s) && HeadBlocked(s) && SingleOp(op) ==> SingleRequests(Step(s, op)) && HeadBlocked(Step(s, op))
  {
    match op {
      case DoStart(id, n) => StartKeeps(s, id, n);
      case DoPoll(id, g, proceed) => PollKeeps(s, id, g, proceed);
      case DoDropFuture(id) => DropFutureKeeps(s, id);
      case DoDropPermit(g) => DropPermitKeeps(s, g);
      case DoForget(g) => ForgetKeeps(s, g);
      case DoTryAcquire(n, g) => TryAcquireKeeps(s, n, g);
      case DoAddPermits(n) =>
        if n > 0 { ReleaseKeeps(s.(ledger := s.ledger.(added := s.ledger.added + n)), n); }
      case DoClose =>
    }
  }

  /** The one operation that can leave a waiter parked that could be served: dropping the queued head
      when the next waiter asks for no more than is available. */
  predicate Strands(s: Sem, op: Op)
    requires Linked(s)
  {
    && op.DoDropFuture? && |s.waiters| > 1 && s.waiters[0] == op.id
    && s.futures[s.waiters[1]].permits <= s.permits
  }

  /** Every other operation leaves the head blocked. */
  lemma StepStrandsIff(s: Sem, op: Op)
    requires Valid(s) && Enabled(s, op) && HeadBlocked(s)
    ensures Valid(Step(s, op)) && (HeadBlocked(Step(s, op)) <==> !Strands(s, op))
  {
    StepKeeps(s, op);
    if op.DoDropFuture? && op.id in s.waiters {
      DropLeavesParkedIff(s, op.id);
    } else {
      OthersKeepHeadBlocked(s, op);
    }
  }

  lemma OthersKeepHeadBlocked(s: Sem, op: Op)
    requires Valid(s) && Enabled(s, op) && HeadBlocked(s) && !(op.DoDropFuture? && op.id in s.waiters)
    ensures Linked(Step(s, op)) && HeadBlocked(Step(s, op))
  {
    match op {
      case DoStart(id, n) => StartKeeps(s, id, n);
      case DoPoll(id, g, proceed) => PollKeeps(s, id, g, proceed);
      case DoDropFuture(id) => DropFutureKeeps(s, id);
      case DoDropPermit(g) => DropPermitKeeps(s, g);
      case DoForget(g) => ForgetKeeps(s, g);
      case DoTryAcquire(n, g) => TryAcquireKeeps(s, n, g);
      case DoAddPermits(n) =>
        if n > 0 { ReleaseKeeps(s.(ledger := s.ledger.(added := s.ledger.added + n)), n); }
      case DoClose =>
    }
  }

  /** No state of the run, from its start to its end, has a head that could be served. */
  ghost predicate AlwaysBlocked(s: Sem, ops: seq<Op>, t: Sem)
    requires Reaches(s, ops, t)
    decreases |ops|
  {
    Linked(s) && HeadBlocked(s) && (ops != [] ==> AlwaysBlocked(Step(s, ops[0]), ops[1..], t))
  }

  ghost predicate NeverStrands(s: Sem, ops: seq<Op>, t: Sem)
    requires Reaches(s, ops, t)
    decreases |ops|
  {
    ops != [] ==> !Strands(s, ops[0]) && NeverStrands(Step(s, ops[0]), ops[1..], t)
  }

  /** Over whole runs, with requests of any size: nobody who could be served is ever parked, exactly
      when no step is such a drop. */
  lemma {:induction false} BlockedThroughoutIff(s: Sem, ops: seq<Op>, t: Sem)
    requires Valid(s) && HeadBlocked(s) && Reaches(s, ops, t)
    ensures AlwaysBlocked(s, ops, t) <==> NeverStrands(s, ops, t)
    decreases |ops|
  {
    if ops != [] {
      StepKeeps(s, ops[0]);
      StepStrandsIff(s, ops[0]);
      if !Strands(s, ops[0]) { BlockedThroughoutIff(Step(s, ops[0]), ops[1..], t); }
    }
  }

  /** `t` is reached from `s` by `ops`, each allowed when it runs. */
  ghost predicate Reaches(s: Sem, ops: seq<Op>, t: Sem)
    decreases |ops|
  {
    if ops == [] then s == t
    else Linked(s) && Enabled(s, ops[0]) && Reaches(Step(s, ops[0]), ops[1..], t)
  }

  lemma {:induction false} RunKeeps(s: Sem, ops: seq<Op>, t: Sem)
    requires Valid(s) && Reaches(s, ops, t)
    ensures Valid(t)
    decreases |ops|
  {
    if ops != [] {
      StepKeeps(s, ops[0]);
      RunKeeps(Step(s, ops[0]), ops[1..], t);
    }
  }

  /** Only `add_permits` changes what there is to be shared out. */
  lemma StepLedger(s: Sem, op: Op)
    requires Valid(s) && Enabled(s, op)
    ensures var t := Step(s, op);
            t.ledger.initial == s.ledger.initial && t.ledger.added == s.ledger.added + (if op.DoAddPermits? then op.n else 0)
  {
    match op {
      case DoDropFuture(id) =>
        if id !in s.waiters && s.futures[id].granted {
          DropUnlinked(s, id);
          GrantServesPrefix(Released(s.(futures := s.futures - {id}), s.futures[id].permits));
        }
      case DoDropPermit(g) =>
        GrantServesPrefix(Released(s.(ledger := s.ledger.(held := s.ledger.held - {g})), s.ledger.held[g]));
      case DoAddPermits(n) =>
        if n > 0 { GrantServesPrefix(Released(s.(ledger := s.ledger.(added := s.ledger.added + n)), n)); }
      case _ =>
    }
  }

  /** The saturating addition cuts nothing off while all permits together fit a word. */
  lemma StepLosesNothing(s: Sem, op: Op)
    requires Valid(s) && Enabled(s, op) && s.ledger.lost == 0
    requires Step(s, op).ledger.initial + Step(s, op).ledger.added <= USIZE_MAX
    ensures Step(s, op).ledger.lost == 0
  {
    StepLedger(s, op);
    match op {
      case DoDropFuture(id) =>
        if id !in s.waiters && s.futures[id].granted {
          SumRemove(Granted(s.futures), id);
          DropUnlinked(s, id);
          GrantServesPrefix(Released(s.(futures := s.futures - {id}), s.futures[id].permits));
        }
      case DoDropPermit(g) =>
        SumRemove(s.ledger.held, g);
        GrantServesPrefix(Released(s.(ledger := s.ledger.(held := s.ledger.held - {g})), s.ledger.held[g]));
      case DoAddPermits(n) =>
        if n > 0 { GrantServesPrefix(Released(s.(ledger := s.ledger.(added := s.ledger.added + n)), n)); }
      case _ =>
    }
  }

  lemma {:induction false} NothingIsLost(s: Sem, ops: seq<Op>, t: Sem)
    requires Valid(s) && s.ledger.lost == 0 && Reaches(s, ops, t)
    requires t.ledger.initial + t.ledger.added <= USIZE_MAX
    ensures t.ledger.lost == 0 && t.ledger.initial == s.ledger.initial && s.ledger.added <= t.ledger.added
    decreases |ops|
  {
    if ops != [] {
      var u := Step(s, ops[0]);
      StepKeeps(s, ops[0]);
      StepLedger(s, ops[0]);
      AddedGrows(u, ops[1..], t);
      StepLosesNothing(s, ops[0]);
      NothingIsLost(u, ops[1..], t);
    }
  }

  lemma {:induction false} AddedGrows(s: Sem, ops: seq<Op>, t: Sem)
    requires Valid(s) && Reaches(s, ops, t)
    ensures t.ledger.initial == s.ledger.initial && s.ledger.added <= t.ledger.added
    decreases |ops|
  {
    if ops != [] {
      StepKeeps(s, ops[0]);
      StepLedger(s, ops[0]);
      AddedGrows(Step(s, ops[0]), ops[1..], t);
    }
  }

  /** Permits are conserved over every run, with futures dropped at any point: while all of them
      together fit a word, what is available, held, granted and forgotten is what there was at the
      start plus what was added. */
  lemma PermitsAreConserved(permits: nat, ops: seq<Op>, t: Sem)
    requires Reaches(New(permits), ops, t) && permits + t.ledger.added <= USIZE_MAX
    ensures t.permits + Sum(t.ledger.held) + Sum(Granted(t.futures)) + t.ledger.forgotten == permits + t.ledger.added
    ensures t.permits <= USIZE_MAX
  {
    NewIsValid(permits);
    AddedGrows(New(permits), ops, t);
    NothingIsLost(New(permits), ops, t);
    RunKeeps(New(permits), ops, t);
  }

  /** With one-permit requests nobody is parked while a permit is available. */
  lemma {:induction false} NobodyParkedWhilePermitFree(s: Sem, ops: seq<Op>, t: Sem)
    requires Valid(s) && SingleRequests(s) && HeadBlocked(s) && Reaches(s, ops, t)
    requires forall i :: 0 <= i < |ops| ==> SingleOp(ops[i])
    ensures Valid(t) && SingleRequests(t) && (t.waiters != [] ==> t.permits == 0)
    ensures HeadBlocked(t)
    decreases |ops|
  {
    if ops != [] {
      StepKeeps(s, ops[0]);
      NobodyParkedWhilePermitFree(Step(s, ops[0]), ops[1..], t);
    }
  }

  lemma NewIsValid(permits: nat)
    ensures Valid(New(permits)) && SingleRequests(New(permits)) && HeadBlocked(New(permits))
  {
    assert Granted(map[]) == map[];
  }

  // ----- What the calls answer -----

  /** A poll acquires exactly when it was granted, or the semaphore is open, nobody waits and the permits
      are there; then, and only then, there is one more holder, with exactly the permits asked for, and a
      grant is used up or the pool is smaller by them. It fails exactly when the semaphore was closed
      before a grant. Otherwise it waits in the list. */
  lemma PollAnswers(s: Sem, id: nat, g: nat, proceed: bool)
    requires Valid(s) && id in s.futures && g !in s.ledger.held
    ensures var f := s.futures[id]; var (t, r) := Poll(s, id, g, proceed);
            && (r == Acquired <==>
                  && proceed
                  && (f.granted || (!s.closed && id !in s.waiters && s.waiters == [] && s.permits >= f.permits)))
            && (r == Closed <==> proceed && !f.granted && s.closed)
            && t.ledger.held == (if r == Acquired then s.ledger.held[g := f.permits] else s.ledger.held)
            && t.permits == s.permits - (if r == Acquired && !f.granted then f.permits else 0)
            && (r == Acquired ==> !t.futures[id].granted)
            && (r == Pending && proceed ==> id in t.waiters && t.futures == s.futures)
  {
  }

  /** `try_acquire_many` succeeds exactly when the semaphore is open, nobody waits and the permits are
      there; it takes exactly those. A permit dropped or forgotten is held no more, and nobody else's
      changes. */
  lemma PermitAnswers(s: Sem, n: nat, g: nat)
    requires Valid(s) && n > 0
    ensures g !in s.ledger.held ==> var (t, ok) := TryAcquire(s, n, g);
            && (ok <==> !s.closed && s.waiters == [] && n <= s.permits)
            && t.ledger.held == (if ok then s.ledger.held[g := n] else s.ledger.held)
            && t.permits == s.permits - (if ok then n else 0)
    ensures g in s.ledger.held ==>
              && DropPermit(s, g).ledger.held == s.ledger.held - {g}
              && Forget(s, g).ledger.held == s.ledger.held - {g} && Forget(s, g).permits == s.permits
              && Forget(s, g).ledger.forgotten == s.ledger.forgotten + s.ledger.held[g]
    ensures Close(s).closed && Close(s).waiters == [] && Close(s).futures == s.futures && Close(s).permits == s.permits
  {
    if g in s.ledger.held {
      GrantServesPrefix(Released(s.(ledger := s.ledger.(held := s.ledger.held - {g})), s.ledger.held[g]));
    }
  }

  // ----- Where the no-parking property fails -----

  /** Dropping a queued future leaves a waiter parked that could be served exactly when it was the
      head and the next one fits into what is available. */
  lemma DropLeavesParkedIff(s: Sem, id: nat)
    requires Valid(s) && HeadBlocked(s) && id in s.waiters
    ensures Linked(DropFuture(s, id))
    ensures !HeadBlocked(DropFuture(s, id)) <==>
              s.waiters[0] == id && |s.waiters| > 1 && s.futures[s.waiters[1]].permits <= s.permits
  {
    DropFutureKeeps(s, id);
    WithoutKeeps(s.waiters, id);
    if s.waiters[0] == id && |s.waiters| > 1 {
      TailDistinct(s.waiters);
      WithoutKeeps(s.waiters[1..], id);
      assert Without(s.waiters, id)[0] == s.waiters[1];
    }
  }

  /** With two permits, a request for three and one for one queue up; dropping the first leaves the
      second parked although two permits are available. */
  lemma ParkedBehindDroppedRequest()
    ensures var first := Poll(Start(New(2), 0, 3), 0, 0, true).0;
            var both := Poll(Start(first, 1, 1), 1, 0, true).0;
            Linked(both) && 0 in both.futures
            && DropFuture(both, 0).waiters == [1] && DropFuture(both, 0).permits == 2
            && DropFuture(both, 0).futures == map[1 := Acquire(1, false)]
  {
    var first := Poll(Start(New(2), 0, 3), 0, 0, true).0;
    assert first.waiters == [0];
    var both := Poll(Start(first, 1, 1), 1, 0, true).0;
    assert both.waiters == [0, 1];
    assert both.waiters[1..] == [1];
    assert Without([1], 0) == [1] by { assert [1][1..] == []; }
  }
}
