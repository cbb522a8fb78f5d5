/** Who owns an io_uring operation's resource: the tables of the ring state, and the kernel as an
    environment that takes requests and answers each of them once, at any time. Single-shot operations. */
module Uring {
  import opened Options

  /** What the kernel reads or writes for a request; a successful `Accept` answer is a descriptor. */
  datatype Resource = Accept | Memory(name: nat)

  /** An entry of the operation slab, or of the orphan slab, where the result is absent. */
  datatype OpState = OpState(resource: Resource, result: Option<int>, userData: nat)

  datatype Kind = Operation | Cancel(target: nat)

  /** `Won`: a cancellation that found and stopped its target, not yet answered. */
  datatype Phase = Queued | Taken | Won | Posted(res: int) | Reaped(res: int)

  /** `revoked`: the kernel gave this operation up because of a successful cancellation. */
  datatype Request = Request(kind: Kind, phase: Phase, revoked: bool)

  /** How an operation's resource left the ring. */
  datatype Cause =
    | Refused
    | Returned(res: int)
    | Discarded(res: int, closed: bool)
    | Cancelled(through: nat)

  datatype Start = Start(owner: nat, resource: Resource)

  /** `ops` to `next`: the ring state. `handles`: the slab key each live future holds. The rest is the
      kernel and history: every request ever queued, every operation ever started, every release, and
      how many ids were handed out. */
  datatype Ring = Ring(
    ops: map<nat, OpState>,
    opsBy: map<nat, nat>,
    orphans: map<nat, OpState>,
    orphansBy: map<nat, nat>,
    cancels: map<nat, nat>,
    next: nat,
    handles: map<nat, nat>,
    requests: map<nat, Request>,
    started: map<nat, Start>,
    released: map<nat, Cause>,
    issued: nat)

  const ID_LIMIT: nat := 0x1_0000_0000_0000_0000

  function New(): Ring {
    Ring(map[], map[], map[], map[], map[], 1, map[], map[], map[], map[], 0)
  }

  // ----- Operations of the ring -----

  /** `wrapping_add(1).max(1)` */
  function After(id: nat): nat { if id + 1 >= ID_LIMIT then 1 else id + 1 }

  predicate IdFree(s: Ring, id: nat) { id != 0 && id !in s.opsBy && id !in s.orphansBy }

  function NextId(s: Ring): Ring { s.(next := After(s.next), issued := s.issued + 1) }

  /** `start_op` by future `f`: `key` is the slab slot chosen, `addressable` whether the resource has an
      address to give, `room` whether the submission queue took the request. */
  function StartOp(s: Ring, f: nat, resource: Resource, key: nat, addressable: bool, room: bool): Ring {
    if !IdFree(s, s.next) then NextId(s)
    else if !addressable || !room then Refuse(s, f, resource)
    else Begin(s, f, resource, key)
  }

  /** The slot is taken out again and the resource handed back. */
  function Refuse(s: Ring, f: nat, resource: Resource): Ring {
    NextId(s).(started := s.started[s.next := Start(f, resource)], released := s.released[s.next := Refused])
  }

  function Begin(s: Ring, f: nat, resource: Resource, key: nat): Ring {
    var id := s.next;
    NextId(s).(
      started := s.started[id := Start(f, resource)],
      ops := s.ops[key := OpState(resource, None, id)],
      opsBy := s.opsBy[id := key],
      handles := s.handles[f := key],
      requests := s.requests[id := Request(Operation, Queued, false)])
  }

  predicate Ready(s: Ring, f: nat) {
    f in s.handles && s.handles[f] in s.ops && s.ops[s.handles[f]].result.Some?
  }

  /** `take_result`: the answer and the resource go back to the future. */
  function TakeResult(s: Ring, f: nat): Ring
    requires Ready(s, f)
  {
    Leave(s, f, Returned(s.ops[s.handles[f]].result.value))
  }

  predicate Descriptor(resource: Resource, res: int) { resource == Accept && res >= 0 }

  /** `orphan`: the future is dropped. An answered operation is released, and its descriptor closed; an
      unanswered one is kept. `key` is the orphan slot chosen. */
  function DropFuture(s: Ring, f: nat, key: nat): Ring
    requires f in s.handles && s.handles[f] in s.ops
  {
    var op := s.ops[s.handles[f]];
    if op.result.Some? then Leave(s, f, Discarded(op.result.value, Descriptor(op.resource, op.result.value)))
    else MakeOrphan(s, f, key)
  }

  /** The slot of future `f` is emptied and its operation released. */
  function Leave(s: Ring, f: nat, cause: Cause): Ring
    requires f in s.handles && s.handles[f] in s.ops
  {
    var id := s.ops[s.handles[f]].userData;
    s.(ops := s.ops - {s.handles[f]}, opsBy := s.opsBy - {id}, handles := s.handles - {f}, released := s.released[id := cause])
  }

  function MakeOrphan(s: Ring, f: nat, key: nat): Ring
    requires f in s.handles && s.handles[f] in s.ops
  {
    var op := s.ops[s.handles[f]];
    s.(ops := s.ops - {s.handles[f]}, opsBy := s.opsBy - {op.userData}, handles := s.handles - {f},
       orphans := s.orphans[key := op], orphansBy := s.orphansBy[op.userData := key])
  }

  /** `submit_cancel`, up to the insertion of the target. */
  function SubmitCancel(s: Ring, target: nat, room: bool): Ring {
    if !IdFree(s, s.next) || !room then NextId(s) else QueueCancel(s, target)
  }

  function QueueCancel(s: Ring, target: nat): Ring {
    NextId(s).(cancels := s.cancels[s.next := target], requests := s.requests[s.next := Request(Cancel(target), Queued, false)])
  }

  /** The submission after it failed: the target is forgotten, the request stays queued. */
  function ForgetCancel(s: Ring, id: nat): Ring { s.(cancels := s.cancels - {id}) }

  /** One completion entry in the reaping loop, with the answer the kernel posted for it. */
  function Reap(s: Ring, id: nat): Ring
    requires id in s.requests && s.requests[id].phase.Posted?
    requires Indexed(s.ops, s.opsBy) && Indexed(s.orphans, s.orphansBy)
  {
    var res := s.requests[id].phase.res;
    Deliver(s, id, res).(requests := s.requests[id := s.requests[id].(phase := Reaped(res))])
  }

  function Deliver(s: Ring, id: nat, res: int): Ring
    requires Indexed(s.ops, s.opsBy) && Indexed(s.orphans, s.orphansBy)
  {
    if id in s.cancels then DeliverCancel(s, id, s.cancels[id], res)
    else if id in s.opsBy then
      var key := s.opsBy[id];
      s.(ops := s.ops[key := s.ops[key].(result := Some(res))])
    else if id in s.orphansBy then
      var key := s.orphansBy[id];
      s.(orphansBy := s.orphansBy - {id}, orphans := s.orphans - {key},
         released := s.released[id := Discarded(res, Descriptor(s.orphans[key].resource, res))])
    else s
  }

  function DeliverCancel(s: Ring, id: nat, target: nat, res: int): Ring {
    var cancels := s.cancels - {id};
    if res == 0 && target in s.orphansBy then
      s.(cancels := cancels, orphansBy := s.orphansBy - {target}, orphans := s.orphans - {s.orphansBy[target]},
         released := s.released[target := Cancelled(id)])
    else if res == 0 && target in s.opsBy then
      s.(cancels := cancels, opsBy := s.opsBy - {target}, ops := s.ops - {s.opsBy[target]},
         released := s.released[target := Cancelled(id)])
    else s.(cancels := cancels)
  }

  // ----- The kernel -----

  predicate Revocable(s: Ring, id: nat) {
    id in s.requests && s.requests[id].kind == Operation && s.requests[id].phase == Taken && !s.requests[id].revoked
  }

  function KernelTake(s: Ring, id: nat): Ring
    requires id in s.requests
  {
    s.(requests := s.requests[id := s.requests[id].(phase := Taken)])
  }

  /** A cancellation stops its target. */
  function KernelRevoke(s: Ring, id: nat): Ring
    requires id in s.requests && s.requests[id].kind.Cancel? && s.requests[id].kind.target in s.requests
  {
    var target := s.requests[id].kind.target;
    s.(requests := s.requests[target := s.requests[target].(revoked := true)][id := s.requests[id].(phase := Won)])
  }

  function KernelPost(s: Ring, id: nat, res: int): Ring
    requires id in s.requests
  {
    s.(requests := s.requests[id := s.requests[id].(phase := Posted(res))])
  }

  /** What the kernel guarantees: a won cancellation answers zero and no other does; a revoked operation
      answers with an error. */
  predicate MayPost(r: Request, res: int) {
    && (r.phase == Won || (r.phase == Taken && (r.kind.Cancel? ==> res != 0)))
    && (r.phase == Won ==> res == 0)
    && (r.revoked ==> res < 0)
  }

  // ----- The invariant -----

  /** A table of ids is the exact index of its slab. */
  ghost predicate Indexed(slab: map<nat, OpState>, table: map<nat, nat>) {
    && (forall id :: id in table ==> table[id] in slab && slab[table[id]].userData == id)
    && (forall k :: k in slab ==> slab[k].userData in table && table[slab[k].userData] == k)
  }

  /** Every operation started has exactly one home. */
  ghost predicate Housed(ops: set<nat>, orphans: set<nat>, released: set<nat>, started: set<nat>) {
    started == ops + orphans + released && ops !! orphans && ops !! released && orphans !! released
  }

  /** Ids are handed out in order, so a new one is not in use anywhere. */
  ghost predicate Numbered(issued: nat, next: nat, started: set<nat>, requests: set<nat>) {
    && issued < ID_LIMIT && next == After(issued)
    && (forall id :: id in started ==> 0 < id <= issued)
    && (forall id :: id in requests ==> 0 < id <= issued)
  }

  /** The resource kept is the one the operation was started with. */
  ghost predicate Kept(slab: map<nat, OpState>, started: map<nat, Start>) {
    forall k :: k in slab ==> slab[k].userData in started && slab[k].resource == started[slab[k].userData].resource
  }

  /** Futures and operation slots pair up: a future's key leads to the operation that this future
      started, and every operation in the slab has its future. */
  ghost predicate Paired(ops: map<nat, OpState>, handles: map<nat, nat>, started: map<nat, Start>) {
    && (forall f :: f in handles ==>
          && handles[f] in ops && ops[handles[f]].userData in started
          && started[ops[handles[f]].userData].owner == f)
    && (forall k :: k in ops ==>
          && ops[k].userData in started && started[ops[k].userData].owner in handles
          && handles[started[ops[k].userData].owner] == k)
  }

  predicate Answered(r: Request, res: int) { r.kind == Operation && r.phase == Reaped(res) }

  predicate Unanswered(r: Request) { r.kind == Operation && !r.phase.Reaped? }

  /** An operation in a slab has a result exactly when the kernel's answer has been reaped, and it is
      that answer. */
  ghost predicate Current(slab: map<nat, OpState>, requests: map<nat, Request>) {
    forall k :: k in slab ==> slab[k].userData in requests && Reports(slab[k].result, requests[slab[k].userData])
  }

  predicate Reports(result: Option<int>, r: Request) {
    match result
    case None => Unanswered(r)
    case Some(res) => Answered(r, res)
  }

  ghost predicate NoResults(orphans: map<nat, OpState>) { forall k :: k in orphans ==> orphans[k].result.None? }

  /** A release has its reason: the operation's own answer, the answer of a successful cancellation, or
      a request that never reached the kernel. */
  predicate Justified(id: nat, cause: Cause, resource: Resource, requests: map<nat, Request>) {
    match cause
    case Refused => id !in requests
    case Returned(r) => id in requests && Answered(requests[id], r)
    case Discarded(r, closed) => id in requests && Answered(requests[id], r) && closed == Descriptor(resource, r)
    case Cancelled(c) =>
      && id in requests && requests[id].kind == Operation && requests[id].revoked
      && c in requests && requests[c].kind == Cancel(id) && requests[c].phase == Reaped(0)
  }

  ghost predicate Accounted(released: map<nat, Cause>, started: map<nat, Start>, requests: map<nat, Request>) {
    forall id :: id in released ==> id in started && Justified(id, released[id], started[id].resource, requests)
  }

  /** Operations were started, cancellations are not operations, and they aim at operations whose
      future is gone. */
  ghost predicate Aimed(requests: map<nat, Request>, started: set<nat>, opsBy: set<nat>) {
    forall id :: id in requests ==>
      match requests[id].kind
      case Operation => id in started
      case Cancel(target) => id !in started && target in started && target !in opsBy && target in requests
  }

  ghost predicate Pending(cancels: map<nat, nat>, requests: map<nat, Request>) {
    forall c :: c in cancels ==> c in requests && requests[c].kind == Cancel(cancels[c])
  }

  predicate Successful(p: Phase) { p == Won || p == Posted(0) || p == Reaped(0) }

  /** A successful cancellation stopped its target; a stopped operation answers with an error. */
  ghost predicate Honest(requests: map<nat, Request>) {
    forall id :: id in requests ==>
      && Settled(requests[id])
      && (requests[id].kind.Cancel? && Successful(requests[id].phase) ==>
            requests[id].kind.target in requests && requests[requests[id].kind.target].revoked)
  }

  predicate Settled(r: Request) {
    && ((r.phase.Posted? || r.phase.Reaped?) && r.revoked ==> r.phase.res < 0)
    && (r.phase == Won ==> r.kind.Cancel?)
    && (r.revoked ==> r.kind == Operation)
  }

  /** The tables and the handles. */
  ghost predicate Owned(s: Ring) {
    && Indexed(s.ops, s.opsBy) && Indexed(s.orphans, s.orphansBy)
    && Housed(s.opsBy.Keys, s.orphansBy.Keys, s.released.Keys, s.started.Keys)
    && Numbered(s.issued, s.next, s.started.Keys, s.requests.Keys)
    && Kept(s.ops, s.started) && Kept(s.orphans, s.started) && NoResults(s.orphans)
    && Paired(s.ops, s.handles, s.started)
  }

  /** The tables agree with the kernel. */
  ghost predicate Agreed(s: Ring) {
    && Current(s.ops, s.requests) && Current(s.orphans, s.requests)
    && Accounted(s.released, s.started, s.requests)
    && Aimed(s.requests, s.started.Keys, s.opsBy.Keys)
    && Pending(s.cancels, s.requests)
    && Honest(s.requests)
  }

  ghost predicate Valid(s: Ring) { Owned(s) && Agreed(s) }

  // ----- Tables -----

  lemma IndexAdds(slab: map<nat, OpState>, table: map<nat, nat>, key: nat, op: OpState)
    requires Indexed(slab, table) && key !in slab && op.userData !in table
    ensures Indexed(slab[key := op], table[op.userData := key])
  {
  }

  lemma IndexRemoves(slab: map<nat, OpState>, table: map<nat, nat>, key: nat)
    requires Indexed(slab, table) && key in slab
    ensures Indexed(slab - {key}, table - {slab[key].userData})
  {
  }

  /** Taking a slot away, with its future. */
  lemma PairLeaves(s: Ring, f: nat)
    requires Owned(s) && f in s.handles
    ensures Paired(s.ops - {s.handles[f]}, s.handles - {f}, s.started)
  {
  }

  // ----- Every step keeps the invariant -----

  lemma IdsAreFresh(s: Ring)
    requires Valid(s) && s.issued + 1 < ID_LIMIT
    ensures s.next == s.issued + 1 && IdFree(s, s.next)
    ensures s.next !in s.started && s.next !in s.requests && s.next !in s.cancels && s.next !in s.released
  {
    assert forall id :: id in s.opsBy || id in s.orphansBy || id in s.released ==> id in s.started;
  }

  lemma HousedStarts(ops: map<nat, nat>, orphans: map<nat, nat>, released: map<nat, Cause>, started: map<nat, Start>,
                     id: nat, key: nat, cause: Cause, start: Start)
    requires Housed(ops.Keys, orphans.Keys, released.Keys, started.Keys) && id !in started
    ensures Housed(ops[id := key].Keys, orphans.Keys, released.Keys, started[id := start].Keys)
    ensures Housed(ops.Keys, orphans.Keys, released[id := cause].Keys, started[id := start].Keys)
  {
    assert ops[id := key].Keys == ops.Keys + {id} && started[id := start].Keys == started.Keys + {id};
    assert released[id := cause].Keys == released.Keys + {id};
  }

  lemma HousedMoves(ops: map<nat, nat>, orphans: map<nat, nat>, released: map<nat, Cause>, started: set<nat>,
                    id: nat, key: nat, cause: Cause)
    requires Housed(ops.Keys, orphans.Keys, released.Keys, started)
    ensures id in ops ==> Housed((ops - {id}).Keys, orphans[id := key].Keys, released.Keys, started)
    ensures id in ops ==> Housed((ops - {id}).Keys, orphans.Keys, released[id := cause].Keys, started)
    ensures id in orphans ==> Housed(ops.Keys, (orphans - {id}).Keys, released[id := cause].Keys, started)
  {
    assert (ops - {id}).Keys == ops.Keys - {id} && (orphans - {id}).Keys == orphans.Keys - {id};
    assert orphans[id := key].Keys == orphans.Keys + {id} && released[id := cause].Keys == released.Keys + {id};
  }

  lemma StartedPaired(ops: map<nat, OpState>, handles: map<nat, nat>, started: map<nat, Start>, f: nat, key: nat, op: OpState)
    requires Paired(ops, handles, started) && f !in handles && key !in ops && op.userData !in started
    ensures Paired(ops[key := op], handles[f := key], started[op.userData := Start(f, op.resource)])
  {
  }

  /** One more operation started disturbs nothing known of the others. */
  lemma StartAdded(ops: map<nat, OpState>, handles: map<nat, nat>, started: map<nat, Start>, id: nat, start: Start)
    requires id !in started && Kept(ops, started)
    ensures Kept(ops, started[id := start])
    ensures Paired(ops, handles, started) ==> Paired(ops, handles, started[id := start])
  {
  }

  lemma KeptAdds(slab: map<nat, OpState>, started: map<nat, Start>, key: nat, op: OpState)
    requires Kept(slab, started) && op.userData in started && started[op.userData].resource == op.resource
    ensures Kept(slab[key := op], started)
  {
  }

  lemma NumberedNext(issued: nat, next: nat, started: set<nat>, requests: set<nat>, started': set<nat>, requests': set<nat>)
    requires Numbered(issued, next, started, requests) && issued + 1 < ID_LIMIT
    requires started' <= started + {next} && requests' <= requests + {next}
    ensures Numbered(issued + 1, After(next), started', requests')
  {
    assert next == issued + 1;
  }

  lemma StartedOwned(s: Ring, f: nat, resource: Resource, key: nat)
    requires Owned(s) && s.issued + 1 < ID_LIMIT && f !in s.handles && key !in s.ops && s.next !in s.started
    ensures Owned(Begin(s, f, resource, key))
  {
    var id := s.next;
    var t := Begin(s, f, resource, key);
    assert id !in s.opsBy;
    IndexAdds(s.ops, s.opsBy, key, t.ops[key]);
    HousedStarts(s.opsBy, s.orphansBy, s.released, s.started, id, key, Refused, Start(f, resource));
    StartedPaired(s.ops, s.handles, s.started, f, key, t.ops[key]);
    StartAdded(s.ops, s.handles, s.started, id, Start(f, resource));
    StartAdded(s.orphans, s.handles, s.started, id, Start(f, resource));
    KeptAdds(s.ops, t.started, key, t.ops[key]);
    NumberedNext(s.issued, s.next, s.started.Keys, s.requests.Keys, t.started.Keys, t.requests.Keys);
  }

  lemma StartedAgreed(s: Ring, f: nat, resource: Resource, key: nat)
    requires Agreed(s) && s.next !in s.started && s.next !in s.requests && s.next !in s.released
    ensures Agreed(Begin(s, f, resource, key))
  {
    var t := Begin(s, f, resource, key);
    RequestAdded(s, s.next, Request(Operation, Queued, false));
    AccountedStarts(s.released, s.started, t.requests, s.next, Start(f, resource));
    AimedAdds(s.requests, s.started, s.opsBy, s.next, key, Start(f, resource));
    CurrentAdds(s.ops, t.requests, key, t.ops[key]);
  }

  lemma CurrentAdds(slab: map<nat, OpState>, requests: map<nat, Request>, key: nat, op: OpState)
    requires Current(slab, requests) && op.userData in requests && Reports(op.result, requests[op.userData])
    ensures Current(slab[key := op], requests)
  {
  }

  lemma AccountedStarts(released: map<nat, Cause>, started: map<nat, Start>, requests: map<nat, Request>, id: nat, start: Start)
    requires Accounted(released, started, requests) && id !in released
    ensures Accounted(released, started[id := start], requests)
  {
  }

  lemma AimedAdds(requests: map<nat, Request>, started: map<nat, Start>, opsBy: map<nat, nat>, id: nat, key: nat, start: Start)
    requires Aimed(requests, started.Keys, opsBy.Keys) && id !in requests && id !in started
    ensures Aimed(requests[id := Request(Operation, Queued, false)], started[id := start].Keys, opsBy[id := key].Keys)
    ensures Aimed(requests, started[id := start].Keys, opsBy.Keys)
  {
  }

  /** A new request disturbs nothing that is known of the others. */
  lemma RequestAdded(s: Ring, id: nat, r: Request)
    requires Agreed(s) && id !in s.requests && id !in s.released && r.phase == Queued && !r.revoked
    ensures var q := s.requests[id := r];
            && Current(s.ops, q) && Current(s.orphans, q) && Accounted(s.released, s.started, q)
            && Pending(s.cancels, q) && Honest(q)
  {
  }

  lemma StartOpKeeps(s: Ring, f: nat, resource: Resource, key: nat, addressable: bool, room: bool)
    requires Valid(s) && s.issued + 1 < ID_LIMIT && f !in s.handles && key !in s.ops
    ensures Valid(StartOp(s, f, resource, key, addressable, room))
  {
    IdsAreFresh(s);
    if addressable && room {
      StartedOwned(s, f, resource, key);
      StartedAgreed(s, f, resource, key);
    } else {
      RefusedKeeps(s, f, resource);
    }
  }

  lemma RefusedKeeps(s: Ring, f: nat, resource: Resource)
    requires Valid(s) && s.issued + 1 < ID_LIMIT && s.next !in s.started && s.next !in s.requests && s.next !in s.released
    ensures Valid(Refuse(s, f, resource))
  {
    var id, start := s.next, Start(f, resource);
    var t := Refuse(s, f, resource);
    HousedStarts(s.opsBy, s.orphansBy, s.released, s.started, id, 0, Refused, start);
    StartAdded(s.ops, s.handles, s.started, id, start);
    StartAdded(s.orphans, s.handles, s.started, id, start);
    NumberedNext(s.issued, s.next, s.started.Keys, s.requests.Keys, t.started.Keys, t.requests.Keys);
    AccountedStarts(s.released, s.started, s.requests, id, start);
    AccountedMore(s.released, t.started, s.requests, id, Refused);
    AimedAdds(s.requests, s.started, s.opsBy, id, 0, start);
  }

  lemma SlotEmptied(slab: map<nat, OpState>, started: map<nat, Start>, requests: map<nat, Request>, key: nat)
    requires Kept(slab, started) && Current(slab, requests)
    ensures Kept(slab - {key}, started) && Current(slab - {key}, requests)
  {
  }

  lemma AimedLess(requests: map<nat, Request>, started: set<nat>, opsBy: map<nat, nat>, id: nat)
    requires Aimed(requests, started, opsBy.Keys)
    ensures Aimed(requests, started, (opsBy - {id}).Keys)
  {
  }

  /** An answered operation leaves with its future. */
  lemma AnsweredLeaves(s: Ring, f: nat, cause: Cause)
    requires Valid(s) && Ready(s, f)
    requires var op := s.ops[s.handles[f]];
             op.userData in s.started && Justified(op.userData, cause, s.started[op.userData].resource, s.requests)
    ensures Valid(Leave(s, f, cause))
  {
    var key := s.handles[f];
    var id := s.ops[key].userData;
    IndexRemoves(s.ops, s.opsBy, key);
    PairLeaves(s, f);
    HousedMoves(s.opsBy, s.orphansBy, s.released, s.started.Keys, id, key, cause);
    SlotEmptied(s.ops, s.started, s.requests, key);
    AimedLess(s.requests, s.started.Keys, s.opsBy, id);
    AccountedMore(s.released, s.started, s.requests, id, cause);
  }

  lemma TakeResultKeeps(s: Ring, f: nat)
    requires Valid(s) && Ready(s, f)
    ensures Valid(TakeResult(s, f))
  {
    var op := s.ops[s.handles[f]];
    AnsweredLeaves(s, f, Returned(op.result.value));
  }

  lemma OrphanKeeps(s: Ring, f: nat, key: nat)
    requires Valid(s) && f in s.handles && key !in s.orphans && s.ops[s.handles[f]].result.None?
    ensures Valid(MakeOrphan(s, f, key))
  {
    var op := s.ops[s.handles[f]];
    assert op.userData in s.opsBy;
    IndexRemoves(s.ops, s.opsBy, s.handles[f]);
    IndexAdds(s.orphans, s.orphansBy, key, op);
    PairLeaves(s, f);
    HousedMoves(s.opsBy, s.orphansBy, s.released, s.started.Keys, op.userData, key, Refused);
    SlotEmptied(s.ops, s.started, s.requests, s.handles[f]);
    KeptAdds(s.orphans, s.started, key, op);
    CurrentAdds(s.orphans, s.requests, key, op);
    AimedLess(s.requests, s.started.Keys, s.opsBy, op.userData);
  }

  lemma DropFutureKeeps(s: Ring, f: nat, key: nat)
    requires Valid(s) && f in s.handles && key !in s.orphans
    ensures Valid(DropFuture(s, f, key))
  {
    var op := s.ops[s.handles[f]];
    if op.result.Some? {
      AnsweredLeaves(s, f, Discarded(op.result.value, Descriptor(op.resource, op.result.value)));
    } else {
      OrphanKeeps(s, f, key);
    }
  }

  /** Has the future of operation `id` been dropped after its request was queued? */
  predicate Dropped(s: Ring, id: nat) { id in s.started && id !in s.opsBy && id in s.requests }

  lemma CancelAimed(requests: map<nat, Request>, cancels: map<nat, nat>, started: set<nat>, opsBy: set<nat>, id: nat, target: nat)
    requires Aimed(requests, started, opsBy) && Pending(cancels, requests)
    requires id !in requests && id !in started && target in started && target !in opsBy && target in requests
    ensures var n := requests[id := Request(Cancel(target), Queued, false)];
            Aimed(n, started, opsBy) && Pending(cancels[id := target], n)
  {
  }

  lemma QueueCancelOwned(s: Ring, target: nat)
    requires Owned(s) && s.issued + 1 < ID_LIMIT
    ensures Owned(QueueCancel(s, target))
  {
    var t := QueueCancel(s, target);
    NumberedNext(s.issued, s.next, s.started.Keys, s.requests.Keys, t.started.Keys, t.requests.Keys);
  }

  lemma QueueCancelAgreed(s: Ring, target: nat)
    requires Agreed(s) && Dropped(s, target) && s.next !in s.started && s.next !in s.requests && s.next !in s.released
    ensures Agreed(QueueCancel(s, target))
  {
    RequestAdded(s, s.next, Request(Cancel(target), Queued, false));
    CancelAimed(s.requests, s.cancels, s.started.Keys, s.opsBy.Keys, s.next, target);
  }

  lemma SubmitCancelKeeps(s: Ring, target: nat, room: bool)
    requires Valid(s) && s.issued + 1 < ID_LIMIT && Dropped(s, target)
    ensures Valid(SubmitCancel(s, target, room))
  {
    IdsAreFresh(s);
    if room {
      QueueCancelOwned(s, target);
      QueueCancelAgreed(s, target);
    } else {
      NumberedNext(s.issued, s.next, s.started.Keys, s.requests.Keys, s.started.Keys, s.requests.Keys);
    }
  }

  lemma ForgetCancelKeeps(s: Ring, id: nat)
    requires Valid(s)
    ensures Valid(ForgetCancel(s, id))
  {
  }

  // ----- Kernel steps -----

  /** Nothing known of other requests is lost when one of them moves before it is reaped. */
  predicate Moves(r: Request, q: Request) {
    q.kind == r.kind && !r.phase.Reaped? && !q.phase.Reaped? && (r.revoked ==> q.revoked)
  }

  lemma RequestMoves(s: Ring, id: nat, q: Request)
    requires Agreed(s) && id in s.requests && Moves(s.requests[id], q)
    ensures var n := s.requests[id := q];
            && Current(s.ops, n) && Current(s.orphans, n) && Accounted(s.released, s.started, n)
            && Aimed(n, s.started.Keys, s.opsBy.Keys) && Pending(s.cancels, n)
  {
    var n := s.requests[id := q];
    assert forall x :: x in s.released && Justified(x, s.released[x], s.started[x].resource, s.requests) ==>
        Justified(x, s.released[x], s.started[x].resource, n);
  }

  /** The same of the kernel's own promises. */
  lemma HonestMoves(requests: map<nat, Request>, id: nat, q: Request)
    requires Honest(requests) && id in requests && requests[id].kind == q.kind && (requests[id].revoked ==> q.revoked)
    requires Settled(q)
    requires q.kind.Cancel? && Successful(q.phase) ==> q.kind.target in requests && requests[q.kind.target].revoked
    ensures Honest(requests[id := q])
  {
  }

  lemma MoveKeeps(s: Ring, id: nat, q: Request)
    requires Valid(s) && id in s.requests && Moves(s.requests[id], q) && Honest(s.requests[id := q])
    ensures Valid(s.(requests := s.requests[id := q]))
  {
    RequestMoves(s, id, q);
    assert s.requests[id := q].Keys == s.requests.Keys;
  }

  lemma KernelTakeKeeps(s: Ring, id: nat)
    requires Valid(s) && id in s.requests && s.requests[id].phase == Queued
    ensures Valid(KernelTake(s, id))
  {
    HonestMoves(s.requests, id, s.requests[id].(phase := Taken));
    MoveKeeps(s, id, s.requests[id].(phase := Taken));
  }

  lemma KernelPostKeeps(s: Ring, id: nat, res: int)
    requires Valid(s) && id in s.requests && MayPost(s.requests[id], res)
    ensures Valid(KernelPost(s, id, res))
  {
    HonestMoves(s.requests, id, s.requests[id].(phase := Posted(res)));
    MoveKeeps(s, id, s.requests[id].(phase := Posted(res)));
  }

  lemma KernelRevokeKeeps(s: Ring, id: nat)
    requires Valid(s) && id in s.requests && s.requests[id].kind.Cancel? && s.requests[id].phase == Taken
    requires Revocable(s, s.requests[id].kind.target)
    ensures Valid(KernelRevoke(s, id))
  {
    var target := s.requests[id].kind.target;
    var r := s.requests[target].(revoked := true);
    HonestMoves(s.requests, target, r);
    MoveKeeps(s, target, r);
    var t := s.(requests := s.requests[target := r]);
    var q := t.requests[id].(phase := Won);
    HonestMoves(t.requests, id, q);
    MoveKeeps(t, id, q);
  }

  // ----- Reaping -----

  /** An answer reaped for a request that no table waits for. */
  lemma ReapedAnswer(s: Ring, id: nat)
    requires Agreed(s) && id in s.requests && s.requests[id].phase.Posted?
    ensures var q := s.requests[id].(phase := Reaped(s.requests[id].phase.res));
            var n := s.requests[id := q];
            && Accounted(s.released, s.started, n) && Aimed(n, s.started.Keys, s.opsBy.Keys)
            && Pending(s.cancels, n) && Honest(n)
  {
    var q := s.requests[id].(phase := Reaped(s.requests[id].phase.res));
    HonestMoves(s.requests, id, q);
  }

  lemma CurrentElsewhere(slab: map<nat, OpState>, requests: map<nat, Request>, id: nat, q: Request)
    requires Current(slab, requests) && forall k :: k in slab ==> slab[k].userData != id
    ensures Current(slab, requests[id := q])
  {
  }

  /** An orphan is released for a reason. */
  lemma OrphanLeaves(s: Ring, id: nat, cause: Cause)
    requires Owned(s) && id in s.orphansBy
    ensures Owned(s.(orphansBy := s.orphansBy - {id}, orphans := s.orphans - {s.orphansBy[id]}, released := s.released[id := cause]))
  {
    IndexRemoves(s.orphans, s.orphansBy, s.orphansBy[id]);
    HousedMoves(s.opsBy, s.orphansBy, s.released, s.started.Keys, id, 0, cause);
  }

  lemma AccountedMore(released: map<nat, Cause>, started: map<nat, Start>, requests: map<nat, Request>, id: nat, cause: Cause)
    requires Accounted(released, started, requests) && id in started && Justified(id, cause, started[id].resource, requests)
    ensures Accounted(released[id := cause], started, requests)
  {
  }

  /** What every reaped answer leaves as it was. */
  lemma ReapedElsewhere(s: Ring, id: nat)
    requires Valid(s) && id in s.requests && s.requests[id].phase.Posted? && id !in s.opsBy && id !in s.orphansBy
    ensures Valid(s.(requests := s.requests[id := s.requests[id].(phase := Reaped(s.requests[id].phase.res))]))
  {
    var q := s.requests[id].(phase := Reaped(s.requests[id].phase.res));
    ReapedAnswer(s, id);
    assert s.requests[id := q].Keys == s.requests.Keys;
    CurrentElsewhere(s.ops, s.requests, id, q);
    CurrentElsewhere(s.orphans, s.requests, id, q);
  }

  /** A cancellation answered with success releases its orphan, if that is still there. */
  lemma CancelReleases(s: Ring, id: nat, target: nat)
    requires Valid(s) && target in s.orphansBy
    requires target in s.requests && s.requests[target].kind == Operation && s.requests[target].revoked
    requires id in s.requests && s.requests[id].kind == Cancel(target) && s.requests[id].phase == Reaped(0)
    ensures Valid(DeliverCancel(s, id, target, 0))
  {
    OrphanLeaves(s, target, Cancelled(id));
    SlotEmptied(s.orphans, s.started, s.requests, s.orphansBy[target]);
    AccountedMore(s.released, s.started, s.requests, target, Cancelled(id));
  }

  /** The answer to a cancellation. */
  lemma ReapCancelKeeps(s: Ring, id: nat)
    requires Valid(s) && id in s.requests && s.requests[id].phase.Posted? && id in s.cancels
    ensures Valid(Reap(s, id))
  {
    var target := s.cancels[id];
    var res := s.requests[id].phase.res;
    assert target !in s.opsBy && id !in s.started;
    ReapedElsewhere(s, id);
    if res == 0 && target in s.orphansBy {
      var t := s.(requests := s.requests[id := s.requests[id].(phase := Reaped(res))]);
      CancelReleases(t, id, target);
    }
  }

  /** The answer to an operation whose future still waits. */
  lemma ReapResultKeeps(s: Ring, id: nat)
    requires Valid(s) && id in s.requests && s.requests[id].phase.Posted? && id !in s.cancels && id in s.opsBy
    ensures Valid(Reap(s, id))
  {
    var q := s.requests[id].(phase := Reaped(s.requests[id].phase.res));
    ReapedAnswer(s, id);
    assert s.requests[id := q].Keys == s.requests.Keys;
    assert forall k :: k in s.orphans ==> s.orphans[k].userData in s.orphansBy;
    CurrentElsewhere(s.orphans, s.requests, id, q);
    ResultRecorded(s.ops, s.opsBy, s.requests, id);
    var key := s.opsBy[id];
    ResultPaired(s.ops, s.handles, s.started, key, s.ops[key].(result := Some(s.requests[id].phase.res)));
  }

  lemma ResultRecorded(slab: map<nat, OpState>, table: map<nat, nat>, requests: map<nat, Request>, id: nat)
    requires Indexed(slab, table) && Current(slab, requests) && id in table && requests[id].phase.Posted?
    ensures var res := requests[id].phase.res;
            && Indexed(slab[table[id] := slab[table[id]].(result := Some(res))], table)
            && Current(slab[table[id] := slab[table[id]].(result := Some(res))], requests[id := requests[id].(phase := Reaped(res))])
  {
  }

  lemma ResultPaired(ops: map<nat, OpState>, handles: map<nat, nat>, started: map<nat, Start>, key: nat, op: OpState)
    requires Paired(ops, handles, started) && Kept(ops, started) && key in ops
    requires op.userData == ops[key].userData && op.resource == ops[key].resource
    ensures Paired(ops[key := op], handles, started) && Kept(ops[key := op], started)
  {
  }

  /** The answer to an orphan. */
  lemma ReapOrphanKeeps(s: Ring, id: nat)
    requires Valid(s) && id in s.requests && s.requests[id].phase.Posted?
    requires id !in s.cancels && id !in s.opsBy && id in s.orphansBy
    ensures Valid(Reap(s, id))
  {
    var res := s.requests[id].phase.res;
    var q := s.requests[id].(phase := Reaped(res));
    var n := s.requests[id := q];
    var key := s.orphansBy[id];
    var cause := Discarded(res, Descriptor(s.orphans[key].resource, res));
    ReapedAnswer(s, id);
    assert s.requests[id := q].Keys == s.requests.Keys;
    CurrentElsewhere(s.ops, s.requests, id, q);
    CurrentElsewhere(s.orphans - {key}, s.requests, id, q);
    OrphanLeaves(s.(requests := n), id, cause);
    AccountedMore(s.released, s.started, n, id, cause);
  }

  /** An answer that nothing waits for: its operation was released by a successful cancellation, or it
      answers a forgotten cancellation. */
  lemma ReapStrayKeeps(s: Ring, id: nat)
    requires Valid(s) && id in s.requests && s.requests[id].phase.Posted?
    requires id !in s.cancels && id !in s.opsBy && id !in s.orphansBy
    ensures Valid(Reap(s, id))
  {
    ReapedElsewhere(s, id);
  }

  lemma ReapKeeps(s: Ring, id: nat)
    requires Valid(s) && id in s.requests && s.requests[id].phase.Posted?
    ensures Valid(Reap(s, id))
  {
    if id in s.cancels {
      ReapCancelKeeps(s, id);
    } else if id in s.opsBy {
      ReapResultKeeps(s, id);
    } else if id in s.orphansBy {
      ReapOrphanKeeps(s, id);
    } else {
      ReapStrayKeeps(s, id);
    }
  }

  // ----- Runs -----

  datatype Step =
    | DoStart(f: nat, resource: Resource, key: nat, addressable: bool, room: bool)
    | DoTake(f: nat) | DoDrop(f: nat, key: nat)
    | DoSubmitCancel(target: nat, room: bool) | DoForgetCancel(id: nat)
    | DoReap(id: nat)
    | DoKernelTake(id: nat) | DoKernelRevoke(id: nat) | DoKernelPost(id: nat, res: int)

  /** A slab hands out free slots; ids have not run out; the kernel keeps its promises. */
  predicate Enabled(s: Ring, step: Step) {
    match step
    case DoStart(f, _, key, _, _) => s.issued + 1 < ID_LIMIT && f !in s.handles && key !in s.ops
    case DoTake(f) => Ready(s, f)
    case DoDrop(f, key) => f in s.handles && key !in s.orphans
    case DoSubmitCancel(target, _) => s.issued + 1 < ID_LIMIT && Dropped(s, target)
    case DoForgetCancel(id) => true
    case DoReap(id) => id in s.requests && s.requests[id].phase.Posted?
    case DoKernelTake(id) => id in s.requests && s.requests[id].phase == Queued
    case DoKernelRevoke(id) =>
      id in s.requests && s.requests[id].kind.Cancel? && s.requests[id].phase == Taken && Revocable(s, s.requests[id].kind.target)
    case DoKernelPost(id, res) => id in s.requests && MayPost(s.requests[id], res)
  }

  ghost function Apply(s: Ring, step: Step): Ring
    requires Owned(s) && Enabled(s, step)
  {
    match step
    case DoStart(f, resource, key, addressable, room) => StartOp(s, f, resource, key, addressable, room)
    case DoTake(f) => TakeResult(s, f)
    case DoDrop(f, key) => DropFuture(s, f, key)
    case DoSubmitCancel(target, room) => SubmitCancel(s, target, room)
    case DoForgetCancel(id) => ForgetCancel(s, id)
    case DoReap(id) => Reap(s, id)
    case DoKernelTake(id) => KernelTake(s, id)
    case DoKernelRevoke(id) => KernelRevoke(s, id)
    case DoKernelPost(id, res) => KernelPost(s, id, res)
  }

  lemma StepKeeps(s: Ring, step: Step)
    requires Valid(s) && Enabled(s, step)
    ensures Valid(Apply(s, step))
  {
    match step {
      case DoStart(f, resource, key, addressable, room) => StartOpKeeps(s, f, resource, key, addressable, room);
      case DoTake(f) => TakeResultKeeps(s, f);
      case DoDrop(f, key) => DropFutureKeeps(s, f, key);
      case DoSubmitCancel(target, room) => SubmitCancelKeeps(s, target, room);
      case DoForgetCancel(id) => ForgetCancelKeeps(s, id);
      case DoReap(id) => ReapKeeps(s, id);
      case DoKernelTake(id) => KernelTakeKeeps(s, id);
      case DoKernelRevoke(id) => KernelRevokeKeeps(s, id);
      case DoKernelPost(id, res) => KernelPostKeeps(s, id, res);
    }
  }

  ghost predicate Reaches(s: Ring, steps: seq<Step>, t: Ring)
    decreases |steps|
  {
    if steps == [] then s == t
    else Owned(s) && Enabled(s, steps[0]) && Reaches(Apply(s, steps[0]), steps[1..], t)
  }

  lemma {:induction false} RunKeeps(s: Ring, steps: seq<Step>, t: Ring)
    requires Valid(s) && Reaches(s, steps, t)
    ensures Valid(t)
    decreases |steps|
  {
    if steps != [] {
      StepKeeps(s, steps[0]);
      RunKeeps(Apply(s, steps[0]), steps[1..], t);
    }
  }

  lemma NewIsValid()
    ensures Valid(New())
  {
  }

  // ----- What every run guarantees -----

  /** May the kernel still read or write the resource of this operation? */
  predicate KernelMayTouch(r: Request) { r.kind == Operation && (r.phase == Queued || r.phase == Taken) && !r.revoked }

  /** The operations the ring is holding a resource for. */
  ghost predicate Holds(s: Ring, id: nat) {
    id in s.started && (
      || (id in s.opsBy && s.opsBy[id] in s.ops && s.ops[s.opsBy[id]].resource == s.started[id].resource)
      || (id in s.orphansBy && s.orphansBy[id] in s.orphans && s.orphans[s.orphansBy[id]].resource == s.started[id].resource))
  }

  predicate Awaiting(s: Ring, id: nat) { id in s.opsBy && s.opsBy[id] in s.ops && s.ops[s.opsBy[id]].result.None? }

  predicate Completed(s: Ring, id: nat) { id in s.opsBy && s.opsBy[id] in s.ops && s.ops[s.opsBy[id]].result.Some? }

  /** In every run, whatever is dropped, cancelled or refused, the ring holds the resource of each
      operation that the kernel may still touch, and holds it without a result. */
  lemma KernelMemoryStays(steps: seq<Step>, t: Ring, id: nat)
    requires Reaches(New(), steps, t) && id in t.requests && KernelMayTouch(t.requests[id])
    ensures Holds(t, id) && id !in t.released
    ensures id in t.opsBy ==> Awaiting(t, id)
  {
    NewIsValid();
    RunKeeps(New(), steps, t);
    assert id in t.started;
    assert id in t.opsBy ==> t.opsBy[id] in t.ops;
    assert id in t.orphansBy ==> t.orphansBy[id] in t.orphans;
  }

  /** Every operation is in exactly one of the four places. */
  lemma OneHome(steps: seq<Step>, t: Ring, id: nat)
    requires Reaches(New(), steps, t) && id in t.started
    ensures var awaiting := Awaiting(t, id);
            var completed := Completed(t, id);
            var orphaned := id in t.orphansBy;
            var retired := id in t.released;
            && (awaiting || completed || orphaned || retired)
            && !(awaiting && completed) && !(orphaned && (awaiting || completed)) && !(retired && (awaiting || completed || orphaned))
  {
    NewIsValid();
    RunKeeps(New(), steps, t);
  }

  /** The result a future takes is the kernel's answer to the request that this future started, and
      comes with the resource it was started with, although slab keys are used again. */
  lemma ResultIsOwn(steps: seq<Step>, t: Ring, f: nat)
    requires Reaches(New(), steps, t) && Ready(t, f)
    ensures var op := t.ops[t.handles[f]];
            && op.userData in t.started && t.started[op.userData] == Start(f, op.resource)
            && op.userData in t.requests && Answered(t.requests[op.userData], op.result.value)
            && TakeResult(t, f).released[op.userData] == Returned(op.result.value)
  {
    NewIsValid();
    RunKeeps(New(), steps, t);
  }

  /** A resource leaves the ring only with its own answer, with the answer of a cancellation that
      stopped it, or unsent. */
  lemma ReleaseHasReason(steps: seq<Step>, t: Ring, id: nat)
    requires Reaches(New(), steps, t) && id in t.released
    ensures id in t.started && Justified(id, t.released[id], t.started[id].resource, t.requests)
    ensures id in t.requests ==> !KernelMayTouch(t.requests[id])
  {
    NewIsValid();
    RunKeeps(New(), steps, t);
  }

  lemma NotOrphaned(s: Ring, id: nat)
    requires Valid(s) && id in s.requests && s.requests[id].phase.Reaped?
    ensures id !in s.orphansBy
  {
    assert forall x :: x in s.orphansBy ==> s.orphansBy[x] in s.orphans && Unanswered(s.requests[x]);
  }

  /** An accepted descriptor is never lost: it waits in the slab, went to its future, or was closed. */
  lemma DescriptorsAreKept(steps: seq<Step>, t: Ring, id: nat)
    requires Reaches(New(), steps, t) && id in t.started && id in t.requests
    requires t.requests[id].phase.Reaped? && Descriptor(t.started[id].resource, t.requests[id].phase.res)
    ensures var fd := t.requests[id].phase.res;
            || (id in t.opsBy && t.opsBy[id] in t.ops && t.ops[t.opsBy[id]].result == Some(fd))
            || (id in t.released && (t.released[id] == Returned(fd) || t.released[id] == Discarded(fd, true)))
  {
    NewIsValid();
    RunKeeps(New(), steps, t);
    assert Settled(t.requests[id]);
    assert t.requests[id].kind == Operation;
    NotOrphaned(t, id);
  }
}
