/** The ring state, updated in place, against the operations on values. */
module UringState {
  import opened Options
  import opened Uring

  datatype Cqe = Cqe(userData: nat, res: int)

  /** The completions of one batch, all posted and each for a different request. */
  ghost predicate Batch(requests: map<nat, Request>, cqes: seq<Cqe>) {
    && (forall i :: 0 <= i < |cqes| ==> cqes[i].userData in requests && requests[cqes[i].userData].phase == Posted(cqes[i].res))
    && (forall i, j :: 0 <= i < j < |cqes| ==> cqes[i].userData != cqes[j].userData)
  }

  /** Reaping changes the phase of one request. */
  lemma ReapRequests(s: Ring, id: nat)
    requires Indexed(s.ops, s.opsBy) && Indexed(s.orphans, s.orphansBy)
    requires id in s.requests && s.requests[id].phase.Posted?
    ensures Reap(s, id).requests == s.requests[id := s.requests[id].(phase := Reaped(s.requests[id].phase.res))]
  {
  }

  /** Reaping one completion leaves the rest of the batch posted. */
  lemma BatchRest(s: Ring, cqes: seq<Cqe>)
    requires Valid(s) && Batch(s.requests, cqes) && cqes != []
    ensures Batch(Reap(s, cqes[0].userData).requests, cqes[1..])
  {
    ReapRequests(s, cqes[0].userData);
    BatchMoves(s.requests, cqes, s.requests[cqes[0].userData].(phase := Reaped(cqes[0].res)));
  }

  lemma BatchMoves(requests: map<nat, Request>, cqes: seq<Cqe>, r: Request)
    requires Batch(requests, cqes) && cqes != []
    ensures Batch(requests[cqes[0].userData := r], cqes[1..])
  {
  }

  /** A batch reaped one completion after the other. */
  ghost function ReapAll(s: Ring, cqes: seq<Cqe>): Ring
    requires Valid(s) && Batch(s.requests, cqes)
    decreases |cqes|
  {
    if cqes == [] then s
    else
      BatchRest(s, cqes);
      ReapKeeps(s, cqes[0].userData);
      ReapAll(Reap(s, cqes[0].userData), cqes[1..])
  }

  lemma AddRemove<V>(m: map<nat, V>, k: nat, v: V)
    requires k !in m
    ensures m[k := v] - {k} == m
  {
  }

  class RingState {
    var ops: map<nat, OpState>
    var opsBy: map<nat, nat>
    var orphans: map<nat, OpState>
    var orphansBy: map<nat, nat>
    var cancels: map<nat, nat>
    var next: nat
    ghost var handles: map<nat, nat>
    ghost var requests: map<nat, Request>
    ghost var started: map<nat, Start>
    ghost var released: map<nat, Cause>
    ghost var issued: nat

    ghost function View(): Ring
      reads this
    {
      Ring(ops, opsBy, orphans, orphansBy, cancels, next, handles, requests, started, released, issued)
    }

    constructor ()
      ensures View() == New()
    {
      ops, opsBy, orphans, orphansBy, cancels, next := map[], map[], map[], map[], map[], 1;
      handles, requests, started, released, issued := map[], map[], map[], map[], 0;
    }

    method NextUserData() returns (id: Option<nat>)
      modifies this`next, this`issued
      ensures View() == NextId(old(View()))
      ensures id == if IdFree(old(View()), old(next)) then Some(old(next)) else None
    {
      var candidate := next;
      next := if candidate + 1 >= ID_LIMIT then 1 else candidate + 1;
      issued := issued + 1;
      id := if candidate != 0 && candidate !in opsBy && candidate !in orphansBy then Some(candidate) else None;
    }

    /** The slot is inserted before the request is queued, and taken out again when that fails. */
    method BeginOp(ghost f: nat, resource: Resource, key: nat, addressable: bool, room: bool)
      returns (ok: bool, back: Option<Resource>)
      requires key !in ops
      modifies this
      ensures ok ==>
        && ops == old(ops)[key := OpState(resource, None, old(next))] && opsBy == old(opsBy)[old(next) := key]
        && handles == old(handles)[f := key] && requests == old(requests)[old(next) := Request(Operation, Queued, false)]
        && released == old(released)
      ensures !ok ==> ops == old(ops) && opsBy == old(opsBy) && handles == old(handles) && requests == old(requests)
      ensures back == if ok then None else Some(resource)
      ensures View() == StartOp(old(View()), f, resource, key, addressable, room)
      ensures ok == (old(IdFree(View(), next)) && addressable && room)
    {
      var id := NextUserData();
      back := Some(resource);
      if id.None? { return false, back; }
      AddRemove(opsBy, id.value, key);
      AddRemove(ops, key, OpState(resource, None, id.value));
      started := started[id.value := Start(f, resource)];
      ops := ops[key := OpState(resource, None, id.value)];
      opsBy := opsBy[id.value := key];
      ok := addressable && room;
      if !ok {
        opsBy := opsBy - {id.value};
        ops := ops - {key};
        released := released[id.value := Refused];
        return;
      }
      handles := handles[f := key];
      requests := requests[id.value := Request(Operation, Queued, false)];
      back := None;
    }

    method Take(key: nat, ghost f: nat) returns (r: Option<(int, Resource)>)
      requires f in handles && handles[f] == key
      modifies this
      ensures r.None? ==> !old(Ready(View(), f)) && View() == old(View())
      ensures r.Some? ==> old(Ready(View(), f)) && View() == TakeResult(old(View()), f)
      ensures r.Some? ==> r.value == (old(ops[key].result.value), old(ops[key].resource))
    {
      if key !in ops || ops[key].result.None? { return None; }
      var op := ops[key];
      ops := ops - {key};
      opsBy := opsBy - {op.userData};
      handles := handles - {f};
      released := released[op.userData := Returned(op.result.value)];
      r := Some((op.result.value, op.resource));
    }

    /** Drop a future that holds `key`; `closed` is the descriptor closed, `cancel` the id to cancel. */
    method OrphanOp(key: nat, ghost f: nat, slot: nat) returns (closed: Option<int>, cancel: Option<nat>)
      requires f in handles && handles[f] == key && slot !in orphans
      modifies this
      ensures View() == if key in old(ops) then DropFuture(old(View()), f, slot) else old(View())
      ensures cancel == if key in old(ops) && old(ops)[key].result.None? then Some(old(ops)[key].userData) else None
      ensures closed == if key in old(ops) && old(ops)[key].result.Some? &&
                           Descriptor(old(ops)[key].resource, old(ops)[key].result.value)
                        then old(ops)[key].result else None
    {
      closed, cancel := None, None;
      if key !in ops { return; }
      var op := ops[key];
      ops := ops - {key};
      opsBy := opsBy - {op.userData};
      handles := handles - {f};
      if op.result.Some? {
        if op.resource == Accept && op.result.value >= 0 { closed := op.result; }
        released := released[op.userData := Discarded(op.result.value, closed.Some?)];
        return;
      }
      orphans := orphans[slot := op];
      orphansBy := orphansBy[op.userData := slot];
      cancel := Some(op.userData);
    }

    method CancelOp(target: nat, room: bool)
      modifies this
      ensures View() == SubmitCancel(old(View()), target, room)
    {
      var id := NextUserData();
      if id.None? || !room { return; }
      cancels := cancels[id.value := target];
      requests := requests[id.value := Request(Cancel(target), Queued, false)];
    }

    method ReapCancelAnswer(cqe: Cqe)
      requires Indexed(ops, opsBy) && Indexed(orphans, orphansBy) && cqe.userData in cancels
      modifies this`cancels, this`ops, this`opsBy, this`orphans, this`orphansBy, this`released
      ensures View() == DeliverCancel(old(View()), cqe.userData, old(cancels)[cqe.userData], cqe.res)
    {
      var target := cancels[cqe.userData];
      cancels := cancels - {cqe.userData};
      if cqe.res != 0 { return; }
      if target in orphansBy {
        orphans := orphans - {orphansBy[target]};
        orphansBy := orphansBy - {target};
        released := released[target := Cancelled(cqe.userData)];
      } else if target in opsBy {
        ops := ops - {opsBy[target]};
        opsBy := opsBy - {target};
        released := released[target := Cancelled(cqe.userData)];
      }
    }

    method ReapOwnAnswer(cqe: Cqe) returns (woken: bool)
      requires Indexed(ops, opsBy) && Indexed(orphans, orphansBy) && cqe.userData !in cancels
      modifies this`ops, this`orphans, this`orphansBy, this`released
      ensures View() == Deliver(old(View()), cqe.userData, cqe.res)
      ensures woken <==> cqe.userData in opsBy
    {
      var id := cqe.userData;
      woken := id in opsBy;
      if woken {
        var key := opsBy[id];
        ops := ops[key := ops[key].(result := Some(cqe.res))];
      } else if id in orphansBy {
        var key := orphansBy[id];
        released := released[id := Discarded(cqe.res, Descriptor(orphans[key].resource, cqe.res))];
        orphansBy := orphansBy - {id};
        orphans := orphans - {key};
      }
    }

    /** One pass of the reaping loop; `woken`: the operation's waker is to be woken. */
    method ReapOne(cqe: Cqe) returns (woken: bool)
      requires Indexed(ops, opsBy) && Indexed(orphans, orphansBy)
      requires cqe.userData in requests && requests[cqe.userData].phase == Posted(cqe.res)
      modifies this
      ensures View() == Reap(old(View()), cqe.userData)
      ensures woken <==> old(cqe.userData !in cancels && cqe.userData in opsBy)
    {
      woken := false;
      if cqe.userData in cancels {
        ReapCancelAnswer(cqe);
      } else {
        woken := ReapOwnAnswer(cqe);
      }
      requests := requests[cqe.userData := requests[cqe.userData].(phase := Reaped(cqe.res))];
    }

    /** The reaping loop over the completions found available. */
    method ReapBatch(cqes: seq<Cqe>)
      requires Valid(View()) && Batch(requests, cqes)
      modifies this
      ensures View() == ReapAll(old(View()), cqes)
    {
      var rest := cqes;
      while rest != []
        invariant Valid(View()) && Batch(requests, rest)
        invariant ReapAll(View(), rest) == ReapAll(old(View()), cqes)
        decreases |rest|
      {
        BatchRest(View(), rest);
        ReapKeeps(View(), rest[0].userData);
        var _ := ReapOne(rest[0]);
        rest := rest[1..];
      }
    }
  }
}
