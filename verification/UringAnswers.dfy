/** What each operation of the ring answers and does, and that operations get through. */
module UringAnswers {
  import opened Options
  import opened Uring

  /** What starting an operation leaves behind: its slot, its id, its future and its request are in place
      and nothing is released, or else no table changes and the resource is handed back. */
  predicate Started(s: Ring, f: nat, resource: Resource, key: nat, t: Ring) {
    && t.ops == s.ops[key := OpState(resource, None, s.next)] && t.opsBy == s.opsBy[s.next := key]
    && t.handles == s.handles[f := key]
    && t.requests == s.requests[s.next := Request(Operation, Queued, false)]
    && t.released == s.released && s.next !in t.released
  }

  predicate NotStarted(s: Ring, t: Ring) {
    && t.ops == s.ops && t.opsBy == s.opsBy && t.handles == s.handles && t.requests == s.requests
    && t.released == s.released[s.next := Refused]
  }

  lemma FreshStart(s: Ring, f: nat, resource: Resource, key: nat, addressable: bool, room: bool)
    requires IdFree(s, s.next) && s.next !in s.released
    ensures var t := StartOp(s, f, resource, key, addressable, room);
            if addressable && room then Started(s, f, resource, key, t) else NotStarted(s, t)
  {
  }

  /** An operation starts exactly when its resource has an address and the queue has room. */
  lemma StartAnswers(s: Ring, f: nat, resource: Resource, key: nat, addressable: bool, room: bool)
    requires Valid(s) && s.issued + 1 < ID_LIMIT && f !in s.handles && key !in s.ops
    ensures var t := StartOp(s, f, resource, key, addressable, room);
            if addressable && room then Started(s, f, resource, key, t) else NotStarted(s, t)
  {
    IdsAreFresh(s);
    FreshStart(s, f, resource, key, addressable, room);
  }

  /** Ids go up by one and, after the last of a word, start over at one; zero is never an id. */
  lemma IdsWrap(id: nat)
    requires id < ID_LIMIT
    ensures After(id) == if id == ID_LIMIT - 1 then 1 else id + 1
    ensures 0 < After(id) < ID_LIMIT
  {
  }

  /** A cancellation is queued under an id of its own, with its target remembered. */
  predicate CancelQueued(s: Ring, target: nat, room: bool, t: Ring) {
    && t.cancels == (if room then s.cancels[s.next := target] else s.cancels)
    && t.requests == (if room then s.requests[s.next := Request(Cancel(target), Queued, false)] else s.requests)
    && t.orphans == s.orphans && t.orphansBy == s.orphansBy && t.ops == s.ops && t.released == s.released
  }

  lemma FreshCancel(s: Ring, target: nat, room: bool)
    requires IdFree(s, s.next)
    ensures CancelQueued(s, target, room, SubmitCancel(s, target, room))
  {
  }

  lemma CancelAnswers(s: Ring, target: nat, room: bool)
    requires Valid(s) && s.issued + 1 < ID_LIMIT
    ensures CancelQueued(s, target, room, SubmitCancel(s, target, room))
  {
    IdsAreFresh(s);
    FreshCancel(s, target, room);
  }

  /** The answer to an operation whose future waits goes into its slot, and nowhere else. */
  lemma ReapAnswersFuture(s: Ring, id: nat)
    requires Valid(s) && id in s.requests && s.requests[id].phase.Posted? && id in s.opsBy
    ensures var t, key := Reap(s, id), s.opsBy[id];
            && t.ops == s.ops[key := OpState(s.ops[key].resource, Some(s.requests[id].phase.res), id)]
            && t.opsBy == s.opsBy && t.handles == s.handles && t.orphans == s.orphans && t.released == s.released
  {
    assert id in s.started;
    assert id !in s.cancels;
  }

  /** The answer to an orphan releases it, and closes the descriptor it may have brought. */
  lemma ReapAnswersOrphan(s: Ring, id: nat)
    requires Valid(s) && id in s.requests && s.requests[id].phase.Posted? && id in s.orphansBy
    ensures var t, res := Reap(s, id), s.requests[id].phase.res;
            && id !in t.orphansBy && t.orphans == s.orphans - {s.orphansBy[id]} && t.ops == s.ops
            && id in s.started && t.released == s.released[id := Discarded(res, s.started[id].resource == Accept && res >= 0)]
  {
    assert id in s.started;
    assert id !in s.cancels && id !in s.opsBy;
  }

  /** A cancelled orphan is released by the cancellation. */
  predicate ReleasedBy(s: Ring, target: nat, id: nat, t: Ring) {
    && target in s.orphansBy && target !in t.orphansBy && t.orphans == s.orphans - {s.orphansBy[target]}
    && t.released == s.released[target := Cancelled(id)]
  }

  predicate Unreleased(s: Ring, t: Ring) { t.orphansBy == s.orphansBy && t.orphans == s.orphans && t.released == s.released }

  lemma DeliversSuccess(s: Ring, id: nat, target: nat)
    requires target in s.orphansBy
    ensures var t := DeliverCancel(s, id, target, 0);
            t.cancels == s.cancels - {id} && t.ops == s.ops && ReleasedBy(s, target, id, t)
  {
  }

  lemma DeliversFailure(s: Ring, id: nat, target: nat, res: int)
    requires res != 0
    ensures var t := DeliverCancel(s, id, target, res);
            t.cancels == s.cancels - {id} && t.ops == s.ops && Unreleased(s, t)
  {
  }

  /** The answer to a cancellation releases its orphan exactly when it is success. */
  lemma ReapAnswersCancel(s: Ring, id: nat)
    requires Valid(s) && id in s.requests && s.requests[id].phase.Posted? && id in s.cancels && s.cancels[id] in s.orphansBy
    ensures var t := Reap(s, id);
            && t.cancels == s.cancels - {id} && t.ops == s.ops
            && (if s.requests[id].phase.res == 0 then ReleasedBy(s, s.cancels[id], id, t) else Unreleased(s, t))
  {
    if s.requests[id].phase.res == 0 {
      DeliversSuccess(s, id, s.cancels[id]);
    } else {
      DeliversFailure(s, id, s.cancels[id], s.requests[id].phase.res);
    }
  }

  /** One more step in front of a run. */
  lemma Prepend(s: Ring, step: Step, steps: seq<Step>, t: Ring)
    requires Owned(s) && Enabled(s, step) && Reaches(Apply(s, step), steps, t)
    ensures Reaches(s, [step] + steps, t)
  {
    assert ([step] + steps)[1..] == steps;
  }

  /** A request taken and answered by the kernel, and reaped. */
  lemma Served(s: Ring, id: nat, res: int) returns (steps: seq<Step>, t: Ring)
    requires Valid(s) && id in s.opsBy && id in s.requests && s.requests[id] == Request(Operation, Queued, false)
    ensures Reaches(s, steps, t)
    ensures var key := s.opsBy[id];
            key in s.ops && t.ops == s.ops[key := OpState(s.ops[key].resource, Some(res), id)] && t.handles == s.handles
  {
    var a := KernelTake(s, id);
    KernelTakeKeeps(s, id);
    var b := KernelPost(a, id, res);
    KernelPostKeeps(a, id, res);
    t := Reap(b, id);
    ReapAnswersFuture(b, id);
    assert Reaches(t, [], t);
    Prepend(b, DoReap(id), [], t);
    Prepend(a, DoKernelPost(id, res), [DoReap(id)] + [], t);
    Prepend(s, DoKernelTake(id), [DoKernelPost(id, res)] + ([DoReap(id)] + []), t);
    steps := [DoKernelTake(id)] + ([DoKernelPost(id, res)] + ([DoReap(id)] + []));
  }

  /** From every state with ids left, a free slot and room, every operation can get every answer: a run
      ends with its future ready to take it, together with the resource it gave. */
  lemma EveryAnswerArrives(s: Ring, f: nat, resource: Resource, key: nat, res: int) returns (steps: seq<Step>, t: Ring)
    requires Valid(s) && s.issued + 1 < ID_LIMIT && f !in s.handles && key !in s.ops
    ensures Reaches(s, steps, t) && Ready(t, f)
    ensures t.ops[t.handles[f]] == OpState(resource, Some(res), s.next)
  {
    var start := DoStart(f, resource, key, true, true);
    var a := Apply(s, start);
    StartOpKeeps(s, f, resource, key, true, true);
    StartAnswers(s, f, resource, key, true, true);
    var rest;
    rest, t := Served(a, s.next, res);
    Prepend(s, start, rest, t);
    steps := [start] + rest;
  }

  /** An orphan the kernel is working on can be cancelled: a run ends with its resource released by the
      cancellation, before any answer of its own. */
  lemma OrphanCanBeCancelled(s: Ring, id: nat) returns (steps: seq<Step>, t: Ring)
    requires Valid(s) && s.issued + 1 < ID_LIMIT && id in s.orphansBy && Revocable(s, id)
    ensures Reaches(s, steps, t) && id !in t.orphansBy
    ensures id in t.released && t.released[id] == Cancelled(s.next)
  {
    var c := s.next;
    IdsAreFresh(s);
    assert id in s.started && id !in s.opsBy;
    SubmitCancelKeeps(s, id, true);
    CancelAnswers(s, id, true);
    var a := SubmitCancel(s, id, true);
    var rest;
    rest, t := CancelServed(a, id, c);
    Prepend(s, DoSubmitCancel(id, true), rest, t);
    steps := [DoSubmitCancel(id, true)] + rest;
  }

  /** A run of one step. */
  lemma OneStep(s: Ring, step: Step)
    requires Valid(s) && Enabled(s, step)
    ensures Reaches(s, [step], Apply(s, step)) && Valid(Apply(s, step))
  {
    StepKeeps(s, step);
    assert [step][1..] == [];
  }

  lemma {:induction false} Chain(s: Ring, a: seq<Step>, t: Ring, b: seq<Step>, u: Ring)
    requires Reaches(s, a, t) && Reaches(t, b, u)
    ensures Reaches(s, a + b, u)
    decreases |a|
  {
    if a == [] {
      assert a + b == b;
    } else {
      assert (a + b)[1..] == a[1..] + b;
      Chain(Apply(s, a[0]), a[1..], t, b, u);
    }
  }

  /** The request to cancel an orphan, in the phase it has reached. */
  ghost predicate Cancelling(s: Ring, id: nat, c: nat, phase: Phase) {
    && Valid(s) && id in s.orphansBy && c != id && c in s.cancels && s.cancels[c] == id
    && c in s.requests && s.requests[c] == Request(Cancel(id), phase, false)
  }

  lemma CancelTaken(s: Ring, id: nat, c: nat)
    requires Cancelling(s, id, c, Queued) && Revocable(s, id)
    ensures var t := KernelTake(s, c);
            Cancelling(t, id, c, Taken) && Revocable(t, id) && Reaches(s, [DoKernelTake(c)], t)
  {
    OneStep(s, DoKernelTake(c));
  }

  lemma CancelWon(s: Ring, id: nat, c: nat)
    requires Cancelling(s, id, c, Taken) && Revocable(s, id)
    ensures var t := KernelRevoke(s, c); Cancelling(t, id, c, Won) && Reaches(s, [DoKernelRevoke(c)], t)
  {
    OneStep(s, DoKernelRevoke(c));
  }

  lemma CancelPosted(s: Ring, id: nat, c: nat)
    requires Cancelling(s, id, c, Won)
    ensures var t := KernelPost(s, c, 0); Cancelling(t, id, c, Posted(0)) && Reaches(s, [DoKernelPost(c, 0)], t)
  {
    OneStep(s, DoKernelPost(c, 0));
  }

  lemma CancelReaped(s: Ring, id: nat, c: nat)
    requires Cancelling(s, id, c, Posted(0))
    ensures var t := Reap(s, c);
            Reaches(s, [DoReap(c)], t) && id !in t.orphansBy && id in t.released && t.released[id] == Cancelled(c)
  {
    OneStep(s, DoReap(c));
    ReapAnswersCancel(s, c);
  }

  /** The kernel takes the cancellation, stops its target and answers with success, and that is reaped. */
  lemma CancelServed(s: Ring, id: nat, c: nat) returns (steps: seq<Step>, t: Ring)
    requires Cancelling(s, id, c, Queued) && Revocable(s, id)
    ensures Reaches(s, steps, t) && id !in t.orphansBy
    ensures id in t.released && t.released[id] == Cancelled(c)
  {
    CancelTaken(s, id, c);
    var a := KernelTake(s, c);
    CancelWon(a, id, c);
    var b := KernelRevoke(a, c);
    CancelPosted(b, id, c);
    var d := KernelPost(b, c, 0);
    CancelReaped(d, id, c);
    t := Reap(d, c);
    steps := [DoKernelTake(c)] + ([DoKernelRevoke(c)] + ([DoKernelPost(c, 0)] + [DoReap(c)]));
    Chain(b, [DoKernelPost(c, 0)], d, [DoReap(c)], t);
    Chain(a, [DoKernelRevoke(c)], b, [DoKernelPost(c, 0)] + [DoReap(c)], t);
    Chain(s, [DoKernelTake(c)], a, [DoKernelRevoke(c)] + ([DoKernelPost(c, 0)] + [DoReap(c)]), t);
  }
}
