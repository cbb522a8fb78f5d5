/** The multi-producer channel, bounded or not, with reservations. Every operation runs under the
    state lock, so it is one step. */
module Mpsc {
  import opened Options
  import opened Waiters

  /** A `Send` future with the item it still has to hand over, or a `Reserve` future. */
  datatype Fut<T> = Fut(reserves: bool, item: Option<T>, registered: bool, granted: bool)

  /** `attached`: the receiver still holds the channel. `permits`: live reservation permits.
      `accepted` and `received` are the histories of the two ends. */
  datatype Chan<T> = Chan(
    queue: seq<T>,
    capacity: Option<nat>,
    reserved: int,
    senders: nat,
    receiverAlive: bool,
    attached: bool,
    recvWaker: bool,
    waiters: seq<nat>,
    futures: map<nat, Fut<T>>,
    permits: nat,
    accepted: seq<T>,
    received: seq<T>)

  datatype SendResult<T> = SendPending | Sent | Rejected(item: T)

  datatype ReserveResult = ReservePending | Reserved | ReceiverGone

  datatype RecvResult<T> = RecvPending | Item(item: T) | Disconnected

  function New<T>(capacity: Option<nat>): Chan<T> {
    Chan([], capacity, 0, 1, true, true, false, [], map[], 0, [], [])
  }

  predicate Room<T>(s: Chan<T>) { s.capacity.Some? ==> |s.queue| + s.reserved < s.capacity.value }

  // ----- Pieces -----

  /** Append an item and wake the receiver. */
  function Accept<T>(s: Chan<T>, x: T): Chan<T> {
    s.(queue := s.queue + [x], recvWaker := false, accepted := s.accepted + [x])
  }

  predicate Listed<T>(s: Chan<T>) { forall id :: id in s.waiters ==> id in s.futures }

  /** `wake_one_sender`: offer free room to the first waiter; a reservation is counted here. */
  function WakeOne<T>(s: Chan<T>): Chan<T>
    requires Listed(s)
  {
    if !Room(s) || s.waiters == [] then s
    else
      var w := s.waiters[0];
      var f := s.futures[w];
      s.(waiters := s.waiters[1..], reserved := if f.reserves then s.reserved + 1 else s.reserved,
         futures := s.futures[w := f.(granted := true)])
  }

  // ----- Operations -----

  function Start<T>(s: Chan<T>, id: nat, item: Option<T>): Chan<T>
    requires id !in s.futures
  {
    s.(futures := s.futures[id := Fut(item.None?, item, false, false)])
  }

  /** `Send::poll`; a grant whose room was taken by somebody else queues again from scratch. */
  function PollSend<T>(s: Chan<T>, id: nat, proceed: bool): (Chan<T>, SendResult<T>)
    requires id in s.futures && !s.futures[id].reserves && s.futures[id].item.Some?
  {
    var f := s.futures[id];
    var x := f.item.value;
    if !proceed then (s, SendPending)
    else if !s.receiverAlive then (s.(futures := s.futures[id := f.(item := None)]), Rejected(x))
    else
      var registered := f.registered && !f.granted;
      if Room(s) && (f.granted || (!registered && s.waiters == [])) then
        (Accept(s, x).(futures := s.futures[id := Fut(false, None, false, false)]), Sent)
      else
        (s.(waiters := if registered then s.waiters else s.waiters + [id],
            futures := s.futures[id := Fut(false, f.item, true, false)]), SendPending)
  }

  function PollReserve<T>(s: Chan<T>, id: nat, proceed: bool): (Chan<T>, ReserveResult)
    requires id in s.futures && s.futures[id].reserves
  {
    var f := s.futures[id];
    if !proceed then (s, ReservePending)
    else if !s.receiverAlive then (s, ReceiverGone)
    else if f.granted then
      (s.(permits := s.permits + 1, futures := s.futures[id := f.(registered := false, granted := false)]), Reserved)
    else if !f.registered && s.waiters == [] && Room(s) then
      (s.(permits := s.permits + 1, reserved := s.reserved + 1), Reserved)
    else
      (s.(waiters := if f.registered then s.waiters else s.waiters + [id],
          futures := s.futures[id := f.(registered := true)]), ReservePending)
  }

  /** Dropping a future gives back an unused grant and offers the room to the next waiter. */
  function DropFuture<T>(s: Chan<T>, id: nat): Chan<T>
    requires Listed(s) && id in s.futures
  {
    var f := s.futures[id];
    var left := s.(waiters := Without(s.waiters, id), futures := s.futures - {id});
    if !f.granted then LeftListed(s, id); left
    else
      LeftListed(s, id);
      WakeOne(if f.reserves then left.(reserved := s.reserved - 1) else left)
  }

  lemma {:induction false} LeftOut(ids: seq<nat>, id: nat)
    ensures id !in Without(ids, id)
  {
    if ids != [] { LeftOut(ids[1..], id); }
  }

  lemma LeftListed<T>(s: Chan<T>, id: nat)
    requires Listed(s)
    ensures Listed(s.(waiters := Without(s.waiters, id), futures := s.futures - {id}))
  {
    LeftOut(s.waiters, id);
  }

  function PermitSend<T>(s: Chan<T>, x: T): (Chan<T>, bool)
    requires s.permits > 0
  {
    var t := s.(permits := s.permits - 1, reserved := s.reserved - 1);
    if !s.receiverAlive then (t, false) else (Accept(t, x), true)
  }

  function PermitDrop<T>(s: Chan<T>): Chan<T>
    requires Listed(s) && s.permits > 0
  {
    WakeOne(s.(permits := s.permits - 1, reserved := s.reserved - 1))
  }

  function TrySend<T>(s: Chan<T>, x: T): (Chan<T>, bool) {
    if !s.receiverAlive || !Room(s) || s.waiters != [] then (s, false) else (Accept(s, x), true)
  }

  function Recv<T>(s: Chan<T>, proceed: bool): (Chan<T>, RecvResult<T>)
    requires Listed(s) && s.attached
  {
    if !proceed then (s, RecvPending)
    else if |s.queue| > 0 then
      (WakeOne(s.(queue := s.queue[1..], received := s.received + [s.queue[0]])), Item(s.queue[0]))
    else if s.senders == 0 then (s.(attached := false), Disconnected)
    else (s.(recvWaker := true), RecvPending)
  }

  function DropReceiver<T>(s: Chan<T>): Chan<T> {
    if s.attached then s.(attached := false, receiverAlive := false, waiters := []) else s
  }

  function CloneSender<T>(s: Chan<T>): Chan<T> { s.(senders := s.senders + 1) }

  function DropSender<T>(s: Chan<T>): Chan<T>
    requires s.senders > 0
  {
    s.(senders := s.senders - 1, recvWaker := s.recvWaker && s.senders > 1)
  }

  // ----- The invariant -----

  function GrantedIds<T>(futures: map<nat, Fut<T>>, reserves: bool): set<nat> {
    set id | id in futures && futures[id].granted && futures[id].reserves == reserves
  }

  /** While the receiver lives the waiter list holds each registered, ungranted future once. */
  predicate Queued<T>(s: Chan<T>) {
    && Distinct(s.waiters) && Listed(s)
    && (forall id :: id in s.futures && s.futures[id].granted ==> s.futures[id].registered)
    && (s.receiverAlive ==>
          forall id :: id in s.futures ==> (id in s.waiters <==> s.futures[id].registered && !s.futures[id].granted))
    && (!s.receiverAlive ==> s.waiters == [])
  }

  /** Reservations are counted exactly and fit the capacity together with the queue. */
  predicate Counted<T>(s: Chan<T>) {
    && s.reserved == s.permits + |GrantedIds(s.futures, true)|
    && (s.capacity.Some? ==> |s.queue| + s.reserved <= s.capacity.value)
  }

  /** While the receiver lives and a sender waits, every free slot is already promised to a plain
      sender that has been granted and has not run yet. */
  predicate Unstranded<T>(s: Chan<T>) {
    s.receiverAlive && s.waiters != [] ==>
      s.capacity.Some? && s.capacity.value - |s.queue| - s.reserved <= |GrantedIds(s.futures, false)|
  }

  /** Nothing is lost, duplicated or reordered, a parked receiver has nothing to receive, and a receiver
      that has seen the end of the channel has no sender left. */
  ghost predicate Ordered<T>(s: Chan<T>) {
    && s.accepted == s.received + s.queue
    && (s.recvWaker ==> s.queue == [] && s.senders > 0)
    && (s.receiverAlive && !s.attached ==> s.senders == 0)
  }

  ghost predicate Valid<T>(s: Chan<T>) { Queued(s) && Counted(s) && Unstranded(s) && Ordered(s) }

  // ----- Waking one sender -----

  /** Changing one future's grant changes the granted futures of its kind by that one. */
  lemma GrantedUpdate<T>(f: map<nat, Fut<T>>, id: nat, g: Fut<T>)
    requires id in f ==> g.reserves == f[id].reserves
    ensures |GrantedIds(f[id := g], g.reserves)| ==
            |GrantedIds(f, g.reserves)| + (if g.granted then 1 else 0) - (if id in f && f[id].granted then 1 else 0)
    ensures GrantedIds(f[id := g], !g.reserves) == GrantedIds(f, !g.reserves)
  {
    var now := GrantedIds(f[id := g], g.reserves);
    var was := GrantedIds(f, g.reserves);
    SameElsewhere(f, id, g);
    SizeWithout(now, id);
    SizeWithout(was, id);
    OtherKind(f, id, g);
  }

  lemma SameElsewhere<T>(f: map<nat, Fut<T>>, id: nat, g: Fut<T>)
    ensures GrantedIds(f[id := g], g.reserves) - {id} == GrantedIds(f, g.reserves) - {id}
  {
  }

  lemma OtherKind<T>(f: map<nat, Fut<T>>, id: nat, g: Fut<T>)
    requires id in f ==> g.reserves == f[id].reserves
    ensures GrantedIds(f[id := g], !g.reserves) == GrantedIds(f, !g.reserves)
  {
  }

  lemma SizeWithout(s: set<nat>, x: nat)
    ensures |s| == |s - {x}| + (if x in s then 1 else 0)
  {
    if x in s { assert s == (s - {x}) + {x}; } else { assert s - {x} == s; }
  }

  lemma GrantedRemove<T>(f: map<nat, Fut<T>>, id: nat)
    requires id in f
    ensures var r := f[id].reserves;
            && |GrantedIds(f - {id}, r)| == |GrantedIds(f, r)| - (if f[id].granted then 1 else 0)
            && GrantedIds(f - {id}, !r) == GrantedIds(f, !r)
  {
    var r := f[id].reserves;
    assert GrantedIds(f - {id}, r) == GrantedIds(f, r) - {id};
    SizeWithout(GrantedIds(f, r), id);
    assert id in GrantedIds(f, r) <==> f[id].granted;
  }

  /** Waking may be needed by one slot: whoever frees a slot and then wakes restores the invariant. */
  predicate OneSlotFreed<T>(s: Chan<T>) {
    s.receiverAlive && s.waiters != [] ==>
      s.capacity.Some? && s.capacity.value - |s.queue| - s.reserved <= |GrantedIds(s.futures, false)| + 1
  }

  lemma WakeOneQueued<T>(s: Chan<T>)
    requires Queued(s)
    ensures Queued(WakeOne(s))
  {
    if Room(s) && s.waiters != [] {
      TailDistinct(s.waiters);
      assert s.waiters == [s.waiters[0]] + s.waiters[1..];
    }
  }

  lemma WakeOneKeeps<T>(s: Chan<T>)
    requires Queued(s) && Counted(s) && OneSlotFreed(s) && Ordered(s)
    ensures Valid(WakeOne(s))
  {
    WakeOneQueued(s);
    if Room(s) && s.waiters != [] {
      var w := s.waiters[0];
      GrantedUpdate(s.futures, w, s.futures[w].(granted := true));
    }
  }

  // ----- Every operation keeps the invariant -----

  lemma StartKeeps<T>(s: Chan<T>, id: nat, item: Option<T>)
    requires Valid(s) && id !in s.futures
    ensures Valid(Start(s, id, item))
  {
    GrantedUpdate(s.futures, id, Fut(item.None?, item, false, false));
    assert forall r :: GrantedIds(s.futures[id := Fut(item.None?, item, false, false)], r) == GrantedIds(s.futures, r);
  }

  lemma AcceptOrdered<T>(s: Chan<T>, x: T)
    requires s.accepted == s.received + s.queue && (s.receiverAlive && !s.attached ==> s.senders == 0)
    ensures Ordered(Accept(s, x))
  {
    assert s.received + (s.queue + [x]) == (s.received + s.queue) + [x];
  }

  /** A registration, or the renewal of one, by a future that holds no grant any more. */
  lemma ParkKeeps<T>(s: Chan<T>, id: nat, t: Chan<T>)
    requires Valid(s) && s.receiverAlive && id in s.futures
    requires var f := s.futures[id]; var parked := f.registered && !f.granted;
             && t == s.(waiters := if parked then s.waiters else s.waiters + [id],
                        futures := s.futures[id := Fut(f.reserves, f.item, true, false)])
             && !(f.reserves && f.granted)
             && (!parked && (f.granted || s.waiters == []) ==> !Room(s))
    ensures Valid(t)
  {
    GrantedUpdate(s.futures, id, t.futures[id]);
    if id !in s.waiters { AppendDistinct(s.waiters, id); }
  }

  /** A send that finds room it may use. */
  lemma SentKeeps<T>(s: Chan<T>, id: nat, x: T, t: Chan<T>)
    requires Valid(s) && s.receiverAlive && Room(s) && id in s.futures && !s.futures[id].reserves
    requires s.futures[id].granted || (!s.futures[id].registered && s.waiters == [])
    requires t == Accept(s, x).(futures := s.futures[id := Fut(false, None, false, false)])
    ensures Valid(t)
  {
    GrantedUpdate(s.futures, id, t.futures[id]);
    AcceptOrdered(s, x);
  }

  lemma RejectKeeps<T>(s: Chan<T>, id: nat)
    requires Valid(s) && !s.receiverAlive && id in s.futures
    ensures Valid(s.(futures := s.futures[id := s.futures[id].(item := None)]))
  {
    GrantedUpdate(s.futures, id, s.futures[id].(item := None));
  }

  lemma PollSendKeeps<T>(s: Chan<T>, id: nat, proceed: bool)
    requires Valid(s) && id in s.futures && !s.futures[id].reserves && s.futures[id].item.Some?
    ensures Valid(PollSend(s, id, proceed).0)
  {
    var f := s.futures[id];
    var (t, r) := PollSend(s, id, proceed);
    if proceed {
      if !s.receiverAlive {
        RejectKeeps(s, id);
      } else if r.Sent? {
        SentKeeps(s, id, f.item.value, t);
      } else {
        ParkKeeps(s, id, t);
      }
    }
  }

  lemma PollReserveKeeps<T>(s: Chan<T>, id: nat, proceed: bool)
    requires Valid(s) && id in s.futures && s.futures[id].reserves
    ensures Valid(PollReserve(s, id, proceed).0)
  {
    var (t, r) := PollReserve(s, id, proceed);
    if proceed && s.receiverAlive {
      if r.ReservePending? {
        ParkKeeps(s, id, t);
      } else if s.futures[id].granted {
        GrantedUpdate(s.futures, id, t.futures[id]);
      }
    }
  }

  /** A future without a grant leaves. */
  lemma LeaveKeeps<T>(s: Chan<T>, id: nat)
    requires Valid(s) && id in s.futures && !s.futures[id].granted
    ensures Valid(s.(waiters := Without(s.waiters, id), futures := s.futures - {id}))
  {
    LeftListed(s, id);
    WithoutKeeps(s.waiters, id);
    GrantedRemove(s.futures, id);
  }

  /** The state between giving a grant back and passing the room on. */
  lemma GivenBack<T>(s: Chan<T>, id: nat, t: Chan<T>)
    requires Valid(s) && id in s.futures && s.futures[id].granted
    requires t == s.(waiters := Without(s.waiters, id), futures := s.futures - {id},
                     reserved := if s.futures[id].reserves then s.reserved - 1 else s.reserved)
    ensures Queued(t) && Counted(t) && OneSlotFreed(t) && Ordered(t)
  {
    LeftListed(s, id);
    WithoutKeeps(s.waiters, id);
    GrantedRemove(s.futures, id);
  }

  /** A grant goes back and the room is passed on. */
  lemma ReturnKeeps<T>(s: Chan<T>, id: nat)
    requires Valid(s) && id in s.futures && s.futures[id].granted
    ensures Valid(DropFuture(s, id))
  {
    var t := s.(waiters := Without(s.waiters, id), futures := s.futures - {id},
                reserved := if s.futures[id].reserves then s.reserved - 1 else s.reserved);
    GivenBack(s, id, t);
    WakeOneKeeps(t);
    assert DropFuture(s, id) == WakeOne(t);
  }

  lemma DropFutureKeeps<T>(s: Chan<T>, id: nat)
    requires Valid(s) && id in s.futures
    ensures Valid(DropFuture(s, id))
  {
    if s.futures[id].granted { ReturnKeeps(s, id); } else { LeaveKeeps(s, id); }
  }

  lemma PermitSendKeeps<T>(s: Chan<T>, x: T)
    requires Valid(s) && s.permits > 0
    ensures Valid(PermitSend(s, x).0)
  {
    AcceptOrdered(s.(permits := s.permits - 1, reserved := s.reserved - 1), x);
  }

  lemma PermitDropKeeps<T>(s: Chan<T>)
    requires Valid(s) && s.permits > 0
    ensures Valid(PermitDrop(s))
  {
    WakeOneKeeps(s.(permits := s.permits - 1, reserved := s.reserved - 1));
  }

  lemma RecvKeeps<T>(s: Chan<T>, proceed: bool)
    requires Valid(s) && s.attached
    ensures Valid(Recv(s, proceed).0)
  {
    if proceed && |s.queue| > 0 {
      var t := s.(queue := s.queue[1..], received := s.received + [s.queue[0]]);
      assert s.queue == [s.queue[0]] + s.queue[1..];
      assert s.received + ([s.queue[0]] + s.queue[1..]) == t.received + t.queue;
      WakeOneKeeps(t);
    }
  }

  lemma TrySendKeeps<T>(s: Chan<T>, x: T)
    requires Valid(s)
    ensures Valid(TrySend(s, x).0)
  {
    AcceptOrdered(s, x);
  }

  lemma EndsKeep<T>(s: Chan<T>)
    requires Valid(s)
    ensures Valid(DropReceiver(s))
    ensures s.senders > 0 ==> Valid(CloneSender(s)) && Valid(DropSender(s))
  {
  }

  // ----- Runs -----

  datatype Op<T> =
    | DoSend(id: nat, item: T) | DoReserve(id: nat)
    | DoPoll(id: nat, proceed: bool) | DoDropFuture(id: nat)
    | DoPermitSend(item: T) | DoPermitDrop | DoTrySend(item: T)
    | DoRecv(proceed: bool) | DoDropReceiver | DoCloneSender | DoDropSender

  /** What the types and the futures contract demand of callers. */
  predicate Enabled<T>(s: Chan<T>, op: Op<T>) {
    match op
    case DoSend(id, _) => id !in s.futures
    case DoReserve(id) => id !in s.futures
    case DoPoll(id, _) => id in s.futures && (s.futures[id].reserves || s.futures[id].item.Some?)
    case DoDropFuture(id) => id in s.futures
    case DoPermitSend(_) => s.permits > 0
    case DoPermitDrop => s.permits > 0
    case DoTrySend(_) => s.senders > 0
    case DoRecv(_) => s.attached
    case DoDropReceiver => true
    case DoCloneSender => s.senders > 0
    case DoDropSender => s.senders > 0
  }

  function Step<T>(s: Chan<T>, op: Op<T>): Chan<T>
    requires Queued(s) && Enabled(s, op)
  {
    match op
    case DoSend(id, item) => Start(s, id, Some(item))
    case DoReserve(id) => Start(s, id, None)
    case DoPoll(id, proceed) =>
      if s.futures[id].reserves then PollReserve(s, id, proceed).0 else PollSend(s, id, proceed).0
    case DoDropFuture(id) => DropFuture(s, id)
    case DoPermitSend(item) => PermitSend(s, item).0
    case DoPermitDrop => PermitDrop(s)
    case DoTrySend(item) => TrySend(s, item).0
    case DoRecv(proceed) => Recv(s, proceed).0
    case DoDropReceiver => DropReceiver(s)
    case DoCloneSender => CloneSender(s)
    case DoDropSender => DropSender(s)
  }

  lemma StepKeeps<T>(s: Chan<T>, op: Op<T>)
    requires Valid(s) && Enabled(s, op)
    ensures Valid(Step(s, op))
  {
    match op {
      case DoSend(id, item) => StartKeeps(s, id, Some(item));
      case DoReserve(id) => StartKeeps(s, id, None);
      case DoPoll(id, proceed) =>
        if s.futures[id].reserves { PollReserveKeeps(s, id, proceed); } else { PollSendKeeps(s, id, proceed); }
      case DoDropFuture(id) => DropFutureKeeps(s, id);
      case DoPermitSend(item) => PermitSendKeeps(s, item);
      case DoPermitDrop => PermitDropKeeps(s);
      case DoTrySend(item) => TrySendKeeps(s, item);
      case DoRecv(proceed) => RecvKeeps(s, proceed);
      case DoDropReceiver => EndsKeep(s);
      case DoCloneSender => EndsKeep(s);
      case DoDropSender => EndsKeep(s);
    }
  }

  ghost predicate Reaches<T>(s: Chan<T>, ops: seq<Op<T>>, t: Chan<T>)
    decreases |ops|
  {
    if ops == [] then s == t
    else Queued(s) && Enabled(s, ops[0]) && Reaches(Step(s, ops[0]), ops[1..], t)
  }

  /** Over every run, with futures, permits and both ends dropped at any point, the channel keeps its
      order, its capacity and its promises. In particular a sender waits only while every free slot is
      promised: with no promise outstanding the channel is full. */
  lemma {:induction false} ChannelIsSound<T>(s: Chan<T>, ops: seq<Op<T>>, t: Chan<T>)
    requires Valid(s) && Reaches(s, ops, t)
    ensures Valid(t)
    ensures t.received <= t.accepted
    ensures t.receiverAlive && t.waiters != [] && GrantedIds(t.futures, false) == {} ==>
              t.capacity == Some(|t.queue| + t.permits + |GrantedIds(t.futures, true)|)
    decreases |ops|
  {
    if ops != [] {
      StepKeeps(s, ops[0]);
      ChannelIsSound(Step(s, ops[0]), ops[1..], t);
    }
  }

  lemma NewIsValid<T>(capacity: Option<nat>)
    ensures Valid<T>(New(capacity))
  {
    var none: map<nat, Fut<T>> := map[];
    assert GrantedIds(none, true) == {} && GrantedIds(none, false) == {};
  }

  // ----- What each end is told -----

  /** Room, in terms of what occupies it: queued items, live permits and unpolled reservations. */
  predicate Fits<T>(s: Chan<T>) {
    s.capacity.Some? ==> |s.queue| + s.permits + |GrantedIds(s.futures, true)| < s.capacity.value
  }

  /** A send succeeds exactly when the receiver lives, a slot is left, and the slot was granted to it or
      nobody waits; then its item, and nothing else, is the newest accepted one. It is rejected, with its
      item, exactly when the receiver is gone. Otherwise it keeps its item, and waits in the list. */
  lemma SendAnswers<T>(s: Chan<T>, id: nat, proceed: bool)
    requires Valid(s) && id in s.futures && !s.futures[id].reserves && s.futures[id].item.Some?
    ensures var f := s.futures[id]; var (t, r) := PollSend(s, id, proceed);
            && (r.Sent? <==> proceed && s.receiverAlive && Fits(s) && (f.granted || (!f.registered && s.waiters == [])))
            && t.accepted == s.accepted + (if r.Sent? then [f.item.value] else [])
            && t.queue == s.queue + (if r.Sent? then [f.item.value] else [])
            && (r.Rejected? <==> proceed && !s.receiverAlive) && (r.Rejected? ==> r.item == f.item.value)
            && (r.Sent? ==> !t.recvWaker) && t.received == s.received && t.permits == s.permits
            && id in t.futures && t.futures[id].item == (if r.SendPending? then f.item else None)
            && (r.SendPending? && proceed ==> id in t.waiters)
  {
    var f := s.futures[id];
    assert s.accepted + [] == s.accepted && s.queue + [] == s.queue;
  }

  /** A reservation succeeds exactly when the receiver lives and it was granted, or a slot is left and
      nobody waits; then there is one more permit. */
  lemma ReserveAnswers<T>(s: Chan<T>, id: nat, proceed: bool)
    requires Valid(s) && id in s.futures && s.futures[id].reserves
    ensures var f := s.futures[id]; var (t, r) := PollReserve(s, id, proceed);
            && (r.Reserved? <==> proceed && s.receiverAlive && (f.granted || (!f.registered && s.waiters == [] && Fits(s))))
            && t.permits == s.permits + (if r.Reserved? then 1 else 0)
            && (r.ReceiverGone? <==> proceed && !s.receiverAlive)
            && t.accepted == s.accepted && t.queue == s.queue && t.received == s.received
            && (r.ReservePending? && proceed ==> id in t.waiters)
  {
  }

  /** A send on a permit succeeds exactly when the receiver lives, and uses the permit up either way. */
  lemma PermitAnswers<T>(s: Chan<T>, x: T)
    requires Valid(s) && s.permits > 0
    ensures var (t, ok) := PermitSend(s, x);
            && (ok <==> s.receiverAlive) && t.permits == s.permits - 1 && (ok ==> !t.recvWaker)
            && t.accepted == s.accepted + (if ok then [x] else []) && t.queue == s.queue + (if ok then [x] else [])
    ensures PermitDrop(s).permits == s.permits - 1
  {
    assert s.accepted + [] == s.accepted && s.queue + [] == s.queue;
  }

  /** A dropped receiver is gone for every sender, and everybody who waited has been popped; the last
      sender dropped wakes the receiver; a receiver told of the end lets go of the channel. */
  lemma EndsAnswer<T>(s: Chan<T>)
    requires Valid(s)
    ensures s.attached ==> var t := DropReceiver(s); !t.receiverAlive && !t.attached && t.waiters == [] && t.futures == s.futures
    ensures CloneSender(s).senders == s.senders + 1
    ensures s.senders > 0 ==> DropSender(s).senders == s.senders - 1
    ensures s.senders == 1 ==> !DropSender(s).recvWaker
    ensures s.senders > 1 ==> DropSender(s).recvWaker == s.recvWaker
    ensures s.attached ==> var (t, r) := Recv(s, true);
      && (t.attached <==> !r.Disconnected?) && (r.RecvPending? ==> t.recvWaker) && t.receiverAlive == s.receiverAlive
  {
  }

  /** The receiver's history grows by receiving alone, the senders' by sends that succeed alone. */
  lemma HistoriesGrow<T>(s: Chan<T>, op: Op<T>)
    requires Valid(s) && Enabled(s, op)
    ensures var t := Step(s, op);
            && t.received == s.received + (if op.DoRecv? && op.proceed && s.queue != [] then [s.queue[0]] else [])
            && (t.accepted != s.accepted ==> op.DoPoll? || op.DoPermitSend? || op.DoTrySend?)
            && (op.DoPoll? && s.futures[op.id].reserves ==> t.accepted == s.accepted)
  {
    assert s.received + [] == s.received;
  }

  /** The receiver gets the accepted items one after the other, waits exactly when it has them all and
      a sender lives, and is told of the end exactly when it has them all and none does. */
  lemma RecvTakesNext<T>(s: Chan<T>)
    requires Valid(s) && s.attached
    ensures var next := |s.received|;
            Recv(s, true).1 ==
            if next < |s.accepted| then Item(s.accepted[next]) else if s.senders > 0 then RecvPending else Disconnected
    ensures Recv(s, true).1.Item? ==> Recv(s, true).0.received == s.accepted[..|s.received| + 1]
  {
    assert s.accepted == s.received + s.queue;
  }

  /** `try_send` takes the item exactly when the receiver lives, nobody waits, and queued items, live
      permits and unpolled reservations leave a slot; and then it is the newest accepted one. */
  lemma TrySendIff<T>(s: Chan<T>, x: T)
    requires Valid(s)
    ensures TrySend(s, x).1 <==>
              && s.receiverAlive && s.waiters == []
              && (s.capacity.Some? ==> |s.queue| + s.permits + |GrantedIds(s.futures, true)| < s.capacity.value)
    ensures TrySend(s, x).0.accepted == if TrySend(s, x).1 then s.accepted + [x] else s.accepted
  {
  }

  // ----- Success and delivery -----

  /** Through a sender, success means that the receiver is there to receive. */
  lemma SendersReachTheReceiver<T>(s: Chan<T>, x: T, id: nat)
    requires Valid(s) && s.senders > 0
    ensures TrySend(s, x).1 ==> s.attached
    ensures id in s.futures && !s.futures[id].reserves && s.futures[id].item.Some? && PollSend(s, id, true).1.Sent? ==> s.attached
  {
  }

  /** Once the receiver is detached nothing more is ever received. */
  lemma {:induction false} DetachedIsFinal<T>(s: Chan<T>, ops: seq<Op<T>>, t: Chan<T>)
    requires !s.attached && Reaches(s, ops, t)
    ensures t.received == s.received && !t.attached
    decreases |ops|
  {
    if ops != [] {
      DetachedStep(s, ops[0]);
      DetachedIsFinal(Step(s, ops[0]), ops[1..], t);
    }
  }

  lemma DetachedStep<T>(s: Chan<T>, op: Op<T>)
    requires !s.attached && Queued(s) && Enabled(s, op)
    ensures Step(s, op).received == s.received && !Step(s, op).attached
  {
  }

  /** An attached receiver can receive everything accepted so far. */
  lemma {:induction false} AttachedCanDrain<T>(s: Chan<T>) returns (ops: seq<Op<T>>, t: Chan<T>)
    requires Valid(s) && s.attached
    ensures Reaches(s, ops, t) && t.received == s.accepted
    decreases |s.queue|
  {
    if s.queue == [] {
      ops, t := [], s;
    } else {
      var u := Step(s, DoRecv(true));
      StepKeeps(s, DoRecv(true));
      var rest, end := AttachedCanDrain(u);
      ops, t := [DoRecv(true)] + rest, end;
      assert ops[1..] == rest;
    }
  }

  ghost predicate Receivable<T(!new)>(s: Chan<T>) {
    exists ops: seq<Op<T>>, t: Chan<T> :: Reaches(s, ops, t) && s.accepted <= t.received
  }

  /** An item sent on a permit and reported as sent can be received exactly when the receiver has not
      yet been told that the channel ended: permits do not count as senders. */
  lemma PermitItemReceivableIff<T(!new)>(s: Chan<T>, x: T)
    requires Valid(s) && s.permits > 0 && PermitSend(s, x).1
    ensures Receivable(PermitSend(s, x).0) <==> s.attached
  {
    var after := PermitSend(s, x).0;
    PermitSendKeeps(s, x);
    if s.attached {
      var ops, t := AttachedCanDrain(after);
      assert Reaches(after, ops, t) && after.accepted <= t.received;
    } else {
      forall ops, t | Reaches(after, ops, t) ensures !(after.accepted <= t.received) {
        DetachedIsFinal(after, ops, t);
        assert |after.accepted| > |after.received|;
      }
    }
  }

  lemma Prepend<T>(s: Chan<T>, op: Op<T>, ops: seq<Op<T>>, t: Chan<T>)
    requires Queued(s) && Enabled(s, op) && Reaches(Step(s, op), ops, t)
    ensures Reaches(s, [op] + ops, t)
  {
    assert ([op] + ops)[1..] == ops;
  }

  /** Reserve, drop the last sender, receive the end, send on the permit: reported as sent, and lost. */
  lemma PermitSendsIntoNowhere<T(!new)>(x: T)
    ensures exists ops: seq<Op<T>>, s: Chan<T> ::
              Reaches(New(Some(1)), ops, s) && s.permits > 0 && PermitSend(s, x).1 && !Receivable(PermitSend(s, x).0)
  {
    var s0: Chan<T> := New(Some(1));
    NewIsValid<T>(Some(1));
    var s1 := Step(s0, DoReserve(0));
    StepKeeps(s0, DoReserve(0));
    var s2 := Step(s1, DoPoll(0, true));
    StepKeeps(s1, DoPoll(0, true));
    var ops, s4 := EndsWithPermit(s2);
    Prepend(s1, DoPoll(0, true), ops, s4);
    Prepend(s0, DoReserve(0), [DoPoll(0, true)] + ops, s4);
    RunKeeps(s2, ops, s4);
    PermitItemReceivableIff(s4, x);
  }

  lemma RunKeeps<T>(s: Chan<T>, ops: seq<Op<T>>, t: Chan<T>)
    requires Valid(s) && Reaches(s, ops, t)
    ensures Valid(t)
  {
    ChannelIsSound(s, ops, t);
  }

  /** With a permit out, the last sender dropped and the queue empty, the receiver sees the end. */
  lemma EndsWithPermit<T>(s: Chan<T>) returns (ops: seq<Op<T>>, t: Chan<T>)
    requires Valid(s) && s.senders == 1 && s.queue == [] && s.attached
    ensures Reaches(s, ops, t) && !t.attached && t.permits == s.permits && t.receiverAlive == s.receiverAlive
  {
    var u := Step(s, DoDropSender);
    StepKeeps(s, DoDropSender);
    t := Step(u, DoRecv(true));
    assert Reaches(t, [], t);
    Prepend(u, DoRecv(true), [], t);
    Prepend(s, DoDropSender, [DoRecv(true)] + [], t);
    ops := [DoDropSender] + ([DoRecv(true)] + []);
  }
}
