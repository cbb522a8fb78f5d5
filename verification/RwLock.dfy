/** The async read-write lock: counts of shared and exclusive holders and one FIFO queue of waiting
    futures. Every operation runs under the state lock, so it is one step. */
module RwLock {
  import opened Waiters

  datatype Kind = Reader | Writer

  /** A `Read` or `Write` future. `registered` stays set while a grant waits to be polled. */
  datatype Fut = Fut(kind: Kind, registered: bool, granted: bool)

  datatype Lock = Lock(
    readers: nat,
    writer: bool,
    waitingWriters: int,
    queue: seq<nat>,
    futures: map<nat, Fut>,
    readGuards: nat,
    writeGuards: nat)

  function New(): Lock { Lock(0, false, 0, [], map[], 0, 0) }

  /** The queue holds each registered, ungranted future exactly once. */
  predicate Queued(s: Lock) {
    && Distinct(s.queue)
    && (forall id :: id in s.queue ==> id in s.futures)
    && (forall id :: id in s.futures ==> (id in s.queue <==> s.futures[id].registered && !s.futures[id].granted))
    && (forall id :: id in s.futures && s.futures[id].granted ==> s.futures[id].registered)
  }

  // ----- Waking -----

  /** Pop the head of the queue and grant it. */
  function GrantHead(s: Lock): Lock
    requires Queued(s) && s.queue != []
  {
    s.(queue := s.queue[1..], futures := s.futures[s.queue[0] := s.futures[s.queue[0]].(granted := true)])
  }

  lemma GrantHeadQueued(s: Lock)
    requires Queued(s) && s.queue != []
    ensures Queued(GrantHead(s)) && s.queue[0] !in s.queue[1..]
  {
    TailDistinct(s.queue);
    assert s.queue == [s.queue[0]] + s.queue[1..];
  }

  function WakeReaders(s: Lock): Lock
    requires Queued(s)
    decreases |s.queue|
  {
    if s.queue == [] || s.futures[s.queue[0]].kind.Writer? then s
    else
      GrantHeadQueued(s);
      WakeReaders(GrantHead(s).(readers := s.readers + 1))
  }

  function WakeNext(s: Lock): Lock
    requires Queued(s)
  {
    if s.writer then s
    else if s.readers != 0 then
      if s.queue != [] && s.futures[s.queue[0]].kind.Writer? then s else WakeReaders(s)
    else if s.queue != [] && s.futures[s.queue[0]].kind.Writer? then
      GrantHead(s).(waitingWriters := s.waitingWriters - 1, writer := true)
    else WakeReaders(s)
  }

  // ----- Operations -----

  function Start(s: Lock, id: nat, kind: Kind): Lock
    requires id !in s.futures
  {
    s.(futures := s.futures[id := Fut(kind, false, false)])
  }

  /** `Read::poll`; true when it returns a guard. `proceed` is the cooperative budget. */
  function PollRead(s: Lock, id: nat, proceed: bool): (Lock, bool)
    requires id in s.futures && s.futures[id].kind.Reader?
  {
    var f := s.futures[id];
    if !proceed then (s, false)
    else if f.granted then
      (s.(futures := s.futures[id := Fut(Reader, false, false)], readGuards := s.readGuards + 1), true)
    else if !f.registered && !s.writer && s.waitingWriters == 0 && s.queue == [] then
      (s.(readers := s.readers + 1, readGuards := s.readGuards + 1), true)
    else if !f.registered then
      (s.(queue := s.queue + [id], futures := s.futures[id := f.(registered := true)]), false)
    else (s, false)
  }

  function PollWrite(s: Lock, id: nat, proceed: bool): (Lock, bool)
    requires id in s.futures && s.futures[id].kind.Writer?
  {
    var f := s.futures[id];
    if !proceed then (s, false)
    else if f.granted then
      (s.(futures := s.futures[id := Fut(Writer, false, false)], writeGuards := s.writeGuards + 1), true)
    else if !f.registered && !s.writer && s.readers == 0 && s.queue == [] then
      (s.(writer := true, writeGuards := s.writeGuards + 1), true)
    else if !f.registered then
      (s.(waitingWriters := s.waitingWriters + 1, queue := s.queue + [id],
          futures := s.futures[id := f.(registered := true)]), false)
    else (s, false)
  }

  /** Dropping a granted future releases its hold; dropping a queued one only leaves the queue. */
  function DropFuture(s: Lock, id: nat): Lock
    requires Queued(s) && id in s.futures && (s.futures[id].granted && s.futures[id].kind.Reader? ==> s.readers > 0)
  {
    var f := s.futures[id];
    var left := s.(queue := Without(s.queue, id), futures := s.futures - {id});
    DropQueued(s, id);
    if f.granted then
      WakeNext(if f.kind.Reader? then left.(readers := s.readers - 1) else left.(writer := false))
    else if f.registered && f.kind.Writer? then left.(waitingWriters := s.waitingWriters - 1)
    else left
  }

  lemma DropQueued(s: Lock, id: nat)
    requires Queued(s) && id in s.futures
    ensures Queued(s.(queue := Without(s.queue, id), futures := s.futures - {id}))
    ensures id !in s.queue ==> Without(s.queue, id) == s.queue
  {
    WithoutKeeps(s.queue, id);
  }

  function TryRead(s: Lock): (Lock, bool) {
    if s.writer || s.waitingWriters != 0 || s.queue != [] then (s, false)
    else (s.(readers := s.readers + 1, readGuards := s.readGuards + 1), true)
  }

  function TryWrite(s: Lock): (Lock, bool) {
    if s.writer || s.readers != 0 || s.queue != [] then (s, false)
    else (s.(writer := true, writeGuards := s.writeGuards + 1), true)
  }

  function DropReadGuard(s: Lock): Lock
    requires Queued(s) && s.readGuards > 0 && s.readers > 0
  {
    WakeNext(s.(readers := s.readers - 1, readGuards := s.readGuards - 1))
  }

  function DropWriteGuard(s: Lock): Lock
    requires Queued(s) && s.writeGuards > 0
  {
    WakeNext(s.(writer := false, writeGuards := s.writeGuards - 1))
  }

  function Downgrade(s: Lock): Lock
    requires Queued(s) && s.writeGuards > 0
  {
    WakeNext(s.(writer := false, readers := 1, writeGuards := s.writeGuards - 1, readGuards := s.readGuards + 1))
  }

  // ----- The invariant -----

  /** Granted futures of a kind that have not been polled yet. */
  function GrantedIds(futures: map<nat, Fut>, kind: Kind): set<nat> {
    set id | id in futures && futures[id].granted && futures[id].kind == kind
  }

  function WritersIn(queue: seq<nat>, futures: map<nat, Fut>): nat
    requires forall id :: id in queue ==> id in futures
  {
    if queue == [] then 0
    else (if futures[queue[0]].kind.Writer? then 1 else 0) + WritersIn(queue[1..], futures)
  }

  /** The counters are exact and a writer excludes everybody else. */
  predicate Counted(s: Lock)
    requires Queued(s)
  {
    && s.readers == s.readGuards + |GrantedIds(s.futures, Reader)|
    && s.writeGuards + |GrantedIds(s.futures, Writer)| == (if s.writer then 1 else 0)
    && s.waitingWriters == WritersIn(s.queue, s.futures)
    && (s.writer ==> s.readers == 0)
  }

  predicate Held(s: Lock) { s.writer || s.readers > 0 }

  predicate Valid(s: Lock) { Queued(s) && Counted(s) && (s.queue != [] ==> Held(s)) }

  /** A reader at the front although the lock is only shared. */
  predicate ReaderParked(s: Lock)
    requires Queued(s)
  {
    s.queue != [] && s.futures[s.queue[0]].kind.Reader? && !s.writer
  }

  lemma {:induction false} WritersInFrame(queue: seq<nat>, f: map<nat, Fut>, g: map<nat, Fut>)
    requires forall id :: id in queue ==> id in f && id in g && f[id].kind == g[id].kind
    ensures WritersIn(queue, f) == WritersIn(queue, g)
  {
    if queue != [] { WritersInFrame(queue[1..], f, g); }
  }

  lemma {:induction false} WritersInAppend(queue: seq<nat>, id: nat, f: map<nat, Fut>)
    requires id in f && forall x :: x in queue ==> x in f
    ensures WritersIn(queue + [id], f) == WritersIn(queue, f) + (if f[id].kind.Writer? then 1 else 0)
  {
    if queue == [] {
      assert queue + [id] == [id];
    } else {
      assert (queue + [id])[1..] == queue[1..] + [id];
      WritersInAppend(queue[1..], id, f);
    }
  }

  lemma {:induction false} WritersInWithout(queue: seq<nat>, id: nat, f: map<nat, Fut>)
    requires Distinct(queue) && id in queue && forall x :: x in queue ==> x in f
    ensures WritersIn(Without(queue, id), f) == WritersIn(queue, f) - (if f[id].kind.Writer? then 1 else 0)
  {
    TailDistinct(queue);
    if queue[0] == id {
      WithoutKeeps(queue[1..], id);
    } else {
      WritersInWithout(queue[1..], id, f);
      assert (([queue[0]] + Without(queue[1..], id)))[1..] == Without(queue[1..], id);
    }
  }

  /** Granting the head adds it to the granted futures of its kind and takes it off the queue. */
  lemma GrantHeadCounts(s: Lock)
    requires Queued(s) && s.queue != []
    ensures var t := GrantHead(s); var kind := s.futures[s.queue[0]].kind;
            && Queued(t)
            && |GrantedIds(t.futures, kind)| == |GrantedIds(s.futures, kind)| + 1
            && (forall k :: k != kind ==> GrantedIds(t.futures, k) == GrantedIds(s.futures, k))
            && WritersIn(t.queue, t.futures) == WritersIn(s.queue, s.futures) - (if kind.Writer? then 1 else 0)
  {
    GrantHeadQueued(s);
    var t := GrantHead(s);
    var w := s.queue[0];
    var kind := s.futures[w].kind;
    assert GrantedIds(t.futures, kind) == GrantedIds(s.futures, kind) + {w};
    WritersInFrame(t.queue, s.futures, t.futures);
  }

  predicate SameKinds(s: Lock, t: Lock) {
    t.futures.Keys == s.futures.Keys && forall id :: id in s.futures ==> t.futures[id].kind == s.futures[id].kind
  }

  /** `wake_readers_locked` serves a prefix of the queue and stops at a writer. */
  lemma {:induction false} WakeReadersServes(s: Lock)
    requires Queued(s)
    ensures var t := WakeReaders(s); var k := |s.queue| - |t.queue|;
            && Queued(t) && 0 <= k && t.queue == s.queue[k..]
            && (t.queue != [] ==> t.futures[t.queue[0]].kind.Writer?)
            && t == s.(readers := s.readers + k, queue := t.queue, futures := t.futures)
    decreases |s.queue|
  {
    if s.queue != [] && s.futures[s.queue[0]].kind.Reader? {
      GrantHeadQueued(s);
      WakeReadersServes(GrantHead(s).(readers := s.readers + 1));
    }
  }

  lemma {:induction false} WakeReadersKinds(s: Lock)
    requires Queued(s)
    ensures SameKinds(s, WakeReaders(s))
    decreases |s.queue|
  {
    if s.queue != [] && s.futures[s.queue[0]].kind.Reader? {
      GrantHeadQueued(s);
      WakeReadersKinds(GrantHead(s).(readers := s.readers + 1));
    }
  }

  /** Everybody it serves is a reader. */
  lemma {:induction false} WakeReadersServesReaders(s: Lock, i: nat)
    requires Queued(s) && i < |s.queue| - |WakeReaders(s).queue|
    ensures s.futures[s.queue[i]].kind.Reader?
    decreases |s.queue|
  {
    if s.queue != [] && s.futures[s.queue[0]].kind.Reader? && i > 0 {
      GrantHeadQueued(s);
      WakeReadersServesReaders(GrantHead(s).(readers := s.readers + 1), i - 1);
    }
  }

  lemma {:induction false} WakeReadersCounts(s: Lock)
    requires Queued(s)
    ensures var t := WakeReaders(s);
            && Queued(t)
            && t.readers - |GrantedIds(t.futures, Reader)| == s.readers - |GrantedIds(s.futures, Reader)|
            && GrantedIds(t.futures, Writer) == GrantedIds(s.futures, Writer)
            && WritersIn(t.queue, t.futures) == WritersIn(s.queue, s.futures)
    decreases |s.queue|
  {
    if s.queue != [] && s.futures[s.queue[0]].kind.Reader? {
      GrantHeadCounts(s);
      WakeReadersCounts(GrantHead(s).(readers := s.readers + 1));
    }
  }

  /** After waking, the counters are exact again, the lock is held if anybody still waits, and no
      reader is parked behind a shared lock. */
  lemma WakeNextKeeps(s: Lock)
    requires Queued(s) && Counted(s)
    ensures Valid(WakeNext(s)) && !ReaderParked(WakeNext(s))
    ensures WakeNext(s).readGuards == s.readGuards && WakeNext(s).writeGuards == s.writeGuards
  {
    WakeReadersServes(s);
    WakeReadersKinds(s);
    WakeReadersCounts(s);
    if s.queue != [] { GrantHeadCounts(s); }
  }

  /** The writer at the front, when the lock is free; else readers from the front, or nobody. */
  lemma WakeNextCases(s: Lock)
    requires Queued(s)
    ensures var t := WakeNext(s);
            || t == s
            || t == WakeReaders(s)
            || (s.queue != [] && s.futures[s.queue[0]].kind.Writer? && t.queue == s.queue[1..] && t.writer && !s.writer && s.readers == 0)
  {
  }

  /** Grants follow the queue: what leaves it is a prefix, either readers only or one writer. */
  lemma GrantsFollowQueue(s: Lock)
    requires Queued(s)
    ensures var t := WakeNext(s); var k := |s.queue| - |t.queue|;
            && 0 <= k && t.queue == s.queue[k..]
            && ((forall i :: 0 <= i < k ==> s.futures[s.queue[i]].kind.Reader?)
                || (k == 1 && s.futures[s.queue[0]].kind.Writer? && t.writer))
  {
    WakeNextCases(s);
    if WakeNext(s) == WakeReaders(s) {
      WakeReadersServes(s);
      forall i | 0 <= i < |s.queue| - |WakeReaders(s).queue| ensures s.futures[s.queue[i]].kind.Reader? {
        WakeReadersServesReaders(s, i);
      }
    }
  }

  // ----- Every operation keeps it -----

  lemma StartKeeps(s: Lock, id: nat, kind: Kind)
    requires Valid(s) && id !in s.futures
    ensures Valid(Start(s, id, kind))
  {
    var t := Start(s, id, kind);
    forall k ensures GrantedIds(t.futures, k) == GrantedIds(s.futures, k) {}
    WritersInFrame(s.queue, s.futures, t.futures);
  }

  /** Joining the queue. */
  lemma RegisterKeeps(s: Lock, id: nat, t: Lock)
    requires Valid(s) && id in s.futures && !s.futures[id].registered && !s.futures[id].granted
    requires Held(s) || s.queue != []
    requires t == s.(queue := s.queue + [id], futures := s.futures[id := s.futures[id].(registered := true)],
                     waitingWriters := s.waitingWriters + (if s.futures[id].kind.Writer? then 1 else 0))
    ensures Valid(t)
  {
    assert GrantedIds(t.futures, Reader) == GrantedIds(s.futures, Reader);
    assert GrantedIds(t.futures, Writer) == GrantedIds(s.futures, Writer);
    AppendDistinct(s.queue, id);
    WritersInFrame(s.queue, s.futures, t.futures);
    WritersInAppend(s.queue, id, t.futures);
  }

  lemma GrantTaken(f: map<nat, Fut>, id: nat)
    requires id in f && f[id].granted
    ensures var g := f[id := Fut(f[id].kind, false, false)];
            && |GrantedIds(g, f[id].kind)| == |GrantedIds(f, f[id].kind)| - 1
            && (forall k :: k != f[id].kind ==> GrantedIds(g, k) == GrantedIds(f, k))
  {
    var g := f[id := Fut(f[id].kind, false, false)];
    assert GrantedIds(f, f[id].kind) == GrantedIds(g, f[id].kind) + {id};
  }

  /** Turning a grant into a guard. */
  lemma CollectKeeps(s: Lock, id: nat, t: Lock)
    requires Valid(s) && id in s.futures && s.futures[id].granted
    requires t.futures == s.futures[id := Fut(s.futures[id].kind, false, false)]
    requires s.futures[id].kind.Reader? ==> t == s.(futures := t.futures, readGuards := s.readGuards + 1)
    requires s.futures[id].kind.Writer? ==> t == s.(futures := t.futures, writeGuards := s.writeGuards + 1)
    ensures Valid(t)
  {
    GrantTaken(s.futures, id);
    WritersInFrame(s.queue, s.futures, t.futures);
  }

  lemma PollReadKeeps(s: Lock, id: nat, proceed: bool)
    requires Valid(s) && id in s.futures && s.futures[id].kind.Reader?
    ensures Valid(PollRead(s, id, proceed).0)
  {
    var f := s.futures[id];
    var t := PollRead(s, id, proceed).0;
    if proceed && f.granted {
      CollectKeeps(s, id, t);
    } else if proceed && !f.registered && !(!s.writer && s.waitingWriters == 0 && s.queue == []) {
      RegisterKeeps(s, id, t);
    }
  }

  lemma PollWriteKeeps(s: Lock, id: nat, proceed: bool)
    requires Valid(s) && id in s.futures && s.futures[id].kind.Writer?
    ensures Valid(PollWrite(s, id, proceed).0)
  {
    var f := s.futures[id];
    var t := PollWrite(s, id, proceed).0;
    if proceed && f.granted {
      CollectKeeps(s, id, t);
    } else if proceed && !f.registered && !(!s.writer && s.readers == 0 && s.queue == []) {
      RegisterKeeps(s, id, t);
    }
  }

  /** A poll parks no reader behind a shared lock. */
  lemma PollParksNoReader(s: Lock, id: nat, proceed: bool)
    requires Valid(s) && id in s.futures && !ReaderParked(s)
    ensures s.futures[id].kind.Reader? ==> Valid(PollRead(s, id, proceed).0) && !ReaderParked(PollRead(s, id, proceed).0)
    ensures s.futures[id].kind.Writer? ==> Valid(PollWrite(s, id, proceed).0) && !ReaderParked(PollWrite(s, id, proceed).0)
  {
    if s.futures[id].kind.Reader? { PollReadKeeps(s, id, proceed); } else { PollWriteKeeps(s, id, proceed); }
  }

  /** Leaving without a grant. */
  lemma LeaveKeeps(s: Lock, id: nat, t: Lock)
    requires Valid(s) && id in s.futures && !s.futures[id].granted
    requires t == s.(queue := Without(s.queue, id), futures := s.futures - {id},
                     waitingWriters := s.waitingWriters - (if id in s.queue && s.futures[id].kind.Writer? then 1 else 0))
    ensures Valid(t)
  {
    DropQueued(s, id);
    WithoutKeeps(s.queue, id);
    assert GrantedIds(t.futures, Reader) == GrantedIds(s.futures, Reader);
    assert GrantedIds(t.futures, Writer) == GrantedIds(s.futures, Writer);
    WritersInFrame(t.queue, s.futures, t.futures);
    if id in s.queue { WritersInWithout(s.queue, id, s.futures); }
  }

  lemma GrantDropped(f: map<nat, Fut>, id: nat)
    requires id in f && f[id].granted
    ensures |GrantedIds(f - {id}, f[id].kind)| == |GrantedIds(f, f[id].kind)| - 1
    ensures forall k :: k != f[id].kind ==> GrantedIds(f - {id}, k) == GrantedIds(f, k)
  {
    assert GrantedIds(f, f[id].kind) == GrantedIds(f - {id}, f[id].kind) + {id};
  }

  /** An unpolled grant is counted. */
  lemma GrantIsHeld(s: Lock, id: nat)
    requires Queued(s) && Counted(s) && id in s.futures && s.futures[id].granted
    ensures s.futures[id].kind.Reader? ==> s.readers > 0
    ensures s.futures[id].kind.Writer? ==> s.writer && s.writeGuards == 0
  {
    GrantDropped(s.futures, id);
  }

  /** Giving a grant back. */
  lemma ReturnKeeps(s: Lock, id: nat)
    requires Valid(s) && id in s.futures && s.futures[id].granted
    ensures s.futures[id].kind.Reader? ==> s.readers > 0
    ensures Valid(DropFuture(s, id)) && !ReaderParked(DropFuture(s, id))
  {
    var f := s.futures[id];
    var t := s.(queue := Without(s.queue, id), futures := s.futures - {id});
    DropQueued(s, id);
    GrantIsHeld(s, id);
    GrantDropped(s.futures, id);
    WritersInFrame(s.queue, s.futures, t.futures);
    WakeNextKeeps(if f.kind.Reader? then t.(readers := s.readers - 1) else t.(writer := false));
  }

  lemma DropFutureKeeps(s: Lock, id: nat)
    requires Valid(s) && id in s.futures
    ensures s.futures[id].granted && s.futures[id].kind.Reader? ==> s.readers > 0
    ensures Valid(DropFuture(s, id))
  {
    if s.futures[id].granted {
      ReturnKeeps(s, id);
    } else {
      DropQueued(s, id);
      LeaveKeeps(s, id, DropFuture(s, id));
    }
  }

  lemma GuardsKeep(s: Lock)
    requires Valid(s)
    ensures Valid(TryRead(s).0) && Valid(TryWrite(s).0)
    ensures s.readGuards > 0 ==> s.readers > 0 && Valid(DropReadGuard(s)) && !ReaderParked(DropReadGuard(s))
    ensures s.writeGuards > 0 ==> Valid(DropWriteGuard(s)) && !ReaderParked(DropWriteGuard(s))
    ensures s.writeGuards > 0 ==> Valid(Downgrade(s)) && !ReaderParked(Downgrade(s)) && Downgrade(s).readGuards == 1
  {
    if s.readGuards > 0 { WakeNextKeeps(s.(readers := s.readers - 1, readGuards := s.readGuards - 1)); }
    if s.writeGuards > 0 {
      WakeNextKeeps(s.(writer := false, writeGuards := s.writeGuards - 1));
      WakeNextKeeps(s.(writer := false, readers := 1, writeGuards := s.writeGuards - 1, readGuards := s.readGuards + 1));
    }
  }

  /** A read poll answers with a guard exactly when the read was granted, or it is new and no writer
      holds or waits and nobody is queued; then there is one more guard, and no writer beside it. A poll
      that goes on without one waits in the queue. */
  lemma ReadAnswers(s: Lock, id: nat, proceed: bool)
    requires Valid(s) && id in s.futures && s.futures[id].kind.Reader?
    ensures var f := s.futures[id]; var (t, r) := PollRead(s, id, proceed);
            && (r <==> proceed && (f.granted || (!f.registered && !s.writer && s.waitingWriters == 0 && s.queue == [])))
            && t.readGuards == s.readGuards + (if r then 1 else 0) && t.writeGuards == s.writeGuards
            && (r ==> t.writeGuards == 0 && GrantedIds(t.futures, Writer) == {})
            && (!r && proceed ==> id in t.queue)
            && (!r ==> GrantedIds(t.futures, Reader) == GrantedIds(s.futures, Reader))
  {
    PollReadKeeps(s, id, proceed);
    if s.futures[id].granted { GrantIsHeld(s, id); }
  }

  /** A write poll answers with a guard exactly when the write was granted, or it is new, nobody holds
      the lock and nobody is queued; then that is the only guard. */
  lemma WriteAnswers(s: Lock, id: nat, proceed: bool)
    requires Valid(s) && id in s.futures && s.futures[id].kind.Writer?
    ensures var f := s.futures[id]; var (t, r) := PollWrite(s, id, proceed);
            && (r <==> proceed && (f.granted || (!f.registered && !s.writer && s.readers == 0 && s.queue == [])))
            && t.writeGuards == s.writeGuards + (if r then 1 else 0) && t.readGuards == s.readGuards
            && (r ==> t.writeGuards == 1 && t.readGuards == 0 && GrantedIds(t.futures, Reader) == {})
            && (!r && proceed ==> id in t.queue)
            && (!r ==> GrantedIds(t.futures, Writer) == GrantedIds(s.futures, Writer))
  {
    PollWriteKeeps(s, id, proceed);
    if s.futures[id].granted { GrantIsHeld(s, id); }
  }

  /** The try operations answer true exactly when they take a guard. */
  lemma TryAnswers(s: Lock)
    requires Valid(s)
    ensures TryRead(s).0.readGuards == s.readGuards + (if TryRead(s).1 then 1 else 0)
    ensures TryRead(s).0.writeGuards == s.writeGuards && (TryRead(s).1 ==> s.writeGuards == 0)
    ensures TryWrite(s).0.writeGuards == s.writeGuards + (if TryWrite(s).1 then 1 else 0)
    ensures TryWrite(s).0.readGuards == s.readGuards && (TryWrite(s).1 ==> TryWrite(s).0.writeGuards == 1 && s.readGuards == 0)
    ensures !TryRead(s).1 ==> TryRead(s).0 == s
    ensures !TryWrite(s).1 ==> TryWrite(s).0 == s
  {
  }

  /** A guard dropped is gone, a downgraded one is a read guard instead, and no other guard changes. */
  lemma GuardsCounted(s: Lock)
    requires Valid(s)
    ensures s.readGuards > 0 ==>
      && s.readers > 0
      && DropReadGuard(s).readGuards == s.readGuards - 1 && DropReadGuard(s).writeGuards == s.writeGuards
    ensures s.writeGuards > 0 ==>
      && DropWriteGuard(s).writeGuards == s.writeGuards - 1 && DropWriteGuard(s).readGuards == s.readGuards
      && Downgrade(s).writeGuards == s.writeGuards - 1 && Downgrade(s).readGuards == s.readGuards + 1
  {
    GuardsKeep(s);
    if s.readGuards > 0 { WakeNextKeeps(s.(readers := s.readers - 1, readGuards := s.readGuards - 1)); }
    if s.writeGuards > 0 {
      WakeNextKeeps(s.(writer := false, writeGuards := s.writeGuards - 1));
      WakeNextKeeps(s.(writer := false, readers := 1, writeGuards := s.writeGuards - 1, readGuards := s.readGuards + 1));
    }
  }

  /** In terms of who holds the lock: a write succeeds at once exactly when nobody holds it or has been
      granted it, a read exactly when no writer does and nobody waits. */
  lemma TryLocksIff(s: Lock)
    requires Valid(s)
    ensures TryWrite(s).1 <==>
              && s.readGuards == 0 && s.writeGuards == 0
              && GrantedIds(s.futures, Reader) == {} && GrantedIds(s.futures, Writer) == {}
    ensures TryRead(s).1 <==> s.writeGuards == 0 && GrantedIds(s.futures, Writer) == {} && s.queue == []
  {
    if s.queue == [] { assert WritersIn(s.queue, s.futures) == 0; }
  }

  // ----- Runs -----

  datatype Op =
    | DoStart(id: nat, kind: Kind)
    | DoPoll(id: nat, proceed: bool)
    | DoDropFuture(id: nat)
    | DoTryRead | DoTryWrite | DoDropReadGuard | DoDropWriteGuard | DoDowngrade

  predicate Enabled(s: Lock, op: Op) {
    match op
    case DoStart(id, _) => id !in s.futures
    case DoPoll(id, _) => id in s.futures
    case DoDropFuture(id) => id in s.futures
    case DoDropReadGuard => s.readGuards > 0
    case DoDropWriteGuard => s.writeGuards > 0
    case DoDowngrade => s.writeGuards > 0
    case _ => true
  }

  function Step(s: Lock, op: Op): Lock
    requires Valid(s) && Enabled(s, op)
  {
    match op
    case DoStart(id, kind) => Start(s, id, kind)
    case DoPoll(id, proceed) =>
      if s.futures[id].kind.Reader? then PollRead(s, id, proceed).0 else PollWrite(s, id, proceed).0
    case DoDropFuture(id) => DropFutureKeeps(s, id); DropFuture(s, id)
    case DoTryRead => TryRead(s).0
    case DoTryWrite => TryWrite(s).0
    case DoDropReadGuard => GuardsKeep(s); DropReadGuard(s)
    case DoDropWriteGuard => DropWriteGuard(s)
    case DoDowngrade => Downgrade(s)
  }

  lemma StepKeeps(s: Lock, op: Op)
    requires Valid(s) && Enabled(s, op)
    ensures Valid(Step(s, op))
  {
    match op {
      case DoStart(id, kind) => StartKeeps(s, id, kind);
      case DoPoll(id, proceed) =>
        if s.futures[id].kind.Reader? { PollReadKeeps(s, id, proceed); } else { PollWriteKeeps(s, id, proceed); }
      case DoDropFuture(id) => DropFutureKeeps(s, id);
      case _ => GuardsKeep(s);
    }
  }

  predicate Reaches(s: Lock, ops: seq<Op>, t: Lock)
    decreases |ops|
  {
    if ops == [] then s == t
    else Valid(s) && Enabled(s, ops[0]) && Reaches(Step(s, ops[0]), ops[1..], t)
  }

  /** Over every run, with futures dropped at any point: a writer excludes readers and other writers,
      the counters equal guards plus unpolled grants, and whoever waits waits for a holder. */
  lemma {:induction false} LockIsSafe(s: Lock, ops: seq<Op>, t: Lock)
    requires Valid(s) && Reaches(s, ops, t)
    ensures Valid(t)
    ensures t.writeGuards <= 1 && (t.writeGuards == 1 ==> t.readGuards == 0)
    ensures t.queue != [] ==>
              t.readGuards + t.writeGuards + |GrantedIds(t.futures, Reader)| + |GrantedIds(t.futures, Writer)| > 0
    decreases |ops|
  {
    if ops != [] {
      StepKeeps(s, ops[0]);
      LockIsSafe(Step(s, ops[0]), ops[1..], t);
    }
  }

  lemma NewIsValid()
    ensures Valid(New())
  {
    assert GrantedIds(map[], Reader) == {} && GrantedIds(map[], Writer) == {};
  }

  // ----- Where a waiter is passed over -----

  /** Dropping a queued future leaves a reader parked behind a shared lock exactly when the dropped one
      was a writer at the front and a reader comes next. */
  lemma DropLeavesReaderParkedIff(s: Lock, id: nat)
    requires Valid(s) && !ReaderParked(s) && id in s.queue
    ensures Valid(DropFuture(s, id))
    ensures ReaderParked(DropFuture(s, id)) <==> Strands(s, DoDropFuture(id))
  {
    DropFutureKeeps(s, id);
    WithoutKeeps(s.queue, id);
    if s.queue[0] == id {
      TailDistinct(s.queue);
      WithoutKeeps(s.queue[1..], id);
    }
  }

  /** The drop of a writer that waits at the front of a lock only shared, with a reader next. */
  predicate Strands(s: Lock, op: Op)
    requires Queued(s)
  {
    && op.DoDropFuture? && |s.queue| > 1 && s.queue[0] == op.id && !s.writer
    && s.futures[op.id].kind.Writer? && s.futures[s.queue[1]].kind.Reader?
  }

  /** No other operation leaves a reader parked behind a shared lock. */
  lemma StepStrandsIff(s: Lock, op: Op)
    requires Valid(s) && Enabled(s, op) && !ReaderParked(s)
    ensures Valid(Step(s, op)) && (ReaderParked(Step(s, op)) <==> Strands(s, op))
  {
    match op {
      case DoStart(id, kind) => StartKeeps(s, id, kind);
      case DoPoll(id, proceed) => PollParksNoReader(s, id, proceed);
      case DoDropFuture(id) =>
        if id in s.queue {
          DropLeavesReaderParkedIff(s, id);
        } else if s.futures[id].granted {
          ReturnKeeps(s, id);
        } else {
          DropFutureKeeps(s, id);
          DropQueued(s, id);
        }
      case _ => GuardsKeep(s);
    }
  }

  ghost predicate NeverParksReader(s: Lock, ops: seq<Op>, t: Lock)
    requires Reaches(s, ops, t)
    decreases |ops|
  {
    Queued(s) && !ReaderParked(s) && (ops != [] ==> NeverParksReader(Step(s, ops[0]), ops[1..], t))
  }

  predicate NeverStrands(s: Lock, ops: seq<Op>, t: Lock)
    requires Reaches(s, ops, t)
    decreases |ops|
  {
    ops != [] ==> !Strands(s, ops[0]) && NeverStrands(Step(s, ops[0]), ops[1..], t)
  }

  /** Over whole runs: no reader is ever parked behind a lock that is only shared, exactly when no
      step is such a drop. */
  lemma {:induction false} ParksNoReaderIff(s: Lock, ops: seq<Op>, t: Lock)
    requires Valid(s) && !ReaderParked(s) && Reaches(s, ops, t)
    ensures NeverParksReader(s, ops, t) <==> NeverStrands(s, ops, t)
    decreases |ops|
  {
    if ops != [] {
      StepStrandsIff(s, ops[0]);
      if !Strands(s, ops[0]) { ParksNoReaderIff(Step(s, ops[0]), ops[1..], t); }
    }
  }
}
