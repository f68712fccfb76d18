/** The worker threads of CCommonServer, as interleaved atomic steps: a locked region is one step, and waiting on
    the condition variable releases the lock. */
module WorkerPool {
  import opened Wire
  import opened RoundRobin

  /** Where a consumer is in CPktHandleThread::HandlePkt. */
  datatype Pc =
    | Top       // about to test m_bThreadRun and take the size
    | Counted   // about to test (nSize == 0) && m_bThreadRun
    | Asleep    // inside pthread_cond_timedwait, lock released
    | Popping   // about to test nSize-- > 0
    | Handling  // lock released, one packet in hand
    | Exited

  /** `given`, `hand` and `handled` record what was queued, is being handled and has been handled; `broken`
      records a front() or pop() on an empty queue. */
  datatype Thread<P> = Thread(
    queue: seq<P>, running: bool, pc: Pc, size: int,
    hand: seq<P>, handled: seq<P>, given: seq<P>, broken: bool)

  function NewThread<P>(): Thread<P> {
    Thread([], true, Top, 0, [], [], [], false)
  }

  function AddPkt<P>(t: Thread<P>, p: P): Thread<P> {
    t.(queue := t.queue + [p], given := t.given + [p])
  }

  /** One step of the consumer. Waking covers a signal, the one-second timeout and a spurious wake-up alike. */
  function Step<P>(t: Thread<P>): Thread<P> {
    match t.pc
    case Top => if t.running then t.(pc := Counted, size := ToInt32(|t.queue|)) else t.(pc := Exited)
    case Counted => t.(pc := if t.size == 0 && t.running then Asleep else Popping)
    case Asleep => t.(pc := Counted, size := ToInt32(|t.queue|))
    case Popping =>
      if t.size <= 0 then t.(pc := Top, size := t.size - 1)
      else if t.queue == [] then t.(broken := true)
      else t.(pc := Handling, size := t.size - 1, hand := [t.queue[0]], queue := t.queue[1..])
    case Handling => t.(pc := Popping, hand := [], handled := t.handled + t.hand)
    case Exited => t
  }

  ghost predicate ThreadInv<P>(t: Thread<P>) {
    && !t.broken
    && t.handled + t.hand + t.queue == t.given
    && |t.hand| == (if t.pc == Handling then 1 else 0)
    && (t.pc.Counted? || t.pc.Popping? || t.pc.Handling? ==> t.size <= |t.queue|)
  }

  lemma ToInt32AtMost(x: nat)
    ensures ToInt32(x) <= x
  {
  }

  /** The only consumer never pops more than its snapshot, and producers only lengthen the queue. */
  lemma StepKeepsInv<P>(t: Thread<P>)
    requires ThreadInv(t)
    ensures ThreadInv(Step(t))
  {
    ToInt32AtMost(|t.queue|);
    if t.pc == Popping && t.size > 0 {
      assert t.queue == [t.queue[0]] + t.queue[1..];
      assert t.handled + [] + t.queue == t.handled + [t.queue[0]] + t.queue[1..];
    } else if t.pc == Handling {
      assert t.handled + t.hand + t.queue == t.handled + t.hand + [] + t.queue;
    }
  }

  lemma AddPktKeepsInv<P>(t: Thread<P>, p: P)
    requires ThreadInv(t)
    ensures ThreadInv(AddPkt(t, p))
  {
    assert t.handled + t.hand + (t.queue + [p]) == t.handled + t.hand + t.queue + [p];
  }

  /** The size a consumer takes, before or after waiting, is that of its queue as a 32-bit int, which can wrap. */
  lemma SnapshotIsInt<P>(t: Thread<P>)
    requires (t.pc == Top && t.running) || t.pc == Asleep
    ensures var u := Step(t);
      && u.pc == Counted && u.queue == t.queue
      && -0x8000_0000 <= u.size < 0x8000_0000 && (|t.queue| - u.size) % 0x1_0000_0000 == 0
  {
    ToInt32Wraps(|t.queue|);
    hide ToInt32;
  }

  lemma StopKeepsInv<P>(t: Thread<P>)
    requires ThreadInv(t)
    ensures ThreadInv(t.(running := false))
  {
  }

  /** What happens to a worker: a step of its own, a packet queued for it, or a call of Stop. */
  datatype Event<P> = Own | Queued(p: P) | Stopped

  function Happen<P>(t: Thread<P>, e: Event<P>): Thread<P> {
    match e
    case Own => Step(t)
    case Queued(p) => AddPkt(t, p)
    case Stopped => t.(running := false)
  }

  function Play<P>(t: Thread<P>, events: seq<Event<P>>): Thread<P> {
    if events == [] then t else Happen(Play(t, events[..|events| - 1]), events[|events| - 1])
  }

  /** The packets queued by the events. */
  function Arrived<P>(events: seq<Event<P>>): seq<P> {
    if events == [] then []
    else
      var e := events[|events| - 1];
      Arrived(events[..|events| - 1]) + if e.Queued? then [e.p] else []
  }

  lemma NothingYet<P>(t: Thread<P>)
    ensures Play(t, []) == t && Arrived<P>([]) == []
  {
  }

  lemma PlayMore<P>(t: Thread<P>, events: seq<Event<P>>, e: Event<P>)
    ensures Play(t, events + [e]) == Happen(Play(t, events), e)
    ensures Arrived(events + [e]) == Arrived(events) + if e.Queued? then [e.p] else []
  {
    assert (events + [e])[..|events|] == events;
  }

  /** How many more steps of its own a stopped consumer takes at most. */
  function StepsToExit<P>(t: Thread<P>): nat {
    var left := if t.size > 0 then 2 * t.size else 0;
    match t.pc
    case Exited => 0
    case Top => 1
    case Popping => left + 2
    case Handling => left + 3
    case Counted => left + 3
    case Asleep => 2 * |t.queue| + 4
  }

  function OwnSteps<P>(n: nat): seq<Event<P>> {
    seq(n, _ => Own)
  }

  lemma PlayOwn<P>(t: Thread<P>, n: nat)
    requires n > 0
    ensures Play(t, OwnSteps(n)) == Step(Play(t, OwnSteps(n - 1)))
  {
    assert OwnSteps<P>(n)[..n - 1] == OwnSteps<P>(n - 1);
  }

  lemma {:induction false} PlayFirst<P>(t: Thread<P>, n: nat)
    requires n > 0
    ensures Play(t, OwnSteps(n)) == Play(Step(t), OwnSteps(n - 1))
  {
    PlayOwn(t, n);
    if n > 1 {
      PlayFirst(t, n - 1);
      PlayOwn(Step(t), n - 1);
    }
  }

  /** A stopped consumer exits after finitely many steps of its own, from wherever it is, having handled what it had in
      hand and what its snapshot promised. */
  lemma {:induction false} StopEnds<P>(t: Thread<P>) returns (n: nat)
    requires ThreadInv(t) && !t.running
    ensures n <= StepsToExit(t)
    ensures var u := Play(t, OwnSteps(n));
      && u.pc == Exited && u.hand == [] && !u.broken
      && t.handled + t.hand <= u.handled
      && (t.pc.Popping? || t.pc.Handling? || t.pc.Counted? ==> |u.handled| >= |t.handled| + |t.hand| + t.size)
    decreases StepsToExit(t)
  {
    n := 0;
    if t.pc != Exited {
      StepKeepsInv(t);
      StepNearsExit(t);
      hide ThreadInv, StepsToExit;
      var m := StopEnds(Step(t));
      n := m + 1;
      PlayFirst(t, n);
    } else {
      assert t.handled + t.hand == t.handled;
    }
  }

  lemma StepNearsExit<P>(t: Thread<P>)
    requires ThreadInv(t) && !t.running && t.pc != Exited
    ensures var u := Step(t);
      && !u.running && StepsToExit(u) < StepsToExit(t) && t.handled + t.hand <= u.handled + u.hand
      && |u.handled| + |u.hand| >= |t.handled| + |t.hand|
      && (t.pc.Popping? || t.pc.Handling? || t.pc.Counted? ==>
            if u.pc.Popping? || u.pc.Handling? || u.pc.Counted?
            then |u.handled| + |u.hand| + u.size >= |t.handled| + |t.hand| + t.size else t.size <= 0)
  {
    ToInt32AtMost(|t.queue|);
  }

  // ---- The pool --------------------------------------------------------------------------------

  datatype Pool<P> = Pool(threads: seq<Thread<P>>, count: nat, log: seq<P>)

  datatype Action<P> = Dispatch(p: P) | Run(i: nat) | Stop(i: nat)

  function NewPool<P>(n: nat): Pool<P> {
    Pool(seq(n, _ => NewThread()), 0, [])
  }

  function Next<P>(s: Pool<P>, a: Action<P>): Pool<P> {
    match a
    case Dispatch(p) =>
      if s.threads == [] then s
      else
        var w := WorkerOf(s.count, |s.threads|);
        Pool(s.threads[w := AddPkt(s.threads[w], p)], s.count + 1, s.log + [p])
    case Run(i) => if i < |s.threads| then s.(threads := s.threads[i := Step(s.threads[i])]) else s
    case Stop(i) => if i < |s.threads| then s.(threads := s.threads[i := s.threads[i].(running := false)]) else s
  }

  function After<P>(n: nat, run: seq<Action<P>>): Pool<P> {
    if run == [] then NewPool(n) else Next(After(n, run[..|run| - 1]), run[|run| - 1])
  }

  /** The dispatches that fall to worker i. */
  function Share<P>(log: seq<P>, i: nat, n: nat): seq<P>
    requires n > 0
  {
    if log == [] then []
    else Share(log[..|log| - 1], i, n) + if WorkerOf(|log| - 1, n) == i then [log[|log| - 1]] else []
  }

  ghost predicate PoolInv<P>(s: Pool<P>, n: nat) {
    && 0 < n == |s.threads|
    && s.count == |s.log|
    && forall i | 0 <= i < n :: ThreadInv(s.threads[i]) && s.threads[i].given == Share(s.log, i, n)
  }

  lemma ShareStep<P>(log: seq<P>, p: P, i: nat, n: nat)
    requires n > 0
    ensures Share(log + [p], i, n) == Share(log, i, n) + if WorkerOf(|log|, n) == i then [p] else []
  {
    assert (log + [p])[..|log|] == log;
  }

  lemma NextKeepsInv<P>(s: Pool<P>, a: Action<P>, n: nat)
    requires PoolInv(s, n)
    ensures PoolInv(Next(s, a), n)
  {
    match a
    case Dispatch(p) =>
      var w := WorkerOf(s.count, n);
      forall i | 0 <= i < n
        ensures ThreadInv(Next(s, a).threads[i]) && Next(s, a).threads[i].given == Share(s.log + [p], i, n)
      {
        ShareStep(s.log, p, i, n);
        AddPktKeepsInv(s.threads[w], p);
      }
    case Run(i) =>
      if i < n {
        StepKeepsInv(s.threads[i]);
      }
    case Stop(i) =>
  }

  /** In every interleaving of dispatches, consumer steps, wake-ups and stops: no queue is popped when empty,
      and what each worker was given is, in order, what it handled, has in hand and still queues. */
  lemma {:induction false} PoolSafety<P>(n: nat, run: seq<Action<P>>)
    requires n > 0
    ensures PoolInv(After(n, run), n)
  {
    if run != [] {
      PoolSafety(n, run[..|run| - 1]);
      NextKeepsInv(After(n, run[..|run| - 1]), run[|run| - 1], n);
    }
  }

  /** Stop reaches the worker it is for, and no other, and leaves its packets alone; the worker then exits after
      finitely many steps of its own. */
  lemma StoppedWorkerExits<P>(s: Pool<P>, i: nat, n: nat) returns (steps: nat)
    requires PoolInv(s, n) && i < n
    ensures var t := Next(s, Stop(i));
      && |t.threads| == n && t.log == s.log && t.count == s.count
      && (forall j | 0 <= j < n && j != i :: t.threads[j] == s.threads[j])
      && t.threads[i].queue == s.threads[i].queue && t.threads[i].hand == s.threads[i].hand
      && Play(t.threads[i], OwnSteps(steps)).pc == Exited
  {
    var t := s.threads[i].(running := false);
    StopKeepsInv(s.threads[i]);
    steps := StopEnds(t);
  }

  // ---- Conservation over the whole pool --------------------------------------------------------

  /** Everything that is somewhere in a worker. */
  function All<P>(t: Thread<P>): multiset<P> {
    multiset(t.handled + t.hand + t.queue)
  }

  /** Everything that is somewhere in the first m workers. */
  function Contents<P>(threads: seq<Thread<P>>, m: nat): multiset<P>
    requires m <= |threads|
  {
    if m == 0 then multiset{}
    else Contents(threads, m - 1) + All(threads[m - 1])
  }

  function Shares<P>(log: seq<P>, m: nat, n: nat): multiset<P>
    requires n > 0
  {
    if m == 0 then multiset{} else Shares(log, m - 1, n) + multiset(Share(log, m - 1, n))
  }

  lemma {:induction false} SharesStep<P>(log: seq<P>, p: P, m: nat, n: nat)
    requires n > 0
    ensures Shares(log + [p], m, n) == Shares(log, m, n) + if WorkerOf(|log|, n) < m then multiset{p} else multiset{}
  {
    hide Share, WorkerOf;
    if m > 0 {
      SharesStep(log, p, m - 1, n);
      ShareStep(log, p, m - 1, n);
      if WorkerOf(|log|, n) == m - 1 {
        assert Shares(log + [p], m - 1, n) == Shares(log, m - 1, n);
      } else {
        assert Share(log + [p], m - 1, n) == Share(log, m - 1, n);
      }
    }
  }

  lemma {:induction false} SharesPartition<P>(log: seq<P>, n: nat)
    requires n > 0
    ensures Shares(log, n, n) == multiset(log)
  {
    if log == [] {
      NoShares<P>(n, n);
    } else {
      var init, last := log[..|log| - 1], log[|log| - 1];
      assert log == init + [last];
      SharesPartition(init, n);
      SharesStep(init, last, n, n);
    }
  }

  lemma {:induction false} NoShares<P>(m: nat, n: nat)
    requires n > 0
    ensures Shares<P>([], m, n) == multiset{}
  {
    if m > 0 {
      NoShares<P>(m - 1, n);
    }
  }

  lemma ThreadHasShare<P>(s: Pool<P>, i: nat, n: nat)
    requires PoolInv(s, n) && i < n
    ensures All(s.threads[i]) == multiset(Share(s.log, i, n))
  {
    assert ThreadInv(s.threads[i]);
    hide Share;
  }

  lemma {:induction false} ContentsAreShares<P>(s: Pool<P>, m: nat, n: nat)
    requires PoolInv(s, n) && m <= n
    ensures Contents(s.threads, m) == Shares(s.log, m, n)
  {
    hide PoolInv, Share, WorkerOf, All;
    PoolSize(s, n);
    if m > 0 {
      ContentsAreShares(s, m - 1, n);
      ThreadHasShare(s, m - 1, n);
    }
  }

  lemma PoolSize<P>(s: Pool<P>, n: nat)
    requires PoolInv(s, n)
    ensures 0 < n == |s.threads|
  {
  }

  /** Every dispatched packet is in exactly one worker exactly once: handled, in hand or queued. */
  lemma PoolConservation<P>(n: nat, run: seq<Action<P>>)
    requires n > 0
    ensures |After(n, run).threads| == n
    ensures Contents(After(n, run).threads, n) == multiset(After(n, run).log)
  {
    PoolSafety(n, run);
    ContentsAreShares(After(n, run), n, n);
    SharesPartition(After(n, run).log, n);
  }

  /** What the first m workers have handled, and what they have in hand or queued. */
  function Done<P>(threads: seq<Thread<P>>, m: nat): multiset<P>
    requires m <= |threads|
  {
    if m == 0 then multiset{} else Done(threads, m - 1) + multiset(threads[m - 1].handled)
  }

  function Held<P>(threads: seq<Thread<P>>, m: nat): multiset<P>
    requires m <= |threads|
  {
    if m == 0 then multiset{} else Held(threads, m - 1) + multiset(threads[m - 1].hand + threads[m - 1].queue)
  }

  lemma {:induction false} DoneAndHeld<P>(threads: seq<Thread<P>>, m: nat)
    requires m <= |threads|
    ensures Contents(threads, m) == Done(threads, m) + Held(threads, m)
  {
    if m > 0 {
      DoneAndHeld(threads, m - 1);
      var t := threads[m - 1];
      SumOfThree(t.handled, t.hand, t.queue);
      Regroup(Done(threads, m - 1), Held(threads, m - 1), t.handled, t.hand + t.queue);
    }
  }

  lemma Regroup<P>(done: multiset<P>, held: multiset<P>, a: seq<P>, b: seq<P>)
    ensures done + held + multiset(a + b) == done + multiset(a) + (held + multiset(b))
  {
  }

  /** What was dispatched has been handled or is still held, each packet once. */
  lemma DispatchedIsDoneOrHeld<P>(s: Pool<P>, n: nat)
    requires PoolInv(s, n)
    ensures Done(s.threads, n) + Held(s.threads, n) == multiset(s.log)
  {
    ContentsAreShares(s, n, n);
    SharesPartition(s.log, n);
    DoneAndHeld(s.threads, n);
  }

  lemma {:induction false} DoneElsewhere<P>(threads: seq<Thread<P>>, i: nat, t: Thread<P>, m: nat)
    requires m <= i < |threads|
    ensures Done(threads[i := t], m) == Done(threads, m)
  {
    if m > 0 {
      DoneElsewhere(threads, i, t, m - 1);
    }
  }

  lemma {:induction false} DoneUpdate<P>(threads: seq<Thread<P>>, i: nat, t: Thread<P>, m: nat)
    requires i < m <= |threads|
    ensures Done(threads[i := t], m) + multiset(threads[i].handled) == Done(threads, m) + multiset(t.handled)
  {
    if i < m - 1 {
      DoneUpdate(threads, i, t, m - 1);
      MoveLast(Done(threads[i := t], m - 1), multiset(threads[i].handled), Done(threads, m - 1), multiset(t.handled),
               multiset(threads[m - 1].handled));
    } else {
      DoneElsewhere(threads, i, t, m - 1);
      var d := Done(threads, i);
      assert d + multiset(t.handled) + multiset(threads[i].handled) == d + multiset(threads[i].handled) + multiset(t.handled);
    }
  }

  lemma MoveLast<P>(a: multiset<P>, x: multiset<P>, b: multiset<P>, y: multiset<P>, z: multiset<P>)
    requires a + x == b + y
    ensures a + z + x == b + z + y
  {
    assert a + z + x == a + x + z;
    assert b + z + y == b + y + z;
  }

  /** No worker has been stopped. */
  ghost predicate Alive<P>(s: Pool<P>) {
    forall i | 0 <= i < |s.threads| :: s.threads[i].running && s.threads[i].pc != Exited
  }

  lemma DoneBy<P>(before: multiset<P>, after: multiset<P>, handled: seq<P>, more: seq<P>)
    requires after + multiset(handled) == before + multiset(handled + more)
    ensures after == before + multiset(more)
  {
    assert before + multiset(handled + more) == before + multiset(more) + multiset(handled);
    assert after + multiset(handled) - multiset(handled) == after;
  }

  lemma StepHandles<P>(t: Thread<P>)
    requires ThreadInv(t) && t.running && t.pc != Exited
    ensures Step(t).running && Step(t).pc != Exited
    ensures t.pc == Handling ==> |t.hand| == 1
    ensures Step(t).handled == t.handled + if t.pc == Handling then [t.hand[0]] else []
  {
  }

  /** What a step of worker i adds to what has been handled: the packet in its hand, if it is handling one. */
  lemma RunEffect<P>(s: Pool<P>, i: nat, n: nat)
    requires PoolInv(s, n) && Alive(s) && i < n
    ensures var t, w := Next(s, Run(i)), s.threads[i];
      && PoolInv(t, n) && Alive(t) && t.log == s.log && |t.threads| == n
      && (w.pc == Handling ==> w.hand != [])
      && Done(t.threads, n) == Done(s.threads, n) + multiset(if w.pc == Handling then [w.hand[0]] else [])
      && (n == 1 ==> t.threads[0].handled == s.threads[0].handled + if w.pc == Handling then [w.hand[0]] else [])
  {
    var w := s.threads[i];
    NextKeepsInv(s, Run(i), n);
    assert ThreadInv(w);
    hide PoolInv, ThreadInv;
    StepHandles(w);
    DoneUpdate(s.threads, i, Step(w), n);
    hide Step;
    DoneBy(Done(s.threads, n), Done(s.threads[i := Step(w)], n), w.handled, if w.pc == Handling then [w.hand[0]] else []);
  }

  /** A dispatch adds nothing to it. */
  lemma DispatchEffect<P>(s: Pool<P>, p: P, n: nat)
    requires PoolInv(s, n) && Alive(s)
    ensures var t := Next(s, Dispatch(p));
      && PoolInv(t, n) && Alive(t) && t.log == s.log + [p] && |t.threads| == n
      && Done(t.threads, n) == Done(s.threads, n) && (n == 1 ==> t.threads[0].handled == s.threads[0].handled)
  {
    NextKeepsInv(s, Dispatch(p), n);
    var w := WorkerOf(s.count, n);
    var t := AddPkt(s.threads[w], p);
    assert |s.threads| == n;
    hide PoolInv;
    DoneUpdate(s.threads, w, t, n);
    assert t.handled + [] == t.handled;
    DoneBy(Done(s.threads, n), Done(s.threads[w := t], n), t.handled, []);
  }

  lemma {:induction false} HeldBy<P>(threads: seq<Thread<P>>, i: nat, m: nat)
    requires i < m <= |threads|
    ensures multiset(threads[i].hand + threads[i].queue) <= Held(threads, m)
  {
    if i < m - 1 {
      HeldBy(threads, i, m - 1);
    }
  }

  lemma {:induction false} HeldByNone<P>(threads: seq<Thread<P>>, m: nat, p: P)
    requires m <= |threads| && forall i | 0 <= i < m :: p !in threads[i].hand && p !in threads[i].queue
    ensures p !in Held(threads, m)
  {
    if m > 0 {
      HeldByNone(threads, m - 1, p);
    }
  }

  /** A single worker gets everything in order. */
  lemma {:induction false} ShareOfOne<P>(log: seq<P>)
    ensures Share(log, 0, 1) == log
  {
    if log != [] {
      var init, last := log[..|log| - 1], log[|log| - 1];
      ShareOfOne(init);
      assert log == init + [last];
      hide Share, WorkerOf;
      ShareStep(init, last, 0, 1);
      OnlyWorker(|init|);
    }
  }

  lemma OnlyWorker(count: nat)
    ensures WorkerOf(count, 1) == 0
  {
  }

  lemma {:induction false} ShareLength<P>(log: seq<P>, i: nat, n: nat)
    requires n > 0
    ensures |Share(log, i, n)| == Hits(i, 0, |log|, n)
  {
    if log != [] {
      ShareLength(log[..|log| - 1], i, n);
    }
  }

  /** The loads of any two workers differ by at most one more than the number of counter restarts so far. */
  lemma PoolBalance<P>(n: nat, run: seq<Action<P>>, i: nat, j: nat)
    requires i < n && j < n
    ensures |After(n, run).threads| == n
    ensures var s := After(n, run);
      |s.threads[i].given| - |s.threads[j].given| <= Wraps(0, |s.log|) + 1
  {
    PoolSafety(n, run);
    var s := After(n, run);
    ShareLength(s.log, i, n);
    ShareLength(s.log, j, n);
    Balance(i, j, 0, |s.log|, n);
  }
}
