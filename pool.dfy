/**
 The bounded-concurrency `Pool`: operations are queued by `add`, `run` starts up
 to `max` of them, and every settlement (`done`) records the outcome in the
 operation's own result slot, frees one slot and either refills it from the
 queue or, when nothing is left running, resolves the pool's promise.

 Each JavaScript callback runs to completion, so every method below is one
 atomic transition. Starting an operation is abstract: which operation settles
 next, and how, is the environment's choice, made by calling `Done` for an
 index that is in flight.
 */
module Concurrency {

  datatype Option<T> = None | Some(value: T)

  /** How an operation's promise settled. */
  datatype Settlement<V, E> = Fulfilled(value: V) | Rejected(error: E)

  /** A result slot, the object `{ res, err }`; an absent property is `None`. */
  datatype Slot<V, E> = Slot(res: Option<V>, err: Option<E>)

  /** The settlement a slot records, if it records exactly one. */
  function Read<V, E>(slot: Slot<V, E>): Option<Settlement<V, E>>
  {
    match slot
    case Slot(Some(v), None) => Some(Fulfilled(v))
    case Slot(None, Some(e)) => Some(Rejected(e))
    case _ => None
  }

  /**
   The slot written for a settlement: a fulfilment leaves `err` undefined (the
   `then` callback's second parameter is never supplied) and a rejection
   leaves `res` undefined. Exactly one of the two is present, and the slot
   reads back as the settlement it was written for.
   */
  function Record<V, E>(s: Settlement<V, E>): (r: Slot<V, E>)
    ensures r.res.Some? != r.err.Some?
    ensures Read(r) == Some(s)
  {
    match s
    case Fulfilled(v) => Slot(Some(v), None)
    case Rejected(e) => Slot(None, Some(e))
  }

  function Min(a: nat, b: nat): nat
  {
    if a <= b then a else b
  }

  class Pool<J, V, E> {
    const max: nat
    var pending: seq<J>                     // operations not yet started, FIFO
    var next: nat                           // index the next started operation gets
    var running: nat                        // operations in flight
    var results: array<Option<Slot<V, E>>>  // allocated by Run; None is a hole
    var resolved: bool                      // set where `resolve(results)` is called

    ghost var submitted: seq<J>             // every operation added, in order
    ghost var started: seq<J>               // started[i] is the operation given index i
    ghost var inFlight: set<nat>            // indices started and not yet settled
    ghost var ran: bool                     // Run has been called

    /** Bookkeeping that holds between any two steps, including inside Done. */
    ghost predicate Consistent()
      reads this, results
    {
      && started + pending == submitted
      && next == |started|
      && running == |inFlight|
      && (forall i :: i in inFlight ==> i < next)
      && (ran ==> results.Length == |submitted|)
      && (!ran ==> started == [] && inFlight == {} && !resolved && results.Length == 0)
      && (forall i :: 0 <= i < results.Length ==> (results[i].Some? <==> i < next && i !in inFlight))
      && (forall i :: 0 <= i < results.Length && results[i].Some? ==> Read(results[i].value).Some?)
      && (resolved ==> running == 0)
    }

    /**
     The pool's invariant: never more than `max` in flight; while the queue is
     non-empty and the pool unresolved, every slot is busy; the pool can
     resolve with operations still queued only when `max` is 1; and once work
     has started, an unresolved pool has something in flight.
     */
    ghost predicate Valid()
      reads this, results
    {
      && Consistent()
      && running <= max
      && (ran && !resolved && pending != [] ==> running == max)
      && (resolved && pending != [] ==> max == 1)
      && (ran && !resolved && submitted != [] && max > 0 ==> running > 0)
    }

    constructor (max: nat)
      ensures Valid()
      ensures this.max == max && pending == [] && submitted == []
      ensures next == 0 && running == 0 && !resolved && !ran
    {
      this.max := max;
      pending := [];
      next := 0;
      running := 0;
      results := new Option<Slot<V, E>>[0](_ => None);
      resolved := false;
      submitted := [];
      started := [];
      inFlight := {};
      ran := false;
    }

    /** `add(fn)`: append to the back of the queue; only before Run. */
    method Add(job: J)
      requires Valid() && !ran
      modifies this
      ensures Valid() && !ran && !resolved
      ensures pending == old(pending) + [job] && submitted == old(submitted) + [job]
      ensures next == old(next) && running == old(running) && results == old(results)
    {
      pending := pending + [job];
      submitted := submitted + [job];
    }

    /**
     `runNext(done)`: take the operation at the front of the queue, give it the
     next index and count it as running; on an empty queue nothing changes.
     Every caller runs it with a free slot.
     */
    method RunNext()
      requires Consistent() && ran && !resolved && running < max
      modifies this
      ensures Consistent() && ran && !resolved && running <= max
      ensures results == old(results) && submitted == old(submitted)
      ensures old(pending) == [] ==>
        pending == [] && next == old(next) && running == old(running)
        && started == old(started) && inFlight == old(inFlight)
      ensures old(pending) != [] ==>
        pending == old(pending)[1..] && started == old(started) + [old(pending)[0]]
        && next == old(next) + 1 && running == old(running) + 1
        && inFlight == old(inFlight) + {old(next)}
    {
      if pending == [] {
        return;
      }
      var job := pending[0];
      pending := pending[1..];
      running := running + 1;
      started := started + [job];
      inFlight := inFlight + {next};
      next := next + 1;
    }

    /**
     `run()`: with an empty queue nothing starts and the pool never resolves;
     otherwise allocate one hole per queued operation and call RunNext `max`
     times, which starts min(max, |queue|) operations in FIFO order.
     */
    method Run()
      requires Valid() && !ran
      modifies this
      ensures Valid() && ran && !resolved && submitted == old(submitted)
      ensures old(pending) == [] ==> results == old(results)
      ensures old(pending) != [] ==> fresh(results)
      ensures results.Length == |submitted|
      ensures forall k :: 0 <= k < results.Length ==> results[k] == None
      ensures var m := Min(max, |old(pending)|);
        running == m && next == m && (forall k: nat :: k in inFlight <==> k < m)
        && started == old(pending)[..m] && pending == old(pending)[m..]
    {
      ran := true;
      if |pending| == 0 {
        return;
      }
      results := new Option<Slot<V, E>>[|pending|](_ => None);
      for i := 0 to max
        invariant Consistent() && ran && !resolved && submitted == old(submitted)
        invariant fresh(results) && results.Length == |submitted|
        invariant forall k :: 0 <= k < results.Length ==> results[k] == None
        invariant running == next == Min(i, |submitted|)
        invariant forall k: nat :: k in inFlight <==> k < running
        invariant started == submitted[..running] && pending == submitted[running..]
      {
        RunNext();
      }
    }

    /**
     `done(i, res, err)`: the operation with index i settled with s. Its slot,
     and no other, is written; one slot is freed; if nothing is left running
     the pool resolves (even with operations still queued), otherwise RunNext
     refills the freed slot.
     */
    method Done(i: nat, s: Settlement<V, E>)
      requires Valid() && i in inFlight
      modifies this, results
      ensures Valid() && ran && submitted == old(submitted) && results == old(results)
      ensures results[i] == Some(Record(s))
      ensures forall k :: 0 <= k < results.Length && k != i ==> results[k] == old(results[k])
      ensures old(running) == 1 ==>
        resolved && running == 0 && inFlight == {}
        && pending == old(pending) && next == old(next) && started == old(started)
      ensures old(running) > 1 && old(pending) == [] ==>
        !resolved && running == old(running) - 1 && inFlight == old(inFlight) - {i}
        && pending == [] && next == old(next) && started == old(started)
      ensures old(running) > 1 && old(pending) != [] ==>
        !resolved && running == old(running) && inFlight == old(inFlight) - {i} + {old(next)}
        && pending == old(pending)[1..] && next == old(next) + 1
        && started == old(started) + [old(pending)[0]]
    {
      results[i] := Some(Record(s));
      running := running - 1;
      inFlight := inFlight - {i};
      if running == 0 {
        resolved := true;
      } else {
        RunNext();
      }
    }
  }

  /**
   Index i is given to the i-th operation submitted, whatever the completion
   order: the started operations are a prefix of the submissions.
   */
  lemma IndicesFollowSubmission<J, V, E>(p: Pool<J, V, E>)
    requires p.Consistent()
    ensures p.next <= |p.submitted|
    ensures forall i :: 0 <= i < p.next ==> p.started[i] == p.submitted[i]
    ensures p.pending == p.submitted[p.next..]
  {
    assert p.submitted[..p.next] == p.started;
  }

  /**
   Once resolved with an empty queue, every submitted operation has settled:
   the result array has one filled slot per submission index. With `max` other
   than 1 the queue is always empty at resolution.
   */
  lemma ResolvedMeansSettled<J, V, E>(p: Pool<J, V, E>)
    requires p.Valid() && p.resolved
    ensures p.max != 1 ==> p.pending == []
    ensures p.pending == [] ==>
      p.results.Length == |p.submitted|
      && forall k :: 0 <= k < p.results.Length ==> p.results[k].Some? && Read(p.results[k].value).Some?
  {
    if p.pending == [] {
      assert p.inFlight == {};
      assert p.next == |p.submitted|;
    }
  }

  /**
   Conversely, once Run has started work (something was submitted and `max`
   is positive), a pool with nothing in flight has resolved.
   */
  lemma SettledMeansResolved<J, V, E>(p: Pool<J, V, E>)
    requires p.Valid() && p.ran && p.submitted != [] && p.max > 0
    requires p.running == 0
    ensures p.resolved
  {
  }

  /**
   Two slots, three operations that fulfil with their own index, settling in
   the order 1, 0, 2: the result array is in submission order.
   */
  method TwoSlotsThreeJobs() returns (r: seq<Option<Slot<int, string>>>, resolved: bool)
    ensures resolved
    ensures r == [Some(Slot(Some(0), None)), Some(Slot(Some(1), None)), Some(Slot(Some(2), None))]
  {
    var p := new Pool<nat, int, string>(2);
    p.Add(0);
    p.Add(1);
    p.Add(2);
    p.Run();
    assert p.running == 2 && p.pending == [2] && p.inFlight == {0, 1};
    p.Done(1, Fulfilled(1));
    assert p.running == 2 && p.pending == [] && p.inFlight == {0, 2};
    var one := p.results[1];
    p.Done(0, Fulfilled(0));
    assert p.running == 1 && p.inFlight == {2};
    assert p.results[1] == one;
    var zero := p.results[0];
    p.Done(2, Fulfilled(2));
    assert p.results[1] == one && p.results[0] == zero;
    r := [zero, one, p.results[2]];
    resolved := p.resolved;
  }

  /**
   One slot, two operations: the first settlement brings `running` to 0 and
   the pool resolves with the second operation still queued and its slot a hole.
   */
  method OneSlotResolvesEarly() returns (r: seq<Option<Slot<int, string>>>, resolved: bool, queued: nat)
    ensures resolved && queued == 1
    ensures r == [Some(Slot(None, Some("0 err"))), None]
  {
    var p := new Pool<nat, int, string>(1);
    p.Add(0);
    p.Add(1);
    p.Run();
    assert p.running == 1 && p.pending == [1] && p.inFlight == {0};
    p.Done(0, Rejected("0 err"));
    r := p.results[..];
    resolved := p.resolved;
    queued := |p.pending|;
  }
}
