/**
 The lock-free queue of one producer and one consumer, as interleaved atomic steps: acquire load, slot access,
 release store on each side. A run is any interleaving of steps; a step its thread is not ready for does nothing.
 */
module SpscQueue {

  /** Where the producer stands inside `enqueue`. */
  datatype Producer<T> = Ready | HasRoom(item: T, nextHead: nat) | SlotWritten(item: T, nextHead: nat)

  /** Where the consumer stands inside `dequeue`. */
  datatype Consumer<T> = Idle | HasItem(tail: nat) | SlotRead(tail: nat, out: T)

  /** `accepted` are the items passed to enqueues that returned true, `taken` those handed out by dequeues, in order. */
  datatype State<T> = State(buffer: seq<T>, head: nat, tail: nat, producer: Producer<T>, consumer: Consumer<T>,
                            accepted: seq<T>, taken: seq<T>)

  datatype Step<T> = CheckRoom(item: T) | WriteSlot | PublishHead | CheckItem | ReadSlot | PublishTail

  function NextIndex(i: nat, n: nat): nat
    requires n > 0
  {
    (i + 1) % n
  }

  ghost predicate InRange<T>(s: State<T>) {
    && s.head < |s.buffer| && s.tail < |s.buffer|
    && (s.producer.HasRoom? || s.producer.SlotWritten? ==> s.producer.nextHead < |s.buffer|)
    && (s.consumer.HasItem? ==> s.consumer.tail < |s.buffer|)
  }

  function Next<T>(s: State<T>, step: Step<T>): (r: State<T>)
    requires InRange(s)
    ensures InRange(r)
  {
    match step
    case CheckRoom(item) =>
      if s.producer.Ready? && NextIndex(s.head, |s.buffer|) != s.tail
      then s.(producer := HasRoom(item, NextIndex(s.head, |s.buffer|))) else s
    case WriteSlot =>
      if s.producer.HasRoom?
      then s.(buffer := s.buffer[s.head := s.producer.item],
              producer := SlotWritten(s.producer.item, s.producer.nextHead))
      else s
    case PublishHead =>
      if s.producer.SlotWritten?
      then s.(head := s.producer.nextHead, producer := Ready, accepted := s.accepted + [s.producer.item])
      else s
    case CheckItem =>
      if s.consumer.Idle? && s.tail != s.head then s.(consumer := HasItem(s.tail)) else s
    case ReadSlot =>
      if s.consumer.HasItem?
      then s.(consumer := SlotRead(s.consumer.tail, s.buffer[s.consumer.tail])) else s
    case PublishTail =>
      if s.consumer.SlotRead?
      then s.(tail := NextIndex(s.consumer.tail, |s.buffer|), consumer := Idle, taken := s.taken + [s.consumer.out])
      else s
  }

  // ----- the invariant -----

  function Stored<T>(s: State<T>): int {
    |s.accepted| - |s.taken|
  }

  /** The slot `i` places after `from`, for distances below the buffer size. */
  function Slot(from: nat, i: nat, n: nat): nat {
    if from + i < n then from + i else from + i - n
  }

  ghost predicate Inv<T>(s: State<T>) {
    var n, d := |s.buffer|, Stored(s);
    && InRange(s)
    && 0 <= d < n
    && s.head == Slot(s.tail, d, n)
    && (forall i :: 0 <= i < d ==> s.buffer[Slot(s.tail, i, n)] == s.accepted[|s.taken| + i])
    && s.taken == s.accepted[..|s.taken|]
    && (s.producer.HasRoom? || s.producer.SlotWritten? ==>
          d + 1 < n && s.producer.nextHead == Slot(s.tail, d + 1, n))
    && (s.producer.SlotWritten? ==> s.buffer[s.head] == s.producer.item)
    && (s.consumer.HasItem? || s.consumer.SlotRead? ==> d > 0 && s.consumer.tail == s.tail)
    && (s.consumer.SlotRead? ==> s.consumer.out == s.accepted[|s.taken|])
  }

  lemma {:induction false} NextIndexIsSlot(i: nat, n: nat)
    requires i < n
    ensures NextIndex(i, n) == Slot(i, 1, n)
  {
  }

  function Initial<T>(buffer: seq<T>): State<T> {
    State(buffer, 0, 0, Ready, Idle, [], [])
  }

  lemma {:induction false} InvInitial<T>(buffer: seq<T>)
    requires buffer != []
    ensures Inv(Initial(buffer))
  {
  }

  lemma {:induction false} InvProducer<T>(s: State<T>, step: Step<T>)
    requires Inv(s) && (step.CheckRoom? || step.WriteSlot? || step.PublishHead?)
    ensures Inv(Next(s, step))
  {
    NextIndexIsSlot(s.head, |s.buffer|);
  }

  lemma {:induction false} InvTake<T>(s: State<T>)
    requires Inv(s) && s.consumer.SlotRead?
    ensures Inv(Next(s, PublishTail))
  {
    var n, s' := |s.buffer|, Next(s, PublishTail);
    NextIndexIsSlot(s.tail, n);
    forall i | 0 <= i < Stored(s')
      ensures s'.buffer[Slot(s'.tail, i, n)] == s'.accepted[|s'.taken| + i]
    {
      assert Slot(s'.tail, i, n) == Slot(s.tail, i + 1, n);
    }
  }

  lemma {:induction false} InvNext<T>(s: State<T>, step: Step<T>)
    requires Inv(s)
    ensures Inv(Next(s, step))
  {
    if step.CheckRoom? || step.WriteSlot? || step.PublishHead? {
      InvProducer(s, step);
    } else if step.PublishTail? && s.consumer.SlotRead? {
      InvTake(s);
    } else {
      assert Slot(s.tail, 0, |s.buffer|) == s.tail;
      assert Stored(s) > 0 ==> s.buffer[Slot(s.tail, 0, |s.buffer|)] == s.accepted[|s.taken|];
    }
  }

  // ----- runs -----

  function Run<T>(s: State<T>, steps: seq<Step<T>>): (r: State<T>)
    requires InRange(s)
    ensures InRange(r)
    decreases |steps|
  {
    if steps == [] then s else Run(Next(s, steps[0]), steps[1..])
  }

  lemma {:induction false} InvRun<T>(s: State<T>, steps: seq<Step<T>>)
    requires Inv(s)
    ensures Inv(Run(s, steps))
    decreases |steps|
  {
    if steps != [] {
      InvNext(s, steps[0]);
      InvRun(Next(s, steps[0]), steps[1..]);
    }
  }

  /** In every reachable state the values dequeued are a prefix of the values accepted, at most Size - 1 values are
      stored, and the slot about to be written is not the slot about to be read. */
  lemma {:induction false} Safety<T>(buffer: seq<T>, steps: seq<Step<T>>)
    requires buffer != []
    ensures var s := Run(Initial(buffer), steps);
            && s.taken <= s.accepted
            && 0 <= Stored(s) <= |s.buffer| - 1
            && (s.producer.HasRoom? && s.consumer.HasItem? ==> s.head != s.consumer.tail)
            && (s.consumer.SlotRead? ==> s.taken + [s.consumer.out] <= s.accepted)
  {
    InvInitial(buffer);
    InvRun(Initial(buffer), steps);
  }

  /** At the acquire load, `enqueue` gives up if and only if Size - 1 values are stored, and `dequeue` if and only if
      all accepted values have been handed out. */
  lemma {:induction false} FailureIsExact<T>(buffer: seq<T>, steps: seq<Step<T>>, item: T)
    requires buffer != []
    ensures var s := Run(Initial(buffer), steps);
            && (s.producer.Ready? ==>
                  (Next(s, CheckRoom(item)).producer.Ready? <==> Stored(s) == |s.buffer| - 1))
            && (s.consumer.Idle? ==> (Next(s, CheckItem).consumer.Idle? <==> s.taken == s.accepted))
  {
    InvInitial(buffer);
    InvRun(Initial(buffer), steps);
    var s := Run(Initial(buffer), steps);
    NextIndexIsSlot(s.head, |s.buffer|);
    assert s.taken == s.accepted <==> |s.taken| == |s.accepted|;
  }

  /** The item of an enqueue that has passed its check and not returned yet. */
  function InFlight<T>(p: Producer<T>): seq<T> {
    if p.Ready? then [] else [p.item]
  }

  /** The items of the enqueues that pass their check during the steps: those that will return true. */
  function Entered<T>(s: State<T>, steps: seq<Step<T>>): seq<T>
    requires InRange(s)
    decreases |steps|
  {
    if steps == [] then []
    else
      var s' := Next(s, steps[0]);
      (if steps[0].CheckRoom? && s.producer.Ready? && !s'.producer.Ready? then [steps[0].item] else [])
      + Entered(s', steps[1..])
  }

  /** What is accepted is exactly what callers passed to the successful enqueues, in order. */
  lemma {:induction false} AcceptedAreEntered<T>(s: State<T>, steps: seq<Step<T>>)
    requires InRange(s)
    ensures var r := Run(s, steps);
            r.accepted + InFlight(r.producer) == s.accepted + InFlight(s.producer) + Entered(s, steps)
    decreases |steps|
  {
    if steps != [] {
      AcceptedAreEntered(Next(s, steps[0]), steps[1..]);
    }
  }

  // ----- the queue object -----

  class SPSCQueue<T(0)> {
    const buffer: array<T>
    var head: nat
    var tail: nat
    var producer: Producer<T>
    var consumer: Consumer<T>
    ghost var accepted: seq<T>
    ghost var taken: seq<T>

    ghost function View(): State<T>
      reads this, buffer
    {
      State(buffer[..], head, tail, producer, consumer, accepted, taken)
    }

    ghost predicate Valid()
      reads this, buffer
    {
      Inv(View())
    }

    constructor (size: nat)
      requires size > 0
      ensures Valid() && View() == Initial(buffer[..]) && buffer.Length == size
    {
      buffer := new T[size];
      head, tail, producer, consumer, accepted, taken := 0, 0, Ready, Idle, [], [];
      new;
      InvInitial(buffer[..]);
    }

    /** Producer: compute the next head, load the tail; false means full. */
    method CheckRoom(item: T) returns (ok: bool)
      requires Valid() && producer.Ready?
      modifies `producer
      ensures Valid() && View() == Next(old(View()), Step.CheckRoom(item))
      ensures ok == producer.HasRoom? == (Stored(View()) < buffer.Length - 1)
    {
      InvNext(View(), Step.CheckRoom(item));
      NextIndexIsSlot(head, buffer.Length);
      var nextHead := (head + 1) % buffer.Length;
      if nextHead == tail {
        return false;
      }
      producer := HasRoom(item, nextHead);
      return true;
    }

    method WriteSlot()
      requires Valid() && producer.HasRoom?
      modifies `producer, buffer
      ensures Valid() && View() == Next(old(View()), Step.WriteSlot)
    {
      InvNext(View(), Step.WriteSlot);
      buffer[head] := producer.item;
      producer := SlotWritten(producer.item, producer.nextHead);
    }

    method PublishHead()
      requires Valid() && producer.SlotWritten?
      modifies `producer, `head, `accepted
      ensures Valid() && View() == Next(old(View()), Step.PublishHead)
    {
      InvNext(View(), Step.PublishHead);
      accepted := accepted + [producer.item];
      head, producer := producer.nextHead, Ready;
    }

    /** Consumer: load the head; false means empty. */
    method CheckItem() returns (ok: bool)
      requires Valid() && consumer.Idle?
      modifies `consumer
      ensures Valid() && View() == Next(old(View()), Step.CheckItem)
      ensures ok == consumer.HasItem? == (taken != accepted)
    {
      InvNext(View(), Step.CheckItem);
      assert taken == accepted <==> |taken| == |accepted|;
      if tail == head {
        return false;
      }
      consumer := HasItem(tail);
      return true;
    }

    method ReadSlot()
      requires Valid() && consumer.HasItem?
      modifies `consumer
      ensures Valid() && View() == Next(old(View()), Step.ReadSlot)
    {
      InvNext(View(), Step.ReadSlot);
      consumer := SlotRead(consumer.tail, buffer[consumer.tail]);
    }

    method PublishTail() returns (out: T)
      requires Valid() && consumer.SlotRead?
      modifies `consumer, `tail, `taken
      ensures Valid() && View() == Next(old(View()), Step.PublishTail)
      ensures |old(taken)| < |accepted| && out == accepted[|old(taken)|]
    {
      InvNext(View(), Step.PublishTail);
      out := consumer.out;
      taken := taken + [out];
      tail, consumer := (consumer.tail + 1) % buffer.Length, Idle;
    }
  }
}
