/**
 The shared-memory mailbox: one slot, several senders, one reader thread that moves messages into a queue. All of a
 step happens under the slot's mutex; a waiting thread sleeps on the condition variable, where `notify_one` wakes one
 sleeper of any kind.
 */
module Mailbox {
  import opened Numbers
  import opened Options

  type Message = seq<UInt8>

  const BUFFER_SIZE := 1024

  // ----- the slot -----

  predicate Fits(m: Message) {
    |m| + 1 <= BUFFER_SIZE
  }

  /** The message and its terminating zero, copied over the start of the slot. */
  function Encoded(data: seq<UInt8>, m: Message): seq<UInt8>
    requires |data| == BUFFER_SIZE && Fits(m)
  {
    m + [0] + data[|m| + 1..]
  }

  function Decoded(data: seq<UInt8>, size: nat): Message
    requires 0 < size <= |data|
  {
    data[..size - 1]
  }

  lemma {:induction false} DecodeEncoded(data: seq<UInt8>, m: Message)
    requires |data| == BUFFER_SIZE && Fits(m)
    ensures |Encoded(data, m)| == BUFFER_SIZE && Decoded(Encoded(data, m), |m| + 1) == m
    ensures Encoded(data, m)[|m|] == 0
    ensures forall i :: |m| < i < BUFFER_SIZE ==> Encoded(data, m)[i] == data[i]
  {
  }

  // ----- threads -----

  /** A sender outside `send`, asleep in its wait, or woken and about to check the slot again. */
  datatype Sender = Away | Asleep(message: Message) | Woken(message: Message)

  datatype Reader = Outside | Sleeping | Roused

  datatype Waiter = TheReader | ASender(id: nat)

  /** `sent` are the messages stored in the slot, in lock order; `popped` those taken from the queue. */
  datatype State = State(data: seq<UInt8>, size: nat, ready: bool, senders: map<nat, Sender>, reader: Reader,
                         queue: seq<Message>, popped: seq<Message>, sent: seq<Message>)

  /** Steps that notify name the sleeper that is woken. */
  datatype Step =
    | Send(id: nat, message: Message, wakes: Option<Waiter>)
    | SenderChecks(id: nat, wakes: Option<Waiter>)
    | SpuriousWake(waiter: Waiter)
    | ReaderEnters(wakes: Option<Waiter>)
    | ReaderChecks(wakes: Option<Waiter>)
    | ReaderTimesOut(wakes: Option<Waiter>)
    | TryPop

  function SenderOf(s: State, id: nat): Sender {
    if id in s.senders then s.senders[id] else Away
  }

  predicate IsAsleep(s: State, w: Waiter) {
    match w
    case TheReader => s.reader.Sleeping?
    case ASender(id) => SenderOf(s, id).Asleep?
  }

  /** `notify_one` wakes one sleeper if there is one. */
  ghost predicate MayWake(s: State, wakes: Option<Waiter>) {
    match wakes
    case None => forall w :: !IsAsleep(s, w)
    case Some(w) => IsAsleep(s, w)
  }

  function Wake(s: State, wakes: Option<Waiter>): State {
    match wakes
    case None => s
    case Some(TheReader) => s.(reader := Roused)
    case Some(ASender(id)) =>
      if SenderOf(s, id).Asleep? then s.(senders := s.senders[id := Woken(s.senders[id].message)]) else s
  }

  function Stored(s: State, id: nat, m: Message): State
    requires |s.data| == BUFFER_SIZE && Fits(m)
  {
    s.(data := Encoded(s.data, m), size := |m| + 1, ready := true, senders := s.senders[id := Away],
       sent := s.sent + [m])
  }

  function Taken(s: State): State
    requires 0 < s.size <= |s.data|
  {
    s.(ready := false, reader := Outside, queue := s.queue + [Decoded(s.data, s.size)])
  }

  ghost predicate WellFormed(s: State) {
    && |s.data| == BUFFER_SIZE
    && (s.ready ==> 0 < s.size <= BUFFER_SIZE)
    && forall id :: id in s.senders && !s.senders[id].Away? ==> Fits(s.senders[id].message)
  }

  /** A step is enabled when its thread is at that point and the notified sleeper is a possible one. */
  ghost predicate Enabled(s: State, step: Step)
    requires WellFormed(s)
  {
    match step
    case Send(id, m, wakes) =>
      SenderOf(s, id).Away? && (Fits(m) && !s.ready ==> MayWake(Stored(s, id, m), wakes))
    case SenderChecks(id, wakes) =>
      SenderOf(s, id).Woken? && (!s.ready ==> MayWake(Stored(s, id, s.senders[id].message), wakes))
    case SpuriousWake(w) => IsAsleep(s, w)
    case ReaderEnters(wakes) => s.reader.Outside? && (s.ready ==> MayWake(Taken(s), wakes))
    case ReaderChecks(wakes) => s.reader.Roused? && (s.ready ==> MayWake(Taken(s), wakes))
    case ReaderTimesOut(wakes) => s.reader.Sleeping? && (s.ready ==> MayWake(Taken(s), wakes))
    case TryPop => true
  }

  ghost function Next(s: State, step: Step): (r: State)
    requires WellFormed(s)
    ensures WellFormed(r)
  {
    if !Enabled(s, step) then s
    else
      match step
      case Send(id, m, wakes) =>
        if !Fits(m) then s
        else if s.ready then s.(senders := s.senders[id := Asleep(m)])
        else Wake(Stored(s, id, m), wakes)
      case SenderChecks(id, wakes) =>
        if s.ready then s.(senders := s.senders[id := Asleep(s.senders[id].message)])
        else Wake(Stored(s, id, s.senders[id].message), wakes)
      case SpuriousWake(w) => Wake(s, Some(w))
      case ReaderEnters(wakes) => if s.ready then Wake(Taken(s), wakes) else s.(reader := Sleeping)
      case ReaderChecks(wakes) => if s.ready then Wake(Taken(s), wakes) else s.(reader := Sleeping)
      case ReaderTimesOut(wakes) => if s.ready then Wake(Taken(s), wakes) else s.(reader := Outside)
      case TryPop => if s.queue == [] then s else s.(queue := s.queue[1..], popped := s.popped + [s.queue[0]])
  }

  // ----- invariant -----

  function SlotContents(s: State): seq<Message>
    requires s.ready ==> 0 < s.size <= |s.data|
  {
    if s.ready then [Decoded(s.data, s.size)] else []
  }

  ghost predicate Conserved(s: State)
    requires WellFormed(s)
  {
    s.popped + s.queue + SlotContents(s) == s.sent
  }

  /** While the slot is free, a sleeping sender is never left alone: some sender has been woken. */
  ghost predicate NoLostWakeup(s: State) {
    !s.ready && (exists id :: SenderOf(s, id).Asleep?) ==> exists id :: SenderOf(s, id).Woken?
  }

  ghost predicate Inv(s: State) {
    WellFormed(s) && Conserved(s) && NoLostWakeup(s)
  }

  function Initial(data: seq<UInt8>): State {
    State(data, 0, false, map[], Outside, [], [], [])
  }

  lemma {:induction false} InitialInv(data: seq<UInt8>)
    requires |data| == BUFFER_SIZE
    ensures Inv(Initial(data))
  {
  }

  lemma {:induction false} WakeKeepsMessages(s: State, wakes: Option<Waiter>)
    requires WellFormed(s)
    ensures WellFormed(Wake(s, wakes))
    ensures Conserved(Wake(s, wakes)) <==> Conserved(s)
    ensures Wake(s, wakes).ready == s.ready
  {
  }

  lemma {:induction false} StoreConserves(s: State, id: nat, m: Message)
    requires WellFormed(s) && Conserved(s) && !s.ready && Fits(m)
    ensures WellFormed(Stored(s, id, m)) && Conserved(Stored(s, id, m))
  {
    DecodeEncoded(s.data, m);
    assert s.popped + s.queue + [] == s.popped + s.queue;
  }

  lemma {:induction false} TakeConserves(s: State)
    requires WellFormed(s) && Conserved(s) && s.ready
    ensures WellFormed(Taken(s)) && Conserved(Taken(s))
  {
    var m := Decoded(s.data, s.size);
    assert s.popped + (s.queue + [m]) + [] == s.popped + s.queue + [m];
  }

  /** After a take the slot is free, and a sleeping sender there may be is one the notification can reach. */
  lemma {:induction false} TakeWakesSender(s: State, wakes: Option<Waiter>)
    requires WellFormed(s) && s.ready && MayWake(Taken(s), wakes)
    ensures NoLostWakeup(Wake(Taken(s), wakes))
  {
    var t := Taken(s);
    if id :| SenderOf(Wake(t, wakes), id).Asleep? {
      assert IsAsleep(t, ASender(id));
      assert wakes.Some? && wakes.value.ASender?;
      assert SenderOf(Wake(t, wakes), wakes.value.id).Woken?;
    }
  }

  lemma {:induction false} NextKeepsInv(s: State, step: Step)
    requires Inv(s)
    ensures Inv(Next(s, step))
  {
    if Enabled(s, step) {
      match step
      case Send(id, m, wakes) =>
        if Fits(m) && !s.ready {
          StoreConserves(s, id, m);
          WakeKeepsMessages(Stored(s, id, m), wakes);
        }
      case SenderChecks(id, wakes) =>
        if !s.ready {
          StoreConserves(s, id, s.senders[id].message);
          WakeKeepsMessages(Stored(s, id, s.senders[id].message), wakes);
        }
      case SpuriousWake(w) => SpuriousKeepsInv(s, w);
      case TryPop => PopConserves(s);
      case _ =>
        if s.ready {
          TakeConserves(s);
          WakeKeepsMessages(Taken(s), step.wakes);
          TakeWakesSender(s, step.wakes);
        } else {
          ReaderStepKeepsSenders(s, Next(s, step));
        }
    }
  }

  lemma {:induction false} SpuriousKeepsInv(s: State, w: Waiter)
    requires Inv(s) && IsAsleep(s, w)
    ensures Inv(Wake(s, Some(w)))
  {
    WakeKeepsMessages(s, Some(w));
    var t := Wake(s, Some(w));
    if id :| SenderOf(t, id).Asleep? && !s.ready {
      assert SenderOf(s, id).Asleep?;
      var id' :| SenderOf(s, id').Woken?;
      assert SenderOf(t, id').Woken?;
    }
  }

  lemma {:induction false} PopConserves(s: State)
    requires Inv(s)
    ensures Inv(Next(s, TryPop))
  {
    var t := Next(s, TryPop);
    if s.queue != [] {
      assert s.queue == [s.queue[0]] + s.queue[1..];
      assert s.popped + s.queue == t.popped + t.queue;
    }
    ReaderStepKeepsSenders(s, t);
  }

  lemma {:induction false} ReaderStepKeepsSenders(s: State, t: State)
    requires NoLostWakeup(s) && t.senders == s.senders && t.ready == s.ready
    ensures NoLostWakeup(t)
  {
    assert forall id :: SenderOf(t, id) == SenderOf(s, id);
  }

  // ----- runs -----

  ghost function Run(s: State, steps: seq<Step>): (r: State)
    requires WellFormed(s)
    ensures WellFormed(r)
    decreases |steps|
  {
    if steps == [] then s else Run(Next(s, steps[0]), steps[1..])
  }

  lemma {:induction false} RunKeepsInv(s: State, steps: seq<Step>)
    requires Inv(s)
    ensures Inv(Run(s, steps))
    decreases |steps|
  {
    if steps != [] {
      NextKeepsInv(s, steps[0]);
      RunKeepsInv(Next(s, steps[0]), steps[1..]);
    }
  }

  /** In every reachable state, what was popped, then the queue, then the unread slot, are the messages sent: byte for
      byte, in the order the senders held the lock, none overwritten. */
  lemma {:induction false} MessagesConserved(data: seq<UInt8>, steps: seq<Step>)
    requires |data| == BUFFER_SIZE
    ensures var s := Run(Initial(data), steps);
            s.popped + s.queue + SlotContents(s) == s.sent && s.popped <= s.sent
  {
    RunKeepsInv(Initial(data), steps);
    var s := Run(Initial(data), steps);
    assert s.sent[..|s.popped|] == s.popped;
  }

  // ----- what is stored is what callers pass to `send` -----

  /** The message of a sender that waits. */
  function InFlight(s: State, id: nat): seq<Message> {
    if SenderOf(s, id).Away? then [] else [SenderOf(s, id).message]
  }

  /** The message of a call of `send` that starts with this step; one byte of the slot is for the terminating zero. */
  ghost function Offered(s: State, step: Step, id: nat): seq<Message>
    requires WellFormed(s)
  {
    if step.Send? && step.id == id && Enabled(s, step) && |step.message| < 1024 then [step.message] else []
  }

  /** What a step puts into the slot. */
  ghost function StoredNow(s: State, step: Step): seq<Message>
    requires WellFormed(s)
  {
    if s.ready || !Enabled(s, step) then []
    else if step.Send? && Fits(step.message) then [step.message]
    else if step.SenderChecks? then [s.senders[step.id].message]
    else []
  }

  ghost function StoredBy(s: State, step: Step, id: nat): seq<Message>
    requires WellFormed(s)
  {
    if (step.Send? || step.SenderChecks?) && step.id == id then StoredNow(s, step) else []
  }

  lemma {:induction false} WakingKeepsMessages(s: State, wakes: Option<Waiter>, id: nat)
    ensures InFlight(Wake(s, wakes), id) == InFlight(s, id) && Wake(s, wakes).sent == s.sent
  {
  }

  lemma {:induction false} StepIsAccounted(s: State, step: Step, id: nat)
    requires WellFormed(s)
    ensures StoredBy(s, step, id) + InFlight(Next(s, step), id) == InFlight(s, id) + Offered(s, step, id)
    ensures Next(s, step).sent == s.sent + StoredNow(s, step)
  {
    hide Wake, Encoded, Decoded;
    match step
    case Send(sender, m, wakes) =>
      if Fits(m) {
        WakingKeepsMessages(Stored(s, sender, m), wakes, id);
      }
    case SenderChecks(sender, wakes) =>
      if Enabled(s, step) {
        WakingKeepsMessages(Stored(s, sender, s.senders[sender].message), wakes, id);
      }
    case SpuriousWake(w) => WakingKeepsMessages(s, Some(w), id);
    case ReaderEnters(wakes) =>
      if s.ready {
        WakingKeepsMessages(Taken(s), wakes, id);
      }
    case ReaderChecks(wakes) =>
      if s.ready {
        WakingKeepsMessages(Taken(s), wakes, id);
      }
    case ReaderTimesOut(wakes) =>
      if s.ready {
        WakingKeepsMessages(Taken(s), wakes, id);
      }
    case TryPop =>
  }

  /** A step that stores or takes a message: `notify_one` is called. */
  ghost predicate Notifies(s: State, step: Step)
    requires WellFormed(s)
  {
    && Enabled(s, step)
    && match step
       case Send(_, m, _) => |m| < 1024 && !s.ready
       case SenderChecks(_, _) => !s.ready
       case ReaderEnters(_) => s.ready
       case ReaderChecks(_) => s.ready
       case ReaderTimesOut(_) => s.ready
       case _ => false
  }

  /** Such a step wakes exactly the sleeper it names, and it names one if there is any: when a message is stored or
      taken and a thread sleeps on, another one has been woken. */
  lemma {:induction false} NotifiedIsAwake(s: State, step: Step, w: Waiter)
    requires WellFormed(s) && Notifies(s, step)
    ensures step.wakes == Some(w) ==>
              !IsAsleep(Next(s, step), w)
              && match w
                 case TheReader => Next(s, step).reader.Roused?
                 case ASender(id) => SenderOf(Next(s, step), id).Woken?
    ensures IsAsleep(Next(s, step), w) ==> IsAsleep(s, w) && step.wakes.Some? && step.wakes != Some(w)
  {
    hide Encoded, Decoded;
    match step
    case Send(_, _, _) => WakesOne(Stored(s, step.id, step.message), step.wakes, w);
    case SenderChecks(_, _) => WakesOne(Stored(s, step.id, s.senders[step.id].message), step.wakes, w);
    case ReaderEnters(_) => WakesOne(Taken(s), step.wakes, w);
    case ReaderChecks(_) => WakesOne(Taken(s), step.wakes, w);
    case ReaderTimesOut(_) => WakesOne(Taken(s), step.wakes, w);
    case _ =>
  }

  lemma {:induction false} WakesOne(s: State, wakes: Option<Waiter>, w: Waiter)
    requires MayWake(s, wakes)
    ensures wakes == Some(w) ==>
              match w
              case TheReader => Wake(s, wakes).reader.Roused?
              case ASender(id) => SenderOf(Wake(s, wakes), id).Woken?
    ensures IsAsleep(Wake(s, wakes), w) ==> IsAsleep(s, w) && wakes.Some? && wakes != Some(w)
  {
  }

  ghost function AllOffered(s: State, steps: seq<Step>, id: nat): seq<Message>
    requires WellFormed(s)
    decreases |steps|
  {
    if steps == [] then [] else Offered(s, steps[0], id) + AllOffered(Next(s, steps[0]), steps[1..], id)
  }

  ghost function AllStoredBy(s: State, steps: seq<Step>, id: nat): seq<Message>
    requires WellFormed(s)
    decreases |steps|
  {
    if steps == [] then [] else StoredBy(s, steps[0], id) + AllStoredBy(Next(s, steps[0]), steps[1..], id)
  }

  ghost function AllStored(s: State, steps: seq<Step>): seq<Message>
    requires WellFormed(s)
    decreases |steps|
  {
    if steps == [] then [] else StoredNow(s, steps[0]) + AllStored(Next(s, steps[0]), steps[1..])
  }

  /** Over every run, each sender's stored messages, then the one it waits with, are exactly the messages of its calls
      of `send` with fewer than 1024 bytes, in order; and the messages sent are those stored. */
  lemma {:induction false} SendersAreAccounted(s: State, steps: seq<Step>, id: nat)
    requires WellFormed(s)
    ensures AllStoredBy(s, steps, id) + InFlight(Run(s, steps), id) == InFlight(s, id) + AllOffered(s, steps, id)
    ensures Run(s, steps).sent == s.sent + AllStored(s, steps)
    decreases |steps|
  {
    hide Next, StoredBy, StoredNow, Offered, InFlight, WellFormed;
    if steps != [] {
      var s', rest := Next(s, steps[0]), steps[1..];
      StepIsAccounted(s, steps[0], id);
      SendersAreAccounted(s', rest, id);
      var now, offer := StoredBy(s, steps[0], id), Offered(s, steps[0], id);
      assert now + AllStoredBy(s', rest, id) + InFlight(Run(s', rest), id)
          == now + (AllStoredBy(s', rest, id) + InFlight(Run(s', rest), id));
      assert now + (InFlight(s', id) + AllOffered(s', rest, id)) == now + InFlight(s', id) + AllOffered(s', rest, id);
      assert InFlight(s, id) + offer + AllOffered(s', rest, id)
          == InFlight(s, id) + (offer + AllOffered(s', rest, id));
    }
  }

  /** An unread message can be taken in every reachable state: a sleeping reader times out and finds it, whoever was
      notified. */
  lemma {:induction false} UnreadCanBeTaken(data: seq<UInt8>, steps: seq<Step>) returns (step: Step)
    requires |data| == BUFFER_SIZE
    ensures var s := Run(Initial(data), steps);
            s.ready ==> Enabled(s, step) && !Next(s, step).ready
                        && Next(s, step).queue == s.queue + [Decoded(s.data, s.size)]
  {
    RunKeepsInv(Initial(data), steps);
    var s := Run(Initial(data), steps);
    step := TryPop;
    if s.ready {
      var wakes := SomeWake(Taken(s));
      step := match s.reader
        case Outside => ReaderEnters(wakes)
        case Sleeping => ReaderTimesOut(wakes)
        case Roused => ReaderChecks(wakes);
    }
  }

  lemma {:induction false} SomeWake(s: State) returns (wakes: Option<Waiter>)
    ensures MayWake(s, wakes)
  {
    if w :| IsAsleep(s, w) {
      wakes := Some(w);
    } else {
      wakes := None;
    }
  }

  /** A sender that waits on a free slot is not stuck: some woken sender can store its message. */
  lemma {:induction false} WaitingSendersAreServed(data: seq<UInt8>, steps: seq<Step>, waiting: nat)
    returns (step: Step)
    requires |data| == BUFFER_SIZE
    ensures var s := Run(Initial(data), steps);
            !s.ready && !SenderOf(s, waiting).Away? ==>
              Enabled(s, step) && step.SenderChecks? && |Next(s, step).sent| == |s.sent| + 1
  {
    RunKeepsInv(Initial(data), steps);
    var s := Run(Initial(data), steps);
    step := TryPop;
    if !s.ready && !SenderOf(s, waiting).Away? {
      var id := waiting;
      if SenderOf(s, waiting).Asleep? {
        id :| SenderOf(s, id).Woken?;
      }
      var wakes := SomeWake(Stored(s, id, s.senders[id].message));
      step := SenderChecks(id, wakes);
    }
  }

  // ----- the shared buffer and the queue -----

  class SharedBuffer {
    const data: array<UInt8>
    var dataSize: nat
    var dataReady: bool

    ghost predicate Valid()
      reads this
    {
      data.Length == BUFFER_SIZE && (dataReady ==> 0 < dataSize <= BUFFER_SIZE)
    }

    constructor ()
      ensures Valid() && !dataReady && dataSize == 0 && fresh(data)
    {
      data := new UInt8[BUFFER_SIZE](_ => 0);
      dataSize, dataReady := 0, false;
    }

    /** The locked part of `send`, once the slot is free; a message that does not fit is refused beforehand. */
    method Store(message: Message)
      requires Valid() && !dataReady && Fits(message)
      modifies this, data
      ensures Valid() && dataReady && dataSize == |message| + 1 && data[..] == Encoded(old(data[..]), message)
    {
      forall i | 0 <= i < |message| {
        data[i] := message[i];
      }
      data[|message|] := 0;
      dataSize := |message| + 1;
      dataReady := true;
    }

    /** The locked part of the reader thread, once a message is there. */
    method Take(queue: MessageQueue) returns (message: Message)
      requires Valid() && dataReady
      modifies this, queue
      ensures Valid() && !dataReady && dataSize == old(dataSize) && data[..] == old(data[..])
      ensures message == Decoded(data[..], old(dataSize))
      ensures queue.messages == old(queue.messages) + [message]
    {
      message := data[..dataSize - 1];
      dataReady := false;
      queue.Push(message);
    }
  }

  class MessageQueue {
    var messages: seq<Message>

    constructor ()
      ensures messages == []
    {
      messages := [];
    }

    method Push(message: Message)
      modifies this
      ensures messages == old(messages) + [message]
    {
      messages := messages + [message];
    }

    method TryPop() returns (message: Option<Message>)
      modifies this
      ensures old(messages) == [] ==> message == None && messages == []
      ensures old(messages) != [] ==> message == Some(old(messages)[0]) && messages == old(messages)[1..]
    {
      if messages == [] {
        return None;
      }
      message := Some(messages[0]);
      messages := messages[1..];
    }
  }

  /** The mailbox with its threads. A call of `send` or a turn of the reader is one or more locked sections; `wakes` is
      the sleeper that the section's notification reaches. */
  class SharedMemory {
    const buffer: SharedBuffer
    const queue: MessageQueue
    var senders: map<nat, Sender>
    var reader: Reader
    ghost var popped: seq<Message>
    ghost var sent: seq<Message>

    ghost function View(): State
      reads this, buffer, buffer.data, queue
    {
      State(buffer.data[..], buffer.dataSize, buffer.dataReady, senders, reader, queue.messages, popped, sent)
    }

    ghost predicate Valid()
      reads this, buffer, buffer.data, queue
    {
      buffer.Valid() && Inv(View())
    }

    constructor ()
      ensures Valid() && View() == Initial(buffer.data[..])
      ensures fresh(buffer) && fresh(buffer.data) && fresh(queue)
    {
      buffer := new SharedBuffer();
      queue := new MessageQueue();
      senders, reader, popped, sent := map[], Outside, [], [];
      new;
      InitialInv(buffer.data[..]);
    }

    method Notify(wakes: Option<Waiter>)
      modifies `senders, `reader
      ensures View() == Wake(old(View()), wakes)
    {
      match wakes {
        case None =>
        case Some(TheReader) => reader := Roused;
        case Some(ASender(id)) =>
          if id in senders && senders[id].Asleep? {
            senders := senders[id := Woken(senders[id].message)];
          }
      }
    }

    method StoreAndNotify(id: nat, message: Message, wakes: Option<Waiter>)
      requires buffer.Valid() && !buffer.dataReady && Fits(message)
      modifies this, buffer, buffer.data
      ensures buffer.Valid() && View() == Wake(Stored(old(View()), id, message), wakes)
    {
      buffer.Store(message);
      senders, sent := senders[id := Away], sent + [message];
      assert View() == Stored(old(View()), id, message);
      Notify(wakes);
    }

    method TakeAndNotify(wakes: Option<Waiter>)
      requires buffer.Valid() && buffer.dataReady
      modifies this, buffer, buffer.data, queue
      ensures buffer.Valid() && View() == Wake(Taken(old(View())), wakes)
    {
      var message := buffer.Take(queue);
      reader := Outside;
      assert View() == Taken(old(View()));
      Notify(wakes);
    }

    /** The first locked section of `send`; false means the message does not fit. */
    method Send(id: nat, message: Message, wakes: Option<Waiter>) returns (ok: bool)
      requires Valid() && Enabled(View(), Step.Send(id, message, wakes))
      modifies this, buffer, buffer.data
      ensures Valid() && View() == Next(old(View()), Step.Send(id, message, wakes))
      ensures ok == (|message| < 1024)
    {
      NextKeepsInv(View(), Step.Send(id, message, wakes));
      if |message| + 1 > BUFFER_SIZE {
        return false;
      }
      if buffer.dataReady {
        senders := senders[id := Asleep(message)];
      } else {
        StoreAndNotify(id, message, wakes);
      }
      return true;
    }

    /** A woken sender has the lock again and tests the slot. */
    method SenderChecks(id: nat, wakes: Option<Waiter>)
      requires Valid() && Enabled(View(), Step.SenderChecks(id, wakes))
      modifies this, buffer, buffer.data
      ensures Valid() && View() == Next(old(View()), Step.SenderChecks(id, wakes))
    {
      NextKeepsInv(View(), Step.SenderChecks(id, wakes));
      var message := senders[id].message;
      if buffer.dataReady {
        senders := senders[id := Asleep(message)];
      } else {
        StoreAndNotify(id, message, wakes);
      }
    }

    /** The reader tests the slot: on entry, when roused, or when its wait times out and it gives up. */
    method ReaderTests(step: Step)
      requires step.ReaderEnters? || step.ReaderChecks? || step.ReaderTimesOut?
      requires Valid() && Enabled(View(), step)
      modifies this, buffer, buffer.data, queue
      ensures Valid() && View() == Next(old(View()), step)
    {
      NextKeepsInv(View(), step);
      if buffer.dataReady {
        TakeAndNotify(step.wakes);
      } else {
        reader := if step.ReaderTimesOut? then Outside else Sleeping;
      }
    }

    /** The message loop takes the oldest queued message. */
    method TryPop() returns (message: Option<Message>)
      requires Valid()
      modifies this, queue
      ensures Valid() && View() == Next(old(View()), Step.TryPop)
      ensures message == if old(queue.messages) == [] then None else Some(old(queue.messages)[0])
    {
      NextKeepsInv(View(), Step.TryPop);
      message := queue.TryPop();
      if message.Some? {
        popped := popped + [message.value];
      }
    }
  }
}
