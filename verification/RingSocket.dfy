// The ring buffer between the socket thread, which fills it, and the emulator, which reads
// it.  Only the byte count is updated under the lock.  Each method below is one step that
// the other thread cannot divide; a run is any interleaving of such steps.
module RingSocket {

  import opened Words

  const RING_BUFFER_SIZE := 128

  // Where the socket thread is.
  datatype Producer =
    | Polling                         // no data taken up yet
    | Waiting                         // on the condition variable
    | Unlocked(avail: nat)            // lock released with this much space seen
    | Reading(room: nat, done: nat)   // in read(), with done of at most room bytes copied
    | Copied(count: nat)              // read() has returned
    | Advanced(count: nat)            // the write index is updated, the count is not
    | Stopped

  // Where the emulator is in reading a byte.
  datatype Consumer = Resting | Taking | Took(data: Byte)

  // What a run is made of: who takes the next step, and what the socket does.
  datatype Action =
    | DataReady | Wake | CheckShutdown | CopyByte(data: Byte) | ReadReturns | Advance | Publish
    | CheckCount | TakeByte | Release | Shutdown

  // What the two threads see and hold, but for the slots of the ring: these are determined by
  // the bytes received and delivered.
  datatype View = View(readIdx: nat, writeIdx: nat, numBytes: nat, shutdown: bool, producer: Producer,
                       consumer: Consumer, signalled: bool, received: seq<Byte>, delivered: seq<Byte>)

  // Whether a step can be taken.
  predicate Enabled(v: View, action: Action) {
    match action
    case DataReady => v.producer == Polling
    case Wake => v.producer == Waiting
    case CheckShutdown => v.producer.Unlocked?
    case CopyByte(_) => v.producer.Reading? && v.producer.done < v.producer.room
    case ReadReturns => v.producer.Reading?
    case Advance => v.producer.Copied?
    case Publish => v.producer.Advanced?
    case CheckCount => v.consumer == Resting
    case TakeByte => v.consumer == Taking && |v.delivered| < |v.received|
    case Release => v.consumer.Took? && v.numBytes > 0
    case Shutdown => v.consumer == Resting
  }

  // The space the socket thread sees, if it need not wait for any.
  function Tested(v: View): View {
    if v.numBytes >= RING_BUFFER_SIZE && !v.shutdown then v.(producer := Waiting, signalled := false)
    else v.(producer := Unlocked(if v.numBytes < RING_BUFFER_SIZE then RING_BUFFER_SIZE - v.numBytes else 0))
  }

  // An index moved on, around the ring.
  function Around(i: nat, n: nat): nat {
    if i + n >= RING_BUFFER_SIZE then i + n - RING_BUFFER_SIZE else i + n
  }

  // One step; a step that cannot be taken leaves things as they are.
  function Next(v: View, action: Action): View {
    if !Enabled(v, action) then v
    else
      match action
      case DataReady => Tested(v)
      case Wake => Tested(v)
      case CheckShutdown =>
        var end := if v.writeIdx <= RING_BUFFER_SIZE then RING_BUFFER_SIZE - v.writeIdx else 0;
        if v.shutdown then v.(producer := Stopped)
        else v.(producer := Reading(if v.producer.avail < end then v.producer.avail else end, 0))
      case CopyByte(data) =>
        v.(received := v.received + [data], producer := v.producer.(done := v.producer.done + 1))
      case ReadReturns => v.(producer := if v.producer.done > 0 then Copied(v.producer.done) else Polling)
      case Advance =>
        v.(writeIdx := Around(v.writeIdx, v.producer.count), producer := Advanced(v.producer.count))
      case Publish => v.(numBytes := v.numBytes + v.producer.count, producer := Polling)
      case CheckCount => v.(consumer := if v.numBytes == 0 then Resting else Taking)
      case TakeByte => v.(readIdx := Around(v.readIdx, 1), consumer := Took(v.received[|v.delivered|]))
      case Release =>
        v.(delivered := v.delivered + [v.consumer.data], numBytes := v.numBytes - 1, signalled := true,
           consumer := Resting)
      case Shutdown => v.(shutdown := true, signalled := true)
  }

  function Played(v: View, schedule: seq<Action>): View
    decreases |schedule|
  {
    if schedule == [] then v else Played(Next(v, schedule[0]), schedule[1..])
  }

  // The bytes the socket gives in a run, and those the emulator gets.
  function Given(v: View, schedule: seq<Action>): seq<Byte>
    decreases |schedule|
  {
    if schedule == [] then []
    else
      (if schedule[0].CopyByte? && Enabled(v, schedule[0]) then [schedule[0].data] else [])
      + Given(Next(v, schedule[0]), schedule[1..])
  }

  function Gotten(v: View, schedule: seq<Action>): seq<Byte>
    decreases |schedule|
  {
    if schedule == [] then []
    else
      (if schedule[0].Release? && Enabled(v, schedule[0]) then [v.consumer.data] else [])
      + Gotten(Next(v, schedule[0]), schedule[1..])
  }

  lemma StepBytes(v: View, action: Action)
    ensures Next(v, action).received ==
            v.received + if action.CopyByte? && Enabled(v, action) then [action.data] else []
    ensures Next(v, action).delivered ==
            v.delivered + if action.Release? && Enabled(v, action) then [v.consumer.data] else []
  {
    hide Around;
    assert v.received + [] == v.received && v.delivered + [] == v.delivered;
  }

  lemma TakesByte(v: View)
    requires Enabled(v, Action.TakeByte)
    ensures Next(v, Action.TakeByte) ==
            v.(readIdx := Around(v.readIdx, 1), consumer := Took(v.received[|v.delivered|]))
  {
    hide Around;
  }

  // A run receives just the former and delivers just the latter.
  lemma {:induction false} PlayedBytes(v: View, schedule: seq<Action>)
    ensures Played(v, schedule).received == v.received + Given(v, schedule)
    ensures Played(v, schedule).delivered == v.delivered + Gotten(v, schedule)
    decreases |schedule|
  {
    if schedule != [] {
      StepBytes(v, schedule[0]);
      hide Next;
      PlayedBytes(Next(v, schedule[0]), schedule[1..]);
    }
  }

  // The k-th slot after slot r.
  function Slot(r: nat, k: nat): (s: nat)
    requires r < RING_BUFFER_SIZE && k <= RING_BUFFER_SIZE
    ensures s < RING_BUFFER_SIZE
  {
    if r + k < RING_BUFFER_SIZE then r + k else r + k - RING_BUFFER_SIZE
  }

  class UnixSocket {
    var readIdx: nat
    var writeIdx: nat
    var numBytes: nat
    const buffer: array<Byte>
    var shutdown: bool
    var producer: Producer
    var consumer: Consumer
    // Whether the condition was signalled since the socket thread went to wait for it.
    ghost var signalled: bool
    // All bytes read from sockets, of one client after another, and all that were passed on.
    ghost var received: seq<Byte>
    ghost var delivered: seq<Byte>

    constructor ()
      ensures Valid() && received == [] && delivered == [] && fresh(buffer) && buffer.Length == 128
    {
      readIdx, writeIdx, numBytes := 0, 0, 0;
      buffer := new Byte[RING_BUFFER_SIZE](_ => 0);
      shutdown, signalled := false, false;
      producer, consumer := Polling, Resting;
      received, delivered := [], [];
    }

    ghost function State(): View
      reads this
    {
      View(readIdx, writeIdx, numBytes, shutdown, producer, consumer, signalled, received, delivered)
    }

    // Bytes in the ring that are not counted yet.
    ghost function InFlight(): nat
      reads this
    {
      match producer
      case Reading(_, done) => done
      case Copied(n) => n
      case Advanced(n) => n
      case _ => 0
    }

    // Bytes that were taken from the ring but are still counted.
    ghost function InHand(): nat
      reads this
    {
      if consumer.Took? then 1 else 0
    }

    // Unread bytes in the ring that are counted.
    ghost function Published(): int
      reads this
    {
      numBytes - InHand()
    }

    ghost predicate IndicesValid()
      reads this
    {
      && readIdx < RING_BUFFER_SIZE && writeIdx < RING_BUFFER_SIZE
      && 0 <= Published() && numBytes + InFlight() <= RING_BUFFER_SIZE
      && writeIdx == Slot(readIdx, Published() + if producer.Advanced? then InFlight() else 0)
    }

    ghost predicate ProducerValid()
      reads this
    {
      match producer
      case Waiting => signalled || (numBytes == RING_BUFFER_SIZE && !shutdown)
      case Unlocked(avail) => numBytes + avail <= RING_BUFFER_SIZE && (avail > 0 || shutdown)
      case Reading(room, done) =>
        done <= room && numBytes + room <= RING_BUFFER_SIZE && writeIdx + room <= RING_BUFFER_SIZE
      case Copied(n) => n > 0 && writeIdx + n <= RING_BUFFER_SIZE
      case _ => true
    }

    ghost predicate ConsumerValid()
      reads this
    {
      match consumer
      case Resting => true
      case Taking => numBytes > 0
      case Took(data) => |delivered| < |received| && data == received[|delivered|]
    }

    // Nothing is lost, repeated or overwritten: what was received is what was delivered,
    // the byte in hand and, from the read index on, what the ring holds.
    ghost predicate Conserved()
      requires IndicesValid() && buffer.Length == RING_BUFFER_SIZE
      reads this, buffer
    {
      && |received| == |delivered| + InHand() + Published() + InFlight()
      && delivered == received[..|delivered|]
      && forall k :: 0 <= k < Published() + InFlight() ==>
           buffer[Slot(readIdx, k)] == received[|delivered| + InHand() + k]
    }

    ghost predicate Valid()
      reads this, buffer
    {
      && buffer.Length == RING_BUFFER_SIZE
      && IndicesValid() && ProducerValid() && ConsumerValid() && Conserved()
    }

    // Data is ready: lock, and either find space or go to wait for it.
    method DataReady()
      requires Valid() && producer == Polling
      modifies this
      ensures Valid() && received == old(received) && delivered == old(delivered)
      ensures unchanged(`readIdx, `writeIdx, `numBytes, `shutdown, `consumer)
      ensures producer == if old(numBytes == RING_BUFFER_SIZE && !shutdown) then Waiting
                          else Unlocked(RING_BUFFER_SIZE - old(numBytes))
      ensures State() == Next(old(State()), Action.DataReady)
    {
      var avail := RING_BUFFER_SIZE - numBytes;
      if avail == 0 && !shutdown {
        producer, signalled := Waiting, false;
      } else {
        producer := Unlocked(avail);
      }
    }

    // The wait ends, with or without a signal, and the condition is tested again.
    method Wake()
      requires Valid() && producer == Waiting
      modifies this
      ensures Valid() && received == old(received) && delivered == old(delivered)
      ensures unchanged(`readIdx, `writeIdx, `numBytes, `shutdown, `consumer)
      ensures producer == if old(numBytes == RING_BUFFER_SIZE && !shutdown) then Waiting
                          else Unlocked(RING_BUFFER_SIZE - old(numBytes))
      ensures State() == Next(old(State()), Action.Wake)
    {
      var avail := RING_BUFFER_SIZE - numBytes;
      if avail == 0 && !shutdown {
        signalled := false;
      } else {
        producer := Unlocked(avail);
      }
    }

    // Stop on a shutdown; otherwise read into the space seen, up to the buffer's end.
    method CheckShutdown()
      requires Valid() && producer.Unlocked?
      modifies this
      ensures Valid() && received == old(received) && delivered == old(delivered)
      ensures unchanged(`readIdx, `writeIdx, `numBytes, `shutdown, `consumer)
      ensures shutdown ==> producer == Stopped
      ensures !shutdown ==> producer.Reading? && 0 < producer.room <= old(producer.avail) && producer.done == 0
      ensures State() == Next(old(State()), Action.CheckShutdown)
    {
      if shutdown {
        producer := Stopped;
      } else {
        var avail := producer.avail;
        if writeIdx + avail >= RING_BUFFER_SIZE {
          avail := RING_BUFFER_SIZE - writeIdx;
        }
        producer := Reading(avail, 0);
      }
    }

    // read() copies the next byte from the socket.
    method CopyByte(data: Byte)
      requires Valid() && producer.Reading? && producer.done < producer.room
      modifies this, buffer
      ensures Valid() && received == old(received) + [data] && delivered == old(delivered)
      ensures unchanged(`readIdx, `writeIdx, `numBytes, `shutdown, `consumer)
      ensures producer == old(producer).(done := old(producer).done + 1)
      ensures State() == Next(old(State()), Action.CopyByte(data))
    {
      buffer[writeIdx + producer.done] := data;
      received := received + [data];
      producer := producer.(done := producer.done + 1);
    }

    // read() returns; nothing read means that the client is gone, and the next one follows.
    method ReadReturns()
      requires Valid() && producer.Reading?
      modifies this
      ensures Valid() && received == old(received) && delivered == old(delivered)
      ensures unchanged(`readIdx, `writeIdx, `numBytes, `shutdown, `consumer)
      ensures producer == if old(producer).done > 0 then Copied(old(producer).done) else Polling
      ensures State() == Next(old(State()), Action.ReadReturns)
    {
      producer := if producer.done > 0 then Copied(producer.done) else Polling;
    }

    // Moves the write index, without the lock.
    method Advance()
      requires Valid() && producer.Copied?
      modifies this
      ensures Valid() && received == old(received) && delivered == old(delivered)
      ensures unchanged(`readIdx, `numBytes, `shutdown, `consumer)
      ensures producer == Advanced(old(producer).count)
      ensures State() == Next(old(State()), Action.Advance)
    {
      writeIdx := writeIdx + producer.count;
      if writeIdx >= RING_BUFFER_SIZE {
        writeIdx := writeIdx - RING_BUFFER_SIZE;
      }
      producer := Advanced(producer.count);
    }

    // Counts the new bytes, under the lock.
    method Publish()
      requires Valid() && producer.Advanced?
      modifies this
      ensures Valid() && received == old(received) && delivered == old(delivered)
      ensures unchanged(`readIdx, `writeIdx, `shutdown, `consumer)
      ensures numBytes == old(numBytes) + old(producer).count && producer == Polling
      ensures State() == Next(old(State()), Action.Publish)
    {
      numBytes := numBytes + producer.count;
      producer := Polling;
    }

    // A read starts, without the lock; there may be nothing to read.
    method CheckCount() returns (empty: bool)
      requires Valid() && consumer == Resting
      modifies this
      ensures Valid() && received == old(received) && delivered == old(delivered)
      ensures unchanged(`readIdx, `writeIdx, `numBytes, `shutdown, `producer, `signalled)
      ensures empty <==> numBytes == 0
      ensures consumer == if empty then Resting else Taking
      ensures State() == Next(old(State()), Action.CheckCount)
    {
      empty := numBytes == 0;
      if !empty {
        consumer := Taking;
      }
    }

    // Takes the byte at the read index, without the lock.
    method TakeByte()
      requires Valid() && consumer == Taking
      modifies this
      ensures Valid() && received == old(received) && delivered == old(delivered)
      ensures unchanged(`writeIdx, `numBytes, `shutdown, `producer, `signalled)
      ensures |delivered| < |received| && consumer == Took(received[|delivered|])
      ensures State() == Next(old(State()), Action.TakeByte)
    {
      hide Next;
      ghost var first := Slot(readIdx, 0);
      assert buffer[first] == received[|delivered| + InHand() + 0];
      var data := buffer[readIdx];
      readIdx := readIdx + 1;
      if readIdx == RING_BUFFER_SIZE {
        readIdx := 0;
      }
      consumer := Took(data);
      assert Conserved() by {
        forall k | 0 <= k < Published() + InFlight()
          ensures buffer[Slot(readIdx, k)] == received[|delivered| + InHand() + k]
        {
          assert Slot(readIdx, k) == Slot(old(readIdx), k + 1);
        }
      }
      hide Conserved, Slot;
      assert State() == Next(old(State()), Action.TakeByte) by {
        TakesByte(old(State()));
      }
    }

    // Gives the slot back and signals the socket thread, under the lock; the read is over.
    method Release() returns (data: Byte)
      requires Valid() && consumer.Took?
      modifies this
      ensures Valid() && received == old(received) && delivered == old(delivered) + [data]
      ensures data == old(received[|delivered|])
      ensures unchanged(`readIdx, `writeIdx, `shutdown, `producer)
      ensures numBytes == old(numBytes) - 1 && signalled && consumer == Resting
      ensures State() == Next(old(State()), Action.Release)
    {
      data := consumer.data;
      delivered := delivered + [data];
      numBytes := numBytes - 1;
      signalled := true;
      consumer := Resting;
    }

    // Asks the socket thread to stop, under the lock.
    method Shutdown()
      requires Valid() && consumer == Resting
      modifies this
      ensures Valid() && received == old(received) && delivered == old(delivered)
      ensures unchanged(`readIdx, `writeIdx, `numBytes, `producer, `consumer)
      ensures shutdown && signalled
      ensures State() == Next(old(State()), Action.Shutdown)
    {
      shutdown := true;
      signalled := true;
    }

    // One step of a run; a step that cannot be taken now leaves things as they are.
    method Step(action: Action)
      requires Valid()
      modifies this, buffer
      ensures Valid() && old(received) <= received && old(delivered) <= delivered
      ensures old(shutdown) ==> shutdown
      ensures State() == Next(old(State()), action)
    {
      match action
      case DataReady => if producer == Polling { DataReady(); }
      case Wake => if producer == Waiting { Wake(); }
      case CheckShutdown => if producer.Unlocked? { CheckShutdown(); }
      case CopyByte(data) => if producer.Reading? && producer.done < producer.room { CopyByte(data); }
      case ReadReturns => if producer.Reading? { ReadReturns(); }
      case Advance => if producer.Copied? { Advance(); }
      case Publish => if producer.Advanced? { Publish(); }
      case CheckCount => if consumer == Resting { var _ := CheckCount(); }
      case TakeByte => if consumer == Taking { TakeByte(); }
      case Release => if consumer.Took? { var _ := Release(); }
      case Shutdown => if consumer == Resting { Shutdown(); }
    }

    // In every run the bytes delivered are the first of those received, the rest is in hand
    // or in the ring, and the socket thread never waits without a reason to or a signal.  The
    // bytes received are those before and those the socket gave, the bytes delivered those
    // before and those the emulator got.
    method Run(schedule: seq<Action>)
      requires Valid()
      modifies this, buffer
      ensures Valid() && delivered <= received
      ensures |received| - |delivered| == numBytes + InFlight()
      ensures producer == Waiting && !signalled ==> numBytes == RING_BUFFER_SIZE && !shutdown
      ensures State() == Played(old(State()), schedule)
      ensures received == old(received) + Given(old(State()), schedule)
      ensures delivered == old(delivered) + Gotten(old(State()), schedule)
    {
      hide Next, Given, Gotten;
      for i := 0 to |schedule|
        invariant Valid() && Played(State(), schedule[i..]) == Played(old(State()), schedule)
      {
        assert schedule[i..][0] == schedule[i] && schedule[i..][1..] == schedule[i + 1..];
        Step(schedule[i]);
      }
      PlayedBytes(old(State()), schedule);
    }

    // Read as the emulator calls it, with nothing in between: the oldest byte, or FF if
    // there is none.
    method Read() returns (data: Byte)
      requires Valid() && consumer == Resting
      modifies this
      ensures Valid() && consumer == Resting && received == old(received)
      ensures old(numBytes) == 0 ==> data == 0xFF && delivered == old(delivered)
      ensures old(numBytes) > 0 ==> data == old(received[|delivered|]) && delivered == old(delivered) + [data]
      ensures numBytes == if old(numBytes) > 0 then old(numBytes) - 1 else 0
      ensures unchanged(`producer)
    {
      var empty := CheckCount();
      if empty {
        return 0xFF;
      }
      TakeByte();
      data := Release();
    }

    // Once the socket thread has nothing in flight, reading the counted bytes yields all
    // that is left of what was received.
    method Drain() returns (rest: seq<Byte>)
      requires Valid() && consumer == Resting && InFlight() == 0
      modifies this
      ensures Valid() && delivered == received == old(received)
      ensures old(delivered) + rest == received
    {
      rest := [];
      while numBytes > 0
        invariant Valid() && consumer == Resting && InFlight() == 0
        invariant received == old(received) && delivered == old(delivered) + rest
        decreases numBytes
      {
        var data := Read();
        rest := rest + [data];
      }
    }
  }
}
