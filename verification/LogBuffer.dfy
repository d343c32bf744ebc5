/** The buffered log writer: writers add records under a lock, remember whether they owe a flush, and pay it under the
    lock later. In between other writers, the timer and Close may take the lock. */
module LogBuffer {
  import opened Basics

  datatype LogRecord = LogRecord(message: string, level: string, timestamp: string)

  /** The writer as seen between two critical sections. batches are the lists handed to senders, oldest first; owing are
      the writers that have left the first critical section of Write with a flush still to do. */
  datatype Log = Log(url: string, capacity: int, buffer: seq<LogRecord>, batches: seq<seq<LogRecord>>, owing: set<nat>)

  predicate ShouldFlush(url: string, capacity: int, buffered: nat) {
    if url == "" then false
    else if buffered == 0 then false
    else buffered >= capacity
  }

  datatype Step =
    | Append(writer: nat, record: LogRecord)
    | OwedFlush(writer: nat)
    | TimerFlush
    | Close
    | Start(url: string)

  predicate CanTake(s: Log, step: Step) {
    match step
    case Append(writer, _) => writer !in s.owing
    case OwedFlush(writer) => writer in s.owing
    case TimerFlush => true
    case Close => true
    case Start(_) => true
  }

  function Appended(s: Log, record: LogRecord): Log {
    s.(buffer := s.buffer + [record])
  }

  function Flushed(s: Log): Log {
    if s.buffer == [] then s else s.(buffer := [], batches := s.batches + [s.buffer])
  }

  function Take(s: Log, step: Step): Log {
    match step
    case Append(writer, record) =>
      var s' := Appended(s, record);
      if ShouldFlush(s.url, s.capacity, |s'.buffer|) then s'.(owing := s.owing + {writer}) else s'
    case OwedFlush(writer) => Flushed(s).(owing := s.owing - {writer})
    case TimerFlush => Flushed(s)
    case Close => Flushed(s)
    case Start(url) => s.(url := url)
  }

  function TakeAll(s: Log, steps: seq<Step>): Log {
    if steps == [] then s else Take(TakeAll(s, steps[..|steps| - 1]), steps[|steps| - 1])
  }

  predicate CanTakeAll(s: Log, steps: seq<Step>) {
    if steps == [] then true
    else
      && CanTakeAll(s, steps[..|steps| - 1])
      && CanTake(TakeAll(s, steps[..|steps| - 1]), steps[|steps| - 1])
  }

  /** The records of a run in the order in which the lock let them in. */
  function Written(steps: seq<Step>): seq<LogRecord> {
    if steps == [] then []
    else
      var last := steps[|steps| - 1];
      Written(steps[..|steps| - 1]) + WrittenBy(last)
  }

  function NewLog(capacity: int): Log {
    Log("", capacity, [], [], {})
  }

  /** The largest number of records that stay in the buffer while no writer owes a flush. */
  function Resting(capacity: int): int {
    Max(capacity, 1) - 1
  }

  class HTTPWriter {
    var url: string
    const capacity: int
    const flushInterval: int
    /** The array behind the buffer, of which the first len places are in use: truncating keeps the array. */
    var store: array<LogRecord>
    var len: nat
    var lastFlushTime: int
    /** What the senders hold, and what each batch said when it was handed over. */
    ghost var handed: seq<array<LogRecord>>
    ghost var batches: seq<seq<LogRecord>>

    ghost predicate Valid()
      reads this, handed
    {
      && len <= store.Length
      && store !in handed
      && |handed| == |batches|
      && forall i :: 0 <= i < |handed| ==> handed[i][..] == batches[i]
    }

    ghost function Buffer(): seq<LogRecord>
      reads this, store
      requires len <= store.Length
    {
      store[..len]
    }

    ghost predicate Is(s: Log)
      reads this, store, handed
    {
      Valid() && s.url == url && s.capacity == capacity && s.buffer == Buffer() && s.batches == batches
    }

    constructor (capacity: int, flushInterval: int, now: int)
      ensures Is(NewLog(capacity)) && fresh(store)
      ensures this.flushInterval == flushInterval && lastFlushTime == now
    {
      this.url, this.capacity, this.flushInterval := "", capacity, flushInterval;
      store := new LogRecord[0];
      len := 0;
      lastFlushTime := now;
      handed, batches := [], [];
    }

    method SetUrl(url: string, ghost s: Log)
      requires Is(s)
      modifies this`url
      ensures Is(Take(s, Start(url)))
    {
      this.url := url;
    }

    /** append: in place while the array has room, else into a larger copy. */
    method Push(record: LogRecord, ghost s: Log)
      requires Is(s)
      modifies this`store, this`len, store
      ensures Is(Appended(s, record))
      ensures store == old(store) || fresh(store)
    {
      if len == store.Length {
        var room: int :| room > len;
        var larger := new LogRecord[room];
        forall i | 0 <= i < len {
          larger[i] := store[i];
        }
        store := larger;
      }
      store[len] := record;
      len := len + 1;
    }

    /** The first critical section of Write. */
    method Add(writer: nat, record: LogRecord, ghost s: Log) returns (owes: bool)
      requires Is(s) && CanTake(s, Append(writer, record))
      modifies this`store, this`len, store
      ensures Is(Take(s, Append(writer, record)))
      ensures Take(s, Append(writer, record)).owing == if owes then s.owing + {writer} else s.owing
      ensures store == old(store) || fresh(store)
    {
      Push(record, s);
      owes := ShouldFlush(url, capacity, len);
    }

    /** Hands a copy of the buffer to a new sender and keeps the array for the next records. */
    method Flush(now: int, ghost s: Log)
      requires Is(s)
      modifies this`len, this`lastFlushTime, this`handed, this`batches
      ensures Is(Flushed(s))
      ensures old(handed) <= handed && forall i :: |old(handed)| <= i < |handed| ==> fresh(handed[i])
      ensures lastFlushTime == if s.buffer == [] then old(lastFlushTime) else now
      ensures len == 0 && batches == if old(len) == 0 then old(batches) else old(batches) + [old(Buffer())]
    {
      if len == 0 {
        return;
      }
      var logs := new LogRecord[len];
      forall i | 0 <= i < len {
        logs[i] := store[i];
      }
      assert logs[..] == Buffer();
      len := 0;
      lastFlushTime := now;
      handed, batches := handed + [logs], batches + [s.buffer];
    }

    /** Write of a writer that nobody interrupts. */
    method Write(writer: nat, record: LogRecord, now: int, ghost s: Log)
      requires Is(s) && writer !in s.owing
      modifies this, store
      ensures url == old(url) && (store == old(store) || fresh(store))
      ensures var added := Appended(s, record);
              Is(if ShouldFlush(url, capacity, |added.buffer|) then Flushed(added) else added)
      // with a known address a full buffer is handed over at once, otherwise the record waits behind the others
      ensures url != "" && old(len) + 1 >= capacity ==>
                Buffer() == [] && batches == old(batches) + [old(Buffer()) + [record]]
      ensures url == "" || old(len) + 1 < capacity ==>
                Buffer() == old(Buffer()) + [record] && batches == old(batches)
    {
      var owes := Add(writer, record, s);
      if owes {
        Flush(now, Appended(s, record));
      }
    }

    method Tick(now: int, ghost s: Log)
      requires Is(s)
      modifies this`len, this`lastFlushTime, this`handed, this`batches
      ensures Is(if now - old(lastFlushTime) >= flushInterval then Take(s, TimerFlush) else s)
      // a tick that is due empties the buffer, and whatever was in it is with a sender
      ensures now - old(lastFlushTime) >= flushInterval ==>
                len == 0 && batches == if old(len) == 0 then old(batches) else old(batches) + [old(Buffer())]
    {
      if now - lastFlushTime >= flushInterval {
        Flush(now, s);
      }
    }

    method Shut(now: int, ghost s: Log)
      requires Is(s)
      modifies this`len, this`lastFlushTime, this`handed, this`batches
      ensures Is(Take(s, Close)) && len == 0
      ensures batches == if old(len) == 0 then old(batches) else old(batches) + [old(Buffer())]
    {
      Flush(now, s);
    }
  }

  /** The record a step writes. */
  function WrittenBy(step: Step): seq<LogRecord> { if step.Append? then [step.record] else [] }

  lemma FlushedKeepsRecords(s: Log)
    ensures Concat(Flushed(s).batches) + Flushed(s).buffer == Concat(s.batches) + s.buffer
  {
    if s.buffer != [] {
      var longer := s.batches + [s.buffer];
      assert longer[..|longer| - 1] == s.batches;
      AddNothing(Concat(longer));
    }
  }

  lemma StepKeepsRecords(s: Log, step: Step)
    ensures Concat(Take(s, step).batches) + Take(s, step).buffer == Concat(s.batches) + s.buffer + WrittenBy(step)
  {
    var s' := Take(s, step);
    if step.Append? {
      assert s'.batches == s.batches && s'.buffer == s.buffer + [step.record];
      Regroup(Concat(s.batches), s.buffer, [step.record]);
    } else {
      FlushedKeepsRecords(s);
      assert (s'.batches, s'.buffer) == (s.batches, s.buffer)
          || (s'.batches, s'.buffer) == (Flushed(s).batches, Flushed(s).buffer);
      AddNothing(Concat(s.batches) + s.buffer);
    }
  }

  lemma Regroup<T>(a: seq<T>, b: seq<T>, c: seq<T>)
    ensures a + (b + c) == a + b + c
  {
  }

  lemma AddNothing<T>(a: seq<T>)
    ensures a + [] == a
  {
  }

  /** No interleaving loses, repeats or reorders a record: what the senders were handed, followed by what is still
      buffered, is what was written. */
  lemma {:induction false} RecordsKept(s: Log, steps: seq<Step>)
    ensures var s' := TakeAll(s, steps);
            Concat(s'.batches) + s'.buffer == Concat(s.batches) + s.buffer + Written(steps)
  {
    if steps == [] {
      AddNothing(Concat(s.batches) + s.buffer);
    } else {
      var n := |steps| - 1;
      RecordsKept(s, steps[..n]);
      StepKeepsRecords(TakeAll(s, steps[..n]), steps[n]);
      Regroup(Concat(s.batches) + s.buffer, Written(steps[..n]), WrittenBy(steps[n]));
    }
  }

  lemma {:induction false} NoEmptyBatch(s: Log, steps: seq<Step>)
    requires [] !in s.batches
    ensures [] !in TakeAll(s, steps).batches
  {
    if steps != [] {
      NoEmptyBatch(s, steps[..|steps| - 1]);
    }
  }

  predicate Started(s: Log, steps: seq<Step>) {
    s.url != "" && forall i :: 0 <= i < |steps| ==> !(steps[i].Start? && steps[i].url == "")
  }

  /** Room for the resting buffer or the backlog that was there when the address became known, plus one record for each
      writer that owes a flush. */
  lemma {:induction false} BufferBounded(s: Log, steps: seq<Step>, most: int)
    requires CanTakeAll(s, steps) && Started(s, steps)
    requires Resting(s.capacity) <= most && |s.buffer| <= most + |s.owing|
    ensures var s' := TakeAll(s, steps); s'.url != "" && s'.capacity == s.capacity && |s'.buffer| <= most + |s'.owing|
  {
    if steps != [] {
      BufferBounded(s, steps[..|steps| - 1], most);
    }
  }

  /** Only writers owe flushes. */
  lemma {:induction false} OwingAreWriters(s: Log, steps: seq<Step>, writers: set<nat>)
    requires s.owing <= writers
    requires forall i :: 0 <= i < |steps| && steps[i].Append? ==> steps[i].writer in writers
    ensures TakeAll(s, steps).owing <= writers
  {
    if steps != [] {
      OwingAreWriters(s, steps[..|steps| - 1], writers);
    }
  }

  lemma {:induction false} SubsetSize<T>(a: set<T>, b: set<T>)
    requires a <= b
    ensures |a| <= |b|
  {
    assert b == a + (b - a);
    DisjointUnionSize(a, b - a);
  }

  /** The only new batch a step can hand over is the buffer before it. */
  lemma NewBatchIsBuffer(s: Log, step: Step, b: seq<LogRecord>)
    requires b in Take(s, step).batches && b !in s.batches
    ensures b == s.buffer && b != []
  {
  }

  /** With the address known from the start, neither the buffer nor any batch outgrows the capacity by more than the
      number of writers. */
  lemma {:induction false} BatchesBounded(url: string, capacity: int, steps: seq<Step>, writers: set<nat>)
    requires url != ""
    requires var s := NewLog(capacity).(url := url); CanTakeAll(s, steps) && Started(s, steps)
    requires forall i :: 0 <= i < |steps| && steps[i].Append? ==> steps[i].writer in writers
    ensures var s' := TakeAll(NewLog(capacity).(url := url), steps);
            && |s'.buffer| <= Resting(capacity) + |writers|
            && forall b :: b in s'.batches ==> 1 <= |b| <= Resting(capacity) + |writers|
  {
    var s := NewLog(capacity).(url := url);
    BufferBounded(s, steps, Resting(capacity));
    OwingAreWriters(s, steps, writers);
    SubsetSize(TakeAll(s, steps).owing, writers);
    if steps != [] {
      var n := |steps| - 1;
      var mid := TakeAll(s, steps[..n]);
      BatchesBounded(url, capacity, steps[..n], writers);
      forall b | b in Take(mid, steps[n]).batches ensures 1 <= |b| <= Resting(capacity) + |writers| {
        if b !in mid.batches {
          NewBatchIsBuffer(mid, steps[n], b);
        }
      }
    }
  }

  /** Until the address is known no writer flushes: the buffer holds everything written. */
  lemma {:induction false} UnstartedHoldsAll(capacity: int, steps: seq<Step>)
    requires forall i :: 0 <= i < |steps| ==> steps[i].Append?
    ensures TakeAll(NewLog(capacity), steps) == NewLog(capacity).(buffer := Written(steps))
  {
    if steps != [] {
      UnstartedHoldsAll(capacity, steps[..|steps| - 1]);
    }
  }

  /** Close leaves nothing behind: everything written before it has been handed to a sender, whoever still owes a flush,
      and such a flush then has nothing to send. */
  lemma {:induction false} CloseHandsOverAll(capacity: int, steps: seq<Step>, late: seq<Step>)
    requires forall i :: 0 <= i < |late| ==> !late[i].Append?
    ensures var s := TakeAll(NewLog(capacity), steps + [Close] + late);
            s.buffer == [] && Concat(s.batches) == Written(steps)
  {
    var all := steps + [Close] + late;
    if late == [] {
      assert all[..|all| - 1] == steps && all[|all| - 1] == Close;
      RecordsKept(NewLog(capacity), all);
      var batches := TakeAll(NewLog(capacity), all).batches;
      assert Concat(batches) + [] == Concat(batches);
    } else {
      var n := |late| - 1;
      CloseHandsOverAll(capacity, steps, late[..n]);
      assert all[..|all| - 1] == steps + [Close] + late[..n];
      assert all[|all| - 1] == late[n];
    }
  }
}
