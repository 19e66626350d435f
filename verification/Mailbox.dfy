/** Streaming through a mailbox that holds one value and drops the older one.
 *
 *  The producer is the coordinator's event thread: it updates the mailbox with ever longer texts,
 *  and sets the result after the last update. The consumer is the HTTP stream, which polls. Every
 *  queue operation is one step, and the steps interleave in any order.
 */
module Mailboxes {
  import opened Sequences

  /** Where the event thread is: `update` of text `k` tries to put, finds the slot full, drops the old value, and puts
      again. */
  datatype Producer = Updating(k: nat) | FoundFull(k: nat) | Dropped(k: nat) | Overflowed | Finishing | Finished

  /** Where the stream is in its loop. */
  datatype Consumer = Polling | Emitting(part: string) | AskingDone | AskingEmpty | Stopped | Revised

  /** `previous` is the consumer's own record; `emitted` is everything the client received so far. */
  datatype Stream = Stream(slot: Option<string>, producer: Producer, consumer: Consumer, previous: string,
    emitted: string)

  predicate Done(s: Stream) { s.producer == Finished }

  function Start(): Stream { Stream(None, Updating(0), Polling, "", "") }

  /** The texts a backend reports: at least one, each extending the one before. */
  ghost predicate Growing(texts: seq<string>) {
    texts != [] && forall i, j :: 0 <= i <= j < |texts| ==> texts[i] <= texts[j]
  }

  function After(texts: seq<string>, k: nat): Producer { if k + 1 < |texts| then Updating(k + 1) else Finishing }

  /** One step of the event thread. */
  function Produce(texts: seq<string>, s: Stream): Stream {
    match s.producer
    case Updating(k) =>
      if k >= |texts| then s
      else if s.slot == None then s.(slot := Some(texts[k]), producer := After(texts, k))
        else s.(producer := FoundFull(k))
    case FoundFull(k) => s.(slot := None, producer := Dropped(k))
    case Dropped(k) =>
      if k >= |texts| then s
      else if s.slot == None then s.(slot := Some(texts[k]), producer := After(texts, k))
        else s.(producer := Overflowed)
    case Finishing => s.(producer := Finished)
    case Overflowed => s
    case Finished => s
  }

  /** One step of the stream: poll; emit what is new; stop once the result is set and the mailbox is empty. */
  function Consume(s: Stream): Stream {
    match s.consumer
    case Polling => if s.slot.Some? then s.(slot := None, consumer := Emitting(s.slot.value))
      else s.(consumer := AskingDone)
    case Emitting(part) =>
      if s.previous <= part then s.(previous := part, emitted := s.emitted + part[|s.previous|..],
        consumer := AskingDone)
      else s.(consumer := Revised)
    case AskingDone => s.(consumer := if Done(s) then AskingEmpty else Polling)
    case AskingEmpty => s.(consumer := if s.slot == None then Stopped else Polling)
    case Stopped => s
    case Revised => s
  }

  /** Which side moves. */
  datatype Turn = Engine | Client

  function Step(texts: seq<string>, s: Stream, turn: Turn): Stream {
    if turn == Engine then Produce(texts, s) else Consume(s)
  }

  function Run(texts: seq<string>, turns: seq<Turn>): Stream {
    if turns == [] then Start() else Step(texts, Run(texts, turns[..|turns| - 1]), turns[|turns| - 1])
  }

  // ---- The invariant -------------------------------------------------------------------------

  /** How many texts were put so far, and how many the mailbox or the consumer may still hold: the last one put. */
  function Put(texts: seq<string>, p: Producer): nat {
    match p
    case Updating(k) => k
    case FoundFull(k) => k
    case Dropped(k) => k
    case Overflowed => 0
    case Finishing => |texts|
    case Finished => |texts|
  }

  /** Everything in flight is an older text than the next one, in order: sent, then held by the consumer, then in the
      slot. */
  ghost predicate InOrder(texts: seq<string>, s: Stream) {
    var n := Put(texts, s.producer);
    && n <= |texts| && s.emitted == s.previous
    && (n == 0 ==> s.previous == "" && s.slot == None && !s.consumer.Emitting?)
    && (n > 0 ==> s.previous <= texts[n - 1])
    && (s.consumer.Emitting? ==> n > 0 && s.previous <= s.consumer.part <= texts[n - 1])
    && (s.slot.Some? ==> n > 0 && s.slot.value == texts[n - 1])
  }

  /** The last text put is not lost: it is in the slot, with the consumer, or sent; only a pending `update` may have
      dropped it. */
  ghost predicate NotLost(texts: seq<string>, s: Stream) {
    var n := Put(texts, s.producer);
    0 < n <= |texts| && s.slot == None && !s.producer.Dropped? ==>
      if s.consumer.Emitting? then s.consumer.part == texts[n - 1] else s.previous == texts[n - 1]
  }

  ghost predicate StreamOk(texts: seq<string>, s: Stream) {
    && InOrder(texts, s) && NotLost(texts, s)
    && s.producer != Overflowed && s.consumer != Revised
    && (s.producer.Updating? || s.producer.FoundFull? || s.producer.Dropped? ==> s.producer.k < |texts|)
    && (s.producer.Dropped? ==> s.slot == None)
    && (s.consumer == AskingEmpty || s.consumer == Stopped ==> Done(s))
    && (s.consumer == Stopped ==> s.slot == None)
  }

  lemma StepKeeps(texts: seq<string>, s: Stream, turn: Turn)
    requires Growing(texts) && StreamOk(texts, s)
    ensures StreamOk(texts, Step(texts, s, turn))
  {
    if turn == Engine {
      ProduceKeeps(texts, s);
    } else {
      ConsumeKeeps(texts, s);
    }
  }

  lemma PrefixTrans(a: string, b: string, c: string)
    requires a <= b && b <= c
    ensures a <= c
  {
  }

  lemma ProduceKeeps(texts: seq<string>, s: Stream)
    requires Growing(texts) && StreamOk(texts, s)
    ensures StreamOk(texts, Produce(texts, s))
  {
    var n := Put(texts, s.producer);
    if 0 < n < |texts| {
      PrefixTrans(s.previous, texts[n - 1], texts[n]);
      if s.consumer.Emitting? {
        PrefixTrans(s.consumer.part, texts[n - 1], texts[n]);
      }
    }
  }

  lemma ConsumeKeeps(texts: seq<string>, s: Stream)
    requires Growing(texts) && StreamOk(texts, s)
    ensures StreamOk(texts, Consume(s))
  {
    if s.consumer.Emitting? {
      assert s.previous + s.consumer.part[|s.previous|..] == s.consumer.part;
    }
  }

  lemma {:induction false} RunKeeps(texts: seq<string>, turns: seq<Turn>)
    requires Growing(texts)
    ensures StreamOk(texts, Run(texts, turns))
  {
    if turns != [] {
      RunKeeps(texts, turns[..|turns| - 1]);
      StepKeeps(texts, Run(texts, turns[..|turns| - 1]), turns[|turns| - 1]);
    }
  }

  // ---- Exactness ---------------------------------------------------------------------------------

  /** In every interleaving: what the client received is a prefix of the final text, the stream never complains
      of revised text, `update` never overflows the mailbox, and a stream that stopped has sent the final text. */
  lemma StreamingIsExact(texts: seq<string>, turns: seq<Turn>)
    requires Growing(texts)
    ensures var s := Run(texts, turns);
      && s.emitted <= texts[|texts| - 1]
      && s.consumer != Revised && s.producer != Overflowed
      && (s.consumer == Stopped ==> s.emitted == texts[|texts| - 1])
  {
    RunKeeps(texts, turns);
    var s := Run(texts, turns);
    var n := Put(texts, s.producer);
    if n > 0 {
      PrefixTrans(s.previous, texts[n - 1], texts[|texts| - 1]);
    }
  }

  /** Steps that the stream still takes once the result is set. */
  function StepsLeft(s: Stream): nat {
    match s.consumer
    case Stopped => 0
    case Revised => 0
    case AskingEmpty => if s.slot.Some? then 5 else 1
    case AskingDone => if s.slot.Some? then 6 else 2
    case Emitting(_) => if s.slot.Some? then 7 else 3
    case Polling => if s.slot.Some? then 4 else 3
  }

  function Clients(n: nat): seq<Turn> { seq(n, i => Client) }

  /** Once the result is set, the stream stops after at most seven more of its own steps. */
  lemma {:induction false} StopsSoon(texts: seq<string>, turns: seq<Turn>, n: nat)
    requires Growing(texts) && Done(Run(texts, turns)) && n >= StepsLeft(Run(texts, turns))
    ensures Run(texts, turns + Clients(n)).consumer == Stopped
    ensures Run(texts, turns + Clients(n)).emitted == texts[|texts| - 1]
    decreases n
  {
    var s := Run(texts, turns);
    RunKeeps(texts, turns);
    if n == 0 {
      assert turns + Clients(0) == turns;
    } else {
      var more := turns + [Client];
      assert more[..|more| - 1] == turns;
      assert turns + Clients(n) == more + Clients(n - 1);
      StopsSoon(texts, more, n - 1);
    }
    StreamingIsExact(texts, turns + Clients(n));
  }

  /** The other side of the protocol: the event thread needs at most three steps for each text, and one for the
      result. */
  function EngineLeft(texts: seq<string>, s: Stream): nat {
    match s.producer
    case Updating(k) => if k < |texts| then 3 * (|texts| - k) + 1 else 0
    case FoundFull(k) => if k < |texts| then 3 * (|texts| - k) else 0
    case Dropped(k) => if k < |texts| then 3 * (|texts| - k) - 1 else 0
    case Overflowed => 0
    case Finishing => 1
    case Finished => 0
  }

  /** No client speed holds the event thread up: every step of its own brings it closer to the result. */
  lemma EngineAdvances(texts: seq<string>, s: Stream)
    requires Growing(texts) && StreamOk(texts, s)
    ensures Done(s) <==> EngineLeft(texts, s) == 0
    ensures !Done(s) ==> EngineLeft(texts, Produce(texts, s)) < EngineLeft(texts, s)
    ensures EngineLeft(texts, Consume(s)) == EngineLeft(texts, s)
  {
  }

  // ---- The future ----------------------------------------------------------------------------------

  /** The mailbox part of a future, used by one thread at a time. */
  class InferenceFuture {
    var progress: Option<string>
    var firstTokenAt: Option<int>

    constructor ()
      ensures progress == None && firstTokenAt == None
    {
      progress, firstTokenAt := None, None;
    }

    method PutNowait(value: string) returns (full: bool)
      modifies this`progress
      ensures full == old(progress.Some?) && progress == if full then old(progress) else Some(value)
    {
      full := progress.Some?;
      if !full {
        progress := Some(value);
      }
    }

    method GetNowait() returns (value: Option<string>)
      modifies this`progress
      ensures value == old(progress) && progress == None
    {
      value, progress := progress, None;
    }

    /** `update`: the newest text replaces whatever nobody read, and the first nonempty text is timed once. */
    method Update(value: string, now: int)
      modifies this
      ensures progress == Some(value)
      ensures firstTokenAt == if old(firstTokenAt) == None && value != "" then Some(now) else old(firstTokenAt)
    {
      if firstTokenAt == None && value != "" {
        firstTokenAt := Some(now);
      }
      var full := PutNowait(value);
      if full {
        var dropped := GetNowait();
        full := PutNowait(value);
      }
    }
  }

  /** Undisturbed, the steps of one `update` do what the method does. */
  lemma UpdateAlone(texts: seq<string>, s: Stream)
    requires s.producer.Updating? && s.producer.k < |texts|
    ensures var k := s.producer.k;
      (if s.slot == None then Produce(texts, s) else Produce(texts, Produce(texts, Produce(texts, s)))) ==
      s.(slot := Some(texts[k]), producer := After(texts, k))
  {
  }
}
