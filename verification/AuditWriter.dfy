/** The audit service: a bounded channel, a batch, and a flush loop that drains on stop. */
module AuditWriter {
  import opened Wrappers
  import opened Seqs

  const CHANNEL_SIZE := 1000
  const DEFAULT_BATCH_SIZE := 100

  type Entry = string

  function BatchSize(configured: int): (n: nat)
    ensures n > 0
  {
    if configured <= 0 then DEFAULT_BATCH_SIZE else configured
  }

  /** Everything accepted, in order: attempted, batched, still in the channel. */
  function Pipeline(flushes: seq<seq<Entry>>, batch: seq<Entry>, channel: seq<Entry>): seq<Entry> {
    Flatten(flushes) + batch + channel
  }

  lemma ReceiveKeeps(flushes: seq<seq<Entry>>, batch: seq<Entry>, channel: seq<Entry>)
    requires channel != []
    ensures Pipeline(flushes, batch + [channel[0]], channel[1..]) == Pipeline(flushes, batch, channel)
  {
    assert channel == [channel[0]] + channel[1..];
  }

  lemma FlushKeeps(flushes: seq<seq<Entry>>, batch: seq<Entry>, channel: seq<Entry>)
    ensures Pipeline(flushes + [batch], [], channel) == Pipeline(flushes, batch, channel)
    ensures Flatten(flushes + [batch]) == Flatten(flushes) + batch
  {
    FlattenSnoc(flushes, batch);
  }

  lemma AllFlushed(flushes: seq<seq<Entry>>, batch: seq<Entry>)
    ensures Flatten(if batch == [] then flushes else flushes + [batch]) == Flatten(flushes) + batch
  {
    FlattenSnoc(flushes, batch);
  }

  lemma RecordExtends(flushes: seq<seq<Entry>>, batch: seq<Entry>, channel: seq<Entry>, entry: Entry)
    ensures Pipeline(flushes, batch, channel + [entry]) == Pipeline(flushes, batch, channel) + [entry]
  {
  }

  /** The service in asynchronous mode. Each method is one turn of a select; `flushes` are the
      batches handed to the repository, whether or not it could store them. */
  class AuditService {
    const batchSize: nat
    var channel: seq<Entry>
    var batch: seq<Entry>
    var flushes: seq<seq<Entry>>
    ghost var accepted: seq<Entry>

    /** Nothing accepted is lost, duplicated or reordered. */
    ghost predicate Valid()
      reads this
    {
      Pipeline(flushes, batch, channel) == accepted
      && |channel| <= CHANNEL_SIZE && |batch| < batchSize && forall i | 0 <= i < |flushes| ::
        0 < |flushes[i]| <= batchSize
    }

    constructor (configured: int)
      ensures Valid() && accepted == [] && batchSize == if configured <= 0 then 100 else configured
    {
      batchSize := BatchSize(configured);
      channel, batch, flushes, accepted := [], [], [], [];
    }

    /** Drops the entry rather than block when the channel is full. */
    method Record(entry: Entry) returns (kept: bool)
      requires Valid()
      modifies this`channel, this`accepted
      ensures Valid() && kept == (|old(channel)| < 1000)
      ensures accepted == if kept then old(accepted) + [entry] else old(accepted)
      ensures channel == if kept then old(channel) + [entry] else old(channel)
    {
      kept := |channel| < CHANNEL_SIZE;
      if kept {
        RecordExtends(flushes, batch, channel, entry);
        channel := channel + [entry];
        accepted := accepted + [entry];
      }
    }

    method Flush()
      modifies this`batch, this`flushes
      ensures batch == [] && Pipeline(flushes, batch, channel) == Pipeline(old(flushes), old(batch), channel)
      ensures flushes == if old(batch) == [] then old(flushes) else old(flushes) + [old(batch)]
    {
      if batch == [] { return; }
      FlushKeeps(flushes, batch, channel);
      flushes := flushes + [batch];
      batch := [];
    }

    /** The loop's receive case: the batch is handed over as soon as it is full. */
    method Receive()
      requires Valid() && channel != []
      modifies this`channel, this`batch, this`flushes
      ensures Valid() && channel == old(channel)[1..]
      ensures batch == [] <==> |old(batch)| + 1 == batchSize
      ensures batch != [] ==> batch == old(batch) + [old(channel)[0]] && flushes == old(flushes)
      ensures batch == [] ==> flushes == old(flushes) + [old(batch) + [old(channel)[0]]]
    {
      ReceiveKeeps(flushes, batch, channel);
      var entry := channel[0];
      channel := channel[1..];
      batch := batch + [entry];
      if |batch| >= batchSize { Flush(); }
    }

    /** The loop's ticker case. */
    method Tick()
      requires Valid()
      modifies this`batch, this`flushes
      ensures Valid() && batch == []
      ensures flushes == if old(batch) == [] then old(flushes) else old(flushes) + [old(batch)]
    {
      Flush();
    }

    /** The loop's stop case when no Record call intervenes: everything accepted is handed over. */
    method DrainAndStop()
      requires Valid()
      modifies this`channel, this`batch, this`flushes
      ensures channel == [] && batch == [] && Flatten(flushes) == accepted
      ensures flushes == if old(batch + channel) == [] then old(flushes) else old(flushes) + [old(batch + channel)]
    {
      ghost var all := batch + channel;
      assert accepted == Flatten(flushes) + all;
      while channel != []
        invariant batch + channel == all && flushes == old(flushes)
        decreases |channel|
      {
        assert channel == [channel[0]] + channel[1..];
        batch := batch + [channel[0]];
        channel := channel[1..];
      }
      assert batch == all;
      AllFlushed(flushes, batch);
      Flush();
    }
  }

  // ----- all runs, with Record calls interleaved everywhere -----

  datatype Stage = Looping | Draining | Finished

  datatype State = State(channel: seq<Entry>, batch: seq<Entry>, flushes: seq<seq<Entry>>, accepted: seq<Entry>,
                         stage: Stage, stopSignalled: Option<nat>)   // how much was accepted before the signal

  function Init(): State { State([], [], [], [], Looping, None) }

  datatype Event =
    | Record(entry: Entry)
    | Receive          // select chose the channel
    | Tick             // select chose the ticker
    | Signal           // Stop closes the stop channel
    | StartDrain       // select chose the stop channel
    | DrainOne
    | EndDrain         // channel empty: final flush, return

  predicate Enabled(s: State, e: Event) {
    match e
    case Record(_) => true
    case Receive => s.stage == Looping && s.channel != []
    case Tick => s.stage == Looping
    case Signal => s.stopSignalled.None?
    case StartDrain => s.stage == Looping && s.stopSignalled.Some?
    case DrainOne => s.stage == Draining && s.channel != []
    case EndDrain => s.stage == Draining && s.channel == []
  }

  function Flushed(s: State): State {
    if s.batch == [] then s else s.(flushes := s.flushes + [s.batch], batch := [])
  }

  function Apply(size: nat, s: State, e: Event): State
    requires Enabled(s, e)
  {
    match e
    case Record(entry) =>
      if |s.channel| < CHANNEL_SIZE then s.(channel := s.channel + [entry], accepted := s.accepted + [entry]) else s
    case Receive =>
      var t := s.(channel := s.channel[1..], batch := s.batch + [s.channel[0]]);
      if |t.batch| >= size then Flushed(t) else t
    case Tick => Flushed(s)
    case Signal => s.(stopSignalled := Some(|s.accepted|))
    case StartDrain => s.(stage := Draining)
    case DrainOne => s.(channel := s.channel[1..], batch := s.batch + [s.channel[0]])
    case EndDrain => Flushed(s).(stage := Finished)
  }

  ghost predicate IsRun(size: nat, ss: seq<State>, es: seq<Event>) {
    |ss| == |es| + 1 && ss[0] == Init()
    && forall i {:trigger es[i]} | 0 <= i < |es| :: Enabled(ss[i], es[i]) && ss[i + 1] == Apply(size, ss[i], es[i])
  }

  ghost predicate BatchInv(size: nat, s: State) {
    |s.channel| <= CHANNEL_SIZE
    && (s.stage == Looping ==> |s.batch| < size && forall i | 0 <= i < |s.flushes| :: 0 < |s.flushes[i]| <= size)
  }

  ghost predicate StopInv(s: State) {
    && (s.stage == Finished ==> s.stopSignalled.Some? && s.batch == [] && s.stopSignalled.value <= |Flatten(s.flushes)|)
    && (s.stage == Draining ==> s.stopSignalled.Some?)
    && (s.stopSignalled.Some? ==> s.stopSignalled.value <= |s.accepted|)
  }

  ghost predicate Inv(size: nat, s: State) {
    Pipeline(s.flushes, s.batch, s.channel) == s.accepted && BatchInv(size, s) && StopInv(s)
  }

  lemma FlushedKeeps(s: State)
    ensures Pipeline(Flushed(s).flushes, Flushed(s).batch, Flushed(s).channel)
      == Pipeline(s.flushes, s.batch, s.channel)
  {
    FlushKeeps(s.flushes, s.batch, s.channel);
  }

  lemma EmptyEndsPipeline(flushes: seq<seq<Entry>>)
    ensures Pipeline(flushes, [], []) == Flatten(flushes)
  {
  }

  lemma StepKeepsPipeline(size: nat, s: State, e: Event)
    requires Pipeline(s.flushes, s.batch, s.channel) == s.accepted && Enabled(s, e)
    ensures var t := Apply(size, s, e); Pipeline(t.flushes, t.batch, t.channel) == t.accepted
  {
    match e
    case Record(entry) => RecordExtends(s.flushes, s.batch, s.channel, entry);
    case Receive =>
      ReceiveKeeps(s.flushes, s.batch, s.channel);
      FlushedKeeps(s.(channel := s.channel[1..], batch := s.batch + [s.channel[0]]));
    case DrainOne => ReceiveKeeps(s.flushes, s.batch, s.channel);
    case Tick => FlushedKeeps(s);
    case EndDrain => FlushedKeeps(s);
    case _ =>
  }

  lemma StepKeepsBatches(size: nat, s: State, e: Event)
    requires size > 0 && BatchInv(size, s) && Enabled(s, e)
    ensures BatchInv(size, Apply(size, s, e))
  {
  }

  lemma StepKeepsStop(size: nat, s: State, e: Event)
    requires StopInv(s) && Pipeline(s.flushes, s.batch, s.channel) == s.accepted && Enabled(s, e)
    ensures StopInv(Apply(size, s, e))
  {
    if e.EndDrain? {
      FlushedKeeps(s);
      EmptyEndsPipeline(Flushed(s).flushes);
    }
  }

  lemma StepKeepsInv(size: nat, s: State, e: Event)
    requires size > 0 && Inv(size, s) && Enabled(s, e)
    ensures Inv(size, Apply(size, s, e))
  {
    StepKeepsPipeline(size, s, e);
    StepKeepsBatches(size, s, e);
    StepKeepsStop(size, s, e);
  }

  /** At every step the flush attempts, the batch and the channel together are exactly the accepted
      entries in order; until the drain no flushed batch exceeds the batch size; and when Stop
      returns, everything accepted before the signal is in some flush attempt. */
  lemma {:induction false} Conservation(size: nat, ss: seq<State>, es: seq<Event>, i: nat)
    requires size > 0 && IsRun(size, ss, es) && i < |ss|
    ensures Inv(size, ss[i])
  {
    if i > 0 {
      Conservation(size, ss, es, i - 1);
      assert ss[i] == Apply(size, ss[i - 1], es[i - 1]);
      StepKeepsInv(size, ss[i - 1], es[i - 1]);
    }
  }

  lemma {:induction false} AcceptedGrows(size: nat, ss: seq<State>, es: seq<Event>, i: nat, j: nat)
    requires IsRun(size, ss, es) && i <= j < |ss|
    ensures ss[i].accepted <= ss[j].accepted && ss[i].flushes <= ss[j].flushes
    ensures ss[i].stopSignalled.Some? ==> ss[j].stopSignalled == ss[i].stopSignalled
  {
    if i < j {
      AcceptedGrows(size, ss, es, i, j - 1);
      assert ss[j] == Apply(size, ss[j - 1], es[j - 1]);
    }
  }

  /** What had been accepted when the signal was given is a prefix of what has been flushed when the
      loop has returned. */
  lemma StopFlushesAccepted(size: nat, ss: seq<State>, es: seq<Event>, i: nat, j: nat)
    requires size > 0 && IsRun(size, ss, es) && i < j < |ss| && es[i] == Signal && ss[j].stage == Finished
    ensures ss[i].accepted <= Flatten(ss[j].flushes)
  {
    Conservation(size, ss, es, j);
    assert ss[i + 1] == Apply(size, ss[i], es[i]);
    AcceptedGrows(size, ss, es, i, j);
    AcceptedGrows(size, ss, es, i + 1, j);
  }

  /** No batch flushed before the drain is larger than the batch size. */
  lemma BatchesBounded(size: nat, ss: seq<State>, es: seq<Event>, i: nat, k: nat)
    requires size > 0 && IsRun(size, ss, es) && i < |ss| && ss[i].stage == Looping && k < |ss[i].flushes|
    ensures 0 < |ss[i].flushes[k]| <= size
  {
    Conservation(size, ss, es, i);
  }

  /** An entry is accepted exactly when the channel has room, and a batch is handed over as soon as it is full,
      not before, unless the ticker fires. */
  lemma AcceptsAndBatches(size: nat, ss: seq<State>, es: seq<Event>, i: nat)
    requires size > 0 && IsRun(size, ss, es) && i < |es|
    ensures es[i].Record? ==>
      ss[i + 1].accepted == ss[i].accepted + if |ss[i].channel| < 1000 then [es[i].entry] else []
    ensures es[i].Receive? && |ss[i].batch| + 1 < size ==>
      ss[i + 1].flushes == ss[i].flushes && ss[i + 1].batch == ss[i].batch + [ss[i].channel[0]]
    ensures es[i].Receive? && |ss[i].batch| + 1 >= size ==>
      ss[i + 1].batch == [] && ss[i + 1].flushes == ss[i].flushes + [ss[i].batch + [ss[i].channel[0]]]
  {
    assert ss[i + 1] == Apply(size, ss[i], es[i]);
  }
}
