/** Progress reporting: the library's callback puts the latest report into a
    one-slot channel, and the job monitor takes it out at its own pace. Only the
    callback sends; both sides receive. */
module Monitor {
  import opened Model

  datatype Progress = Progress(phase: string, current: nat, total: nat)

  /** Where the callback is: between calls, or before one of its three selects. */
  datatype Producer = Quiet | FirstSend(p: Progress) | Drop(p: Progress) | SecondSend(p: Progress)

  /** `emitted` and `consumed` are the histories of the two sides. */
  datatype Channel = Channel(
    slot: Option<Progress>, producer: Producer, emitted: seq<Progress>, consumed: seq<Progress>)

  datatype Action = Emit(p: Progress) | Advance | Take

  const Empty := Channel(None, Quiet, [], [])

  /** Each select completes at once: it does what it can, or takes its default. */
  function Next(ch: Channel, a: Action): Channel {
    match a
    case Emit(p) =>
      if ch.producer.Quiet? then ch.(producer := FirstSend(p), emitted := ch.emitted + [p]) else ch
    case Advance =>
      (match ch.producer
       case Quiet => ch
       case FirstSend(p) =>
         if ch.slot.None? then ch.(slot := Some(p), producer := Quiet) else ch.(producer := Drop(p))
       case Drop(p) => ch.(slot := None, producer := SecondSend(p))
       case SecondSend(p) =>
         if ch.slot.None? then ch.(slot := Some(p), producer := Quiet) else ch.(producer := Quiet))
    case Take =>
      if ch.slot.Some? then ch.(slot := None, consumed := ch.consumed + [ch.slot.value]) else ch
  }

  function Exec(ch: Channel, acts: seq<Action>): Channel {
    if acts == [] then ch else Next(Exec(ch, acts[..|acts| - 1]), acts[|acts| - 1])
  }

  /** `at` lists where the consumed reports stand among the emitted ones: in order,
      and each at most once. */
  ghost predicate InOrder(ch: Channel, at: seq<nat>) {
    |at| == |ch.consumed|
    && (forall k :: 0 <= k < |at| ==> at[k] < |ch.emitted| && ch.emitted[at[k]] == ch.consumed[k])
    && forall j, k :: 0 <= j < k < |at| ==> at[j] < at[k]
  }

  /** Emissions up to the last one consumed. */
  function Seen(at: seq<nat>): nat {
    if at == [] then 0 else at[|at| - 1] + 1
  }

  /** The report in the slot is newer than all consumed, and the newest one is in
      the slot, was the last consumed, or is still in the callback's hand. */
  ghost predicate Tracks(ch: Channel, at: seq<nat>) {
    InOrder(ch, at)
    && var sent := if ch.producer.Quiet? then |ch.emitted| else |ch.emitted| - 1;
    && sent >= 0 && Seen(at) <= sent
    && (!ch.producer.Quiet? ==> ch.emitted[sent] == ch.producer.p)
    && (ch.producer.SecondSend? ==> ch.slot.None?)
    && (ch.slot.Some? ==> Seen(at) < sent && ch.slot.value == ch.emitted[sent - 1])
    && (ch.slot.None? && !ch.producer.SecondSend? ==> Seen(at) == sent)
  }

  lemma StepTracks(ch: Channel, at: seq<nat>, a: Action) returns (at': seq<nat>)
    requires Tracks(ch, at)
    ensures Tracks(Next(ch, a), at')
  {
    at' := at;
    if a.Take? && ch.slot.Some? {
      var sent := if ch.producer.Quiet? then |ch.emitted| else |ch.emitted| - 1;
      at' := at + [sent - 1];
    }
  }

  /** In every interleaving, what the monitor consumes is a subsequence of what was
      emitted, in order, and between two calls of the callback the newest report
      waits in the slot or was the last consumed. */
  lemma {:induction false} LatestNeverLost(acts: seq<Action>) returns (at: seq<nat>)
    ensures var ch := Exec(Empty, acts);
      && InOrder(ch, at) && Tracks(ch, at)
      && (ch.producer.Quiet? && ch.emitted != [] ==>
            if ch.slot.Some? then ch.slot.value == ch.emitted[|ch.emitted| - 1]
            else at != [] && at[|at| - 1] == |ch.emitted| - 1)
  {
    at := [];
    if acts != [] {
      var before := LatestNeverLost(acts[..|acts| - 1]);
      at := StepTracks(Exec(Empty, acts[..|acts| - 1]), before, acts[|acts| - 1]);
    }
  }

  /** The callback never blocks, and its second send never finds the slot full. */
  lemma EmitEnds(acts: seq<Action>, takes: seq<bool>)
    requires |takes| == 3 && Exec(Empty, acts).producer.FirstSend?
    ensures var p := Exec(Empty, acts).producer.p;
      var ch := ThreeSelects(Exec(Empty, acts), takes);
      ch.producer.Quiet? && (ch.slot == Some(p) || (ch.consumed != [] && ch.consumed[|ch.consumed| - 1] == p))
  {
  }

  function Maybe(ch: Channel, take: bool): Channel {
    if take then Next(ch, Take) else ch
  }

  /** The callback's three selects, with or without the monitor after each. */
  function ThreeSelects(ch: Channel, takes: seq<bool>): Channel
    requires |takes| == 3
  {
    var c1 := Maybe(Next(ch, Advance), takes[0]);
    var c2 := if c1.producer.Quiet? then c1 else Maybe(Next(c1, Advance), takes[1]);
    if c2.producer.Quiet? then c2 else Maybe(Next(c2, Advance), takes[2])
  }

  // ---- The callback itself ----

  lemma ExecSnoc(ch: Channel, acts: seq<Action>, a: Action)
    ensures Exec(ch, acts + [a]) == Next(Exec(ch, acts), a)
  {
    assert (acts + [a])[..|acts|] == acts;
  }

  /** The channel in place; `acts` records what both sides did to it. */
  class ProgressChannel {
    var slot: Option<Progress>
    ghost var acts: seq<Action>

    ghost function Log(): Channel
      reads this
    {
      Exec(Empty, acts)
    }

    ghost predicate Valid()
      reads this
    {
      Log().slot == slot
    }

    constructor ()
      ensures Valid() && Log() == Empty
    {
      slot, acts := None, [];
    }

    /** The monitor takes a report, if there is one and its ticker fired. */
    method Monitor(fired: bool)
      requires Valid()
      modifies this
      ensures Valid() && Log() == Maybe(old(Log()), fired)
    {
      if fired {
        ghost var before := acts;
        slot, acts := None, acts + [Take];
        ExecSnoc(Empty, before, Take);
      }
    }

    /** `fired[k]` says whether the monitor runs after the `k`th select. */
    method Emit(p: Progress, fired: seq<bool>)
      requires Valid() && Log().producer.Quiet? && |fired| == 2
      modifies this
      ensures Valid() && Log().producer.Quiet?
      ensures Log().emitted == old(Log()).emitted + [p] && old(Log()).consumed <= Log().consumed
      ensures slot == Some(p)
    {
      hide Exec;
      ghost var start := acts;
      ExecSnoc(Empty, start, Action.Emit(p));
      ExecSnoc(Empty, start + [Action.Emit(p)], Advance);
      acts := start + [Action.Emit(p)] + [Advance];
      if slot == None {
        slot := Some(p);
        return;
      }
      Monitor(fired[0]);
      ExecSnoc(Empty, acts, Advance);
      slot, acts := None, acts + [Advance];
      Monitor(fired[1]);
      ExecSnoc(Empty, acts, Advance);
      if slot == None {
        slot := Some(p);
      }
      acts := acts + [Advance];
    }
  }
}
