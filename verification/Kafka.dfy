/** `KafkaExpressDelivery` on one partition, with crashes between any two of its actions.

The log, the committed offset and the cache of handled keys survive a crash; the batch being worked on
does not. After a restart consumption begins again at the committed offset. */
module Kafka {

  /** What the consumer thread is doing. In a batch, `next` is the record it has come to, and `handled`
  says that this record has been handled but not yet been put into the cache. */
  datatype Activity =
    | Idle(position: nat)
    | Batch(from: nat, to: nat, next: nat, duplicates: set<string>, handled: bool)
    | Cleaning(from: nat, to: nat)

  /** `log` holds the keys of the records. `history` are the offsets handed to the listener, in order;
  `undone` counts, per offset, the crashes that made the consumer forget having handled it. */
  datatype Consumer = Consumer(
    log: seq<string>,
    committed: nat,
    cache: set<string>,
    activity: Activity,
    history: seq<nat>,
    undone: multiset<nat>)

  datatype Step =
    | Append(key: string)
    | Poll(upTo: nat)
    | Skip
    | Handle
    | AddItem
    | Commit
    | DeleteItems
    | Crash

  function Keys(log: seq<string>, from: int, to: int): set<string> {
    set o | 0 <= o < |log| && from <= o < to :: log[o]
  }

  function Range(from: nat, to: nat): (r: set<nat>)
    ensures forall o :: (o in r <==> from <= o < to)
    decreases if from < to then to - from else 0
  {
    if from >= to then {} else {from} + Range(from + 1, to)
  }

  /** The offsets a crash makes the consumer forget: with a cache, only the one between handling and
  caching; without one, everything handled in the batch. */
  function Forgotten(caching: bool, a: Activity): set<nat> {
    match a
    case Idle(_) => {}
    case Cleaning(_, _) => {}
    case Batch(from, _, next, _, handled) =>
      (if handled then {next} else {}) + (if caching then {} else Range(from, next))
  }

  predicate Enabled(caching: bool, c: Consumer, step: Step) {
    match step
    case Append(key) => key !in c.log
    case Poll(upTo) => c.activity.Idle? && c.activity.position < upTo <= |c.log|
    case Skip => c.activity.Batch? && !c.activity.handled && c.activity.next < c.activity.to <= |c.log| &&
                 c.log[c.activity.next] in c.activity.duplicates
    case Handle => c.activity.Batch? && !c.activity.handled && c.activity.next < c.activity.to <= |c.log| &&
                   c.log[c.activity.next] !in c.activity.duplicates
    case AddItem => c.activity.Batch? && c.activity.handled && c.activity.next < c.activity.to <= |c.log|
    case Commit => c.activity.Batch? && !c.activity.handled && c.activity.next == c.activity.to
    case DeleteItems => c.activity.Cleaning?
    case Crash => true
  }

  function After(caching: bool, c: Consumer, step: Step): Consumer
    requires Enabled(caching, c, step)
  {
    match step
    case Append(key) => c.(log := c.log + [key])
    case Poll(upTo) =>
      var from := c.activity.position;
      c.(activity := Batch(from, upTo, from, if caching then c.cache * Keys(c.log, from, upTo) else {}, false))
    case Skip => c.(activity := c.activity.(next := c.activity.next + 1))
    case Handle => c.(activity := c.activity.(handled := true), history := c.history + [c.activity.next])
    case AddItem =>
      c.(activity := c.activity.(next := c.activity.next + 1, handled := false),
         cache := if caching then c.cache + {c.log[c.activity.next]} else c.cache)
    case Commit => c.(activity := Cleaning(c.activity.from, c.activity.to), committed := c.activity.to)
    case DeleteItems =>
      c.(activity := Idle(c.activity.to),
         cache := if caching then c.cache - Keys(c.log, c.activity.from, c.activity.to) else c.cache)
    case Crash => c.(activity := Idle(c.committed), undone := c.undone + multiset(Forgotten(caching, c.activity)))
  }

  const START := Consumer([], 0, {}, Idle(0), [], multiset{})

  // ---- what every step keeps

  predicate Unique(log: seq<string>) {
    forall i, j :: 0 <= i < j < |log| ==> log[i] != log[j]
  }

  /** The consumer knows that the record has been handled. */
  predicate Known(caching: bool, c: Consumer, o: nat) {
    || o < c.committed
    || (o < |c.log| && c.log[o] in c.cache)
    || o in Forgotten(caching, c.activity)
  }

  /** Records before the current one are known; of the others, exactly the duplicates are cached. */
  predicate BatchOk(caching: bool, c: Consumer) {
    match c.activity
    case Idle(position) => position == c.committed
    case Cleaning(from, to) => from <= to == c.committed
    case Batch(from, to, next, duplicates, handled) =>
      && from == c.committed && from <= next <= to <= |c.log| && (handled ==> next < to)
      && (forall o :: next <= o < to ==> (c.log[o] in c.cache <==> c.log[o] in duplicates))
      && (handled ==> c.log[next] !in duplicates)
      && (caching ==> forall o :: from <= o < next ==> c.log[o] in c.cache)
      && (!caching ==> duplicates == {})
  }

  predicate LogOk(caching: bool, c: Consumer) {
    && Unique(c.log) && c.committed <= |c.log|
    && c.cache <= Keys(c.log, 0, |c.log|) && (!caching ==> c.cache == {})
  }

  /** The account: a record has been handled once for every time this was forgotten, and once more if
  the consumer still knows it. */
  ghost predicate Counted(caching: bool, c: Consumer) {
    forall o: nat :: multiset(c.history)[o] == c.undone[o] + if Known(caching, c, o) then 1 else 0
  }

  /** Whatever was handled, everything before it had been handled earlier. */
  ghost predicate InOrder(history: seq<nat>) {
    forall i, o: nat :: 0 <= i < |history| && o < history[i] ==> o in history[..i]
  }

  ghost predicate Inv(caching: bool, c: Consumer) {
    LogOk(caching, c) && BatchOk(caching, c) && Counted(caching, c) && InOrder(c.history)
  }

  lemma {:induction false} StepKeepsLog(caching: bool, c: Consumer, step: Step)
    requires LogOk(caching, c) && BatchOk(caching, c) && Enabled(caching, c, step)
    ensures LogOk(caching, After(caching, c, step))
  {
    match step
    case Append(key) =>
      assert Keys(c.log, 0, |c.log|) <= Keys(c.log + [key], 0, |c.log| + 1) by {
        assert forall o :: 0 <= o < |c.log| ==> (c.log + [key])[o] == c.log[o];
      }
    case AddItem => assert c.log[c.activity.next] in Keys(c.log, 0, |c.log|);
    case _ =>
  }

  lemma {:induction false} StepKeepsBatch(caching: bool, c: Consumer, step: Step)
    requires LogOk(caching, c) && BatchOk(caching, c) && Enabled(caching, c, step)
    ensures BatchOk(caching, After(caching, c, step))
  {
  }

  /** Only handling a record and crashing touch the account; every other step leaves it as it is. */
  lemma {:induction false} StepKeepsKnown(caching: bool, c: Consumer, step: Step, o: nat)
    requires LogOk(caching, c) && BatchOk(caching, c) && Enabled(caching, c, step)
    ensures var c1 := After(caching, c, step);
      var gained: nat := if step.Handle? && o == c.activity.next then 1 else 0;
      var lost: nat := if step.Crash? && o in Forgotten(caching, c.activity) then 1 else 0;
      (if Known(caching, c1, o) then 1 else 0) == (if Known(caching, c, o) then 1 else 0) + gained - lost
  {
    match step
    case Append(key) => KnownAppend(caching, c, key, o);
    case Poll(_) =>
    case Skip =>
    case Handle =>
    case AddItem =>
    case Commit =>
    case DeleteItems => assert forall x ::
      c.activity.from <= x < c.activity.to <= |c.log| ==> c.log[x] in Keys(c.log, c.activity.from, c.activity.to);
    case Crash =>
  }

  lemma {:induction false} KnownAppend(caching: bool, c: Consumer, key: string, o: nat)
    requires LogOk(caching, c) && key !in c.log
    ensures Known(caching, c.(log := c.log + [key]), o) == Known(caching, c, o)
  {
  }

  lemma {:induction false} StepKeepsCount(caching: bool, c: Consumer, step: Step)
    requires LogOk(caching, c) && BatchOk(caching, c) && Counted(caching, c) && Enabled(caching, c, step)
    ensures Counted(caching, After(caching, c, step))
  {
    hide LogOk, BatchOk, Known;
    var c1 := After(caching, c, step);
    forall o: nat
      ensures multiset(c1.history)[o] == c1.undone[o] + if Known(caching, c1, o) then 1 else 0
    {
      StepKeepsKnown(caching, c, step, o);
    }
  }

  /** Everything before the record that is about to be handled has been handled. */
  lemma {:induction false} EarlierIsHandled(caching: bool, c: Consumer, o: nat)
    requires BatchOk(caching, c) && Counted(caching, c)
    requires c.activity.Batch? && o < c.activity.next
    ensures o in c.history
  {
    assert Known(caching, c, o);
    assert multiset(c.history)[o] >= 1;
  }

  lemma {:induction false} StepKeepsOrder(caching: bool, c: Consumer, step: Step)
    requires Inv(caching, c) && Enabled(caching, c, step)
    ensures InOrder(After(caching, c, step).history)
  {
    if step.Handle? {
      var h := c.history + [c.activity.next];
      forall i, o: nat | 0 <= i < |h| && o < h[i] ensures o in h[..i] {
        if i < |c.history| {
          assert h[..i] == c.history[..i];
        } else {
          assert h[..i] == c.history;
          EarlierIsHandled(caching, c, o);
        }
      }
    }
  }

  lemma {:induction false} StepKeepsInv(caching: bool, c: Consumer, step: Step)
    requires Inv(caching, c) && Enabled(caching, c, step)
    ensures Inv(caching, After(caching, c, step))
  {
    hide LogOk, BatchOk, Counted, InOrder;
    StepKeepsLog(caching, c, step);
    StepKeepsBatch(caching, c, step);
    StepKeepsCount(caching, c, step);
    StepKeepsOrder(caching, c, step);
  }

  // ---- whole runs

  ghost predicate IsRun(caching: bool, cs: seq<Consumer>, steps: seq<Step>) {
    && |cs| == |steps| + 1
    && forall i :: 0 <= i < |steps| ==>
       Enabled(caching, cs[i], steps[i]) && cs[i + 1] == After(caching, cs[i], steps[i])
  }

  lemma {:induction false} RunKeepsInv(caching: bool, cs: seq<Consumer>, steps: seq<Step>, i: nat)
    requires IsRun(caching, cs, steps) && Inv(caching, cs[0]) && i < |cs|
    ensures Inv(caching, cs[i])
  {
    hide Inv, Enabled, After;
    if i > 0 {
      RunKeepsInv(caching, cs, steps, i - 1);
      StepKeepsInv(caching, cs[i - 1], steps[i - 1]);
    }
  }

  /** The crashes of a run that hit the offset after it was handled and before that was recorded. */
  function CrashesAt(caching: bool, cs: seq<Consumer>, steps: seq<Step>, o: nat): nat
    requires |cs| == |steps| + 1
  {
    if steps == [] then 0
    else
      var k := |steps| - 1;
      CrashesAt(caching, cs[..k + 1], steps[..k], o) + if steps[k] == Crash &&
        o in Forgotten(caching, cs[k].activity) then 1 else 0
  }

  lemma {:induction false} UndoneCountsCrashes(caching: bool, cs: seq<Consumer>, steps: seq<Step>, o: nat)
    requires IsRun(caching, cs, steps)
    ensures cs[|steps|].undone[o] == cs[0].undone[o] + CrashesAt(caching, cs, steps, o)
    decreases |steps|
  {
    if steps != [] {
      var k := |steps| - 1;
      UndoneCountsCrashes(caching, cs[..k + 1], steps[..k], o);
      assert cs[k + 1] == After(caching, cs[k], steps[k]);
    }
  }

  lemma {:induction false} StartIsOk(caching: bool)
    ensures Inv(caching, START)
  {
    assert Keys([], 0, 0) == {};
  }

  /** At the end of any run with any crashes: a committed record was handled exactly once and once
  more for every crash between its handling and the record of it; any other record was handled at most
  so often; and records were handled for the first time in the order of the log. */
  lemma {:induction false} CrashTolerantConsumption(caching: bool, cs: seq<Consumer>, steps: seq<Step>)
    requires IsRun(caching, cs, steps) && cs[0] == START
    ensures var c := cs[|steps|];
      && InOrder(c.history)
      && (forall o: nat :: o < c.committed ==> multiset(c.history)[o] == 1 + CrashesAt(caching, cs, steps, o))
      && (forall o: nat :: multiset(c.history)[o] <= 1 + CrashesAt(caching, cs, steps, o))
      && (forall o: nat :: multiset(c.history)[o] >= CrashesAt(caching, cs, steps, o))
      && (forall o: nat :: o in c.history ==> o < |c.log|)
  {
    StartIsOk(caching);
    RunKeepsInv(caching, cs, steps, |steps|);
    var c := cs[|steps|];
    forall o: nat ensures c.undone[o] == CrashesAt(caching, cs, steps, o) {
      UndoneCountsCrashes(caching, cs, steps, o);
    }
    HandledIsInLog(caching, cs, steps);
  }

  lemma {:induction false} HandledIsInLog(caching: bool, cs: seq<Consumer>, steps: seq<Step>)
    requires IsRun(caching, cs, steps) && cs[0] == START
    ensures forall o: nat :: o in cs[|steps|].history ==> o < |cs[|steps|].log|
    decreases |steps|
  {
    if steps != [] {
      var k := |steps| - 1;
      HandledIsInLog(caching, cs[..k + 1], steps[..k]);
      assert cs[k + 1] == After(caching, cs[k], steps[k]);
    }
  }

  predicate OnlyAppends(steps: seq<Step>, from: nat, to: nat) {
    forall k :: from <= k < to && k < |steps| ==> steps[k].Append?
  }

  /** Step `i` handled the offset, and since then the consumer has done nothing. */
  predicate JustHandled(cs: seq<Consumer>, steps: seq<Step>, i: nat, j: nat, o: nat) {
    i < j <= |steps| < |cs| && steps[i] == Handle && cs[i].activity.Batch? && cs[i].activity.next == o &&
      OnlyAppends(steps, i + 1, j)
  }

  /** With a cache, a crash at some moment of a run makes the consumer forget an offset if and only if
  handling it was the last thing the consumer did. */
  lemma {:induction false} OnlyTheWindowForgets(cs: seq<Consumer>, steps: seq<Step>, j: nat, o: nat)
    requires IsRun(true, cs, steps) && cs[0] == START && j < |cs|
    ensures o in Forgotten(true, cs[j].activity) <==> exists i: nat :: JustHandled(cs, steps, i, j, o)
  {
    if j > 0 {
      var k := j - 1;
      OnlyTheWindowForgets(cs, steps, k, o);
      assert cs[j] == After(true, cs[k], steps[k]) && Enabled(true, cs[k], steps[k]);
      if steps[k] == Handle {
        assert o == cs[k].activity.next ==> JustHandled(cs, steps, k, j, o);
      } else if steps[k].Append? {
        forall i: nat ensures JustHandled(cs, steps, i, j, o) <==> JustHandled(cs, steps, i, k, o) {
        }
      }
      forall i: nat | JustHandled(cs, steps, i, j, o) && i < k ensures steps[k].Append? {
      }
    }
  }

  /** A sequence in order and without repetition is the first part of the log. */
  lemma {:induction false} InOrderOnce(history: seq<nat>, i: nat)
    requires InOrder(history) && i < |history|
    requires forall o: nat :: multiset(history)[o] <= 1
    ensures history[i] == i
  {
    forall j | 0 <= j < i ensures history[j] == j {
      InOrderOnce(history, j);
    }
    if history[i] < i {
      TwiceIn(history, history[i], i);
    } else if history[i] > i {
      var j := EarlierIndex(history, i, i);
    }
  }

  lemma {:induction false} TwiceIn(history: seq<nat>, j: nat, i: nat)
    requires j < i < |history| && history[j] == history[i]
    ensures multiset(history)[history[i]] >= 2
  {
    assert history == history[..i] + [history[i]] + history[i + 1..];
    assert history[..i][j] == history[i];
  }

  lemma {:induction false} EarlierIndex(history: seq<nat>, i: nat, o: nat) returns (j: nat)
    requires InOrder(history) && i < |history| && o < history[i]
    ensures j < i && history[j] == o
  {
    assert o in history[..i];
    j :| 0 <= j < i && history[..i][j] == o;
  }

  /** When no crash falls into such a window, the listener sees each record once, in log order. */
  lemma {:induction false} ExactlyOnceInOrder(caching: bool, cs: seq<Consumer>, steps: seq<Step>)
    requires IsRun(caching, cs, steps) && cs[0] == START
    requires forall o: nat :: CrashesAt(caching, cs, steps, o) == 0
    ensures var h := cs[|steps|].history;
      h == seq(|h|, i => i) && cs[|steps|].committed <= |h|
  {
    CrashTolerantConsumption(caching, cs, steps);
    var c := cs[|steps|];
    forall i | 0 <= i < |c.history| ensures c.history[i] == i {
      InOrderOnce(c.history, i);
    }
    if |c.history| < c.committed {
      CountedIsIn(c.history, |c.history|);
    }
  }

  lemma {:induction false} CountedIsIn(history: seq<nat>, o: nat)
    requires multiset(history)[o] >= 1
    ensures exists i :: 0 <= i < |history| && history[i] == o
  {
    assert o in history;
  }

  // ---- the consumer thread

  /** The offsets in a range whose records are not known to the cache. */
  function Fresh(log: seq<string>, cache: set<string>, from: nat, to: nat): seq<nat>
    requires from <= to <= |log|
  {
    if from == to then []
    else Fresh(log, cache, from, to - 1) + if log[to - 1] in cache then [] else [to - 1]
  }

  /** Of the cache, only the keys of these records matter. */
  lemma {:induction false} FreshDependsOnRange(log: seq<string>, cache: set<string>, other: set<string>, from: nat,
                                               end: nat)
    requires from <= end <= |log| && forall o :: from <= o < end ==> (log[o] in cache <==> log[o] in other)
    ensures Fresh(log, cache, from, end) == Fresh(log, other, from, end)
    decreases end
  {
    if from < end {
      FreshDependsOnRange(log, cache, other, from, end - 1);
    }
  }

  lemma {:induction false} FreshSplits(log: seq<string>, cache: set<string>, from: nat, mid: nat, end: nat)
    requires from <= mid <= end <= |log|
    ensures Fresh(log, cache, from, end) == Fresh(log, cache, from, mid) + Fresh(log, cache, mid, end)
    decreases end
  {
    if mid < end {
      FreshSplits(log, cache, from, mid, end - 1);
    }
  }

  /** A run of the machine from `c` to `c1`. */
  ghost predicate Leads(caching: bool, c: Consumer, cs: seq<Consumer>, steps: seq<Step>, c1: Consumer) {
    IsRun(caching, cs, steps) && cs[0] == c && cs[|steps|] == c1
  }

  lemma {:induction false} LeadsNowhere(caching: bool, c: Consumer) returns (cs: seq<Consumer>, steps: seq<Step>)
    ensures Leads(caching, c, cs, steps, c)
  {
    cs, steps := [c], [];
  }

  lemma {:induction false} LeadsOn(caching: bool, c: Consumer, cs: seq<Consumer>, steps: seq<Step>, c1: Consumer,
                                   step: Step)
    returns (cs1: seq<Consumer>, steps1: seq<Step>)
    requires Leads(caching, c, cs, steps, c1) && Enabled(caching, c1, step)
    ensures Leads(caching, c, cs1, steps1, After(caching, c1, step))
  {
    cs1, steps1 := cs + [After(caching, c1, step)], steps + [step];
  }

  lemma {:induction false} LeadsFar(caching: bool, c: Consumer, cs: seq<Consumer>, steps: seq<Step>, c1: Consumer,
                                    cs2: seq<Consumer>, steps2: seq<Step>, c2: Consumer)
    returns (all: seq<Consumer>, allSteps: seq<Step>)
    requires Leads(caching, c, cs, steps, c1) && Leads(caching, c1, cs2, steps2, c2)
    ensures Leads(caching, c, all, allSteps, c2)
  {
    hide Enabled, After;
    all, allSteps := cs + cs2[1..], steps + steps2;
    forall i | 0 <= i < |allSteps|
      ensures Enabled(caching, all[i], allSteps[i]) && all[i + 1] == After(caching, all[i], allSteps[i]) {
      if i >= |steps| {
        assert allSteps[i] == steps2[i - |steps|] && all[i] == cs2[i - |steps|] && all[i + 1] == cs2[i - |steps| + 1];
      }
    }
  }

  /** The consumer thread with its listener; each method's steps form a run of the machine, so what is
  proved about runs holds for it, wherever a crash cuts it short. */
  class KafkaExpressDelivery {
    const caching: bool
    const log: seq<string>
    var committed: nat
    var position: nat
    var cache: set<string>
    var history: seq<nat>
    ghost var undone: multiset<nat>

    constructor (caching: bool, c: Consumer)
      requires c.activity.Idle?
      ensures this.caching == caching && log == c.log && State(Idle(position)) == c
    {
      this.caching, log, committed, position, cache := caching, c.log, c.committed, c.activity.position, c.cache;
      history, undone := c.history, c.undone;
    }

    ghost function State(activity: Activity): Consumer
      reads this
    {
      Consumer(log, committed, cache, activity, history, undone)
    }

    function Duplicates(from: nat, to: nat): set<string>
      reads this
    {
      if caching then cache * Keys(log, from, to) else {}
    }

    /** Handles and caches the records of a batch, leaving out those the cache knew at the start. */
    method ProcessRecords(from: nat, to: nat) returns (ghost cs: seq<Consumer>, ghost steps: seq<Step>)
      requires from < to <= |log| && (!caching ==> cache == {})
      modifies this`cache, this`history
      ensures history == old(history) + Fresh(log, old(cache), from, to)
      ensures cache == if caching then old(cache) + Keys(log, from, to) else old(cache)
      ensures Leads(caching, old(State(Batch(from, to, from, Duplicates(from, to), false))), cs, steps,
                    State(Batch(from, to, to, old(Duplicates(from, to)), false)))
    {
      hide Leads;
      var duplicates := Duplicates(from, to);
      cs, steps := LeadsNowhere(caching, State(Batch(from, to, from, duplicates, false)));
      assert Keys(log, from, from) == {};
      for o := from to to
        invariant history == old(history) + Fresh(log, old(cache), from, o)
        invariant cache == if caching then old(cache) + Keys(log, from, o) else old(cache)
        invariant Leads(caching, old(State(Batch(from, to, from, Duplicates(from, to), false))), cs, steps,
                        State(Batch(from, to, o, duplicates, false)))
      {
        var key := log[o];
        KeysGrow(log, from, o);
        ghost var c := State(Batch(from, to, o, duplicates, false));
        if key !in duplicates {
          history := history + [o];
          cs, steps := LeadsOn(caching, old(State(Batch(from, to, from, Duplicates(from, to), false))), cs, steps, c,
                               Handle);
          ghost var handled := State(Batch(from, to, o, duplicates, true));
          if caching {
            cache := cache + {key};
          }
          cs, steps := LeadsOn(caching, old(State(Batch(from, to, from, Duplicates(from, to), false))), cs, steps,
                               handled, AddItem);
        } else {
          cs, steps := LeadsOn(caching, old(State(Batch(from, to, from, Duplicates(from, to), false))), cs, steps, c,
                               Skip);
        }
      }
    }

    /** One round of `runConsumer`: poll up to `upTo`, process, commit, clean the cache. */
    method ConsumeBatch(upTo: nat) returns (ghost cs: seq<Consumer>, ghost steps: seq<Step>)
      requires position < upTo <= |log| && (!caching ==> cache == {})
      modifies this`cache, this`history, this`committed, this`position
      ensures committed == position == upTo
      ensures history == old(history) + Fresh(log, old(cache), old(position), upTo)
      ensures cache == if caching then old(cache) - Keys(log, old(position), upTo) else old(cache)
      ensures Leads(caching, old(State(Idle(position))), cs, steps, State(Idle(position)))
    {
      hide Leads;
      ghost var c := State(Idle(position));
      var from := position;
      cs, steps := LeadsNowhere(caching, c);
      cs, steps := LeadsOn(caching, c, cs, steps, c, Poll(upTo));
      ghost var polled := State(Batch(from, upTo, from, Duplicates(from, upTo), false));
      ghost var cs2, steps2 := ProcessRecords(from, upTo);
      ghost var done := State(Batch(from, upTo, upTo, polled.activity.duplicates, false));
      cs, steps := LeadsFar(caching, c, cs, steps, polled, cs2, steps2, done);
      committed := upTo;
      cs, steps := LeadsOn(caching, c, cs, steps, done, Commit);
      ghost var clean := State(Cleaning(from, upTo));
      if caching {
        cache := cache - Keys(log, from, upTo);
      }
      position := upTo;
      cs, steps := LeadsOn(caching, c, cs, steps, clean, DeleteItems);
    }

    /** `runConsumer` until the log is used up, with batches of any size. Between a restart and then,
    the listener gets the uncommitted records the cache does not know, once each and in order. */
    method RunConsumer() returns (ghost cs: seq<Consumer>, ghost steps: seq<Step>)
      requires position <= |log| && Unique(log) && (!caching ==> cache == {})
      modifies this`cache, this`history, this`committed, this`position
      ensures position == |log| && (old(position) < |log| ==> committed == |log|)
      ensures history == old(history) + Fresh(log, old(cache), old(position), |log|)
      ensures cache == if caching then old(cache) - Keys(log, old(position), |log|) else old(cache)
      ensures Leads(caching, old(State(Idle(position))), cs, steps, State(Idle(position)))
    {
      hide Leads;
      ghost var c, start := State(Idle(position)), position;
      cs, steps := LeadsNowhere(caching, c);
      assert Keys(log, start, start) == {};
      while position < |log|
        invariant start <= position <= |log| && (start < position ==> committed == position)
        invariant position == start ==> committed == old(committed)
        invariant history == old(history) + Fresh(log, old(cache), start, position)
        invariant cache == if caching then old(cache) - Keys(log, start, position) else old(cache)
        invariant Leads(caching, c, cs, steps, State(Idle(position)))
      {
        var upTo :| position < upTo <= |log|;
        ghost var before, mid, c1 := cache, position, State(Idle(position));
        ghost var cs2, steps2 := ConsumeBatch(upTo);
        cs, steps := LeadsFar(caching, c, cs, steps, c1, cs2, steps2, State(Idle(position)));
        KeysJoin(log, start, mid, upTo);
        LaterStillCached(log, old(cache), start, mid, upTo, caching);
        FreshSplits(log, old(cache), start, mid, upTo);
      }
    }
  }

  lemma {:induction false} KeysGrow(log: seq<string>, from: nat, o: nat)
    requires from <= o < |log|
    ensures Keys(log, from, o + 1) == Keys(log, from, o) + {log[o]}
    ensures forall to :: o < to <= |log| ==> log[o] in Keys(log, from, to)
  {
  }

  lemma {:induction false} KeysJoin(log: seq<string>, from: nat, mid: nat, to: nat)
    requires from <= mid <= to <= |log|
    ensures Keys(log, from, to) == Keys(log, from, mid) + Keys(log, mid, to)
  {
  }

  /** Cleaning after a batch does not touch the keys of later records. */
  lemma {:induction false} LaterStillCached(log: seq<string>, cache: set<string>, from: nat, mid: nat, to: nat,
                                            caching: bool)
    requires from <= mid <= to <= |log| && Unique(log)
    ensures Fresh(log, cache - Keys(log, from, mid), mid, to) == Fresh(log, cache, mid, to)
  {
    forall o | mid <= o < to ensures log[o] !in Keys(log, from, mid) {
    }
    FreshDependsOnRange(log, cache - Keys(log, from, mid), cache, mid, to);
  }
}
