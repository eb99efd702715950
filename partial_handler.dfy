/** The handler for partial (pooling) log lines: parse the logs once, hand
    every parsed record to the stats collaborator, then run every record
    through every registered condition checker, collecting the events.
    The partial parser, the checkers and the stats manager live outside this
    model; they appear here as small classes: the parser and each checker
    carry their behaviour as a function, and the stats manager records the
    batches it was given. Each of their methods also extends a ghost
    `CallLog` with the call it served, so the order of the calls a `handle`
    makes is part of what is proved about it. */
module PartialHandlers {
  import opened Maybe
  import opened Events

  /** A partial condition checker: private state of type `S`, and the
      transition its `check` applies to a record of type `M`. */
  class ConditionChecker<S, M> {
    var state: S
    const transition: (S, M) -> (S, Option<Event>)

    constructor (initial: S, transition: (S, M) -> (S, Option<Event>))
      ensures state == initial && this.transition == transition
    {
      state := initial;
      this.transition := transition;
    }

    /** `check`, called as checker number `position` on record number
        `index`; the call is logged with the state it started from. */
    method Check(msg: M, ghost log: CallLog<S, M>, ghost position: nat, ghost index: nat) returns (event: Option<Event>)
      modifies this, log
      ensures (state, event) == transition(old(state), msg)
      ensures log.steps == old(log.steps) + [Checked(position, index, msg, old(state), event)]
    {
      var next := transition(state, msg);
      log.steps := log.steps + [Checked(position, index, msg, state, next.1)];
      state, event := next.0, next.1;
    }
  }

  /** The partial parser, a stateless function of the log text. */
  class PartialParser<M> {
    const parseLogs: string -> seq<M>

    constructor (parseLogs: string -> seq<M>)
      ensures this.parseLogs == parseLogs
    {
      this.parseLogs := parseLogs;
    }

    method Parse<S>(logs: string, ghost log: CallLog<S, M>) returns (messages: seq<M>)
      modifies log
      ensures messages == parseLogs(logs)
      ensures log.steps == old(log.steps) + [Parsed(logs, messages)]
    {
      messages := parseLogs(logs);
      log.steps := log.steps + [Parsed(logs, messages)];
    }
  }

  /** The stats manager, reduced to the batches it has been handed. */
  class StatsManager<M> {
    var consumed: seq<seq<M>>

    constructor ()
      ensures consumed == []
    {
      consumed := [];
    }

    method ConsumePartialMessages<S>(messages: seq<M>, ghost log: CallLog<S, M>)
      modifies this, log
      ensures consumed == old(consumed) + [messages]
      ensures log.steps == old(log.steps) + [StatsFed(messages)]
    {
      consumed := consumed + [messages];
      log.steps := log.steps + [StatsFed(messages)];
    }
  }

  /** The calls made to the collaborators, in the order they were made. */
  class CallLog<S, M> {
    ghost var steps: seq<Step<S, M>>

    constructor ()
      ensures steps == []
    {
      steps := [];
    }
  }

  /** One observable step of a `handle` call, in the order it happened. A
      check names the checker's position and the record's position. */
  datatype Step<S, M> =
    | Parsed(logs: string, messages: seq<M>)
    | StatsFed(batch: seq<M>)
    | Checked(checker: nat, index: nat, message: M, before: S, result: Option<Event>)

  /** The state a checker reaches from `s` by checking `messages` in order. */
  ghost function Run<S, M>(transition: (S, M) -> (S, Option<Event>), s: S, messages: seq<M>): S
    decreases |messages|
  {
    if messages == [] then s
    else transition(Run(transition, s, messages[..|messages| - 1]), messages[|messages| - 1]).0
  }

  /** The states of `checkers`, in order. */
  ghost function States<S, M>(checkers: seq<ConditionChecker<S, M>>): (states: seq<S>)
    reads checkers
    ensures |states| == |checkers|
    ensures forall j :: 0 <= j < |checkers| ==> states[j] == checkers[j].state
  {
    seq(|checkers|, j requires 0 <= j < |checkers| reads checkers => checkers[j].state)
  }

  /** The transitions of `checkers`, in order; they never change. */
  ghost function Transitions<S, M>(checkers: seq<ConditionChecker<S, M>>): (transitions: seq<(S, M) -> (S, Option<Event>)>)
    ensures |transitions| == |checkers|
    ensures forall j :: 0 <= j < |checkers| ==> transitions[j] == checkers[j].transition
  {
    seq(|checkers|, j requires 0 <= j < |checkers| => checkers[j].transition)
  }

  /** Where each checker stands after checking `messages`, having started
      from its entry in `initial`. */
  ghost function RunAll<S, M>(transitions: seq<(S, M) -> (S, Option<Event>)>, initial: seq<S>, messages: seq<M>): seq<S>
    requires |initial| == |transitions|
  {
    seq(|transitions|, j requires 0 <= j < |transitions| => Run(transitions[j], initial[j], messages))
  }

  /** Where each checker stands after checking one more record. */
  ghost function Next<S, M>(transitions: seq<(S, M) -> (S, Option<Event>)>, states: seq<S>, message: M): seq<S>
    requires |states| == |transitions|
  {
    seq(|transitions|, j requires 0 <= j < |transitions| => transitions[j](states[j], message).0)
  }

  /** The checks of record `i`, `message`, by every checker from `states`. */
  ghost function RowOf<S, M>(transitions: seq<(S, M) -> (S, Option<Event>)>, states: seq<S>, i: nat, message: M): seq<Step<S, M>>
    requires |states| == |transitions|
  {
    seq(|transitions|, j requires 0 <= j < |transitions| =>
      Checked(j, i, message, states[j], transitions[j](states[j], message).1))
  }

  /** The step checked record `index` of `messages` with checker `checker`,
      which started from the state its earlier records left it in (having
      begun in `initial[checker]`) and answered by its transition. */
  ghost predicate Applied<S, M>(transitions: seq<(S, M) -> (S, Option<Event>)>, initial: seq<S>, messages: seq<M>, step: Step<S, M>)
  {
    step.Checked? && step.checker < |transitions| && step.checker < |initial| && step.index < |messages|
    && step.message == messages[step.index]
    && step.before == Run(transitions[step.checker], initial[step.checker], messages[..step.index])
    && step.result == transitions[step.checker](step.before, step.message).1
  }

  /** Every record position paired with every checker position: records in
      parse order, and for each record the checkers in registration order. */
  function Schedule(records: nat, n: nat): seq<(nat, nat)>
    decreases records
  {
    if records == 0 then [] else Schedule(records - 1, n) + Row(records - 1, n)
  }

  function Row(i: nat, n: nat): seq<(nat, nat)>
  {
    seq(n, j => (i, j))
  }

  /** Which (record, checker) positions the steps checked, in order. */
  function Targets<S, M>(steps: seq<Step<S, M>>): seq<(nat, nat)>
    decreases |steps|
  {
    if steps == [] then []
    else
      var last := steps[|steps| - 1];
      Targets(steps[..|steps| - 1]) + (if last.Checked? then [(last.index, last.checker)] else [])
  }

  /** The events the checks answered with, in order; one at most per check. */
  function Emitted<S, M>(steps: seq<Step<S, M>>): (events: seq<Event>)
    ensures |events| <= |Targets(steps)|
    decreases |steps|
  {
    if steps == [] then []
    else
      var last := steps[|steps| - 1];
      Emitted(steps[..|steps| - 1])
      + (if last.Checked? && last.result.Some? then [last.result.value] else [])
  }

  /** Checking one more record moves a checker one transition further. */
  lemma RunStep<S, M>(transition: (S, M) -> (S, Option<Event>), s: S, messages: seq<M>, i: nat)
    requires i < |messages|
    ensures Run(transition, s, messages[..i + 1]) == transition(Run(transition, s, messages[..i]), messages[i]).0
  {
    assert messages[..i + 1][..i] == messages[..i];
  }

  /** Checking two batches one after the other leaves a checker where
      checking them as one batch would: the state carried between `handle`
      calls is the same as if the logs had arrived together. */
  lemma {:induction false} RunConcat<S, M>(transition: (S, M) -> (S, Option<Event>), s: S, first: seq<M>, second: seq<M>)
    ensures Run(transition, s, first + second) == Run(transition, Run(transition, s, first), second)
    decreases |second|
  {
    if second != [] {
      var init := second[..|second| - 1];
      RunConcat(transition, s, first, init);
      assert (first + second)[..|first + second| - 1] == first + init;
    } else {
      assert first + second == first;
    }
  }

  /** The schedule has one entry per record and checker. */
  lemma {:induction false} ScheduleLength(records: nat, n: nat)
    ensures |Schedule(records, n)| == records * n
    decreases records
  {
    if records > 0 {
      var k := records - 1;
      ScheduleLength(k, n);
      assert |Row(k, n)| == n;
      assert |Schedule(records, n)| == k * n + n;
      assert k * n + n == (k + 1) * n;
    }
  }

  /** Entry `i * n + j` of the schedule pairs record `i` with checker `j`. */
  lemma {:induction false} ScheduleAt(records: nat, n: nat, i: nat, j: nat)
    requires i < records && j < n
    ensures i * n + j < |Schedule(records, n)|
    ensures Schedule(records, n)[i * n + j] == (i, j)
    decreases records
  {
    var k := records - 1;
    ScheduleLength(k, n);
    ScheduleLength(records, n);
    if i < k {
      ScheduleAt(k, n, i, j);
      MulMonotone(i + 1, k, n);
    } else {
      assert Schedule(records, n) == Schedule(k, n) + Row(k, n);
    }
  }

  lemma MulMonotone(a: nat, b: nat, n: nat)
    requires a <= b
    ensures a * n <= b * n
  {
  }

  /** One more step extends the checked pairs and the emitted events by
      what that step contributes. */
  lemma StepAppended<S, M>(steps: seq<Step<S, M>>, step: Step<S, M>)
    ensures Targets(steps + [step]) == Targets(steps) + (if step.Checked? then [(step.index, step.checker)] else [])
    ensures Emitted(steps + [step]) == Emitted(steps) + (if step.Checked? && step.result.Some? then [step.result.value] else [])
  {
    assert (steps + [step])[..|steps|] == steps;
  }

  /** Every event the checks emitted is the answer of one of them. */
  lemma {:induction false} EmittedComesFromACheck<S, M>(steps: seq<Step<S, M>>, e: Event)
    requires e in Emitted(steps)
    ensures exists k :: 0 <= k < |steps| && steps[k].Checked? && steps[k].result == Some(e)
    decreases |steps|
  {
    var init := steps[..|steps| - 1];
    var last := steps[|steps| - 1];
    if e in Emitted(init) {
      EmittedComesFromACheck(init, e);
      var k :| 0 <= k < |init| && init[k].Checked? && init[k].result == Some(e);
      assert steps[k] == init[k];
    } else {
      assert last.Checked? && last.result == Some(e);
    }
  }

  /** The checked pairs and the emitted events of two runs of steps, one
      after the other, are those of the first followed by those of the second. */
  lemma {:induction false} StepsConcat<S, M>(first: seq<Step<S, M>>, second: seq<Step<S, M>>)
    ensures Targets(first + second) == Targets(first) + Targets(second)
    ensures Emitted(first + second) == Emitted(first) + Emitted(second)
    decreases |second|
  {
    if second == [] {
      assert first + second == first;
    } else {
      var init := second[..|second| - 1];
      var last := second[|second| - 1];
      assert first + second == (first + init) + [last];
      assert second == init + [last];
      StepsConcat(first, init);
      StepAppended(first + init, last);
      StepAppended(init, last);
    }
  }

  /** Checking one more record moves every checker one transition further. */
  lemma RunAllStep<S, M>(transitions: seq<(S, M) -> (S, Option<Event>)>, initial: seq<S>, messages: seq<M>, i: nat)
    requires i < |messages| && |initial| == |transitions|
    ensures Next(transitions, RunAll(transitions, initial, messages[..i]), messages[i])
            == RunAll(transitions, initial, messages[..i + 1])
  {
    forall j | 0 <= j < |transitions|
      ensures Next(transitions, RunAll(transitions, initial, messages[..i]), messages[i])[j]
              == RunAll(transitions, initial, messages[..i + 1])[j]
    {
      RunStep(transitions[j], initial[j], messages, i);
    }
  }

  /** The checks made on the first `i` records: for each record in order,
      one check per checker, each from the state the earlier records left. */
  ghost function Checks<S, M>(transitions: seq<(S, M) -> (S, Option<Event>)>, initial: seq<S>, messages: seq<M>, i: nat)
    : seq<Step<S, M>>
    requires |initial| == |transitions| && i <= |messages|
    decreases i
  {
    if i == 0 then []
    else
      Checks(transitions, initial, messages, i - 1)
      + RowOf(transitions, RunAll(transitions, initial, messages[..i - 1]), i - 1, messages[i - 1])
  }

  /** Each of those checks is an application of its checker to its record. */
  lemma {:induction false} ChecksApplied<S, M>(transitions: seq<(S, M) -> (S, Option<Event>)>, initial: seq<S>,
                                               messages: seq<M>, i: nat)
    requires |initial| == |transitions| && i <= |messages|
    ensures forall k :: 0 <= k < |Checks(transitions, initial, messages, i)| ==>
              Applied(transitions, initial, messages, Checks(transitions, initial, messages, i)[k])
    decreases i
  {
    if i > 0 {
      ChecksApplied(transitions, initial, messages, i - 1);
      var init := Checks(transitions, initial, messages, i - 1);
      var row := RowOf(transitions, RunAll(transitions, initial, messages[..i - 1]), i - 1, messages[i - 1]);
      forall k | 0 <= k < |init + row|
        ensures Applied(transitions, initial, messages, (init + row)[k])
      {
        if k < |init| {
          assert (init + row)[k] == init[k];
        } else {
          var j := k - |init|;
          assert (init + row)[k] == row[j];
          assert row[j].before == Run(transitions[j], initial[j], messages[..i - 1]);
        }
      }
    }
  }

  /** The checks of one record are scheduled as the row of that record. */
  lemma {:induction false} RowOfScheduled<S, M>(transitions: seq<(S, M) -> (S, Option<Event>)>, states: seq<S>,
                                                i: nat, message: M, j: nat)
    requires |states| == |transitions| && j <= |transitions|
    ensures Targets(RowOf(transitions, states, i, message)[..j]) == Row(i, |transitions|)[..j]
    decreases j
  {
    var row := RowOf(transitions, states, i, message);
    if j > 0 {
      RowOfScheduled(transitions, states, i, message, j - 1);
      assert row[..j] == row[..j - 1] + [row[j - 1]];
      StepAppended(row[..j - 1], row[j - 1]);
      assert Row(i, |transitions|)[..j] == Row(i, |transitions|)[..j - 1] + [(i, j - 1)];
    }
  }

  /** The checks of the first `i` records follow the schedule. */
  lemma {:induction false} ChecksScheduled<S, M>(transitions: seq<(S, M) -> (S, Option<Event>)>, initial: seq<S>,
                                                 messages: seq<M>, i: nat)
    requires |initial| == |transitions| && i <= |messages|
    ensures Targets(Checks(transitions, initial, messages, i)) == Schedule(i, |transitions|)
    decreases i
  {
    if i > 0 {
      ChecksScheduled(transitions, initial, messages, i - 1);
      var states := RunAll(transitions, initial, messages[..i - 1]);
      var row := RowOf(transitions, states, i - 1, messages[i - 1]);
      RowOfScheduled(transitions, states, i - 1, messages[i - 1], |transitions|);
      assert row[..|transitions|] == row;
      assert Row(i - 1, |transitions|)[..|transitions|] == Row(i - 1, |transitions|);
      StepsConcat(Checks(transitions, initial, messages, i - 1), row);
    }
  }

  /** Steps that check nothing, put in front, change neither the checked
      pairs nor the emitted events. */
  lemma {:induction false} LeadIsSilent<S, M>(lead: seq<Step<S, M>>, checks: seq<Step<S, M>>)
    requires forall k :: 0 <= k < |lead| ==> !lead[k].Checked?
    ensures Targets(lead + checks) == Targets(checks)
    ensures Emitted(lead + checks) == Emitted(checks)
    decreases |lead| + |checks|
  {
    if checks == [] {
      if lead != [] {
        var init := lead[..|lead| - 1];
        assert lead + checks == init + [lead[|lead| - 1]];
        StepAppended(init, lead[|lead| - 1]);
        LeadIsSilent(init, []);
        assert init + [] == init;
      }
      assert lead + checks == lead;
    } else {
      var last := checks[|checks| - 1];
      var init := checks[..|checks| - 1];
      assert lead + checks == (lead + init) + [last];
      assert checks == init + [last];
      StepAppended(lead + init, last);
      StepAppended(init, last);
      LeadIsSilent(lead, init);
    }
  }

  /** The steps of `handle` before any check: the parse of `logs` into
      `messages`, then, when a stats manager is `fed`, the hand-over of them. */
  function Lead<S, M>(logs: string, messages: seq<M>, fed: bool): (lead: seq<Step<S, M>>)
    ensures |lead| == if fed then 2 else 1
    ensures lead[0] == Parsed(logs, messages)
    ensures fed ==> lead[1] == StatsFed(messages)
    ensures forall k :: 0 <= k < |lead| ==> !lead[k].Checked?
  {
    [Parsed(logs, messages)] + (if fed then [StatsFed(messages)] else [])
  }

  /** The steps of a `handle` call on `logs`, parsed into `messages`, with
      checkers whose transitions are `transitions` and that stand in `initial`. */
  ghost function HandleSteps<S, M>(transitions: seq<(S, M) -> (S, Option<Event>)>, initial: seq<S>, logs: string,
                                   messages: seq<M>, fed: bool): seq<Step<S, M>>
    requires |initial| == |transitions|
  {
    Lead(logs, messages, fed) + Checks(transitions, initial, messages, |messages|)
  }

  /** `trace` is `lead` followed by checks alone, each applying its checker
      to its record from where the earlier records left that checker, and
      together covering every record and checker in the order of the schedule. */
  ghost predicate Traced<S, M>(transitions: seq<(S, M) -> (S, Option<Event>)>, initial: seq<S>, messages: seq<M>,
                               lead: seq<Step<S, M>>, trace: seq<Step<S, M>>)
  {
    |lead| <= |trace| && trace[..|lead|] == lead
    && (forall k :: |lead| <= k < |trace| ==> Applied(transitions, initial, messages, trace[k]))
    && Targets(trace) == Schedule(|messages|, |transitions|)
  }

  /** The steps of a whole `handle` call: a lead that checks nothing, then
      the checks of every record. Each check is an application of its
      checker, they follow the schedule, and they emit at most one event each. */
  lemma HandleTrace<S, M>(transitions: seq<(S, M) -> (S, Option<Event>)>, initial: seq<S>, messages: seq<M>,
                          logs: string, fed: bool)
    requires |initial| == |transitions|
    ensures var trace := HandleSteps(transitions, initial, logs, messages, fed);
            Traced(transitions, initial, messages, Lead(logs, messages, fed), trace)
            && Emitted(trace) == Emitted(Checks(transitions, initial, messages, |messages|))
            && |Emitted(trace)| <= |messages| * |transitions|
  {
    var lead: seq<Step<S, M>> := Lead(logs, messages, fed);
    var checks := Checks(transitions, initial, messages, |messages|);
    var trace := lead + checks;
    ChecksApplied(transitions, initial, messages, |messages|);
    ChecksScheduled(transitions, initial, messages, |messages|);
    ScheduleLength(|messages|, |transitions|);
    forall k | |lead| <= k < |trace|
      ensures Applied(transitions, initial, messages, trace[k])
    {
      ConcatAt(lead, checks, k);
    }
    ConcatPrefix(lead, checks);
    LeadIsSilent(lead, checks);
  }

  lemma Regroup<T>(a: seq<T>, b: seq<T>, c: seq<T>)
    ensures (a + b) + c == a + (b + c)
  {
  }

  lemma ConcatPrefix<T>(a: seq<T>, b: seq<T>)
    ensures (a + b)[..|a|] == a
  {
  }

  lemma ConcatAt<T>(a: seq<T>, b: seq<T>, k: nat)
    requires |a| <= k < |a| + |b|
    ensures (a + b)[k] == b[k - |a|]
  {
  }

  lemma PrefixGrows<T>(s: seq<T>, j: nat)
    requires j < |s|
    ensures s[..j + 1] == s[..j] + [s[j]]
  {
  }

  /** Lines 33-35 of `handle`: the logs are parsed once, and the parsed
      records go to the stats manager when there is one. */
  method ParseAndFeed<S, M>(parser: PartialParser<M>, logs: string, statsManager: StatsManager?<M>, ghost log: CallLog<S, M>)
    returns (messages: seq<M>)
    modifies statsManager, log
    ensures messages == parser.parseLogs(logs)
    ensures statsManager != null ==> statsManager.consumed == old(statsManager.consumed) + [messages]
    ensures log.steps == old(log.steps) + Lead(logs, messages, statsManager != null)
  {
    ghost var logged := log.steps;
    messages := parser.Parse(logs, log);
    if statsManager != null {
      statsManager.ConsumePartialMessages(messages, log);
      Regroup(logged, [Parsed(logs, messages)], [StatsFed(messages)]);
    }
  }

  /** The inner loop of `handle`: record number `i`, `message`, goes to
      every checker in registration order, and each checker, standing in
      `pre`, moves one transition further. */
  method CheckRecord<S, M>(checkers: seq<ConditionChecker<S, M>>, ghost pre: seq<S>, message: M, ghost i: nat,
                           ghost log: CallLog<S, M>)
    returns (events: seq<Event>, ghost row: seq<Step<S, M>>)
    requires forall a, b :: 0 <= a < b < |checkers| ==> checkers[a] != checkers[b]
    requires |pre| == |checkers| && forall j :: 0 <= j < |checkers| ==> checkers[j].state == pre[j]
    modifies checkers, log
    ensures forall j :: 0 <= j < |checkers| ==> checkers[j].state == Next(Transitions(checkers), pre, message)[j]
    ensures row == RowOf(Transitions(checkers), pre, i, message)
    ensures log.steps == old(log.steps) + row
    ensures events == Emitted(row)
  {
    ghost var logged := log.steps;
    ghost var transitions := Transitions(checkers);
    ghost var post := Next(transitions, pre, message);
    ghost var full := RowOf(transitions, pre, i, message);
    var n := |checkers|;
    events, row := [], [];
    var j := 0;
    while j < n
      invariant 0 <= j <= n
      invariant row == full[..j]
      invariant forall jj :: 0 <= jj < j ==> checkers[jj].state == post[jj]
      invariant forall jj :: j <= jj < n ==> checkers[jj].state == pre[jj]
      invariant log.steps == logged + row
      invariant events == Emitted(row)
    {
      var checker := checkers[j];
      var event := checker.Check(message, log, j, i);
      ghost var step := full[j];
      StepAppended(row, step);
      PrefixGrows(full, j);
      Regroup(logged, row, [step]);
      row := row + [step];
      if event.Some? {
        events := events + [event.value];
      }
      j := j + 1;
    }
  }

  /** The outer loop of `handle`: every record, in parse order, goes through
      every checker, each checker carrying its state from record to record. */
  method CheckRecords<S, M>(checkers: seq<ConditionChecker<S, M>>, ghost initial: seq<S>, messages: seq<M>,
                            ghost log: CallLog<S, M>)
    returns (events: seq<Event>, ghost checks: seq<Step<S, M>>)
    requires forall a, b :: 0 <= a < b < |checkers| ==> checkers[a] != checkers[b]
    requires |initial| == |checkers| && forall j :: 0 <= j < |checkers| ==> checkers[j].state == initial[j]
    modifies checkers, log
    ensures States(checkers) == RunAll(Transitions(checkers), initial, messages)
    ensures checks == Checks(Transitions(checkers), initial, messages, |messages|)
    ensures log.steps == old(log.steps) + checks
    ensures events == Emitted(checks)
  {
    ghost var logged := log.steps;
    ghost var transitions := Transitions(checkers);
    ghost var cur := initial;
    assert RunAll(transitions, initial, messages[..0]) == initial;
    events, checks := [], [];
    var i := 0;
    while i < |messages|
      invariant 0 <= i <= |messages|
      invariant |cur| == |checkers| && forall j :: 0 <= j < |checkers| ==> checkers[j].state == cur[j]
      invariant cur == RunAll(transitions, initial, messages[..i])
      invariant checks == Checks(transitions, initial, messages, i)
      invariant log.steps == logged + checks
      invariant events == Emitted(checks)
    {
      var found, row := CheckRecord(checkers, cur, messages[i], i, log);
      RunAllStep(transitions, initial, messages, i);
      StepsConcat(checks, row);
      Regroup(logged, checks, row);
      cur := Next(transitions, cur, messages[i]);
      checks := checks + row;
      events := events + found;
      i := i + 1;
    }
    assert messages[..i] == messages;
    assert States(checkers) == cur;
  }

  /** The body of `handle`, for a parser, the registered checkers standing
      in `initial`, and an optional stats manager. */
  method HandleBatch<S, M>(parser: PartialParser<M>, checkers: seq<ConditionChecker<S, M>>, ghost initial: seq<S>,
                           logs: string, statsManager: StatsManager?<M>, ghost log: CallLog<S, M>)
    returns (events: seq<Event>, ghost trace: seq<Step<S, M>>)
    requires forall a, b :: 0 <= a < b < |checkers| ==> checkers[a] != checkers[b]
    requires |initial| == |checkers| && forall j :: 0 <= j < |checkers| ==> checkers[j].state == initial[j]
    modifies checkers, statsManager, log
    ensures log.steps == old(log.steps) + trace
    ensures trace == HandleSteps(Transitions(checkers), initial, logs, parser.parseLogs(logs), statsManager != null)
    ensures events == Emitted(trace)
    ensures States(checkers) == RunAll(Transitions(checkers), initial, parser.parseLogs(logs))
    ensures statsManager != null ==>
              statsManager.consumed == old(statsManager.consumed) + [parser.parseLogs(logs)]
  {
    ghost var logged := log.steps;
    var activityMessages := ParseAndFeed(parser, logs, statsManager, log);
    ghost var lead: seq<Step<S, M>> := Lead(logs, activityMessages, statsManager != null);
    ghost var checks;
    events, checks := CheckRecords(checkers, initial, activityMessages, log);
    trace := HandleSteps(Transitions(checkers), initial, logs, activityMessages, statsManager != null);
    Regroup(logged, lead, checks);
    LeadIsSilent(lead, checks);
  }

  class PartialHandler<S, M> {
    const parser: PartialParser<M>
    /** The registered checkers, in registration order; filled in by the
        configuration code that builds the handler. */
    var condCheckers: seq<ConditionChecker<S, M>>

    /** A fresh handler has its parser and no checkers. */
    constructor (parseLogs: string -> seq<M>)
      ensures fresh(parser) && parser.parseLogs == parseLogs
      ensures condCheckers == []
    {
      parser := new PartialParser(parseLogs);
      condCheckers := [];
    }

    /** Processes a batch of log text. `trace` is what the collaborators
        logged during the call, in order: one parse, then the stats hand-over
        when a stats manager is given, then one check per record and checker,
        each checker carrying its state from one record to the next. */
    method Handle(logs: string, statsManager: StatsManager?<M>, ghost log: CallLog<S, M>)
      returns (events: seq<Event>, ghost trace: seq<Step<S, M>>)
      requires forall a, b :: 0 <= a < b < |condCheckers| ==> condCheckers[a] != condCheckers[b]
      modifies condCheckers, statsManager, log
      ensures log.steps == old(log.steps) + trace
      ensures trace == HandleSteps(Transitions(condCheckers), old(States(condCheckers)), logs, parser.parseLogs(logs),
                                   statsManager != null)
      ensures events == Emitted(trace)
      ensures States(condCheckers) == RunAll(Transitions(condCheckers), old(States(condCheckers)), parser.parseLogs(logs))
      ensures statsManager != null ==>
                statsManager.consumed == old(statsManager.consumed) + [parser.parseLogs(logs)]
    {
      events, trace := HandleBatch(parser, condCheckers, States(condCheckers), logs, statsManager, log);
    }
  }
}
