/** The harvester condition checker that watches the total plot count: the
    count is not expected to fall, and a fall is a sign of a disk that came
    loose. It remembers only the last count it saw. */
module PlotCheckers {
  import opened Maybe
  import opened Text
  import opened Events

  /** A harvester activity line; only the total plot count is read here. */
  datatype HarvesterActivityMessage = HarvesterActivityMessage(totalPlotsCount: int)

  function IncreaseMessage(previous: int, count: int): string
  {
    "Connected HDD? The total plot count increased from "
    + IntToDecimal(previous) + " to " + IntToDecimal(count) + "."
  }

  function DecreaseMessage(previous: int, count: int): string
  {
    "Disconnected HDD? The total plot count decreased from "
    + IntToDecimal(previous) + " to " + IntToDecimal(count) + "."
  }

  /** The event one observation of `count` produces when the previous
      observation was `previous`: an increase from a non-zero count by more
      than `increaseThreshold`, or a decrease by at least `decreaseThreshold`. */
  function PlotChange(previous: int, count: int, increaseThreshold: int, decreaseThreshold: int): (event: Option<Event>)
    ensures event.Some? && event.value.eventType == PLOTINCREASE
            <==> previous > 0 && count > previous && count - previous > increaseThreshold
    ensures event.Some? && event.value.eventType == PLOTDECREASE
            <==> count < previous && previous - count >= decreaseThreshold
    ensures event.Some? ==> event.value.eventType in {PLOTINCREASE, PLOTDECREASE}
                            && event.value.service == HARVESTER
                            && event.value.priority == (if event.value.eventType == PLOTINCREASE then LOW else HIGH)
    ensures count == previous ==> event.None?
  {
    if previous > 0 && count > previous && count - previous > increaseThreshold then
      Some(Event(PLOTINCREASE, LOW, HARVESTER, IncreaseMessage(previous, count)))
    else if count < previous && previous - count >= decreaseThreshold then
      Some(Event(PLOTDECREASE, HIGH, HARVESTER, DecreaseMessage(previous, count)))
    else
      None
  }

  /** The thresholds a checker is built with. */
  const DefaultThreshold: int := 2

  /** What each observation yields, with the default thresholds. */
  function Step(previous: int, count: int): Option<Event>
  {
    PlotChange(previous, count, DefaultThreshold, DefaultThreshold)
  }

  /** With the default thresholds: an increase alert exactly for a rise of
      three or more from a non-zero count, a decrease alert exactly for a drop
      of two or more, never both, and nothing for an unchanged count. */
  lemma StepAlerts(previous: int, count: int)
    ensures Step(previous, count).Some? && Step(previous, count).value.eventType == PLOTINCREASE
            <==> previous > 0 && count >= previous + 3
    ensures Step(previous, count).Some? && Step(previous, count).value.eventType == PLOTDECREASE
            <==> count <= previous - 2
    ensures Step(previous, count).Some? ==>
              Step(previous, count).value.eventType in {PLOTINCREASE, PLOTDECREASE}
              && Step(previous, count).value.service == HARVESTER
              && Step(previous, count).value.priority == (if count > previous then LOW else HIGH)
    ensures Step(0, count).None? || Step(0, count).value.eventType == PLOTDECREASE
    ensures Step(count, count).None?
  {
  }

  /** Events produced by observing `counts` one after another, starting from
      a checker that last saw `previous`. */
  function Observe(previous: int, counts: seq<int>): seq<Event>
    decreases |counts|
  {
    if counts == [] then []
    else
      (match Step(previous, counts[0]) case Some(e) => [e] case None => [])
      + Observe(counts[0], counts[1..])
  }

  /** At most one event per observation. */
  lemma {:induction false} ObserveBound(previous: int, counts: seq<int>)
    ensures |Observe(previous, counts)| <= |counts|
    decreases |counts|
  {
    if counts != [] {
      ObserveBound(counts[0], counts[1..]);
    }
  }

  predicate NonDecreasing(previous: int, counts: seq<int>)
  {
    (counts != [] ==> previous <= counts[0])
    && forall i :: 0 < i < |counts| ==> counts[i - 1] <= counts[i]
  }

  /** A plot count that never falls never raises a decrease alert. */
  lemma {:induction false} NonDecreasingNeverAlarms(previous: int, counts: seq<int>)
    requires NonDecreasing(previous, counts)
    ensures forall e :: e in Observe(previous, counts) ==> e.eventType != PLOTDECREASE
    decreases |counts|
  {
    if counts != [] {
      assert NonDecreasing(counts[0], counts[1..]) by {
        forall i | 0 < i < |counts[1..]|
          ensures counts[1..][i - 1] <= counts[1..][i]
        {
          assert counts[1..][i] == counts[i + 1];
        }
      }
      NonDecreasingNeverAlarms(counts[0], counts[1..]);
    }
  }

  /** Every observation differs from the one before by less than the
      alert thresholds: a fall of at most one and a rise of at most two. */
  predicate SmallChanges(previous: int, counts: seq<int>)
  {
    (counts != [] ==> previous - 1 <= counts[0] <= previous + 2)
    && forall i :: 0 < i < |counts| ==> counts[i - 1] - 1 <= counts[i] <= counts[i - 1] + 2
  }

  /** Changes inside the thresholds, such as a plot briefly missing while it
      is copied, raise no alert at all. */
  lemma {:induction false} SmallChangesAreSilent(previous: int, counts: seq<int>)
    requires SmallChanges(previous, counts)
    ensures Observe(previous, counts) == []
    decreases |counts|
  {
    if counts != [] {
      assert SmallChanges(counts[0], counts[1..]) by {
        forall i | 0 < i < |counts[1..]|
          ensures counts[1..][i - 1] - 1 <= counts[1..][i] <= counts[1..][i - 1] + 2
        {
          assert counts[1..][i] == counts[i + 1];
        }
      }
      SmallChangesAreSilent(counts[0], counts[1..]);
    }
  }

  /** Edge triggering: holding a count steady after reaching it emits nothing,
      however long it is held. */
  lemma {:induction false} SteadyCountIsSilent(count: int, n: nat)
    ensures Observe(count, seq(n, _ => count)) == []
  {
    if n > 0 {
      var counts := seq(n, _ => count);
      assert counts[1..] == seq(n - 1, _ => count);
      SteadyCountIsSilent(count, n - 1);
    }
  }

  class NonDecreasingPlots {
    /** The last total plot count observed (not a running maximum). */
    var maxFarmedPlots: int
    const decreaseWarnThreshold: int
    const increaseInfoThreshold: int

    constructor ()
      ensures maxFarmedPlots == 0
      ensures decreaseWarnThreshold == DefaultThreshold && increaseInfoThreshold == DefaultThreshold
    {
      maxFarmedPlots := 0;
      decreaseWarnThreshold := DefaultThreshold;
      increaseInfoThreshold := DefaultThreshold;
    }

    /** Compares the new count with the last one, reports at most one event,
        and remembers the new count whichever branch ran. */
    method Check(obj: HarvesterActivityMessage) returns (event: Option<Event>)
      modifies this
      ensures maxFarmedPlots == obj.totalPlotsCount
      ensures event == PlotChange(old(maxFarmedPlots), obj.totalPlotsCount, increaseInfoThreshold, decreaseWarnThreshold)
    {
      event := None;
      // no increase alert from zero, so a restart does not announce every plot
      if maxFarmedPlots > 0 && obj.totalPlotsCount > maxFarmedPlots {
        var message := IncreaseMessage(maxFarmedPlots, obj.totalPlotsCount);
        if obj.totalPlotsCount - maxFarmedPlots > increaseInfoThreshold {
          event := Some(Event(PLOTINCREASE, LOW, HARVESTER, message));
        }
        maxFarmedPlots := obj.totalPlotsCount;
      }
      if obj.totalPlotsCount < maxFarmedPlots {
        // a drop below the threshold (a plot being copied) is only logged
        if maxFarmedPlots - obj.totalPlotsCount >= decreaseWarnThreshold {
          var message := DecreaseMessage(maxFarmedPlots, obj.totalPlotsCount);
          event := Some(Event(PLOTDECREASE, HIGH, HARVESTER, message));
        }
      }
      maxFarmedPlots := obj.totalPlotsCount;
    }
  }
}
