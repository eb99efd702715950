/** The filtering policy shared by every notification channel: the lists of
    subscribed types and services, the title of a notification, and the
    ignore and allow predicates with their restart grace period.
    The clock, Python's `re.search` and the JSON-logic evaluator are not
    part of this model: the current time is a parameter, and the two
    evaluators are functions passed in that may report a raised exception. */
module Notifiers {
  import opened Maybe
  import opened Text
  import opened Events

  /** Seconds after launch during which restart noise is dropped (30 minutes). */
  const GraceSeconds: int := 30 * 60

  const OfflineWarning: string := "Your harvester appears to be offline!"
  const NetworkingWarning: string := "Experiencing networking issues?"
  const CoinReceived: string := "Cha-ching!"

  const AlertIcon: string := "\U{1F6A8}"              // rotating light, for HIGH
  const WarningIcon: string := "\U{26A0}\U{FE0F}"     // warning sign, for NORMAL
  const InfoIcon: string := "\U{2139}\U{FE0F}"        // information source, for LOW

  /** Outcome of a call into code outside the model that may raise. */
  datatype Verdict = Holds | DoesNotHold | Raises

  /** `re.search(pattern, message, re.M | re.I)`: found, not found, or a
      pattern that fails to compile. */
  type Search = (string, string) -> Verdict

  /** The event as the compound rule sees it: enum names lower-cased. */
  datatype FlatRecord = FlatRecord(eventType: string, priority: string, service: string, message: string)

  /** `jsonLogic(json.loads(compound), record)` read as a truth value, or a
      raise from either call. */
  type Logic = (string, FlatRecord) -> Verdict

  /** An `ignore` or `allow` clause of a notifier's configuration; an absent
      key is `None`. */
  datatype RuleSpec = RuleSpec(
    eventType: Option<string>,
    priority: Option<string>,
    service: Option<string>,
    message: Option<string>,
    compound: Option<string>)

  /** The configuration keys a notifier reads; absent flags read as false. */
  datatype Config = Config(
    dailyStats: bool,
    walletEvents: bool,
    decreasingPlotEvents: bool,
    increasingPlotEvents: bool,
    ignore: Option<RuleSpec>,
    allow: Option<RuleSpec>)

  /** The record handed to the compound rule. */
  function Flatten(e: Event): (r: FlatRecord)
    ensures TypeNamed(Upper(r.eventType)) == Some(e.eventType)
    ensures PriorityNamed(Upper(r.priority)) == Some(e.priority)
    ensures ServiceNamed(Upper(r.service)) == Some(e.service)
    ensures NoUpperCase(r.eventType) && NoUpperCase(r.priority) && NoUpperCase(r.service)
    ensures r.message == e.message
  {
    NamesSurviveCaseFolding(e.eventType, e.priority, e.service);
    FlatRecord(Lower(e.eventType.Name()), Lower(e.priority.Name()), Lower(e.service.Name()), e.message)
  }

  /** Event types a notifier subscribes to, seeded from its flags. */
  function SubscribedTypes(c: Config): (types: seq<EventType>)
    ensures |types| >= 1 && types[0] == USER
    ensures DAILY_STATS in types <==> c.dailyStats
    ensures PLOTDECREASE in types <==> c.decreasingPlotEvents
    ensures PLOTINCREASE in types <==> c.increasingPlotEvents
    ensures KEEPALIVE !in types
    ensures forall i, j :: 0 <= i < j < |types| ==> types[i] != types[j]
  {
    [USER]
    + (if c.dailyStats then [DAILY_STATS] else [])
    + (if c.decreasingPlotEvents then [PLOTDECREASE] else [])
    + (if c.increasingPlotEvents then [PLOTINCREASE] else [])
  }

  /** Services a notifier subscribes to, seeded from its flags. */
  function SubscribedServices(c: Config): (services: seq<EventService>)
    ensures |services| >= 3 && services[..3] == [HARVESTER, FARMER, FULL_NODE]
    ensures DAILY in services <==> c.dailyStats
    ensures WALLET in services <==> c.walletEvents
    ensures forall i, j :: 0 <= i < j < |services| ==> services[i] != services[j]
  {
    [HARVESTER, FARMER, FULL_NODE]
    + (if c.dailyStats then [DAILY] else [])
    + (if c.walletEvents then [WALLET] else [])
  }

  function Icon(p: EventPriority): (icon: string)
  {
    match p
    case HIGH => AlertIcon
    case NORMAL => WarningIcon
    case LOW => InfoIcon
  }

  /** The messages a freshly restarted farm emits spuriously: an offline
      harvester (only when the service is the harvester), networking trouble,
      and a coin receipt (any service). */
  predicate IsRestartNoise(e: Event)
  {
    (e.service == HARVESTER && OfflineWarning <= e.message)
    || NetworkingWarning <= e.message
    || CoinReceived <= e.message
  }

  /** The launch time plus the grace period is not yet behind `now` (inclusive). */
  predicate InGracePeriod(launch: real, now: real)
  {
    launch + GraceSeconds as real >= now
  }

  /** One of `type`, `priority`, `service` is configured and equals the
      event's member name exactly. */
  predicate KeyedMatch(spec: RuleSpec, e: Event)
  {
    spec.eventType == Some(e.eventType.Name())
    || spec.priority == Some(e.priority.Name())
    || spec.service == Some(e.service.Name())
  }

  /** The `message` pattern is configured and searching it raises. */
  predicate MessageRaises(spec: RuleSpec, e: Event, search: Search)
  {
    spec.message.Some? && search(spec.message.value, e.message) == Raises
  }

  /** Some part of the clause positively matched the event. */
  predicate Witnessed(spec: RuleSpec, e: Event, search: Search, logic: Logic)
  {
    KeyedMatch(spec, e)
    || (spec.message.Some? && search(spec.message.value, e.message) == Holds)
    || (spec.compound.Some? && logic(spec.compound.value, Flatten(e)) == Holds)
  }

  /** No keyed field matches and the clause's evaluation ends in a raise:
      either the pattern search raises, or there is no pattern hit and the
      compound rule (its `json.loads` or its `jsonLogic`) raises. */
  predicate Faulty(spec: RuleSpec, e: Event, search: Search, logic: Logic)
  {
    !KeyedMatch(spec, e)
    && (MessageRaises(spec, e, search)
        || ((spec.message.None? || search(spec.message.value, e.message) == DoesNotHold)
            && spec.compound.Some? && logic(spec.compound.value, Flatten(e)) == Raises))
  }

  /** The body of the `try` block shared by both predicates, with its
      `except` resolving to false: flat fields in the order type, priority,
      service, message, the first hit deciding; then the compound rule.
      A raising message search ends the evaluation before the compound rule
      is looked at. */
  function RuleMatches(spec: RuleSpec, e: Event, search: Search, logic: Logic): (hit: bool)
    ensures KeyedMatch(spec, e) ==> hit
    ensures hit ==> Witnessed(spec, e, search, logic)
    ensures MessageRaises(spec, e, search) ==> (hit <==> KeyedMatch(spec, e))
    ensures !MessageRaises(spec, e, search) ==> (hit <==> Witnessed(spec, e, search, logic))
  {
    if spec.eventType == Some(e.eventType.Name()) then true
    else if spec.priority == Some(e.priority.Name()) then true
    else if spec.service == Some(e.service.Name()) then true
    else if spec.message.Some? && search(spec.message.value, e.message) == Raises then false
    else if spec.message.Some? && search(spec.message.value, e.message) == Holds then true
    else if spec.compound.Some? then logic(spec.compound.value, Flatten(e)) == Holds
    else false
  }

  /** A notification channel's filtering state. Nothing here changes after
      construction, so the fields are constants. */
  class Notifier {
    const programLaunchTime: real
    const titlePrefix: string
    const config: Config
    const connTimeoutSeconds: int
    const notificationTypes: seq<EventType>
    const notificationServices: seq<EventService>

    /** `launchTime` is the clock reading taken at construction. */
    constructor (titlePrefix: string, config: Config, launchTime: real)
      ensures programLaunchTime == launchTime
      ensures this.titlePrefix == titlePrefix && this.config == config
      ensures connTimeoutSeconds == 10
      ensures notificationTypes == SubscribedTypes(config)
      ensures notificationServices == SubscribedServices(config)
    {
      programLaunchTime := launchTime;
      this.titlePrefix := titlePrefix;
      this.config := config;
      connTimeoutSeconds := 10;
      var types := [USER];
      var services := [HARVESTER, FARMER, FULL_NODE];
      if config.dailyStats {
        types := types + [DAILY_STATS];
        services := services + [DAILY];
      }
      if config.walletEvents {
        services := services + [WALLET];
      }
      if config.decreasingPlotEvents {
        types := types + [PLOTDECREASE];
      }
      if config.increasingPlotEvents {
        types := types + [PLOTINCREASE];
      }
      notificationTypes := types;
      notificationServices := services;
    }

    /** Icon, title prefix and service name, separated by single spaces. */
    function TitleForEvent(e: Event): (title: string)
      ensures Icon(e.priority) <= title
      ensures var tail := " " + e.service.Name();
              |tail| <= |title| && title[|title| - |tail|..] == tail
      ensures |title| == |Icon(e.priority)| + |titlePrefix| + |e.service.Name()| + 2
      ensures title[|Icon(e.priority)|..|title| - |e.service.Name()|] == " " + titlePrefix + " "
    {
      Icon(e.priority) + " " + titlePrefix + " " + e.service.Name()
    }

    /** Within one channel the title tells priority and service apart:
        two events get the same title exactly when they agree on both. */
    lemma TitleIdentifiesPriorityAndService(e1: Event, e2: Event)
      ensures TitleForEvent(e1) == TitleForEvent(e2)
              <==> e1.priority == e2.priority && e1.service == e2.service
    {
      var t1, t2 := TitleForEvent(e1), TitleForEvent(e2);
      if t1 == t2 {
        assert t1[0] == Icon(e1.priority)[0] && t2[0] == Icon(e2.priority)[0];
        assert e1.priority == e2.priority;
        var head := Icon(e1.priority) + " " + titlePrefix + " ";
        assert t1 == head + e1.service.Name() && t2 == head + e2.service.Name();
        assert e1.service.Name() == t1[|head|..] == e2.service.Name();
        assert ServiceNamed(e1.service.Name()) == Some(e1.service);
      }
    }

    /** `should_ignore_event` evaluated at clock reading `now`. */
    function ShouldIgnoreEvent(e: Event, now: real, search: Search, logic: Logic): (ignored: bool)
      ensures InGracePeriod(programLaunchTime, now) && IsRestartNoise(e) ==> ignored
      ensures config.ignore.None? ==> (ignored <==> InGracePeriod(programLaunchTime, now) && IsRestartNoise(e))
      ensures config.ignore.Some? && KeyedMatch(config.ignore.value, e) ==> ignored
      ensures !(InGracePeriod(programLaunchTime, now) && IsRestartNoise(e)) && config.ignore.Some? ==>
                (ignored <==> RuleMatches(config.ignore.value, e, search, logic))
      ensures ignored ==> (InGracePeriod(programLaunchTime, now) && IsRestartNoise(e))
                          || (config.ignore.Some? && Witnessed(config.ignore.value, e, search, logic))
    {
      if InGracePeriod(programLaunchTime, now) && IsRestartNoise(e) then true
      else if config.ignore.None? then false
      else RuleMatches(config.ignore.value, e, search, logic)
    }

    /** `should_allow_event`; it does not read the clock. */
    function ShouldAllowEvent(e: Event, search: Search, logic: Logic): (allowed: bool)
      ensures config.allow.None? ==> allowed
      ensures config.allow.Some? && KeyedMatch(config.allow.value, e) ==> allowed
      ensures config.allow.Some? ==> (allowed <==> RuleMatches(config.allow.value, e, search, logic))
      ensures allowed ==> config.allow.None? || Witnessed(config.allow.value, e, search, logic)
    {
      if config.allow.None? then true
      else RuleMatches(config.allow.value, e, search, logic)
    }

    /** A clause whose every evaluation raises (no keyed field matches, and
        the pattern search or the compound rule raises) resolves to false in
        both predicates: outside the grace period an ignore clause of that kind
        lets the event through, while an allow clause of that kind drops it. */
    lemma FaultyClauseAsymmetry(e: Event, now: real, search: Search, logic: Logic)
      requires !InGracePeriod(programLaunchTime, now)
      requires config.ignore.Some? && config.allow.Some?
      requires Faulty(config.ignore.value, e, search, logic) && Faulty(config.allow.value, e, search, logic)
      ensures !ShouldIgnoreEvent(e, now, search, logic)
      ensures !ShouldAllowEvent(e, search, logic)
    {
    }

    /** The harvester-offline warning is dropped 100 seconds after launch and
        passes 1900 seconds after launch, when no ignore clause is set. */
    lemma OfflineWarningGraceWindow(search: Search, logic: Logic)
      requires config.ignore.None?
      ensures var e := Event(USER, HIGH, HARVESTER, OfflineWarning);
              ShouldIgnoreEvent(e, programLaunchTime + 100.0, search, logic)
              && !ShouldIgnoreEvent(e, programLaunchTime + 1900.0, search, logic)
    {
    }

    /** The offline warning is restart noise only for the harvester service,
        while a coin receipt is restart noise for every service. */
    lemma ServiceMattersOnlyForOfflineWarning(now: real, search: Search, logic: Logic)
      requires InGracePeriod(programLaunchTime, now) && config.ignore.None?
      ensures !ShouldIgnoreEvent(Event(USER, HIGH, FARMER, OfflineWarning), now, search, logic)
      ensures ShouldIgnoreEvent(Event(USER, LOW, FARMER, CoinReceived + " received 1 XCH"), now, search, logic)
    {
      assert OfflineWarning[0] == 'Y' && NetworkingWarning[0] == 'E' && CoinReceived[0] == 'C';
    }
  }
}
