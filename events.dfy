/** The closed enumerations and the Event record of the notifier package.
    Member names are kept exactly as the enumerations spell them, since the
    filtering rules and the HTTP endpoint compare against those names. */
module Events {
  import opened Maybe
  import opened Text

  /** How urgently the user needs to be told (enum values -1, 0, 1). */
  datatype EventPriority = LOW | NORMAL | HIGH
  {
    function Name(): string
    {
      match this
      case LOW => "LOW"
      case NORMAL => "NORMAL"
      case HIGH => "HIGH"
    }
  }

  /** User events reach the user; keep-alive events only prove liveness (values 0..4). */
  datatype EventType = KEEPALIVE | USER | DAILY_STATS | PLOTDECREASE | PLOTINCREASE
  {
    function Name(): string
    {
      match this
      case KEEPALIVE => "KEEPALIVE"
      case USER => "USER"
      case DAILY_STATS => "DAILY_STATS"
      case PLOTDECREASE => "PLOTDECREASE"
      case PLOTINCREASE => "PLOTINCREASE"
    }
  }

  /** Which part of the farm an event is about (values 0..4). */
  datatype EventService = HARVESTER | FARMER | FULL_NODE | DAILY | WALLET
  {
    function Name(): string
    {
      match this
      case HARVESTER => "HARVESTER"
      case FARMER => "FARMER"
      case FULL_NODE => "FULL_NODE"
      case DAILY => "DAILY"
      case WALLET => "WALLET"
    }
  }

  datatype Event = Event(eventType: EventType, priority: EventPriority, service: EventService, message: string)

  /** `EventPriority[name]`: exact, case-sensitive lookup by member name;
      `None` stands for the KeyError an unknown name raises. */
  function PriorityNamed(name: string): (r: Option<EventPriority>)
    ensures forall p: EventPriority :: r == Some(p) <==> p.Name() == name
  {
    if name == "LOW" then Some(LOW)
    else if name == "NORMAL" then Some(NORMAL)
    else if name == "HIGH" then Some(HIGH)
    else None
  }

  /** `EventType[name]`, as above. */
  function TypeNamed(name: string): (r: Option<EventType>)
    ensures forall t: EventType :: r == Some(t) <==> t.Name() == name
  {
    if name == "KEEPALIVE" then Some(KEEPALIVE)
    else if name == "USER" then Some(USER)
    else if name == "DAILY_STATS" then Some(DAILY_STATS)
    else if name == "PLOTDECREASE" then Some(PLOTDECREASE)
    else if name == "PLOTINCREASE" then Some(PLOTINCREASE)
    else None
  }

  /** `EventService[name]`, as above. */
  function ServiceNamed(name: string): (r: Option<EventService>)
    ensures forall s: EventService :: r == Some(s) <==> s.Name() == name
  {
    if name == "HARVESTER" then Some(HARVESTER)
    else if name == "FARMER" then Some(FARMER)
    else if name == "FULL_NODE" then Some(FULL_NODE)
    else if name == "DAILY" then Some(DAILY)
    else if name == "WALLET" then Some(WALLET)
    else None
  }

  /** Every member name is upper-case, so lower-casing it and upper-casing
      the result (as the HTTP endpoint does) finds the member again. */
  lemma NamesSurviveCaseFolding(t: EventType, p: EventPriority, s: EventService)
    ensures TypeNamed(Upper(Lower(t.Name()))) == Some(t)
    ensures PriorityNamed(Upper(Lower(p.Name()))) == Some(p)
    ensures ServiceNamed(Upper(Lower(s.Name()))) == Some(s)
  {
    TypeNameSurvivesCaseFolding(t);
    PriorityNameSurvivesCaseFolding(p);
    ServiceNameSurvivesCaseFolding(s);
  }

  lemma TypeNameSurvivesCaseFolding(t: EventType)
    ensures Upper(Lower(t.Name())) == t.Name()
  {
    UpperOfLower(t.Name());
  }

  lemma PriorityNameSurvivesCaseFolding(p: EventPriority)
    ensures Upper(Lower(p.Name())) == p.Name()
  {
    UpperOfLower(p.Name());
  }

  lemma ServiceNameSurvivesCaseFolding(s: EventService)
    ensures Upper(Lower(s.Name())) == s.Name()
  {
    UpperOfLower(s.Name());
  }
}
