/** The local HTTP endpoint through which other programs submit events.
    Only the request handler's decisions are modelled: the socket server, its
    thread, header parsing and body reading are not. A Python exception that
    escapes a handler leaves the client without any response; the model calls
    that outcome `Crashed`. */
module Api {
  import opened Maybe
  import opened Text
  import opened Events

  /** A decoded JSON document. */
  datatype Json =
    | JNull
    | JBool(b: bool)
    | JNumber(n: int)
    | JString(s: string)
    | JArray(items: seq<Json>)
    | JObject(fields: map<string, Json>)

  /** What the handler sees of a POST: the media type `cgi.parse_header`
      takes from the Content-Type header (`None` when the header is absent,
      which makes it raise) and the body as `json.loads` decodes it (`None`
      when reading or decoding raises). */
  datatype Request = Request(contentType: Option<string>, body: Option<Json>)

  datatype Response = Response(status: nat, contentType: Option<string>, body: string)

  /** What reaches `process_events`: the decoded enum members and the
      `message` value exactly as submitted, which the handler does not check
      to be a string. */
  datatype Submission = Submission(eventType: EventType, priority: EventPriority, service: EventService, message: Json)

  datatype PostOutcome = Rejected | Crashed | Accepted(submission: Submission)

  /** A field decoded from the body: raised, absent, or its value. */
  datatype Field<T> = Raised | Missing | Found(value: T)

  const JsonType: string := "application/json"
  const HelloBody: string := "{\"hello\": \"world\", \"received\": \"ok\"}"
  const ReceivedBody: string := "Event received and notifications sent."

  predicate IsSubstring(key: string, s: string)
  {
    exists i :: 0 <= i <= |s| && key <= s[i..]
  }

  /** Python's `key in body`: a key of an object, an element of a list, a
      substring of a string; on any other value `in` raises (`None`). */
  function Contains(body: Json, key: string): (r: Option<bool>)
    ensures r.None? <==> !(body.JObject? || body.JArray? || body.JString?)
    ensures body.JObject? ==> r == Some(key in body.fields)
    ensures body.JArray? ==> r == Some(JString(key) in body.items)
    ensures body.JString? ==>
              (r == Some(true) <==> exists i, j :: 0 <= i <= j <= |body.s| && body.s[i..j] == key)
    ensures body.JString? && key <= body.s ==> r == Some(true)
    ensures body.JString? && |body.s| < |key| ==> r == Some(false)
  {
    match body
    case JObject(fields) => Some(key in fields)
    case JArray(items) => Some(JString(key) in items)
    case JString(s) =>
      assert s[0..] == s;
      SubstringAt(key, s);
      Some(IsSubstring(key, s))
    case _ => None
  }

  /** `key` starts at some position of `s` exactly when it is the slice of
      `s` between two positions. */
  lemma SubstringAt(key: string, s: string)
    ensures IsSubstring(key, s) <==> exists i, j :: 0 <= i <= j <= |s| && s[i..j] == key
  {
    if IsSubstring(key, s) {
      var i :| 0 <= i <= |s| && key <= s[i..];
      assert s[i..i + |key|] == key;
    }
    if exists i, j :: 0 <= i <= j <= |s| && s[i..j] == key {
      var i, j :| 0 <= i <= j <= |s| && s[i..j] == key;
      assert key <= s[i..];
    }
  }

  /** Python's `body[key]` once `key in body` held: only an object can be
      indexed by a string; a list or a string raises (`None`). */
  function Index(body: Json, key: string): (r: Option<Json>)
    ensures r.Some? <==> body.JObject? && key in body.fields
    ensures r.Some? ==> Contains(body, key) == Some(true) && r.value == body.fields[key]
  {
    if body.JObject? && key in body.fields then Some(body.fields[key]) else None
  }

  /** The body is an object whose `key` holds a string that upper-cases to
      the name of `member`. */
  predicate NamesMember<T(==)>(body: Json, key: string, named: string -> Option<T>, member: T)
  {
    body.JObject? && key in body.fields && body.fields[key].JString?
    && named(Upper(body.fields[key].s)) == Some(member)
  }

  /** `Enum[body[key].upper()]` guarded by `key in body`. */
  function EnumField<T(==,!new)>(body: Json, key: string, named: string -> Option<T>): (f: Field<T>)
    ensures f.Found? ==> NamesMember(body, key, named, f.value)
    ensures f.Missing? <==> Contains(body, key) == Some(false)
    ensures forall m :: NamesMember(body, key, named, m) ==> f == Found(m)
  {
    match Contains(body, key)
    case None => Raised
    case Some(false) => Missing
    case Some(true) =>
      match Index(body, key)
      case Some(JString(s)) => (match named(Upper(s)) case Some(v) => Found(v) case None => Raised)
      case _ => Raised
  }

  /** What a POST comes to: a 400 for a foreign content type or for the first
      absent key in the order type, priority, service, message; a crash for
      anything that raises; otherwise one submission. */
  function DecidePost(req: Request): (outcome: PostOutcome)
    ensures outcome.Accepted? ==>
              req.contentType == Some(JsonType) && req.body.Some?
              && NamesMember(req.body.value, "type", TypeNamed, outcome.submission.eventType)
              && NamesMember(req.body.value, "priority", PriorityNamed, outcome.submission.priority)
              && NamesMember(req.body.value, "service", ServiceNamed, outcome.submission.service)
              && "message" in req.body.value.fields
              && req.body.value.fields["message"] == outcome.submission.message
    ensures outcome.Rejected? ==>
              req.contentType.Some? &&
              (req.contentType.value != JsonType
               || (req.body.Some?
                   && (Contains(req.body.value, "type") == Some(false)
                       || Contains(req.body.value, "priority") == Some(false)
                       || Contains(req.body.value, "service") == Some(false)
                       || Contains(req.body.value, "message") == Some(false))))
    ensures req.contentType.Some? && req.contentType.value != JsonType ==> outcome == Rejected
    ensures (req.contentType.None? || (req.contentType == Some(JsonType) && req.body.None?)) ==> outcome == Crashed
    // An enum field that raises ends the request before any later key is looked at.
    ensures req.contentType == Some(JsonType) && req.body.Some? ==>
              var body := req.body.value;
              (EnumField(body, "type", TypeNamed).Raised? ==> outcome == Crashed)
              && ((EnumField(body, "type", TypeNamed).Found? && EnumField(body, "priority", PriorityNamed).Raised?)
                  ==> outcome == Crashed)
              && ((EnumField(body, "type", TypeNamed).Found? && EnumField(body, "priority", PriorityNamed).Found?
                   && EnumField(body, "service", ServiceNamed).Raised?)
                  ==> outcome == Crashed)
    ensures req.contentType == Some(JsonType) && req.body.Some? ==>
              var body := req.body.value;
              (Contains(body, "type") == Some(false) ==> outcome == Rejected)
              && (forall t ::
                    NamesMember(body, "type", TypeNamed, t) && Contains(body, "priority") == Some(false)
                    ==> outcome == Rejected)
              && (forall t, p ::
                    NamesMember(body, "type", TypeNamed, t) && NamesMember(body, "priority", PriorityNamed, p)
                    && Contains(body, "service") == Some(false)
                    ==> outcome == Rejected)
              && (forall t, p, s ::
                    NamesMember(body, "type", TypeNamed, t) && NamesMember(body, "priority", PriorityNamed, p)
                    && NamesMember(body, "service", ServiceNamed, s)
                    ==> outcome == if "message" in body.fields then Accepted(Submission(t, p, s, body.fields["message"]))
                                   else Rejected)
  {
    if req.contentType.None? then Crashed
    else if req.contentType.value != JsonType then Rejected
    else if req.body.None? then Crashed
    else
      var body := req.body.value;
      match EnumField(body, "type", TypeNamed)
      case Raised => Crashed
      case Missing => Rejected
      case Found(t) =>
        match EnumField(body, "priority", PriorityNamed)
        case Raised => Crashed
        case Missing => Rejected
        case Found(p) =>
          match EnumField(body, "service", ServiceNamed)
          case Raised => Crashed
          case Missing => Rejected
          case Found(s) =>
            match Contains(body, "message")
            case None => Crashed
            case Some(false) => Rejected
            case Some(true) =>
              match Index(body, "message")
              case None => Crashed
              case Some(m) => Accepted(Submission(t, p, s, m))
  }

  /** The body a client would send for an event, with lower-case names. */
  function EncodeEvent(e: Event): Json
  {
    JObject(map[
      "type" := JString(Lower(e.eventType.Name())),
      "priority" := JString(Lower(e.priority.Name())),
      "service" := JString(Lower(e.service.Name())),
      "message" := JString(e.message)])
  }

  /** Any event, submitted as JSON with its names in lower case, is accepted
      and decoded back to the same event. */
  lemma EncodedEventAccepted(e: Event)
    ensures DecidePost(Request(Some(JsonType), Some(EncodeEvent(e))))
            == Accepted(Submission(e.eventType, e.priority, e.service, JString(e.message)))
  {
    NamesSurviveCaseFolding(e.eventType, e.priority, e.service);
  }

  /** Enum names are matched without regard to ASCII case: only the upper-cased
      string decides the member. */
  lemma EnumCaseInsensitive<T(!new)>(fields: map<string, Json>, key: string, s1: string, s2: string, named: string -> Option<T>)
    requires Upper(s1) == Upper(s2)
    ensures EnumField(JObject(fields[key := JString(s1)]), key, named)
            == EnumField(JObject(fields[key := JString(s2)]), key, named)
  {
  }

  /** A string that names no member makes the handler raise, so nothing is
      dispatched and no 400 is sent. */
  lemma UnknownTypeCrashes(fields: map<string, Json>, s: string)
    requires TypeNamed(Upper(s)).None?
    ensures DecidePost(Request(Some(JsonType), Some(JObject(fields["type" := JString(s)])))) == Crashed
  {
  }

  /** The keys are examined in the order type, priority, service, message:
      removing any one key from an encoded event gives a 400. */
  lemma FirstMissingKeyRejected(e: Event, key: string)
    requires key in ["type", "priority", "service", "message"]
    ensures DecidePost(Request(Some(JsonType), Some(JObject(EncodeEvent(e).fields - {key})))) == Rejected
  {
    NamesSurviveCaseFolding(e.eventType, e.priority, e.service);
    var body := JObject(EncodeEvent(e).fields - {key});
    if key == "type" {
      assert Contains(body, "type") == Some(false);
    } else if key == "priority" {
      assert EnumField(body, "type", TypeNamed) == Found(e.eventType);
      assert Contains(body, "priority") == Some(false);
    } else if key == "service" {
      assert EnumField(body, "type", TypeNamed) == Found(e.eventType);
      assert EnumField(body, "priority", PriorityNamed) == Found(e.priority);
      assert Contains(body, "service") == Some(false);
    } else {
      assert EnumField(body, "type", TypeNamed) == Found(e.eventType);
      assert EnumField(body, "priority", PriorityNamed) == Found(e.priority);
      assert EnumField(body, "service", ServiceNamed) == Found(e.service);
      assert Contains(body, "message") == Some(false);
    }
  }

  /** The submission example: lower-case names are accepted as USER, HIGH,
      FARMER with the message "hello". */
  lemma HelloSubmission()
    ensures DecidePost(Request(Some(JsonType), Some(JObject(map[
              "type" := JString("user"), "priority" := JString("high"),
              "service" := JString("farmer"), "message" := JString("hello")]))))
            == Accepted(Submission(USER, HIGH, FARMER, JString("hello")))
  {
    var body := JObject(map[
      "type" := JString("user"), "priority" := JString("high"),
      "service" := JString("farmer"), "message" := JString("hello")]);
    assert Upper("user") == "USER" && Upper("high") == "HIGH" && Upper("farmer") == "FARMER";
    assert EnumField(body, "type", TypeNamed) == Found(USER);
    assert EnumField(body, "priority", PriorityNamed) == Found(HIGH);
    assert EnumField(body, "service", ServiceNamed) == Found(FARMER);
  }

  /** The pipeline's entry point, reduced to the batches it has received. */
  class NotifyManager {
    var processed: seq<seq<Submission>>

    constructor ()
      ensures processed == []
    {
      processed := [];
    }

    method ProcessEvents(events: seq<Submission>)
      modifies this
      ensures processed == old(processed) + [events]
    {
      processed := processed + [events];
    }
  }

  class RequestHandler {
    const notifyManager: NotifyManager

    constructor (notifyManager: NotifyManager)
      ensures this.notifyManager == notifyManager
    {
      this.notifyManager := notifyManager;
    }

    method DoHead() returns (response: Response)
      ensures response == Response(200, Some(JsonType), "")
    {
      response := Response(200, Some(JsonType), "");
    }

    /** The health probe: always 200 with a fixed JSON body. */
    method DoGet() returns (response: Response)
      ensures response.status == 200 && response.body == HelloBody
      ensures response.contentType == Some(JsonType)
    {
      response := Response(200, Some(JsonType), HelloBody);
    }

    /** Handles a submission. `response` is `None` when the handler raised. */
    method DoPost(req: Request) returns (response: Option<Response>)
      modifies notifyManager
      ensures var outcome := DecidePost(req);
              && (outcome.Rejected? ==> response == Some(Response(400, None, "")))
              && (outcome.Crashed? ==> response == None)
              && (outcome.Accepted? ==> response == Some(Response(200, Some(JsonType), ReceivedBody)))
      ensures notifyManager.processed
              == old(notifyManager.processed)
                 + (if DecidePost(req).Accepted? then [[DecidePost(req).submission]] else [])
    {
      if req.contentType.None? {
        return None;
      }
      if req.contentType.value != JsonType {
        return Some(Response(400, None, ""));
      }
      if req.body.None? {
        return None;
      }
      var message := req.body.value;

      var eventType: EventType;
      var hasType := Contains(message, "type");
      if hasType.None? {
        return None;
      } else if hasType.value {
        var v := Index(message, "type");
        if v.None? || !v.value.JString? || TypeNamed(Upper(v.value.s)).None? {
          return None;
        }
        eventType := TypeNamed(Upper(v.value.s)).value;
      } else {
        return Some(Response(400, None, ""));
      }

      var eventPriority: EventPriority;
      var hasPriority := Contains(message, "priority");
      if hasPriority.None? {
        return None;
      } else if hasPriority.value {
        var v := Index(message, "priority");
        if v.None? || !v.value.JString? || PriorityNamed(Upper(v.value.s)).None? {
          return None;
        }
        eventPriority := PriorityNamed(Upper(v.value.s)).value;
      } else {
        return Some(Response(400, None, ""));
      }

      var eventService: EventService;
      var hasService := Contains(message, "service");
      if hasService.None? {
        return None;
      } else if hasService.value {
        var v := Index(message, "service");
        if v.None? || !v.value.JString? || ServiceNamed(Upper(v.value.s)).None? {
          return None;
        }
        eventService := ServiceNamed(Upper(v.value.s)).value;
      } else {
        return Some(Response(400, None, ""));
      }

      var hasMessage := Contains(message, "message");
      if hasMessage.None? {
        return None;
      } else if !hasMessage.value {
        return Some(Response(400, None, ""));
      }
      var text := Index(message, "message");
      if text.None? {
        return None;
      }

      var event := Submission(eventType, eventPriority, eventService, text.value);
      notifyManager.ProcessEvents([event]);
      return Some(Response(200, Some(JsonType), ReceivedBody));
    }
  }
}
