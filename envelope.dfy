/**
 * The provider's response envelope `{success, msg, data}` and the three
 * places where the plugin checks it: `_request` (used by `lookup`), `login`,
 * and the positions query inside `run`. Each check is a total function from
 * what the HTTP layer delivered to either a value or the exception raised.
 */
module Envelope {
  import opened Wrappers
  import opened Json

  /** The message text by which the provider signals that its own upstream timed out. */
  const TimeoutText := "The operation has timed out."

  /** The exception that ends a request. */
  datatype Failure =
    | Transport          // connection error, non-2xx status, or a body that is not JSON
    | Provider(msg: Json) // `success` was falsy: the exception carries `result["msg"]`
    | UpstreamTimeout    // `msg` mentions TimeoutText
    | NoData             // `data` is missing or null
    | Malformed          // a KeyError, TypeError or AttributeError raised while reading the body

  /** What `session.request(...)`, `raise_for_status()` and `.json()` together deliver. */
  datatype HttpOutcome = TransportFailed | Received(body: Json)

  /** The envelope is an object whose `success` member is present and truthy. */
  ghost predicate Succeeded(body: Json) {
    body.JObj? && Member(body.members, "success").Some? && Truthy(Member(body.members, "success").value)
  }

  /** The envelope is an object whose `success` member is present and falsy. */
  ghost predicate Refused(body: Json) {
    body.JObj? && Member(body.members, "success").Some? && !Truthy(Member(body.members, "success").value)
  }

  /** `msg` is absent, null, or a value on which Python's `in` is defined. */
  ghost predicate MsgSearchable(body: Json) {
    body.JObj? &&
    match Member(body.members, "msg")
    case None => true
    case Some(m) => m == JNull || m.JStr? || m.JArr? || m.JObj?
  }

  /** `msg` mentions TimeoutText: as a substring of a string, an item of a list or a key of a dict. */
  ghost predicate ReportsTimeout(body: Json) {
    body.JObj? &&
    match Member(body.members, "msg")
    case Some(JStr(s)) => Occurs(s, TimeoutText)
    case Some(JArr(xs)) => JStr(TimeoutText) in xs
    case Some(JObj(ms)) => TimeoutText in Keys(ms)
    case _ => false
  }

  /** `data` is present and not null. */
  ghost predicate HasData(body: Json) {
    body.JObj? && Member(body.members, "data").Some? && Member(body.members, "data").value != JNull
  }

  /**
   * The test `result.get("msg") is not None and TimeoutText in result.get("msg")`;
   * None where the `in` raises TypeError.
   */
  function MentionsTimeout(msg: Option<Json>): (r: Option<bool>)
    ensures r.None? <==> msg.Some? && (msg.value.JNum? || msg.value.JBool?)
    ensures r == Some(true) ==> msg.Some? && msg.value != JNull
    ensures msg.Some? && msg.value.JStr? ==> r == Some(Occurs(msg.value.s, TimeoutText))
  {
    match msg
    case None => Some(false)
    case Some(JNull) => Some(false)
    case Some(m) => In(TimeoutText, m)
  }

  /**
   * The checks `_request` makes on a decoded body, in their fixed order:
   * provider failure, upstream timeout, missing data. On success it returns
   * `result.get("data")`.
   */
  function CheckEnvelope(body: Json): (r: Result<Json, Failure>)
    ensures r.Ok? <==> Succeeded(body) && MsgSearchable(body) && !ReportsTimeout(body) && HasData(body)
    ensures r.Ok? ==> r.value != JNull && Member(body.members, "data") == Some(r.value)
  {
    if !body.JObj? then Err(Malformed)
    else
      var ms := body.members;
      match Member(ms, "success")
      case None => Err(Malformed)
      case Some(success) =>
        if !Truthy(success) then
          (match Member(ms, "msg")
           case None => Err(Malformed)
           case Some(m) => Err(Provider(m)))
        else
          match MentionsTimeout(Member(ms, "msg"))
          case None => Err(Malformed)
          case Some(true) => Err(UpstreamTimeout)
          case Some(false) =>
            match Member(ms, "data")
            case None => Err(NoData)
            case Some(data) => if data == JNull then Err(NoData) else Ok(data)
  }

  /** `_request` as a whole: a transport failure, or the envelope checks. */
  function CheckReply(reply: HttpOutcome): (r: Result<Json, Failure>)
    ensures reply.TransportFailed? ==> r == Err(Transport)
    ensures r.Ok? <==> reply.Received? && CheckEnvelope(reply.body).Ok?
  {
    match reply
    case TransportFailed => Err(Transport)
    case Received(body) => CheckEnvelope(body)
  }

  /** A falsy `success` is checked first: its error carries `msg` whatever `msg` and `data` hold. */
  lemma ProviderFailureFirst(body: Json)
    requires Refused(body) && Member(body.members, "msg").Some?
    ensures CheckEnvelope(body) == Err(Provider(Member(body.members, "msg").value))
  {
  }

  /** With `success` truthy, a timeout message wins even when `data` is present. */
  lemma TimeoutBeforeData(body: Json)
    requires Succeeded(body) && ReportsTimeout(body)
    ensures CheckEnvelope(body) == Err(UpstreamTimeout)
  {
    var m := Member(body.members, "msg").value;
    assert MentionsTimeout(Member(body.members, "msg")) == Some(true) by {
      if m.JObj? {
        assert TimeoutText in Keys(m.members);
      }
    }
  }

  /** A successful envelope without a timeout message and without data is a NoData error. */
  lemma MissingDataIsNoData(body: Json)
    requires Succeeded(body) && MsgSearchable(body) && !ReportsTimeout(body) && !HasData(body)
    ensures CheckEnvelope(body) == Err(NoData)
  {
  }

  /** An empty list of data is not NoData: it is returned as it is. */
  lemma EmptyDataIsReturned(body: Json)
    requires Succeeded(body) && MsgSearchable(body) && !ReportsTimeout(body)
    requires Member(body.members, "data") == Some(JArr([]))
    ensures CheckEnvelope(body) == Ok(JArr([]))
  {
  }

  /** `body["data"]["JWT"]`, or None where Python would raise KeyError or TypeError. */
  ghost function TokenField(body: Json): Option<Json> {
    if body.JObj? && Member(body.members, "data").Some? && Member(body.members, "data").value.JObj? then
      Member(Member(body.members, "data").value.members, "JWT")
    else None
  }

  /**
   * The check `login` makes: `result["success"]`, then `result["data"]["JWT"]`.
   * It neither looks for a timeout message nor treats null data apart from
   * other non-objects. Only a string token is accepted (see README).
   */
  function LoginToken(reply: HttpOutcome): (r: Result<string, Failure>)
    ensures r.Ok? <==> reply.Received? && Succeeded(reply.body) && TokenField(reply.body).Some?
                       && TokenField(reply.body).value.JStr?
    ensures r.Ok? ==> TokenField(reply.body) == Some(JStr(r.value))
    ensures reply.TransportFailed? ==> r == Err(Transport)
    ensures reply.Received? && Refused(reply.body) && Member(reply.body.members, "msg").Some?
            ==> r == Err(Provider(Member(reply.body.members, "msg").value))
  {
    match reply
    case TransportFailed => Err(Transport)
    case Received(body) =>
      if !body.JObj? then Err(Malformed)
      else
        var ms := body.members;
        match Member(ms, "success")
        case None => Err(Malformed)
        case Some(success) =>
          if !Truthy(success) then
            (match Member(ms, "msg")
             case None => Err(Malformed)
             case Some(m) => Err(Provider(m)))
          else
            match Member(ms, "data")
            case Some(JObj(dms)) =>
              (match Member(dms, "JWT")
               case Some(JStr(token)) => Ok(token)
               case _ => Err(Malformed))
            case _ => Err(Malformed)
  }

  /**
   * The check `run` makes on the positions reply: only `result["success"]`.
   * Unlike `_request` it does not look for a timeout message or null data;
   * it returns the whole body, whose `data` `run` reads afterwards.
   */
  function PositionsEnvelope(reply: HttpOutcome): (r: Result<Json, Failure>)
    ensures r.Ok? <==> reply.Received? && Succeeded(reply.body)
    ensures r.Ok? ==> r.value == reply.body
    ensures reply.Received? && Refused(reply.body) && Member(reply.body.members, "msg").Some?
            ==> r == Err(Provider(Member(reply.body.members, "msg").value))
  {
    match reply
    case TransportFailed => Err(Transport)
    case Received(body) =>
      if !body.JObj? then Err(Malformed)
      else
        match Member(body.members, "success")
        case None => Err(Malformed)
        case Some(success) =>
          if Truthy(success) then Ok(body)
          else
            match Member(body.members, "msg")
            case None => Err(Malformed)
            case Some(m) => Err(Provider(m))
  }

  /**
   * Every body `_request` accepts passes the positions check too; the converse
   * fails, as Plugin.PositionsTimeoutNotDetected shows.
   */
  lemma PositionsCheckIsWeaker(reply: HttpOutcome)
    ensures CheckReply(reply).Ok? ==> PositionsEnvelope(reply).Ok?
  {
  }
}
