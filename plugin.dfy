/**
 * The plugin object `KystdatahusetAIS`: its HTTP session (created by
 * `login`, reused by `run`), the requests it sends, and `run`, which logs
 * in when needed, looks the vessel up, queries its positions and renders
 * them. The replies of the web service and the user's answer to the MMSI
 * dialog are inputs.
 */
module Plugin {
  import opened Wrappers
  import opened Json
  import opened Envelope
  import opened Ship
  import opened Positions

  const Kdws := "https://kystdatahuset.no/ws/"
  const LoginUrl := Kdws + "api/auth/login"
  const ShipInfoMmsiUrl := "https://kystdatahuset.no/ws/api/ship/for-mmsis"
  const PositionsMmsiUrl := Kdws + "api/ais/positions/for-mmsis-time"

  /** The fixed query window `run` asks for, as `YYYYMMDDHHmm` strings. */
  const QueryStart := "201901011345"
  const QueryEnd := "201901021345"

  /** The stored user name and password (empty when none is stored). */
  datatype Credentials = Credentials(username: string, password: string)

  /** The answer to the MMSI dialog: the number entered, and whether OK was pressed. */
  datatype DialogAnswer = DialogAnswer(mmsi: int, ok: bool)

  /** A request as it leaves the session: verb, URL, the session's headers, and the JSON body. */
  datatype HttpRequest = HttpRequest(verb: string, url: string, headers: map<string, string>, body: Json)

  /** How `run` ends. */
  datatype RunOutcome =
    | Cancelled                                                 // the MMSI dialog was cancelled
    | Aborted(failure: Failure)                                 // caught in `run`: message shown, no layer
    | Crashed                                                   // raised after the `try` block and not caught
    | Rendered(mmsi: int, shipname: Json, features: seq<Feature>) // a layer with these features is added

  function LoginBody(creds: Credentials): Json {
    JObj([("username", JStr(creds.username)), ("password", JStr(creds.password))])
  }

  function LookupBody(mmsi: int): Json {
    JObj([("MmsiIds", JArr([JNum(mmsi as real)]))])
  }

  function PositionsBody(mmsi: int): Json {
    JObj([("mmsiIds", JArr([JNum(mmsi as real)])), ("start", JStr(QueryStart)), ("end", JStr(QueryEnd))])
  }

  /** The headers a successful login adds to the session. */
  function AuthHeaders(token: string): (h: map<string, string>)
    ensures h.Keys == {"Content-Type", "Authorization"}
    ensures h["Authorization"] == "Bearer " + token
  {
    map["Content-Type" := "application/json", "Authorization" := "Bearer " + token]
  }

  /** The headers of the fresh session after `login` with this reply. */
  function HeadersAfterLogin(reply: HttpOutcome): (h: map<string, string>)
    ensures "Authorization" in h <==> LoginToken(reply).Ok?
    ensures "Authorization" in h ==> Succeeded(reply.body)
    ensures LoginToken(reply).Ok? ==> h == AuthHeaders(LoginToken(reply).value)
    ensures LoginToken(reply).Err? ==> h == map[]
  {
    match LoginToken(reply)
    case Ok(token) => AuthHeaders(token)
    case Err(_) => map[]
  }

  /** `result["data"]` of an accepted positions reply, iterated; None where `run` raises outside its `try`. */
  function PositionRows(body: Json): (rows: Option<seq<Json>>)
    ensures rows.Some? <==> body.JObj? && Member(body.members, "data").Some?
                            && Len(Member(body.members, "data").value).Some?
    ensures rows.Some? ==> rows == Elements(Member(body.members, "data").value)
  {
    if !body.JObj? then None
    else
      match Member(body.members, "data")
      case None => None
      case Some(positions) => Elements(positions)
  }

  /** What `run` does after the session is in place, given the user's answer and the two replies. */
  function RunOutcomeOf(answer: DialogAnswer, shipReply: HttpOutcome, positionsReply: HttpOutcome): (r: RunOutcome)
    ensures r.Cancelled? <==> !answer.ok
    ensures r.Aborted? <==> answer.ok && (ShipNameFor(shipReply).Err?
                                          || PositionsEnvelope(positionsReply).Err?)
    ensures r.Aborted? && ShipNameFor(shipReply).Err? ==> r.failure == ShipNameFor(shipReply).error
    ensures r.Crashed? <==> answer.ok && ShipNameFor(shipReply).Ok? && PositionsEnvelope(positionsReply).Ok?
                            && PositionRows(positionsReply.body).None?
    ensures r.Rendered? ==> r.mmsi == answer.mmsi && ShipNameFor(shipReply) == Ok(r.shipname)
  {
    if !answer.ok then Cancelled
    else
      match ShipNameFor(shipReply)
      case Err(f) => Aborted(f)
      case Ok(name) =>
        match PositionsEnvelope(positionsReply)
        case Err(f) => Aborted(f)
        case Ok(body) =>
          match PositionRows(body)
          case None => Crashed
          case Some(rows) => Rendered(answer.mmsi, name, Project(rows, name))
  }

  /** The requests `run` sends after the session is in place. */
  function QueryRequests(answer: DialogAnswer, shipReply: HttpOutcome, headers: map<string, string>)
    : (r: seq<HttpRequest>)
    ensures |r| == if !answer.ok then 0 else if ShipNameFor(shipReply).Ok? then 2 else 1
    ensures forall q :: q in r ==> q.verb == "POST" && q.headers == headers
    ensures answer.ok ==> r[0].url == ShipInfoMmsiUrl && r[0].body == LookupBody(answer.mmsi)
    ensures |r| == 2 ==> r[1].url == PositionsMmsiUrl && r[1].body == PositionsBody(answer.mmsi)
  {
    if !answer.ok then []
    else
      [HttpRequest("POST", ShipInfoMmsiUrl, headers, LookupBody(answer.mmsi))]
      + if ShipNameFor(shipReply).Ok? then [HttpRequest("POST", PositionsMmsiUrl, headers, PositionsBody(answer.mmsi))]
        else []
  }

  /** `requests.Session`: the headers it sends with every request. */
  class HttpSession {
    var headers: map<string, string>

    constructor ()
      ensures headers == map[]
    {
      headers := map[];
    }

    /** `session.headers.update(h)`: later entries override earlier ones. */
    method UpdateHeaders(h: map<string, string>)
      modifies this
      ensures headers == old(headers) + h
    {
      headers := headers + h;
    }
  }

  class KystdatahusetAIS {
    var session: HttpSession?

    constructor ()
      ensures session == null
    {
      session := null;
    }

    /** `_request`: send one request on the current session and check its reply. */
    method Request(verb: string, url: string, body: Json, reply: HttpOutcome)
      returns (r: Result<Json, Failure>, sent: HttpRequest)
      requires session != null
      ensures sent == HttpRequest(verb, url, session.headers, body)
      ensures r.Ok? <==> reply.Received? && Succeeded(reply.body) && MsgSearchable(reply.body)
                         && !ReportsTimeout(reply.body) && HasData(reply.body)
      ensures r == CheckReply(reply)
    {
      sent := HttpRequest(verb, url, session.headers, body);
      match reply {
        case TransportFailed =>
          r := Err(Transport);
        case Received(result) =>
          r := CheckEnvelope(result);
      }
    }

    /** `lookup`: query the ship register for one MMSI. */
    method Lookup(mmsi: int, reply: HttpOutcome) returns (r: Result<ShipMatch, Failure>, sent: HttpRequest)
      requires session != null
      ensures sent == HttpRequest("POST", ShipInfoMmsiUrl, session.headers, LookupBody(mmsi))
      ensures r == LookupShip(reply)
    {
      var resp;
      resp, sent := Request("POST", ShipInfoMmsiUrl, LookupBody(mmsi), reply);
      if resp.Err? {
        r := Err(resp.error);
        return;
      }
      var data := resp.value;
      match Len(data) {
        case None =>
          r := Err(Malformed);
        case Some(n) =>
          if n == 0 {
            r := Ok(NotFound);
          } else if data.JArr? {
            var (ship, _) := Pop(data.items);  // the shortened local list is discarded
            r := Ok(Found(ship));
          } else {
            r := Err(Malformed);
          }
      }
    }

    /**
     * `login`: always replaces the session by a fresh one, sends the
     * credentials on it, and adds the bearer header only when the reply
     * carries a token. Errors are reported, never raised.
     */
    method Login(creds: Credentials, reply: HttpOutcome) returns (s: HttpSession, sent: HttpRequest)
      modifies this
      ensures session == s && fresh(s)
      ensures sent == HttpRequest("POST", LoginUrl, map[], LoginBody(creds))
      ensures s.headers == HeadersAfterLogin(reply)
    {
      session := new HttpSession();
      s := session;
      sent := HttpRequest("POST", LoginUrl, s.headers, LoginBody(creds));
      var token := LoginToken(reply);
      if token.Ok? {
        s.UpdateHeaders(AuthHeaders(token.value));
      }
    }

    /**
     * `run`: logs in only when there is no session yet, then asks for the
     * MMSI, looks the ship up, queries its positions and renders every row
     * that decodes as a feature of a fresh layer.
     */
    method Run(creds: Credentials, loginReply: HttpOutcome, answer: DialogAnswer,
               shipReply: HttpOutcome, positionsReply: HttpOutcome)
      returns (outcome: RunOutcome, sent: seq<HttpRequest>)
      modifies this
      ensures session != null
      ensures old(session) != null ==> session == old(session) && session.headers == old(session.headers)
      ensures old(session) == null ==> fresh(session) && session.headers == HeadersAfterLogin(loginReply)
      ensures sent == (if old(session) == null then [HttpRequest("POST", LoginUrl, map[], LoginBody(creds))] else [])
                      + QueryRequests(answer, shipReply, session.headers)
      ensures outcome == RunOutcomeOf(answer, shipReply, positionsReply)
    {
      sent := [];
      if session == null {
        var _, req := Login(creds, loginReply);
        sent := [req];
      }
      var rest;
      outcome, rest := QueryAndRender(answer, shipReply, positionsReply);
      sent := sent + rest;
    }

    /**
     * The part of `run` after the session is in place: ask for the MMSI,
     * look the ship up, query its positions and render every row that
     * decodes as a feature of a fresh layer.
     */
    method QueryAndRender(answer: DialogAnswer, shipReply: HttpOutcome, positionsReply: HttpOutcome)
      returns (outcome: RunOutcome, sent: seq<HttpRequest>)
      requires session != null
      ensures outcome == RunOutcomeOf(answer, shipReply, positionsReply)
      ensures sent == QueryRequests(answer, shipReply, session.headers)
    {
      var s := session;
      sent := [];
      if !answer.ok {
        outcome := Cancelled;
        return;
      }
      var mmsi := answer.mmsi;
      var ship, req := Lookup(mmsi, shipReply);
      sent := sent + [req];
      var name: Json;
      match ship {
        case Err(f) =>
          outcome := Aborted(f);
          return;
        case Ok(m) =>
          var shipname := ShipName(m);
          if shipname.Err? {
            outcome := Aborted(shipname.error);
            return;
          }
          name := shipname.value;
      }
      sent := sent + [HttpRequest("POST", PositionsMmsiUrl, s.headers, PositionsBody(mmsi))];
      var result := PositionsEnvelope(positionsReply);
      if result.Err? {
        outcome := Aborted(result.error);
        return;
      }
      var rows := PositionRows(result.value);
      if rows.None? {
        outcome := Crashed;
        return;
      }
      var pr := new FeatureProvider();
      AddPositions(pr, rows.value, name);
      outcome := Rendered(mmsi, name, pr.features);
    }
  }

  /** A rendered layer holds one feature per decoding row of the positions reply, in row order. */
  lemma RenderedFeatureCount(answer: DialogAnswer, shipReply: HttpOutcome, positionsReply: HttpOutcome)
    requires RunOutcomeOf(answer, shipReply, positionsReply).Rendered?
    ensures PositionsEnvelope(positionsReply).Ok?
    ensures PositionRows(positionsReply.body).Some?
    ensures RunOutcomeOf(answer, shipReply, positionsReply).features
            == Project(Elements(Member(positionsReply.body.members, "data").value).value, ShipNameFor(shipReply).value)
    ensures |RunOutcomeOf(answer, shipReply, positionsReply).features|
            == CountPositionRows(Elements(Member(positionsReply.body.members, "data").value).value)
  {
    var name := ShipNameFor(shipReply).value;
    ProjectCount(PositionRows(positionsReply.body).value, name);
  }

  /** A vessel the register does not know aborts `run` before any positions are requested. */
  lemma UnknownVesselAborts(answer: DialogAnswer, shipReply: HttpOutcome, positionsReply: HttpOutcome,
                            headers: map<string, string>)
    requires answer.ok && LookupShip(shipReply) == Ok(NotFound)
    ensures RunOutcomeOf(answer, shipReply, positionsReply) == Aborted(Malformed)
    ensures |QueryRequests(answer, shipReply, headers)| == 1
  {
    NotFoundHasNoName(shipReply);
  }

  /**
   * The positions query is not checked for a timeout message: a reply that
   * `_request` would reject as timed out renders its rows all the same.
   */
  lemma PositionsTimeoutNotDetected(answer: DialogAnswer, shipReply: HttpOutcome)
    requires answer.ok && ShipNameFor(shipReply).Ok?
    ensures
      var body := JObj([("success", JBool(true)), ("msg", JStr(TimeoutText)), ("data", JArr([]))]);
      CheckReply(Received(body)) == Err(UpstreamTimeout)
      && RunOutcomeOf(answer, shipReply, Received(body)) == Rendered(answer.mmsi, ShipNameFor(shipReply).value, [])
  {
    var body := JObj([("success", JBool(true)), ("msg", JStr(TimeoutText)), ("data", JArr([]))]);
    assert Member(body.members, "success") == Some(JBool(true));
    assert Member(body.members, "msg") == Some(JStr(TimeoutText));
    var tail := body.members[1..];
    assert tail[1..] == [("data", JArr([]))];
    assert Member(tail[1..], "data") == Some(JArr([]));
    assert Member(tail, "data") == Some(JArr([]));
    assert Member(body.members, "data") == Some(JArr([]));
    assert TimeoutText[..|TimeoutText|] == TimeoutText;
    assert Contains(TimeoutText, TimeoutText);
    assert MentionsTimeout(Some(JStr(TimeoutText))) == Some(true);
    assert CheckEnvelope(body) == Err(UpstreamTimeout);
    assert PositionsEnvelope(Received(body)) == Ok(body);
    assert PositionRows(body) == Some([]);
  }
}
