/**
 * Vessel lookup: what `lookup` makes of the ship-info reply, and how `run`
 * reads the ship's name from it.
 */
module Ship {
  import opened Wrappers
  import opened Json
  import opened Envelope

  /** The placeholder `run` uses when the ship record has no `shipname`. */
  const UnknownName := "Unknown"

  /** What `lookup` returns: `False` for an empty response, else one ship record. */
  datatype ShipMatch = NotFound | Found(ship: Json)

  /** `list.pop()`: the last item, and the list without it. */
  function Pop(xs: seq<Json>): (r: (Json, seq<Json>))
    requires xs != []
    ensures r.1 + [r.0] == xs
  {
    (xs[|xs| - 1], xs[..|xs| - 1])
  }

  /**
   * `lookup` on a ship-info reply: errors of `_request` propagate; an empty
   * response is NotFound; a non-empty list yields its LAST item (`pop()`);
   * `len` on a number or boolean, and `pop()` on a string or a dict, raise.
   */
  function LookupShip(reply: HttpOutcome): (r: Result<ShipMatch, Failure>)
    ensures CheckReply(reply).Err? ==> r == Err(CheckReply(reply).error)
    ensures r == Ok(NotFound) <==> CheckReply(reply).Ok? && Len(CheckReply(reply).value) == Some(0)
    ensures r.Ok? && r.value.Found? ==>
              CheckReply(reply).Ok? && CheckReply(reply).value.JArr?
              && |CheckReply(reply).value.items| > 0
              && r.value.ship == CheckReply(reply).value.items[|CheckReply(reply).value.items| - 1]
              && r.value.ship in CheckReply(reply).value.items
    ensures CheckReply(reply).Ok? && CheckReply(reply).value.JArr? && CheckReply(reply).value.items != []
            ==> r.Ok? && r.value.Found?
  {
    match CheckReply(reply)
    case Err(f) => Err(f)
    case Ok(data) =>
      match Len(data)
      case None => Err(Malformed)
      case Some(n) =>
        if n == 0 then Ok(NotFound)
        else if data.JArr? then Ok(Found(Pop(data.items).0))
        else Err(Malformed)
  }

  /**
   * `ship.get("shipname", "Unknown")` in `run`: `False` and any record that
   * is not a dict have no `get` (AttributeError).
   */
  function ShipName(m: ShipMatch): (r: Result<Json, Failure>)
    ensures r.Ok? <==> m.Found? && m.ship.JObj?
    ensures r.Ok? && "shipname" in Keys(m.ship.members) ==> (("shipname", r.value) in m.ship.members)
    ensures r.Ok? && "shipname" !in Keys(m.ship.members) ==> r.value == JStr(UnknownName)
  {
    match m
    case NotFound => Err(Malformed)
    case Found(ship) =>
      match ship
      case JObj(ms) =>
        (match Member(ms, "shipname")
         case Some(name) => Ok(name)
         case None => Ok(JStr(UnknownName)))
      case _ => Err(Malformed)
  }

  /** The name `run` reads after `lookup`, or the exception that aborts it. */
  function ShipNameFor(reply: HttpOutcome): (r: Result<Json, Failure>)
    ensures LookupShip(reply).Err? ==> r == Err(LookupShip(reply).error)
    ensures r.Ok? <==> LookupShip(reply).Ok? && LookupShip(reply).value.Found?
                       && LookupShip(reply).value.ship.JObj?
  {
    match LookupShip(reply)
    case Err(f) => Err(f)
    case Ok(m) => ShipName(m)
  }

  /** A response listing two ships yields the second one, not the first. */
  lemma LookupTakesLastRecord(a: Json, b: Json)
    ensures LookupShip(Received(JObj([("success", JBool(true)), ("data", JArr([a, b]))])))
            == Ok(Found(b))
  {
    var body := JObj([("success", JBool(true)), ("data", JArr([a, b]))]);
    assert Member(body.members, "success") == Some(JBool(true));
    assert Member(body.members, "msg") == None by {
      assert Keys(body.members) == ["success", "data"];
    }
    assert Member(body.members, "data") == Some(JArr([a, b]));
    assert CheckEnvelope(body) == Ok(JArr([a, b]));
  }

  /** A lookup that finds nothing makes `run` fail on `False.get`, whatever the reply's other members. */
  lemma NotFoundHasNoName(reply: HttpOutcome)
    requires LookupShip(reply) == Ok(NotFound)
    ensures ShipNameFor(reply) == Err(Malformed)
  {
  }
}
