/** The client's bet records (client/models.py): parlay legs and bets, their
    JSON dictionary forms, and the ledger arithmetic over a bet. */
module Ledger {
  import opened Wrappers
  import opened PyText
  import opened Json

  /** A calendar date. */
  datatype Date = Date(year: nat, month: nat, day: nat)

  predicate IsLeapYear(y: nat) {
    y % 4 == 0 && (y % 100 != 0 || y % 400 == 0)
  }

  function DaysInMonth(y: nat, m: nat): nat {
    if m == 2 then (if IsLeapYear(y) then 29 else 28)
    else if m == 4 || m == 6 || m == 9 || m == 11 then 30
    else 31
  }

  /** The dates Python's datetime.date can hold. */
  predicate ValidDate(d: Date) {
    && 1 <= d.year <= 9999
    && 1 <= d.month <= 12
    && 1 <= d.day <= DaysInMonth(d.year, d.month)
  }

  /** A date Python can hold: the only kind a bet carries. */
  type CalendarDate = d: Date | ValidDate(d) witness Date(1, 1, 1)

  /** Chronological order on dates, as Python compares them. */
  predicate DateLe(a: Date, b: Date) {
    || a.year < b.year
    || (a.year == b.year && a.month < b.month)
    || (a.year == b.year && a.month == b.month && a.day <= b.day)
  }

  /** A point in time, ordered like the datetimes it stands for. Its text
      form is its decimal numeral, in place of datetime.isoformat. */
  type Timestamp = nat

  function TimestampText(t: Timestamp): string {
    NatText(t)
  }

  /** date.isoformat(): YYYY-MM-DD. */
  function IsoDate(d: CalendarDate): (r: string)
    ensures |r| == 10 && r[4] == '-' && r[7] == '-'
    ensures r[..4] == Padded(d.year, 4) && r[5..7] == Padded(d.month, 2) && r[8..] == Padded(d.day, 2)
  {
    assert Pow10(4) == 10000 && Pow10(2) == 100;
    PaddedWidth(d.year, 4);
    PaddedWidth(d.month, 2);
    PaddedWidth(d.day, 2);
    var r := Padded(d.year, 4) + "-" + Padded(d.month, 2) + "-" + Padded(d.day, 2);
    assert r[..4] == Padded(d.year, 4);
    assert r[5..7] == Padded(d.month, 2);
    assert r[8..] == Padded(d.day, 2);
    r
  }

  /** The shape of an ISO date text: four, two and two digits separated by
      hyphens. */
  predicate IsoShaped(s: string) {
    |s| == 10 && s[4] == '-' && s[7] == '-'
    && AllDigits(s[..4]) && AllDigits(s[5..7]) && AllDigits(s[8..])
  }

  /** The date an ISO-shaped text writes, valid or not. */
  function IsoFields(s: string): Date
    requires IsoShaped(s)
  {
    Date(DigitsValue(s[..4]), DigitsValue(s[5..7]), DigitsValue(s[8..]))
  }

  /** A valid date written in ISO shape is written exactly as isoformat
      writes it. */
  lemma IsoFieldsText(s: string)
    requires IsoShaped(s) && ValidDate(IsoFields(s))
    ensures IsoDate(IsoFields(s)) == s
  {
    var r := IsoDate(IsoFields(s));
    PaddedDigits(s[..4]);
    PaddedDigits(s[5..7]);
    PaddedDigits(s[8..]);
    forall k | 0 <= k < 10 ensures r[k] == s[k] {
      if k < 4 { assert r[k] == r[..4][k]; }
      else if 4 < k < 7 { assert r[k] == r[5..7][k - 5] && s[k] == s[5..7][k - 5]; }
      else if 7 < k { assert r[k] == r[8..][k - 8] && s[k] == s[8..][k - 8]; }
    }
  }

  /** date.fromisoformat for the YYYY-MM-DD form: None where Python raises
      ValueError. */
  function DateFromIso(s: string): (r: Option<CalendarDate>)
    ensures r.Some? ==> IsoDate(r.value) == s
  {
    if IsoShaped(s) && ValidDate(IsoFields(s)) then
      IsoFieldsText(s);
      var d: CalendarDate := IsoFields(s);
      Some(d)
    else None
  }

  /** Every valid date reads back from its ISO text. */
  lemma IsoDateRoundTrip(d: CalendarDate)
    ensures DateFromIso(IsoDate(d)) == Some(d)
  {
    var s := IsoDate(d);
    assert AllDigits(s[..4]) && AllDigits(s[5..7]) && AllDigits(s[8..]);
    assert DigitsValue(s[..4]) == d.year;
  }

  /** _parse_date on a JSON value: a text is read from its first ten
      characters; anything else (or a malformed text) raises ValueError. */
  function ParseDate(v: Json): (r: Result<CalendarDate, Failure>)
    ensures r.Err? ==> r.error == ValueError
    ensures r.Ok? ==> v.JStr? && |v.s| >= 10 && IsoDate(r.value) == v.s[..10]
    ensures !v.JStr? ==> r.Err?
  {
    match v
    case JStr(s) =>
      (match DateFromIso(if |s| <= 10 then s else s[..10])
       case Some(d) => Ok(d)
       case None => Err(ValueError))
    case _ => Err(ValueError)
  }

  /** Only the first ten characters of a text matter to _parse_date. */
  lemma ParseDatePrefix(d: CalendarDate, rest: string)
    ensures ParseDate(JStr(IsoDate(d) + rest)) == Ok(d)
  {
    var s := IsoDate(d) + rest;
    var first := if |s| <= 10 then s else s[..10];
    assert first == IsoDate(d);
    IsoDateRoundTrip(d);
  }

  lemma ParseDateIso(d: CalendarDate)
    ensures ParseDate(JStr(IsoDate(d))) == Ok(d)
  {
    IsoDateRoundTrip(d);
  }

  /** _parse_datetime on a JSON value: a text that reads as a timestamp gives
      it; anything else gives the clock value `now` (datetime.utcnow()). */
  function ParseDatetime(v: Json, now: Timestamp): (r: Timestamp)
    ensures !v.JStr? ==> r == now
  {
    match v
    case JStr(s) =>
      (match ParseDigits(s)
       case Some(t) => t
       case None => now)
    case _ => now
  }

  lemma ParseDatetimeRoundTrip(t: Timestamp, now: Timestamp)
    ensures ParseDatetime(JStr(TimestampText(t)), now) == t
  {
  }

  /** _parse_optional_float: never raises. None stays None, and a value float()
      cannot convert becomes None. */
  function ParseOptionalFloat(v: Json): (r: Option<real>)
    ensures r.Some? ==> PyFloat(v) == Ok(r.value) && !v.JNull?
    ensures r.None? ==> v.JNull? || PyFloat(v).Err?
  {
    if v.JNull? then None
    else
      match PyFloat(v)
      case Ok(x) => Some(x)
      case Err(_) => None
  }

  /** A parlay leg. */
  datatype Leg = Leg(id: string, detail: string, odds: real)

  /** A bet as the client keeps it. */
  datatype Bet = Bet(
    id: string,
    eventDate: CalendarDate,
    betType: string,
    detail: string,
    stake: real,
    odds: real,
    cashout: Option<real>,
    outcome: string,
    legs: seq<Leg>,
    createdAt: Timestamp,
    updatedAt: Timestamp)

  /** The amount a bet pays back: the cash-out when there is one, otherwise
      stake times odds for a won bet and nothing for any other outcome. */
  function GrossReturn(b: Bet): real {
    if b.cashout.Some? then b.cashout.value
    else if b.outcome == "acertada" then b.stake * b.odds
    else 0.0
  }

  /** Profit or loss of a bet. */
  function Net(b: Bet): real {
    GrossReturn(b) - b.stake
  }

  /** What a bet yields, by case: a cash-out c (0 included) nets c - stake
      whatever the outcome; without one, a won bet nets stake * (odds - 1)
      and every other outcome loses the stake. */
  lemma NetCases(b: Bet)
    ensures b.cashout.Some? ==> GrossReturn(b) == b.cashout.value && Net(b) == b.cashout.value - b.stake
    ensures b.cashout.None? && b.outcome == "acertada" ==>
      GrossReturn(b) == b.stake * b.odds && Net(b) == b.stake * (b.odds - 1.0)
    ensures b.cashout.None? && b.outcome != "acertada" ==> GrossReturn(b) == 0.0 && Net(b) == -b.stake
  {
  }

  /** A bet never loses more than its stake when its cash-out is
      non-negative and its odds are at least 1, and a won bet at odds above
      1 is profitable. */
  lemma NetBounds(b: Bet)
    requires b.stake >= 0.0 && b.odds >= 1.0
    requires b.cashout.None? || b.cashout.value >= 0.0
    ensures Net(b) >= -b.stake
    ensures b.cashout.None? && b.outcome == "acertada" && b.stake > 0.0 && b.odds > 1.0 ==> Net(b) > 0.0
  {
    if b.cashout.None? && b.outcome == "acertada" {
      assert Net(b) == b.stake * (b.odds - 1.0);
      ProductSign(b.stake, b.odds - 1.0);
    }
  }

  lemma ProductSign(x: real, y: real)
    requires x >= 0.0 && y >= 0.0
    ensures x * y >= 0.0
    ensures x > 0.0 && y > 0.0 ==> x * y > 0.0
  {
  }

  function OptionalNumber(x: Option<real>): Json {
    match x
    case None => JNull
    case Some(v) => JNum(v)
  }

  /** ParlayLeg.to_dict. */
  function LegToDict(l: Leg): Json {
    JObj(map["id" := JStr(l.id), "detail" := JStr(l.detail), "odds" := JNum(l.odds)])
  }

  /** ParlayLeg.to_payload: the leg without its id. */
  function LegToPayload(l: Leg): Json {
    JObj(map["detail" := JStr(l.detail), "odds" := JNum(l.odds)])
  }

  /** ParlayLeg.from_dict: the id through str() (a missing id becomes
      "None"), the detail defaulting to "", the odds through float()
      defaulting to 0.0. A detail that is not a text is not modelled. */
  function LegFromDict(v: Json): (r: Result<Leg, Failure>)
    ensures !v.JObj? ==> r == Err(AttributeError)
  {
    if !v.JObj? then Err(AttributeError)
    else
      var id :- PyStr(Lookup(v.fields, "id", JNull));
      var odds :- PyFloat(Lookup(v.fields, "odds", JNum(0.0)));
      var detail := Lookup(v.fields, "detail", JStr(""));
      if detail.JStr? then Ok(Leg(id, detail.s, odds)) else Err(NotModelled)
  }

  lemma LegRoundTrip(l: Leg)
    ensures LegFromDict(LegToDict(l)) == Ok(l)
  {
  }

  function LegsToDicts(legs: seq<Leg>): (r: seq<Json>)
    ensures |r| == |legs|
    ensures forall i :: 0 <= i < |legs| ==> r[i] == LegToDict(legs[i])
  {
    seq(|legs|, i requires 0 <= i < |legs| => LegToDict(legs[i]))
  }

  function LegsToPayloads(legs: seq<Leg>): (r: seq<Json>)
    ensures |r| == |legs|
    ensures forall i :: 0 <= i < |legs| ==> r[i] == LegToPayload(legs[i])
  {
    seq(|legs|, i requires 0 <= i < |legs| => LegToPayload(legs[i]))
  }

    /** Reading back a list of leg dicts gives the same legs, ids included. */
  lemma LegsRoundTrip(legs: seq<Leg>)
    ensures TryMap(LegsToDicts(legs), LegFromDict) == Ok(legs)
  {
    forall i | 0 <= i < |legs| ensures LegFromDict(LegsToDicts(legs)[i]) == Ok(legs[i]) {
      LegRoundTrip(legs[i]);
    }
    TryMapAllOk(LegsToDicts(legs), LegFromDict, legs);
  }

  /** The legs of a stored dict: Python iterates whatever value is there. A
      list gives its items; an empty text or dict gives no items; the
      characters of a non-empty text and the keys of a non-empty dict are
      texts, which have no get method; None, numbers and booleans are not
      iterable. */
  function LegsOf(v: Json): (r: Result<seq<Leg>, Failure>)
    ensures v.JArr? ==> r == TryMap(v.items, LegFromDict)
    ensures (v.JNull? || v.JNum? || v.JBool?) ==> r == Err(TypeError)
  {
    match v
    case JArr(items) => TryMap(items, LegFromDict)
    case JStr(s) => if s == [] then Ok([]) else Err(AttributeError)
    case JObj(m) => if m == map[] then Ok([]) else Err(AttributeError)
    case _ => Err(TypeError)
  }

  /** The entries to_dict and to_payload write alike, in the same order:
      everything except the legs and the two timestamps. */
  function SharedLayout(id: Json, eventDate: Json, betType: Json, detail: Json,
                        stake: Json, odds: Json, cashout: Json, outcome: Json): map<string, Json>
  {
    map[
      "id" := id,
      "event_date" := eventDate,
      "type" := betType,
      "detail" := detail,
      "stake" := stake,
      "odds" := odds,
      "cashout" := cashout,
      "outcome" := outcome]
  }

  /** The shared entries of a bet. */
  function SharedFields(b: Bet): map<string, Json>
  {
    SharedLayout(JStr(b.id), JStr(IsoDate(b.eventDate)), JStr(b.betType), JStr(b.detail),
                 JNum(b.stake), JNum(b.odds), OptionalNumber(b.cashout), JStr(b.outcome))
  }

  /** Bet.to_dict: the shared entries, the legs in dict form and both
      timestamps. */
  function BetToDict(b: Bet): Json
  {
    JObj(SharedFields(b)["legs" := JArr(LegsToDicts(b.legs))]
                        ["created_at" := JStr(TimestampText(b.createdAt))]
                        ["updated_at" := JStr(TimestampText(b.updatedAt))])
  }

  /** Bet.to_payload: the shared entries and the legs in payload form; the
      assignment of None to a cashout that is already None changes
      nothing. */
  function BetToPayload(b: Bet): Json
  {
    JObj(SharedFields(b)["legs" := JArr(LegsToPayloads(b.legs))])
  }

  /** Bet.from_dict, field by field in Python's evaluation order, so that the
      first field that fails decides the exception. Missing fields default:
      type "single", detail "", stake 0.0, odds 1.0, no cash-out, outcome
      "pendiente", no legs, and both timestamps the clock value `now`. */
  function BetFromDict(v: Json, now: Timestamp): (r: Result<Bet, Failure>)
    ensures !v.JObj? ==> r == Err(AttributeError)
  {
    if !v.JObj? then Err(AttributeError)
    else
      var m := v.fields;
      var id :- PyStr(Lookup(m, "id", JNull));
      var date :- ParseDate(Lookup(m, "event_date", JNull));
      var betType :- PyStr(Lookup(m, "type", JStr("single")));
      var stake :- PyFloat(Lookup(m, "stake", JNum(0.0)));
      var odds :- PyFloat(Lookup(m, "odds", JNum(1.0)));
      var outcome :- PyStr(Lookup(m, "outcome", JStr("pendiente")));
      var legs :- LegsOf(Lookup(m, "legs", JArr([])));
      var detail := Lookup(m, "detail", JStr(""));
      if detail.JStr? then
        Ok(Bet(id, date, betType, detail.s, stake, odds, ParseOptionalFloat(Lookup(m, "cashout", JNull)),
               outcome, legs, ParseDatetime(Lookup(m, "created_at", JNull), now),
               ParseDatetime(Lookup(m, "updated_at", JNull), now)))
      else Err(NotModelled)
  }

  /** The legs and the timestamps are not among the shared entries. */
  lemma SharedKeysApart(id: Json, eventDate: Json, betType: Json, detail: Json,
                        stake: Json, odds: Json, cashout: Json, outcome: Json)
    ensures var m := SharedLayout(id, eventDate, betType, detail, stake, odds, cashout, outcome);
      "legs" !in m && "created_at" !in m && "updated_at" !in m
  {
  }

  /** Each shared entry holds the value written under its key. */
  lemma SharedReads(id: Json, eventDate: Json, betType: Json, detail: Json,
                    stake: Json, odds: Json, cashout: Json, outcome: Json)
    ensures var m := SharedLayout(id, eventDate, betType, detail, stake, odds, cashout, outcome);
      && "id" in m && m["id"] == id
      && "event_date" in m && m["event_date"] == eventDate
      && "type" in m && m["type"] == betType
      && "detail" in m && m["detail"] == detail
      && "stake" in m && m["stake"] == stake
      && "odds" in m && m["odds"] == odds
      && "cashout" in m && m["cashout"] == cashout
      && "outcome" in m && m["outcome"] == outcome
  {
  }

  lemma SharedFieldsApart(b: Bet)
    ensures "legs" !in SharedFields(b)
    ensures "created_at" !in SharedFields(b) && "updated_at" !in SharedFields(b)
  {
    SharedKeysApart(JStr(b.id), JStr(IsoDate(b.eventDate)), JStr(b.betType), JStr(b.detail),
                    JNum(b.stake), JNum(b.odds), OptionalNumber(b.cashout), JStr(b.outcome));
  }

  /** The shared entries of a bet hold its id, date, type, detail, amounts
      and settlement. */
  lemma SharedFieldsRead(b: Bet)
    ensures "id" in SharedFields(b) && SharedFields(b)["id"] == JStr(b.id)
    ensures "event_date" in SharedFields(b) && SharedFields(b)["event_date"] == JStr(IsoDate(b.eventDate))
    ensures "type" in SharedFields(b) && SharedFields(b)["type"] == JStr(b.betType)
    ensures "detail" in SharedFields(b) && SharedFields(b)["detail"] == JStr(b.detail)
    ensures "stake" in SharedFields(b) && SharedFields(b)["stake"] == JNum(b.stake)
    ensures "odds" in SharedFields(b) && SharedFields(b)["odds"] == JNum(b.odds)
    ensures "cashout" in SharedFields(b) && SharedFields(b)["cashout"] == OptionalNumber(b.cashout)
    ensures "outcome" in SharedFields(b) && SharedFields(b)["outcome"] == JStr(b.outcome)
  {
    SharedReads(JStr(b.id), JStr(IsoDate(b.eventDate)), JStr(b.betType), JStr(b.detail),
                JNum(b.stake), JNum(b.odds), OptionalNumber(b.cashout), JStr(b.outcome));
  }

  /** to_dict holds every shared entry unchanged, and its legs and
      timestamps besides. */
  lemma StoreThree<K, V>(m: map<K, V>, k1: K, v1: V, k2: K, v2: V, k3: K, v3: V)
    requires k1 !in m && k2 !in m && k3 !in m && k1 != k2 && k1 != k3 && k2 != k3
    ensures forall k :: k in m ==> k in m[k1 := v1][k2 := v2][k3 := v3] && m[k1 := v1][k2 := v2][k3 := v3][k] == m[k]
    ensures k1 in m[k1 := v1][k2 := v2][k3 := v3] && m[k1 := v1][k2 := v2][k3 := v3][k1] == v1
    ensures k2 in m[k1 := v1][k2 := v2][k3 := v3] && m[k1 := v1][k2 := v2][k3 := v3][k2] == v2
  {
  }

  lemma DictHoldsShared(b: Bet)
    ensures forall k :: k in SharedFields(b) ==> k in BetToDict(b).fields && BetToDict(b).fields[k] == SharedFields(b)[k]
    ensures "legs" in BetToDict(b).fields && BetToDict(b).fields["legs"] == JArr(LegsToDicts(b.legs))
    ensures "created_at" in BetToDict(b).fields && BetToDict(b).fields["created_at"] == JStr(TimestampText(b.createdAt))
    ensures "updated_at" in BetToDict(b).fields && BetToDict(b).fields["updated_at"] == JStr(TimestampText(b.updatedAt))
  {
    SharedFieldsApart(b);
    assert "legs" != "created_at" && "legs" != "updated_at" && "created_at" != "updated_at";
    StoreThree(SharedFields(b), "legs", JArr(LegsToDicts(b.legs)),
               "created_at", JStr(TimestampText(b.createdAt)),
               "updated_at", JStr(TimestampText(b.updatedAt)));
  }

  /** from_dict reads each field of a bet from the value stored under its
      key: a dict holding the to_dict form of every field gives that bet. */
  lemma BetFromDictReads(m: map<string, Json>, now: Timestamp, b: Bet)
    requires Lookup(m, "id", JNull) == JStr(b.id)
    requires Lookup(m, "event_date", JNull) == JStr(IsoDate(b.eventDate))
    requires Lookup(m, "type", JStr("single")) == JStr(b.betType)
    requires Lookup(m, "stake", JNum(0.0)) == JNum(b.stake)
    requires Lookup(m, "odds", JNum(1.0)) == JNum(b.odds)
    requires Lookup(m, "outcome", JStr("pendiente")) == JStr(b.outcome)
    requires Lookup(m, "legs", JArr([])) == JArr(LegsToDicts(b.legs))
    requires Lookup(m, "detail", JStr("")) == JStr(b.detail)
    requires Lookup(m, "cashout", JNull) == OptionalNumber(b.cashout)
    requires ParseDatetime(Lookup(m, "created_at", JNull), now) == b.createdAt
    requires ParseDatetime(Lookup(m, "updated_at", JNull), now) == b.updatedAt
    ensures BetFromDict(JObj(m), now) == Ok(b)
  {
    ParseDateIso(b.eventDate);
    LegsRoundTrip(b.legs);
    assert PyStr(Lookup(m, "id", JNull)) == Ok(b.id);
    assert PyStr(Lookup(m, "type", JStr("single"))) == Ok(b.betType);
    assert PyStr(Lookup(m, "outcome", JStr("pendiente"))) == Ok(b.outcome);
    assert PyFloat(Lookup(m, "stake", JNum(0.0))) == Ok(b.stake);
    assert PyFloat(Lookup(m, "odds", JNum(1.0))) == Ok(b.odds);
    assert LegsOf(Lookup(m, "legs", JArr([]))) == Ok(b.legs);
    assert ParseOptionalFloat(OptionalNumber(b.cashout)) == b.cashout;
  }

  /** Reading back what to_dict writes reproduces every field, leg ids and
      both timestamps included; the clock is not consulted. */
  lemma BetRoundTrip(b: Bet, now: Timestamp)
    ensures BetFromDict(BetToDict(b), now) == Ok(b)
  {
    DictHoldsShared(b);
    SharedFieldsRead(b);
    ParseDatetimeRoundTrip(b.createdAt, now);
    ParseDatetimeRoundTrip(b.updatedAt, now);
    BetFromDictReads(BetToDict(b).fields, now, b);
  }

  /** A dict with only an id and an event date has none of the other keys. */
  lemma IdAndDateOnly(id: Json, eventDate: Json)
    ensures var m := map["id" := id, "event_date" := eventDate];
      && "id" in m && m["id"] == id && "event_date" in m && m["event_date"] == eventDate
      && "type" !in m && "stake" !in m && "odds" !in m && "outcome" !in m
      && "legs" !in m && "detail" !in m && "cashout" !in m
      && "created_at" !in m && "updated_at" !in m
  {
  }

  /** A dict with only an id and an event date gets the documented defaults. */
  lemma BetFromDictDefaults(id: string, d: CalendarDate, now: Timestamp)
    ensures BetFromDict(JObj(map["id" := JStr(id), "event_date" := JStr(IsoDate(d))]), now)
         == Ok(Bet(id, d, "single", "", 0.0, 1.0, None, "pendiente", [], now, now))
  {
    var m := map["id" := JStr(id), "event_date" := JStr(IsoDate(d))];
    IdAndDateOnly(JStr(id), JStr(IsoDate(d)));
    assert LegsToDicts([]) == [];
    BetFromDictReads(m, now, Bet(id, d, "single", "", 0.0, 1.0, None, "pendiente", [], now, now));
  }

  /** A leg's payload is its dict without the id. */
  lemma LegPayloadDropsId(l: Leg)
    ensures LegToPayload(l).fields == LegToDict(l).fields - {"id"}
  {
    assert LegToPayload(l).fields.Keys == LegToDict(l).fields.Keys - {"id"};
  }

  lemma StoreThenDrop<K, V>(m: map<K, V>, k: K, v: V, k2: K, v2: V, k3: K, v3: V, w: V)
    requires k2 !in m && k3 !in m && k2 != k && k3 != k
    ensures m[k := v][k2 := v2][k3 := v3] - {k2, k3} == m[k := v]
    ensures m[k := v][k := w] == m[k := w]
  {
  }

  /** to_payload is to_dict without the two timestamps and with the legs in
      payload form: every other entry is carried over unchanged. */
  lemma PayloadFromDict(b: Bet)
    ensures BetToPayload(b).fields
         == (BetToDict(b).fields - {"created_at", "updated_at"})["legs" := JArr(LegsToPayloads(b.legs))]
    ensures BetToDict(b).fields.Keys == BetToPayload(b).fields.Keys + {"created_at", "updated_at"}
    ensures "created_at" !in BetToPayload(b).fields && "updated_at" !in BetToPayload(b).fields
  {
    SharedFieldsApart(b);
    StoreThenDrop(SharedFields(b), "legs", JArr(LegsToDicts(b.legs)),
                  "created_at", JStr(TimestampText(b.createdAt)),
                  "updated_at", JStr(TimestampText(b.updatedAt)), JArr(LegsToPayloads(b.legs)));
  }

  /** Leg by leg, the payload form is the dict form without the id. */
  lemma LegsPayloadDropIds(legs: seq<Leg>)
    ensures forall i :: 0 <= i < |legs| ==>
      LegsToPayloads(legs)[i].fields == LegsToDicts(legs)[i].fields - {"id"}
  {
    forall i | 0 <= i < |legs|
      ensures LegsToPayloads(legs)[i].fields == LegsToDicts(legs)[i].fields - {"id"}
    {
      LegPayloadDropsId(legs[i]);
    }
  }

  /** serialize_bets: to_dict of each bet, in order. */
  function SerializeBets(bets: seq<Bet>): (r: seq<Json>)
    ensures |r| == |bets|
    ensures forall i :: 0 <= i < |bets| ==> r[i] == BetToDict(bets[i])
  {
    seq(|bets|, i requires 0 <= i < |bets| => BetToDict(bets[i]))
  }

  /** Bet.from_dict with the clock value for missing timestamps, as a
      function of the dict alone. */
  function BetReader(now: Timestamp): Json -> Result<Bet, Failure>
  {
    (v: Json) => BetFromDict(v, now)
  }

  /** Reading back a serialised list gives the same bets in the same order. */
  lemma BetsRoundTrip(bets: seq<Bet>, now: Timestamp)
    ensures TryMap(SerializeBets(bets), BetReader(now)) == Ok(bets)
  {
    forall i | 0 <= i < |bets| ensures BetReader(now)(SerializeBets(bets)[i]) == Ok(bets[i]) {
      BetRoundTrip(bets[i], now);
    }
    TryMapAllOk(SerializeBets(bets), BetReader(now), bets);
  }

  /** The bets of a whole JSON value that Python iterates: a list gives its
      items; an empty text or dict gives nothing; a non-empty text or dict
      yields texts, which have no get method; None, numbers and booleans are
      not iterable. */
  function BetsOf(v: Json, now: Timestamp): (r: Result<seq<Bet>, Failure>)
    ensures v.JArr? ==> r == TryMap(v.items, BetReader(now))
    ensures (v.JNull? || v.JNum? || v.JBool?) ==> r == Err(TypeError)
  {
    match v
    case JArr(items) => TryMap(items, BetReader(now))
    case JStr(s) => if s == [] then Ok([]) else Err(AttributeError)
    case JObj(m) => if m == map[] then Ok([]) else Err(AttributeError)
    case _ => Err(TypeError)
  }
}
