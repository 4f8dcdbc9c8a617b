/** The server's bet schema (backend/models.py): the two enumerations, the
    field constraints of the create and update bodies, and how a JSON body
    is read into them with the declared defaults. */
module ServerModels {
  import opened Wrappers
  import opened Json
  import opened Ledger

  datatype BetType = Single | Parlay

  datatype BetOutcome = Win | Loss | Pending

  /** The enumeration values, as they travel in JSON. */
  function TypeText(t: BetType): string {
    match t
    case Single => "single"
    case Parlay => "parlay"
  }

  function OutcomeText(o: BetOutcome): string {
    match o
    case Win => "acertada"
    case Loss => "fallida"
    case Pending => "pendiente"
  }

  /** BetType(s): the member with that value, if any. */
  function TypeFromText(s: string): (r: Option<BetType>)
    ensures r.Some? ==> TypeText(r.value) == s
    ensures r.None? ==> forall t :: TypeText(t) != s
  {
    if s == "single" then Some(Single)
    else if s == "parlay" then Some(Parlay)
    else None
  }

  function OutcomeFromText(s: string): (r: Option<BetOutcome>)
    ensures r.Some? ==> OutcomeText(r.value) == s
    ensures r.None? ==> forall o :: OutcomeText(o) != s
  {
    if s == "acertada" then Some(Win)
    else if s == "fallida" then Some(Loss)
    else if s == "pendiente" then Some(Pending)
    else None
  }

  /** Each member's value reads back as that member, and distinct members
      have distinct values: the type is exactly single or parlay, the
      outcome exactly one of acertada, fallida and pendiente. */
  lemma EnumTexts(t: BetType, u: BetType, o: BetOutcome, p: BetOutcome)
    ensures TypeFromText(TypeText(t)) == Some(t)
    ensures OutcomeFromText(OutcomeText(o)) == Some(o)
    ensures TypeText(t) == TypeText(u) ==> t == u
    ensures OutcomeText(o) == OutcomeText(p) ==> o == p
  {
    assert "single" != "parlay" by { assert "single"[0] != "parlay"[0]; }
    assert "acertada"[0] != "fallida"[0] && "acertada"[0] != "pendiente"[0] && "fallida"[0] != "pendiente"[0];
  }

  /** ParlayLegBase. */
  datatype LegBase = LegBase(detail: string, odds: real)

  predicate ValidLeg(l: LegBase) {
    |l.detail| <= 255 && l.odds > 1.0
  }

  /** The fields of BetBase. */
  datatype BetFields = BetFields(
    eventDate: CalendarDate,
    betType: BetType,
    detail: string,
    stake: real,
    odds: real,
    cashout: Option<real>,
    outcome: BetOutcome)

  predicate ValidFields(f: BetFields) {
    && |f.detail| <= 512
    && f.stake > 0.0
    && f.odds > 1.0
    && (f.cashout.Some? ==> f.cashout.value >= 0.0)
  }

  /** BetCreate: the base fields, an optional id and the legs. */
  datatype BetCreate = BetCreate(id: Option<string>, fields: BetFields, legs: seq<LegBase>)

  predicate ValidCreate(c: BetCreate) {
    ValidFields(c.fields) && forall i :: 0 <= i < |c.legs| ==> ValidLeg(c.legs[i])
  }

  /** BetUpdate after model_dump(exclude_unset=True, exclude_none=True): a
      field is None when the body left it out or sent null; both leave the
      stored value alone. */
  datatype BetUpdate = BetUpdate(
    eventDate: Option<CalendarDate>,
    betType: Option<BetType>,
    detail: Option<string>,
    stake: Option<real>,
    odds: Option<real>,
    cashout: Option<real>,
    outcome: Option<BetOutcome>,
    legs: Option<seq<LegBase>>)

  /** The constraints BetUpdate declares: the bounds of creation on stake,
      odds and cashout, and valid legs. The detail carries no length bound
      here (see ReadUpdateBounded). */
  predicate ValidUpdate(u: BetUpdate) {
    && (u.stake.Some? ==> u.stake.value > 0.0)
    && (u.odds.Some? ==> u.odds.value > 1.0)
    && (u.cashout.Some? ==> u.cashout.value >= 0.0)
    && (u.legs.Some? ==> forall i :: 0 <= i < |u.legs.value| ==> ValidLeg(u.legs.value[i]))
  }

  /** The update constraints with BetBase's detail bound added. */
  predicate ValidUpdateBounded(u: BetUpdate) {
    ValidUpdate(u) && (u.detail.Some? ==> |u.detail.value| <= 512)
  }

  /** Reading a JSON body: the error names the first field that fails. */
  datatype Invalid = Invalid(field: string)

  /** A required text of at most bound characters. */
  function TextField(m: map<string, Json>, key: string, bound: nat): (r: Result<string, Invalid>)
    ensures r.Ok? <==> key in m && m[key].JStr? && |m[key].s| <= bound
    ensures r.Ok? ==> r.value == m[key].s
  {
    if key in m && m[key].JStr? && |m[key].s| <= bound then Ok(m[key].s) else Err(Invalid(key))
  }

  /** A required number above a lower bound. */
  function NumberAbove(m: map<string, Json>, key: string, bound: real): (r: Result<real, Invalid>)
    ensures r.Ok? <==> key in m && m[key].JNum? && m[key].n > bound
    ensures r.Ok? ==> r.value == m[key].n
  {
    if key in m && m[key].JNum? && m[key].n > bound then Ok(m[key].n) else Err(Invalid(key))
  }

  /** An optional value: absent or null is None. */
  predicate Unset(m: map<string, Json>, key: string) {
    key !in m || m[key] == JNull
  }

  /** An optional number at least 0. */
  function OptionalCashout(m: map<string, Json>): (r: Result<Option<real>, Invalid>)
    ensures Unset(m, "cashout") ==> r == Ok(None)
    ensures !Unset(m, "cashout") ==> (r.Ok? <==> m["cashout"].JNum? && m["cashout"].n >= 0.0)
    ensures !Unset(m, "cashout") && r.Ok? ==> r.value == Some(m["cashout"].n)
    ensures r.Ok? && r.value.Some? ==> r.value.value >= 0.0 && m["cashout"] == JNum(r.value.value)
  {
    if Unset(m, "cashout") then Ok(None)
    else if m["cashout"].JNum? && m["cashout"].n >= 0.0 then Ok(Some(m["cashout"].n))
    else Err(Invalid("cashout"))
  }

  /** A date in ISO form. */
  function DateField(v: Json, key: string): (r: Result<CalendarDate, Invalid>)
    ensures r.Ok? <==> v.JStr? && DateFromIso(v.s).Some?
    ensures r.Ok? ==> v == JStr(IsoDate(r.value))
  {
    if v.JStr? && DateFromIso(v.s).Some? then Ok(DateFromIso(v.s).value) else Err(Invalid(key))
  }

  /** A bet type given by its text. */
  function TypeField(v: Json): (r: Result<BetType, Invalid>)
    ensures r.Ok? <==> v.JStr? && exists t :: TypeText(t) == v.s
    ensures r.Ok? ==> v == JStr(TypeText(r.value))
    ensures r.Err? ==> r.error == Invalid("type")
  {
    if v.JStr? && TypeFromText(v.s).Some? then Ok(TypeFromText(v.s).value) else Err(Invalid("type"))
  }

  /** An outcome given by its text. */
  function OutcomeField(v: Json): (r: Result<BetOutcome, Invalid>)
    ensures r.Ok? <==> v.JStr? && exists o :: OutcomeText(o) == v.s
    ensures r.Ok? ==> v == JStr(OutcomeText(r.value))
    ensures r.Err? ==> r.error == Invalid("outcome")
  {
    if v.JStr? && OutcomeFromText(v.s).Some? then Ok(OutcomeFromText(v.s).value) else Err(Invalid("outcome"))
  }

  /** One ParlayLegBase from a JSON value. */
  function ReadLeg(v: Json): (r: Result<LegBase, Invalid>)
    ensures !v.JObj? ==> r == Err(Invalid("legs"))
    ensures v.JObj? ==> (r.Ok? <==> TextField(v.fields, "detail", 255).Ok? && NumberAbove(v.fields, "odds", 1.0).Ok?)
    ensures r.Ok? ==> r.value == LegBase(v.fields["detail"].s, v.fields["odds"].n)
    ensures r.Ok? ==> ValidLeg(r.value)
  {
    match v
    case JObj(m) =>
      var detail :- TextField(m, "detail", 255);
      var odds :- NumberAbove(m, "odds", 1.0);
      Ok(LegBase(detail, odds))
    case _ => Err(Invalid("legs"))
  }

  /** A list of legs. */
  function ReadLegs(v: Json): (r: Result<seq<LegBase>, Invalid>)
    ensures !v.JArr? ==> r == Err(Invalid("legs"))
    ensures v.JArr? ==> (r.Ok? <==> forall i :: 0 <= i < |v.items| ==> ReadLeg(v.items[i]).Ok?)
    ensures r.Ok? ==> |r.value| == |v.items| && forall i :: 0 <= i < |r.value| ==> ReadLeg(v.items[i]) == Ok(r.value[i])
    ensures r.Ok? ==> forall i :: 0 <= i < |r.value| ==> ValidLeg(r.value[i])
  {
    match v
    case JArr(items) =>
      TryMapFirstError(items, ReadLeg);
      TryMap(items, ReadLeg)
    case _ => Err(Invalid("legs"))
  }

  /** The BetBase fields of a body, with the declared defaults: type
      single, cashout None, outcome pendiente. */
  function ReadFields(m: map<string, Json>): (r: Result<BetFields, Invalid>)
    ensures r.Ok? <==>
      && "event_date" in m && DateField(m["event_date"], "event_date").Ok?
      && ("type" in m ==> TypeField(m["type"]).Ok?)
      && TextField(m, "detail", 512).Ok?
      && NumberAbove(m, "stake", 0.0).Ok? && NumberAbove(m, "odds", 1.0).Ok?
      && OptionalCashout(m).Ok?
      && ("outcome" in m ==> OutcomeField(m["outcome"]).Ok?)
    ensures r.Ok? ==> m["event_date"] == JStr(IsoDate(r.value.eventDate))
    ensures r.Ok? ==> if "type" in m then m["type"] == JStr(TypeText(r.value.betType)) else r.value.betType == Single
    ensures r.Ok? ==> r.value.detail == m["detail"].s && r.value.stake == m["stake"].n && r.value.odds == m["odds"].n
    ensures r.Ok? ==> Ok(r.value.cashout) == OptionalCashout(m)
    ensures r.Ok? ==> if "outcome" in m then m["outcome"] == JStr(OutcomeText(r.value.outcome)) else r.value.outcome == Pending
    ensures r.Ok? ==> ValidFields(r.value)
  {
    var eventDate :- if "event_date" in m then DateField(m["event_date"], "event_date") else Err(Invalid("event_date"));
    var betType :- if "type" in m then TypeField(m["type"]) else Ok(Single);
    var detail :- TextField(m, "detail", 512);
    var stake :- NumberAbove(m, "stake", 0.0);
    var odds :- NumberAbove(m, "odds", 1.0);
    var cashout :- OptionalCashout(m);
    var outcome :- if "outcome" in m then OutcomeField(m["outcome"]) else Ok(Pending);
    Ok(BetFields(eventDate, betType, detail, stake, odds, cashout, outcome))
  }

  /** A create body: the base fields, an optional id (absent or null is
      None) and the legs, [] when absent. */
  function ReadCreate(m: map<string, Json>): (r: Result<BetCreate, Invalid>)
    ensures r.Ok? <==>
      && ReadFields(m).Ok?
      && (Unset(m, "id") || m["id"].JStr?)
      && ("legs" in m ==> ReadLegs(m["legs"]).Ok?)
    ensures r.Ok? ==> Ok(r.value.fields) == ReadFields(m)
    ensures r.Ok? ==> if Unset(m, "id") then r.value.id == None else r.value.id.Some? && m["id"] == JStr(r.value.id.value)
    ensures r.Ok? ==> if "legs" in m then Ok(r.value.legs) == ReadLegs(m["legs"]) else r.value.legs == []
    ensures r.Ok? ==> ValidCreate(r.value)
  {
    var fields :- ReadFields(m);
    var id :- if Unset(m, "id") then Ok(None) else if m["id"].JStr? then Ok(Some(m["id"].s)) else Err(Invalid("id"));
    var legs :- if "legs" in m then ReadLegs(m["legs"]) else Ok([]);
    Ok(BetCreate(id, fields, legs))
  }

  /** An ISO date text reads as its date. */
  lemma DateFieldIso(d: CalendarDate, key: string)
    ensures DateField(JStr(IsoDate(d)), key) == Ok(d)
  {
    IsoDateRoundTrip(d);
  }

  /** A body holding the four required fields and nothing else. */
  function RequiredBody(eventDate: Json, detail: Json, stake: Json, odds: Json): map<string, Json> {
    map["event_date" := eventDate, "detail" := detail, "stake" := stake, "odds" := odds]
  }

  lemma RequiredBodyReads(eventDate: Json, detail: Json, stake: Json, odds: Json)
    ensures var m := RequiredBody(eventDate, detail, stake, odds);
      && "event_date" in m && m["event_date"] == eventDate
      && "detail" in m && m["detail"] == detail
      && "stake" in m && m["stake"] == stake
      && "odds" in m && m["odds"] == odds
      && "type" !in m && "outcome" !in m && "cashout" !in m && "id" !in m && "legs" !in m
  {
  }

  /** A body with only the required fields takes the defaults: type single,
      outcome pendiente, no cashout, no id, no legs. */
  lemma CreateDefaults(eventDate: Json, d: CalendarDate, detail: string, stake: real, odds: real)
    requires DateField(eventDate, "event_date") == Ok(d)
    requires |detail| <= 512 && stake > 0.0 && odds > 1.0
    ensures ReadCreate(RequiredBody(eventDate, JStr(detail), JNum(stake), JNum(odds)))
            == Ok(BetCreate(None, BetFields(d, Single, detail, stake, odds, None, Pending), []))
  {
    var m := RequiredBody(eventDate, JStr(detail), JNum(stake), JNum(odds));
    RequiredBodyReads(eventDate, JStr(detail), JNum(stake), JNum(odds));
    FieldsDefaults(m, d, detail, stake, odds);
    CreateWithoutExtras(m, BetFields(d, Single, detail, stake, odds, None, Pending));
  }

  lemma FieldsDefaults(m: map<string, Json>, d: CalendarDate, detail: string, stake: real, odds: real)
    requires "event_date" in m && DateField(m["event_date"], "event_date") == Ok(d)
    requires "detail" in m && m["detail"] == JStr(detail) && |detail| <= 512
    requires "stake" in m && m["stake"] == JNum(stake) && stake > 0.0
    requires "odds" in m && m["odds"] == JNum(odds) && odds > 1.0
    requires "type" !in m && "outcome" !in m && "cashout" !in m
    ensures ReadFields(m) == Ok(BetFields(d, Single, detail, stake, odds, None, Pending))
  {
    assert TextField(m, "detail", 512) == Ok(detail);
    assert NumberAbove(m, "stake", 0.0) == Ok(stake);
    assert NumberAbove(m, "odds", 1.0) == Ok(odds);
    assert OptionalCashout(m) == Ok(None);
  }

  lemma CreateWithoutExtras(m: map<string, Json>, f: BetFields)
    requires ReadFields(m) == Ok(f)
    requires "id" !in m && "legs" !in m
    ensures ReadCreate(m) == Ok(BetCreate(None, f, []))
  {
  }

  /** The field is unset or its reader accepts it. */
  predicate Accepts<T>(m: map<string, Json>, key: string, f: Json -> Result<T, Invalid>) {
    Unset(m, key) || f(m[key]).Ok?
  }

  /** x is what the field reads as: None when unset, else what f reads. */
  predicate ReadsAs<T(==)>(m: map<string, Json>, key: string, f: Json -> Result<T, Invalid>, x: Option<T>) {
    if Unset(m, key) then x == None else x.Some? && f(m[key]) == Ok(x.value)
  }

  /** A field of an update body: absent or null is None, anything else is
      read by f. */
  function Optional<T(==)>(m: map<string, Json>, key: string, f: Json -> Result<T, Invalid>): (r: Result<Option<T>, Invalid>)
    ensures Unset(m, key) ==> r == Ok(None)
    ensures !Unset(m, key) ==> (r.Ok? <==> f(m[key]).Ok?)
    ensures !Unset(m, key) && r.Ok? ==> r.value == Some(f(m[key]).value)
    ensures r.Ok? <==> Accepts(m, key, f)
    ensures r.Ok? ==> ReadsAs(m, key, f, r.value)
  {
    if Unset(m, key) then Ok(None)
    else
      var x :- f(m[key]);
      Ok(Some(x))
  }

  function AnyText(key: string): Json -> Result<string, Invalid> {
    (v: Json) => if v.JStr? then Ok(v.s) else Err(Invalid(key))
  }

  function NumberOver(key: string, bound: real, inclusive: bool): Json -> Result<real, Invalid> {
    (v: Json) => if v.JNum? && (v.n > bound || (inclusive && v.n == bound)) then Ok(v.n) else Err(Invalid(key))
  }

  function IsoDateReader(key: string): Json -> Result<CalendarDate, Invalid> {
    (v: Json) => DateField(v, key)
  }

  /** An update body: every field optional, each present one checked. */
  function ReadUpdate(m: map<string, Json>): (r: Result<BetUpdate, Invalid>)
    ensures r.Ok? <==> OthersAccepted(m) && Accepts(m, "detail", AnyText("detail"))
    ensures r.Ok? ==> OthersReadAs(m, r.value) && ReadsAs(m, "detail", AnyText("detail"), r.value.detail)
    ensures r.Ok? ==> ValidUpdate(r.value)
    ensures r.Ok? && Unset(m, "cashout") ==> r.value.cashout == None
  {
    ReadUpdateFrom(m, Optional(m, "detail", AnyText("detail")))
  }

  /** Every field of an update body but the detail is unset or accepted. */
  predicate OthersAccepted(m: map<string, Json>) {
    && Accepts(m, "event_date", IsoDateReader("event_date"))
    && Accepts(m, "type", TypeField)
    && LaterAccepted(m)
  }

  /** The fields after the detail are unset or accepted. */
  predicate LaterAccepted(m: map<string, Json>) {
    && Accepts(m, "stake", NumberOver("stake", 0.0, false))
    && Accepts(m, "odds", NumberOver("odds", 1.0, false))
    && Accepts(m, "cashout", NumberOver("cashout", 0.0, true))
    && Accepts(m, "outcome", OutcomeField)
    && Accepts(m, "legs", ReadLegs)
  }

  /** Every field of u but the detail is what its field of m reads as. */
  predicate OthersReadAs(m: map<string, Json>, u: BetUpdate) {
    && ReadsAs(m, "event_date", IsoDateReader("event_date"), u.eventDate)
    && ReadsAs(m, "type", TypeField, u.betType)
    && LaterReadAs(m, u)
  }

  /** The fields of u after the detail are what m's fields read as. */
  predicate LaterReadAs(m: map<string, Json>, u: BetUpdate) {
    && ReadsAs(m, "stake", NumberOver("stake", 0.0, false), u.stake)
    && ReadsAs(m, "odds", NumberOver("odds", 1.0, false), u.odds)
    && ReadsAs(m, "cashout", NumberOver("cashout", 0.0, true), u.cashout)
    && ReadsAs(m, "outcome", OutcomeField, u.outcome)
    && ReadsAs(m, "legs", ReadLegs, u.legs)
  }

  /** The readers of BetUpdate in field order, with the detail read
      beforehand and checked in its place, third. */
  function ReadUpdateFrom(m: map<string, Json>, detailRead: Result<Option<string>, Invalid>): (r: Result<BetUpdate, Invalid>)
    ensures r.Ok? <==> OthersAccepted(m) && detailRead.Ok?
    ensures r.Ok? ==> OthersReadAs(m, r.value)
    ensures r.Ok? ==> ValidUpdate(r.value) && detailRead == Ok(r.value.detail)
    ensures r.Ok? && Unset(m, "cashout") ==> r.value.cashout == None
  {
    var eventDate :- Optional(m, "event_date", IsoDateReader("event_date"));
    var betType :- Optional(m, "type", TypeField);
    var detail :- detailRead;
    ReadLater(m, eventDate, betType, detail)
  }

  /** The readers of the fields after the detail, in field order, completing
      an update whose first three fields are read. */
  function ReadLater(m: map<string, Json>, eventDate: Option<CalendarDate>, betType: Option<BetType>, detail: Option<string>)
    : (r: Result<BetUpdate, Invalid>)
    ensures r.Ok? <==> LaterAccepted(m)
    ensures r.Ok? ==> LaterReadAs(m, r.value)
    ensures r.Ok? ==> r.value.eventDate == eventDate && r.value.betType == betType && r.value.detail == detail
    ensures r.Ok? ==> ValidUpdate(r.value)
    ensures r.Ok? && Unset(m, "cashout") ==> r.value.cashout == None
  {
    var stake :- Optional(m, "stake", NumberOver("stake", 0.0, false));
    var odds :- Optional(m, "odds", NumberOver("odds", 1.0, false));
    var cashout :- Optional(m, "cashout", NumberOver("cashout", 0.0, true));
    var outcome :- Optional(m, "outcome", OutcomeField);
    var legs :- Optional(m, "legs", ReadLegs);
    Ok(BetUpdate(eventDate, betType, detail, stake, odds, cashout, outcome, legs))
  }

  /** Every field of BetUpdate is optional: a body with no field, or with
      every field null, is accepted and changes nothing. */
  lemma UnsetUpdate(m: map<string, Json>)
    requires forall key :: key in m ==> m[key] == JNull
    ensures ReadUpdate(m) == Ok(BetUpdate(None, None, None, None, None, None, None, None))
  {
    assert Unset(m, "event_date") && Unset(m, "type") && Unset(m, "detail") && Unset(m, "stake");
    assert Unset(m, "odds") && Unset(m, "cashout") && Unset(m, "outcome") && Unset(m, "legs");
  }

  /** An update body holding a detail longer than 512 characters and
      nothing else is accepted. */
  lemma LongDetailAccepted(detail: string)
    requires |detail| > 512
    ensures ReadUpdate(map["detail" := JStr(detail)]).Ok?
    ensures ReadUpdate(map["detail" := JStr(detail)]).value.detail == Some(detail)
    ensures !ValidUpdateBounded(ReadUpdate(map["detail" := JStr(detail)]).value)
  {
    var m := map["detail" := JStr(detail)];
    assert !Unset(m, "detail");
    assert Unset(m, "event_date") && Unset(m, "type") && Unset(m, "stake") && Unset(m, "odds");
    assert Unset(m, "cashout") && Unset(m, "outcome") && Unset(m, "legs");
  }

  // ---------------------------------------------------------------------
  // The update body with the detail bound of BetBase

  function BoundedText(key: string, bound: nat): Json -> Result<string, Invalid> {
    (v: Json) => if v.JStr? && |v.s| <= bound then Ok(v.s) else Err(Invalid(key))
  }

  /** The update body as BetUpdate evidently means it: the same readers
      in the same field order, with the detail held to the 512 characters
      BetBase allows. */
  function ReadUpdateBounded(m: map<string, Json>): (r: Result<BetUpdate, Invalid>)
    ensures r.Ok? <==> OthersAccepted(m) && Accepts(m, "detail", BoundedText("detail", 512))
    ensures r.Ok? ==> OthersReadAs(m, r.value) && ReadsAs(m, "detail", BoundedText("detail", 512), r.value.detail)
    ensures r.Ok? ==> ValidUpdateBounded(r.value)
    ensures r.Ok? && Unset(m, "cashout") ==> r.value.cashout == None
  {
    ReadUpdateFrom(m, Optional(m, "detail", BoundedText("detail", 512)))
  }

  /** The bounded reader accepts exactly the bodies the unbounded one
      accepts with a detail of at most 512 characters, and reads them the
      same way. */
  lemma BoundedAgrees(m: map<string, Json>)
    ensures ReadUpdateBounded(m).Ok? <==> ReadUpdate(m).Ok? && ValidUpdateBounded(ReadUpdate(m).value)
    ensures ReadUpdateBounded(m).Ok? ==> ReadUpdateBounded(m) == ReadUpdate(m)
  {
    var bounded, plain := Optional(m, "detail", BoundedText("detail", 512)), Optional(m, "detail", AnyText("detail"));
    if bounded != plain {
      assert bounded == Err(Invalid("detail"));
      assert plain.Ok? && plain.value.Some? && |plain.value.value| > 512;
    }
  }

  /** The body that LongDetailAccepted lets through is refused, naming the
      detail. */
  lemma LongDetailRefused(detail: string)
    requires |detail| > 512
    ensures ReadUpdateBounded(map["detail" := JStr(detail)]) == Err(Invalid("detail"))
  {
    var m := map["detail" := JStr(detail)];
    assert !Unset(m, "detail");
    assert Unset(m, "event_date") && Unset(m, "type");
  }
}
