/** The client's handlers (client/app.py) without their widgets: the parlay
    odds preview, the checks of the new-bet form, and what each handler
    changes in the local state, the pending queue and the cache when the
    server answers, refuses or cannot be reached. */
module App {
  import opened Wrappers
  import opened PyText
  import opened Json
  import opened Sorting
  import opened Ledger
  import opened AppStateModule
  import opened Api
  import opened Cache
  import opened Sync

  /** float(field.value): a field without a value (None) raises TypeError. */
  function FloatOf(v: Option<string>): Result<real, Failure> {
    if v.None? then Err(TypeError) else ParseFloat(v.value)
  }

  /** (field.value or ""). */
  function OrEmpty(v: Option<string>): string {
    if v.Some? then v.value else ""
  }

  // ---------------------------------------------------------------------
  // recalc_parlay_odds

  /** What the preview takes from one leg's odds field: float() of its
      text when that is a number above 1. */
  function OddsRead(v: Option<string>): (r: Option<real>)
    ensures r.Some? <==> FloatOf(v).Ok? && FloatOf(v).value > 1.0
    ensures r.Some? ==> r.value == FloatOf(v).value
  {
    var x := FloatOf(v);
    if x.Ok? && x.value > 1.0 then Some(x.value) else None
  }

  /** The leg odds the preview multiplies, in order. */
  function CountedOdds(fields: seq<Option<string>>): seq<real> {
    Collect(fields, OddsRead)
  }

  /** A number is counted exactly when some field reads as it and it is
      above 1. */
  lemma CountedOddsMembers(fields: seq<Option<string>>, x: real)
    ensures x in CountedOdds(fields) <==> x > 1.0 && exists i :: 0 <= i < |fields| && FloatOf(fields[i]) == Ok(x)
  {
    CollectMembers(fields, OddsRead, x);
    if exists i :: 0 <= i < |fields| && FloatOf(fields[i]) == Ok(x) && x > 1.0 {
      var i :| 0 <= i < |fields| && FloatOf(fields[i]) == Ok(x) && x > 1.0;
      assert OddsRead(fields[i]) == Some(x);
    }
  }

  lemma CountedAboveOne(fields: seq<Option<string>>)
    ensures forall i :: 0 <= i < |CountedOdds(fields)| ==> CountedOdds(fields)[i] > 1.0
  {
    forall i | 0 <= i < |CountedOdds(fields)| ensures CountedOdds(fields)[i] > 1.0 {
      CountedOddsMembers(fields, CountedOdds(fields)[i]);
    }
  }

  function Product(xs: seq<real>): real {
    if xs == [] then 1.0 else Product(xs[..|xs| - 1]) * xs[|xs| - 1]
  }

  /** total *= val: multiplying the product so far by one more factor. */
  function ProductStep(xs: seq<real>, total: real, x: real): (r: real)
    requires total == Product(xs)
    ensures r == Product(xs + [x])
  {
    assert (xs + [x])[..|xs|] == xs;
    total * x
  }

  /** A product of factors above 1 is above 1. */
  lemma {:induction false} ProductAboveOne(xs: seq<real>)
    requires xs != [] && forall i :: 0 <= i < |xs| ==> xs[i] > 1.0
    ensures Product(xs) > 1.0
  {
    var init := xs[..|xs| - 1];
    if init != [] {
      ProductAboveOne(init);
    }
  }

  /** What the odds field shows: left alone for a single bet, blank when no
      leg counts, else the product (its two-decimal text is not modelled). */
  datatype OddsPreview = NotParlay | Blank | Shown(total: real)

  method RecalcParlayOdds(isParlay: bool, legOdds: seq<Option<string>>) returns (p: OddsPreview)
    ensures !isParlay ==> p == NotParlay
    ensures isParlay && CountedOdds(legOdds) == [] ==> p == Blank
    ensures isParlay && CountedOdds(legOdds) != [] ==> p == Shown(Product(CountedOdds(legOdds)))
    ensures p.Shown? ==> p.total > 1.0
  {
    if !isParlay {
      return NotParlay;
    }
    var total, valid := MultiplyLegOdds(legOdds);
    if valid {
      CountedAboveOne(legOdds);
      ProductAboveOne(CountedOdds(legOdds));
      p := Shown(total);
    } else {
      p := Blank;
    }
  }

  /** The loop of recalc_parlay_odds: total is the product of the counted
      odds and valid says whether any leg counted. */
  method MultiplyLegOdds(legOdds: seq<Option<string>>) returns (total: real, valid: bool)
    ensures total == Product(CountedOdds(legOdds))
    ensures valid <==> CountedOdds(legOdds) != []
  {
    total := 1.0;
    valid := false;
    var i := 0;
    while i < |legOdds|
      invariant 0 <= i <= |legOdds|
      invariant total == Product(CountedOdds(legOdds[..i]))
      invariant valid <==> CountedOdds(legOdds[..i]) != []
    {
      total, valid := CountLeg(legOdds, i, total, valid);
      i := i + 1;
    }
    assert legOdds[..i] == legOdds;
  }

  /** One pass of that loop: a field float() cannot read, or that reads
      as at most 1, is skipped; any other multiplies the total. */
  method CountLeg(legOdds: seq<Option<string>>, i: nat, total: real, valid: bool) returns (total': real, valid': bool)
    requires i < |legOdds|
    requires total == Product(CountedOdds(legOdds[..i]))
    requires valid <==> CountedOdds(legOdds[..i]) != []
    ensures total' == Product(CountedOdds(legOdds[..i + 1]))
    ensures valid' <==> CountedOdds(legOdds[..i + 1]) != []
  {
    CollectSnoc(legOdds, OddsRead, i);
    var v := FloatOf(legOdds[i]);
    if v.Ok? && v.value > 1.0 {
      assert CountedOdds(legOdds[..i + 1]) == CountedOdds(legOdds[..i]) + [v.value];
      total' := ProductStep(CountedOdds(legOdds[..i]), total, v.value);
      valid' := true;
    } else {
      assert CountedOdds(legOdds[..i + 1]) == CountedOdds(legOdds[..i]);
      total', valid' := total, valid;
    }
  }

  // ---------------------------------------------------------------------
  // submit_form: the checks

  /** Why the form is refused, each with the message it shows. */
  datatype FormError = MissingDetail | BadNumbers | NotPositive | BadCashout | TooFewLegs

  function FormMessage(e: FormError): string {
    match e
    case MissingDetail => "Describe la apuesta"
    case BadNumbers => "Stake/cuota invalidos"
    case NotPositive => "Stake y cuota deben ser > 0"
    case BadCashout => "Cashout invalido"
    case TooFewLegs => "Un parlay necesita 2+ selecciones"
  }

  /** The values of the text fields; None where a field has no value. */
  datatype FormFields = FormFields(detail: Option<string>, stake: Option<string>, odds: Option<string>, cashout: Option<string>)

  datatype Checked = Checked(detail: string, stake: real, odds: real, cashout: Option<real>)

  /** `if cashout_field.value:` a value that is a non-empty text. */
  predicate CashoutGiven(v: Option<string>) {
    v.Some? && v.value != []
  }

  /** The checks of submit_form before the legs, in their order. */
  function CheckFields(f: FormFields): (r: Result<Checked, FormError>)
    ensures r.Ok? <==>
      && Strip(OrEmpty(f.detail)) != []
      && FloatOf(f.stake).Ok? && FloatOf(f.odds).Ok?
      && FloatOf(f.stake).value > 0.0 && FloatOf(f.odds).value > 1.0
      && (CashoutGiven(f.cashout) ==> FloatOf(f.cashout).Ok?)
    ensures Strip(OrEmpty(f.detail)) == [] ==> r == Err(MissingDetail)
    ensures Strip(OrEmpty(f.detail)) != [] && (FloatOf(f.stake).Err? || FloatOf(f.odds).Err?) ==> r == Err(BadNumbers)
    ensures (Strip(OrEmpty(f.detail)) != [] && FloatOf(f.stake).Ok? && FloatOf(f.odds).Ok?
             && (FloatOf(f.stake).value <= 0.0 || FloatOf(f.odds).value <= 1.0)) ==> r == Err(NotPositive)
    ensures (Strip(OrEmpty(f.detail)) != [] && FloatOf(f.stake).Ok? && FloatOf(f.odds).Ok?
             && FloatOf(f.stake).value > 0.0 && FloatOf(f.odds).value > 1.0
             && CashoutGiven(f.cashout) && FloatOf(f.cashout).Err?) ==> r == Err(BadCashout)
    ensures r.Ok? ==> r.value.detail == Strip(OrEmpty(f.detail)) && r.value.detail != []
    ensures r.Ok? ==> r.value.stake == FloatOf(f.stake).value && r.value.odds == FloatOf(f.odds).value
    ensures r.Ok? ==> r.value.stake > 0.0 && r.value.odds > 1.0
    ensures r.Ok? ==> (r.value.cashout.Some? <==> CashoutGiven(f.cashout))
    ensures r.Ok? && CashoutGiven(f.cashout) ==> r.value.cashout == Some(FloatOf(f.cashout).value)
  {
    var detail := Strip(OrEmpty(f.detail));
    if detail == [] then Err(MissingDetail)
    else if FloatOf(f.stake).Err? || FloatOf(f.odds).Err? then Err(BadNumbers)
    else
      var stake, odds := FloatOf(f.stake).value, FloatOf(f.odds).value;
      if stake <= 0.0 || odds <= 1.0 then Err(NotPositive)
      else if CashoutGiven(f.cashout) && FloatOf(f.cashout).Err? then Err(BadCashout)
      else Ok(Checked(detail, stake, odds, if CashoutGiven(f.cashout) then Some(FloatOf(f.cashout).value) else None))
  }

  /** One row of the legs section: the detail and odds field values, and
      the id uuid4 gives the leg if the row is kept. */
  datatype LegRow = LegRow(detail: Option<string>, odds: Option<string>, freshId: string)

  /** A row becomes a leg when its detail is not blank and its odds read as
      a number above 1. */
  function LegOf(row: LegRow): (r: Option<Leg>)
    ensures r.Some? <==> Strip(OrEmpty(row.detail)) != [] && FloatOf(row.odds).Ok? && FloatOf(row.odds).value > 1.0
    ensures r.Some? ==> r.value == Leg(row.freshId, Strip(OrEmpty(row.detail)), FloatOf(row.odds).value)
  {
    var detail := Strip(OrEmpty(row.detail));
    var odds := FloatOf(row.odds);
    if odds.Ok? && detail != [] && odds.value > 1.0 then Some(Leg(row.freshId, detail, odds.value)) else None
  }

  /** The legs the loop of submit_form collects, in row order. */
  function KeptLegs(rows: seq<LegRow>): seq<Leg> {
    Collect(rows, LegOf)
  }

  /** Every kept leg comes from a row that qualifies, so it has a detail
      and odds above 1, and every row that qualifies gives its leg. */
  lemma KeptLegsFacts(rows: seq<LegRow>)
    ensures forall l :: l in KeptLegs(rows) ==> l.detail != [] && l.odds > 1.0
    ensures forall i :: 0 <= i < |rows| && LegOf(rows[i]).Some? ==> LegOf(rows[i]).value in KeptLegs(rows)
  {
    forall l | l in KeptLegs(rows) ensures l.detail != [] && l.odds > 1.0 {
      CollectMembers(rows, LegOf, l);
    }
    forall i | 0 <= i < |rows| && LegOf(rows[i]).Some? ensures LegOf(rows[i]).value in KeptLegs(rows) {
      CollectMembers(rows, LegOf, LegOf(rows[i]).value);
    }
  }

  /** The loop that builds the legs. */
  method CollectLegs(rows: seq<LegRow>) returns (legs: seq<Leg>)
    ensures legs == KeptLegs(rows)
  {
    legs := [];
    var i := 0;
    while i < |rows|
      invariant 0 <= i <= |rows|
      invariant legs == KeptLegs(rows[..i])
    {
      CollectSnoc(rows, LegOf, i);
      var row := rows[i];
      var detail := Strip(OrEmpty(row.detail));
      var odds := FloatOf(row.odds);
      if odds.Ok? && detail != [] && odds.value > 1.0 {
        legs := legs + [Leg(row.freshId, detail, odds.value)];
      }
      i := i + 1;
    }
    assert rows[..i] == rows;
  }

  /** The whole form: the fields, the chosen outcome, the type selector and
      the leg rows. */
  datatype Form = Form(fields: FormFields, outcome: string, isParlay: bool, legRows: seq<LegRow>)

  /** The bet submit_form builds, or why it refuses: the field checks
      first, then, for a parlay, at least two kept legs. A single bet has
      no legs, whatever the rows hold. */
  function NewBet(form: Form, betId: string, date: CalendarDate, now: Timestamp): (r: Result<Bet, FormError>)
    ensures CheckFields(form.fields).Err? ==> r == Err(CheckFields(form.fields).error)
    ensures r == Err(TooFewLegs) <==>
      CheckFields(form.fields).Ok? && form.isParlay && |KeptLegs(form.legRows)| < 2
    ensures r.Ok? ==> r.value.id == betId && r.value.eventDate == date
    ensures r.Ok? ==> r.value.createdAt == now && r.value.updatedAt == now && r.value.outcome == form.outcome
    ensures r.Ok? ==> r.value.detail != [] && r.value.stake > 0.0 && r.value.odds > 1.0
    ensures r.Ok? ==> CheckFields(form.fields).Ok?
    ensures r.Ok? ==> var c := CheckFields(form.fields).value;
      r.value.detail == c.detail && r.value.stake == c.stake && r.value.odds == c.odds && r.value.cashout == c.cashout
    ensures r.Ok? && form.isParlay ==> r.value.legs == KeptLegs(form.legRows)
    ensures r.Ok? ==> (r.value.betType == "parlay" <==> form.isParlay)
    ensures r.Ok? && form.isParlay ==> |r.value.legs| >= 2
    ensures r.Ok? && !form.isParlay ==> r.value.legs == []
    ensures r.Ok? ==> forall l :: l in r.value.legs ==> l.detail != [] && l.odds > 1.0
  {
    var c :- CheckFields(form.fields);
    var legs := if form.isParlay then KeptLegs(form.legRows) else [];
    KeptLegsFacts(form.legRows);
    if form.isParlay && |legs| < 2 then Err(TooFewLegs)
    else
      Ok(Bet(betId, date, if form.isParlay then "parlay" else "single", c.detail, c.stake, c.odds,
             c.cashout, form.outcome, legs, now, now))
  }

  // ---------------------------------------------------------------------
  // The handlers' effects, as values

  /** How a handler ends: it reaches the cache save, it shows the form's
      message, it shows the error and returns, or an exception escapes. */
  datatype Handled = Saved | FormRejected(reason: FormError) | Refused(error: Raised) | Escaped(error: Raised)

  /** The local bets, the files and how the handler ended. */
  datatype Effect = Effect(entries: seq<Bet>, files: map<string, FileText>, handled: Handled)

  /** cache.save_cached_bets(state.as_list()). */
  function Saving(entries: seq<Bet>, files: map<string, FileText>): map<string, FileText> {
    files[CacheFile := Doc(SerializeBets(SortBy(entries, NewestFirst)))]
  }

  /** enqueue_operation: the operation's dict after the stored queue. */
  function Queued(files: map<string, FileText>, op: PendingOperation): map<string, FileText> {
    files[QueueFile := Doc(ReadList(files, QueueFile) + [ToDict(op)])]
  }

  /** The in-place edit a handler makes to a local bet while offline. */
  datatype Edit = NewOutcome(value: string) | NewCashout(cashout: Option<real>)

  function ApplyEdit(b: Bet, e: Edit, now: Timestamp): Bet {
    match e
    case NewOutcome(v) => b.(outcome := v, updatedAt := now)
    case NewCashout(c) => b.(cashout := c, updatedAt := now)
  }

  /** `if bet_id in state.bets:` edit that bet; an absent id changes
      nothing. */
  function EditLocal(entries: seq<Bet>, id: string, e: Edit, now: Timestamp): seq<Bet> {
    var bets := ToMap(entries);
    if id in bets then UpsertEntries(entries, ApplyEdit(bets[id], e, now)) else entries
  }

  /** The edit reaches exactly the bet with that id, when there is one. */
  lemma EditLocalEffect(entries: seq<Bet>, id: string, e: Edit, now: Timestamp)
    requires UniqueIds(entries)
    ensures UniqueIds(EditLocal(entries, id, e, now))
    ensures id in ToMap(entries) ==>
      ToMap(EditLocal(entries, id, e, now)) == ToMap(entries)[id := ApplyEdit(ToMap(entries)[id], e, now)]
    ensures id !in ToMap(entries) ==> EditLocal(entries, id, e, now) == entries
  {
    var bets := ToMap(entries);
    if id in bets {
      var b := ApplyEdit(bets[id], e, now);
      ToMapKeyIsId(entries);
      UpsertEffect(entries, b);
    }
  }

  /** The payload of an offline update: {"bet_id": id, "data": patch}. */
  function UpdatePayload(id: string, patch: map<string, Json>): map<string, Json> {
    map["bet_id" := JStr(id), "data" := JObj(patch)]
  }

  /** The patch update_cashout sends: null for a blank text. */
  function CashoutJson(c: Option<real>): Json {
    if c.Some? then JNum(c.value) else JNull
  }

  /** update_outcome and update_cashout after api.update_bet: the returned
      bet is upserted; offline, the update is queued and the local bet, if
      any, edited; a refusal changes nothing and saves nothing; any other
      exception escapes before the save. Only update_cashout catches a
      ValueError (a body that is not JSON, a dict from_dict cannot read). */
  function UpdateBetEffect(entries: seq<Bet>, files: map<string, FileText>, id: string, e: Edit,
                        reply: Result<Bet, Raised>, now: Timestamp): Effect
  {
    match reply
    case Ok(b) =>
      var es := UpsertEntries(entries, b);
      Effect(es, Saving(es, files), Saved)
    case Err(err) =>
      if err.ConnectionError? then
        var op := NewOperation("update", None, UpdatePayload(id, PatchOf(e)), now);
        var es := EditLocal(entries, id, e, now);
        Effect(es, Saving(es, Queued(files, op)), Saved)
      else if err.ClientError? || (e.NewCashout? && err == Crash(ValueError)) then
        Effect(entries, files, Refused(err))
      else Effect(entries, files, Escaped(err))
  }

  /** The patch each edit sends. */
  function PatchOf(e: Edit): map<string, Json> {
    match e
    case NewOutcome(v) => map["outcome" := JStr(v)]
    case NewCashout(c) => map["cashout" := CashoutJson(c)]
  }

  /** submit_form after api.create_bet: the created bet is upserted;
      offline, the local bet is upserted and a create carrying
      bet.to_dict() is queued; a refusal shows the error and changes
      nothing; any other exception escapes. */
  function CreateBetEffect(entries: seq<Bet>, files: map<string, FileText>, bet: Bet,
                        reply: Result<Bet, Raised>, now: Timestamp): Effect
  {
    match reply
    case Ok(created) =>
      var es := UpsertEntries(entries, created);
      Effect(es, Saving(es, files), Saved)
    case Err(err) =>
      if err.ConnectionError? then
        var es := UpsertEntries(entries, bet);
        Effect(es, Saving(es, Queued(files, NewOperation("create", Some(bet), BetToDict(bet).fields, now))), Saved)
      else if err.ClientError? then Effect(entries, files, Refused(err))
      else Effect(entries, files, Escaped(err))
  }

  /** remove_bet after api.delete_bet: the bet is removed locally whether
      the server deleted it or could not be reached, and in the second
      case a delete is queued; a refusal changes nothing. */
  function RemoveBetEffect(entries: seq<Bet>, files: map<string, FileText>, id: string,
                        reply: Result<(), Raised>, now: Timestamp): Effect
  {
    match reply
    case Ok(_) =>
      var es := RemoveEntries(entries, id);
      Effect(es, Saving(es, files), Saved)
    case Err(err) =>
      if err.ConnectionError? then
        var es := RemoveEntries(entries, id);
        Effect(es, Saving(es, Queued(files, NewOperation("delete", None, map["bet_id" := JStr(id)], now))), Saved)
      else if err.ClientError? then Effect(entries, files, Refused(err))
      else Effect(entries, files, Escaped(err))
  }

  // ---------------------------------------------------------------------
  // What the effects promise

  /** A refusal from the server leaves the bets and every file as they
      were, in each handler. */
  lemma RefusalChangesNothing(entries: seq<Bet>, files: map<string, FileText>, id: string, e: Edit,
                              bet: Bet, status: nat, detail: ErrorDetail, now: Timestamp)
    ensures var err := ClientError(status, detail);
      && UpdateBetEffect(entries, files, id, e, Err(err), now) == Effect(entries, files, Refused(err))
      && CreateBetEffect(entries, files, bet, Err(err), now) == Effect(entries, files, Refused(err))
      && RemoveBetEffect(entries, files, id, Err(err), now) == Effect(entries, files, Refused(err))
  {
  }

  /** Offline, the queue grows by one entry and the pending operation it
      holds replays as the very call that failed: a create of the same
      bet, an update of the same id with the same patch, a delete of the
      same id. */
  lemma OfflineCreateReplays(bet: Bet, now: Timestamp, later: Timestamp)
    ensures var op := NewOperation("create", Some(bet), BetToDict(bet).fields, now);
      FromDict(ToDict(op), later) == Ok(op) && ActionOf(op, later) == Ok(Some(CreateBet(bet)))
  {
    var op := NewOperation("create", Some(bet), BetToDict(bet).fields, now);
    OpRoundTrip(op, later);
    BetRoundTrip(bet, later);
    ActionOfCases(op, later);
  }

  lemma OfflineUpdateReplays(id: string, e: Edit, now: Timestamp, later: Timestamp)
    ensures var op := NewOperation("update", None, UpdatePayload(id, PatchOf(e)), now);
      FromDict(ToDict(op), later) == Ok(op) && ActionOf(op, later) == Ok(Some(UpdateBet(id, JObj(PatchOf(e)))))
  {
    var payload := UpdatePayload(id, PatchOf(e));
    assert "bet_id" in payload && payload["bet_id"] == JStr(id);
    assert "data" in payload && payload["data"] == JObj(PatchOf(e));
    var op := NewOperation("update", None, payload, now);
    OpRoundTrip(op, later);
    ActionOfCases(op, later);
  }

  lemma OfflineDeleteReplays(id: string, now: Timestamp, later: Timestamp)
    ensures var op := NewOperation("delete", None, map["bet_id" := JStr(id)], now);
      FromDict(ToDict(op), later) == Ok(op) && ActionOf(op, later) == Ok(Some(DeleteBet(id)))
  {
    var op := NewOperation("delete", None, map["bet_id" := JStr(id)], now);
    OpRoundTrip(op, later);
    ActionOfCases(op, later);
  }

  /** Saving the cache leaves the stored queue alone. */
  lemma SavingKeepsQueue(entries: seq<Bet>, files: map<string, FileText>)
    ensures ReadList(Saving(entries, files), QueueFile) == ReadList(files, QueueFile)
  {
    FilesIndependent(files, [], SortBy(entries, NewestFirst));
  }

  /** Offline, the queue grows by exactly the new operation: everything
      stored before it is kept, in order. */
  lemma OfflineQueue(entries: seq<Bet>, files: map<string, FileText>, op: PendingOperation)
    ensures ReadList(Saving(entries, Queued(files, op)), QueueFile) == ReadList(files, QueueFile) + [ToDict(op)]
  {
    SavingKeepsQueue(entries, Queued(files, op));
  }

  /** Offline, submit_form keeps the bet locally under its id ... */
  lemma OfflineCreateKeepsBet(entries: seq<Bet>, files: map<string, FileText>, bet: Bet, reason: string, now: Timestamp)
    requires UniqueIds(entries)
    ensures var c := CreateBetEffect(entries, files, bet, Err(ConnectionError(reason)), now);
      c.handled == Saved && ToMap(c.entries) == ToMap(entries)[bet.id := bet]
  {
    UpsertEffect(entries, bet);
  }

  /** ... and queues one create. */
  lemma OfflineCreateQueues(entries: seq<Bet>, files: map<string, FileText>, bet: Bet, reason: string, now: Timestamp)
    ensures ReadList(CreateBetEffect(entries, files, bet, Err(ConnectionError(reason)), now).files, QueueFile)
            == ReadList(files, QueueFile) + [ToDict(NewOperation("create", Some(bet), BetToDict(bet).fields, now))]
  {
    OfflineQueue(UpsertEntries(entries, bet), files, NewOperation("create", Some(bet), BetToDict(bet).fields, now));
  }

  /** Offline, remove_bet drops the id locally and queues one delete. */
  lemma OfflineRemoveKeepsWork(entries: seq<Bet>, files: map<string, FileText>, id: string, reason: string, now: Timestamp)
    requires UniqueIds(entries)
    ensures var r := RemoveBetEffect(entries, files, id, Err(ConnectionError(reason)), now);
      && r.handled == Saved
      && ToMap(r.entries) == ToMap(entries) - {id}
      && ReadList(r.files, QueueFile)
         == ReadList(files, QueueFile) + [ToDict(NewOperation("delete", None, map["bet_id" := JStr(id)], now))]
  {
    RemoveEffect(entries, id);
    OfflineQueue(RemoveEntries(entries, id), files, NewOperation("delete", None, map["bet_id" := JStr(id)], now));
  }

  /** Offline, update_outcome and update_cashout edit the local bet, if
      there is one, and queue one update. */
  lemma OfflineUpdateKeepsWork(entries: seq<Bet>, files: map<string, FileText>, id: string, e: Edit, reason: string, now: Timestamp)
    requires UniqueIds(entries)
    ensures var u := UpdateBetEffect(entries, files, id, e, Err(ConnectionError(reason)), now);
      && u.handled == Saved
      && (id in ToMap(entries) ==> ToMap(u.entries) == ToMap(entries)[id := ApplyEdit(ToMap(entries)[id], e, now)])
      && (id !in ToMap(entries) ==> u.entries == entries)
      && ReadList(u.files, QueueFile)
         == ReadList(files, QueueFile) + [ToDict(NewOperation("update", None, UpdatePayload(id, PatchOf(e)), now))]
  {
    EditLocalEffect(entries, id, e, now);
    OfflineQueue(EditLocal(entries, id, e, now), files, NewOperation("update", None, UpdatePayload(id, PatchOf(e)), now));
  }

  // ---------------------------------------------------------------------
  // The handlers

  /** The try block of submit_form once the bet is built. */
  method CreateSubmitted(state: AppState, store: FileStore, bet: Bet, reply: Result<Bet, Raised>, now: Timestamp)
    returns (h: Handled)
    requires state.Valid()
    modifies state, store
    ensures state.Valid() && state.lastSync == old(state.lastSync)
    ensures Effect(state.entries, store.files, h) == CreateBetEffect(old(state.entries), old(store.files), bet, reply, now)
  {
    match reply {
      case Ok(created) =>
        state.Upsert(created);
      case Err(err) =>
        if err.ConnectionError? {
          state.Upsert(bet);
          EnqueueOperation(store, "create", Some(bet), BetToDict(bet).fields, now);
        } else if err.ClientError? {
          return Refused(err);
        } else {
          return Escaped(err);
        }
    }
    store.SaveCachedBets(state.AsList());
    h := Saved;
  }

  /** submit_form: the bet is built from the form, then sent; reply is
      what api.create_bet returns or raises for it. */
  method SubmitForm(state: AppState, store: FileStore, form: Form, betId: string,
                    date: CalendarDate, reply: Result<Bet, Raised>, now: Timestamp)
    returns (h: Handled)
    requires state.Valid()
    modifies state, store
    ensures state.Valid() && state.lastSync == old(state.lastSync)
    ensures NewBet(form, betId, date, now).Err? ==>
      h == FormRejected(NewBet(form, betId, date, now).error)
      && state.entries == old(state.entries) && store.files == old(store.files)
    ensures NewBet(form, betId, date, now).Ok? ==>
      Effect(state.entries, store.files, h)
      == CreateBetEffect(old(state.entries), old(store.files), NewBet(form, betId, date, now).value, reply, now)
  {
    var c := CheckFields(form.fields);
    if c.Err? {
      return FormRejected(c.error);
    }
    var legs: seq<Leg> := [];
    if form.isParlay {
      legs := CollectLegs(form.legRows);
      if |legs| < 2 {
        return FormRejected(TooFewLegs);
      }
    }
    var fields := c.value;
    var bet := Bet(betId, date, if form.isParlay then "parlay" else "single", fields.detail, fields.stake,
                   fields.odds, fields.cashout, form.outcome, legs, now, now);
    assert NewBet(form, betId, date, now) == Ok(bet);
    h := CreateSubmitted(state, store, bet, reply, now);
  }

  /** update_outcome and, once the cashout text is read, update_cashout;
      reply is what api.update_bet returns or raises for the patch. */
  method SendUpdate(state: AppState, store: FileStore, id: string, e: Edit, reply: Result<Bet, Raised>, now: Timestamp)
    returns (h: Handled)
    requires state.Valid()
    modifies state, store
    ensures state.Valid() && state.lastSync == old(state.lastSync)
    ensures Effect(state.entries, store.files, h) == UpdateBetEffect(old(state.entries), old(store.files), id, e, reply, now)
  {
    match reply {
      case Ok(b) =>
        state.Upsert(b);
      case Err(err) =>
        if err.ConnectionError? {
          EnqueueOperation(store, "update", None, UpdatePayload(id, PatchOf(e)), now);
          EditLocalEffect(state.entries, id, e, now);
          if id in state.Bets() {
            state.Upsert(ApplyEdit(state.Bets()[id], e, now));
          }
        } else if err.ClientError? || (e.NewCashout? && err == Crash(ValueError)) {
          return Refused(err);
        } else {
          return Escaped(err);
        }
    }
    store.SaveCachedBets(state.AsList());
    h := Saved;
  }

  /** The cashout update_cashout sends: None for a blank text, else
      float() of the stripped text, whose ValueError escapes before the
      request. */
  function CashoutText(value: string): (r: Result<Option<real>, Failure>)
    ensures Strip(value) == [] ==> r == Ok(None)
    ensures Strip(value) != [] ==> (r.Ok? <==> ParseFloat(Strip(value)).Ok?)
    ensures r.Ok? && r.value.Some? ==> ParseFloat(Strip(value)) == Ok(r.value.value)
  {
    var clean := Strip(value);
    if clean == [] then Ok(None)
    else
      var x :- ParseFloat(clean);
      Ok(Some(x))
  }

  method UpdateCashout(state: AppState, store: FileStore, id: string, value: string, reply: Result<Bet, Raised>, now: Timestamp)
    returns (h: Handled)
    requires state.Valid()
    modifies state, store
    ensures state.Valid() && state.lastSync == old(state.lastSync)
    ensures CashoutText(value).Err? ==>
      h == Escaped(Crash(CashoutText(value).error)) && state.entries == old(state.entries) && store.files == old(store.files)
    ensures CashoutText(value).Ok? ==>
      Effect(state.entries, store.files, h)
      == UpdateBetEffect(old(state.entries), old(store.files), id, NewCashout(CashoutText(value).value), reply, now)
  {
    var c := CashoutText(value);
    if c.Err? {
      return Escaped(Crash(c.error));
    }
    h := SendUpdate(state, store, id, NewCashout(c.value), reply, now);
  }

  /** remove_bet; reply is what api.delete_bet returns or raises. */
  method RemoveBet(state: AppState, store: FileStore, id: string, reply: Result<(), Raised>, now: Timestamp)
    returns (h: Handled)
    requires state.Valid()
    modifies state, store
    ensures state.Valid() && state.lastSync == old(state.lastSync)
    ensures Effect(state.entries, store.files, h) == RemoveBetEffect(old(state.entries), old(store.files), id, reply, now)
  {
    match reply {
      case Ok(_) =>
        state.Remove(id);
      case Err(err) =>
        if err.ConnectionError? {
          state.Remove(id);
          EnqueueOperation(store, "delete", None, map["bet_id" := JStr(id)], now);
        } else if err.ClientError? {
          return Refused(err);
        } else {
          return Escaped(err);
        }
    }
    store.SaveCachedBets(state.AsList());
    h := Saved;
  }

  /** load_remote: api.list_bets() with no bounds, sent to the server at
      base, whose answer respond gives. Only the connection error is caught:
      a refusal from the server, or an answer from_dict cannot read,
      escapes. */
  method LoadRemote(state: AppState, store: FileStore, base: string, respond: Request -> Transport, now: Timestamp)
    returns (h: Handled)
    modifies state, store
    ensures var reply := BetsReply(respond(ListBetsRequest(base, None, None)), now);
      && (reply.Ok? ==>
        && h == Saved && state.Valid()
        && state.entries == FromBets(reply.value) && state.lastSync == Some(now)
        && store.files == Saving(state.entries, old(store.files)))
      && (reply.Err? ==>
        && h == (if reply.error.ConnectionError? then Refused(reply.error) else Escaped(reply.error))
        && state.entries == old(state.entries) && state.lastSync == old(state.lastSync)
        && store.files == old(store.files))
  {
    var reply := BetsReply(respond(ListBetsRequest(base, None, None)), now);
    match reply {
      case Err(err) =>
        if err.ConnectionError? {
          return Refused(err);
        }
        return Escaped(err);
      case Ok(remote) =>
        state.ReplaceAll(remote, Some(now));
        store.SaveCachedBets(state.AsList());
        h := Saved;
    }
  }
}
