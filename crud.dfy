/** The server's bet store (backend/crud.py), on an in-memory table of rows:
    the owner-scoped reads, and the create, patch and delete writes. */
module Crud {
  import opened Wrappers
  import opened Ledger
  import opened Sorting
  import opened ServerModels

  /** A stored bet: its id, its owner, the BetBase fields, the two
      timestamps and its legs. The legs live inside their bet's row, so
      removing the row removes them, as the delete-orphan cascade of
      Bet.legs does. */
  datatype Row = Row(
    id: string,
    owner: string,
    fields: BetFields,
    createdAt: Timestamp,
    updatedAt: Timestamp,
    legs: seq<LegBase>)

  /** A row that satisfies the declared field constraints. */
  predicate ValidRow(r: Row) {
    ValidFields(r.fields) && forall i :: 0 <= i < |r.legs| ==> ValidLeg(r.legs[i])
  }

  /** The primary key: no two rows share an id. */
  ghost predicate UniqueIds(rows: seq<Row>) {
    forall i, j :: 0 <= i < j < |rows| ==> rows[i].id != rows[j].id
  }

  predicate Stored(rows: seq<Row>, id: string) {
    exists i :: 0 <= i < |rows| && rows[i].id == id
  }

  /** The position of the row with that id. */
  function IndexOf(rows: seq<Row>, id: string): (k: nat)
    requires Stored(rows, id)
    ensures k < |rows| && rows[k].id == id
    ensures forall i :: 0 <= i < k ==> rows[i].id != id
  {
    if rows[0].id == id then 0
    else
      assert Stored(rows[1..], id) by {
        var i :| 0 <= i < |rows| && rows[i].id == id;
        assert rows[1..][i - 1] == rows[i];
      }
      1 + IndexOf(rows[1..], id)
  }

  // ---------------------------------------------------------------------
  // Reads

  /** The filter of list_bets: the owner's bets with start <= event_date
      <= end, a bound that is None not applying. */
  predicate Listed(r: Row, owner: string, start: Option<Date>, end: Option<Date>) {
    && r.owner == owner
    && (start.None? || DateLe(start.value, r.fields.eventDate))
    && (end.None? || DateLe(r.fields.eventDate, end.value))
  }

  function ListedBy(owner: string, start: Option<Date>, end: Option<Date>): Row -> bool {
    (r: Row) => Listed(r, owner, start, end)
  }

  /** order_by(event_date.desc(), created_at.desc()): a comes before b when
      its (event_date, created_at) is the larger. */
  predicate NewestFirst(a: Row, b: Row) {
    || (DateLe(b.fields.eventDate, a.fields.eventDate) && a.fields.eventDate != b.fields.eventDate)
    || (a.fields.eventDate == b.fields.eventDate && b.createdAt <= a.createdAt)
  }

  lemma NewestFirstTotal()
    ensures TotalPreorder(NewestFirst)
  {
  }

  /** The filter of sync_since: the owner's bets updated at or after since,
      all of them when since is None. */
  predicate ChangedSince(r: Row, owner: string, since: Option<Timestamp>) {
    r.owner == owner && (since.None? || since.value <= r.updatedAt)
  }

  function ChangedSinceBy(owner: string, since: Option<Timestamp>): Row -> bool {
    (r: Row) => ChangedSince(r, owner, since)
  }

  /** order_by(updated_at): ascending. */
  predicate OldestUpdateFirst(a: Row, b: Row) {
    a.updatedAt <= b.updatedAt
  }

  /** The test of get_bet: that id and, when an owner is given, that owner. */
  predicate Matches(r: Row, id: string, owner: Option<string>) {
    r.id == id && (owner.None? || r.owner == owner.value)
  }

  /** The first row that matches, as .first() returns it. */
  function FirstMatch(rows: seq<Row>, id: string, owner: Option<string>): (r: Option<Row>)
    ensures r.Some? ==> r.value in rows && Matches(r.value, id, owner)
    ensures r.None? ==> forall x :: x in rows ==> !Matches(x, id, owner)
  {
    if rows == [] then None
    else if Matches(rows[0], id, owner) then Some(rows[0])
    else
      var r := FirstMatch(rows[1..], id, owner);
      assert forall x :: x in rows ==> x == rows[0] || x in rows[1..];
      r
  }

  /** With unique ids, get_bet without an owner finds the row with that id,
      and with an owner finds it only when that owner holds it. */
  lemma FirstMatchOwner(rows: seq<Row>, id: string, owner: string)
    requires UniqueIds(rows) && Stored(rows, id)
    ensures FirstMatch(rows, id, None) == Some(rows[IndexOf(rows, id)])
    ensures FirstMatch(rows, id, Some(owner)).Some? <==> rows[IndexOf(rows, id)].owner == owner
    ensures FirstMatch(rows, id, Some(owner)).Some? ==> FirstMatch(rows, id, Some(owner)) == FirstMatch(rows, id, None)
  {
    var k := IndexOf(rows, id);
    assert forall x :: x in rows && x.id == id ==> x == rows[k];
  }

  // ---------------------------------------------------------------------
  // Writes, as functions of the row

  /** One item of model_dump(exclude_unset=True, exclude_none=True,
      exclude={"legs"}) of a BetUpdate: a field name with its new value. */
  datatype Assignment =
    | SetEventDate(date: CalendarDate)
    | SetType(betType: BetType)
    | SetDetail(detail: string)
    | SetStake(stake: real)
    | SetOdds(odds: real)
    | SetCashout(cashout: real)
    | SetOutcome(outcome: BetOutcome)

  /** The seven fields of BetUpdate in declaration order, each as the
      assignment the dump carries for it, or None where
      exclude_unset/exclude_none leaves it out of the dump. */
  function Dumped(u: BetUpdate): (r: seq<Option<Assignment>>)
    ensures |r| == 7
  {
    [ if u.eventDate.Some? then Some(SetEventDate(u.eventDate.value)) else None,
      if u.betType.Some? then Some(SetType(u.betType.value)) else None,
      if u.detail.Some? then Some(SetDetail(u.detail.value)) else None,
      if u.stake.Some? then Some(SetStake(u.stake.value)) else None,
      if u.odds.Some? then Some(SetOdds(u.odds.value)) else None,
      if u.cashout.Some? then Some(SetCashout(u.cashout.value)) else None,
      if u.outcome.Some? then Some(SetOutcome(u.outcome.value)) else None ]
  }

  /** setattr(bet, key, value) for one item. */
  function SetAttr(f: BetFields, a: Assignment): BetFields {
    match a
    case SetEventDate(d) => f.(eventDate := d)
    case SetType(t) => f.(betType := t)
    case SetDetail(s) => f.(detail := s)
    case SetStake(x) => f.(stake := x)
    case SetOdds(x) => f.(odds := x)
    case SetCashout(x) => f.(cashout := Some(x))
    case SetOutcome(o) => f.(outcome := o)
  }

  /** The setattr loop over the dumped items, in order; a field left out of
      the dump is passed over. */
  function SetAll(f: BetFields, items: seq<Option<Assignment>>): BetFields {
    if items == [] then f
    else
      var g := SetAll(f, items[..|items| - 1]);
      var last := items[|items| - 1];
      if last.Some? then SetAttr(g, last.value) else g
  }

  /** A field the patch sets takes the patch's value, one it leaves None
      keeps the stored value. */
  function Pick<T>(patch: Option<T>, stored: T): T {
    if patch.Some? then patch.value else stored
  }

  /** The fields a patch leaves: each field the patch sets takes its
      value, each other field, including a cashout sent as null, keeps the
      stored one. */
  function PatchedFields(f: BetFields, u: BetUpdate): BetFields {
    BetFields(
      Pick(u.eventDate, f.eventDate),
      Pick(u.betType, f.betType),
      Pick(u.detail, f.detail),
      Pick(u.stake, f.stake),
      Pick(u.odds, f.odds),
      if u.cashout.Some? then u.cashout else f.cashout,
      Pick(u.outcome, f.outcome))
  }

  /** The setattr loop over the dump leaves exactly PatchedFields. */
  lemma PatchFields(f: BetFields, u: BetUpdate)
    ensures SetAll(f, Dumped(u)) == PatchedFields(f, u)
  {
    PatchFirstFour(f, u);
    var items := Dumped(u);
    SetAllSnoc(f, items, 4);
    SetAllSnoc(f, items, 5);
    SetAllSnoc(f, items, 6);
    assert items[..7] == items;
  }

  lemma PatchFirstFour(f: BetFields, u: BetUpdate)
    ensures SetAll(f, Dumped(u)[..4]) == f.(eventDate := Pick(u.eventDate, f.eventDate), betType := Pick(u.betType, f.betType),
                                             detail := Pick(u.detail, f.detail), stake := Pick(u.stake, f.stake))
  {
    PatchFirstTwo(f, u);
    var items := Dumped(u);
    SetAllSnoc(f, items, 2);
    SetAllSnoc(f, items, 3);
  }

  lemma PatchFirstTwo(f: BetFields, u: BetUpdate)
    ensures SetAll(f, Dumped(u)[..2]) == f.(eventDate := Pick(u.eventDate, f.eventDate), betType := Pick(u.betType, f.betType))
  {
    var items := Dumped(u);
    SetAllSnoc(f, items, 0);
    SetAllSnoc(f, items, 1);
  }

  /** One more turn of the loop. */
  lemma SetAllSnoc(f: BetFields, items: seq<Option<Assignment>>, k: nat)
    requires k < |items|
    ensures SetAll(f, items[..k + 1])
            == if items[k].Some? then SetAttr(SetAll(f, items[..k]), items[k].value) else SetAll(f, items[..k])
  {
    assert items[..k + 1][..k] == items[..k];
  }

  /** The legs after update_bet: a patch with legs discards all old ones
      and keeps the new ones only when the type after the field patch is
      parlay; a patch without legs leaves them alone. */
  function PatchedLegs(stored: seq<LegBase>, typeAfter: BetType, legs: Option<seq<LegBase>>): (r: seq<LegBase>)
    ensures legs.None? ==> r == stored
    ensures legs.Some? && typeAfter == Parlay ==> r == legs.value
    ensures legs.Some? && typeAfter == Single ==> r == []
  {
    if legs.None? then stored
    else if typeAfter == Parlay then legs.value
    else []
  }

  /** The row update_bet leaves: the fields patched, the legs replaced by
      the rule above, updated_at the clock's reading; id, owner and
      created_at unchanged. */
  function PatchedRow(r: Row, u: BetUpdate, now: Timestamp): Row {
    var f := SetAll(r.fields, Dumped(u));
    r.(fields := f, legs := PatchedLegs(r.legs, f.betType, u.legs), updatedAt := now)
  }

  /** The row update_bet leaves, field by field: id, owner and created_at
      kept, the fields patched, updated_at the clock's reading, and the
      legs replaced only by a patch that has legs, kept only when the type
      after the patch is parlay. */
  lemma PatchedRowFacts(r: Row, u: BetUpdate, now: Timestamp)
    ensures var p := PatchedRow(r, u, now);
      && p.id == r.id && p.owner == r.owner && p.createdAt == r.createdAt
      && p.fields == PatchedFields(r.fields, u)
      && p.updatedAt == now
      && p.legs == PatchedLegs(r.legs, Pick(u.betType, r.fields.betType), u.legs)
  {
    PatchFields(r.fields, u);
  }

  /** update_bet always sets updated_at, even for an empty patch, and an
      empty patch changes nothing else. */
  lemma EmptyPatch(r: Row, now: Timestamp)
    ensures PatchedRow(r, BetUpdate(None, None, None, None, None, None, None, None), now)
            == r.(updatedAt := now)
  {
    PatchFields(r.fields, BetUpdate(None, None, None, None, None, None, None, None));
  }

  /** A bounded patch of a valid row leaves a valid row. */
  lemma PatchKeepsValid(r: Row, u: BetUpdate, now: Timestamp)
    requires ValidRow(r) && ValidUpdateBounded(u)
    ensures ValidRow(PatchedRow(r, u, now))
  {
    PatchFields(r.fields, u);
  }

  /** With BetUpdate's constraints as declared, a patch can give a valid
      row a detail longer than BetBase allows. */
  lemma PatchBreaksDetailBound(r: Row, detail: string, now: Timestamp)
    requires ValidRow(r) && |detail| > 512
    ensures var u := BetUpdate(None, None, Some(detail), None, None, None, None, None);
      ValidUpdate(u) && !ValidRow(PatchedRow(r, u, now))
  {
    var u := BetUpdate(None, None, Some(detail), None, None, None, None, None);
    PatchFields(r.fields, u);
  }

  /** The row create_bet adds: the body's fields, the caller as owner, both
      timestamps the clock's reading, and the legs only for a parlay with
      a non-empty list. */
  function NewRow(c: BetCreate, owner: string, id: string, now: Timestamp): Row {
    var legs := if c.fields.betType == Parlay && |c.legs| > 0 then c.legs else [];
    Row(id, owner, c.fields, now, now, legs)
  }

  /** A valid body gives a valid row; it has legs exactly when it is a
      parlay and the body has legs, and then they are the body's. */
  lemma NewRowFacts(c: BetCreate, owner: string, id: string, now: Timestamp)
    ensures NewRow(c, owner, id, now).owner == owner && NewRow(c, owner, id, now).updatedAt == now
    ensures NewRow(c, owner, id, now).fields == c.fields
    ensures ValidCreate(c) ==> ValidRow(NewRow(c, owner, id, now))
    ensures NewRow(c, owner, id, now).legs != [] <==> c.fields.betType == Parlay && c.legs != []
    ensures NewRow(c, owner, id, now).legs != [] ==> NewRow(c, owner, id, now).legs == c.legs
  {
  }

  /** The store's failure: a second row with an id already taken. */
  datatype StoreError = IntegrityError

  class Table {
    var rows: seq<Row>

    ghost predicate Valid()
      reads this
    {
      UniqueIds(rows)
    }

    constructor ()
      ensures Valid() && rows == []
    {
      rows := [];
    }

    /** list_bets: exactly the owner's bets in the date range, each as many
        times as stored, newest first by (event_date, created_at). */
    function ListBets(owner: string, start: Option<Date>, end: Option<Date>): (r: seq<Row>)
      reads this
      ensures forall x :: x in r <==> x in rows && Listed(x, owner, start, end)
      ensures multiset(r) == multiset(Filter(rows, ListedBy(owner, start, end)))
      ensures SortedBy(r, NewestFirst)
    {
      var selected := Filter(rows, ListedBy(owner, start, end));
      NewestFirstTotal();
      SortBySorted(selected, NewestFirst);
      var r := SortBy(selected, NewestFirst);
      assert forall x :: x in r <==> x in multiset(selected);
      r
    }

    /** get_bet: a row with that id, and with that owner when one is given;
        None when there is none. */
    function GetBet(id: string, owner: Option<string>): (r: Option<Row>)
      reads this
      ensures r.Some? ==> r.value in rows && Matches(r.value, id, owner)
      ensures r.None? ==> forall x :: x in rows ==> !Matches(x, id, owner)
    {
      FirstMatch(rows, id, owner)
    }

    /** sync_since: exactly the owner's bets updated at or after since (all
        of them when since is None), each as many times as stored, oldest
        update first. */
    function SyncSince(owner: string, since: Option<Timestamp>): (r: seq<Row>)
      reads this
      ensures forall x :: x in r <==> x in rows && ChangedSince(x, owner, since)
      ensures multiset(r) == multiset(Filter(rows, ChangedSinceBy(owner, since)))
      ensures SortedBy(r, OldestUpdateFirst)
    {
      var selected := Filter(rows, ChangedSinceBy(owner, since));
      SortBySorted(selected, OldestUpdateFirst);
      var r := SortBy(selected, OldestUpdateFirst);
      assert forall x :: x in r <==> x in multiset(selected);
      r
    }

    /** create_bet: the body's id when it has one, else the fresh id
        uuid4 would draw. A taken id makes the commit fail and leaves the
        table as it was; otherwise the new row is added. */
    method CreateBet(c: BetCreate, owner: string, freshId: string, now: Timestamp) returns (r: Result<Row, StoreError>)
      requires Valid()
      modifies this
      ensures Valid()
      ensures var id := if c.id.Some? then c.id.value else freshId;
        if Stored(old(rows), id) then r == Err(IntegrityError) && rows == old(rows)
        else r == Ok(NewRow(c, owner, id, now)) && rows == old(rows) + [r.value]
    {
      var id := if c.id.Some? then c.id.value else freshId;
      if exists i :: 0 <= i < |rows| && rows[i].id == id {
        return Err(IntegrityError);
      }
      var row := NewRow(c, owner, id, now);
      rows := rows + [row];
      r := Ok(row);
    }

    /** update_bet on the stored row with that id: the setattr loop over
        the patch's items, then the legs, then updated_at. */
    method UpdateBet(id: string, u: BetUpdate, now: Timestamp) returns (row: Row)
      requires Valid() && Stored(rows, id)
      modifies this
      ensures Valid()
      ensures row == PatchedRow(old(rows)[IndexOf(old(rows), id)], u, now)
      ensures rows == old(rows)[IndexOf(old(rows), id) := row]
    {
      var k := IndexOf(rows, id);
      row := rows[k];
      var items := Dumped(u);
      var f := row.fields;
      var i := 0;
      while i < |items|
        invariant 0 <= i <= |items|
        invariant f == SetAll(row.fields, items[..i])
      {
        assert items[..i + 1][..i] == items[..i];
        if items[i].Some? {
          f := SetAttr(f, items[i].value);
        }
        i := i + 1;
      }
      assert items[..i] == items;
      var legs := row.legs;
      if u.legs.Some? {
        legs := [];
        if f.betType == Parlay {
          legs := u.legs.value;
        }
      }
      row := row.(fields := f, legs := legs, updatedAt := now);
      rows := rows[k := row];
    }

    /** delete_bet: the row, and with it its legs, is removed; every other
        row stays, in its order. */
    method DeleteBet(id: string)
      requires Valid() && Stored(rows, id)
      modifies this
      ensures Valid()
      ensures rows == old(rows)[..IndexOf(old(rows), id)] + old(rows)[IndexOf(old(rows), id) + 1..]
      ensures forall x :: x in rows <==> x in old(rows) && x.id != id
    {
      var k := IndexOf(rows, id);
      assert forall x :: x in rows && x.id == id ==> x == rows[k];
      rows := rows[..k] + rows[k + 1..];
    }
  }

  /** The since bound is inclusive, and a later bound selects fewer rows. */
  lemma SyncSinceBounds(t: Table, owner: string, since: Timestamp, later: Timestamp, x: Row)
    requires since <= later
    ensures x in t.rows && x.owner == owner && x.updatedAt == since ==> x in t.SyncSince(owner, Some(since))
    ensures x in t.SyncSince(owner, Some(later)) ==> x in t.SyncSince(owner, Some(since))
    ensures x in t.SyncSince(owner, Some(since)) ==> x in t.SyncSince(owner, None)
  {
  }
}
