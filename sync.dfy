/** The client's queue of operations made while the server was out of
    reach, and its replay: enqueue_operation and flush_pending. */
module Sync {
  import opened Wrappers
  import opened Json
  import opened Sorting
  import opened Ledger
  import opened AppStateModule
  import opened Api
  import opened Cache

  /** One queued operation. The dataclass declares every field's type, but
      Python does not enforce it: enqueue_operation may store whatever
      payload.get("bet_id", "") yields, so each field is a JSON value. */
  datatype PendingOperation = PendingOperation(kind: Json, betId: Json, payload: Json, createdAt: Json)

  /** The dict asdict builds, from its four values. */
  function OpLayout(kind: Json, betId: Json, payload: Json, createdAt: Json): map<string, Json> {
    map["kind" := kind, "bet_id" := betId, "payload" := payload, "created_at" := createdAt]
  }

  lemma OpLayoutReads(kind: Json, betId: Json, payload: Json, createdAt: Json)
    ensures OpLayout(kind, betId, payload, createdAt).Keys == {"kind", "bet_id", "payload", "created_at"}
    ensures OpLayout(kind, betId, payload, createdAt)["kind"] == kind
    ensures OpLayout(kind, betId, payload, createdAt)["bet_id"] == betId
    ensures OpLayout(kind, betId, payload, createdAt)["payload"] == payload
    ensures OpLayout(kind, betId, payload, createdAt)["created_at"] == createdAt
  {
  }

  /** to_dict: asdict(self). */
  function ToDict(op: PendingOperation): Json {
    JObj(OpLayout(op.kind, op.betId, op.payload, op.createdAt))
  }

  /** from_dict: each field read with its default; bet_id passed through
      str(), so a missing one becomes "None". The clock value now supplies
      the created_at default. A value that is not a dict has no get. */
  function FromDict(v: Json, now: Timestamp): (r: Result<PendingOperation, Failure>)
    ensures !v.JObj? ==> r == Err(AttributeError)
    ensures v.JObj? && "bet_id" !in v.fields ==> r.Ok? && r.value.betId == JStr("None")
    ensures v.JObj? && "kind" !in v.fields && r.Ok? ==> r.value.kind == JStr("")
    ensures v.JObj? && "payload" !in v.fields && r.Ok? ==> r.value.payload == JObj(map[])
    ensures v.JObj? && "created_at" !in v.fields && r.Ok? ==> r.value.createdAt == JStr(TimestampText(now))
    ensures r.Ok? ==> r.value.betId.JStr?
  {
    match v
    case JObj(m) =>
      var id :- PyStr(Lookup(m, "bet_id", JNull));
      Ok(PendingOperation(Lookup(m, "kind", JStr("")), JStr(id), Lookup(m, "payload", JObj(map[])),
                          Lookup(m, "created_at", JStr(TimestampText(now)))))
    case _ => Err(AttributeError)
  }

  /** from_dict(op.to_dict()) == op, for an operation whose bet_id is the
      text its declared type says it is. */
  lemma OpRoundTrip(op: PendingOperation, now: Timestamp)
    requires op.betId.JStr?
    ensures FromDict(ToDict(op), now) == Ok(op)
  {
    OpLayoutReads(op.kind, op.betId, op.payload, op.createdAt);
  }

  /** The comprehension reader of the replay: from_dict on one item. */
  function OpReader(now: Timestamp): Json -> Result<PendingOperation, Failure> {
    (v: Json) => FromDict(v, now)
  }

  /** [op.to_dict() for op in ops]. */
  function OpDicts(ops: seq<PendingOperation>): (r: seq<Json>)
    ensures |r| == |ops|
    ensures forall i :: 0 <= i < |ops| ==> r[i] == ToDict(ops[i])
  {
    if ops == [] then [] else OpDicts(ops[..|ops| - 1]) + [ToDict(ops[|ops| - 1])]
  }

  /** A queue written by to_dict reads back as the same operations, in
      order. */
  lemma QueueRoundTrip(ops: seq<PendingOperation>, now: Timestamp)
    requires forall i :: 0 <= i < |ops| ==> ops[i].betId.JStr?
    ensures TryMap(OpDicts(ops), OpReader(now)) == Ok(ops)
  {
    forall i | 0 <= i < |ops| ensures FromDict(OpDicts(ops)[i], now) == Ok(ops[i]) {
      OpRoundTrip(ops[i], now);
    }
    TryMapAllOk(OpDicts(ops), OpReader(now), ops);
  }

  /** The operation enqueue_operation builds: the bet's id when a bet is
      given (a Bet is always true), else payload.get("bet_id", ""). */
  function NewOperation(kind: string, bet: Option<Bet>, payload: map<string, Json>, now: Timestamp): (op: PendingOperation)
    ensures op.kind == JStr(kind) && op.payload == JObj(payload)
    ensures op.createdAt == JStr(TimestampText(now))
    ensures bet.Some? ==> op.betId == JStr(bet.value.id)
    ensures bet.None? && "bet_id" in payload ==> op.betId == payload["bet_id"]
    ensures bet.None? && "bet_id" !in payload ==> op.betId == JStr("")
  {
    var id := match bet
      case Some(b) => JStr(b.id)
      case None => Lookup(payload, "bet_id", JStr(""));
    PendingOperation(JStr(kind), id, JObj(payload), JStr(TimestampText(now)))
  }

  /** enqueue_operation: exactly one entry, the new operation's dict, goes
      at the end of the stored queue; nothing else in the store changes. */
  method EnqueueOperation(store: FileStore, kind: string, bet: Option<Bet>, payload: map<string, Json>, now: Timestamp)
    modifies store
    ensures store.LoadPendingQueue() == old(store.LoadPendingQueue()) + [ToDict(NewOperation(kind, bet, payload, now))]
    ensures store.files == old(store.files)[QueueFile := Doc(old(store.LoadPendingQueue()) + [ToDict(NewOperation(kind, bet, payload, now))])]
  {
    var op := NewOperation(kind, bet, payload, now);
    store.AppendPendingOp(ToDict(op));
  }

  /** A queue whose every item is the to_dict() of the operation it reads
      back as stays so after enqueue_operation, when the new operation's
      bet_id is a text: the bet's id, or a text bet_id of the payload, or
      the default "". */
  lemma {:induction false} EnqueueKeepsCanonical(ops: seq<PendingOperation>, kind: string, bet: Option<Bet>,
                              payload: map<string, Json>, now: Timestamp, later: Timestamp)
    requires forall i :: 0 <= i < |ops| ==> ops[i].betId.JStr?
    requires bet.None? && "bet_id" in payload ==> payload["bet_id"].JStr?
    ensures OpDicts(ops + [NewOperation(kind, bet, payload, now)])
         == OpDicts(ops) + [ToDict(NewOperation(kind, bet, payload, now))]
    ensures TryMap(OpDicts(ops) + [ToDict(NewOperation(kind, bet, payload, now))], OpReader(later))
         == Ok(ops + [NewOperation(kind, bet, payload, now)])
  {
    var op := NewOperation(kind, bet, payload, now);
    var more := ops + [op];
    assert op.betId.JStr?;
    assert more[..|more| - 1] == ops;
    QueueRoundTrip(more, later);
  }

  /** The queue an interrupted flush writes back, the stored items from
      position k on, is again the to_dict() of the operations it reads
      back as. */
  lemma {:induction false} SuffixKeepsCanonical(pending: seq<PendingOperation>, k: nat, later: Timestamp)
    requires forall i :: 0 <= i < |pending| ==> pending[i].betId.JStr?
    requires k <= |pending|
    ensures OpDicts(pending)[k..] == OpDicts(pending[k..])
    ensures TryMap(OpDicts(pending)[k..], OpReader(later)) == Ok(pending[k..])
  {
    assert OpDicts(pending)[k..] == OpDicts(pending[k..]);
    QueueRoundTrip(pending[k..], later);
  }

  /** What replaying one operation asks of the server. */
  datatype Action = CreateBet(bet: Bet) | UpdateBet(betId: string, patch: Json) | DeleteBet(betId: string)

  /** op.payload.get("bet_id") or op.bet_id, as it goes into the URL. */
  function TargetId(op: PendingOperation): (r: Result<string, Failure>)
    ensures !op.payload.JObj? ==> r == Err(AttributeError)
    ensures (op.payload.JObj? && "bet_id" in op.payload.fields && op.payload.fields["bet_id"].JStr?
             && op.payload.fields["bet_id"].s != []) ==> r == Ok(op.payload.fields["bet_id"].s)
    ensures (op.payload.JObj? && (!("bet_id" in op.payload.fields) || !Truthy(op.payload.fields["bet_id"]))
             && op.betId.JStr?) ==> r == Ok(op.betId.s)
  {
    match op.payload
    case JObj(m) =>
      var v := Lookup(m, "bet_id", JNull);
      var chosen := if Truthy(v) then v else op.betId;
      if chosen.JStr? then Ok(chosen.s) else Err(NotModelled)
    case _ => Err(AttributeError)
  }

  /** The branch of the replay loop an operation takes: create reads the
      payload as a bet, update and delete pick the target id (and update
      the "data" patch, {} when absent); any other kind does nothing. */
  function ActionOf(op: PendingOperation, now: Timestamp): (r: Result<Option<Action>, Failure>)
    ensures op.kind !in {JStr("create"), JStr("update"), JStr("delete")} ==> r == Ok(None)
  {
    if op.kind == JStr("create") then
      var b :- BetFromDict(op.payload, now);
      Ok(Some(CreateBet(b)))
    else if op.kind == JStr("update") then
      var id :- TargetId(op);
      var patch :- Get(op.payload, "data", JObj(map[]));
      Ok(Some(UpdateBet(id, patch)))
    else if op.kind == JStr("delete") then
      var id :- TargetId(op);
      Ok(Some(DeleteBet(id)))
    else Ok(None)
  }

  /** Create replays the payload read as a bet and fails exactly when
      from_dict does; update and delete go to the target id and fail when
      it cannot be picked; update sends payload["data"], or {}. */
  lemma ActionOfCases(op: PendingOperation, now: Timestamp)
    ensures op.kind == JStr("create") ==>
      (ActionOf(op, now).Ok? <==> BetFromDict(op.payload, now).Ok?) &&
      (ActionOf(op, now).Ok? ==> ActionOf(op, now).value == Some(CreateBet(BetFromDict(op.payload, now).value)))
    ensures op.kind == JStr("delete") ==>
      (ActionOf(op, now).Ok? <==> TargetId(op).Ok?) &&
      (ActionOf(op, now).Ok? ==> ActionOf(op, now).value == Some(DeleteBet(TargetId(op).value)))
    ensures op.kind == JStr("update") ==>
      (ActionOf(op, now).Ok? <==> TargetId(op).Ok?) &&
      (ActionOf(op, now).Ok? ==>
         ActionOf(op, now).value == Some(UpdateBet(TargetId(op).value, Lookup(op.payload.fields, "data", JObj(map[])))))
  {
  }

  /** The client call each action makes. */
  function RequestOf(base: string, a: Action): (req: Request)
    ensures a.CreateBet? ==> req == CreateBetRequest(base, a.bet)
    ensures a.UpdateBet? ==> req == UpdateBetRequest(base, a.betId, a.patch)
    ensures a.DeleteBet? ==> req == DeleteBetRequest(base, a.betId)
  {
    match a
    case CreateBet(b) => CreateBetRequest(base, b)
    case UpdateBet(id, patch) => UpdateBetRequest(base, id, patch)
    case DeleteBet(id) => DeleteBetRequest(base, id)
  }

  /** What an answered call does to the dict: upsert the bet the server
      returned, or remove the id. */
  datatype Change = Put(bet: Bet) | Drop(betId: string)

  function ApplyChange(entries: seq<Bet>, c: Change): seq<Bet> {
    match c
    case Put(b) => UpsertEntries(entries, b)
    case Drop(id) => RemoveEntries(entries, id)
  }

  /** The answer to an action's call: create_bet and update_bet return the
      bet read from the returned dict, to be upserted; delete_bet discards
      the value, and the id is then removed. */
  function Answer(a: Action, t: Transport, now: Timestamp): (r: Result<Change, Raised>)
    ensures Classify(t).Err? ==> r == Err(Classify(t).error)
  {
    match a
    case DeleteBet(id) =>
      var u :- DeleteReply(t);
      Ok(Drop(id))
    case _ =>
      var b :- BetReply(t, now);
      Ok(Put(b))
  }

  /** Create and update upsert exactly the bet the reply carries; delete
      removes the id it was sent for, once the server did not raise. */
  lemma AnswerCases(a: Action, t: Transport, now: Timestamp)
    ensures !a.DeleteBet? ==> (Answer(a, t, now).Ok? <==> BetReply(t, now).Ok?)
    ensures !a.DeleteBet? && BetReply(t, now).Ok? ==> Answer(a, t, now) == Ok(Put(BetReply(t, now).value))
    ensures !a.DeleteBet? && BetReply(t, now).Err? ==> Answer(a, t, now) == Err(BetReply(t, now).error)
    ensures a.DeleteBet? ==> (Answer(a, t, now).Ok? <==> Classify(t).Ok?)
    ensures a.DeleteBet? && Classify(t).Ok? ==> Answer(a, t, now) == Ok(Drop(a.betId))
  {
  }

  /** The parts of the loop body, as values: what an operation means, the
      request it sends, how the answer is read, and the server, which
      answers the n-th request (counting from 0) with respond(n, request). */
  datatype Replayer = Replayer(
    act: PendingOperation -> Result<Option<Action>, Failure>,
    request: Action -> Request,
    answer: (Action, Transport) -> Result<Change, Raised>,
    respond: (nat, Request) -> Transport)

  /** The replayer of flush_pending, against the API at base. */
  function Client(base: string, now: Timestamp, respond: (nat, Request) -> Transport): (c: Replayer)
    ensures forall op :: c.act(op) == ActionOf(op, now)
    ensures forall a :: c.request(a) == RequestOf(base, a)
    ensures forall a, t :: c.answer(a, t) == Answer(a, t, now)
    ensures c.respond == respond
  {
    Replayer((op: PendingOperation) => ActionOf(op, now), (a: Action) => RequestOf(base, a),
             (a: Action, t: Transport) => Answer(a, t, now), respond)
  }

  /** The requests a run over ops makes, in order, when none raises: one
      per operation with an action, none for the others. */
  function Planned(ops: seq<PendingOperation>, c: Replayer): (r: seq<Request>)
    ensures |r| <= |ops|
  {
    if ops == [] then []
    else
      Planned(ops[..|ops| - 1], c) +
        match c.act(ops[|ops| - 1])
        case Ok(Some(a)) => [c.request(a)]
        case _ => []
  }

  /** Where a replay has got to: the requests made so far, the dict's
      entries, how many operations are applied, and the exception that
      stopped it, if any. */
  datatype Replay = Replay(calls: seq<Request>, entries: seq<Bet>, done: nat, stop: Option<Raised>)

  /** One pass of the loop body. */
  function Step(r: Replay, op: PendingOperation, c: Replayer): (s: Replay)
    requires r.stop.None?
    ensures s.done <= r.done + 1
    ensures s.stop.None? <==> s.done == r.done + 1
  {
    match c.act(op)
    case Err(f) => r.(stop := Some(Crash(f)))
    case Ok(None) => r.(done := r.done + 1)
    case Ok(Some(a)) =>
      var req := c.request(a);
      match c.answer(a, c.respond(|r.calls|, req))
      case Err(e) => Replay(r.calls + [req], r.entries, r.done, Some(e))
      case Ok(ch) => Replay(r.calls + [req], ApplyChange(r.entries, ch), r.done + 1, None)
  }

  /** The replay loop over ops from the given entries, stopping at the
      first exception. */
  function Run(ops: seq<PendingOperation>, entries: seq<Bet>, c: Replayer): (r: Replay)
  {
    if ops == [] then Replay([], entries, 0, None)
    else
      var prev := Run(ops[..|ops| - 1], entries, c);
      if prev.stop.Some? then prev else Step(prev, ops[|ops| - 1], c)
  }

  /** How many operations a run has taken up: the applied ones and, when it
      stopped, the one that raised. */
  function Processed(r: Replay): nat {
    if r.stop.Some? then r.done + 1 else r.done
  }

  /** Taking up one more operation is one more pass of the loop body. */
  lemma RunSnoc(ops: seq<PendingOperation>, k: nat, entries: seq<Bet>, c: Replayer)
    requires k < |ops| && Run(ops[..k], entries, c).stop.None?
    ensures Run(ops[..k + 1], entries, c) == Step(Run(ops[..k], entries, c), ops[k], c)
  {
    assert ops[..k + 1][..k] == ops[..k];
  }

  /** An operation with an action makes that action's call, answered by
      the next response, and applies the change the answer carries. */
  lemma StepAction(r: Replay, op: PendingOperation, c: Replayer, a: Action)
    requires r.stop.None? && c.act(op) == Ok(Some(a))
    ensures Step(r, op, c)
            == var req := c.request(a);
               match c.answer(a, c.respond(|r.calls|, req))
               case Ok(ch) => Replay(r.calls + [req], ApplyChange(r.entries, ch), r.done + 1, None)
               case Err(e) => Replay(r.calls + [req], r.entries, r.done, Some(e))
  {
  }

  /** A create op: one create_bet call with the payload read as a bet,
      then the returned bet is upserted. */
  lemma ClientCreate(r: Replay, op: PendingOperation, base: string, now: Timestamp, respond: (nat, Request) -> Transport, b: Bet)
    requires r.stop.None? && op.kind == JStr("create") && BetFromDict(op.payload, now) == Ok(b)
    ensures Step(r, op, Client(base, now, respond))
            == var req := CreateBetRequest(base, b);
               match BetReply(respond(|r.calls|, req), now)
               case Ok(created) => Replay(r.calls + [req], UpsertEntries(r.entries, created), r.done + 1, None)
               case Err(e) => Replay(r.calls + [req], r.entries, r.done, Some(e))
  {
    var c := Client(base, now, respond);
    ActionOfCases(op, now);
    StepAction(r, op, c, CreateBet(b));
    AnswerCases(CreateBet(b), respond(|r.calls|, CreateBetRequest(base, b)), now);
  }

  /** An update op: one update_bet call to the target id with the "data"
      patch, then the returned bet is upserted. */
  lemma ClientUpdate(r: Replay, op: PendingOperation, base: string, now: Timestamp, respond: (nat, Request) -> Transport, id: string)
    requires r.stop.None? && op.kind == JStr("update") && TargetId(op) == Ok(id)
    ensures op.payload.JObj?
    ensures Step(r, op, Client(base, now, respond))
            == var req := UpdateBetRequest(base, id, Lookup(op.payload.fields, "data", JObj(map[])));
               match BetReply(respond(|r.calls|, req), now)
               case Ok(updated) => Replay(r.calls + [req], UpsertEntries(r.entries, updated), r.done + 1, None)
               case Err(e) => Replay(r.calls + [req], r.entries, r.done, Some(e))
  {
    var c := Client(base, now, respond);
    ActionOfCases(op, now);
    var a := UpdateBet(id, Lookup(op.payload.fields, "data", JObj(map[])));
    StepAction(r, op, c, a);
    AnswerCases(a, respond(|r.calls|, RequestOf(base, a)), now);
  }

  /** A delete op: one delete_bet call, then the id is removed. */
  lemma ClientDelete(r: Replay, op: PendingOperation, base: string, now: Timestamp, respond: (nat, Request) -> Transport, id: string)
    requires r.stop.None? && op.kind == JStr("delete") && TargetId(op) == Ok(id)
    ensures Step(r, op, Client(base, now, respond))
            == var req := DeleteBetRequest(base, id);
               if Classify(respond(|r.calls|, req)).Ok?
               then Replay(r.calls + [req], RemoveEntries(r.entries, id), r.done + 1, None)
               else Replay(r.calls + [req], r.entries, r.done, Some(Classify(respond(|r.calls|, req)).error))
  {
    var c := Client(base, now, respond);
    ActionOfCases(op, now);
    StepAction(r, op, c, DeleteBet(id));
    AnswerCases(DeleteBet(id), respond(|r.calls|, DeleteBetRequest(base, id)), now);
  }

  /** Replay goes strictly in stored order. Without an exception every
      operation is applied; with one, the operations before it are applied
      and the one at position done raised. Either way the requests made are
      exactly the planned ones of the operations taken up, in order. */
  lemma RunShape(ops: seq<PendingOperation>, entries: seq<Bet>, c: Replayer)
    ensures Processed(Run(ops, entries, c)) <= |ops|
    ensures Run(ops, entries, c).stop.None? ==> Run(ops, entries, c).done == |ops|
    ensures Run(ops, entries, c).calls == Planned(ops[..Processed(Run(ops, entries, c))], c)
  {
    RunCount(ops, entries, c);
    RunCalls(ops, entries, c);
  }

  lemma {:induction false} RunCount(ops: seq<PendingOperation>, entries: seq<Bet>, c: Replayer)
    ensures Processed(Run(ops, entries, c)) <= |ops|
    ensures Run(ops, entries, c).stop.None? ==> Run(ops, entries, c).done == |ops|
  {
    if ops != [] {
      RunCount(ops[..|ops| - 1], entries, c);
    }
  }

  lemma {:induction false} RunCalls(ops: seq<PendingOperation>, entries: seq<Bet>, c: Replayer)
    ensures Processed(Run(ops, entries, c)) <= |ops|
            && Run(ops, entries, c).calls == Planned(ops[..Processed(Run(ops, entries, c))], c)
  {
    RunCount(ops, entries, c);
    if ops != [] {
      var init := ops[..|ops| - 1];
      var prev := Run(init, entries, c);
      RunCount(init, entries, c);
      RunCalls(init, entries, c);
      if prev.stop.Some? {
        assert ops[..Processed(prev)] == init[..Processed(prev)];
      } else {
        var last := ops[|ops| - 1];
        assert init[..prev.done] == init;
        assert prev.calls == Planned(init, c);
        StepCalls(prev, last, c);
        assert Processed(Run(ops, entries, c)) == |ops|;
        assert ops[..|ops|] == ops;
        assert Planned(ops, c) == Planned(init, c) + match c.act(last) case Ok(Some(a)) => [c.request(a)] case _ => [];
      }
    }
  }

  /** One pass adds the planned call of its operation, if it has one,
      whether or not the answer raises. */
  lemma StepCalls(r: Replay, op: PendingOperation, c: Replayer)
    requires r.stop.None?
    ensures Step(r, op, c).calls
            == r.calls + match c.act(op) case Ok(Some(a)) => [c.request(a)] case _ => []
    ensures Step(r, op, c).stop.Some? ==> Step(r, op, c).done == r.done && Step(r, op, c).entries == r.entries
  {
  }

  /** Once a run has stopped, the operations after the one that raised are
      never looked at. */
  lemma {:induction false} RunStopped(ops: seq<PendingOperation>, k: nat, entries: seq<Bet>, c: Replayer)
    requires k <= |ops|
    requires Run(ops[..k], entries, c).stop.Some?
    ensures Run(ops, entries, c) == Run(ops[..k], entries, c)
  {
    if k < |ops| {
      var init := ops[..|ops| - 1];
      assert init[..k] == ops[..k];
      RunStopped(init, k, entries, c);
    } else {
      assert ops[..k] == ops;
    }
  }

  /** The state changes made by the operations applied before the failure
      are kept, and the one that raised changed nothing: the entries are
      those of the run over the applied operations alone, which did not
      stop. */
  lemma {:induction false} RunKeepsApplied(ops: seq<PendingOperation>, entries: seq<Bet>, c: Replayer)
    requires Run(ops, entries, c).stop.Some?
    ensures Run(ops, entries, c).done < |ops|
    ensures Run(ops[..Run(ops, entries, c).done], entries, c).stop.None?
    ensures Run(ops[..Run(ops, entries, c).done], entries, c).entries == Run(ops, entries, c).entries
  {
    var init := ops[..|ops| - 1];
    var prev := Run(init, entries, c);
    if prev.stop.Some? {
      RunKeepsApplied(init, entries, c);
      assert ops[..prev.done] == init[..prev.done];
    } else {
      RunCount(init, entries, c);
      StepCalls(prev, ops[|ops| - 1], c);
      assert Run(ops, entries, c) == Step(prev, ops[|ops| - 1], c);
      assert ops[..prev.done] == init;
    }
  }

  /** An operation without an action makes no call, changes nothing and
      counts as applied. */
  lemma UnknownKindSkipped(ops: seq<PendingOperation>, op: PendingOperation, entries: seq<Bet>, c: Replayer)
    requires c.act(op) == Ok(None)
    requires Run(ops, entries, c).stop.None?
    ensures Run(ops + [op], entries, c) == Run(ops, entries, c).(done := |ops| + 1)
  {
    assert (ops + [op])[..|ops|] == ops;
    RunShape(ops, entries, c);
  }

  /** How flush_pending ended. */
  datatype Outcome =
    | NothingQueued               // the queue was empty: returned at once
    | Completed                   // every operation applied
    | Interrupted(error: Raised)  // an ApiClientError, caught
    | Propagated(error: Raised)   // any other exception, raised to the caller

  datatype Flushed = Flushed(calls: seq<Request>, entries: seq<Bet>, files: map<string, FileText>, outcome: Outcome)

  /** [item for item in queue_raw if item not in applied]. */
  function Remaining(raw: seq<Json>, applied: seq<Json>): (r: seq<Json>)
    ensures forall x :: x in r <==> x in raw && x !in applied
  {
    Filter(raw, NotIn(applied))
  }

  /** flush_pending as a whole, from the files and the dict's entries. */
  function Flush(files: map<string, FileText>, entries: seq<Bet>, c: Replayer, now: Timestamp): Flushed {
    var raw := ReadList(files, QueueFile);
    if raw == [] then Flushed([], entries, files, NothingQueued)
    else
      match TryMap(raw, OpReader(now))
      case Err(f) => Flushed([], entries, files, Propagated(Crash(f)))
      case Ok(pending) =>
        var r := Run(pending, entries, c);
        RunShape(pending, entries, c);
        match r.stop
        case None => Flushed(r.calls, r.entries, files[QueueFile := Doc([])], Completed)
        case Some(e) =>
          if IsApiClientError(e) then
            Flushed(r.calls, r.entries, files[QueueFile := Doc(Remaining(raw, OpDicts(pending[..r.done])))], Interrupted(e))
          else Flushed(r.calls, r.entries, files, Propagated(e))
  }

  /** An empty queue: no client call, no state change, no rewrite. */
  lemma FlushEmpty(files: map<string, FileText>, entries: seq<Bet>, c: Replayer, now: Timestamp)
    requires ReadList(files, QueueFile) == []
    ensures Flush(files, entries, c, now) == Flushed([], entries, files, NothingQueued)
  {
  }

  /** When every operation succeeds, every planned request is made and the
      saved queue is empty; the cached bets file is not touched. */
  lemma FlushCompleted(files: map<string, FileText>, entries: seq<Bet>, c: Replayer, now: Timestamp, pending: seq<PendingOperation>)
    requires ReadList(files, QueueFile) != []
    requires TryMap(ReadList(files, QueueFile), OpReader(now)) == Ok(pending)
    requires Run(pending, entries, c).stop.None?
    ensures Flush(files, entries, c, now).outcome == Completed
    ensures Flush(files, entries, c, now).calls == Planned(pending, c)
    ensures Flush(files, entries, c, now).files == files[QueueFile := Doc([])]
  {
    RunShape(pending, entries, c);
    assert pending[..|pending|] == pending;
  }

  /** Removing the applied entries from a queue that to_dict wrote, with no
      entry twice, leaves the entries from position k on. */
  lemma RemainingIsSuffix(raw: seq<Json>, pending: seq<PendingOperation>, k: nat)
    requires OpDicts(pending) == raw && Distinct(raw) && k <= |raw|
    ensures Remaining(raw, OpDicts(pending[..k])) == raw[k..]
  {
    assert OpDicts(pending[..k]) == raw[..k];
    FilterNotInPrefix(raw, raw[..k], k);
  }

  /** On the first ApiClientError replay stops; the saved queue is the
      entry that raised and everything after it, in stored order, when the
      queue was written by to_dict and holds no entry twice. The state
      changes of the operations before it are kept. */
  lemma FlushInterrupted(files: map<string, FileText>, entries: seq<Bet>, c: Replayer, now: Timestamp, pending: seq<PendingOperation>)
    requires ReadList(files, QueueFile) != []
    requires TryMap(ReadList(files, QueueFile), OpReader(now)) == Ok(pending)
    requires OpDicts(pending) == ReadList(files, QueueFile) && Distinct(ReadList(files, QueueFile))
    requires Run(pending, entries, c).stop.Some? && IsApiClientError(Run(pending, entries, c).stop.value)
    ensures Run(pending, entries, c).done < |pending|
    ensures Flush(files, entries, c, now).outcome == Interrupted(Run(pending, entries, c).stop.value)
    ensures Flush(files, entries, c, now).files
            == files[QueueFile := Doc(ReadList(files, QueueFile)[Run(pending, entries, c).done..])]
    ensures Flush(files, entries, c, now).entries == Run(pending[..Run(pending, entries, c).done], entries, c).entries
  {
    RunKeepsApplied(pending, entries, c);
    RemainingIsSuffix(ReadList(files, QueueFile), pending, Run(pending, entries, c).done);
  }

  /** Any other exception propagates: the queue file is not rewritten,
      though the state changes already made stay. */
  lemma FlushPropagated(files: map<string, FileText>, entries: seq<Bet>, c: Replayer, now: Timestamp)
    requires Flush(files, entries, c, now).outcome.Propagated?
    ensures Flush(files, entries, c, now).files == files
    ensures !IsApiClientError(Flush(files, entries, c, now).outcome.error)
  {
  }

  /** One pass of the loop body of flush_pending: the operation's call,
      if it has one, and the upsert or remove after the answer; stop is the
      exception the pass raised. */
  method ReplayOne(state: AppState, op: PendingOperation, c: Replayer, calls: seq<Request>, ghost done: nat)
      returns (made: seq<Request>, stop: Option<Raised>)
    requires state.Valid()
    modifies state
    ensures state.Valid() && state.lastSync == old(state.lastSync)
    ensures Step(Replay(calls, old(state.entries), done, None), op, c)
            == Replay(made, state.entries, if stop.None? then done + 1 else done, stop)
  {
    made := calls;
    var action := c.act(op);
    if action.Err? {
      return made, Some(Crash(action.error));
    }
    if action.value.Some? {
      var a := action.value.value;
      var req := c.request(a);
      var answer := c.answer(a, c.respond(|calls|, req));
      made := calls + [req];
      if answer.Err? {
        return made, Some(answer.error);
      }
      match answer.value {
        case Put(b) => state.Upsert(b);
        case Drop(id) => state.Remove(id);
      }
    }
    stop := None;
  }

  /** The loop of flush_pending: the operations in stored order until one
      raises, with the dicts of those applied collected in applied. */
  method ReplayAll(state: AppState, pending: seq<PendingOperation>, c: Replayer)
      returns (calls: seq<Request>, applied: seq<Json>, stop: Option<Raised>, ghost done: nat)
    requires state.Valid()
    modifies state
    ensures state.Valid() && state.lastSync == old(state.lastSync)
    ensures Run(pending, old(state.entries), c) == Replay(calls, state.entries, done, stop)
    ensures done <= |pending| && applied == OpDicts(pending[..done])
  {
    ghost var start := state.entries;
    applied := [];
    calls := [];
    var i := 0;
    while i < |pending|
      invariant 0 <= i <= |pending|
      invariant state.Valid() && state.lastSync == old(state.lastSync)
      invariant Run(pending[..i], start, c) == Replay(calls, state.entries, i, None)
      invariant applied == OpDicts(pending[..i])
    {
      RunSnoc(pending, i, start, c);
      calls, stop := ReplayOne(state, pending[i], c, calls, i);
      if stop.Some? {
        RunStopped(pending, i + 1, start, c);
        return calls, applied, stop, i;
      }
      assert pending[..i + 1][..i] == pending[..i];
      applied := applied + [ToDict(pending[i])];
      i := i + 1;
    }
    assert pending[..i] == pending;
    return calls, applied, None, i;
  }

  /** flush_pending against the dict and the file store, for the replayer
      c (Client(base, now, respond) in the application). */
  method FlushPending(state: AppState, store: FileStore, c: Replayer, now: Timestamp)
      returns (calls: seq<Request>, outcome: Outcome)
    requires state.Valid()
    modifies state, store
    ensures state.Valid() && state.lastSync == old(state.lastSync)
    ensures Flush(old(store.files), old(state.entries), c, now) == Flushed(calls, state.entries, store.files, outcome)
  {
    var raw := store.LoadPendingQueue();
    if raw == [] {
      return [], NothingQueued;
    }
    var parsed := TryMap(raw, OpReader(now));
    if parsed.Err? {
      return [], Propagated(Crash(parsed.error));
    }
    var applied, stop;
    ghost var done;
    calls, applied, stop, done := ReplayAll(state, parsed.value, c);
    if stop.None? {
      store.SavePendingQueue([]);
      outcome := Completed;
    } else if IsApiClientError(stop.value) {
      store.SavePendingQueue(Remaining(raw, applied));
      outcome := Interrupted(stop.value);
    } else {
      outcome := Propagated(stop.value);
    }
  }
}
