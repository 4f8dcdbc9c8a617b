# Invictos bet tracker: the offline ledger and its sync rules

Invictos is a personal betting ledger. The desktop client keeps a local dictionary of bets, caches it as JSON, and talks to a FastAPI backend. When the backend cannot be reached, the client applies the change locally and appends it to a pending queue. Replaying that queue later reconciles the client with the server. The backend validates bodies against its schema, stores rows per owner, applies patches field by field and serves incremental sync.

This Dafny project models the following parts of the system:

- **Client records.** A bet and its legs, their dictionary forms and from_dict readers, the date and number parsing helpers, and the gross return and net of a bet.
- **Client state.** The bet dictionary (upsert, remove, replace_all), the sorted views, and the summary metrics.
- **Client storage and API.** The cache and queue files, and the API client's URL, header, error and reply handling.
- **Pending queue.** The operation records, enqueue_operation, and the replay of flush_pending with what it keeps in the queue when it is interrupted.
- **Handlers.** The client handlers that create, edit, delete and reload bets, with their online, offline and refused outcomes, and the form checks and the parlay odds preview.
- **Server schema.** The bet type and outcome values, the field bounds, and how create and update bodies are read.
- **Server store.** The owner-scoped reads and the create, patch and delete writes, on an in-memory table.
- **Text helpers.** The currency, date and month formatters, the string table, and the allowed-origins setting.

State that the source changes in place is modelled as classes:

- `AppStateModule.AppState` holds the bet dictionary, as an insertion-ordered sequence of bets with distinct ids.
- `Cache.FileStore` holds the two JSON files.
- `Api.ApiClient` holds the session headers and token.
- `Crud.Table` holds the server's rows.

Loops become methods with invariants: `AppState.ComputeMetrics`, `App.MultiplyLegOdds`, `App.CollectLegs`, `Sync.ReplayAll` and `Crud.Table.UpdateBet`. Each method is proved against a function that states its result, and the properties the source relies on are lemmas about those functions.

External inputs are parameters:

- **The clock** is a `now: Timestamp` argument. One reading stands for all the `utcnow()` calls of one handler.
- **Fresh ids** from `uuid4()` are arguments (`betId`, and a `freshId` per leg row).
- **The network** is a reply value (`Result<Bet, Raised>`, `Transport`) or a `respond` function from the call index and request to a transport outcome.

Python's built-in behaviour is written out in the `PyText`, `Json` and `Wrappers` modules:

- `str.strip`, `split`, `join` and `replace`;
- `int()` and `float()` on ASCII decimal text (see "## Left out" for the forms they also accept);
- dictionary `get` and truthiness;
- list indexing with negative indexes;
- comprehensions that raise on their first failing element.

## Model

| member | source | states |
|---|---|---|
| Ledger.IsoDateRoundTrip | client/models.py:62 | The ISO text of a date reads back as that date |
| Ledger.IsoDate | client/models.py:62 | date.isoformat is ten characters YYYY-MM-DD: the year zero-padded to four digits, month and day to two |
| Ledger.IsoFieldsText | client/models.py:107 | Any ten-character YYYY-MM-DD text naming a real date is the ISO text of the date it names |
| Ledger.DateFromIso | client/models.py:107 | date.fromisoformat as Python 3.10 and earlier define it accepts only texts that are the ISO text (YYYY-MM-DD) of the date returned |
| Ledger.ParseDate | client/models.py:101-108 | _parse_date: only a text is accepted; its first ten characters are the date's ISO text; anything else is ValueError |
| Ledger.ParseDatePrefix | client/models.py:107 | A text that starts with a date's ISO text parses as that date, whatever follows (value[:10]) |
| Ledger.ParseDatetime | client/models.py:111-120 | _parse_datetime: a value that is not a text becomes the current time |
| Ledger.ParseDatetimeRoundTrip | client/models.py:70-71 | The stored timestamp text reads back as the same timestamp |
| Ledger.ParseOptionalFloat | client/models.py:123-129 | _parse_optional_float: None for None and for anything float() rejects, else float()'s value |
| Ledger.NetCases | client/models.py:90-98 | The gross return is the cash-out if any, else stake*odds for "acertada", else 0; net is gross minus stake, per case |
| Ledger.NetBounds | client/models.py:90-98 | With odds >= 1 and a non-negative cash-out, a bet never loses more than its stake; a won bet at odds > 1 is profitable |
| Ledger.GrossReturn | client/models.py:90-95 | gross_return; its cases are stated by Ledger.NetCases and its bounds by Ledger.NetBounds |
| Ledger.Net | client/models.py:97-98 | net, gross_return minus the stake; stated by Ledger.NetCases and Ledger.NetBounds |
| Ledger.LegFromDict | client/models.py:15-20 | ParlayLeg.from_dict on a value that is not a dict fails (AttributeError on .get) |
| Ledger.LegRoundTrip | client/models.py:15-23 | ParlayLeg.from_dict(to_dict(l)) == l |
| Ledger.LegsRoundTrip | client/models.py:54 | The leg list of to_dict reads back as the same legs |
| Ledger.LegsOf | client/models.py:54 | The legs comprehension reads each item in order; a legs value that is not iterable is TypeError |
| Ledger.BetFromDict | client/models.py:44-57 | Bet.from_dict on a value that is not a dict fails with AttributeError |
| Ledger.BetFromDictReads | client/models.py:44-57 | A dict whose fields read, with from_dict's defaults, as a bet's fields gives exactly that bet |
| Ledger.BetRoundTrip | client/models.py:44-72 | Bet.from_dict(to_dict(b)) == b for every bet, whatever the clock reads |
| Ledger.BetFromDictDefaults | client/models.py:44-57 | A dict with only id and event_date gives type "single", detail "", stake 0, odds 1, no cash-out, "pendiente", no legs, both timestamps now |
| Ledger.DictHoldsShared | client/models.py:59-72 | to_dict holds the shared fields, the legs as dicts and both timestamps as text |
| Ledger.BetToDict | client/models.py:59-72 | to_dict; its keys and values are stated by Ledger.DictHoldsShared and Ledger.SharedFieldsRead, and Ledger.BetRoundTrip proves from_dict reads it back as the bet |
| Ledger.SharedFieldsRead | client/models.py:60-68 | The eight shared keys hold the bet's id, ISO date, type, detail, stake, odds, cash-out (null when none) and outcome |
| Ledger.PayloadFromDict | client/models.py:74-88 | to_payload is to_dict without the two timestamps and with the legs as payloads |
| Ledger.BetToPayload | client/models.py:74-88 | to_payload; Ledger.PayloadFromDict states it is to_dict without the timestamps and with the legs as payloads |
| Ledger.LegPayloadDropsId | client/models.py:22-26 | A leg's payload is its dict without "id" |
| Ledger.LegToDict | client/models.py:22-23 | ParlayLeg.to_dict; Ledger.LegRoundTrip proves from_dict reads it back as the same leg |
| Ledger.LegToPayload | client/models.py:25-26 | ParlayLeg.to_payload; Ledger.LegPayloadDropsId proves it is the leg's dict without "id" |
| Ledger.LegsPayloadDropIds | client/models.py:84 | Each leg payload in a bet's payload is that leg's dict without "id" |
| Ledger.SerializeBets | client/models.py:132-133 | serialize_bets maps to_dict over the bets, position by position |
| Ledger.BetsRoundTrip | client/models.py:132-133 | Reading the serialized list back with from_dict gives the same bets in the same order |
| Ledger.BetsOf | client/api.py:61 | Reading a JSON array of bets goes item by item with from_dict; a value that is not iterable is TypeError |
| AppStateModule.YieldPercent | client/state.py:20-24 | The yield is 0 when nothing was staked, else net/stake*100 |
| AppStateModule.MetricsConsistent | client/state.py:73-88 | wins + losses + pending == count; net == return - stake; no bets give the zero summary and a zero yield |
| AppStateModule.MetricsOf | client/state.py:73-88 | The summary as sums and counts; stated by AppStateModule.MetricsConsistent, AppStateModule.MetricsPermutation and AppStateModule.MetricsSnoc, and the loop AppStateModule.AppState.ComputeMetrics is proved equal to it |
| AppStateModule.MetricsPermutation | client/state.py:73-88 | The summary of a list of bets does not depend on their order |
| AppStateModule.MetricsSnoc | client/state.py:75-87 | Adding a bet at the end adds exactly that bet's stake, return, net and its one outcome counter |
| AppStateModule.ToMapKeys | client/state.py:29-32 | The dictionary's keys are exactly the ids that were inserted |
| AppStateModule.ToMapValues | client/state.py:29-32 | With distinct ids, each bet is found under its own id |
| AppStateModule.LastDuplicateWins | client/state.py:50 | When ids repeat, the dictionary keeps the last bet with each id |
| AppStateModule.UpsertEffect | client/state.py:43-44 | Upsert sets the id's entry to the bet, keeps the ids distinct, and keeps an existing key in place or adds a new one at the end |
| AppStateModule.UpsertEntries | client/state.py:43-44 | bets[bet.id] = bet on the dict's entries; stated by AppStateModule.UpsertEffect |
| AppStateModule.RemoveEntries | client/state.py:46-47 | Removing keeps exactly the bets with other ids |
| AppStateModule.RemoveEffect | client/state.py:46-47 | pop(id, None) deletes that key, keeps the ids distinct, and changes nothing else |
| AppStateModule.RemoveAbsent | client/state.py:47 | Removing an id that is absent changes nothing |
| AppStateModule.RemoveIdempotent | client/state.py:46-47 | Removing twice is removing once |
| AppStateModule.FromBetsEffect | client/state.py:50 | The dict comprehension gives distinct ids, the map of the input, and the ids in first-seen order |
| AppStateModule.FromBets | client/state.py:50 | {bet.id: bet for bet in bets}; stated by AppStateModule.FromBetsEffect and AppStateModule.LastDuplicateWins |
| AppStateModule.AppState.constructor | client/state.py:28-34 | A new state holds the given bets keyed by id and no last sync |
| AppStateModule.AppState.Upsert | client/state.py:43-44 | The new dictionary is the old one with bets[b.id] = b; last_sync unchanged |
| AppStateModule.AppState.Remove | client/state.py:46-47 | The new dictionary is the old one without the id; last_sync unchanged |
| AppStateModule.AppState.ReplaceAll | client/state.py:49-51 | The dictionary is rebuilt from the new bets and last_sync is the given one |
| AppStateModule.AppState.AsList | client/state.py:53-54 | as_list is a permutation of the stored bets, sorted newest first by (event_date, created_at) |
| AppStateModule.AppState.ByDate | client/state.py:56-61 | by_date holds exactly that day's bets, each once as stored, sorted by created_at descending |
| AppStateModule.AppState.ByMonth | client/state.py:63-68 | by_month holds exactly the bets of that month key, sorted newest first |
| AppStateModule.AppState.Months | client/state.py:70-71 | months holds each month key of the stored bets once, in strictly descending text order |
| AppStateModule.MonthsCanonical | client/state.py:70-71 | Any strictly descending list of exactly those keys is the months list |
| AppStateModule.MonthKeyIsIsoPrefix | client/state.py:65 | With %Y written as four zero-padded digits, strftime("%Y-%m") is the first seven characters of the ISO date |
| AppStateModule.MonthKey | client/state.py:65 | strftime("%Y-%m") with %Y as four zero-padded digits: seven characters with the dash at index 4; AppStateModule.MonthKeyIsIsoPrefix ties it to the ISO date |
| AppStateModule.AppState.ComputeMetrics | client/state.py:73-88 | The loop's summary equals the summary function of the bets |
| AppStateModule.AppState.DailyMetrics | client/state.py:90-91 | daily_metrics is the summary of that day's bets |
| AppStateModule.AppState.MonthMetrics | client/state.py:93-94 | month_metrics is the summary of that month's bets |
| AppStateModule.NewestFirstTotal | client/state.py:54 | The as_list key order is a total preorder, so the sort is well defined |
| Sorting.SortBySorted | client/state.py:54 | The sort gives a sequence ordered by the key under a total preorder |
| Sorting.SortBy | client/state.py:54 | The sort returns a permutation of its input |
| Sorting.SortByStable | client/state.py:54 | The sort is stable: for every key, the elements with that key keep their input order |
| Cache.ReadList | client/cache.py:11-20 | A missing file or one that is not JSON reads as the empty list; a JSON array reads as its items |
| Cache.FileStore.LoadCachedBets | client/cache.py:11-20 | load_cached_bets is [] for a missing or malformed file |
| Cache.FileStore.LoadPendingQueue | client/cache.py:29-37 | load_pending_queue is [] for a missing or malformed file |
| Cache.FileStore.SaveCachedBets | client/cache.py:23-26 | Only the cache file changes, and each later load gives the saved bets back |
| Cache.FileStore.SavePendingQueue | client/cache.py:40-42 | Only the queue file changes, and it reads back as the saved items |
| Cache.FileStore.AppendPendingOp | client/cache.py:45-48 | The queue afterwards is the old queue plus the one operation at the end |
| Cache.FilesIndependent | client/cache.py:23-48 | Writing one file leaves what the other reads unchanged |
| Sync.FromDict | client/sync.py:22-29 | PendingOperation.from_dict defaults: kind "", bet_id str(None), payload {}, created_at now; a value that is not a dict raises |
| Sync.OpRoundTrip | client/sync.py:19-29 | An operation read back from its dict (asdict) is the same operation |
| Sync.ToDict | client/sync.py:19-20 | asdict(self); Sync.OpRoundTrip proves from_dict reads it back as the same operation |
| Sync.QueueRoundTrip | client/sync.py:47 | A stored queue reads back as the same operations in order |
| Sync.NewOperation | client/sync.py:32-38 | The operation's bet_id is the bet's id, else the payload's "bet_id", else ""; its time is now |
| Sync.EnqueueOperation | client/sync.py:32-39 | The queue file afterwards is the old queue plus the new operation's dict |
| Sync.EnqueueKeepsCanonical | client/sync.py:32-39 | A queue whose items are the to_dict() of the operations they read back as stays so after enqueue_operation, when the new bet_id is a text |
| Sync.TargetId | client/sync.py:55-63 | The payload's non-empty "bet_id" wins, else the operation's bet_id; a payload that is not a dict raises |
| Sync.ActionOf | client/sync.py:51-63 | An operation of unknown kind does nothing |
| Sync.ActionOfCases | client/sync.py:51-63 | create replays the payload's bet; update sends payload "data" (default {}) to the target id; delete deletes the target id, each failing exactly when its reader fails |
| Sync.RequestOf | client/api.py:63-73 | Each action becomes its POST, PATCH or DELETE request |
| Sync.AnswerCases | client/sync.py:51-63 | A create or update upserts the server's reply bet; a delete removes the id once the server acknowledges it |
| Sync.Client | client/sync.py:42-70 | The concrete replayer acts, requests and answers as the client does |
| Sync.Step | client/sync.py:50-64 | One operation either completes (done + 1) or stops the replay |
| Sync.Planned | client/sync.py:50-62 | The requests of a replay that no operation stops: at most one per operation, in order; Sync.RunShape proves a replay makes exactly the planned requests of the operations it took up |
| Sync.Run | client/sync.py:50-65 | The replay loop as a function, stopping at the first exception; Sync.RunShape, Sync.RunStopped and Sync.RunKeepsApplied state how far it gets, which requests it makes and which local changes it keeps |
| Sync.RunCount | client/sync.py:50-65 | A replay takes up at most every operation, and all of them when nothing stops it |
| Sync.RunCalls | client/sync.py:50-65 | The requests made are the planned requests of the operations taken up |
| Sync.RunShape | client/sync.py:50-64 | The replay makes exactly the requests of the operations it processed, in order; a replay that is not stopped processed every operation |
| Sync.RunStopped | client/sync.py:65 | After the first error no further operation is processed |
| Sync.RunKeepsApplied | client/sync.py:50-68 | An interrupted replay keeps the local changes of exactly the operations before the failing one |
| Sync.UnknownKindSkipped | client/sync.py:51-64 | An operation of unknown kind is counted as applied and changes nothing |
| Sync.ClientCreate | client/sync.py:51-54 | A queued create posts the payload's bet and upserts the server's reply |
| Sync.ClientUpdate | client/sync.py:55-59 | A queued update patches the target with payload "data" and upserts the reply |
| Sync.ClientDelete | client/sync.py:60-63 | A queued delete removes the id locally only after the server acknowledges it |
| Sync.Remaining | client/sync.py:66 | The kept queue items are exactly the raw items not in the applied list |
| Sync.RemainingIsSuffix | client/sync.py:64-67 | When every stored item is the to_dict() of the operation read from it and no item occurs twice, what remains is the queue from the failing operation on |
| Sync.SuffixKeepsCanonical | client/sync.py:66-67 | The queue an interrupted flush writes back is again the to_dict() of the operations it reads back as |
| Sync.FlushEmpty | client/sync.py:43-45 | An empty queue does nothing at all |
| Sync.FlushCompleted | client/sync.py:50-70 | A replay without error makes the planned requests and empties the queue |
| Sync.FlushInterrupted | client/sync.py:50-68 | When every stored item is the to_dict() of the operation read from it and no item occurs twice, an API error keeps in the queue exactly the items from the failing one on, and the local changes of the operations before it |
| Sync.FlushPropagated | client/sync.py:47-65 | A failure that is not an API error escapes and leaves the files as they were |
| Sync.ReplayOne | client/sync.py:51-64 | One pass of the loop body changes the state and makes the requests exactly as Sync.Step states, and keeps the state valid |
| Sync.ReplayAll | client/sync.py:50-64 | The loop over the pending operations does what the replay function states, and collects the applied dicts |
| Sync.FlushPending | client/sync.py:42-70 | The method's requests, state and files are those of the flush function |
| Sync.Flush | client/sync.py:42-70 | flush_pending as a function; Sync.FlushEmpty, Sync.FlushCompleted, Sync.FlushInterrupted and Sync.FlushPropagated state its four outcomes, and Sync.FlushPending proves the method equal to it |
| Api.ExtractError | client/api.py:102-109 | The detail is the raw text when the body is not JSON, the "detail" key of a dict body, and the body itself otherwise |
| Api.ErrorMessageStatus | client/api.py:107-109 | The error message starts with "HTTP ", then the status digits, which int() reads back, then ": " |
| Api.ErrorMessage | client/api.py:107-109 | The message is "HTTP ", the status digits, ": " and the detail's text; for a raw body the text is the body itself |
| Json.Get | client/models.py:17-19 | data.get succeeds exactly on a dict; on anything else it is AttributeError |
| Json.Truthy | client/sync.py:56 | Python truthiness: null, false, 0, and the empty text, list and dict are false; Sync.TargetId states how `or` uses it |
| Json.PyFloat | client/models.py:19 | float(): a number is itself; its only failures are ValueError and TypeError |
| Json.PyStr | client/api.py:109 | str() of the detail: a text is itself; None and booleans get Python's spellings, other values are not rendered |
| Api.Classify | client/api.py:81-94 | A transport failure is a connection error; status >= 400 is a client error carrying status and detail; 204 or an empty body is None |
| Api.ClassifyBody | client/api.py:92-94 | A content body is its JSON value, and one that is not JSON raises ValueError |
| Api.BuildUrl | client/api.py:96-100 | The URL is the base without trailing slashes, then the path with exactly one leading slash added when it lacks one |
| Api.BuildUrlNormalises | client/api.py:96-100 | A path with or without its leading slash, and a base with a trailing slash, give the same URL |
| Api.AuthHeaders | client/api.py:28-34 | set_auth(None) drops Authorization; set_auth(token) sets "Bearer <token>"; other headers are kept |
| Api.SignOutAfterSignIn | client/api.py:28-34 | Signing out after signing in leaves only the other headers; signing in after signing out is signing in |
| Api.ApiClient.constructor | client/api.py:22-26 | A new client accepts JSON and has no token |
| Api.ApiClient.SetAuth | client/api.py:28-34 | The token and the headers are updated as set_auth does |
| Api.ListParams | client/api.py:54-59 | start and end are sent only when they are non-empty texts |
| Api.SyncParams | client/api.py:75-79 | since is sent, as its text, only when given |
| Api.ListBetsRequest | client/api.py:54-60 | GET of /bets under the base, with the list query and no body; stated by Api.RequestTargets |
| Api.CreateBetRequest | client/api.py:63-65 | POST of /bets with the bet's payload; stated by Api.RequestTargets |
| Api.UpdateBetRequest | client/api.py:68-69 | PATCH of /bets/{id} with the patch; stated by Api.RequestTargets |
| Api.DeleteBetRequest | client/api.py:72-73 | DELETE of /bets/{id} without a body; stated by Api.RequestTargets |
| Api.SyncRequest | client/api.py:75-79 | GET of /sync with the since query; stated by Api.RequestTargets |
| Api.RequestTargets | client/api.py:54-79 | Each call's verb, URL (the base without trailing slashes, then the path), query and body; only create and update send a body |
| Api.BetReply | client/api.py:63-70 | A bet reply is from_dict of the body; a request error propagates unchanged |
| Api.BetsReply | client/api.py:54-61 | A list reply succeeds exactly when every item reads as a bet |
| Api.DeleteReply | client/api.py:72-73 | delete_bet succeeds exactly when the request does |
| Api.CreateEcho | client/api.py:63-66 | When the server echoes a bet's dict, create_bet returns that bet |
| ServerModels.EnumTexts | backend/models.py:13-21 | The enumeration values are distinct and read back as their members |
| ServerModels.TypeFromText | backend/models.py:13-15 | BetType(s) finds the member with value s, and fails only when there is none |
| ServerModels.OutcomeFromText | backend/models.py:18-21 | BetOutcome(s) finds the member with value s, and fails only when there is none |
| ServerModels.TypeField | backend/models.py:35 | A type is accepted exactly when it is the text of a BetType member, and reads as that member; otherwise the error names the type |
| ServerModels.OutcomeField | backend/models.py:40 | An outcome is accepted exactly when it is the text of a BetOutcome member, and reads as that member; otherwise the error names the outcome |
| ServerModels.DateField | backend/models.py:34 | A date is accepted exactly when it is a text that parses as an ISO date, and that text is the date's ISO text |
| ServerModels.TextField | backend/models.py:36 | A required text is accepted exactly when it is present, textual and within the bound |
| ServerModels.NumberAbove | backend/models.py:37-38 | A required number is accepted exactly when it is above the bound |
| ServerModels.OptionalCashout | backend/models.py:39 | A cash-out that is absent or null is None; a given one is accepted exactly when it is a number >= 0, and reads as that number |
| ServerModels.ReadLeg | backend/models.py:28-30 | A leg is accepted exactly when it is an object whose detail is a text of at most 255 characters and whose odds are a number > 1, and it reads as those two values |
| ServerModels.ReadLegs | backend/models.py:87 | A leg list is accepted exactly when it is a list whose every item is an accepted leg, and it reads as those legs in order |
| ServerModels.ReadFields | backend/models.py:33-40 | The BetBase fields are accepted exactly when each field's reader accepts (type and outcome only when present); they read as the body's own values, with type single and outcome pendiente when absent, and satisfy every bound |
| ServerModels.ReadCreate | backend/models.py:85-87 | A create body is accepted exactly when its BetBase fields are, its id is unset or a text, and its legs, when present, are; it reads as those fields, that id (None when unset) and those legs ([] when absent), within every bound |
| ServerModels.CreateDefaults | backend/models.py:33-40 | A body with only the required fields gets type single, outcome pendiente, no cash-out, no id, no legs |
| ServerModels.CreateWithoutExtras | backend/models.py:85-87 | Without id and legs a create body has no id and an empty leg list |
| ServerModels.Optional | backend/models.py:90-98 | An optional field that is absent or null is None; a present one is accepted exactly when its reader accepts it, and reads as the reader's value |
| ServerModels.ReadUpdate | backend/models.py:90-98 | An update body is accepted exactly when every set field's reader accepts it; each field reads as None when unset and as its reader's value when set; the result satisfies BetUpdate's declared bounds |
| ServerModels.UnsetUpdate | backend/models.py:90-98 | Every field is optional: a body whose fields are all absent or null is accepted as the update that sets nothing |
| ServerModels.LongDetailAccepted | backend/models.py:93 | An update body whose detail is longer than 512 characters is accepted |
| ServerModels.ReadUpdateBounded | backend/models.py:90-98 | With BetBase's detail bound added, a body is accepted exactly when every set field's reader accepts it, each field reads as the body's value, and the update satisfies every bound a stored row keeps |
| ServerModels.ReadUpdateFrom | backend/models.py:90-98 | The update readers run in BetUpdate's field order; a body is accepted exactly when the detail and every other set field are accepted, each field reads as its reader's value, and the declared bounds hold |
| ServerModels.ReadLater | backend/models.py:94-98 | The fields after the detail are accepted exactly when each set one is, and read as None when unset and as their readers' values when set |
| ServerModels.BoundedAgrees | backend/models.py:90-98 | The bounded reader accepts exactly the bodies the declared one accepts whose detail fits 512 characters, with the same result |
| ServerModels.LongDetailRefused | backend/models.py:93 | The bounded reader refuses the over-long detail, naming the field |
| Crud.IndexOf | backend/crud.py:34-37 | The row found is the first with that id |
| Crud.FirstMatch | backend/crud.py:33-37 | get_bet returns a stored row with that id (and owner when given), and None only when none matches |
| Crud.FirstMatchOwner | backend/crud.py:33-37 | With unique ids, the owner filter returns the row exactly when it is the owner's |
| Crud.Table.ListBets | backend/crud.py:18-30 | Exactly the owner's rows within [start, end], as many times as stored, sorted by (event_date, created_at) descending |
| Crud.Table.GetBet | backend/crud.py:33-37 | get_bet: a matching row, or None when none matches |
| Crud.Table.SyncSince | backend/crud.py:73-78 | Exactly the owner's rows updated at or after since (all when None), sorted by updated_at ascending |
| Crud.SyncSinceBounds | backend/crud.py:76 | The since bound is inclusive, a later bound selects fewer rows, and no bound selects most |
| Crud.Dumped | backend/crud.py:53 | The update dump has one slot per BetUpdate field except legs |
| Crud.PatchFields | backend/crud.py:53-55 | The setattr loop sets exactly the fields the patch sets and keeps every other one |
| Crud.PatchedLegs | backend/crud.py:56-60 | Legs are kept without a leg list, replaced for a parlay, and cleared for a single |
| Crud.PatchedRowFacts | backend/crud.py:52-65 | The patched row keeps id, owner and created_at, has the patched fields and legs, and updated_at is now |
| Crud.PatchedRow | backend/crud.py:52-65 | The row update_bet leaves; stated field by field by Crud.PatchedRowFacts, and Crud.PatchKeepsValid proves a bounded patch keeps it valid |
| Crud.EmptyPatch | backend/crud.py:52-65 | An empty patch only moves updated_at |
| Crud.PatchKeepsValid | backend/crud.py:52-65 | A valid row patched with a bounded update is still valid |
| Crud.PatchBreaksDetailBound | backend/crud.py:53-55 | A valid row patched with an accepted over-long detail no longer meets the 512-character bound |
| Crud.NewRowFacts | backend/crud.py:40-49 | A new row has the body's fields, the caller as owner, updated_at now, legs only for a parlay with legs, and is valid when the body is |
| Crud.NewRow | backend/crud.py:40-49 | The row create_bet adds; stated by Crud.NewRowFacts |
| Crud.Table.CreateBet | backend/crud.py:40-49 | A free id adds exactly the new row at the end; a taken one is an integrity error that leaves the table unchanged |
| Crud.Table.UpdateBet | backend/crud.py:52-65 | The stored row is replaced by its patched form, in place |
| Crud.Table.DeleteBet | backend/crud.py:68-70 | The row with that id is removed, with its legs; the other rows stay in order |
| App.FloatOf | client/app.py:160-163 | float(field.value): None is TypeError, a text goes through float(); App.OddsRead and App.CheckFields state what the handlers take from it |
| App.CountLeg | client/app.py:159-167 | One pass of the preview loop: the total and the flag afterwards are those of the first i+1 fields |
| App.OddsRead | client/app.py:160-165 | A leg counts in the preview exactly when float() reads its odds and they are above 1 |
| App.CountedOddsMembers | client/app.py:158-167 | The counted odds are exactly the readable odds above 1 |
| App.ProductAboveOne | client/app.py:166 | A product of one or more odds above 1 is above 1 |
| App.RecalcParlayOdds | client/app.py:153-170 | Not a parlay: nothing shown; no counted leg: blank; else the product of the counted odds, which is above 1 |
| App.MultiplyLegOdds | client/app.py:156-167 | The loop's total is the product of the counted odds, and valid says whether any leg counted |
| App.CheckFields | client/app.py:408-436 | The form passes exactly when the detail is non-empty, stake and odds read, stake > 0, odds > 1, and a given cash-out reads; each failure is reported in the source's order (blank detail, unreadable numbers, non-positive numbers, unreadable cash-out); the checked values are the trimmed detail and the numbers read |
| App.LegOf | client/app.py:439-447 | A leg row is kept exactly when its trimmed detail is non-empty and its odds read above 1 |
| App.KeptLegsFacts | client/app.py:437-447 | Every kept leg has a detail and odds above 1, and every acceptable row is kept |
| App.CollectLegs | client/app.py:437-447 | The loop keeps exactly the acceptable legs, in order |
| App.NewBet | client/app.py:408-465 | The form's errors propagate; a parlay with fewer than 2 kept legs is refused; the bet has the checked detail, stake, odds and cash-out, the type from the selector, the kept legs (2+) for a parlay and none for a single |
| App.EditLocal | client/app.py:316-318 | The offline in-place edit of the bet with that id; stated by App.EditLocalEffect |
| App.EditLocalEffect | client/app.py:315-319 | The offline edit changes exactly the bet with that id, when there is one |
| App.RefusalChangesNothing | client/app.py:310-359 | A refusal from the server changes neither the bets nor the files |
| App.OfflineCreateReplays | client/app.py:471 | The queued create reads back and replays as the creation of the same bet |
| App.OfflineUpdateReplays | client/app.py:316 | The queued update reads back and replays as the same patch of the same id |
| App.OfflineDeleteReplays | client/app.py:351 | The queued delete reads back and replays as the deletion of the same id |
| App.Saving | client/app.py:323 | cache.save_cached_bets(state.as_list()) on the files; App.SavingKeepsQueue states it leaves the queue alone, and the handlers' contracts use it for the cache file |
| App.Queued | client/app.py:316 | enqueue_operation on the files: the operation's dict after the stored queue; App.OfflineQueue states it with Saving |
| App.SavingKeepsQueue | client/app.py:323 | Saving the cache leaves the queue as it was |
| App.OfflineQueue | client/app.py:316-323 | Queueing then saving appends exactly the operation to the queue |
| App.OfflineCreateKeepsBet | client/app.py:469-472 | Offline, the new bet is kept locally and the handler reaches the save |
| App.OfflineCreateQueues | client/app.py:471 | Offline, the create operation is appended to the queue |
| App.OfflineRemoveKeepsWork | client/app.py:349-351 | Offline, the bet is removed locally and the delete is queued |
| App.OfflineUpdateKeepsWork | client/app.py:315-319 | Offline, the local bet is edited and the update is queued |
| App.CreateSubmitted | client/app.py:466-478 | The state and files after create_bet are those the create effect states |
| App.CreateBetEffect | client/app.py:466-478 | create_bet's effect on the bets, the files and the outcome; stated by App.OfflineCreateKeepsBet, App.OfflineCreateQueues, App.OfflineCreateReplays and App.RefusalChangesNothing, and App.CreateSubmitted proves the handler equal to it |
| App.SubmitForm | client/app.py:408-478 | A refused form changes nothing; otherwise the handler does what the create effect states for the new bet |
| App.SendUpdate | client/app.py:310-323 | The state and files after update_outcome are those the update effect states |
| App.UpdateBetEffect | client/app.py:310-343 | The effect of update_outcome and update_cashout; stated by App.OfflineUpdateKeepsWork, App.OfflineUpdateReplays and App.RefusalChangesNothing, and App.SendUpdate proves the handler equal to it |
| App.CashoutText | client/app.py:328-329 | A blank text is a null cash-out; otherwise float() of the trimmed text |
| App.UpdateCashout | client/app.py:327-341 | An unreadable text raises before the request and changes nothing; otherwise the update effect of the new cash-out |
| App.RemoveBet | client/app.py:345-356 | The state and files after remove_bet are those the delete effect states |
| App.RemoveBetEffect | client/app.py:345-356 | remove_bet's effect; stated by App.OfflineRemoveKeepsWork, App.OfflineDeleteReplays and App.RefusalChangesNothing, and App.RemoveBet proves the handler equal to it |
| App.LoadRemote | client/app.py:382-389 | list_bets() without bounds is sent and its answer read through Api.BetsReply; the server's bets replace the state with last_sync now and are saved; offline nothing changes; other errors escape |
| Formatting.MonthTable | client/utils/formatting.py:11-24 | Twelve distinct names without spaces, Enero first and Diciembre last |
| Formatting.SwapSeparators | client/utils/formatting.py:30 | The replace chain swaps ',' and '.' position by position |
| Formatting.FormatCurrency | client/utils/formatting.py:27-30 | "$ " followed by the text with its separators swapped |
| Formatting.SwapSeparatorsInvolution | client/utils/formatting.py:30 | On a text without spaces, swapping twice gives the text back |
| Formatting.CurrencyExample | client/utils/formatting.py:27-30 | Example, one input of FormatCurrency: "1,234.50" becomes "$ 1.234,50" |
| Formatting.FormatFullDate | client/utils/formatting.py:33-34 | The text splits on spaces into the day, the month's name and the year |
| Formatting.FullDateInjective | client/utils/formatting.py:33-34 | Different dates give different texts |
| Formatting.PyIndex | client/utils/formatting.py:39 | A list index counts from the end when negative, and IndexError outside both ranges |
| Formatting.FormatMonth | client/utils/formatting.py:37-39 | A key that does not split into two pieces is ValueError; only ValueError and IndexError are raised |
| Formatting.FormatMonthOf | client/utils/formatting.py:37-39 | Month k picks name k for 1..12, wraps for -11..0, raises IndexError otherwise |
| Formatting.MonthKeyFormats | client/utils/formatting.py:37-39 | Every month key of a date formats as its month's name and its year, the year written as four zero-padded digits |
| Formatting.MonthExample | client/utils/formatting.py:37-39 | Example, one input of FormatMonthOf: "2025-09" gives "Septiembre 2025" |
| Formatting.MonthZeroWraps | client/utils/formatting.py:39 | "2025-00" gives "Diciembre 2025" by negative indexing |
| Formatting.MonthBeyondRaises | client/utils/formatting.py:39 | A month above 12 raises IndexError |
| Formatting.MonthThirteenRaises | client/utils/formatting.py:39 | Example, one instance of MonthBeyondRaises: "2025-13" raises IndexError |
| I18n.Bundle | client/i18n.py:60 | The bundle of a known locale, the default locale's otherwise |
| I18n.T | client/i18n.py:59-64 | The bundle's text for a known key, the key itself otherwise |
| Settings.TrimmedPiece | backend/settings.py:23 | A piece is kept exactly when its trimmed text is non-empty, and it is kept trimmed |
| Settings.ParseOrigins | backend/settings.py:22-24 | Never empty: ["*"] when no origin is left, the origins otherwise |
| Settings.OriginsMembers | backend/settings.py:23 | An origin is kept exactly when it is non-empty and some comma piece trims to it |
| Settings.OriginsClean | backend/settings.py:23 | No kept origin holds a comma or starts or ends with whitespace |
| Settings.TwoOrigins | backend/settings.py:22-24 | Two clean origins joined by a comma parse back as the two, in order |
| Settings.DefaultOriginsParsed | backend/settings.py:15-16 | The default text gives the two local origins, in order |
| Settings.AllowedOrigins | backend/settings.py:14-16 | The parsed text of the variable when it is set (even to the empty text), of the default otherwise; never empty |
| Settings.UnsetVariableDefaults | backend/settings.py:14-16 | With the variable unset, exactly the two local origins are allowed |
| Settings.BlankVariableAllowsAll | backend/settings.py:14-16 | A variable set to a text whose every comma piece is blank allows every origin |
| Settings.EmptyVariableAllowsAll | backend/settings.py:14-16 | A variable set to the empty text allows every origin, not the defaults |
| PyText.Strip | client/app.py:409 | str.strip removes exactly the leading and trailing whitespace |
| PyText.SplitJoin | backend/settings.py:23 | Splitting a join of pieces without the separator gives the pieces back |
| PyText.ParseIntNatText | client/utils/formatting.py:39 | int() reads a decimal numeral back as its value |
| PyText.ParseInt | client/utils/formatting.py:39 | int() of an ASCII decimal text with optional sign and surrounding whitespace: only ValueError on failure; PyText.ParseIntNatText proves a numeral reads back as its value |
| PyText.ParseFloat | client/app.py:161 | float() of a text fails only with ValueError |
| Wrappers.TryMapFirstError | client/models.py:54 | A comprehension raises exactly when some item raises, and the error is the first failing item's |

## Left out

- Floating point is modelled as real numbers. `f"{value:,.2f}"` and `f"{total:.2f}"` are not modelled: FormatCurrency takes the already formatted text, and the odds preview is the exact product. NaN and infinity are not modelled.
- AppStateModule.MonthKey: writes strftime's %Y as four zero-padded digits, as CPython builds whose strftime pads the year do. On glibc builds without the fix for bpo-13305, Python 3.10 among them, years below 1000 are not padded: the key of 0005-03-01 is "5-03", format_month shows "Marzo 5" rather than "Marzo 0005", and months() orders such keys differently as text ("999-05" sorts above "2025-01"). The model, and so Formatting.MonthKeyFormats and AppStateModule.MonthKeyIsIsoPrefix, covers only the padding strftime.
- Ledger.DateFromIso: follows date.fromisoformat of Python 3.10 and earlier, which takes only YYYY-MM-DD. Python 3.11 and later also take forms such as 20250101 and ISO week dates; the model refuses them, because none of the modelled files fixes a Python version.
- PyText.ParseInt: reads only ASCII digits with an optional sign and surrounding whitespace. CPython's int() also accepts single underscores between digits ("0_9") and non-ASCII Unicode decimal digits ("٠٩"); the model refuses both with ValueError, so format_month of "2025-0_9" raises in the model where the source shows September. format_month only receives strftime keys, which hold neither.
- PyText.ParseFloat reads only decimal text with an optional sign, point and exponent. It does not model "inf", "nan", underscores or hexadecimal floats.
- Timestamps are natural numbers whose text is their numeral. datetime.isoformat and fromisoformat and time zones are not modelled, and neither is the "Z" replacement of `_parse_datetime`.
- Ledger.ParseDatetime: stated only for a value that is not a text and for the model's own timestamp text, because the timestamp text stands in for datetime.isoformat.
- Ledger.ParseDate: only the `str` branch of `_parse_date` is modelled, because JSON values are never `date` objects.
- `str()` of a value that is not text (a number as an id, for example) is the NotModelled failure.
- A well-formed JSON document in a cache or queue file that is not an array is read as the empty list rather than iterated. json.dumps and json.loads are the identity on the JSON value.
- HTTP transport is a parameter: the session, requests exceptions, timeouts and actual status codes come from the `Transport` value.
- The flet widgets, toasts, colours, `refresh_*` calls and `reset_form` are not modelled. Only the values the handlers read from fields are modelled.
- The parlay selector is a boolean, and each leg row is its two field values.
- The Python handler edits the Bet object in place. The model upserts the edited value instead, because nothing else holds a reference to it.
- Users, authentication, passwords and JWT settings are not modelled. backend/models.py in this revision declares neither a `User` model nor a `Bet.user_id` column, yet backend/crud.py imports `User` and filters on `Bet.user_id` (backend/crud.py:9, backend/crud.py:24). The model's `Row.owner` stands for that column, which the given models file lacks, as a plain text field. The auth endpoints of the API client (register, login, fetch_profile) are left out for the same reason.
- SQL ordering among equal keys follows the table's insertion order. The database may order ties differently.
- The backend's UUID ids are texts. A fresh id is a parameter (`freshId`), and so is each leg row's uuid4.
- Pydantic's type coercions (a numeric text for a float, for example) are not modelled: the server readers accept only JSON values of the declared type. Its error reports are reduced to the first failing field.
- The `**kwargs` formatting of `t()` is not modelled: I18n.T is the lookup without placeholders.
- Of the backend settings, only `allowed_origins` is modelled. The database URL, the JWT fields and `lru_cache` are not.
- Sync.FlushPending is proved against any replayer, not only Sync.Client. The connection to the concrete client is the separate lemmas ClientCreate, ClientUpdate and ClientDelete.
- Sync.RemainingIsSuffix and Sync.FlushInterrupted assume that every stored queue item is exactly the to_dict() of the operation from_dict reads from it, and that no item occurs twice. The queue file is outside the program's control. An item without created_at or payload, or with extra keys, differs from the to_dict() of what it reads as, so after an API error `item not in applied` keeps it in the queue although it was applied, and the next flush replays it. With duplicate items, `item not in applied` also drops a later copy of an applied item. Sync.EnqueueKeepsCanonical and Sync.SuffixKeepsCanonical prove that the first assumption survives enqueue_operation and the interrupted rewrite. Distinctness cannot be proved: two equal operations queued at the same clock reading give equal items.
- I18n.UnknownLocaleFallsBack, I18n.MissingKeyEchoed and I18n.NetLabel are direct consequences of the table lookup.

## Findings

| source | as written | input that shows it | evidently intended | confidence | as-written member | corrected member |
|---|---|---|---|---|---|---|
| backend/models.py:93 | `BetUpdate.detail` is `Optional[str]` without the `max_length=512` that `BetBase.detail` declares, so a PATCH may store a detail no create could | `PATCH /bets/{id}` with body `{"detail": <513 characters>}` on a valid row | an update holds the detail to the same 512 characters as a create, so every stored row keeps BetBase's bounds | not executed | ServerModels.LongDetailAccepted | ServerModels.ReadUpdateBounded |

The as-written half has two parts. ServerModels.LongDetailAccepted shows the body is accepted. Crud.PatchBreaksDetailBound shows the patched row then violates the bound.

The corrected half is ServerModels.ReadUpdateBounded, which refuses that body (ServerModels.LongDetailRefused). ServerModels.BoundedAgrees shows it accepts exactly the bounded bodies the unbounded reader accepts. Crud.PatchKeepsValid proves that any update it accepts keeps a valid row valid.
