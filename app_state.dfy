/** The client's in-memory ledger (client/state.py): the dict of bets keyed by
    id, its sorted and filtered views, and the summary fold over a list of
    bets. */
module AppStateModule {
  import opened Wrappers
  import opened PyText
  import opened Sorting
  import opened Ledger

  // ---------------------------------------------------------------------
  // Summary metrics

  /** SummaryMetrics: totals and outcome counts over a list of bets. */
  datatype SummaryMetrics = SummaryMetrics(
    stakeTotal: real,
    returnTotal: real,
    net: real,
    wins: nat,
    losses: nat,
    pending: nat,
    count: nat)

  const NoMetrics := SummaryMetrics(0.0, 0.0, 0.0, 0, 0, 0, 0)

  /** yield_percent: net as a percentage of the total stake, 0 when nothing
      was staked. */
  function YieldPercent(m: SummaryMetrics): (r: real)
    ensures m.stakeTotal <= 0.0 ==> r == 0.0
    ensures m.stakeTotal > 0.0 ==> r * m.stakeTotal == m.net * 100.0
  {
    if m.stakeTotal <= 0.0 then 0.0 else (m.net / m.stakeTotal) * 100.0
  }

  function Stake(b: Bet): real { b.stake }

  predicate IsWin(b: Bet) { b.outcome == "acertada" }

  predicate IsLoss(b: Bet) { b.outcome == "fallida" }

  /** Every outcome other than won and lost counts as pending. */
  predicate IsPending(b: Bet) { !IsWin(b) && !IsLoss(b) }

  /** The sum of f over the bets. */
  function SumOf(bets: seq<Bet>, f: Bet -> real): real {
    if bets == [] then 0.0 else SumOf(bets[..|bets| - 1], f) + f(bets[|bets| - 1])
  }

  /** How many of the bets satisfy p. */
  function CountOf(bets: seq<Bet>, p: Bet -> bool): (n: nat)
    ensures n <= |bets|
  {
    if bets == [] then 0 else CountOf(bets[..|bets| - 1], p) + (if p(bets[|bets| - 1]) then 1 else 0)
  }

  /** The metrics of a list of bets, stated as sums and counts. */
  function MetricsOf(bets: seq<Bet>): SummaryMetrics {
    SummaryMetrics(SumOf(bets, Stake), SumOf(bets, GrossReturn), SumOf(bets, Net),
                   CountOf(bets, IsWin), CountOf(bets, IsLoss), CountOf(bets, IsPending), |bets|)
  }

  /** Every bet is counted exactly once among wins, losses and pending, and
      the summed net is the total return minus the total stake. An empty list
      gives all-zero metrics and a zero yield. */
  lemma {:induction false} MetricsConsistent(bets: seq<Bet>)
    ensures MetricsOf(bets).wins + MetricsOf(bets).losses + MetricsOf(bets).pending == MetricsOf(bets).count
    ensures MetricsOf(bets).net == MetricsOf(bets).returnTotal - MetricsOf(bets).stakeTotal
    ensures bets == [] ==> MetricsOf(bets) == NoMetrics && YieldPercent(MetricsOf(bets)) == 0.0
  {
    if bets != [] {
      MetricsConsistent(bets[..|bets| - 1]);
    }
  }

  /** The metrics with one more bet counted: the body of the loop in
      compute_metrics. */
  function AddBet(m: SummaryMetrics, b: Bet): SummaryMetrics {
    SummaryMetrics(m.stakeTotal + b.stake, m.returnTotal + GrossReturn(b), m.net + Net(b),
                   m.wins + (if IsWin(b) then 1 else 0), m.losses + (if IsLoss(b) then 1 else 0),
                   m.pending + (if IsPending(b) then 1 else 0), m.count + 1)
  }

  lemma MetricsSnoc(s: seq<Bet>, x: Bet)
    ensures MetricsOf(s + [x]) == AddBet(MetricsOf(s), x)
  {
    assert (s + [x])[..|s|] == s;
  }

  /** A bet anywhere in the list adds to the metrics as if it came last. */
  lemma {:induction false} MetricsInsert(a: seq<Bet>, x: Bet, c: seq<Bet>)
    ensures MetricsOf(a + [x] + c) == AddBet(MetricsOf(a + c), x)
  {
    if c == [] {
      assert a + [x] + c == a + [x];
      assert a + c == a;
      MetricsSnoc(a, x);
    } else {
      var c' := c[..|c| - 1];
      var y := c[|c| - 1];
      assert a + [x] + c == (a + [x] + c') + [y];
      assert a + c == (a + c') + [y];
      MetricsSnoc(a + [x] + c', y);
      MetricsSnoc(a + c', y);
      MetricsInsert(a, x, c');
    }
  }

  lemma SplitMultiset<T>(p: seq<T>, x: T, q: seq<T>)
    ensures multiset(p + [x] + q) == multiset(p + q) + multiset{x}
  {
    assert p + [x] + q == p + ([x] + q);
  }

  lemma CancelOne<T>(m: multiset<T>, n: multiset<T>, x: T)
    requires m + multiset{x} == n + multiset{x}
    ensures m == n
  {
    assert forall y :: m[y] == (m + multiset{x})[y] - multiset{x}[y];
  }

  /** Sums and counts do not depend on the order of the bets. */
  lemma {:induction false} MetricsPermutation(s: seq<Bet>, t: seq<Bet>)
    requires multiset(s) == multiset(t)
    ensures MetricsOf(s) == MetricsOf(t)
  {
    if s == [] {
      assert |t| == |multiset(t)|;
    } else {
      var x := s[|s| - 1];
      var init := s[..|s| - 1];
      assert s == init + [x];
      assert x in multiset(t);
      var k :| 0 <= k < |t| && t[k] == x;
      var a, c := t[..k], t[k + 1..];
      assert t == a + [x] + c;
      assert multiset(a + c) == multiset(init) by {
        SplitMultiset(a, x, c);
        assert multiset(s) == multiset(init) + multiset{x};
        CancelOne(multiset(a + c), multiset(init), x);
      }
      MetricsPermutation(init, a + c);
      MetricsSnoc(init, x);
      MetricsInsert(a, x, c);
    }
  }

  // ---------------------------------------------------------------------
  // The dict of bets, as its entries in insertion order

  function Ids(es: seq<Bet>): (r: seq<string>)
    ensures |r| == |es|
    ensures forall i :: 0 <= i < |es| ==> r[i] == es[i].id
  {
    seq(|es|, i requires 0 <= i < |es| => es[i].id)
  }

  /** A dict holds each key once. */
  ghost predicate UniqueIds(es: seq<Bet>) {
    forall i, j :: 0 <= i < j < |es| ==> es[i].id != es[j].id
  }

  /** The dict the entries stand for; of two entries with one id the later
      one would win. */
  function ToMap(es: seq<Bet>): map<string, Bet> {
    if es == [] then map[] else ToMap(es[..|es| - 1])[es[|es| - 1].id := es[|es| - 1]]
  }

  /** The keys of the dict are the ids of its entries. */
  lemma {:induction false} ToMapKeys(es: seq<Bet>)
    ensures forall id :: id in ToMap(es) <==> id in Ids(es)
  {
    if es != [] {
      var init := es[..|es| - 1];
      assert Ids(es) == Ids(init) + [es[|es| - 1].id];
      ToMapKeys(init);
    }
  }

  /** In a dict, every entry is the value of its own key. */
  lemma {:induction false} ToMapValues(es: seq<Bet>)
    requires UniqueIds(es)
    ensures forall i :: 0 <= i < |es| ==> es[i].id in ToMap(es) && ToMap(es)[es[i].id] == es[i]
  {
    if es != [] {
      ToMapValues(es[..|es| - 1]);
    }
  }

  /** Each value of the dict is stored under its own id. */
  lemma {:induction false} ToMapKeyIsId(es: seq<Bet>)
    ensures forall id :: id in ToMap(es) ==> ToMap(es)[id].id == id
  {
    if es != [] {
      ToMapKeyIsId(es[..|es| - 1]);
    }
  }

  /** The position of the entry with this id, if there is one. */
  function IndexOfId(es: seq<Bet>, id: string): (r: Option<nat>)
    ensures r.Some? ==> r.value < |es| && es[r.value].id == id
    ensures r.None? <==> id !in Ids(es)
  {
    if es == [] then None
    else if es[0].id == id then Some(0)
    else
      match IndexOfId(es[1..], id)
      case None =>
        assert Ids(es) == [es[0].id] + Ids(es[1..]);
        None
      case Some(i) => Some(i + 1)
  }

  /** bets[bet.id] = bet: an existing key keeps its place and gets the new
      value; a new key goes last. */
  function UpsertEntries(es: seq<Bet>, b: Bet): seq<Bet> {
    match IndexOfId(es, b.id)
    case Some(i) => es[i := b]
    case None => es + [b]
  }

  /** Storing under a key already present replaces its value in place:
      the ids, and so their order and uniqueness, stay as they were. */
  lemma UpsertExistingIds(es: seq<Bet>, b: Bet, i: nat)
    requires i < |es| && es[i].id == b.id
    ensures Ids(es[i := b]) == Ids(es)
    ensures UniqueIds(es) ==> UniqueIds(es[i := b])
  {
    assert forall k :: 0 <= k < |es| ==> es[i := b][k].id == es[k].id;
  }

  /** ... and the dict maps that key to the new value. */
  lemma {:induction false} UpsertExistingMap(es: seq<Bet>, b: Bet, i: nat)
    requires UniqueIds(es) && i < |es| && es[i].id == b.id
    ensures ToMap(es[i := b]) == ToMap(es)[b.id := b]
  {
    var init := es[..|es| - 1];
    var r := es[i := b];
    if i == |es| - 1 {
      assert r[..|r| - 1] == init;
    } else {
      assert r[..|r| - 1] == init[i := b];
      assert es[|es| - 1].id != b.id;
      UpsertExistingMap(init, b, i);
    }
  }

  /** Storing under a new key adds it last. */
  lemma UpsertNew(es: seq<Bet>, b: Bet)
    requires b.id !in Ids(es)
    ensures Ids(es + [b]) == Ids(es) + [b.id]
    ensures ToMap(es + [b]) == ToMap(es)[b.id := b]
    ensures UniqueIds(es) ==> UniqueIds(es + [b])
  {
    assert (es + [b])[..|es|] == es;
    assert Ids(es + [b]) == Ids(es) + [b.id];
    forall i | 0 <= i < |es| ensures es[i].id != b.id {
      assert Ids(es)[i] == es[i].id;
    }
  }

  /** upsert overwrites unconditionally (no comparison of updated_at): the
      new dict is the old one with bet.id mapped to the bet, every other key
      and value unchanged, and the key order is kept. */
  lemma UpsertEffect(es: seq<Bet>, b: Bet)
    requires UniqueIds(es)
    ensures UniqueIds(UpsertEntries(es, b))
    ensures ToMap(UpsertEntries(es, b)) == ToMap(es)[b.id := b]
    ensures Ids(UpsertEntries(es, b)) == if b.id in Ids(es) then Ids(es) else Ids(es) + [b.id]
  {
    match IndexOfId(es, b.id)
    case Some(i) =>
      UpsertExistingIds(es, b, i);
      UpsertExistingMap(es, b, i);
    case None => UpsertNew(es, b);
  }

  /** bets.pop(id, None): the entry with that id goes, the others keep
      their order. */
  function RemoveEntries(es: seq<Bet>, id: string): (r: seq<Bet>)
    ensures forall b :: b in r <==> b in es && b.id != id
  {
    if es == [] then []
    else
      var init := es[..|es| - 1];
      assert es == init + [es[|es| - 1]];
      RemoveEntries(init, id) + (if es[|es| - 1].id == id then [] else [es[|es| - 1]])
  }

  /** remove keeps the remaining ids unique ... */
  lemma {:induction false} RemoveUnique(es: seq<Bet>, id: string)
    requires UniqueIds(es)
    ensures UniqueIds(RemoveEntries(es, id))
  {
    if es != [] {
      var init := es[..|es| - 1];
      var last := es[|es| - 1];
      RemoveUnique(init, id);
      if last.id != id {
        var rest := RemoveEntries(init, id);
        assert RemoveEntries(es, id) == rest + [last];
        forall k | 0 <= k < |rest| ensures rest[k].id != last.id {
          assert rest[k] in init;
        }
      }
    }
  }

  lemma RemoveAfterStore<K, V>(m: map<K, V>, k: K, v: V, id: K)
    ensures k != id ==> m[k := v] - {id} == (m - {id})[k := v]
    ensures k == id ==> m[k := v] - {id} == m - {id}
  {
  }

  /** ... and deletes only that key; every other key keeps its value. */
  lemma {:induction false} RemoveMap(es: seq<Bet>, id: string)
    ensures ToMap(RemoveEntries(es, id)) == ToMap(es) - {id}
  {
    if es != [] {
      var init := es[..|es| - 1];
      var last := es[|es| - 1];
      var rest := RemoveEntries(init, id);
      RemoveMap(init, id);
      assert ToMap(es) == ToMap(init)[last.id := last];
      RemoveAfterStore(ToMap(init), last.id, last, id);
      if last.id != id {
        assert RemoveEntries(es, id) == rest + [last];
        assert (rest + [last])[..|rest|] == rest;
        assert ToMap(rest + [last]) == ToMap(rest)[last.id := last];
      } else {
        assert RemoveEntries(es, id) == rest;
      }
    }
  }

  /** remove deletes only that key; every other key and value is
      unchanged. */
  lemma RemoveEffect(es: seq<Bet>, id: string)
    requires UniqueIds(es)
    ensures UniqueIds(RemoveEntries(es, id))
    ensures ToMap(RemoveEntries(es, id)) == ToMap(es) - {id}
  {
    RemoveUnique(es, id);
    RemoveMap(es, id);
  }

  /** Removing an absent id changes nothing, so remove is idempotent. */
  lemma {:induction false} RemoveAbsent(es: seq<Bet>, id: string)
    requires forall b :: b in es ==> b.id != id
    ensures RemoveEntries(es, id) == es
  {
    if es != [] {
      var init := es[..|es| - 1];
      assert es == init + [es[|es| - 1]];
      RemoveAbsent(init, id);
    }
  }

  lemma RemoveIdempotent(es: seq<Bet>, id: string)
    ensures RemoveEntries(RemoveEntries(es, id), id) == RemoveEntries(es, id)
  {
    RemoveAbsent(RemoveEntries(es, id), id);
  }

  /** {bet.id: bet for bet in bets}: keys in order of first occurrence, each
      with its last value. */
  function FromBets(bets: seq<Bet>): seq<Bet> {
    if bets == [] then [] else UpsertEntries(FromBets(bets[..|bets| - 1]), bets[|bets| - 1])
  }

  /** replace_all keeps exactly the ids of the given bets, once each, in
      order of first occurrence, and the dict it builds is the one a later
      duplicate wins in. */
  lemma {:induction false} FromBetsEffect(bets: seq<Bet>)
    ensures UniqueIds(FromBets(bets))
    ensures ToMap(FromBets(bets)) == ToMap(bets)
    ensures Ids(FromBets(bets)) == Dedup(Ids(bets))
  {
    if bets != [] {
      var init := bets[..|bets| - 1];
      var last := bets[|bets| - 1];
      var prev := FromBets(init);
      assert FromBets(bets) == UpsertEntries(prev, last);
      FromBetsEffect(init);
      UpsertEffect(prev, last);
      IdsSnoc(bets);
      DedupSnoc(Ids(init), last.id);
    }
  }

  /** The ids of a list are the ids of all but its last entry, then that one's. */
  lemma IdsSnoc(es: seq<Bet>)
    requires es != []
    ensures Ids(es) == Ids(es[..|es| - 1]) + [es[|es| - 1].id]
  {
  }

  /** In the dict built from a list, an id maps to its last occurrence. */
  lemma {:induction false} LastDuplicateWins(bets: seq<Bet>, i: nat)
    requires i < |bets|
    requires forall j :: i < j < |bets| ==> bets[j].id != bets[i].id
    ensures bets[i].id in ToMap(bets) && ToMap(bets)[bets[i].id] == bets[i]
  {
    if i < |bets| - 1 {
      LastDuplicateWins(bets[..|bets| - 1], i);
    }
  }

  // ---------------------------------------------------------------------
  // Sort keys

  /** (event_date, created_at) compared lexicographically. */
  predicate DateThenCreatedLe(a: Bet, b: Bet) {
    || (DateLe(a.eventDate, b.eventDate) && a.eventDate != b.eventDate)
    || (a.eventDate == b.eventDate && a.createdAt <= b.createdAt)
  }

  /** The order of sorted(..., reverse=True) on (event_date, created_at):
      a comes before b when a's key is the larger. */
  predicate NewestFirst(a: Bet, b: Bet) {
    DateThenCreatedLe(b, a)
  }

  /** The order of sorted(..., key=created_at, reverse=True). */
  predicate CreatedNewestFirst(a: Bet, b: Bet) {
    b.createdAt <= a.createdAt
  }

  /** The order of sorted(texts, reverse=True). */
  predicate TextDescending(a: string, b: string) {
    StrLe(b, a)
  }

  predicate TextStrictlyDescending(a: string, b: string) {
    StrLt(b, a)
  }

  /** A sequence sorted by TextDescending without repetitions is strictly
      descending. */
  lemma DistinctSortedIsStrict(s: seq<string>)
    requires SortedBy(s, TextDescending) && Distinct(s)
    ensures StrictlySortedBy(s, TextStrictlyDescending)
  {
  }

  lemma NewestFirstTotal()
    ensures TotalPreorder(NewestFirst)
  {
  }

  lemma CreatedNewestFirstTotal()
    ensures TotalPreorder(CreatedNewestFirst)
  {
  }

  lemma TextDescendingTotal()
    ensures TotalPreorder(TextDescending)
  {
    forall a: string, b: string ensures TextDescending(a, b) || TextDescending(b, a) {
      StrLtTrichotomy(a, b);
    }
    forall a: string, b: string, c: string | TextDescending(a, b) && TextDescending(b, c)
      ensures TextDescending(a, c)
    {
      if a != b && b != c { StrLtTransitive(c, b, a); }
    }
  }

  /** strftime("%Y-%m"). */
  function MonthKey(d: CalendarDate): (k: string)
    ensures |k| == 7 && k[4] == '-'
  {
    assert Pow10(4) == 10000 && Pow10(2) == 100;
    PaddedWidth(d.year, 4);
    PaddedWidth(d.month, 2);
    Padded(d.year, 4) + "-" + Padded(d.month, 2)
  }

  /** The month key is the first seven characters of the ISO date. */
  lemma MonthKeyIsIsoPrefix(d: CalendarDate)
    ensures MonthKey(d) == IsoDate(d)[..7]
  {
  }

  /** The bets of one event date, in their order. */
  function OnDate(es: seq<Bet>, target: Date): (r: seq<Bet>)
    ensures forall b :: b in r <==> b in es && b.eventDate == target
    ensures multiset(r) <= multiset(es)
  {
    Filter(es, (b: Bet) => b.eventDate == target)
  }

  /** The bets whose year-month is the key, in their order. */
  function InMonth(es: seq<Bet>, monthKey: string): (r: seq<Bet>)
    ensures forall b :: b in r <==> b in es && MonthKey(b.eventDate) == monthKey
    ensures multiset(r) <= multiset(es)
  {
    Filter(es, (b: Bet) => MonthKey(b.eventDate) == monthKey)
  }

  function MonthKeys(es: seq<Bet>): (r: seq<string>)
    ensures |r| == |es|
    ensures forall i :: 0 <= i < |es| ==> r[i] == MonthKey(es[i].eventDate)
  {
    seq(|es|, i requires 0 <= i < |es| => MonthKey(es[i].eventDate))
  }

  // ---------------------------------------------------------------------
  // The state object

  class AppState {
    /** The dict self.bets, as its entries in insertion order. */
    var entries: seq<Bet>
    var lastSync: Option<Timestamp>

    ghost predicate Valid()
      reads this
    {
      UniqueIds(entries)
    }

    /** The dict of bets by id. */
    function Bets(): map<string, Bet>
      reads this
    {
      ToMap(entries)
    }

    /** AppState(bets): each bet stored under its id in turn, no last sync. */
    constructor (bets: seq<Bet>)
      ensures Valid()
      ensures entries == FromBets(bets) && Bets() == ToMap(bets)
      ensures lastSync == None
    {
      var es: seq<Bet> := [];
      var i := 0;
      while i < |bets|
        invariant 0 <= i <= |bets|
        invariant es == FromBets(bets[..i])
      {
        assert bets[..i + 1][..i] == bets[..i];
        es := UpsertEntries(es, bets[i]);
        i := i + 1;
      }
      assert bets[..i] == bets;
      FromBetsEffect(bets);
      entries := es;
      lastSync := None;
    }

    /** upsert: bets[bet.id] = bet. */
    method Upsert(b: Bet)
      requires Valid()
      modifies this
      ensures Valid()
      ensures entries == UpsertEntries(old(entries), b)
      ensures Bets() == old(Bets())[b.id := b]
      ensures lastSync == old(lastSync)
    {
      UpsertEffect(entries, b);
      entries := UpsertEntries(entries, b);
    }

    /** remove: bets.pop(id, None). */
    method Remove(id: string)
      requires Valid()
      modifies this
      ensures Valid()
      ensures entries == RemoveEntries(old(entries), id)
      ensures Bets() == old(Bets()) - {id}
      ensures lastSync == old(lastSync)
    {
      RemoveEffect(entries, id);
      entries := RemoveEntries(entries, id);
    }

    /** replace_all: a new dict from the bets, and the given last sync. */
    method ReplaceAll(bets: seq<Bet>, sync: Option<Timestamp>)
      modifies this
      ensures Valid()
      ensures entries == FromBets(bets) && Bets() == ToMap(bets)
      ensures lastSync == sync
    {
      FromBetsEffect(bets);
      entries := FromBets(bets);
      lastSync := sync;
    }

    /** as_list: every bet once, newest (event date, then creation time)
        first. */
    function AsList(): (r: seq<Bet>)
      reads this
      ensures multiset(r) == multiset(entries)
      ensures SortedBy(r, NewestFirst)
    {
      NewestFirstTotal();
      SortBySorted(entries, NewestFirst);
      SortBy(entries, NewestFirst)
    }

    /** by_date: exactly the bets of that date, most recently created
        first. */
    function ByDate(target: Date): (r: seq<Bet>)
      reads this
      ensures forall b :: b in r <==> b in entries && b.eventDate == target
      ensures multiset(r) == multiset(OnDate(entries, target))
      ensures SortedBy(r, CreatedNewestFirst)
    {
      var selected := OnDate(entries, target);
      CreatedNewestFirstTotal();
      SortBySorted(selected, CreatedNewestFirst);
      var r := SortBy(selected, CreatedNewestFirst);
      assert forall b :: b in r <==> b in multiset(selected);
      r
    }

    /** by_month: exactly the bets whose year-month is the key, newest first
        by (event date, creation time). */
    function ByMonth(monthKey: string): (r: seq<Bet>)
      reads this
      ensures forall b :: b in r <==> b in entries && MonthKey(b.eventDate) == monthKey
      ensures multiset(r) == multiset(InMonth(entries, monthKey))
      ensures SortedBy(r, NewestFirst)
    {
      var selected := InMonth(entries, monthKey);
      NewestFirstTotal();
      SortBySorted(selected, NewestFirst);
      var r := SortBy(selected, NewestFirst);
      assert forall b :: b in r <==> b in multiset(selected);
      r
    }

    /** months: each year-month of a present bet exactly once, in strictly
        descending order. */
    function Months(): (r: seq<string>)
      reads this
      ensures forall k :: k in r <==> k in MonthKeys(entries)
      ensures StrictlySortedBy(r, TextStrictlyDescending)
    {
      var keys := Dedup(MonthKeys(entries));
      DedupDistinct(MonthKeys(entries));
      TextDescendingTotal();
      SortBySorted(keys, TextDescending);
      var r := SortBy(keys, TextDescending);
      DistinctPermutation(keys, r);
      DistinctSortedIsStrict(r);
      assert forall k :: k in r <==> k in multiset(keys);
      r
    }

    /** compute_metrics: one pass over the bets, adding up stakes, returns
        and nets and counting outcomes. */
    method ComputeMetrics(bets: seq<Bet>) returns (m: SummaryMetrics)
      ensures m == MetricsOf(bets)
    {
      m := NoMetrics;
      var i := 0;
      while i < |bets|
        invariant 0 <= i <= |bets|
        invariant m == MetricsOf(bets[..i])
      {
        var bet := bets[i];
        assert bets[..i + 1][..i] == bets[..i];
        MetricsSnoc(bets[..i], bet);
        var ret := GrossReturn(bet);
        var net := ret - bet.stake;
        m := m.(count := m.count + 1, stakeTotal := m.stakeTotal + bet.stake,
                returnTotal := m.returnTotal + ret, net := m.net + net);
        if bet.outcome == "acertada" {
          m := m.(wins := m.wins + 1);
        } else if bet.outcome == "fallida" {
          m := m.(losses := m.losses + 1);
        } else {
          m := m.(pending := m.pending + 1);
        }
        i := i + 1;
      }
      assert bets[..i] == bets;
    }

    /** daily_metrics: the metrics of the bets of that date. */
    method DailyMetrics(target: Date) returns (m: SummaryMetrics)
      ensures m == MetricsOf(ByDate(target))
      ensures m == MetricsOf(OnDate(entries, target))
    {
      m := ComputeMetrics(ByDate(target));
      MetricsPermutation(ByDate(target), OnDate(entries, target));
    }

    /** month_metrics: the metrics of the bets of that month. */
    method MonthMetrics(monthKey: string) returns (m: SummaryMetrics)
      ensures m == MetricsOf(ByMonth(monthKey))
      ensures m == MetricsOf(InMonth(entries, monthKey))
    {
      m := ComputeMetrics(ByMonth(monthKey));
      MetricsPermutation(ByMonth(monthKey), InMonth(entries, monthKey));
    }
  }

  /** Months is the only strictly descending arrangement of the month keys:
      the result does not depend on the iteration order of the set. */
  lemma MonthsCanonical(s: AppState, other: seq<string>)
    requires forall k :: k in other <==> k in MonthKeys(s.entries)
    requires StrictlySortedBy(other, TextStrictlyDescending)
    ensures other == s.Months()
  {
    forall a: string ensures !TextStrictlyDescending(a, a) { StrLtIrreflexive(a); }
    forall a: string, b: string | TextStrictlyDescending(a, b) ensures !TextStrictlyDescending(b, a) {
      StrLtAsymmetric(b, a);
    }
    StrictlySortedUnique(other, s.Months(), TextStrictlyDescending);
  }
}
