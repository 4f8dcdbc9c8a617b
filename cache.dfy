/** The client's on-disk cache: the list of bets and the queue of pending
    operations, each a JSON file in the cache directory. The directory is a
    map from file name to contents; a file that is there holds either a
    JSON list or text that is not JSON. */
module Cache {
  import opened Wrappers
  import opened Json
  import opened Ledger

  /** The contents of a file: a JSON list, or text json.loads rejects. */
  datatype FileText = Doc(items: seq<Json>) | Malformed

  /** The names the configuration gives the two files. */
  const CacheFile: string := "bets_cache.json"
  const QueueFile: string := "pending_ops.json"

  /** What json.loads of a file yields for the loaders: [] for a missing
      file or text that is not JSON, the list otherwise. */
  function ReadList(files: map<string, FileText>, name: string): (r: seq<Json>)
    ensures name !in files ==> r == []
    ensures name in files && files[name] == Malformed ==> r == []
    ensures name in files && files[name].Doc? ==> r == files[name].items
  {
    if name in files && files[name].Doc? then files[name].items else []
  }

  class FileStore {
    var files: map<string, FileText>

    constructor (files: map<string, FileText>)
      ensures this.files == files
    {
      this.files := files;
    }

    /** load_pending_queue. */
    function LoadPendingQueue(): (r: seq<Json>)
      reads this
      ensures QueueFile !in files ==> r == []
      ensures QueueFile in files && files[QueueFile] == Malformed ==> r == []
    {
      ReadList(files, QueueFile)
    }

    /** load_cached_bets: every cached dict read as a bet, in order; a dict
        from_dict cannot read raises. */
    function LoadCachedBets(now: Timestamp): (r: Result<seq<Bet>, Failure>)
      reads this
      ensures CacheFile !in files ==> r == Ok([])
      ensures CacheFile in files && files[CacheFile] == Malformed ==> r == Ok([])
    {
      TryMap(ReadList(files, CacheFile), BetReader(now))
    }

    /** save_pending_queue: the queue file is rewritten with the items; no
        other file changes. */
    method SavePendingQueue(items: seq<Json>)
      modifies this
      ensures files == old(files)[QueueFile := Doc(items)]
      ensures LoadPendingQueue() == items
    {
      files := files[QueueFile := Doc(items)];
    }

    /** save_cached_bets: the cache file is rewritten with serialize_bets;
        no other file changes. Reading it back gives the same bets, ids,
        legs and timestamps included, in the same order. */
    method SaveCachedBets(bets: seq<Bet>)
      modifies this
      ensures files == old(files)[CacheFile := Doc(SerializeBets(bets))]
      ensures forall now :: LoadCachedBets(now) == Ok(bets)
    {
      files := files[CacheFile := Doc(SerializeBets(bets))];
      forall now: Timestamp ensures LoadCachedBets(now) == Ok(bets) {
        BetsRoundTrip(bets, now);
      }
    }

    /** append_pending_op: load, append, save. The stored queue is the old
        one followed by op, so earlier entries keep their order, and
        nothing but the queue file changes. A malformed or missing queue
        file starts a new queue. */
    method AppendPendingOp(op: Json)
      modifies this
      ensures LoadPendingQueue() == old(LoadPendingQueue()) + [op]
      ensures files == old(files)[QueueFile := Doc(old(LoadPendingQueue()) + [op])]
    {
      var queue := LoadPendingQueue();
      queue := queue + [op];
      SavePendingQueue(queue);
    }
  }

  /** Saving the queue leaves the cached bets alone, and saving the bets
      leaves the queue alone: the two files are distinct. */
  lemma FilesIndependent(files: map<string, FileText>, items: seq<Json>, bets: seq<Bet>)
    ensures ReadList(files[QueueFile := Doc(items)], CacheFile) == ReadList(files, CacheFile)
    ensures ReadList(files[CacheFile := Doc(SerializeBets(bets))], QueueFile) == ReadList(files, QueueFile)
  {
    assert CacheFile != QueueFile by { assert CacheFile[0] != QueueFile[0]; }
  }
}
