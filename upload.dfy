/**
 * The uploader, `upload-databases-to-firebase.js`: every record of a tier file is
 * written as a new document of that tier's collection, in write batches of at most
 * 500 operations, and the three tiers are uploaded one after the other.
 *
 * The Firestore database is modelled by the sequence of batches committed to it so
 * far, each batch being the sequence of its writes in the order they were added.
 */
module Uploader {
  import opened Sequences
  import opened Combinations

  /** Firestore's limit on the operations of one write batch. */
  const MAX_BATCH_SIZE: nat := 500

  /** `batch.set(db.collection(collection).doc(), record)`: a new document holding `record`. */
  datatype Write = Write(collection: string, record: Record)

  /** The database, as the sequence of write batches committed to it. */
  class Database {
    var commits: seq<seq<Write>>

    constructor()
      ensures commits == []
    {
      commits := [];
    }
  }

  /** `db.batch()`: writes are collected here and reach `db` only on `Commit`. */
  class WriteBatch {
    const db: Database
    var writes: seq<Write>

    constructor(db: Database)
      ensures this.db == db && writes == []
    {
      this.db := db;
      writes := [];
    }

    method Set(collection: string, record: Record)
      modifies this
      ensures writes == old(writes) + [Write(collection, record)]
    {
      writes := writes + [Write(collection, record)];
    }

    method Commit()
      modifies db
      ensures db.commits == old(db.commits) + [writes]
    {
      db.commits := db.commits + [writes];
    }
  }

  /** The writes that put each record of `data`, in order, into `collection`. */
  function Writes(collection: string, data: seq<Record>): (ws: seq<Write>)
    ensures |ws| == |data|
    ensures forall i :: 0 <= i < |data| ==> ws[i] == Write(collection, data[i])
  {
    seq(|data|, i requires 0 <= i < |data| => Write(collection, data[i]))
  }

  /** `s` cut into consecutive batches of at most 500, none of them empty. */
  function Chunks<T>(s: seq<T>): (r: seq<seq<T>>)
    ensures Flatten(r) == s
    ensures forall i :: 0 <= i < |r| ==> 0 < |r[i]| <= MAX_BATCH_SIZE
    decreases |s|
  {
    if s == [] then []
    else if |s| <= MAX_BATCH_SIZE then
      assert Flatten([s]) == s + Flatten([]);
      [s]
    else
      var rest := Chunks(s[MAX_BATCH_SIZE..]);
      assert ([s[..MAX_BATCH_SIZE]] + rest)[1..] == rest;
      assert s == s[..MAX_BATCH_SIZE] + s[MAX_BATCH_SIZE..];
      [s[..MAX_BATCH_SIZE]] + rest
  }

  /**
   * There are ceil(|s| / 500) batches; every batch but the last is full and the last
   * holds the remainder.
   */
  lemma {:induction false} ChunksShape<T>(s: seq<T>)
    ensures |Chunks(s)| == if s == [] then 0 else (|s| - 1) / MAX_BATCH_SIZE + 1
    ensures forall i :: 0 <= i < |Chunks(s)| - 1 ==> |Chunks(s)[i]| == MAX_BATCH_SIZE
    ensures Chunks(s) != [] ==>
              |Chunks(s)[|Chunks(s)| - 1]| ==
                if |s| % MAX_BATCH_SIZE == 0 then MAX_BATCH_SIZE else |s| % MAX_BATCH_SIZE
    decreases |s|
  {
    if |s| > MAX_BATCH_SIZE {
      var rest := s[MAX_BATCH_SIZE..];
      ChunksShape(rest);
      assert Chunks(s) == [s[..MAX_BATCH_SIZE]] + Chunks(rest);
      OneBatchLess(|s|);
    }
  }

  /** The division and remainder facts behind `ChunksShape`, kept apart so the solver meets them alone. */
  lemma {:induction false} OneBatchLess(n: nat)
    requires n > MAX_BATCH_SIZE
    ensures (n - 1) / MAX_BATCH_SIZE == (n - MAX_BATCH_SIZE - 1) / MAX_BATCH_SIZE + 1
    ensures n % MAX_BATCH_SIZE == (n - MAX_BATCH_SIZE) % MAX_BATCH_SIZE
  {
  }

  /** Cutting after a whole number of full batches does not change the batches. */
  lemma {:induction false} ChunksAppend<T>(s: seq<T>, t: seq<T>)
    requires |s| % MAX_BATCH_SIZE == 0
    ensures Chunks(s + t) == Chunks(s) + Chunks(t)
    decreases |s|
  {
    if s == [] {
      assert s + t == t;
    } else if t == [] {
      assert s + t == s;
    } else {
      assert (s + t)[..MAX_BATCH_SIZE] == s[..MAX_BATCH_SIZE];
      assert (s + t)[MAX_BATCH_SIZE..] == s[MAX_BATCH_SIZE..] + t;
      ChunksAppend(s[MAX_BATCH_SIZE..], t);
      if |s| == MAX_BATCH_SIZE {
        assert s[MAX_BATCH_SIZE..] == [] && s[..MAX_BATCH_SIZE] == s;
      }
    }
  }

  /** A multiple of 500 plus 500 is a multiple of 500: the loop's step, kept apart from its heap reasoning. */
  lemma {:induction false} FullBatchAdded(n: nat, m: nat)
    requires n % MAX_BATCH_SIZE == 0 && m == n + MAX_BATCH_SIZE
    ensures m % MAX_BATCH_SIZE == 0
  {
  }

  /**
   * Committing the batch `s[start..end]` after the full batches of `s[..start]` gives
   * the batches of `s[..end]`.
   */
  lemma {:induction false} NextBatch<T>(committed: seq<seq<T>>, s: seq<T>, start: nat, end: nat)
    requires start % MAX_BATCH_SIZE == 0
    requires start < end <= |s| && end - start <= MAX_BATCH_SIZE
    ensures committed + Chunks(s[..start]) + [s[start..end]] == committed + Chunks(s[..end])
  {
    ChunksAppend(s[..start], s[start..end]);
    assert s[..start] + s[start..end] == s[..end];
    assert committed + Chunks(s[..start]) + [s[start..end]] == committed + (Chunks(s[..start]) + [s[start..end]]);
  }

  /** Growing a slice by its next element, the step by which the current batch follows the writes. */
  lemma {:induction false} SliceExtend<T>(s: seq<T>, start: nat, i: nat)
    requires start <= i < |s|
    ensures s[start..i] + [s[i]] == s[start..i + 1]
  {
  }

  /**
   * `uploadCombinations`: adds a write per record to the current batch, commits the
   * batch and starts a new one whenever it holds 500 writes, commits what is left at
   * the end, and returns the number of records written.
   */
  method UploadCombinations(db: Database, collectionName: string, data: seq<Record>) returns (totalCount: nat)
    modifies db
    ensures totalCount == |data|
    ensures db.commits == old(db.commits) + Chunks(Writes(collectionName, data))
  {
    ghost var committed := db.commits;
    ghost var all := Writes(collectionName, data);
    ghost var start: nat := 0;
    var count := 0;
    totalCount := 0;
    var batch := new WriteBatch(db);
    for i := 0 to |data|
      invariant fresh(batch) && batch.db == db
      invariant totalCount == i && start + count == i && count < MAX_BATCH_SIZE
      invariant start % MAX_BATCH_SIZE == 0
      invariant batch.writes == all[start..i]
      invariant db.commits == committed + Chunks(all[..start])
    {
      var combination := data[i];
      SliceExtend(all, start, i);
      batch.Set(collectionName, combination);
      count := count + 1;
      totalCount := totalCount + 1;
      if count >= MAX_BATCH_SIZE {
        NextBatch(committed, all, start, i + 1);
        batch.Commit();
        batch := new WriteBatch(db);
        count := 0;
        FullBatchAdded(start, i + 1);
        start := i + 1;
      }
    }
    assert all[..|data|] == all;
    if count > 0 {
      NextBatch(committed, all, start, |data|);
      batch.Commit();
    }
  }

  /**
   * `main`: the easy, medium and hard files go, one complete upload after the other,
   * to the collections `combinations_easy`, `combinations_medium` and
   * `combinations_hard`.
   */
  method UploadAllTiers(db: Database, easy: seq<Record>, medium: seq<Record>, hard: seq<Record>)
    returns (easyCount: nat, mediumCount: nat, hardCount: nat)
    modifies db
    ensures easyCount == |easy| && mediumCount == |medium| && hardCount == |hard|
    ensures db.commits == old(db.commits)
                          + Chunks(Writes("combinations_easy", easy))
                          + Chunks(Writes("combinations_medium", medium))
                          + Chunks(Writes("combinations_hard", hard))
  {
    easyCount := UploadCombinations(db, "combinations_easy", easy);
    mediumCount := UploadCombinations(db, "combinations_medium", medium);
    hardCount := UploadCombinations(db, "combinations_hard", hard);
  }

  /**
   * Every committed write of an upload goes to that upload's collection and holds one
   * of its records: no batch mixes two collections.
   */
  lemma {:induction false} BatchesStayInCollection(collection: string, data: seq<Record>)
    ensures forall b, w :: b in Chunks(Writes(collection, data)) && w in b ==>
              w.collection == collection && w.record in data
  {
    var batches := Chunks(Writes(collection, data));
    forall b, w | b in batches && w in b ensures w.collection == collection && w.record in data {
      var i :| 0 <= i < |batches| && batches[i] == b;
      InFlatten(batches, w);
    }
  }

  /**
   * The three uploads commit, in order, every easy record, then every medium record,
   * then every hard record, each exactly once.
   */
  lemma {:induction false} AllTiersInOrder(easy: seq<Record>, medium: seq<Record>, hard: seq<Record>)
    ensures Flatten(Chunks(Writes("combinations_easy", easy))
                    + Chunks(Writes("combinations_medium", medium))
                    + Chunks(Writes("combinations_hard", hard)))
            == Writes("combinations_easy", easy)
               + Writes("combinations_medium", medium)
               + Writes("combinations_hard", hard)
  {
    var e, m, h := Chunks(Writes("combinations_easy", easy)),
                   Chunks(Writes("combinations_medium", medium)),
                   Chunks(Writes("combinations_hard", hard));
    FlattenAppend(e + m, h);
    FlattenAppend(e, m);
  }
}
