/** The records the server's listing returns, and their newest-first order. */
module MediaRecords {

  /** One listed file: its name, its public URL and its creation instant in milliseconds. */
  datatype MediaRecord = MediaRecord(filename: string, url: string, createdAt: int)

  function Filenames(records: seq<MediaRecord>): (names: seq<string>)
    ensures |names| == |records| && forall k :: 0 <= k < |records| ==> names[k] == records[k].filename
  {
    if records == [] then [] else [records[0].filename] + Filenames(records[1..])
  }

  predicate NewestFirst(records: seq<MediaRecord>) {
    forall i, j :: 0 <= i < j < |records| ==> records[i].createdAt >= records[j].createdAt
  }

  predicate NoNewerThan(records: seq<MediaRecord>, t: int) {
    forall k :: 0 <= k < |records| ==> records[k].createdAt <= t
  }

  /** Places `r` before the first record that is not newer than it. */
  function InsertNewestFirst(r: MediaRecord, records: seq<MediaRecord>): (out: seq<MediaRecord>)
    ensures NewestFirst(records) ==> NewestFirst(out)
    ensures forall t :: NoNewerThan(records, t) && r.createdAt <= t ==> NoNewerThan(out, t)
  {
    if records == [] || r.createdAt >= records[0].createdAt then
      [r] + records
    else
      var head, tail := records[0], records[1..];
      assert records == [head] + tail;
      var rest := InsertNewestFirst(r, tail);
      assert NewestFirst(records) ==> NoNewerThan(tail, head.createdAt) && NoNewerThan(rest, head.createdAt);
      assert forall t :: NoNewerThan(records, t) ==> NoNewerThan(tail, t);
      [head] + rest
  }

  /** Inserting adds exactly the one record. */
  lemma {:induction false} InsertNewestFirstPermutes(r: MediaRecord, records: seq<MediaRecord>)
    ensures multiset(InsertNewestFirst(r, records)) == multiset(records) + multiset{r}
  {
    if records != [] && r.createdAt < records[0].createdAt {
      InsertNewestFirstPermutes(r, records[1..]);
      assert records == [records[0]] + records[1..];
    }
  }

  /** Inserting adds exactly the one file name. */
  lemma {:induction false} InsertNewestFirstFilenames(r: MediaRecord, records: seq<MediaRecord>)
    ensures multiset(Filenames(InsertNewestFirst(r, records))) == multiset(Filenames(records)) + multiset{r.filename}
  {
    var out := InsertNewestFirst(r, records);
    if records != [] && r.createdAt < records[0].createdAt {
      InsertNewestFirstFilenames(r, records[1..]);
      assert Filenames(records) == [records[0].filename] + Filenames(records[1..]);
      assert Filenames(out) == [records[0].filename] + Filenames(InsertNewestFirst(r, records[1..]));
    } else {
      assert Filenames(out) == [r.filename] + Filenames(records);
    }
  }

  /** The `sort` step, newest first. Like JavaScript's sort it is stable. */
  function SortNewestFirst(records: seq<MediaRecord>): (out: seq<MediaRecord>)
    ensures NewestFirst(out)
  {
    if records == [] then []
    else InsertNewestFirst(records[0], SortNewestFirst(records[1..]))
  }

  /** Sorting neither loses nor adds records. */
  lemma {:induction false} SortNewestFirstPermutes(records: seq<MediaRecord>)
    ensures multiset(SortNewestFirst(records)) == multiset(records)
  {
    if records != [] {
      SortNewestFirstPermutes(records[1..]);
      InsertNewestFirstPermutes(records[0], SortNewestFirst(records[1..]));
      assert records == [records[0]] + records[1..];
    }
  }

  /** Sorting neither drops nor invents a record. */
  lemma SortNewestFirstMembers(records: seq<MediaRecord>)
    ensures forall f :: f in SortNewestFirst(records) <==> f in records
  {
    SortNewestFirstPermutes(records);
    forall f ensures f in SortNewestFirst(records) <==> f in records {
      assert f in SortNewestFirst(records) <==> f in multiset(SortNewestFirst(records));
      assert f in records <==> f in multiset(records);
    }
  }

  /** Sorting neither loses nor adds file names. */
  lemma {:induction false} SortNewestFirstFilenames(records: seq<MediaRecord>)
    ensures multiset(Filenames(SortNewestFirst(records))) == multiset(Filenames(records))
  {
    if records != [] {
      SortNewestFirstFilenames(records[1..]);
      InsertNewestFirstFilenames(records[0], SortNewestFirst(records[1..]));
      assert Filenames(records) == [records[0].filename] + Filenames(records[1..]);
    }
  }
}
