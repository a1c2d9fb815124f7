/**
 * The liked-songs ledger file (`spotify_liked_songs.csv`): its records, the dedup key,
 * `save_to_csv` (write or append a batch, with the header rule) and
 * `remove_duplicates_from_csv` (keep the first row per key, renumber densely from 1).
 */
module Ledger {
  import opened Base
  import opened Csv

  /** One ledger record; the columns are index, song_name, artist_name, scraped_at. */
  datatype Row = Row(index: int, songName: string, artistName: string, scrapedAt: string)

  type LedgerFile = File<Row>

  /** The dedup key: the song name and the artist name joined with "|" (two different pairs can share it). */
  function Key(r: Row): string
  {
    r.songName + "|" + r.artistName
  }

  function KeySet(rows: seq<Row>): set<string>
  {
    set r | r in rows :: Key(r)
  }

  /** No two records share a dedup key. */
  predicate DistinctKeys(rows: seq<Row>)
  {
    forall i, j :: 0 <= i < j < |rows| ==> Key(rows[i]) != Key(rows[j])
  }

  /** The index column reads 1, 2, ..., N in file order. */
  predicate Dense(rows: seq<Row>)
  {
    forall i :: 0 <= i < |rows| ==> rows[i].index == i + 1
  }

  lemma KeySetAppend(rows: seq<Row>, r: Row)
    ensures KeySet(rows + [r]) == KeySet(rows) + {Key(r)}
  {
    assert forall x :: x in rows + [r] <==> x in rows || x == r;
  }

  lemma KeyInKeySet(rows: seq<Row>, i: int)
    requires 0 <= i < |rows|
    ensures Key(rows[i]) in KeySet(rows)
  {
    assert rows[i] in rows;
  }

  /** The key of a record outside `rows` differs from every key in `rows`. */
  lemma NotInKeySet(rows: seq<Row>, k: string)
    requires forall i :: 0 <= i < |rows| ==> Key(rows[i]) != k
    ensures k !in KeySet(rows)
  {
    forall r | r in rows ensures Key(r) != k {
      var i :| 0 <= i < |rows| && rows[i] == r;
    }
  }

  // ---------------------------------------------------------------------------
  // save_to_csv
  // ---------------------------------------------------------------------------

  /** The mode `open` is called with: 'w' truncates, 'a' appends. */
  datatype Mode = Write | Append

  /** The file after `save_to_csv(songs, filename, mode)`: 'w' starts it afresh, 'a' keeps what is
      there; the header is written unless the mode is 'a' and the file already existed. */
  function Saved(file: LedgerFile, songs: seq<Row>, mode: Mode): seq<Line<Row>>
  {
    var fileExists := file.Some? && mode == Append;
    var kept := if mode == Append && file.Some? then file.value else [];
    var header := if !fileExists || mode == Write then [Header] else [];
    kept + header + DataLines(songs)
  }

  method SaveToCsv(file: LedgerFile, songs: seq<Row>, mode: Mode) returns (file': LedgerFile)
    ensures file' == Some(Saved(file, songs, mode))
  {
    var fileExists := file.Some? && mode == Append;
    var lines := if mode == Append && file.Some? then file.value else [];
    if !fileExists || mode == Write {
      lines := lines + [Header];
    }
    ghost var start := lines;
    for i := 0 to |songs|
      invariant lines == start + DataLines(songs[..i])
    {
      assert DataLines(songs[..i + 1]) == DataLines(songs[..i]) + [Data(songs[i])];
      lines := lines + [Data(songs[i])];
    }
    assert songs[..|songs|] == songs;
    file' := Some(lines);
  }

  /** A missing file or one holding a header and records stays so: 'w' (or a missing file) leaves
      exactly the batch, 'a' on an existing file adds the batch after what it held. */
  lemma SaveKeepsLedger(file: LedgerFile, before: seq<Row>, songs: seq<Row>, mode: Mode)
    requires mode == Write || file == None || file == Some(Fresh(before))
    ensures Saved(file, songs, mode)
      == Fresh(if mode == Append && file.Some? then before + songs else songs)
  {
    if mode == Append && file.Some? {
      assert Saved(file, songs, mode) == Fresh(before) + [] + DataLines(songs);
      ExtendFresh(before, songs);
      assert Fresh(before) + [] + DataLines(songs) == Fresh(before + songs);
    } else {
      assert Saved(file, songs, mode) == [] + [Header] + DataLines(songs);
      assert [] + [Header] + DataLines(songs) == Fresh(songs);
    }
  }

  // ---------------------------------------------------------------------------
  // remove_duplicates_from_csv
  // ---------------------------------------------------------------------------

  /** The records the dedup pass keeps, built as its loop builds `unique_songs`: each record in
      turn, dropped when its key was seen earlier. */
  function Dedup(rows: seq<Row>): seq<Row>
  {
    if rows == [] then []
    else
      var kept := Dedup(rows[..|rows| - 1]);
      var last := rows[|rows| - 1];
      if Key(last) in KeySet(kept) then kept else kept + [last]
  }

  /** Record `i` is the first of its key. */
  predicate IsFirst(rows: seq<Row>, i: int)
    requires 0 <= i < |rows|
  {
    forall j :: 0 <= j < i ==> Key(rows[j]) != Key(rows[i])
  }

  /** Reference definition: the first `n` records, keeping those no earlier record shares a key with. */
  function FirstOccurrences(rows: seq<Row>, n: nat): seq<Row>
    requires n <= |rows|
  {
    if n == 0 then []
    else FirstOccurrences(rows, n - 1) + (if IsFirst(rows, n - 1) then [rows[n - 1]] else [])
  }

  /** Dedup loses no key. */
  lemma {:induction false} DedupKeySet(rows: seq<Row>)
    ensures KeySet(Dedup(rows)) == KeySet(rows)
  {
    if rows != [] {
      var init, last := rows[..|rows| - 1], rows[|rows| - 1];
      assert rows == init + [last];
      DedupKeySet(init);
      KeySetAppend(init, last);
      var kept := Dedup(init);
      if Key(last) !in KeySet(kept) {
        KeySetAppend(kept, last);
      }
    }
  }

  /** Dedup loses no key and keeps no key twice. */
  lemma {:induction false} DedupKeys(rows: seq<Row>)
    ensures KeySet(Dedup(rows)) == KeySet(rows)
    ensures DistinctKeys(Dedup(rows))
  {
    if rows != [] {
      var init, last := rows[..|rows| - 1], rows[|rows| - 1];
      DedupKeys(init);
      DedupKeySet(rows);
      var kept := Dedup(init);
      if Key(last) !in KeySet(kept) {
        forall i | 0 <= i < |kept| ensures Key(kept[i]) != Key(last) {
          KeyInKeySet(kept, i);
        }
      }
    }
  }

  /** Dedup keeps exactly the first record of each key, and keeps them in file order. */
  lemma {:induction false} DedupIsFirstOccurrences(rows: seq<Row>, n: nat)
    requires n <= |rows|
    ensures Dedup(rows[..n]) == FirstOccurrences(rows, n)
  {
    if n > 0 {
      var init, last := rows[..n - 1], rows[n - 1];
      DedupIsFirstOccurrences(rows, n - 1);
      assert rows[..n][..n - 1] == init && rows[..n][n - 1] == last;
      DedupKeySet(init);
      var kept := Dedup(init);
      assert Dedup(rows[..n]) == if Key(last) in KeySet(kept) then kept else kept + [last];
      if IsFirst(rows, n - 1) {
        NotInKeySet(init, Key(last));
      } else {
        var j :| 0 <= j < n - 1 && Key(rows[j]) == Key(last);
        KeyInKeySet(init, j);
      }
    }
  }

  /** Records whose keys are already distinct pass through untouched. */
  lemma {:induction false} DedupOfDistinct(rows: seq<Row>)
    requires DistinctKeys(rows)
    ensures Dedup(rows) == rows
  {
    if rows != [] {
      var init, last := rows[..|rows| - 1], rows[|rows| - 1];
      assert rows == init + [last];
      DedupOfDistinct(init);
      NotInKeySet(init, Key(last));
    }
  }

  lemma DedupIdempotent(rows: seq<Row>)
    ensures Dedup(Dedup(rows)) == Dedup(rows)
  {
    DedupKeys(rows);
    DedupOfDistinct(Dedup(rows));
  }

  /** With distinct keys, there are as many keys as records. */
  lemma {:induction false} DistinctKeyCount(rows: seq<Row>)
    requires DistinctKeys(rows)
    ensures |KeySet(rows)| == |rows|
  {
    if rows != [] {
      var init, last := rows[..|rows| - 1], rows[|rows| - 1];
      assert rows == init + [last];
      DistinctKeyCount(init);
      KeySetAppend(init, last);
      NotInKeySet(init, Key(last));
    }
  }

  /** The rewrite loop's `song['index'] = i` for i from 1: only the index changes. */
  function Renumber(rows: seq<Row>): (r: seq<Row>)
    ensures |r| == |rows| && Dense(r)
    ensures forall i :: 0 <= i < |rows| ==>
      r[i].songName == rows[i].songName && r[i].artistName == rows[i].artistName
      && r[i].scrapedAt == rows[i].scrapedAt
  {
    seq(|rows|, i requires 0 <= i < |rows| => rows[i].(index := i + 1))
  }

  lemma RenumberKeys(rows: seq<Row>)
    ensures KeySet(Renumber(rows)) == KeySet(rows)
    ensures DistinctKeys(rows) ==> DistinctKeys(Renumber(rows))
  {
    var r := Renumber(rows);
    forall k | k in KeySet(r) ensures k in KeySet(rows) {
      var x :| x in r && Key(x) == k;
      var i :| 0 <= i < |r| && r[i] == x;
      KeyInKeySet(rows, i);
    }
    forall k | k in KeySet(rows) ensures k in KeySet(r) {
      var x :| x in rows && Key(x) == k;
      var i :| 0 <= i < |rows| && rows[i] == x;
      KeyInKeySet(r, i);
    }
  }

  lemma RenumberDense(rows: seq<Row>)
    requires Dense(rows)
    ensures Renumber(rows) == rows
  {
  }

  /** The records `remove_duplicates_from_csv` writes back. */
  function DedupPass(rows: seq<Row>): seq<Row>
  {
    Renumber(Dedup(rows))
  }

  /** After the pass: keys distinct, none lost, indices 1..N, and N is the number of distinct keys. */
  lemma DedupPassResult(rows: seq<Row>)
    ensures var r := DedupPass(rows);
      DistinctKeys(r) && KeySet(r) == KeySet(rows) && Dense(r) && |r| == |KeySet(rows)|
  {
    DedupKeys(rows);
    RenumberKeys(Dedup(rows));
    DistinctKeyCount(Dedup(rows));
  }

  /** A second pass over the rewritten records changes nothing. */
  lemma DedupPassIdempotent(rows: seq<Row>)
    ensures DedupPass(DedupPass(rows)) == DedupPass(rows)
  {
    var r := DedupPass(rows);
    DedupPassResult(rows);
    DedupOfDistinct(r);
    RenumberDense(r);
  }

  method RemoveDuplicatesFromCsv(file: LedgerFile) returns (file': LedgerFile, count: Option<nat>)
    ensures file.None? ==> file' == None && count == None
    ensures file.Some? ==> file' == Some(Fresh(DedupPass(ReadRows(file.value))))
    ensures file.Some? ==> count == Some(|KeySet(ReadRows(file.value))|)
  {
    if file.None? {
      return file, None;
    }
    var rows := ReadRows(file.value);
    var seen: set<string> := {};
    var uniqueSongs: seq<Row> := [];
    for i := 0 to |rows|
      invariant uniqueSongs == Dedup(rows[..i])
      invariant seen == KeySet(uniqueSongs)
    {
      assert rows[..i + 1][..i] == rows[..i];
      var key := Key(rows[i]);
      if key !in seen {
        KeySetAppend(uniqueSongs, rows[i]);
        seen := seen + {key};
        uniqueSongs := uniqueSongs + [rows[i]];
      }
    }
    assert rows[..|rows|] == rows;
    var lines := RewriteLedger(uniqueSongs);
    DedupPassResult(rows);
    file' := Some(lines);
    count := Some(|uniqueSongs|);
  }

  /** The rewrite half of `remove_duplicates_from_csv`: a header, then each kept record with its
      index set in place to its 1-based position. */
  method RewriteLedger(uniqueSongs: seq<Row>) returns (lines: seq<Line<Row>>)
    ensures lines == Fresh(Renumber(uniqueSongs))
  {
    var songs := uniqueSongs;
    lines := [Header];
    for i := 0 to |songs|
      invariant |songs| == |uniqueSongs|
      invariant forall j :: 0 <= j < i ==> songs[j] == uniqueSongs[j].(index := j + 1)
      invariant forall j :: i <= j < |songs| ==> songs[j] == uniqueSongs[j]
      invariant |lines| == i + 1 && lines[0] == Header
      invariant forall j :: 0 <= j < i ==> lines[j + 1] == Data(songs[j])
    {
      songs := songs[i := songs[i].(index := i + 1)];
      lines := lines + [Data(songs[i])];
    }
    var renumbered := Renumber(uniqueSongs);
    assert songs == renumbered by {
      assert forall j :: 0 <= j < |songs| ==> songs[j] == renumbered[j];
    }
    ghost var expected := Fresh(renumbered);
    assert |lines| == |expected|;
    assert lines == expected by {
      forall j | 0 <= j < |lines| ensures lines[j] == expected[j] {
        if j > 0 {
          assert lines[(j - 1) + 1] == expected[(j - 1) + 1];
        }
      }
    }
  }

  /** The dedup key is the joined text, so ("A|B", "C") and ("A", "B|C") count as the same song
      and the pass keeps only the first of them. */
  lemma KeyCollision()
    ensures var a, b := Row(1, "A|B", "C", "t1"), Row(2, "A", "B|C", "t2");
      Key(a) == Key(b) && DedupPass([a, b]) == [a]
  {
    var a, b := Row(1, "A|B", "C", "t1"), Row(2, "A", "B|C", "t2");
    assert [a, b][..1] == [a];
    assert Dedup([a]) == [a] by {
      assert [a][..0] == [];
    }
    KeyInKeySet([a], 0);
  }
}
