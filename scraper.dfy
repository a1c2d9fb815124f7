/**
 * The extraction stage (`spotify_scraper.py`): the row-extraction rule of `extract_song_info`,
 * the scroll loop of `scroll_and_scrape` with its in-memory dedup, batched flushes and stall
 * counter, and the scrape-then-dedup sequence of `main`.
 *
 * The live page is a sequence of cycles: cycle `k` is the list of rows visible when the loop
 * reads the page for the `k`-th time. Past the end of that sequence the page shows no rows.
 */
module Scraper {
  import opened Base
  import opened Text
  import opened Csv
  import opened Ledger

  /** `max_no_new_attempts`: consecutive cycles without a new song that end the scroll loop. */
  const MaxNoNewAttempts: nat := 15

  /** One visible track row as extraction reads it: `Stale` when the element went stale while being
      read; otherwise the text of the title element (None when neither title selector matched),
      the texts of the artist links, and the clock reading taken for `scraped_at`. */
  datatype RowHandle =
    | Stale
    | Rendered(title: Option<string>, artistTexts: seq<string>, clock: string)

  // ---------------------------------------------------------------------------
  // extract_song_info
  // ---------------------------------------------------------------------------

  /** The stripped artist texts that are not empty, in page order. */
  function NonBlankNames(texts: seq<string>): (names: seq<string>)
    ensures forall i :: 0 <= i < |names| ==> names[i] != ""
  {
    if texts == [] then []
    else
      var name := Strip(texts[0]);
      var rest := NonBlankNames(texts[1..]);
      if name != "" then [name] + rest else rest
  }

  /** `artist_name`: the non-empty stripped artist texts joined with ", " ("" when there are no links). */
  function ArtistName(texts: seq<string>): string
  {
    if texts != [] then Join(NonBlankNames(texts), ", ") else ""
  }

  function ExtractSongInfo(row: RowHandle, index: int): (r: Option<Row>)
    ensures r.None? <==> row.Stale? || row.title.None? || Blank(row.title.value)
    ensures r.Some? ==> r.value.index == index && r.value.scrapedAt == row.clock
    ensures r.Some? ==> r.value.songName != "" && r.value.songName == Strip(row.title.value)
    ensures r.Some? ==> r.value.artistName == ArtistName(row.artistTexts)
  {
    match row
    case Stale => None
    case Rendered(title, artistTexts, clock) =>
      var songName := if title.Some? then Strip(title.value) else "";
      if songName != "" then Some(Row(index, songName, ArtistName(artistTexts), clock)) else None
  }

  /** The artist name comes out empty exactly when every artist text is blank. */
  lemma ArtistNameEmpty(texts: seq<string>)
    ensures ArtistName(texts) == "" <==> forall i :: 0 <= i < |texts| ==> Blank(texts[i])
  {
    if texts != [] {
      NonBlankNamesEmpty(texts);
      var names := NonBlankNames(texts);
      JoinNonEmpty(names, ", ");
    }
  }

  lemma JoinNonEmpty(names: seq<string>, sep: string)
    requires forall i :: 0 <= i < |names| ==> names[i] != ""
    ensures Join(names, sep) == "" <==> names == []
  {
    if names != [] {
      assert |Join(names, sep)| >= |names[0]| > 0;
    }
  }

  lemma {:induction false} NonBlankNamesEmpty(texts: seq<string>)
    ensures NonBlankNames(texts) == [] <==> forall i :: 0 <= i < |texts| ==> Blank(texts[i])
  {
    if texts != [] {
      NonBlankNamesEmpty(texts[1..]);
      assert forall i :: 1 <= i < |texts| ==> texts[i] == texts[1..][i - 1];
    }
  }

  /** One artist text contributes its stripped text, unless that is empty. */
  lemma NonBlankNamesOne(t: string)
    ensures NonBlankNames([t]) == if Strip(t) != "" then [Strip(t)] else []
  {
    assert [t][1..] == [];
  }

  /** The kept names of consecutive artist texts follow one another in page order. */
  lemma {:induction false} NonBlankNamesAppend(a: seq<string>, b: seq<string>)
    ensures NonBlankNames(a + b) == NonBlankNames(a) + NonBlankNames(b)
  {
    if a == [] {
      assert a + b == b;
    } else {
      assert (a + b)[0] == a[0] && (a + b)[1..] == a[1..] + b;
      NonBlankNamesAppend(a[1..], b);
    }
  }

  /** The dedup key of an extracted row does not depend on the index it is offered. */
  lemma ExtractKeyIgnoresIndex(row: RowHandle, a: int, b: int)
    ensures ExtractSongInfo(row, a).Some? == ExtractSongInfo(row, b).Some?
    ensures ExtractSongInfo(row, a).Some? ==>
      Key(ExtractSongInfo(row, a).value) == Key(ExtractSongInfo(row, b).value)
  {
  }

  /** The key a row contributes, if extraction succeeds. */
  function RowKey(row: RowHandle): set<string>
  {
    match ExtractSongInfo(row, 0)
    case None => {}
    case Some(info) => {Key(info)}
  }

  /** The keys of every row of one cycle that extraction accepts. */
  function ExtractedKeys(rows: seq<RowHandle>): set<string>
  {
    if rows == [] then {} else RowKey(rows[0]) + ExtractedKeys(rows[1..])
  }

  // ---------------------------------------------------------------------------
  // scroll_and_scrape, as a function of the page
  // ---------------------------------------------------------------------------

  function RowsAt(cycles: seq<seq<RowHandle>>, k: nat): seq<RowHandle>
  {
    if k < |cycles| then cycles[k] else []
  }

  /** The loop's running lists: `all_songs`, the pending `batch`, and the batches flushed so far. */
  datatype Scan = Scan(all: seq<Row>, batch: seq<Row>, flushed: seq<seq<Row>>)

  const Start := Scan([], [], [])

  /** One visible row: extract it, drop it if its key was seen, else number it, append it to the
      running list and the batch, and flush the batch once it holds `batchSize` songs. */
  function Admit(s: Scan, row: RowHandle, batchSize: int): (r: Scan)
    ensures s.all <= r.all && |r.all| <= |s.all| + 1
  {
    match ExtractSongInfo(row, |s.all| + 1)
    case None => s
    case Some(info) =>
      if Key(info) in KeySet(s.all) then s
      else AddSong(s, info.(index := |s.all| + 1), batchSize)
  }

  /** A new song joins the running list and the batch; a batch that reaches `batchSize` is flushed. */
  function AddSong(s: Scan, song: Row, batchSize: int): (r: Scan)
    ensures r.all == s.all + [song]
  {
    var batch := s.batch + [song];
    if |batch| >= batchSize then Scan(s.all + [song], [], s.flushed + [batch])
    else Scan(s.all + [song], batch, s.flushed)
  }

  /** All rows of one cycle, in page order. */
  function AdmitAll(s: Scan, rows: seq<RowHandle>, batchSize: int): (r: Scan)
    ensures s.all <= r.all
    decreases |rows|
  {
    if rows == [] then s else AdmitAll(Admit(s, rows[0], batchSize), rows[1..], batchSize)
  }

  /** The outcome of the loop: the final lists and, per cycle, how many new songs it found. */
  datatype Run = Run(scan: Scan, found: seq<nat>)

  /** The loop from cycle `k` on, with `stall` cycles in a row so far without a new song. A cycle
      with no rows, or whose rows hold no unseen key, finds no new song and raises the counter;
      the loop ends when it reaches `MaxNoNewAttempts`; any cycle with a new song resets it. */
  function Continue(cycles: seq<seq<RowHandle>>, batchSize: int, k: nat, stall: nat, s: Scan,
                    found: seq<nat>): Run
    requires stall < MaxNoNewAttempts
    decreases (if k < |cycles| then |cycles| - k else 0), MaxNoNewAttempts - stall
  {
    var s' := AdmitAll(s, RowsAt(cycles, k), batchSize);
    var newSongsFound := |s'.all| - |s.all|;
    var stall' := if newSongsFound == 0 then stall + 1 else 0;
    if stall' >= MaxNoNewAttempts then Run(s', found + [newSongsFound])
    else Continue(cycles, batchSize, k + 1, stall', s', found + [newSongsFound])
  }

  function Scrape(cycles: seq<seq<RowHandle>>, batchSize: int): Run
  {
    Continue(cycles, batchSize, 0, 0, Start, [])
  }

  /** The file writes of a finished scan: the batches flushed in the loop, then the leftover batch. */
  function Writes(s: Scan): seq<seq<Row>>
  {
    if s.batch != [] then s.flushed + [s.batch] else s.flushed
  }

  /** The ledger after a run of flushes: the first with mode 'w', every later one with 'a'. */
  function Flushed(file: LedgerFile, writes: seq<seq<Row>>): LedgerFile
  {
    if writes == [] then file
    else
      var last := |writes| - 1;
      Some(Saved(Flushed(file, writes[..last]), writes[last], if last == 0 then Write else Append))
  }

  function Flatten(batches: seq<seq<Row>>): seq<Row>
  {
    if batches == [] then [] else Flatten(batches[..|batches| - 1]) + batches[|batches| - 1]
  }

  /** How many songs each flush holds: BATCH_SIZE, or one when BATCH_SIZE is below one. */
  function FlushSize(batchSize: int): nat
  {
    if batchSize < 1 then 1 else batchSize
  }

  /** The bookkeeping the loop keeps: keys distinct, `index` equal to position, the flushed
      batches followed by the pending batch make up `all_songs`, the pending batch is shorter
      than BATCH_SIZE (or empty), and every flushed batch holds exactly `FlushSize` songs. */
  predicate Good(s: Scan, batchSize: int)
  {
    && DistinctKeys(s.all)
    && Dense(s.all)
    && Flatten(s.flushed) + s.batch == s.all
    && (s.batch == [] || |s.batch| < batchSize)
    && forall i :: 0 <= i < |s.flushed| ==> |s.flushed[i]| == FlushSize(batchSize)
  }

  function Sum(found: seq<nat>): nat
  {
    if found == [] then 0 else Sum(found[..|found| - 1]) + found[|found| - 1]
  }

  /** The stall counter as a function of the history: cycles at the end without a new song. */
  function Trailing(found: seq<nat>): nat
  {
    if found == [] || found[|found| - 1] > 0 then 0 else 1 + Trailing(found[..|found| - 1])
  }

  /** The keys offered by cycles `0 .. n-1`. */
  function SeenKeys(cycles: seq<seq<RowHandle>>, n: nat): set<string>
  {
    if n == 0 then {} else SeenKeys(cycles, n - 1) + ExtractedKeys(RowsAt(cycles, n - 1))
  }

  // ---------------------------------------------------------------------------
  // Properties of one row and one cycle
  // ---------------------------------------------------------------------------

  lemma AdmitFacts(s: Scan, row: RowHandle, batchSize: int)
    requires Good(s, batchSize)
    ensures Good(Admit(s, row, batchSize), batchSize)
    ensures KeySet(Admit(s, row, batchSize).all) == KeySet(s.all) + RowKey(row)
  {
    ExtractKeyIgnoresIndex(row, 0, |s.all| + 1);
    var info := ExtractSongInfo(row, |s.all| + 1);
    if info.None? {
      assert Admit(s, row, batchSize) == s && RowKey(row) == {};
    } else if Key(info.value) in KeySet(s.all) {
      assert Admit(s, row, batchSize) == s && RowKey(row) == {Key(info.value)};
    } else {
      var song := info.value.(index := |s.all| + 1);
      assert Key(song) == Key(info.value) && RowKey(row) == {Key(song)};
      assert Admit(s, row, batchSize) == AddSong(s, song, batchSize);
      AddSongFacts(s, song, batchSize);
    }
  }

  /** Adding an unseen song keeps the bookkeeping and adds exactly its key. */
  lemma AddSongFacts(s: Scan, song: Row, batchSize: int)
    requires Good(s, batchSize)
    requires Key(song) !in KeySet(s.all) && song.index == |s.all| + 1
    ensures Good(AddSong(s, song, batchSize), batchSize)
    ensures KeySet(AddSong(s, song, batchSize).all) == KeySet(s.all) + {Key(song)}
  {
    var r := AddSong(s, song, batchSize);
    KeySetAppend(s.all, song);
    AppendDistinct(s.all, song);
    AddSongBatches(s, song, batchSize);
  }

  lemma AppendDistinct(rows: seq<Row>, song: Row)
    requires DistinctKeys(rows) && Dense(rows)
    requires Key(song) !in KeySet(rows) && song.index == |rows| + 1
    ensures DistinctKeys(rows + [song]) && Dense(rows + [song])
  {
    forall i | 0 <= i < |rows| ensures Key(rows[i]) != Key(song) {
      KeyInKeySet(rows, i);
    }
  }

  lemma AddSongBatches(s: Scan, song: Row, batchSize: int)
    requires Flatten(s.flushed) + s.batch == s.all
    requires s.batch == [] || |s.batch| < batchSize
    requires forall i :: 0 <= i < |s.flushed| ==> |s.flushed[i]| == FlushSize(batchSize)
    ensures var r := AddSong(s, song, batchSize);
      && Flatten(r.flushed) + r.batch == r.all
      && (r.batch == [] || |r.batch| < batchSize)
      && forall i :: 0 <= i < |r.flushed| ==> |r.flushed[i]| == FlushSize(batchSize)
  {
    var batch := s.batch + [song];
    if |batch| >= batchSize {
      var fl := s.flushed + [batch];
      assert fl[..|s.flushed|] == s.flushed;
      assert Flatten(fl) == s.all + [song];
    }
  }

  lemma {:induction false} AdmitAllFacts(s: Scan, rows: seq<RowHandle>, batchSize: int)
    requires Good(s, batchSize)
    ensures Good(AdmitAll(s, rows, batchSize), batchSize)
    ensures KeySet(AdmitAll(s, rows, batchSize).all) == KeySet(s.all) + ExtractedKeys(rows)
    decreases |rows|
  {
    if rows != [] {
      AdmitFacts(s, rows[0], batchSize);
      AdmitAllFacts(Admit(s, rows[0], batchSize), rows[1..], batchSize);
    }
  }

  /** A cycle whose rows offer only keys already seen changes nothing. */
  lemma {:induction false} AdmitAllSeen(s: Scan, rows: seq<RowHandle>, batchSize: int)
    requires ExtractedKeys(rows) <= KeySet(s.all)
    ensures AdmitAll(s, rows, batchSize) == s
    decreases |rows|
  {
    if rows != [] {
      ExtractKeyIgnoresIndex(rows[0], 0, |s.all| + 1);
      assert Admit(s, rows[0], batchSize) == s;
      AdmitAllSeen(s, rows[1..], batchSize);
    }
  }

  // ---------------------------------------------------------------------------
  // Properties of the whole loop
  // ---------------------------------------------------------------------------

  /** Induction over the loop: a property of the cycle count and the state that every cycle
      preserves holds when the loop ends. */
  lemma {:induction false} ContinueKeeps(cycles: seq<seq<RowHandle>>, batchSize: int, k: nat,
                                         stall: nat, s: Scan, found: seq<nat>,
                                         inv: (nat, Scan) -> bool)
    requires stall < MaxNoNewAttempts && |found| == k && inv(k, s)
    requires forall j: nat, t: Scan :: inv(j, t) ==> inv(j + 1, AdmitAll(t, RowsAt(cycles, j), batchSize))
    ensures var r := Continue(cycles, batchSize, k, stall, s, found); inv(|r.found|, r.scan)
    decreases (if k < |cycles| then |cycles| - k else 0), MaxNoNewAttempts - stall
  {
    var s' := AdmitAll(s, RowsAt(cycles, k), batchSize);
    var n := |s'.all| - |s.all|;
    var stall' := if n == 0 then stall + 1 else 0;
    if stall' < MaxNoNewAttempts {
      ContinueKeeps(cycles, batchSize, k + 1, stall', s', found + [n], inv);
    }
  }

  /** The list grows by exactly the number of new songs each cycle reports. */
  lemma {:induction false} ContinueCount(cycles: seq<seq<RowHandle>>, batchSize: int, k: nat,
                                         stall: nat, s: Scan, found: seq<nat>)
    requires stall < MaxNoNewAttempts && |s.all| == Sum(found)
    ensures var r := Continue(cycles, batchSize, k, stall, s, found);
      |r.scan.all| == Sum(r.found) && found < r.found
    decreases (if k < |cycles| then |cycles| - k else 0), MaxNoNewAttempts - stall
  {
    var s' := AdmitAll(s, RowsAt(cycles, k), batchSize);
    var n := |s'.all| - |s.all|;
    SumAppend(found, n);
    assert found < found + [n];
    if n != 0 || stall + 1 < MaxNoNewAttempts {
      ContinueCount(cycles, batchSize, k + 1, if n == 0 then stall + 1 else 0, s', found + [n]);
    }
  }

  /** The loop ends at the first cycle that completes `MaxNoNewAttempts` cycles in a row
      without a new song, and at no earlier one. */
  lemma {:induction false} ContinueStops(cycles: seq<seq<RowHandle>>, batchSize: int, k: nat,
                                         stall: nat, s: Scan, found: seq<nat>)
    requires stall < MaxNoNewAttempts && stall == Trailing(found)
    requires forall m :: 0 <= m <= |found| ==> Trailing(found[..m]) < MaxNoNewAttempts
    ensures var r := Continue(cycles, batchSize, k, stall, s, found);
      && Trailing(r.found) == MaxNoNewAttempts
      && forall m :: 0 <= m < |r.found| ==> Trailing(r.found[..m]) < MaxNoNewAttempts
    decreases (if k < |cycles| then |cycles| - k else 0), MaxNoNewAttempts - stall
  {
    var s' := AdmitAll(s, RowsAt(cycles, k), batchSize);
    var n := |s'.all| - |s.all|;
    var found' := found + [n];
    StepTrailing(found, n);
    if n != 0 || stall + 1 < MaxNoNewAttempts {
      assert found'[..|found'|] == found';
      ContinueStops(cycles, batchSize, k + 1, if n == 0 then stall + 1 else 0, s', found');
    }
  }

  /** One cycle keeps the bookkeeping and adds the cycle's keys. */
  lemma StepFacts(cycles: seq<seq<RowHandle>>, batchSize: int, k: nat, s: Scan)
    requires Good(s, batchSize) && KeySet(s.all) == SeenKeys(cycles, k)
    ensures var s' := AdmitAll(s, RowsAt(cycles, k), batchSize);
      Good(s', batchSize) && KeySet(s'.all) == SeenKeys(cycles, k + 1)
  {
    AdmitAllFacts(s, RowsAt(cycles, k), batchSize);
  }

  lemma SumAppend(found: seq<nat>, n: nat)
    ensures Sum(found + [n]) == Sum(found) + n
  {
    assert (found + [n])[..|found|] == found;
  }

  /** The stall counter after one more cycle: one more without a new song, zero otherwise. */
  lemma StepTrailing(found: seq<nat>, n: nat)
    requires forall m :: 0 <= m <= |found| ==> Trailing(found[..m]) < MaxNoNewAttempts
    ensures Trailing(found + [n]) == if n == 0 then Trailing(found) + 1 else 0
    ensures forall m :: 0 <= m < |found + [n]| ==> Trailing((found + [n])[..m]) < MaxNoNewAttempts
  {
    var f := found + [n];
    assert f[..|found|] == found;
    forall m | 0 <= m < |f| ensures Trailing(f[..m]) < MaxNoNewAttempts {
      assert f[..m] == found[..m];
    }
  }

  /** The loop stops at the first cycle that completes `MaxNoNewAttempts` cycles in a row without
      a new song, and the list holds as many songs as the cycles reported new. */
  lemma ScrapeStops(cycles: seq<seq<RowHandle>>, batchSize: int)
    ensures var r := Scrape(cycles, batchSize);
      && |r.scan.all| == Sum(r.found)
      && Trailing(r.found) == MaxNoNewAttempts
      && forall n :: 0 <= n < |r.found| ==> Trailing(r.found[..n]) < MaxNoNewAttempts
  {
    ContinueCount(cycles, batchSize, 0, 0, Start, []);
    ContinueStops(cycles, batchSize, 0, 0, Start, []);
  }

  /** The loop's bookkeeping: keys distinct, indices dense, the flushed batches followed by the
      pending one make up the list, and the list holds exactly the keys of the cycles read. */
  lemma ScrapeGood(cycles: seq<seq<RowHandle>>, batchSize: int)
    ensures var r := Scrape(cycles, batchSize);
      Good(r.scan, batchSize) && KeySet(r.scan.all) == SeenKeys(cycles, |r.found|)
  {
    var inv := (j: nat, t: Scan) => Good(t, batchSize) && KeySet(t.all) == SeenKeys(cycles, j);
    forall j: nat, t: Scan | inv(j, t)
      ensures inv(j + 1, AdmitAll(t, RowsAt(cycles, j), batchSize))
    {
      StepFacts(cycles, batchSize, j, t);
    }
    StartGood(cycles, batchSize);
    ContinueKeeps(cycles, batchSize, 0, 0, Start, [], inv);
  }

  lemma StartGood(cycles: seq<seq<RowHandle>>, batchSize: int)
    ensures Good(Start, batchSize) && KeySet(Start.all) == SeenKeys(cycles, 0)
  {
    assert Flatten([]) == [];
    assert KeySet([]) == {};
  }

  /** The flushes, mode 'w' first and 'a' after, leave one header followed by all their songs. */
  lemma {:induction false} FlushedLedger(file: LedgerFile, writes: seq<seq<Row>>)
    requires writes != []
    ensures Flushed(file, writes) == Some(Fresh(Flatten(writes)))
  {
    var last := |writes| - 1;
    if last == 0 {
      assert writes[..0] == [];
      assert Flatten(writes) == [] + writes[0] == writes[0];
      SaveKeepsLedger(file, [], writes[0], Write);
    } else {
      FlushedLedger(file, writes[..last]);
      SaveKeepsLedger(Flushed(file, writes[..last]), Flatten(writes[..last]), writes[last], Append);
    }
  }

  /** The writes of a good scan, flushed batches then the leftover, hold all its songs in order. */
  lemma WritesFlatten(s: Scan, batchSize: int)
    requires Good(s, batchSize)
    ensures Flatten(Writes(s)) == s.all
    ensures Writes(s) == [] <==> s.all == []
  {
    if s.batch != [] {
      assert (s.flushed + [s.batch])[..|s.flushed|] == s.flushed;
    } else {
      assert Flatten(s.flushed) == s.all;
      if s.flushed != [] {
        assert |s.flushed[|s.flushed| - 1]| == FlushSize(batchSize) > 0;
      }
    }
  }

  /** A page that shows the same rows on every cycle, at least one of them extractable, yields
      one record per distinct key and ends after one productive cycle and 15 idle ones. */
  lemma SameRowsEveryCycle(cycles: seq<seq<RowHandle>>, batchSize: int)
    requires cycles != [] && forall c :: 0 <= c < |cycles| ==> cycles[c] == cycles[0]
    requires ExtractedKeys(cycles[0]) != {}
    ensures var r := Scrape(cycles, batchSize);
      |r.found| == 1 + MaxNoNewAttempts && |r.scan.all| == |ExtractedKeys(cycles[0])|
  {
    var s' := AdmitAll(Start, cycles[0], batchSize);
    FirstCycle(cycles[0], batchSize);
    ScrapeFirst(cycles, batchSize);
    forall c: nat | 1 <= c ensures ExtractedKeys(RowsAt(cycles, c)) <= KeySet(s'.all) {
    }
    StallsToEnd(cycles, batchSize, 1, 0, s', [|s'.all|]);
  }

  /** The first cycle keeps one song per distinct key among its rows. */
  lemma FirstCycle(rows: seq<RowHandle>, batchSize: int)
    ensures var s' := AdmitAll(Start, rows, batchSize);
      KeySet(s'.all) == ExtractedKeys(rows) && |s'.all| == |ExtractedKeys(rows)|
  {
    StartGood([], batchSize);
    AdmitAllFacts(Start, rows, batchSize);
    DistinctKeyCount(AdmitAll(Start, rows, batchSize).all);
  }

  /** A first cycle that yields songs resets nothing and moves on to the second cycle. */
  lemma ScrapeFirst(cycles: seq<seq<RowHandle>>, batchSize: int)
    requires AdmitAll(Start, RowsAt(cycles, 0), batchSize).all != []
    ensures var s' := AdmitAll(Start, RowsAt(cycles, 0), batchSize);
      Scrape(cycles, batchSize) == Continue(cycles, batchSize, 1, 0, s', [|s'.all|])
  {
    var s' := AdmitAll(Start, RowsAt(cycles, 0), batchSize);
    var n := |s'.all| - |Start.all|;
    assert n == |s'.all| > 0;
    assert [] + [n] == [|s'.all|];
    assert Scrape(cycles, batchSize) == Continue(cycles, batchSize, 0, 0, Start, []);
  }

  /** Once every later cycle offers only seen keys, the loop runs out its remaining stalls. */
  lemma {:induction false} StallsToEnd(cycles: seq<seq<RowHandle>>, batchSize: int, k: nat,
                                       stall: nat, s: Scan, found: seq<nat>)
    requires stall < MaxNoNewAttempts
    requires forall c: nat :: k <= c ==> ExtractedKeys(RowsAt(cycles, c)) <= KeySet(s.all)
    ensures var r := Continue(cycles, batchSize, k, stall, s, found);
      |r.found| == |found| + MaxNoNewAttempts - stall && r.scan.all == s.all
    decreases MaxNoNewAttempts - stall
  {
    AdmitAllSeen(s, RowsAt(cycles, k), batchSize);
    if stall + 1 < MaxNoNewAttempts {
      ContinueNext(cycles, batchSize, k, stall, s, found, s, 0, stall + 1);
      StallsToEnd(cycles, batchSize, k + 1, stall + 1, s, found + [0]);
    } else {
      ContinueLast(cycles, batchSize, k, stall, s, found, s);
    }
  }

  // ---------------------------------------------------------------------------
  // The loop itself
  // ---------------------------------------------------------------------------

  /** A cycle after which the loop goes on. */
  lemma ContinueNext(cycles: seq<seq<RowHandle>>, batchSize: int, k: nat, stall: nat, s: Scan,
                     found: seq<nat>, s': Scan, newSongsFound: nat, stall': nat)
    requires stall < MaxNoNewAttempts
    requires s' == AdmitAll(s, RowsAt(cycles, k), batchSize) && newSongsFound == |s'.all| - |s.all|
    requires stall' == (if newSongsFound == 0 then stall + 1 else 0) && stall' < MaxNoNewAttempts
    ensures Continue(cycles, batchSize, k, stall, s, found)
      == Continue(cycles, batchSize, k + 1, stall', s', found + [newSongsFound])
  {
  }

  /** The cycle that completes `MaxNoNewAttempts` cycles in a row without a new song ends the loop. */
  lemma ContinueLast(cycles: seq<seq<RowHandle>>, batchSize: int, k: nat, stall: nat, s: Scan,
                     found: seq<nat>, s': Scan)
    requires stall + 1 == MaxNoNewAttempts
    requires s' == AdmitAll(s, RowsAt(cycles, k), batchSize) && |s'.all| == |s.all|
    ensures Continue(cycles, batchSize, k, stall, s, found) == Run(s', found + [0])
  {
  }

  /** `scroll_and_scrape`. The ledger file is threaded through: each flush replaces it by what
      `save_to_csv` leaves. */
  method ScrollAndScrape(cycles: seq<seq<RowHandle>>, batchSize: int, file: LedgerFile)
    returns (allSongs: seq<Row>, file': LedgerFile)
    ensures var run := Scrape(cycles, batchSize);
      allSongs == run.scan.all && file' == Flushed(file, Writes(run.scan))
    ensures DistinctKeys(allSongs) && Dense(allSongs)
    ensures allSongs == [] ==> file' == file
    ensures allSongs != [] ==> file' == Some(Fresh(allSongs))
  {
    var batch, batchNumber;
    ghost var flushed;
    allSongs, batch, batchNumber, file', flushed := ScrollLoop(cycles, batchSize, file);
    file' := FlushLeftover(batch, batchNumber, file', allSongs, flushed, file);
    ScrapeLedger(cycles, batchSize, file);
  }

  /** The `while True` loop of `scroll_and_scrape`, up to the final flush. */
  method ScrollLoop(cycles: seq<seq<RowHandle>>, batchSize: int, file: LedgerFile)
    returns (allSongs: seq<Row>, batch: seq<Row>, batchNumber: nat, file': LedgerFile,
             ghost flushed: seq<seq<Row>>)
    ensures Scan(allSongs, batch, flushed) == Scrape(cycles, batchSize).scan
    ensures batchNumber == |flushed| && file' == Flushed(file, flushed)
  {
    allSongs := [];
    var seenSongs: set<string> := {};
    batch := [];
    batchNumber := 0;
    var noNewSongsCount := 0;
    var k := 0;
    flushed := [];
    ghost var found: seq<nat> := [];
    file' := file;
    while true
      invariant noNewSongsCount < MaxNoNewAttempts
      invariant seenSongs == KeySet(allSongs) && batchNumber == |flushed|
      invariant file' == Flushed(file, flushed)
      invariant Continue(cycles, batchSize, k, noNewSongsCount, Scan(allSongs, batch, flushed), found)
        == Scrape(cycles, batchSize)
      decreases (if k < |cycles| then |cycles| - k else 0), MaxNoNewAttempts - noNewSongsCount
    {
      ghost var before := Scan(allSongs, batch, flushed);
      ghost var stall := noNewSongsCount;
      var rows := RowsAt(cycles, k);
      var newSongsFound;
      noNewSongsCount, allSongs, seenSongs, batch, batchNumber, file', newSongsFound, flushed :=
        ScrapeCycle(rows, batchSize, noNewSongsCount, allSongs, seenSongs, batch, batchNumber, file',
                    flushed, file);
      if noNewSongsCount >= MaxNoNewAttempts {
        ContinueLast(cycles, batchSize, k, stall, before, found, Scan(allSongs, batch, flushed));
        break;
      }
      ContinueNext(cycles, batchSize, k, stall, before, found, Scan(allSongs, batch, flushed),
                   newSongsFound, noNewSongsCount);
      k := k + 1;
      found := found + [newSongsFound];
    }
  }

  /** One pass of the loop body: a cycle with no rows only raises the stall counter ("No song rows
      found"); otherwise every row goes through `Admit`, and the counter is raised when no new
      song turned up and reset when one did. */
  method ScrapeCycle(rows: seq<RowHandle>, batchSize: int, noNewSongsCount: nat,
                     allSongs: seq<Row>, seenSongs: set<string>, batch: seq<Row>, batchNumber: nat,
                     file': LedgerFile, ghost flushed: seq<seq<Row>>, ghost file: LedgerFile)
    returns (noNewSongsCount2: nat, allSongs2: seq<Row>, seenSongs2: set<string>, batch2: seq<Row>,
             batchNumber2: nat, file2: LedgerFile, newSongsFound: nat, ghost flushed2: seq<seq<Row>>)
    requires seenSongs == KeySet(allSongs) && batchNumber == |flushed|
    requires file' == Flushed(file, flushed)
    ensures Scan(allSongs2, batch2, flushed2) == AdmitAll(Scan(allSongs, batch, flushed), rows, batchSize)
    ensures newSongsFound == |allSongs2| - |allSongs|
    ensures noNewSongsCount2 == if newSongsFound == 0 then noNewSongsCount + 1 else 0
    ensures seenSongs2 == KeySet(allSongs2) && batchNumber2 == |flushed2|
    ensures file2 == Flushed(file, flushed2)
  {
    if rows == [] {
      noNewSongsCount2 := noNewSongsCount + 1;
      allSongs2, seenSongs2, batch2, batchNumber2, file2, newSongsFound, flushed2 :=
        allSongs, seenSongs, batch, batchNumber, file', 0, flushed;
      return;
    }
    allSongs2, seenSongs2, batch2, batchNumber2, file2, newSongsFound, flushed2 :=
      ScrapeRows(rows, batchSize, allSongs, seenSongs, batch, batchNumber, file', flushed, file);
    if newSongsFound == 0 {
      noNewSongsCount2 := noNewSongsCount + 1;
    } else {
      noNewSongsCount2 := 0;
    }
  }

  /** The final `if batch:` flush after the loop. */
  method FlushLeftover(batch: seq<Row>, batchNumber: nat, file': LedgerFile,
                       ghost allSongs: seq<Row>, ghost flushed: seq<seq<Row>>, ghost file: LedgerFile)
    returns (file2: LedgerFile)
    requires batchNumber == |flushed| && file' == Flushed(file, flushed)
    ensures file2 == Flushed(file, Writes(Scan(allSongs, batch, flushed)))
  {
    file2 := file';
    if batch != [] {
      var batchNumber2;
      batchNumber2, file2 := SaveBatch(batch, batchNumber, file', flushed, file);
    }
  }

  /** One flush: count it, then save the batch, replacing the file on the first flush and
      appending to it on every later one. */
  method SaveBatch(batch: seq<Row>, batchNumber: nat, file': LedgerFile,
                   ghost flushed: seq<seq<Row>>, ghost file: LedgerFile)
    returns (batchNumber2: nat, file2: LedgerFile)
    requires batchNumber == |flushed| && file' == Flushed(file, flushed)
    ensures batchNumber2 == |flushed + [batch]| && file2 == Flushed(file, flushed + [batch])
  {
    batchNumber2 := batchNumber + 1;
    var mode := if batchNumber2 == 1 then Write else Append;
    file2 := SaveToCsv(file', batch, mode);
    assert (flushed + [batch])[..|flushed|] == flushed;
  }

  /** After a scrape the ledger is untouched when nothing was found, and otherwise holds one header
      followed by every scraped song in order, whatever it held before; the songs have distinct
      keys and indices `1..n`. */
  lemma ScrapeLedger(cycles: seq<seq<RowHandle>>, batchSize: int, file: LedgerFile)
    ensures var s := Scrape(cycles, batchSize).scan;
      && DistinctKeys(s.all) && Dense(s.all)
      && (s.all == [] ==> Flushed(file, Writes(s)) == file)
      && (s.all != [] ==> Flushed(file, Writes(s)) == Some(Fresh(s.all)))
  {
    var s := Scrape(cycles, batchSize).scan;
    ScrapeGood(cycles, batchSize);
    WritesFlatten(s, batchSize);
    if s.all != [] {
      FlushedLedger(file, Writes(s));
    }
  }

  /** The `for row in rows` loop of one cycle: every visible row goes through `Admit`. */
  method ScrapeRows(rows: seq<RowHandle>, batchSize: int, allSongs: seq<Row>, seenSongs: set<string>,
                    batch: seq<Row>, batchNumber: nat, file': LedgerFile,
                    ghost flushed: seq<seq<Row>>, ghost file: LedgerFile)
    returns (allSongs2: seq<Row>, seenSongs2: set<string>, batch2: seq<Row>, batchNumber2: nat,
             file2: LedgerFile, newSongsFound: nat, ghost flushed2: seq<seq<Row>>)
    requires seenSongs == KeySet(allSongs) && batchNumber == |flushed|
    requires file' == Flushed(file, flushed)
    ensures Scan(allSongs2, batch2, flushed2) == AdmitAll(Scan(allSongs, batch, flushed), rows, batchSize)
    ensures newSongsFound == |allSongs2| - |allSongs|
    ensures seenSongs2 == KeySet(allSongs2) && batchNumber2 == |flushed2|
    ensures file2 == Flushed(file, flushed2)
  {
    allSongs2, seenSongs2, batch2, batchNumber2, file2, flushed2 :=
      allSongs, seenSongs, batch, batchNumber, file', flushed;
    newSongsFound := 0;
    for j := 0 to |rows|
      invariant seenSongs2 == KeySet(allSongs2) && batchNumber2 == |flushed2|
      invariant file2 == Flushed(file, flushed2)
      invariant |allSongs2| == |allSongs| + newSongsFound
      invariant AdmitAll(Scan(allSongs2, batch2, flushed2), rows[j..], batchSize)
        == AdmitAll(Scan(allSongs, batch, flushed), rows, batchSize)
    {
      assert rows[j..][1..] == rows[j + 1..];
      ghost var before := Scan(allSongs2, batch2, flushed2);
      var added;
      allSongs2, seenSongs2, batch2, batchNumber2, file2, added, flushed2 :=
        AdmitRow(rows[j], batchSize, allSongs2, seenSongs2, batch2, batchNumber2, file2, flushed2, file);
      if added {
        newSongsFound := newSongsFound + 1;
      }
    }
  }

  /** The body of the `for row in rows` loop for one row. */
  method AdmitRow(row: RowHandle, batchSize: int, allSongs: seq<Row>, seenSongs: set<string>,
                  batch: seq<Row>, batchNumber: nat, file': LedgerFile,
                  ghost flushed: seq<seq<Row>>, ghost file: LedgerFile)
    returns (allSongs2: seq<Row>, seenSongs2: set<string>, batch2: seq<Row>, batchNumber2: nat,
             file2: LedgerFile, added: bool, ghost flushed2: seq<seq<Row>>)
    requires seenSongs == KeySet(allSongs) && batchNumber == |flushed|
    requires file' == Flushed(file, flushed)
    ensures Scan(allSongs2, batch2, flushed2) == Admit(Scan(allSongs, batch, flushed), row, batchSize)
    ensures |allSongs2| == |allSongs| + (if added then 1 else 0)
    ensures seenSongs2 == KeySet(allSongs2) && batchNumber2 == |flushed2|
    ensures file2 == Flushed(file, flushed2)
  {
    allSongs2, seenSongs2, batch2, batchNumber2, file2, flushed2 :=
      allSongs, seenSongs, batch, batchNumber, file', flushed;
    added := false;
    var songInfo := ExtractSongInfo(row, |allSongs| + 1);
    if songInfo.Some? {
      var songKey := Key(songInfo.value);
      if songKey !in seenSongs {
        var song := songInfo.value.(index := |allSongs| + 1);
        assert Admit(Scan(allSongs, batch, flushed), row, batchSize)
          == AddSong(Scan(allSongs, batch, flushed), song, batchSize);
        allSongs2, seenSongs2, batch2, batchNumber2, file2, flushed2 :=
          AddRow(song, batchSize, allSongs, seenSongs, batch, batchNumber, file', flushed, file);
        added := true;
      }
    }
  }

  /** A new song: remember its key, append it to the list and the batch, and save the batch once
      it holds `batchSize` songs. */
  method AddRow(song: Row, batchSize: int, allSongs: seq<Row>, seenSongs: set<string>,
                batch: seq<Row>, batchNumber: nat, file': LedgerFile,
                ghost flushed: seq<seq<Row>>, ghost file: LedgerFile)
    returns (allSongs2: seq<Row>, seenSongs2: set<string>, batch2: seq<Row>, batchNumber2: nat,
             file2: LedgerFile, ghost flushed2: seq<seq<Row>>)
    requires seenSongs == KeySet(allSongs) && batchNumber == |flushed|
    requires file' == Flushed(file, flushed)
    ensures Scan(allSongs2, batch2, flushed2) == AddSong(Scan(allSongs, batch, flushed), song, batchSize)
    ensures seenSongs2 == KeySet(allSongs2) && batchNumber2 == |flushed2|
    ensures file2 == Flushed(file, flushed2)
  {
    KeySetAppend(allSongs, song);
    seenSongs2 := seenSongs + {Key(song)};
    allSongs2 := allSongs + [song];
    batch2 := batch + [song];
    batchNumber2, file2, flushed2 := batchNumber, file', flushed;
    if |batch2| >= batchSize {
      batchNumber2, file2 := SaveBatch(batch2, batchNumber, file', flushed, file);
      flushed2 := flushed + [batch2];
      batch2 := [];
    }
  }

  /** `main`'s pipeline: scrape, then run the dedup pass over the ledger file. */
  method ScrapeLikedSongs(cycles: seq<seq<RowHandle>>, batchSize: int, file: LedgerFile)
    returns (songs: seq<Row>, file': LedgerFile, uniqueCount: Option<nat>)
    ensures songs == Scrape(cycles, batchSize).scan.all
    ensures songs != [] ==> file' == Some(Fresh(songs)) && uniqueCount == Some(|songs|)
    ensures songs == [] && file.None? ==> file' == None && uniqueCount == None
    ensures songs == [] && file.Some? ==>
      file' == Some(Fresh(DedupPass(ReadRows(file.value))))
      && uniqueCount == Some(|KeySet(ReadRows(file.value))|)
  {
    var scraped;
    songs, scraped := ScrollAndScrape(cycles, batchSize, file);
    file', uniqueCount := RemoveDuplicatesFromCsv(scraped);
    if songs != [] {
      ReadFresh(songs);
      DedupOfDistinct(songs);
      RenumberDense(songs);
      DistinctKeyCount(songs);
    }
  }
}
