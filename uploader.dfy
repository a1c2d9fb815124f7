/**
 * The transfer stage (`youtube_music_uploader.py`): reading the ledger back, the START_INDEX
 * resume filter, the first-result match policy of `search_and_like_song`, the transfer loop of
 * `main` with its failure list, and the SAPISID cookie parser.
 *
 * The music catalog is two oracles: `search` maps a query to the result list or to the text of
 * the exception it raised, and `like` maps a video id to success or to an exception's text.
 */
module Uploader {
  import opened Base
  import opened Text
  import opened Csv
  import opened Ledger

  // ---------------------------------------------------------------------------
  // extract_sapisid_from_cookie
  // ---------------------------------------------------------------------------

  const SapisidPrefix: string := "SAPISID="

  /** The loop body for one part: strip it; if it starts with `SAPISID=`, the text after its
      first `=`. */
  function SapisidOf(part: string): Option<string>
  {
    var stripped := Strip(part);
    if SapisidPrefix <= stripped then
      assert stripped[7] == '=';
      Some(AfterFirst(stripped, '='))
    else
      None
  }

  /** A loop with an early return: the first part for which `f` yields a value. */
  function FirstFound(parts: seq<string>, f: string -> Option<string>): Option<string>
  {
    if parts == [] then None
    else if f(parts[0]).Some? then f(parts[0])
    else FirstFound(parts[1..], f)
  }

  function ExtractSapisidFromCookie(cookie: string): Option<string>
  {
    FirstFound(Split(cookie, ';'), SapisidOf)
  }

  /** A part is taken exactly when, once stripped, it starts with `SAPISID=`, and its value is
      everything after those eight characters: only the first `=` separates, so later ones stay
      in the value. */
  lemma SapisidOfPart(part: string)
    ensures SapisidOf(part).Some? <==> SapisidPrefix <= Strip(part)
    ensures SapisidOf(part).Some? ==> SapisidOf(part).value == Strip(part)[|SapisidPrefix|..]
  {
    if SapisidPrefix <= Strip(part) {
      AfterFirstOfPrefix(Strip(part), "SAPISID", '=');
    }
  }

  /** With no part taken, the parser returns None. */
  lemma {:induction false} FirstFoundNone(parts: seq<string>, f: string -> Option<string>)
    requires forall i :: 0 <= i < |parts| ==> f(parts[i]).None?
    ensures FirstFound(parts, f) == None
  {
    if parts != [] {
      assert forall i :: 0 <= i < |parts[1..]| ==> parts[1..][i] == parts[i + 1];
      FirstFoundNone(parts[1..], f);
    }
  }

  /** When part `i` is the first part taken, the parser returns its value. */
  lemma {:induction false} FirstFoundAt(parts: seq<string>, f: string -> Option<string>, i: nat)
    requires i < |parts| && f(parts[i]).Some?
    requires forall j :: 0 <= j < i ==> f(parts[j]).None?
    ensures FirstFound(parts, f) == f(parts[i])
  {
    if i > 0 {
      assert forall j :: 0 <= j < i - 1 ==> parts[1..][j] == parts[j + 1];
      FirstFoundAt(parts[1..], f, i - 1);
    }
  }

  /** A cookie none of whose `;`-separated parts starts with `SAPISID=` once stripped yields None. */
  lemma ExtractSapisidNone(cookie: string)
    requires forall j :: 0 <= j < |Split(cookie, ';')| ==> !(SapisidPrefix <= Strip(Split(cookie, ';')[j]))
    ensures ExtractSapisidFromCookie(cookie) == None
  {
    var parts := Split(cookie, ';');
    forall j | 0 <= j < |parts| ensures SapisidOf(parts[j]).None? {
      SapisidOfPart(parts[j]);
    }
    FirstFoundNone(parts, SapisidOf);
  }

  /** When part `i` is the first that starts with `SAPISID=` once stripped, the parser yields
      everything after those eight characters. */
  lemma ExtractSapisidAt(cookie: string, i: nat)
    requires i < |Split(cookie, ';')| && SapisidPrefix <= Strip(Split(cookie, ';')[i])
    requires forall j :: 0 <= j < i ==> !(SapisidPrefix <= Strip(Split(cookie, ';')[j]))
    ensures ExtractSapisidFromCookie(cookie) == Some(Strip(Split(cookie, ';')[i])[|SapisidPrefix|..])
  {
    var parts := Split(cookie, ';');
    forall j | 0 <= j < i ensures SapisidOf(parts[j]).None? {
      SapisidOfPart(parts[j]);
    }
    SapisidOfPart(parts[i]);
    FirstFoundAt(parts, SapisidOf, i);
  }

  // ---------------------------------------------------------------------------
  // load_songs_from_csv and the START_INDEX filter
  // ---------------------------------------------------------------------------

  /** The record the uploader keeps of one ledger row. */
  datatype Song = Song(index: int, songName: string, artistName: string)

  function ToSong(row: Row): Song
  {
    Song(row.index, row.songName, row.artistName)
  }

  /** The records a ledger file reads back as, in file order. */
  function SongsOf(rows: seq<Row>): (songs: seq<Song>)
    ensures |songs| == |rows|
    ensures forall i :: 0 <= i < |rows| ==> songs[i] == ToSong(rows[i])
  {
    seq(|rows|, i requires 0 <= i < |rows| => ToSong(rows[i]))
  }

  /** Converting records one after another converts each in turn. */
  lemma SongsOfAppend(a: seq<Row>, b: seq<Row>)
    ensures SongsOf(a + b) == SongsOf(a) + SongsOf(b)
  {
    assert forall i :: 0 <= i < |a| ==> (a + b)[i] == a[i];
    assert forall i :: 0 <= i < |b| ==> (a + b)[|a| + i] == b[i];
  }

  /** Why the ledger could not be read: `open` raises when the file does not exist. */
  datatype LoadError = FileNotFound

  /** `load_songs_from_csv`: one record per data line of the file, in order. */
  method LoadSongsFromCsv(file: LedgerFile) returns (r: Result<seq<Song>, LoadError>)
    ensures file.None? <==> r.Err?
    ensures file.Some? ==> r == Ok(SongsOf(ReadRows(file.value)))
  {
    if file.None? {
      return Err(FileNotFound);
    }
    var rows := ReadRows(file.value);
    var songs: seq<Song> := [];
    for i := 0 to |rows|
      invariant songs == SongsOf(rows[..i])
    {
      songs := songs + [ToSong(rows[i])];
    }
    assert rows[..|rows|] == rows;
    return Ok(songs);
  }

  /** A ledger the scraper or the dedup pass wrote reads back as exactly its rows. */
  lemma LoadLedger(rows: seq<Row>)
    ensures SongsOf(ReadRows(Fresh(rows))) == SongsOf(rows)
  {
    ReadFresh(rows);
  }

  /** `songs_to_process`: the songs whose index is at least `startIndex`, in their order. */
  function SongsToProcess(songs: seq<Song>, startIndex: int): (r: seq<Song>)
    ensures |r| <= |songs|
  {
    if songs == [] then []
    else (if songs[0].index >= startIndex then [songs[0]] else []) + SongsToProcess(songs[1..], startIndex)
  }

  /** The filter keeps a song exactly when its index is at least `startIndex`. */
  lemma {:induction false} SongsToProcessMembers(songs: seq<Song>, startIndex: int)
    ensures forall x :: x in SongsToProcess(songs, startIndex) <==> x in songs && x.index >= startIndex
  {
    if songs != [] {
      SongsToProcessMembers(songs[1..], startIndex);
      assert forall x :: x in songs <==> x == songs[0] || x in songs[1..];
    }
  }

  /** The filter keeps order: filtering two runs of songs one after the other is filtering each. */
  lemma {:induction false} SongsToProcessAppend(a: seq<Song>, b: seq<Song>, startIndex: int)
    ensures SongsToProcess(a + b, startIndex) == SongsToProcess(a, startIndex) + SongsToProcess(b, startIndex)
  {
    if a == [] {
      assert a + b == b;
    } else {
      var head := if a[0].index >= startIndex then [a[0]] else [];
      assert (a + b)[0] == a[0] && (a + b)[1..] == a[1..] + b;
      assert SongsToProcess(a + b, startIndex) == head + SongsToProcess(a[1..] + b, startIndex);
      assert SongsToProcess(a, startIndex) == head + SongsToProcess(a[1..], startIndex);
      SongsToProcessAppend(a[1..], b, startIndex);
      assert head + (SongsToProcess(a[1..], startIndex) + SongsToProcess(b, startIndex))
        == (head + SongsToProcess(a[1..], startIndex)) + SongsToProcess(b, startIndex);
    }
  }

  /** Songs numbered 1..N, as the dedup pass leaves them. */
  predicate Numbered(songs: seq<Song>)
  {
    forall i :: 0 <= i < |songs| ==> songs[i].index == i + 1
  }

  /** Resuming: on songs numbered 1..N, START_INDEX m with 1 <= m <= N + 1 skips exactly the
      first m - 1 songs, a lower START_INDEX keeps them all, and a higher one keeps none. */
  lemma ResumeFrom(songs: seq<Song>, startIndex: int)
    requires Numbered(songs)
    ensures SongsToProcess(songs, startIndex)
      == songs[(if startIndex < 1 then 0 else if startIndex - 1 > |songs| then |songs| else startIndex - 1)..]
  {
    ResumeFromOffset(songs, startIndex, 0);
  }

  lemma {:induction false} ResumeFromOffset(songs: seq<Song>, startIndex: int, offset: nat)
    requires forall i :: 0 <= i < |songs| ==> songs[i].index == offset + i + 1
    ensures var from := if startIndex <= offset + 1 then 0
                        else if startIndex - offset - 1 > |songs| then |songs|
                        else startIndex - offset - 1;
      SongsToProcess(songs, startIndex) == songs[from..]
    decreases |songs|
  {
    if songs != [] {
      var tail := songs[1..];
      assert forall i :: 0 <= i < |tail| ==> tail[i].index == (offset + 1) + i + 1;
      ResumeFromOffset(tail, startIndex, offset + 1);
      var rest := SongsToProcess(tail, startIndex);
      if startIndex <= offset + 1 {
        assert SongsToProcess(songs, startIndex) == [songs[0]] + rest;
        assert rest == tail;
        assert [songs[0]] + tail == songs;
      } else if startIndex - offset - 1 > |songs| {
        assert SongsToProcess(songs, startIndex) == [] + rest;
        assert rest == tail[|tail|..] == [];
      } else {
        assert SongsToProcess(songs, startIndex) == [] + rest;
        assert tail[startIndex - offset - 2..] == songs[startIndex - offset - 1..];
      }
    }
  }

  /** A ledger renumbered by the dedup pass reads back numbered 1..N. */
  lemma DenseLedgerNumbered(rows: seq<Row>)
    requires Dense(rows)
    ensures Numbered(SongsOf(ReadRows(Fresh(rows))))
  {
    ReadFresh(rows);
  }

  // ---------------------------------------------------------------------------
  // search_and_like_song
  // ---------------------------------------------------------------------------

  /** One search result: `videoId` and `title` are None when the key is absent, `artists` is
      None when the key is absent and otherwise holds each artist's `name` (None when absent). */
  datatype Candidate = Candidate(videoId: Option<string>, title: Option<string>,
                                 artists: Option<seq<Option<string>>>)

  /** What `ytmusic.search(query, filter="songs", limit=5)` did. */
  datatype SearchReply = Results(candidates: seq<Candidate>) | SearchRaised(searchError: string)

  /** What `ytmusic.rate_song(video_id, 'LIKE')` did. */
  datatype LikeReply = Liked | LikeRaised(likeError: string)

  /** The triple `(success, video_id, message)`. */
  datatype Outcome = Outcome(success: bool, videoId: Option<string>, message: string)

  /** The outcome together with the video id passed to `rate_song`, if it was called. */
  datatype Attempt = Attempt(outcome: Outcome, liked: Option<string>)

  const NoResults: string := "No results found"
  const NoVideoId: string := "No video ID in result"

  /** The query string: the song name, one space, the artist name. */
  function Query(songName: string, artistName: string): string
  {
    songName + " " + artistName
  }

  /** `best_match.get('title', 'Unknown')`. */
  function ResultTitle(c: Candidate): string
  {
    if c.title.Some? then c.title.value else "Unknown"
  }

  /** `artists[0].get('name', 'Unknown') if artists else 'Unknown'`, with `[{}]` for a missing key. */
  function ResultArtist(c: Candidate): string
  {
    match c.artists
    case None => "Unknown"
    case Some(names) => if names != [] && names[0].Some? then names[0].value else "Unknown"
  }

  /** A video id that `if not video_id` accepts. */
  predicate UsableId(id: Option<string>)
  {
    id.Some? && id.value != ""
  }

  function SearchAndLike(search: string -> SearchReply, like: string -> LikeReply,
                         songName: string, artistName: string): (a: Attempt)
    ensures a.outcome.success ==> a.outcome.videoId == a.liked
    ensures !a.outcome.success ==> a.outcome.videoId == None
  {
    match search(Query(songName, artistName))
    case SearchRaised(e) => Attempt(Outcome(false, None, "Error: " + e), None)
    case Results(results) =>
      if results == [] then Attempt(Outcome(false, None, NoResults), None)
      else
        var best := results[0];
        if !UsableId(best.videoId) then Attempt(Outcome(false, None, NoVideoId), None)
        else
          var id := best.videoId.value;
          match like(id)
          case LikeRaised(e) => Attempt(Outcome(false, None, "Error: " + e), Some(id))
          case Liked =>
            Attempt(Outcome(true, Some(id), "Matched: " + ResultTitle(best) + " - " + ResultArtist(best)),
                    Some(id))
  }

  /** The match policy: a song succeeds exactly when the search returned results whose first
      entry has a usable video id and liking that id did not raise; `rate_song` is called only
      with the first result's id, and never when the results are empty or that id is unusable. */
  lemma MatchPolicy(search: string -> SearchReply, like: string -> LikeReply,
                    songName: string, artistName: string)
    ensures var a := SearchAndLike(search, like, songName, artistName);
      var reply := search(songName + " " + artistName);
      && (a.liked.Some? <==>
            reply.Results? && reply.candidates != [] && UsableId(reply.candidates[0].videoId))
      && (a.liked.Some? ==> a.liked == reply.candidates[0].videoId)
      && (a.outcome.success <==> a.liked.Some? && like(a.liked.value) == Liked)
  {
  }

  /** The failure messages: an empty result list, an unusable first id, or an exception's text
      after `Error: `; a success always reads `Matched: <title> - <artist>`. */
  lemma Messages(search: string -> SearchReply, like: string -> LikeReply,
                 songName: string, artistName: string)
    ensures var a := SearchAndLike(search, like, songName, artistName);
      var reply := search(songName + " " + artistName);
      && (reply.Results? && reply.candidates == [] ==> a.outcome == Outcome(false, None, NoResults))
      && (reply.Results? && reply.candidates != [] && !UsableId(reply.candidates[0].videoId) ==>
            a.outcome == Outcome(false, None, NoVideoId))
      && (reply.SearchRaised? ==> a.outcome == Outcome(false, None, "Error: " + reply.searchError))
      && (a.liked.Some? && like(a.liked.value).LikeRaised? ==>
            a.outcome == Outcome(false, None, "Error: " + like(a.liked.value).likeError))
      && (a.outcome.success ==>
            a.outcome.message == "Matched: " + ResultTitle(reply.candidates[0]) + " - "
                                 + ResultArtist(reply.candidates[0]))
  {
  }

  /** Only the first result is consulted: results that agree on their first entry give the same
      outcome whatever follows it. */
  lemma OnlyFirstResult(search1: string -> SearchReply, search2: string -> SearchReply,
                        like: string -> LikeReply, songName: string, artistName: string,
                        best: Candidate, rest1: seq<Candidate>, rest2: seq<Candidate>)
    requires search1(Query(songName, artistName)) == Results([best] + rest1)
    requires search2(Query(songName, artistName)) == Results([best] + rest2)
    ensures SearchAndLike(search1, like, songName, artistName)
      == SearchAndLike(search2, like, songName, artistName)
  {
  }

  /** The query is joined text, so ("A B", "C") and ("A", "B C") are the same search and end
      the same way, whatever the catalog holds. */
  lemma QueryCollision(search: string -> SearchReply, like: string -> LikeReply)
    ensures Query("A B", "C") == Query("A", "B C")
    ensures SearchAndLike(search, like, "A B", "C") == SearchAndLike(search, like, "A", "B C")
  {
    assert Query("A B", "C") == "A B C" == Query("A", "B C");
  }

  /** Songs whose name and artist join to the same query get the same outcome. */
  lemma SameQuerySameOutcome(search: string -> SearchReply, like: string -> LikeReply,
                             name1: string, artist1: string, name2: string, artist2: string)
    requires Query(name1, artist1) == Query(name2, artist2)
    ensures SearchAndLike(search, like, name1, artist1).outcome
      == SearchAndLike(search, like, name2, artist2).outcome
  {
  }

  // ---------------------------------------------------------------------------
  // The transfer loop of main
  // ---------------------------------------------------------------------------

  /** One line of `failed_songs.csv`. */
  datatype FailedSong = FailedSong(index: int, songName: string, artistName: string, reason: string)

  function Attempted(search: string -> SearchReply, like: string -> LikeReply, song: Song): Attempt
  {
    SearchAndLike(search, like, song.songName, song.artistName)
  }

  /** The songs that failed, in processing order, each with the message it failed with. */
  function Failures(songs: seq<Song>, search: string -> SearchReply, like: string -> LikeReply)
    : (failed: seq<FailedSong>)
    ensures |failed| <= |songs|
  {
    if songs == [] then []
    else
      var last := songs[|songs| - 1];
      var outcome := Attempted(search, like, last).outcome;
      Failures(songs[..|songs| - 1], search, like)
        + (if outcome.success then []
           else [FailedSong(last.index, last.songName, last.artistName, outcome.message)])
  }

  /** How many songs succeeded. */
  function Successes(songs: seq<Song>, search: string -> SearchReply, like: string -> LikeReply): nat
  {
    if songs == [] then 0
    else
      Successes(songs[..|songs| - 1], search, like)
        + (if Attempted(search, like, songs[|songs| - 1]).outcome.success then 1 else 0)
  }

  /** The ids passed to `rate_song`, in call order: at most one per song. */
  function LikedIds(songs: seq<Song>, search: string -> SearchReply, like: string -> LikeReply)
    : seq<string>
  {
    if songs == [] then []
    else
      var a := Attempted(search, like, songs[|songs| - 1]);
      LikedIds(songs[..|songs| - 1], search, like) + (if a.liked.Some? then [a.liked.value] else [])
  }

  /** Every success was preceded by a `rate_song` call, and no song causes more than one. */
  lemma {:induction false} LikesBound(songs: seq<Song>, search: string -> SearchReply,
                                      like: string -> LikeReply)
    ensures Successes(songs, search, like) <= |LikedIds(songs, search, like)| <= |songs|
  {
    if songs != [] {
      LikesBound(songs[..|songs| - 1], search, like);
    }
  }

  /** Every processed song is counted exactly once: as a success or as a failure. */
  lemma {:induction false} TransferCounts(songs: seq<Song>, search: string -> SearchReply,
                                          like: string -> LikeReply)
    ensures Successes(songs, search, like) + |Failures(songs, search, like)| == |songs|
  {
    if songs != [] {
      TransferCounts(songs[..|songs| - 1], search, like);
    }
  }

  /** Processing one list after another fails the songs of each in turn. */
  lemma {:induction false} FailuresAppend(a: seq<Song>, b: seq<Song>, search: string -> SearchReply,
                                          like: string -> LikeReply)
    ensures Failures(a + b, search, like) == Failures(a, search, like) + Failures(b, search, like)
    decreases |b|
  {
    if b == [] {
      assert a + b == a;
    } else {
      var b' := b[..|b| - 1];
      assert (a + b)[..|a + b| - 1] == a + b';
      FailuresAppend(a, b', search, like);
    }
  }

  /** Each failure names a processed song, keeps its fields, and carries one of the failure
      messages of `search_and_like_song`. */
  lemma {:induction false} FailureReasons(songs: seq<Song>, search: string -> SearchReply,
                                          like: string -> LikeReply)
    ensures forall f :: f in Failures(songs, search, like) ==>
      && (exists s :: s in songs && f.index == s.index && f.songName == s.songName
                      && f.artistName == s.artistName)
      && (f.reason == NoResults || f.reason == NoVideoId || "Error: " <= f.reason)
  {
    if songs != [] {
      var init := songs[..|songs| - 1];
      FailureReasons(init, search, like);
      var last := songs[|songs| - 1];
      var a := Attempted(search, like, last);
      forall f | f in Failures(songs, search, like)
        ensures exists s :: s in songs && f.index == s.index && f.songName == s.songName
                            && f.artistName == s.artistName
      {
        if f in Failures(init, search, like) {
          var s :| s in init && f.index == s.index && f.songName == s.songName
                   && f.artistName == s.artistName;
          assert s in songs;
        } else {
          assert last in songs;
        }
      }
      if !a.outcome.success {
        ErrorPrefix(a.outcome.message, search, like, last);
      }
    }
  }

  lemma ErrorPrefix(message: string, search: string -> SearchReply, like: string -> LikeReply,
                    song: Song)
    requires message == Attempted(search, like, song).outcome.message
    requires !Attempted(search, like, song).outcome.success
    ensures message == NoResults || message == NoVideoId || "Error: " <= message
  {
  }

  /** The `for song in songs_to_process` loop: count the successes, list the failures. The ids
      passed to `rate_song` are returned too, in call order. */
  method Transfer(toProcess: seq<Song>, search: string -> SearchReply, like: string -> LikeReply)
    returns (successCount: nat, failedSongs: seq<FailedSong>, likes: seq<string>)
    ensures successCount == Successes(toProcess, search, like)
    ensures failedSongs == Failures(toProcess, search, like)
    ensures likes == LikedIds(toProcess, search, like)
    ensures successCount + |failedSongs| == |toProcess|
  {
    successCount := 0;
    failedSongs := [];
    likes := [];
    for i := 0 to |toProcess|
      invariant successCount == Successes(toProcess[..i], search, like)
      invariant failedSongs == Failures(toProcess[..i], search, like)
      invariant likes == LikedIds(toProcess[..i], search, like)
    {
      assert toProcess[..i + 1][..i] == toProcess[..i];
      var song := toProcess[i];
      var attempt := SearchAndLike(search, like, song.songName, song.artistName);
      if attempt.liked.Some? {
        likes := likes + [attempt.liked.value];
      }
      var outcome := attempt.outcome;
      if outcome.success {
        successCount := successCount + 1;
      } else {
        failedSongs := failedSongs + [FailedSong(song.index, song.songName, song.artistName, outcome.message)];
      }
    }
    assert toProcess[..|toProcess|] == toProcess;
    TransferCounts(toProcess, search, like);
  }

  // ---------------------------------------------------------------------------
  // main
  // ---------------------------------------------------------------------------

  /** The counts `main` reports. */
  datatype Summary = Summary(totalSongs: nat, processed: nat, successCount: nat, failedCount: nat)

  /** Why `main` stopped early: no API client, or the ledger file is missing. */
  datatype UploadError = NoClient | LedgerMissing

  /** `main`: with a client, read the ledger, keep the songs from `startIndex` on, run the
      transfer loop, and write `failed_songs.csv` (header plus failures) only when some song
      failed; otherwise that file is left as it was. */
  method Upload(haveClient: bool, ledger: LedgerFile, startIndex: int,
                search: string -> SearchReply, like: string -> LikeReply,
                failedFile: File<FailedSong>)
    returns (r: Result<Summary, UploadError>, failedFile': File<FailedSong>)
    ensures !haveClient ==> r == Err(NoClient) && failedFile' == failedFile
    ensures haveClient && ledger.None? ==> r == Err(LedgerMissing) && failedFile' == failedFile
    ensures haveClient && ledger.Some? ==>
      var songs := SongsOf(ReadRows(ledger.value));
      var toProcess := SongsToProcess(songs, startIndex);
      var failed := Failures(toProcess, search, like);
      && r == Ok(Summary(|songs|, |toProcess|, |toProcess| - |failed|, |failed|))
      && failedFile' == if failed == [] then failedFile else Some(Fresh(failed))
  {
    failedFile' := failedFile;
    if !haveClient {
      return Err(NoClient), failedFile';
    }
    var loaded := LoadSongsFromCsv(ledger);
    if loaded.Err? {
      return Err(LedgerMissing), failedFile';
    }
    var summary, failedSongs := Process(loaded.value, startIndex, search, like);
    if failedSongs != [] {
      failedFile' := Some(Fresh(failedSongs));
    }
    r := Ok(summary);
  }

  /** The part of `main` between loading and saving: filter by `startIndex`, run the transfer
      loop, and count. */
  method Process(songs: seq<Song>, startIndex: int, search: string -> SearchReply,
                 like: string -> LikeReply)
    returns (summary: Summary, failedSongs: seq<FailedSong>)
    ensures var toProcess := SongsToProcess(songs, startIndex);
      && failedSongs == Failures(toProcess, search, like)
      && summary == Summary(|songs|, |toProcess|, |toProcess| - |failedSongs|, |failedSongs|)
  {
    var toProcess := SongsToProcess(songs, startIndex);
    var successCount, failed, likes := Transfer(toProcess, search, like);
    failedSongs := failed;
    summary := Summary(|songs|, |toProcess|, successCount, |failedSongs|);
  }

  /** A run over two songs: the catalog finds the first and returns nothing for the second. */
  lemma TwoSongRun()
    ensures var search := (q: string) =>
              if q == "Song A Artist X" then Results([Candidate(Some("v1"), Some("A"), Some([Some("X")]))])
              else Results([]);
      var like := (id: string) => Liked;
      var songs := [Song(1, "Song A", "Artist X"), Song(2, "Song B", "Artist Y")];
      && Successes(songs, search, like) == 1
      && Failures(songs, search, like) == [FailedSong(2, "Song B", "Artist Y", NoResults)]
  {
    var search := (q: string) =>
      if q == "Song A Artist X" then Results([Candidate(Some("v1"), Some("A"), Some([Some("X")]))])
      else Results([]);
    var like := (id: string) => Liked;
    var songs := [Song(1, "Song A", "Artist X"), Song(2, "Song B", "Artist Y")];
    assert songs[..1] == [Song(1, "Song A", "Artist X")];
    assert songs[..1][..0] == [];
    assert Query("Song B", "Artist Y") != "Song A Artist X" by {
      assert Query("Song B", "Artist Y")[5] == 'B';
    }
  }
}
