# Spotify-to-YouTube-Music liked-songs transfer, modelled in Dafny

The system moves a user's liked songs from Spotify to YouTube Music in two stages.

- **The scraper** (`spotify_scraper.py`) scrolls the Spotify liked-songs page. Each cycle reads
  the visible track rows and extracts a title and an artist line from each one. It drops rows
  whose `song_name|artist_name` key it has already seen, numbers the new songs 1, 2, 3, … and
  saves them to a CSV ledger in batches: the first save overwrites the file, later ones append.
  It stops after 15 consecutive cycles without a new song. A final pass removes duplicate keys
  from the ledger and renumbers it from 1.
- **The uploader** (`youtube_music_uploader.py`) reads that ledger back and keeps the songs whose
  index is at least `START_INDEX`. For each one it searches the catalog for `"<song> <artist>"`
  and likes the first result. It counts successes, lists failures with their reason, and writes
  the failures to `failed_songs.csv`. It also holds a small parser that takes the `SAPISID` value
  out of a browser cookie string.

Files on disk are values: `File<R> = Option<seq<Line<R>>>`, where `None` means the file does not
exist. They are passed into and returned from the methods that write them. The live page is a
sequence of cycles, each the list of rows visible at that read. The music catalog is two function
parameters: `search` maps a query to its result list (or to the text of the exception it raised),
and `like` maps a video id to success or to an exception's text.

Modules, one file each:

- `Base` (`base.dfy`): `Option` and `Result`.
- `Text` (`text.dfy`): Python's `strip`, `split`, `join` and `split(c, 1)[1]`. Two lemmas check
  these definitions against their Python meaning: joining the pieces of a `Split` gives back the
  text, and stripping twice is the same as stripping once.
- `Csv` (`csv.dfy`): a file as header and data lines; `csv.DictReader` reading it back.
- `Ledger` (`ledger.dfy`): the ledger record, the dedup key, `save_to_csv` and
  `remove_duplicates_from_csv`.
- `Scraper` (`scraper.dfy`): `extract_song_info`, `scroll_and_scrape` and the scrape-then-dedup
  pipeline of the scraper's `main`.
- `Uploader` (`uploader.dfy`): the cookie parser, `load_songs_from_csv`, the `START_INDEX`
  filter, `search_and_like_song`, the transfer loop and the uploader's `main`.

The loops are proved against specification functions:

- `Scraper.ScrollAndScrape` against `Scraper.Scrape`.
- `Ledger.RemoveDuplicatesFromCsv` against `Ledger.Dedup` and `Ledger.Renumber`.
- `Uploader.Transfer` against `Uploader.Failures` and `Uploader.Successes`.

The properties the program relies on are lemmas about those functions.

## Model

| member | source | states |
|---|---|---|
| Ledger.Key | spotify_scraper.py:86 | The dedup key: song name, `\|`, artist name (the same text at line 236). Its properties are the dedup lemmas below and `KeyCollision`. |
| Ledger.Saved | spotify_scraper.py:58-70 | The file after one save, as a function of the file before, the batch and the mode. `SaveToCsv` is proved equal to it and `SaveKeepsLedger` states what it leaves. |
| Ledger.SaveToCsv | spotify_scraper.py:58-72 | The file afterwards is `Saved(file, songs, mode)`. Mode 'w' starts it afresh and 'a' keeps its lines. A header is written unless the mode is 'a' on an existing file. One line follows per song, in order. |
| Ledger.SaveKeepsLedger | spotify_scraper.py:60-70 | A missing file, or a header-plus-records file, stays a single header followed by records. 'w' (or a missing file) leaves exactly the batch; 'a' on an existing file leaves the old records followed by the batch. |
| Ledger.Dedup | spotify_scraper.py:80-89 | The records the first loop keeps. `DedupKeys`, `DedupIsFirstOccurrences`, `DedupOfDistinct` and `DedupIdempotent` state its properties. |
| Ledger.DedupKeySet | spotify_scraper.py:80-89 | The records kept have the same set of keys as the input: no key is lost. |
| Ledger.DedupKeys | spotify_scraper.py:80-89 | The records kept lose no key and never hold a key twice. |
| Ledger.DedupIsFirstOccurrences | spotify_scraper.py:80-89 | The loop keeps exactly the records that no earlier record shares a key with, in file order. This is checked against an independent definition, `FirstOccurrences`. |
| Ledger.DedupOfDistinct | spotify_scraper.py:80-89 | Records whose keys are already distinct pass through unchanged. |
| Ledger.DedupIdempotent | spotify_scraper.py:80-89 | Deduplicating twice is the same as deduplicating once. |
| Ledger.DistinctKeyCount | spotify_scraper.py:97-102 | With distinct keys, the number of records equals the number of keys. |
| Ledger.Renumber | spotify_scraper.py:97-99 | `song['index'] = i` from 1: the length is unchanged and indices are 1..N. Name, artist and timestamp are untouched. |
| Ledger.RenumberKeys | spotify_scraper.py:97-99 | Renumbering keeps the key set and keeps keys distinct. |
| Ledger.RenumberDense | spotify_scraper.py:97-99 | Records already numbered 1..N are unchanged by renumbering. |
| Ledger.DedupPass | spotify_scraper.py:80-99 | The records the pass writes back: deduplicated, then renumbered. `DedupPassResult` and `DedupPassIdempotent` state its properties. |
| Ledger.DedupPassResult | spotify_scraper.py:80-102 | After the pass, keys are distinct, no key is lost, indices are 1..N, and N is the number of distinct keys in the input. |
| Ledger.DedupPassIdempotent | spotify_scraper.py:80-99 | Running the dedup pass over its own output changes nothing. |
| Ledger.RemoveDuplicatesFromCsv | spotify_scraper.py:75-102 | A missing file stays missing and the result is None. Otherwise the file becomes a header plus the deduplicated, renumbered records, and the result is the number of distinct keys. |
| Ledger.RewriteLedger | spotify_scraper.py:92-99 | The rewrite loop sets each index in place to its 1-based position and emits a header, then one line per record. |
| Ledger.KeyCollision | spotify_scraper.py:86-88 | ("A\|B", "C") and ("A", "B\|C") get the same key, so the pass keeps only the first of them. |
| Scraper.NonBlankNames | spotify_scraper.py:169 | Every kept artist name is non-empty. `NonBlankNamesOne` and `NonBlankNamesAppend` pin down which names are kept and in what order. |
| Scraper.NonBlankNamesOne | spotify_scraper.py:169 | One artist text contributes its stripped text if that is non-empty, and nothing otherwise. |
| Scraper.NonBlankNamesAppend | spotify_scraper.py:169 | The kept names of consecutive texts follow one another: page order is kept. |
| Scraper.ArtistName | spotify_scraper.py:166-170 | `artist_name`: the kept names joined with ", ", or "" when there are no artist links. `ArtistNameEmpty` says when it is empty. |
| Scraper.ExtractSongInfo | spotify_scraper.py:147-193 | Returns None exactly when the row went stale, has no title element, or has a blank title. Otherwise the record carries the given index, the clock reading, the stripped, non-empty title, and the artist name built by `ArtistName` from the row's artist texts. |
| Scraper.ArtistNameEmpty | spotify_scraper.py:166-170 | `artist_name` is empty exactly when every artist text is blank (including when there are no artist links). |
| Scraper.NonBlankNamesEmpty | spotify_scraper.py:169 | The comprehension keeps nothing exactly when every text strips to empty. |
| Scraper.ExtractKeyIgnoresIndex | spotify_scraper.py:232-240 | Whether a row is extracted, and its key, do not depend on the index passed in. |
| Scraper.Admit | spotify_scraper.py:232-253 | One row either leaves `all_songs` as it was or appends exactly one song. |
| Scraper.AddSong | spotify_scraper.py:238-253 | A new song is appended to `all_songs`. |
| Scraper.AdmitAll | spotify_scraper.py:231-253 | A cycle only extends `all_songs`; it never drops or changes earlier songs. |
| Scraper.Continue | spotify_scraper.py:215-267 | The loop from a given cycle, stall count and state, as a specification: a cycle with no rows or no unseen key raises the count, a productive cycle resets it, and the loop ends when it reaches 15. `ContinueKeeps`, `ContinueCount` and `ContinueStops` state its properties. |
| Scraper.Scrape | spotify_scraper.py:198-267 | The whole loop from the empty state; `ScrollAndScrape` is proved equal to it, and `ScrapeStops`, `ScrapeGood` and `ScrapeLedger` state its properties. |
| Scraper.AdmitFacts | spotify_scraper.py:232-253 | One row keeps the loop's bookkeeping and adds exactly that row's key, if any. The bookkeeping is: distinct keys, `index` equal to position, flushed batches followed by the pending batch equal to `all_songs`, pending batch shorter than BATCH_SIZE, and full flushed batches. |
| Scraper.AddSongFacts | spotify_scraper.py:238-253 | Appending an unseen song numbered `len(all_songs) + 1` keeps the bookkeeping and adds exactly its key. |
| Scraper.AppendDistinct | spotify_scraper.py:238-243 | Appending an unseen key with the next index keeps keys distinct and indices dense. |
| Scraper.AddSongBatches | spotify_scraper.py:242-253 | After the append and the flush at BATCH_SIZE, the batches still concatenate to `all_songs`, the pending batch is short, and every flushed batch is full. |
| Scraper.AdmitAllFacts | spotify_scraper.py:231-253 | One cycle keeps the bookkeeping and adds exactly the keys its rows extract to. |
| Scraper.AdmitAllSeen | spotify_scraper.py:231-243 | A cycle whose rows offer only keys already seen changes nothing. |
| Scraper.ContinueKeeps | spotify_scraper.py:215-267 | Induction over the loop: any property of the cycle count and the state that every cycle preserves also holds when the loop ends. |
| Scraper.ContinueCount | spotify_scraper.py:218-243 | `all_songs` grows by exactly the sum of the per-cycle `new_songs_found`, and the loop runs at least one more cycle. |
| Scraper.ContinueStops | spotify_scraper.py:220-267 | The loop ends with 15 trailing cycles without a new song, and no earlier prefix of the history reached 15. |
| Scraper.StepFacts | spotify_scraper.py:217-253 | One cycle keeps the bookkeeping, and the keys held become the keys of every cycle read so far. |
| Scraper.StepTrailing | spotify_scraper.py:261-267 | The stall counter is reset to 0 after a cycle with a new song and raised by one after a cycle without. |
| Scraper.ScrapeStops | spotify_scraper.py:215-267 | For the whole scrape: the song count is the sum of the per-cycle counts, and the loop stops at the first point where 15 cycles in a row found no new song. |
| Scraper.ScrapeGood | spotify_scraper.py:198-253 | For the whole scrape: the bookkeeping holds, and `all_songs` holds exactly the keys of the cycles read. |
| Scraper.StartGood | spotify_scraper.py:198-202 | The initial empty state satisfies the bookkeeping. |
| Scraper.FlushedLedger | spotify_scraper.py:248-273 | Saving batches with mode 'w' first and 'a' after leaves one header followed by all their songs in order, whatever the file held before. |
| Scraper.WritesFlatten | spotify_scraper.py:248-273 | The flushed batches followed by the leftover batch hold every song in order, and there is no write exactly when there is no song. |
| Scraper.SameRowsEveryCycle | spotify_scraper.py:215-267 | A page that shows the same rows every cycle, at least one of them extractable, gives one song per distinct key after exactly 16 cycles (1 productive, 15 idle). |
| Scraper.FirstCycle | spotify_scraper.py:231-243 | The first cycle keeps one song per distinct extracted key. |
| Scraper.ScrapeFirst | spotify_scraper.py:215-267 | A first cycle that yields songs resets the counter, and the loop continues from the second cycle. |
| Scraper.StallsToEnd | spotify_scraper.py:261-265 | Once no later cycle offers an unseen key, the loop runs out its remaining stalls and adds nothing. |
| Scraper.ContinueNext | spotify_scraper.py:255-267 | A cycle that leaves the counter below 15 moves on to the next cycle with the updated counter. |
| Scraper.ContinueLast | spotify_scraper.py:261-265 | The cycle that brings the counter to 15 ends the loop. |
| Scraper.ScrollAndScrape | spotify_scraper.py:196-276 | Returns `Scrape(...)`'s `all_songs` with distinct keys and indices 1..N. The ledger is untouched when nothing was found; otherwise it is one header followed by every song. |
| Scraper.ScrollLoop | spotify_scraper.py:215-267 | The `while True` loop ends in the state `Scrape` specifies, with `batch_number` flushes written. |
| Scraper.ScrapeCycle | spotify_scraper.py:216-267 | One pass of the loop body, including the `if not rows` branch: the state `AdmitAll` gives, with the counter reset or raised by one. |
| Scraper.FlushLeftover | spotify_scraper.py:270-274 | The final `if batch:` save completes the file writes of the scan. |
| Scraper.SaveBatch | spotify_scraper.py:249-251 | Flush number `batch_number` uses 'w' when it is the first and 'a' otherwise. |
| Scraper.ScrapeLedger | spotify_scraper.py:236-273 | After a scrape: keys are distinct and indices are 1..N. The ledger is untouched if nothing was found; otherwise it is header plus songs. |
| Scraper.ScrapeRows | spotify_scraper.py:231-253 | The `for row in rows` loop gives the state `AdmitAll` specifies and counts the new songs. |
| Scraper.AdmitRow | spotify_scraper.py:232-253 | One row gives the state `Admit` specifies, and `seen_songs` stays the key set of `all_songs`. |
| Scraper.AddRow | spotify_scraper.py:238-253 | A new song gives the state `AddSong` specifies, including the save at BATCH_SIZE. |
| Scraper.ScrapeLikedSongs | spotify_scraper.py:326-331 | If the scrape found songs, the dedup pass leaves them as they are, and the count is their number. If it found none, the pass runs over whatever ledger was already there and the count is that ledger's number of distinct keys; with no ledger the result is None. |
| Uploader.ExtractSapisidFromCookie | youtube_music_uploader.py:43-49 | The parser: the loop below over the `;`-separated parts. `ExtractSapisidNone` and `ExtractSapisidAt` state what it returns. |
| Uploader.SapisidOf | youtube_music_uploader.py:46-48 | The loop body for one part; `SapisidOfPart` states when it yields a value and which. |
| Uploader.FirstFound | youtube_music_uploader.py:45-49 | A loop with an early return: the first part the body yields a value for, or None. `FirstFoundNone` and `FirstFoundAt` state both cases. |
| Uploader.SapisidOfPart | youtube_music_uploader.py:46-48 | A part is taken exactly when, once stripped, it starts with `SAPISID=`. Its value is everything after those eight characters, because only the first `=` splits. |
| Uploader.FirstFoundNone | youtube_music_uploader.py:45-49 | When no part is taken, the loop returns None. |
| Uploader.FirstFoundAt | youtube_music_uploader.py:45-48 | When part `i` is the first one taken, the loop returns its value. |
| Uploader.ExtractSapisidNone | youtube_music_uploader.py:43-49 | A cookie with no `;`-separated part that starts with `SAPISID=` after stripping yields None. |
| Uploader.ExtractSapisidAt | youtube_music_uploader.py:43-48 | Otherwise it yields the stripped first such part minus its `SAPISID=` prefix. That value may itself contain `=`. |
| Csv.ReadRows | youtube_music_uploader.py:164-165 | `csv.DictReader`: the first line gives the field names and every later line is a record (the same read as spotify_scraper.py:84-85). `ReadFresh` proves that a header-plus-records file reads back as its records. |
| Csv.ReadFresh | spotify_scraper.py:84-85 | A file written as header plus records reads back as exactly those records. |
| Uploader.SongsOfAppend | youtube_music_uploader.py:165-170 | Converting records to songs keeps order: converting a concatenation converts each part in turn. |
| Uploader.LoadSongsFromCsv | youtube_music_uploader.py:160-171 | A missing file is an error. Otherwise the result is one song per data line, in file order. |
| Uploader.LoadLedger | youtube_music_uploader.py:160-171 | A ledger written as header plus records reads back as exactly those records. |
| Uploader.SongsToProcess | youtube_music_uploader.py:228 | The filter never lengthens the list. |
| Uploader.SongsToProcessMembers | youtube_music_uploader.py:228 | A song is kept exactly when it is in the ledger and its index is at least `START_INDEX`. |
| Uploader.SongsToProcessAppend | youtube_music_uploader.py:228 | The filter keeps order: filtering a concatenation is filtering each part. |
| Uploader.ResumeFrom | youtube_music_uploader.py:228 | On a ledger numbered 1..N, a `START_INDEX` m with 1 <= m <= N+1 skips exactly the first m-1 songs. A `START_INDEX` below 1 keeps them all, and one above N keeps none. |
| Uploader.ResumeFromOffset | youtube_music_uploader.py:228 | The same for a run of songs numbered from any offset, for every `START_INDEX`. |
| Uploader.DenseLedgerNumbered | youtube_music_uploader.py:163-170 | A ledger the dedup pass wrote reads back numbered 1..N. |
| Uploader.SearchAndLike | youtube_music_uploader.py:174-206 | On success the returned video id is the one that was liked. On failure the video id is None. |
| Uploader.ResultTitle | youtube_music_uploader.py:199 | The matched title: the result's `title`, or "Unknown" when the key is absent. Used in the success message stated by `Messages`. |
| Uploader.ResultArtist | youtube_music_uploader.py:200-201 | The matched artist: the first artist's `name`; "Unknown" when that name is absent, when the artist list is empty, or when the key is absent (the `[{}]` default). |
| Uploader.MatchPolicy | youtube_music_uploader.py:181-197 | The search is made with the song name, one space, then the artist name. `rate_song` is called exactly when the search returned results whose first entry has a non-empty `videoId`, and only with that id. The song succeeds exactly when that call did not raise. |
| Uploader.Messages | youtube_music_uploader.py:186-206 | Empty results give "No results found". An unusable first id gives "No video ID in result". An exception in search or like gives "Error: " plus its text. A success reads "Matched: title - artist". |
| Uploader.OnlyFirstResult | youtube_music_uploader.py:189-203 | Result lists that agree on their first entry give the same outcome. |
| Uploader.QueryCollision | youtube_music_uploader.py:181 | The query is joined text, so ("A B", "C") and ("A", "B C") build the same query and get the same outcome whatever the catalog holds. |
| Uploader.SameQuerySameOutcome | youtube_music_uploader.py:181-184 | Songs whose name and artist form the same query get the same outcome. |
| Uploader.Failures | youtube_music_uploader.py:248-258 | There are never more failures than songs processed. |
| Uploader.Successes | youtube_music_uploader.py:248-250 | The number of processed songs whose attempt succeeded. `TransferCounts` relates it to the failures. |
| Uploader.LikedIds | youtube_music_uploader.py:197 | The ids passed to `rate_song`, in call order. `LikesBound` bounds them. |
| Uploader.LikesBound | youtube_music_uploader.py:197-250 | Every success was preceded by a `rate_song` call, and no song causes more than one. |
| Uploader.TransferCounts | youtube_music_uploader.py:239-258 | `success_count + len(failed_songs) == len(songs_to_process)`. |
| Uploader.FailuresAppend | youtube_music_uploader.py:239-258 | Failures are listed in processing order: two runs one after the other fail the songs of each in turn. |
| Uploader.FailureReasons | youtube_music_uploader.py:248-258 | Each failure keeps the index, name and artist of a processed song, and its reason is one of the failure messages. |
| Uploader.ErrorPrefix | youtube_music_uploader.py:186-206 | A failed attempt's message is "No results found", "No video ID in result", or starts with "Error: ". |
| Uploader.Transfer | youtube_music_uploader.py:233-261 | The loop's count, failure list and `rate_song` calls are those of the specification functions, and success count plus failures equals songs processed. |
| Uploader.Upload | youtube_music_uploader.py:209-276 | Without a client, nothing happens. A missing ledger stops the run. Otherwise the summary holds total, processed, successes (processed minus failures) and failures. `failed_songs.csv` becomes header plus failures only when some song failed. |
| Uploader.Process | youtube_music_uploader.py:223-267 | Filtering by `START_INDEX` then the transfer loop gives the failure list and counts the summary reports. |
| Uploader.TwoSongRun | youtube_music_uploader.py:239-258 | With a catalog that finds only the first of two songs, there is one success, and the second song fails with "No results found". |

## Left out

- Browser automation is not modelled: Selenium, `setup_driver`, the XPath/CSS fallbacks of `get_song_rows`, and the pyautogui mouse moves and scrolling. Each cycle's visible rows are an input sequence, and a cycle past its end shows no rows. How the page moves when scrolled is therefore not modelled.
- Because the page sequence is finite, the scroll loop always ends in the model. The program's `while True` ends only once the live page stops offering unseen keys for 15 cycles, and a page that kept offering new rows would keep it running.
- Inside `extract_song_info`, the two title selectors are collapsed into one optional title text, and any exception into `Stale`. The artist fallback under `NoSuchElementException` is not modelled separately, because `find_elements` does not raise it.
- Timing is not modelled: `time.sleep`, the login countdown, and `datetime.now()`. The `scraped_at` value is an opaque clock string carried by each row.
- Float settings are not modelled: `SCROLL_PAUSE_TIME`, `SCROLL_SPEED_MULTIPLIER` and `DELAY_BETWEEN_SONGS` affect only pacing. Environment and `.env` loading are also left out; `BATCH_SIZE` and `START_INDEX` are parameters.
- Console output (`print`) and the `input()` prompts are not modelled.
- `KeyboardInterrupt` handling and the closing of the browser are not modelled.
- Authentication is not modelled. `generate_sapisid_hash` uses SHA-1 and the wall clock. `setup_browser_auth` is interactive and writes a JSON file. `load_ytmusic` retries and deletes files. Whether a client was obtained is a boolean parameter of `Upload`.
- ytmusicapi is treated as two oracles. `search(query, filter="songs", limit=5)` becomes `search`, so the filter and the limit of five live inside the oracle. `rate_song` becomes `like`. `check_account.py` is not part of this model.
- CSV text encoding is not modelled. Quoting, escaping, newlines and UTF-8 are below the level of the model: a line is a header or one record.
- The `index` column is an integer in the model, so `int(row['index'])` failing on a malformed ledger is not modelled.
- A header line in the middle of a file is skipped in the model, where `csv.DictReader` would read it as a record. The program never writes one there.
- A ledger whose first line is a record rather than the header is not modelled as a failure. `csv.DictReader` would take that record's values as field names, and the program would then stop with a `KeyError` on `row['song_name']` or `row['index']`. The model instead drops the first line and reads the rest. The program itself always writes the header first.
- A search result key that is present but `null` is treated the same as an absent key.
- Uploader.Upload: a missing ledger is returned as `LedgerMissing`, whereas the program lets the `FileNotFoundError` end the run. Either way nothing is processed and nothing is written.
