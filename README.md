# webinardump download pipeline in Dafny

This project models the string and list logic of webinardump's segmented-video (HLS)
dump pipeline. It covers:

- how a media playlist is parsed into `.ts` chunk entries;
- which entries a run dispatches, given the `start_chunk` marker;
- the URL each chunk is fetched from and the file name it is stored under;
- the `files.txt` ledger that lets a later run skip chunks an earlier run wrote;
- the checks `_video_dump` makes;
- how the Yandex.Disk dumper picks the highest-resolution stream from its manifest;
- how the webinar.ru dumper splits a video URL into the ids of its manifest API URL.

It models the current `Dumper` family under `src/webinardump/dumpers/` and both older
copies of the same logic: the single-file `webinar.py`, and the stand-alone sequential
script `webinarru.py`.

Modules, one per concern of the program:

| module | file | models |
|---|---|---|
| `Wrappers`, `Errors` | wrappers.dfy | `Option`/`Result`, and the assertion or HTTP failure each error path ends in |
| `PyStr` | pystr.dfy | the Python `str` operations the source relies on: `partition`, `rpartition`, `endswith`, `strip`, `rstrip`, `splitlines`, `join`, `replace(x, y, 1)`, `isnumeric` |
| `Playlist` | playlist.dfy | `Dumper._chunks_get_list` and the stored-name rule |
| `Ledger` | ledger.dfy | `files.txt`: `dict.fromkeys(text.splitlines())` and `'\n'.join(...)` |
| `Dumping` | dumping.dfy | `_chunks_download`, `_video_dump` and `_get_args` of `Dumper`, as the class `Dumper` with a pure specification `DumpAll` |
| `YandexDisk` | yadisk.dfy | `_get_manifest`'s pattern search and `_get_playlist_and_title` |
| `WebinarRu` | webinarru.dfy | `WebinarRu._gather`'s URL checks, id split, manifest URL and headers |
| `LegacyWebinar` | legacy_webinar.dfy | webinar.py's `Dumper`: no ledger, referer passed on unstripped |
| `LegacyWebinarRu` | legacy_webinarru.dfy | webinarru.py: the strict `.ts` filter, sequential download stopping at the first failure, and `run` |

The network is an oracle. `fetchOk(url)` says whether a GET of `url` passes
`raise_for_status`, and `bodyOf(url)` gives the text of the response. Each class records
the GETs it issues (URL and `Referer`) and the chunk files in its dump directory. One
object stands for one title's dump directory, `<target_dir>/<title>`. The
current `Dumper` also holds the text of `files.txt`, and it is built over whatever
ledger and chunk files that directory already holds, since each process makes a new one, and the script also holds its
`Get idx/total` progress lines. The thread pool of `_chunks_download` is modelled as a
loop in playlist order in which every dispatched chunk is attempted. All futures are
submitted before any result is read, and the executor waits for all of them, so one
failed chunk does not stop the others. A run fails when any GET failed.

webinar.py repeats some of this logic line for line, and those copies are modelled by
the same members as the current files:

- `_chunks_get_list` at webinar.py:109-130 (`Playlist.ChunksGetList`);
- the `start_chunk` dispatch at webinar.py:160-166 (`Dumping.DispatchedCases`);
- `_get_manifest` at webinar.py:320-328 (`YandexDisk.ExtractManifest`);
- `_get_playlist_and_title` at webinar.py:330-347 (`YandexDisk.PlaylistAndTitle`, `YandexDisk.BestIsFirstMaximum`);
- the checks and URL of `WebinarRu._gather` at webinar.py:287-307 (`WebinarRu.Gather`).

## Model

| member | source | states |
|---|---|---|
| Playlist.StoredName | src/webinardump/dumpers/base.py:117 | the stored file name is the entry cut just before its first `?` (the whole entry when it has none): a `?`-free prefix that, when shorter than the entry, is followed by `?` |
| Playlist.IsChunkEntryPartition | src/webinardump/dumpers/base.py:87 | the filter keeps a line exactly when its text before the first `?` ends in `.ts` |
| Playlist.StripAll | src/webinardump/dumpers/base.py:84-85 | every playlist line is whitespace-stripped, in order |
| Playlist.ChunksGetList | src/webinardump/dumpers/base.py:73-94 | the loop returns exactly the qualifying stripped lines in order, and fails with `NoChunks` when there are none |
| Playlist.QualifyingPositions | src/webinardump/dumpers/base.py:84-90 | the kept lines are the qualifying lines at strictly increasing positions, unchanged, and no qualifying line is dropped |
| Playlist.ChunkEntriesPositions | src/webinardump/dumpers/base.py:84-90 | each parsed entry is the strip of a playlist line, in line order, and every line whose strip qualifies is parsed |
| Playlist.QualifyingWellFormed | src/webinardump/dumpers/base.py:84-90 | every kept entry qualifies, is non-empty, and has no line break and no whitespace at either end |
| Playlist.EntryWellFormed | src/webinardump/dumpers/base.py:85-87 | one qualifying stripped line is a well-formed entry |
| Playlist.ChunkEntriesWellFormed | src/webinardump/dumpers/base.py:84-90 | every entry of any parsed playlist is well formed, so its name can be kept in `files.txt` |
| Playlist.QualifyingSingle | src/webinardump/dumpers/base.py:84-90 | a single qualifying line is kept as its strip |
| Playlist.QueryEntryName | tests/test_basic.py:17 | the test entry `1.ts?some=other1` qualifies and is stored as `1.ts` |
| Playlist.QueryEntryKept | tests/test_basic.py:17 | a padded line holding that entry is kept with its query string |
| Ledger.Dedup | src/webinardump/dumpers/base.py:112 | `dict.fromkeys` keeps the names without duplicates and drops none |
| Ledger.Load | src/webinardump/dumpers/base.py:112 | the loaded ledger has no duplicates and its names have no line breaks |
| Ledger.DedupDistinct | src/webinardump/dumpers/base.py:112 | loading names that are already distinct keeps them as they are, in order |
| Ledger.SplitJoin | src/webinardump/dumpers/base.py:112-130 | `splitlines` of the `\n`-join gives back the names when none holds a line break and the last is non-empty |
| Ledger.LoadSave | src/webinardump/dumpers/base.py:112-130 | reading back a written ledger of such names gives the same names in the same order |
| Ledger.EmptyLastNameLost | src/webinardump/dumpers/base.py:112-130 | the round trip needs the condition: a trailing empty name is lost |
| Dumping.Gets | src/webinardump/dumpers/base.py:123 | one GET per URL, in order, each with the same `Referer` |
| Dumping.GetsAppend | src/webinardump/dumpers/base.py:123 | the GETs of two URL lists are the GETs of the first, then of the second |
| Dumping.GetsSnoc | src/webinardump/dumpers/base.py:123 | one more URL adds one more GET at the end |
| Dumping.ChunkUrlShape | src/webinardump/dumpers/base.py:147 | a chunk URL is a prefix of the root without trailing `/`, then `/`, then the whole entry, and the root continues with nothing but `/` |
| Dumping.PlaylistRoot | src/webinardump/dumpers/base.py:218 | the root is the playlist URL before its last `/`, or empty when it has no `/` |
| Dumping.PlaylistRootOf | src/webinardump/dumpers/base.py:218 | `head/file` with no `/` in `file` has root `head` |
| Dumping.PlaylistRootExample | tests/test_basic.py:16 | the root of `https://here/there.m3u8` is `https://here` |
| Dumping.ChunkUrlExample | tests/test_basic.py:16-18 | `https://here` with and without a trailing `/` plus `1.ts?some=other1` gives `https://here/1.ts?some=other1` |
| Dumping.FirstIndex | src/webinardump/dumpers/base.py:141 | the first position holding the marker |
| Dumping.DispatchedCases | src/webinardump/dumpers/base.py:139-145 | an empty marker dispatches every chunk, a present marker the suffix from its first occurrence, an absent one nothing |
| Dumping.DispatchedStep | src/webinardump/dumpers/base.py:139-145 | one pass of the dispatch loop keeps dispatched-so-far plus dispatched-from-here equal to the whole |
| Dumping.JobsIndex | src/webinardump/dumpers/base.py:147-157 | each dispatched entry gets the job made of its stored name and its chunk URL |
| Dumping.JobsSnoc | src/webinardump/dumpers/base.py:147-157 | one more entry adds its job at the end |
| Dumping.DumpAllSnoc | src/webinardump/dumpers/base.py:139-157 | dumping one more entry applies one more `dump` |
| Dumping.DumpOneFrom | src/webinardump/dumpers/base.py:115-130 | a `dump` call depends on the run so far only through the ledger, and the files it adds extend the ones added since loading |
| Dumping.DumpAllLedger | src/webinardump/dumpers/base.py:119-130 | the ledger and the GETs only grow, the ledger stays duplicate-free, and each name it gains is a job whose GET was issued and succeeded |
| Dumping.DumpAllOk | src/webinardump/dumpers/base.py:123-165 | a run succeeds exactly when every GET it issued succeeded |
| Dumping.DumpAllSkipsLedgered | src/webinardump/dumpers/base.py:119-121 | no GET is issued for a name the ledger already held |
| Dumping.DumpAllComplete | src/webinardump/dumpers/base.py:119-130 | after a successful run every job's name is in the ledger |
| Dumping.DumpAllNothingToDo | src/webinardump/dumpers/base.py:119-121 | when every name is already ledgered a run issues no GET and changes nothing |
| Dumping.JobNamesPersistable | src/webinardump/dumpers/base.py:117-130 | the names of parsed entries are non-empty and free of line breaks, so they survive `files.txt` |
| Dumping.ResumeFetchesNothing | src/webinardump/dumpers/base.py:109-130 | after a successful run, a second run of the same jobs from the rewritten `files.txt` issues no GET and writes nothing |
| Dumping.DumpAllDoneFrom | src/webinardump/dumpers/base.py:119-130 | the ledger after a run holds exactly the loaded names plus names of jobs |
| Dumping.Urls | src/webinardump/dumpers/base.py:147 | the URL of each job, in order |
| Dumping.DumpAllDistinct | src/webinardump/dumpers/base.py:119-124 | with distinct names, a run GETs exactly the jobs missing from the ledger, in order, whatever each GET's outcome |
| Dumping.MissingNothing | src/webinardump/dumpers/base.py:112-119 | with an empty ledger every job is missing |
| Dumping.FreshRunFetchesAll | src/webinardump/dumpers/base.py:110-124 | from an empty `files.txt` and with distinct names, a run GETs every dispatched chunk once, in order |
| Dumping.Dumper.constructor | src/webinardump/dumpers/base.py:45-51 | a new dumper has issued no GETs and starts over the dump directory as it finds it: the given `files.txt` text and chunk files, possibly left by an interrupted run |
| Dumping.Dumper.Dump | src/webinardump/dumpers/base.py:115-130 | one `dump`: skip a ledgered name; otherwise GET, and on success write the file, append the name and rewrite `files.txt` |
| Dumping.Dumper.ChunksDownload | src/webinardump/dumpers/base.py:96-168 | the loop leaves the GETs, files and `files.txt` that `DumpAll` of the dispatched jobs from the loaded ledger gives, and fails exactly when that run fails |
| Dumping.Dumper.VideoDump | src/webinardump/dumpers/base.py:197-236 | a non-`m3u8` URL fails before any GET, and a failed playlist GET or empty playlist fail before any download. Otherwise the chunks are downloaded from the playlist root with the stripped referer; success leaves `<title>.mp4` and removes the dump directory, and failure keeps the files and the ledger |
| Dumping.GetArgs | src/webinardump/dumpers/base.py:65-71 | the answers are keyed by every parameter of the input map, each holding the hook's answer for that parameter and hint |
| YandexDisk.Dimension | src/webinardump/dumpers/yadisk.py:36-39 | a stream has a dimension exactly when its label before the first `p` is numeric |
| YandexDisk.DimensionOfLabel | src/webinardump/dumpers/yadisk.py:36-39 | `720p` has dimension 720 |
| YandexDisk.AdaptiveSkipped | src/webinardump/dumpers/yadisk.py:37-38 | `adaptive` has no dimension |
| YandexDisk.Best | src/webinardump/dumpers/yadisk.py:35-42 | the picked index, when there is one, is a stream of the list |
| YandexDisk.BestIsFirstMaximum | src/webinardump/dumpers/yadisk.py:40-42 | the pick has the largest dimension of all streams, is the first stream with it, and is above 0; with nothing above 0 none is picked |
| YandexDisk.PlaylistAndTitle | src/webinardump/dumpers/yadisk.py:27-44 | the loop returns the first highest-resolution stream's URL, or `<none>`, with the first resource's name, and fails on a manifest without resources |
| YandexDisk.NoPlaylistRejected | src/webinardump/dumpers/yadisk.py:33 | `<none>` fails the `m3u8` check, so nothing is downloaded |
| YandexDisk.RunEnd | src/webinardump/dumpers/yadisk.py:21 | the greedy `[^<]+` run ends at the first `<` |
| YandexDisk.FirstMatchFrom | src/webinardump/dumpers/yadisk.py:21 | the first position at which the pattern matches, scanning left to right |
| YandexDisk.ExtractManifest | src/webinardump/dumpers/yadisk.py:20-23 | the result is the group of the leftmost match, and the search fails with `ManifestNotFound` exactly when the pattern matches nowhere |
| YandexDisk.ManifestShape | src/webinardump/dumpers/yadisk.py:21-23 | the extracted text is non-empty and holds no `<` |
| WebinarRu.HeadersMerge | src/webinardump/dumpers/webinarru.py:16-19 | the headers keep every base header with its value and add `Origin` |
| WebinarRu.Ids | src/webinardump/dumpers/webinarru.py:35-36 | the session id never holds `/` |
| WebinarRu.IdsOf | src/webinardump/dumpers/webinarru.py:35-36 | a URL of the form `prefix record-new/ session / video` yields exactly those ids |
| WebinarRu.IdsWithoutVideo | src/webinardump/dumpers/webinarru.py:36 | without a `/` after the separator the video id is empty |
| WebinarRu.ManifestUrlInjective | src/webinardump/dumpers/webinarru.py:40-41 | distinct ids give distinct manifest URLs |
| WebinarRu.Gather | src/webinardump/dumpers/webinarru.py:21-50 | an empty playlist URL fails first, then a video URL without `record-new/`. Otherwise the plan holds the manifest URL of the ids, the playlist URL and the raw video URL as referer |
| WebinarRu.GatherOf | src/webinardump/dumpers/webinarru.py:28-49 | a well-formed video URL passes both checks and yields the manifest URL of exactly its ids |
| WebinarRu.GatherExample | tests/test_basic.py:33-42 | the test's video URL with a leading space yields the ids `aaa` and `bbb` |
| WebinarRu.RefererStripped | src/webinardump/dumpers/base.py:225 | the referer's leading space is stripped before use |
| LegacyWebinar.Written | webinar.py:147-151 | a ledger-free run writes a file for every job whose GET succeeded, and only for those |
| LegacyWebinar.RunAllSnoc | webinar.py:160-178 | one more dispatched chunk applies one more `dump` |
| LegacyWebinar.RunAllUrls | webinar.py:145-151 | without a ledger every dispatched job is fetched, in order |
| LegacyWebinar.RunAllFiles | webinar.py:148-151 | the files written are exactly the names of jobs whose GET succeeded |
| LegacyWebinar.RunAllOk | webinar.py:148-186 | a run fails exactly when some GET fails |
| LegacyWebinar.FreshRunAgrees | webinar.py:145-154 | against an empty ledger and with distinct names the current dumper does what this one does on every run |
| LegacyWebinar.Dumper.constructor | webinar.py:85-91 | the dumper starts with no GETs and no files |
| LegacyWebinar.Dumper.Dump | webinar.py:145-151 | one `dump`: GET, and on success write the file under the entry cut at `?` |
| LegacyWebinar.Dumper.ChunksDownload | webinar.py:132-189 | the loop leaves the GETs and files of `RunAll` over the dispatched jobs and fails exactly when it fails |
| LegacyWebinar.Dumper.VideoDump | webinar.py:219-257 | the current `_video_dump`'s checks and outcomes, with the referer passed on unstripped and no ledger |
| LegacyWebinarRu.SessionHeadersAgree | webinarru.py:34-48 | the script's session headers equal the current webinar.ru dumper's |
| LegacyWebinarRu.GetChunks | webinarru.py:67-88 | the loop returns exactly the stripped lines ending in `.ts`, in order, and fails with `NoChunks` when there are none |
| LegacyWebinarRu.StrictMembers | webinarru.py:78-84 | a line is kept exactly when it is a stripped line ending in `.ts` |
| LegacyWebinarRu.StrictWithoutQuery | webinarru.py:81 | without `?` the strict and the current filter agree on a line |
| LegacyWebinarRu.StrictAgrees | webinarru.py:78-84 | when no line holds `?` both parsers keep the same lines |
| LegacyWebinarRu.QueryEntryDropped | webinarru.py:81 | `1.ts?some=other1` is dropped by the script but kept by the current parser |
| LegacyWebinarRu.QueryTailKept | webinarru.py:81 | `a?b.ts` is kept by the script but dropped by the current parser |
| LegacyWebinarRu.DispatchedSuffix | webinarru.py:109-115 | the chunks past the marker form a suffix of the list |
| LegacyWebinarRu.VisitsFromShape | webinarru.py:109-115 | the visited chunks are the dispatched ones, each numbered by its place in the whole list |
| LegacyWebinarRu.VisitsNumbering | webinarru.py:109-119 | the logged `idx` is the 1-based position in the full list, skipped chunks counted, and names that chunk |
| LegacyWebinarRu.VisitsStep | webinarru.py:109-115 | one pass of the loop keeps visited-so-far plus visits-from-here equal to the whole |
| LegacyWebinarRu.ScriptChunkUrlAgrees | webinarru.py:121 | for a root without trailing `/` the script's chunk URL is the current dumper's |
| LegacyWebinarRu.VisitUrls | webinarru.py:121 | one chunk URL per visit |
| LegacyWebinarRu.VisitUrlsIndex | webinarru.py:121 | each URL is root, `/`, and the visit's name as listed |
| LegacyWebinarRu.VisitNamesMembers | webinarru.py:125 | a file name is written for a visit exactly under that visit's name |
| LegacyWebinarRu.WalkAllSnoc | webinarru.py:109-127 | one more visit applies one more pass |
| LegacyWebinarRu.WalkAllStops | webinarru.py:124 | after a failed GET nothing more is logged, fetched or written |
| LegacyWebinarRu.WalkAllComplete | webinarru.py:117-127 | when every GET succeeds, every visit is logged, fetched and written |
| LegacyWebinarRu.WalkAllFailsAt | webinarru.py:119-125 | when visit `k` is the first to fail, visits up to and including `k` are logged and fetched, those before `k` are written, and the run fails |
| LegacyWebinarRu.WalkAllOk | webinarru.py:123-124 | the download fails exactly when some visit's GET fails |
| LegacyWebinarRu.RunPlan | webinarru.py:140-170 | a chunk-list URL without `/chunklist.m3u8` fails first, then an entry URL without `record-new/`. Otherwise it gives the manifest URL of the ids and the root with the first `/chunklist.m3u8` removed |
| LegacyWebinarRu.RunPlanManifestAgrees | webinarru.py:148-156 | the script asks for the same manifest as the current `_gather` |
| LegacyWebinarRu.RunPlanRootAgrees | webinarru.py:170 | for a chunk-list URL ending in its only `/chunklist.m3u8` the root is the text before it, which is also the current dumper's root |
| LegacyWebinarRu.Script.constructor | webinarru.py:34-48 | the script starts with no GETs, no files and no progress lines |
| LegacyWebinarRu.Script.GetChunk | webinarru.py:117-127 | one pass: log the chunk, GET it, and on success write it under its name as listed |
| LegacyWebinarRu.Script.DownloadChunks | webinarru.py:105-129 | the loop leaves the log, GETs and files of `WalkAll` over the visits, and fails exactly when that walk fails |
| LegacyWebinarRu.Script.Run | webinarru.py:132-182 | the URL checks come first. Then the manifest and chunk-list GETs, the parse and the download each fail in turn. Success leaves `<name>.mp4` and removes the dump directory, and failure keeps the chunks written |

## Left out

- HTTP: the `requests` session, `Retry`/`HTTPAdapter`, timeouts and streamed bodies are left out. A GET is the oracle `fetchOk`, and a successful one's text is `bodyOf`. Headers other than `Referer` are constants (`BaseHeaders`, `WebinarHeaders`, `SessionHeaders`), not part of each request.
- Concurrency: `ThreadPoolExecutor`, `as_completed` and the `Lock` are modelled as a sequential loop in playlist order. The race on `files_done[name] = True` outside the lock, the order in which futures complete, and the moment the first failure surfaces are not captured.
- Dumping.Dumper.ChunksDownload: a failed chunk is modelled as failing the whole call after every other chunk was attempted. The model does not capture which exception `future.result()` re-raises.
- Logging and floats: the progress percentages and the `Got counter/total` log are left out; that counter is one too high, because it is logged after the increment. The script's `Get idx/total` lines are kept as `(idx, name)` only.
- ffmpeg and the shell: `_video_concat`, `concat_chunks`, `sort -V` and `get_files_sorted` are left out. A successful dump is modelled as producing `<title>.mp4`.
- The filesystem: `mkdir`, `touch`, `chdir` and `shutil.move` are left out. `rmtree` of the dump directory is modelled as emptying the stored files (and `files.txt`), and a partial write of a failed chunk is not modelled.
- JSON: decoding is left out. Yandex.Disk's manifest is given already decoded, as its list of resources. The webinar.ru manifest's `name` is the oracle `nameOf`. A missing key (`KeyError`) is not modelled. An empty resource list, where `resources[0]` raises `IndexError`, is modelled as a failure.
- YandexDisk and WebinarRu `_gather`: the fetch of the page or manifest and the call into `_video_dump` are not composed into one method. Their parts are `ExtractManifest`, `PlaylistAndTitle`, `Gather` and `Dumper.VideoDump`.
- `sleep` in sleepy mode, the CLI in cli.py, the dumper registry and `tools/debug.py` are left out.
- YandexDisk.Dimension: `isnumeric` is modelled as a non-empty run of ASCII digits. Python's version also accepts other Unicode numerals, which `int()` may then reject.
- LegacyWebinarRu.Script.DownloadChunks: the referer is taken as a parameter. The script reads a global `url_entry` that only its `__main__` block defines, so `Run` passes its own entry URL. That URL equals the global when the script is started the usual way; the global is already stripped there.
- webinar.py's `_get_args` asks through `input` and is left out; the current `Dumping.GetArgs` models the hook-based version.
- LegacyWebinarRu.Script.Run: `run` returns nothing in the script. The model's success value names the video file it leaves.
- LegacyWebinar.Dumper.VideoDump: webinar.py's `_video_dump` returns nothing. The model's success value names the video file it leaves.
