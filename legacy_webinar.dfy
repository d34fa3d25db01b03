/**
 * The older single-file `Dumper` (webinar.py): the same playlist parser, chunk naming,
 * chunk URLs and `start_chunk` dispatch as the current one, but with no `files.txt`
 * ledger, so every dispatched chunk is fetched on every run, and with the referer
 * passed on as given, without stripping.
 *
 * As in the current model, the thread pool is a loop in playlist order in which every
 * dispatched chunk is attempted, and the network is the oracle `fetchOk`.
 */
module LegacyWebinar {
  import opened Wrappers
  import opened Errors
  import opened PyStr
  import opened Playlist
  import opened Dumping

  /** The names of the chunk files a ledger-free run writes: the jobs whose GET succeeds, in order. */
  function Written(jobs: seq<Job>, fetchOk: string -> bool): (names: seq<string>)
    ensures |names| <= |jobs|
    ensures forall n :: n in names ==> exists i :: 0 <= i < |jobs| && jobs[i].name == n && fetchOk(jobs[i].url)
    ensures forall i :: 0 <= i < |jobs| && fetchOk(jobs[i].url) ==> jobs[i].name in names
    decreases |jobs|
  {
    if jobs == [] then []
    else
      var n := |jobs| - 1;
      var init := Written(jobs[..n], fetchOk);
      assert forall i :: 0 <= i < n ==> jobs[..n][i] == jobs[i];
      if fetchOk(jobs[n].url) then init + [jobs[n].name] else init
  }

  /** What a ledger-free run has done so far: the URLs it GETs, the files it wrote, no failure yet. */
  datatype Run = Run(urls: seq<string>, files: set<string>, ok: bool)

  /** One call of the nested `dump`: GET the URL and, on success, write the file. */
  function Attempt(r: Run, job: Job, fetchOk: string -> bool): Run {
    Run(r.urls + [job.url], r.files + (if fetchOk(job.url) then {job.name} else {}), r.ok && fetchOk(job.url))
  }

  /** `dump` applied to each job in turn, from a run that has done nothing. */
  function RunAll(jobs: seq<Job>, fetchOk: string -> bool): Run
    decreases |jobs|
  {
    if jobs == [] then Run([], {}, true)
    else Attempt(RunAll(jobs[..|jobs| - 1], fetchOk), jobs[|jobs| - 1], fetchOk)
  }

  /** Dumping one more job. */
  lemma RunAllSnoc(jobs: seq<Job>, job: Job, fetchOk: string -> bool)
    ensures RunAll(jobs + [job], fetchOk) == Attempt(RunAll(jobs, fetchOk), job, fetchOk)
  {
    assert (jobs + [job])[..|jobs|] == jobs;
  }

  /** A run GETs every job, in order, whatever the outcome of each GET. */
  lemma {:induction false} RunAllUrls(jobs: seq<Job>, fetchOk: string -> bool)
    ensures RunAll(jobs, fetchOk).urls == Urls(jobs)
    decreases |jobs|
  {
    if jobs != [] {
      RunAllUrls(jobs[..|jobs| - 1], fetchOk);
    }
  }

  /** A run leaves exactly the files of the jobs whose GET succeeds. */
  lemma {:induction false} RunAllFiles(jobs: seq<Job>, fetchOk: string -> bool)
    ensures forall n :: n in RunAll(jobs, fetchOk).files <==> n in Written(jobs, fetchOk)
    decreases |jobs|
  {
    if jobs != [] {
      RunAllFiles(jobs[..|jobs| - 1], fetchOk);
    }
  }

  /** A run fails exactly when some GET fails. */
  lemma {:induction false} RunAllOk(jobs: seq<Job>, fetchOk: string -> bool)
    ensures RunAll(jobs, fetchOk).ok <==> forall i :: 0 <= i < |jobs| ==> fetchOk(jobs[i].url)
    decreases |jobs|
  {
    if jobs != [] {
      var n := |jobs| - 1;
      var init := jobs[..n];
      RunAllOk(init, fetchOk);
      assert forall i :: 0 <= i < n ==> init[i] == jobs[i];
    }
  }

  /**
   * Against an empty ledger, and with distinct names, the current dumper does what
   * this one does on every run: it GETs every job, records exactly the names written,
   * and fails exactly when some GET fails.
   */
  lemma {:induction false} FreshRunAgrees(jobs: seq<Job>, fetchOk: string -> bool)
    requires DistinctNames(jobs)
    ensures var r := RunAll(jobs, fetchOk);
      DumpAll(Outcome([], [], true), jobs, fetchOk) == Outcome(Written(jobs, fetchOk), r.urls, r.ok)
    decreases |jobs|
  {
    if jobs != [] {
      var n := |jobs| - 1;
      var init, last := jobs[..n], jobs[n];
      assert DistinctNames(init) by {
        forall i, j | 0 <= i < j < |init| ensures init[i].name != init[j].name {
          assert init[i] == jobs[i] && init[j] == jobs[j];
        }
      }
      FreshRunAgrees(init, fetchOk);
      forall i | 0 <= i < |init| ensures init[i].name != last.name {
        assert init[i] == jobs[i];
      }
    }
  }

  /**
   * One dump directory of a run of the older `Dumper`: the chunk files written and
   * every GET issued. `fetchOk` and `bodyOf` stand for the server.
   */
  class Dumper {
    /** The names of the chunk files in the dump directory. */
    var stored: set<string>
    /** Every GET issued, in order. */
    var requests: seq<Request>
    /** Whether the server answers a GET of a URL with a success status. */
    const fetchOk: string -> bool
    /** The body of a successful GET of a URL. */
    const bodyOf: string -> string

    constructor(fetchOk: string -> bool, bodyOf: string -> string)
      ensures this.fetchOk == fetchOk && this.bodyOf == bodyOf
      ensures stored == {} && requests == []
    {
      this.fetchOk := fetchOk;
      this.bodyOf := bodyOf;
      stored := {};
      requests := [];
    }

    /** The nested `dump`: GET the URL and, on success, write the file under the entry cut at `?`. */
    method Dump(entry: string, url: string, referer: Option<string>) returns (ok: bool)
      modifies this
      ensures ok == fetchOk(url)
      ensures requests == old(requests) + [Request(url, referer)]
      ensures stored == old(stored) + (if ok then {StoredName(entry)} else {})
    {
      requests := requests + [Request(url, referer)];
      ok := fetchOk(url);
      if ok {
        stored := stored + {StoredName(entry)};
      }
    }

    /**
     * `_chunks_download` without a ledger: walk the chunks clearing the `start_chunk`
     * marker when it is met, and dump every chunk once the marker is clear.
     */
    method ChunksDownload(root: string, chunks: seq<string>, startChunk: string, referer: Option<string>)
      returns (ok: bool)
      modifies this
      ensures var r := RunAll(Jobs(root, Dispatched(chunks, startChunk)), fetchOk);
        && ok == r.ok
        && requests == old(requests) + Gets(r.urls, referer)
        && stored == old(stored) + r.files
    {
      var start := startChunk;
      ghost var dispatched: seq<string> := [];
      ghost var run := Run([], {}, true);
      ok := true;
      for i := 0 to |chunks|
        invariant dispatched + Dispatched(chunks[i..], start) == Dispatched(chunks, startChunk)
        invariant run == RunAll(Jobs(root, dispatched), fetchOk)
        invariant ok == run.ok
        invariant requests == old(requests) + Gets(run.urls, referer)
        invariant stored == old(stored) + run.files
      {
        var chunkName := chunks[i];
        DispatchedStep(chunks, i, start, dispatched, Dispatched(chunks, startChunk));
        if chunkName == start {
          start := "";
        }
        if start != "" {
          continue;
        }
        var chunkUrl := ChunkUrl(root, chunkName);
        var fine := Dump(chunkName, chunkUrl, referer);
        ghost var job := JobOf(root, chunkName);
        JobsSnoc(root, dispatched, chunkName);
        RunAllSnoc(Jobs(root, dispatched), job, fetchOk);
        GetsSnoc(run.urls, chunkUrl, referer);
        AppendAssoc(old(requests), Gets(run.urls, referer), [Request(chunkUrl, referer)]);
        UnionAssoc(old(stored), run.files, if fine then {job.name} else {});
        dispatched := dispatched + [chunkName];
        run := Attempt(run, job, fetchOk);
        ok := ok && fine;
      }
      assert chunks[|chunks|..] == [];
      assert dispatched == Dispatched(chunks, startChunk);
    }

    /**
     * `_video_dump`: check the playlist URL, fetch and parse the playlist, download the
     * chunks from the playlist's directory with the referer as given, and on success
     * leave `<title>.mp4` and remove the dump directory.
     */
    method VideoDump(title: string, urlPlaylist: string, urlReferer: string, startChunk: string)
      returns (r: Result<string, Error>)
      modifies this
      ensures !IsPlaylistUrl(urlPlaylist) ==>
        r == Failure(NotAPlaylist(urlPlaylist)) && unchanged(this)
      ensures IsPlaylistUrl(urlPlaylist) && !fetchOk(urlPlaylist) ==>
        && r == Failure(PlaylistFetchFailed(urlPlaylist))
        && requests == old(requests) + [Request(urlPlaylist, None)]
        && stored == old(stored)
      ensures IsPlaylistUrl(urlPlaylist) && fetchOk(urlPlaylist) && ChunkEntries(bodyOf(urlPlaylist)) == [] ==>
        && r == Failure(NoChunks)
        && requests == old(requests) + [Request(urlPlaylist, None)]
        && stored == old(stored)
      ensures IsPlaylistUrl(urlPlaylist) && fetchOk(urlPlaylist) && ChunkEntries(bodyOf(urlPlaylist)) != [] ==>
        var run := RunAll(Jobs(PlaylistRoot(urlPlaylist), Dispatched(ChunkEntries(bodyOf(urlPlaylist)), startChunk)), fetchOk);
        && requests == old(requests) + [Request(urlPlaylist, None)] + Gets(run.urls, Some(urlReferer))
        && (run.ok ==> r == Success(title + ".mp4") && stored == {})
        && (!run.ok ==> r == Failure(ChunkFetchFailed) && stored == old(stored) + run.files)
    {
      if !IsPlaylistUrl(urlPlaylist) {
        return Failure(NotAPlaylist(urlPlaylist));
      }
      requests := requests + [Request(urlPlaylist, None)];
      if !fetchOk(urlPlaylist) {
        return Failure(PlaylistFetchFailed(urlPlaylist));
      }
      var chunkNames := ChunksGetList(bodyOf(urlPlaylist));
      if chunkNames.Failure? {
        return Failure(chunkNames.error);
      }
      var urlRoot := PlaylistRoot(urlPlaylist);
      assert chunkNames.value == ChunkEntries(bodyOf(urlPlaylist));
      ghost var before := requests;
      var ok := ChunksDownload(urlRoot, chunkNames.value, startChunk, Some(urlReferer));
      ghost var run := RunAll(Jobs(urlRoot, Dispatched(chunkNames.value, startChunk)), fetchOk);
      assert ok == run.ok && requests == before + Gets(run.urls, Some(urlReferer));
      if !ok {
        return Failure(ChunkFetchFailed);
      }
      stored := {};
      return Success(title + ".mp4");
    }
  }
}
