/**
 * The download side of `Dumper` (src/webinardump/dumpers/base.py): which playlist
 * entries a run fetches, under which URL and file name, and how the `files.txt`
 * ledger lets a later run skip what an earlier one already wrote.
 *
 * The thread pool of `_chunks_download` is modelled as a loop in playlist order in
 * which every dispatched chunk is attempted; the network is the oracle `fetchOk`.
 */
module Dumping {
  import opened Wrappers
  import opened Errors
  import opened PyStr
  import opened Playlist
  import opened Ledger

  /** `Dumper._headers`: the session headers sent with every request. */
  const BaseHeaders: map<string, string> := map[
    "Connection" := "keep-alive",
    "Accept" := "*/*",
    "User-Agent" := "Mozilla/5.0 (X11; Linux x86_64) AppleWebKit/537.36 (KHTML, like Gecko) "
      + "Chrome/79.0.3945.136 YaBrowser/20.2.3.320 (beta) Yowser/2.5 Safari/537.36",
    "Sec-Fetch-Site" := "same-site",
    "Sec-Fetch-Mode" := "cors",
    "Accept-Language" := "ru,en;q=0.9",
    "Accept-Encoding" := "gzip, deflate, sdch, br"
  ]

  /**
   * One HTTP GET: its URL and the headers given on top of the session's, which are
   * either none or a single `Referer`.
   */
  datatype Request = Request(url: string, referer: Option<string>)

  /** A GET of each URL, all with the same `Referer`, in order. */
  function Gets(urls: seq<string>, referer: Option<string>): (rs: seq<Request>)
    ensures |rs| == |urls|
    ensures forall i :: 0 <= i < |urls| ==> rs[i] == Request(urls[i], referer)
    decreases |urls|
  {
    if urls == [] then [] else Gets(urls[..|urls| - 1], referer) + [Request(urls[|urls| - 1], referer)]
  }

  /** Issuing the GETs of `a` and then those of `b` issues the GETs of `a + b`. */
  lemma GetsAppend(a: seq<string>, b: seq<string>, referer: Option<string>)
    ensures Gets(a + b, referer) == Gets(a, referer) + Gets(b, referer)
  {
  }

  /** One more GET with the same referer. */
  lemma GetsSnoc(urls: seq<string>, url: string, referer: Option<string>)
    ensures Gets(urls + [url], referer) == Gets(urls, referer) + [Request(url, referer)]
  {
    assert (urls + [url])[..|urls|] == urls;
  }

  /**
   * The URL a chunk is fetched from: the root without its trailing slashes, one
   * slash, then the whole entry, query string included.
   */
  function ChunkUrl(root: string, entry: string): string {
    RStripChar(root, '/') + "/" + entry
  }

  /**
   * A chunk URL ends in "/" and the whole entry; before that comes a prefix of the
   * root that does not end in "/", and the root continues with nothing but slashes.
   */
  lemma ChunkUrlShape(root: string, entry: string)
    ensures var url := ChunkUrl(root, entry);
      && |url| > |entry|
      && url[|url| - |entry| - 1..] == "/" + entry
      && var base := url[..|url| - |entry| - 1];
         && base <= root
         && (base == [] || base[|base| - 1] != '/')
         && forall k :: |base| <= k < |root| ==> root[k] == '/'
  {
    var base := RStripChar(root, '/');
    var url := ChunkUrl(root, entry);
    assert url[..|base|] == base && url[|base|..] == "/" + entry;
  }

  /** The playlist URL up to its last `/`, or "" when it has none. */
  function PlaylistRoot(playlistUrl: string): (root: string)
    ensures '/' in playlistUrl ==> exists file ::
      playlistUrl == root + "/" + file && '/' !in file
    ensures '/' !in playlistUrl ==> root == ""
  {
    RPartitionCharTail(playlistUrl, '/');
    var parts := RPartition(playlistUrl, "/");
    assert '/' in playlistUrl ==> playlistUrl == parts.0 + "/" + parts.2;
    parts.0
  }

  /** The check `_video_dump` makes before anything is fetched. */
  predicate IsPlaylistUrl(url: string) {
    EndsWith(url, "m3u8")
  }

  /** The index of the first occurrence of `x`. */
  function FirstIndex(xs: seq<string>, x: string): (k: nat)
    requires x in xs
    ensures k < |xs| && xs[k] == x && x !in xs[..k]
  {
    if xs[0] == x then 0
    else
      var k := FirstIndex(xs[1..], x);
      assert xs[..k + 1] == [xs[0]] + xs[1..][..k];
      k + 1
  }

  /**
   * The entries the dispatch loop submits: a chunk equal to the marker clears it,
   * and a chunk is submitted once the marker is clear.
   */
  function Dispatched(chunks: seq<string>, start: string): seq<string>
    decreases |chunks|
  {
    if chunks == [] then []
    else
      var start' := if chunks[0] == start then "" else start;
      (if start' == "" then [chunks[0]] else []) + Dispatched(chunks[1..], start')
  }

  /**
   * An empty marker submits every chunk, a marker in the list submits exactly the
   * suffix from its first occurrence, and an unknown marker submits nothing.
   */
  lemma {:induction false} DispatchedCases(chunks: seq<string>, start: string)
    ensures start == "" ==> Dispatched(chunks, start) == chunks
    ensures start != "" && start in chunks ==> Dispatched(chunks, start) == chunks[FirstIndex(chunks, start)..]
    ensures start != "" && start !in chunks ==> Dispatched(chunks, start) == []
    decreases |chunks|
  {
    if chunks != [] {
      var rest := chunks[1..];
      assert chunks == [chunks[0]] + rest;
      if start == "" || chunks[0] == start {
        DispatchedCases(rest, "");
      } else {
        DispatchedCases(rest, start);
        assert start in chunks <==> start in rest;
        if start in rest {
          assert FirstIndex(chunks, start) == FirstIndex(rest, start) + 1;
        }
      }
    }
  }

  /** One step of the dispatch loop: the chunk at `i` against the current marker. */
  lemma DispatchedStep(chunks: seq<string>, i: nat, start: string, dispatched: seq<string>, whole: seq<string>)
    requires i < |chunks|
    requires dispatched + Dispatched(chunks[i..], start) == whole
    ensures var start' := if chunks[i] == start then "" else start;
      (if start' == "" then dispatched + [chunks[i]] else dispatched) + Dispatched(chunks[i + 1..], start') == whole
  {
    assert chunks[i..][0] == chunks[i] && chunks[i..][1..] == chunks[i + 1..];
  }

  /** One call of the nested `dump`: the name to record and the URL to fetch. */
  datatype Job = Job(name: string, url: string)

  /** The job for a playlist entry: its stored name and its chunk URL. */
  function JobOf(root: string, entry: string): Job {
    Job(StoredName(entry), ChunkUrl(root, entry))
  }

  /** The jobs for the entries, in order. */
  function Jobs(root: string, entries: seq<string>): seq<Job>
    decreases |entries|
  {
    if entries == [] then [] else Jobs(root, entries[..|entries| - 1]) + [JobOf(root, entries[|entries| - 1])]
  }

  /** The job at each position is the job of the entry there. */
  lemma {:induction false} JobsIndex(root: string, entries: seq<string>)
    ensures |Jobs(root, entries)| == |entries|
    ensures forall i :: 0 <= i < |entries| ==> Jobs(root, entries)[i] == JobOf(root, entries[i])
    decreases |entries|
  {
    if entries != [] {
      JobsIndex(root, entries[..|entries| - 1]);
    }
  }

  /** Appending an entry appends its job. */
  lemma JobsSnoc(root: string, entries: seq<string>, entry: string)
    ensures Jobs(root, entries + [entry]) == Jobs(root, entries) + [JobOf(root, entry)]
  {
    assert (entries + [entry])[..|entries|] == entries;
  }

  /** What a sequence of `dump` calls has done: the ledger, the URLs fetched, no failure yet. */
  datatype Outcome = Outcome(done: seq<string>, fetched: seq<string>, ok: bool)

  /**
   * One call of the nested `dump`: skip a name already in the ledger; otherwise GET
   * the URL, and on success write the file and append its name to the ledger.
   */
  function DumpOne(o: Outcome, job: Job, fetchOk: string -> bool): Outcome {
    if job.name in o.done then o
    else if fetchOk(job.url) then Outcome(o.done + [job.name], o.fetched + [job.url], o.ok)
    else Outcome(o.done, o.fetched + [job.url], false)
  }

  /** `dump` applied to each job in turn. */
  function DumpAll(o: Outcome, jobs: seq<Job>, fetchOk: string -> bool): Outcome
    decreases |jobs|
  {
    if jobs == [] then o
    else DumpOne(DumpAll(o, jobs[..|jobs| - 1], fetchOk), jobs[|jobs| - 1], fetchOk)
  }

  /** Dumping one more entry after `entries`. */
  lemma DumpAllSnoc(o: Outcome, root: string, entries: seq<string>, entry: string, fetchOk: string -> bool)
    ensures DumpAll(o, Jobs(root, entries + [entry]), fetchOk)
      == DumpOne(DumpAll(o, Jobs(root, entries), fetchOk), JobOf(root, entry), fetchOk)
  {
    JobsSnoc(root, entries, entry);
    var jobs := Jobs(root, entries) + [JobOf(root, entry)];
    assert jobs[..|jobs| - 1] == Jobs(root, entries);
  }

  /**
   * A `dump` call depends on the outcome so far only through its ledger, and the names
   * it adds extend the names added since the ledger `d0` was loaded.
   */
  lemma DumpOneFrom(o: Outcome, d0: seq<string>, job: Job, fetchOk: string -> bool)
    requires d0 <= o.done
    ensures var d := DumpOne(Outcome(o.done, [], true), job, fetchOk);
      var next := DumpOne(o, job, fetchOk);
      && next == Outcome(d.done, o.fetched + d.fetched, o.ok && d.ok)
      && Added(next.done, d0) == Added(o.done, d0) + Added(d.done, o.done)
      && (next.done != o.done ==> next.done != d0)
  {
  }

  /** The names in `done` that are not in `base`: the chunk files a run wrote. */
  function Added(done: seq<string>, base: seq<string>): set<string> {
    set n | n in done && n !in base
  }

  lemma AppendAssoc<T>(a: seq<T>, b: seq<T>, c: seq<T>)
    ensures a + (b + c) == a + b + c
  {
  }

  lemma UnionAssoc(a: set<string>, b: set<string>, c: set<string>)
    ensures a + (b + c) == a + b + c
  {
  }

  /** The text of `files.txt` after a run that started from `text0`: rewritten only when a name was added. */
  function LedgerText(text0: string, done: seq<string>): string {
    if done == Load(text0) then text0 else Save(done)
  }

  /**
   * The ledger only grows, keeps its names distinct, and each name it gains is the
   * name of a job whose GET was issued and succeeded.
   */
  lemma {:induction false} DumpAllLedger(o: Outcome, jobs: seq<Job>, fetchOk: string -> bool)
    ensures var r := DumpAll(o, jobs, fetchOk);
      && o.done <= r.done
      && o.fetched <= r.fetched
      && (NoDuplicates(o.done) ==> NoDuplicates(r.done))
      && forall n :: n in r.done[|o.done|..] ==>
           (exists job :: job in jobs && n == job.name && fetchOk(job.url)
              && job.url in r.fetched[|o.fetched|..])
    decreases |jobs|
  {
    if jobs != [] {
      var init := jobs[..|jobs| - 1];
      var last := jobs[|jobs| - 1];
      DumpAllLedger(o, init, fetchOk);
      var p := DumpAll(o, init, fetchOk);
      var r := DumpAll(o, jobs, fetchOk);
      assert r == DumpOne(p, last, fetchOk);
      assert p.fetched[|o.fetched|..] <= r.fetched[|o.fetched|..];
      forall n | n in r.done[|o.done|..]
        ensures exists job :: (job in jobs && n == job.name && fetchOk(job.url)
          && job.url in r.fetched[|o.fetched|..])
      {
        if n in p.done[|o.done|..] {
          var job :| job in init && n == job.name && fetchOk(job.url)
            && job.url in p.fetched[|o.fetched|..];
          assert job in jobs;
        } else {
          assert r.done == p.done + [last.name];
          assert r.done[|o.done|..] == p.done[|o.done|..] + [last.name];
          assert r.fetched[|o.fetched|..] == p.fetched[|o.fetched|..] + [last.url];
          assert last in jobs;
        }
      }
    }
  }

  /** A run succeeds exactly when every GET it issued succeeded. */
  lemma {:induction false} DumpAllOk(o: Outcome, jobs: seq<Job>, fetchOk: string -> bool)
    ensures var r := DumpAll(o, jobs, fetchOk);
      && o.fetched <= r.fetched
      && (r.ok <==> o.ok && forall u :: u in r.fetched[|o.fetched|..] ==> fetchOk(u))
    decreases |jobs|
  {
    if jobs != [] {
      var init := jobs[..|jobs| - 1];
      var last := jobs[|jobs| - 1];
      DumpAllOk(o, init, fetchOk);
      var p := DumpAll(o, init, fetchOk);
      var r := DumpAll(o, jobs, fetchOk);
      if last.name !in p.done {
        assert r.fetched[|o.fetched|..] == p.fetched[|o.fetched|..] + [last.url];
      }
    }
  }

  /** No GET is issued for a job whose name the ledger already held. */
  lemma {:induction false} DumpAllSkipsLedgered(o: Outcome, jobs: seq<Job>, fetchOk: string -> bool)
    ensures var r := DumpAll(o, jobs, fetchOk);
      && o.fetched <= r.fetched
      && forall u :: u in r.fetched[|o.fetched|..] ==>
           (exists job :: job in jobs && u == job.url && job.name !in o.done)
    decreases |jobs|
  {
    if jobs != [] {
      var init := jobs[..|jobs| - 1];
      var last := jobs[|jobs| - 1];
      DumpAllSkipsLedgered(o, init, fetchOk);
      DumpAllLedger(o, init, fetchOk);
      var p := DumpAll(o, init, fetchOk);
      var r := DumpAll(o, jobs, fetchOk);
      forall u | u in r.fetched[|o.fetched|..]
        ensures exists job :: job in jobs && u == job.url && job.name !in o.done
      {
        if u in p.fetched[|o.fetched|..] {
          var job :| job in init && u == job.url && job.name !in o.done;
          assert job in jobs;
        } else {
          assert last.name !in p.done;
          assert r.fetched[|o.fetched|..] == p.fetched[|o.fetched|..] + [last.url];
          assert last in jobs;
        }
      }
    }
  }

  /** After a run that succeeded, every job's name is in the ledger. */
  lemma {:induction false} DumpAllComplete(o: Outcome, jobs: seq<Job>, fetchOk: string -> bool)
    ensures var r := DumpAll(o, jobs, fetchOk);
      r.ok ==> forall job :: job in jobs ==> job.name in r.done
    decreases |jobs|
  {
    if jobs != [] {
      var init := jobs[..|jobs| - 1];
      var last := jobs[|jobs| - 1];
      DumpAllComplete(o, init, fetchOk);
      DumpAllLedger(o, init, fetchOk);
      var p := DumpAll(o, init, fetchOk);
      var r := DumpAll(o, jobs, fetchOk);
      if r.ok {
        assert p.ok && p.done <= r.done;
        assert last.name in r.done;
        forall job | job in jobs ensures job.name in r.done {
          if job != last {
            assert job in init;
          }
        }
      }
    }
  }

  /** When every job's name is already in the ledger, a run fetches nothing and changes nothing. */
  lemma {:induction false} DumpAllNothingToDo(o: Outcome, jobs: seq<Job>, fetchOk: string -> bool)
    requires forall job :: job in jobs ==> job.name in o.done
    ensures DumpAll(o, jobs, fetchOk) == o
    decreases |jobs|
  {
    if jobs != [] {
      var init := jobs[..|jobs| - 1];
      assert forall job :: job in init ==> job in jobs;
      DumpAllNothingToDo(o, init, fetchOk);
      assert jobs[|jobs| - 1] in jobs;
    }
  }

  /** The jobs of parsed playlist entries record non-empty names without line breaks. */
  lemma JobNamesPersistable(root: string, entries: seq<string>)
    requires forall e :: e in entries ==> IsChunkEntry(e) && LineFree(e)
    ensures forall job :: job in Jobs(root, entries) ==> job.name != [] && LineFree(job.name)
  {
    var jobs := Jobs(root, entries);
    JobsIndex(root, entries);
    forall job | job in jobs ensures job.name != [] && LineFree(job.name) {
      var i :| 0 <= i < |jobs| && jobs[i] == job;
      var e := entries[i];
      assert e in entries;
      assert EndsWith(job.name, ".ts");
      assert forall c :: c in job.name ==> c in e;
    }
  }

  /**
   * Resume: after a run from `files.txt` that succeeded, a second run of the same jobs
   * from the rewritten `files.txt` issues no request and writes nothing.
   */
  lemma ResumeFetchesNothing(text: string, jobs: seq<Job>, fetchOk: string -> bool)
    requires forall job :: job in jobs ==> job.name != [] && LineFree(job.name)
    requires DumpAll(Outcome(Load(text), [], true), jobs, fetchOk).ok
    ensures var r := DumpAll(Outcome(Load(text), [], true), jobs, fetchOk);
      var again := Outcome(Load(LedgerText(text, r.done)), [], true);
      DumpAll(again, jobs, fetchOk) == again
  {
    var o := Outcome(Load(text), [], true);
    var r := DumpAll(o, jobs, fetchOk);
    DumpAllLedger(o, jobs, fetchOk);
    DumpAllComplete(o, jobs, fetchOk);
    if r.done != Load(text) {
      assert |r.done| > |o.done|;
      forall m | m in r.done ensures LineFree(m) {
        if m in r.done[|o.done|..] {
          var job :| job in jobs && m == job.name;
        } else {
          var k :| 0 <= k < |r.done| && r.done[k] == m;
          assert k < |o.done| && o.done[k] == m;
        }
      }
      var n := r.done[|r.done| - 1];
      assert n in r.done[|o.done|..];
      LoadSave(r.done);
    }
    DumpAllNothingToDo(Outcome(Load(LedgerText(text, r.done)), [], true), jobs, fetchOk);
  }

  /** No two jobs record the same name. */
  predicate DistinctNames(jobs: seq<Job>) {
    forall i, j :: 0 <= i < j < |jobs| ==> jobs[i].name != jobs[j].name
  }

  /** The ledger after a run holds the names it started with and names of jobs, nothing else. */
  lemma {:induction false} DumpAllDoneFrom(o: Outcome, jobs: seq<Job>, fetchOk: string -> bool)
    ensures var r := DumpAll(o, jobs, fetchOk);
      && (forall x :: x in o.done ==> x in r.done)
      && (forall x :: x in r.done ==> x in o.done || exists i :: 0 <= i < |jobs| && jobs[i].name == x)
    decreases |jobs|
  {
    if jobs != [] {
      var n := |jobs| - 1;
      var init := jobs[..n];
      DumpAllDoneFrom(o, init, fetchOk);
      var p := DumpAll(o, init, fetchOk);
      forall x | x in DumpAll(o, jobs, fetchOk).done && x !in o.done
        ensures exists i :: 0 <= i < |jobs| && jobs[i].name == x
      {
        if x in p.done {
          var i :| 0 <= i < |init| && init[i].name == x;
          assert jobs[i] == init[i];
        } else {
          assert jobs[n].name == x;
        }
      }
    }
  }

  /** The jobs whose name is not in the ledger `done`, in order. */
  function Missing(jobs: seq<Job>, done: seq<string>): seq<Job>
    decreases |jobs|
  {
    if jobs == [] then []
    else
      var init := Missing(jobs[..|jobs| - 1], done);
      if jobs[|jobs| - 1].name in done then init else init + [jobs[|jobs| - 1]]
  }

  /** The URL of each job, in order. */
  function Urls(jobs: seq<Job>): (urls: seq<string>)
    ensures |urls| == |jobs|
    ensures forall i :: 0 <= i < |jobs| ==> urls[i] == jobs[i].url
    decreases |jobs|
  {
    if jobs == [] then [] else Urls(jobs[..|jobs| - 1]) + [jobs[|jobs| - 1].url]
  }

  /**
   * With distinct names, a run GETs exactly the jobs missing from the ledger, in
   * order, whatever the outcome of each GET.
   */
  lemma {:induction false} DumpAllDistinct(o: Outcome, jobs: seq<Job>, fetchOk: string -> bool)
    requires DistinctNames(jobs)
    ensures DumpAll(o, jobs, fetchOk).fetched == o.fetched + Urls(Missing(jobs, o.done))
    decreases |jobs|
  {
    if jobs != [] {
      var n := |jobs| - 1;
      var init := jobs[..n];
      var last := jobs[n];
      assert DistinctNames(init) by {
        forall i, j | 0 <= i < j < |init| ensures init[i].name != init[j].name {
          assert init[i] == jobs[i] && init[j] == jobs[j];
        }
      }
      DumpAllDistinct(o, init, fetchOk);
      DumpAllDoneFrom(o, init, fetchOk);
      var p := DumpAll(o, init, fetchOk);
      forall i | 0 <= i < |init| ensures init[i].name != last.name {
        assert init[i] == jobs[i];
      }
      assert last.name in p.done <==> last.name in o.done;
      var missing := Missing(init, o.done);
      var r := DumpAll(o, jobs, fetchOk);
      if last.name !in o.done {
        assert Missing(jobs, o.done) == missing + [last];
        assert Urls(missing + [last])
          == Urls(missing) + [last.url] by {
          assert (missing + [last])[..|missing|] == missing;
        }
        assert r.fetched == p.fetched + [last.url];
        AppendAssoc(o.fetched, Urls(missing), [last.url]);
      } else {
        assert Missing(jobs, o.done) == missing;
        assert r == p;
      }
    }
  }

  /** Against an empty ledger every job is missing. */
  lemma {:induction false} MissingNothing(jobs: seq<Job>)
    ensures Missing(jobs, []) == jobs
    decreases |jobs|
  {
    if jobs != [] {
      MissingNothing(jobs[..|jobs| - 1]);
      assert jobs[..|jobs| - 1] + [jobs[|jobs| - 1]] == jobs;
    }
  }

  /** From an empty ledger and with distinct names, a run GETs every job, in order. */
  lemma FreshRunFetchesAll(jobs: seq<Job>, fetchOk: string -> bool)
    requires DistinctNames(jobs)
    ensures DumpAll(Outcome([], [], true), jobs, fetchOk).fetched == Urls(jobs)
  {
    DumpAllDistinct(Outcome([], [], true), jobs, fetchOk);
    MissingNothing(jobs);
  }

  /** The root is everything before the last `/`, whatever that holds. */
  lemma PlaylistRootOf(head: string, file: string)
    requires '/' !in file
    ensures PlaylistRoot(head + "/" + file) == head
  {
    RPartitionAtLast(head, '/', file);
  }

  /** The root of the test suite's playlist URL `https://here/there.m3u8`. */
  lemma PlaylistRootExample(url: string)
    requires url == "https://here/there.m3u8"
    ensures PlaylistRoot(url) == "https://here"
  {
    var file := "there.m3u8";
    assert forall c :: c in file ==> c != '/';
    assert url == "https://here" + "/" + file;
    PlaylistRootOf("https://here", file);
  }

  /** The chunk URL of the test suite: the whole entry, query included, after the root. */
  lemma ChunkUrlExample()
    ensures ChunkUrl("https://here", "1.ts?some=other1") == "https://here/1.ts?some=other1"
    ensures ChunkUrl("https://here/", "1.ts?some=other1") == "https://here/1.ts?some=other1"
  {
    assert RStripChar("https://here", '/') == "https://here";
    assert "https://here/"[..|"https://here/"| - 1] == "https://here";
  }

  /**
   * One title's dump directory `<target_dir>/<title>` under a `Dumper`: the `files.txt`
   * text, the chunk files in it, and every GET issued. `fetchOk` and `bodyOf` stand for
   * the server. A new process builds a new `Dumper`, so a run that resumes an interrupted
   * one starts from whatever ledger and chunk files the directory already holds.
   */
  class Dumper {
    /** The text of `files.txt`; "" when the file is absent. */
    var progressText: string
    /** The names of the chunk files in the dump directory. */
    var stored: set<string>
    /** Every GET issued, in order. */
    var requests: seq<Request>
    /** Whether the server answers a GET of a URL with a success status. */
    const fetchOk: string -> bool
    /** The body of a successful GET of a URL. */
    const bodyOf: string -> string

    /** A dumper over a dump directory holding `progressText` in `files.txt` and the chunk files `stored`. */
    constructor(fetchOk: string -> bool, bodyOf: string -> string, progressText: string, stored: set<string>)
      ensures this.fetchOk == fetchOk && this.bodyOf == bodyOf
      ensures this.progressText == progressText && this.stored == stored && requests == []
    {
      this.fetchOk := fetchOk;
      this.bodyOf := bodyOf;
      this.progressText := progressText;
      this.stored := stored;
      requests := [];
    }

    /** The nested `dump` of `_chunks_download` for one entry, over the ledger `filesDone`. */
    method Dump(entry: string, url: string, referer: Option<string>, filesDone: seq<string>)
      returns (done: seq<string>, ok: bool)
      modifies this
      ensures var o := DumpOne(Outcome(filesDone, [], true), Job(StoredName(entry), url), fetchOk);
        && done == o.done && ok == o.ok
        && requests == old(requests) + Gets(o.fetched, referer)
        && stored == old(stored) + Added(done, filesDone)
        && progressText == (if done == filesDone then old(progressText) else Save(done))
    {
      var name := StoredName(entry);
      if name in filesDone {
        return filesDone, true;
      }
      requests := requests + [Request(url, referer)];
      if !fetchOk(url) {
        return filesDone, false;
      }
      stored := stored + {name};
      done := filesDone + [name];
      progressText := Save(done);
      ok := true;
    }

    /**
     * `_chunks_download`: load the ledger, walk the chunks clearing the `start_chunk`
     * marker when it is met, and dump every chunk once the marker is clear.
     */
    method ChunksDownload(root: string, chunks: seq<string>, startChunk: string, referer: Option<string>)
      returns (ok: bool)
      modifies this
      ensures var d0 := Load(old(progressText));
        var o := DumpAll(Outcome(d0, [], true), Jobs(root, Dispatched(chunks, startChunk)), fetchOk);
        && ok == o.ok
        && requests == old(requests) + Gets(o.fetched, referer)
        && stored == old(stored) + Added(o.done, d0)
        && progressText == LedgerText(old(progressText), o.done)
    {
      var filesDone := Load(progressText);
      ghost var d0 := filesDone;
      ghost var o0 := Outcome(d0, [], true);
      ghost var o := o0;
      var start := startChunk;
      ghost var dispatched: seq<string> := [];
      ok := true;
      for i := 0 to |chunks|
        invariant dispatched + Dispatched(chunks[i..], start) == Dispatched(chunks, startChunk)
        invariant o == DumpAll(o0, Jobs(root, dispatched), fetchOk)
        invariant filesDone == o.done && ok == o.ok
        invariant requests == old(requests) + Gets(o.fetched, referer)
        invariant stored == old(stored) + Added(o.done, d0)
        invariant progressText == if o.done == d0 then old(progressText) else Save(o.done)
      {
        var chunkName := chunks[i];
        DispatchedStep(chunks, i, start, dispatched, Dispatched(chunks, startChunk));
        if chunkName == start {
          start := "";
        }
        if start != "" {
          continue;
        }
        var chunkUrl := ChunkUrl(root, chunkName);
        DumpAllLedger(o0, Jobs(root, dispatched), fetchOk);
        DumpAllSnoc(o0, root, dispatched, chunkName, fetchOk);
        ghost var job := JobOf(root, chunkName);
        DumpOneFrom(o, d0, job, fetchOk);
        var done, fine := Dump(chunkName, chunkUrl, referer, filesDone);
        ghost var d := DumpOne(Outcome(o.done, [], true), job, fetchOk);
        GetsAppend(o.fetched, d.fetched, referer);
        AppendAssoc(old(requests), Gets(o.fetched, referer), Gets(d.fetched, referer));
        UnionAssoc(old(stored), Added(o.done, d0), Added(d.done, o.done));
        dispatched := dispatched + [chunkName];
        o := DumpOne(o, job, fetchOk);
        filesDone := done;
        ok := ok && fine;
      }
      assert chunks[|chunks|..] == [];
      assert dispatched == Dispatched(chunks, startChunk);
      assert d0 == Load(old(progressText));
    }

    /**
     * `_video_dump`: check the playlist URL, fetch and parse the playlist, download the
     * chunks from the playlist's directory with the stripped referer, and on success
     * leave `<title>.mp4` and remove the dump directory.
     */
    method VideoDump(title: string, urlPlaylist: string, urlReferer: string, startChunk: string)
      returns (r: Result<string, Error>)
      modifies this
      ensures !IsPlaylistUrl(urlPlaylist) ==>
        r == Failure(NotAPlaylist(urlPlaylist)) && unchanged(this)
      ensures IsPlaylistUrl(urlPlaylist) && !fetchOk(urlPlaylist) ==>
        && r == Failure(PlaylistFetchFailed(urlPlaylist))
        && requests == old(requests) + [Request(urlPlaylist, None)]
        && stored == old(stored) && progressText == old(progressText)
      ensures IsPlaylistUrl(urlPlaylist) && fetchOk(urlPlaylist) && ChunkEntries(bodyOf(urlPlaylist)) == [] ==>
        && r == Failure(NoChunks)
        && requests == old(requests) + [Request(urlPlaylist, None)]
        && stored == old(stored) && progressText == old(progressText)
      ensures IsPlaylistUrl(urlPlaylist) && fetchOk(urlPlaylist) && ChunkEntries(bodyOf(urlPlaylist)) != [] ==>
        var d0 := Load(old(progressText));
        var jobs := Jobs(PlaylistRoot(urlPlaylist), Dispatched(ChunkEntries(bodyOf(urlPlaylist)), startChunk));
        var o := DumpAll(Outcome(d0, [], true), jobs, fetchOk);
        && requests == old(requests) + [Request(urlPlaylist, None)] + Gets(o.fetched, Some(Strip(urlReferer)))
        && (o.ok ==> r == Success(title + ".mp4") && stored == {} && progressText == "")
        && (!o.ok ==>
             && r == Failure(ChunkFetchFailed)
             && stored == old(stored) + Added(o.done, d0)
             && progressText == LedgerText(old(progressText), o.done))
    {
      if !IsPlaylistUrl(urlPlaylist) {
        return Failure(NotAPlaylist(urlPlaylist));
      }
      requests := requests + [Request(urlPlaylist, None)];
      if !fetchOk(urlPlaylist) {
        return Failure(PlaylistFetchFailed(urlPlaylist));
      }
      var chunkNames := ChunksGetList(bodyOf(urlPlaylist));
      if chunkNames.Failure? {
        return Failure(chunkNames.error);
      }
      var urlRoot := PlaylistRoot(urlPlaylist);
      assert chunkNames.value == ChunkEntries(bodyOf(urlPlaylist));
      ghost var before := requests;
      var ok := ChunksDownload(urlRoot, chunkNames.value, startChunk, Some(Strip(urlReferer)));
      ghost var o := DumpAll(Outcome(Load(old(progressText)), [], true), Jobs(urlRoot, Dispatched(chunkNames.value, startChunk)), fetchOk);
      assert ok == o.ok && requests == before + Gets(o.fetched, Some(Strip(urlReferer)));
      if !ok {
        return Failure(ChunkFetchFailed);
      }
      stored := {};
      progressText := "";
      return Success(title + ".mp4");
    }
  }

  /**
   * `_get_args`: ask the hook for every parameter of the user input map, in order;
   * a parameter listed twice keeps the answer for its last listing.
   */
  method GetArgs(userInputMap: seq<(string, string)>, getParamHook: (string, string) -> string)
    returns (inputData: map<string, string>)
    ensures inputData.Keys == set i | 0 <= i < |userInputMap| :: userInputMap[i].0
    ensures forall i :: 0 <= i < |userInputMap| && (forall j :: i < j < |userInputMap| ==> userInputMap[j].0 != userInputMap[i].0) ==>
      inputData[userInputMap[i].0] == getParamHook(userInputMap[i].0, userInputMap[i].1)
  {
    inputData := map[];
    for i := 0 to |userInputMap|
      invariant inputData.Keys == set k | 0 <= k < i :: userInputMap[k].0
      invariant forall k :: 0 <= k < i && (forall j :: k < j < i ==> userInputMap[j].0 != userInputMap[k].0) ==>
        inputData[userInputMap[k].0] == getParamHook(userInputMap[k].0, userInputMap[k].1)
    {
      var (param, hint) := userInputMap[i];
      inputData := inputData[param := getParamHook(param, hint)];
    }
  }
}
