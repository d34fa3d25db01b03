/**
 * The older stand-alone webinar.ru script (webinarru.py): a stricter playlist filter,
 * a sequential download that stops at the first failed chunk, the chunk root taken by
 * removing `/chunklist.m3u8` from the chunk-list URL, and the same id split as the
 * current `WebinarRu._gather`.
 */
module LegacyWebinarRu {
  import opened Wrappers
  import opened Errors
  import opened PyStr
  import opened Playlist
  import opened Dumping
  import WebinarRu

  /** The module-level session headers, `Origin` included. */
  const SessionHeaders: map<string, string> := map[
    "Connection" := "keep-alive",
    "Accept" := "*/*",
    "User-Agent" := "Mozilla/5.0 (X11; Linux x86_64) AppleWebKit/537.36 (KHTML, like Gecko) "
      + "Chrome/79.0.3945.136 YaBrowser/20.2.3.320 (beta) Yowser/2.5 Safari/537.36",
    "Origin" := "https://events.webinar.ru",
    "Sec-Fetch-Site" := "same-site",
    "Sec-Fetch-Mode" := "cors",
    "Accept-Language" := "ru,en;q=0.9",
    "Accept-Encoding" := "gzip, deflate, sdch, br"
  ]

  /** The script's session sends the same headers as the current webinar.ru dumper. */
  lemma SessionHeadersAgree()
    ensures SessionHeaders == WebinarRu.WebinarHeaders
  {
  }

  // ----- get_chunks -----

  /** The script keeps a stripped line only when the line itself ends in ".ts". */
  predicate IsStrictEntry(line: string) {
    EndsWith(line, ".ts")
  }

  /** The stripped lines the script keeps, in order. */
  function StrictQualifying(stripped: seq<string>): seq<string>
    decreases |stripped|
  {
    if stripped == [] then []
    else
      var init := StrictQualifying(stripped[..|stripped| - 1]);
      if IsStrictEntry(stripped[|stripped| - 1]) then init + [stripped[|stripped| - 1]] else init
  }

  /** The chunk names the script reads from a chunk list. */
  function StrictEntries(playlist: string): seq<string> {
    StrictQualifying(StripAll(SplitLines(playlist)))
  }

  /**
   * `get_chunks`, given the body of the chunk-list response: the kept lines in order,
   * or the `No .ts chunks` assertion when there are none.
   */
  method GetChunks(playlist: string) returns (r: Result<seq<string>, Error>)
    ensures StrictEntries(playlist) == [] ==> r == Failure(NoChunks)
    ensures StrictEntries(playlist) != [] ==> r == Success(StrictEntries(playlist))
  {
    var lines := SplitLines(playlist);
    var chunkLists: seq<string> := [];
    for i := 0 to |lines|
      invariant chunkLists == StrictQualifying(StripAll(lines[..i]))
    {
      assert lines[..i + 1][..i] == lines[..i];
      var line := Strip(lines[i]);
      assert StripAll(lines[..i + 1]) == StripAll(lines[..i]) + [line];
      if !IsStrictEntry(line) {
        continue;
      }
      chunkLists := chunkLists + [line];
    }
    assert lines[..|lines|] == lines;
    if chunkLists == [] {
      return Failure(NoChunks);
    }
    return Success(chunkLists);
  }

  /** A line is kept exactly when it is one of the stripped lines and ends in ".ts". */
  lemma {:induction false} StrictMembers(stripped: seq<string>, x: string)
    ensures x in StrictQualifying(stripped) <==> x in stripped && IsStrictEntry(x)
    decreases |stripped|
  {
    if stripped != [] {
      var n := |stripped| - 1;
      StrictMembers(stripped[..n], x);
      assert stripped == stripped[..n] + [stripped[n]];
    }
  }

  /** Without a `?`, the script's filter and the current one agree on a line. */
  lemma StrictWithoutQuery(line: string)
    requires '?' !in line
    ensures IsStrictEntry(line) <==> IsChunkEntry(line)
  {
  }

  /** When no line holds a `?`, the script keeps exactly the lines the current parser keeps. */
  lemma {:induction false} StrictAgrees(stripped: seq<string>)
    requires forall i :: 0 <= i < |stripped| ==> '?' !in stripped[i]
    ensures StrictQualifying(stripped) == Qualifying(stripped)
    decreases |stripped|
  {
    if stripped != [] {
      var n := |stripped| - 1;
      StrictAgrees(stripped[..n]);
      StrictWithoutQuery(stripped[n]);
    }
  }

  /** An entry with a query string is dropped by the script but kept by the current parser. */
  lemma QueryEntryDropped(entry: string)
    requires entry == "1.ts?some=other1"
    ensures !IsStrictEntry(entry) && IsChunkEntry(entry)
  {
    assert entry[|entry| - 1] == '1';
    QueryEntryName(entry);
  }

  /** A line whose ".ts" comes after a `?` is kept by the script but dropped by the current parser. */
  lemma QueryTailKept(line: string)
    requires line == "a?b.ts"
    ensures IsStrictEntry(line) && !IsChunkEntry(line)
  {
    assert line == "a" + "?" + "b.ts";
    BeforeOf("a", '?', "b.ts");
    assert line[|line| - 3..] == ".ts";
  }

  // ----- download_chunks -----

  /** A chunk name with its 1-based position in the chunk list, as `enumerate(chunk_names, 1)` gives it. */
  datatype Numbered = Numbered(idx: nat, name: string)

  /**
   * The chunks `download_chunks` gets to, as `(idx, name)` with `idx` counting from
   * `idx0`: a chunk equal to the marker clears it, and a chunk is visited once the
   * marker is clear.
   */
  function VisitsFrom(chunks: seq<string>, start: string, idx0: nat): seq<Numbered>
    decreases |chunks|
  {
    if chunks == [] then []
    else
      var start' := if chunks[0] == start then "" else start;
      (if start' == "" then [Numbered(idx0, chunks[0])] else []) + VisitsFrom(chunks[1..], start', idx0 + 1)
  }

  /** `enumerate(chunk_names, 1)` filtered by the marker. */
  function Visits(chunks: seq<string>, start: string): seq<Numbered> {
    VisitsFrom(chunks, start, 1)
  }

  /** The chunks dispatched by the marker are always a suffix of the list. */
  lemma DispatchedSuffix(chunks: seq<string>, start: string)
    ensures var d := Dispatched(chunks, start); |d| <= |chunks| && d == chunks[|chunks| - |d|..]
  {
    DispatchedCases(chunks, start);
    if start != "" && start in chunks {
      var k := FirstIndex(chunks, start);
      assert |chunks| - |chunks[k..]| == k;
    }
  }

  /**
   * The visits are the dispatched chunks, each with its position counted from `idx0`
   * in the whole list, skipped chunks included.
   */
  lemma {:induction false} VisitsFromShape(chunks: seq<string>, start: string, idx0: nat)
    ensures var v, d := VisitsFrom(chunks, start, idx0), Dispatched(chunks, start);
      && |v| == |d|
      && |d| <= |chunks|
      && forall k :: 0 <= k < |v| ==> v[k] == Numbered(idx0 + |chunks| - |d| + k, d[k])
    decreases |chunks|
  {
    if chunks != [] {
      var rest := chunks[1..];
      var start' := if chunks[0] == start then "" else start;
      VisitsFromShape(rest, start', idx0 + 1);
      DispatchedSuffix(rest, start');
      if start' == "" {
        DispatchedCases(rest, "");
      }
    }
  }

  /**
   * The logged `idx` is the 1-based position of the chunk in the whole list: the
   * visits name the dispatched chunks in order, and `chunks[idx - 1]` is the chunk named.
   */
  lemma VisitsNumbering(chunks: seq<string>, start: string)
    ensures var v, d := Visits(chunks, start), Dispatched(chunks, start);
      && |v| == |d|
      && forall k :: 0 <= k < |v| ==>
           && v[k].name == d[k]
           && 1 <= v[k].idx <= |chunks|
           && v[k].idx == |chunks| - |d| + k + 1
           && chunks[v[k].idx - 1] == v[k].name
  {
    VisitsFromShape(chunks, start, 1);
    DispatchedSuffix(chunks, start);
  }

  /** One step of the download loop: the chunk at `i` against the current marker. */
  lemma VisitsStep(chunks: seq<string>, i: nat, start: string, visits: seq<Numbered>, whole: seq<Numbered>)
    requires i < |chunks|
    requires visits + VisitsFrom(chunks[i..], start, i + 1) == whole
    ensures var start' := if chunks[i] == start then "" else start;
      (if start' == "" then visits + [Numbered(i + 1, chunks[i])] else visits) + VisitsFrom(chunks[i + 1..], start', i + 2) == whole
  {
    assert chunks[i..][0] == chunks[i] && chunks[i..][1..] == chunks[i + 1..];
  }

  /** The chunk URL of the script: the root, `/`, and the name as listed. */
  function ScriptChunkUrl(root: string, name: string): string {
    root + "/" + name
  }

  /** For a root without a trailing `/`, the script and the current dumper build the same chunk URL. */
  lemma ScriptChunkUrlAgrees(root: string, name: string)
    requires root == [] || root[|root| - 1] != '/'
    ensures ScriptChunkUrl(root, name) == ChunkUrl(root, name)
  {
  }

  /** The chunk URL of each visit, in order. */
  function VisitUrls(root: string, visits: seq<Numbered>): (urls: seq<string>)
    ensures |urls| == |visits|
    decreases |visits|
  {
    if visits == [] then []
    else VisitUrls(root, visits[..|visits| - 1]) + [ScriptChunkUrl(root, visits[|visits| - 1].name)]
  }

  /** Each URL is the chunk URL of the visit at the same position. */
  lemma {:induction false} VisitUrlsIndex(root: string, visits: seq<Numbered>)
    ensures forall k :: 0 <= k < |visits| ==> VisitUrls(root, visits)[k] == ScriptChunkUrl(root, visits[k].name)
    decreases |visits|
  {
    if visits != [] {
      var n := |visits| - 1;
      VisitUrlsIndex(root, visits[..n]);
    }
  }

  /** The names of the visits. */
  function VisitNames(visits: seq<Numbered>): set<string>
    decreases |visits|
  {
    if visits == [] then {}
    else VisitNames(visits[..|visits| - 1]) + {visits[|visits| - 1].name}
  }

  /** A name is among the visits' names exactly when some visit carries it. */
  lemma {:induction false} VisitNamesMembers(visits: seq<Numbered>, x: string)
    ensures x in VisitNames(visits) <==> exists k :: 0 <= k < |visits| && visits[k].name == x
    decreases |visits|
  {
    if visits != [] {
      var n := |visits| - 1;
      VisitNamesMembers(visits[..n], x);
      assert forall k :: 0 <= k < n ==> visits[..n][k] == visits[k];
    }
  }

  /**
   * What the download loop has done so far: the progress lines logged, the chunk URLs
   * GET, the files written, and whether every GET so far succeeded.
   */
  datatype Walk = Walk(logged: seq<Numbered>, urls: seq<string>, files: set<string>, ok: bool)

  /**
   * One visit of the loop: after a failed GET nothing more happens (the exception ends
   * the loop); otherwise log the chunk, GET it, and on success write it.
   */
  function Visit(w: Walk, root: string, visit: Numbered, fetchOk: string -> bool): Walk {
    var url := ScriptChunkUrl(root, visit.name);
    if !w.ok then w
    else Walk(w.logged + [visit], w.urls + [url], w.files + (if fetchOk(url) then {visit.name} else {}), fetchOk(url))
  }

  /** The loop over the visits, from a walk that has done nothing. */
  function WalkAll(root: string, visits: seq<Numbered>, fetchOk: string -> bool): Walk
    decreases |visits|
  {
    if visits == [] then Walk([], [], {}, true)
    else Visit(WalkAll(root, visits[..|visits| - 1], fetchOk), root, visits[|visits| - 1], fetchOk)
  }

  /** Visiting one more chunk. */
  lemma WalkAllSnoc(root: string, visits: seq<Numbered>, visit: Numbered, fetchOk: string -> bool)
    ensures WalkAll(root, visits + [visit], fetchOk) == Visit(WalkAll(root, visits, fetchOk), root, visit, fetchOk)
  {
    assert (visits + [visit])[..|visits|] == visits;
  }

  /** Once a GET has failed, the visits after it change nothing. */
  lemma {:induction false} WalkAllStops(root: string, done: seq<Numbered>, rest: seq<Numbered>, fetchOk: string -> bool)
    requires !WalkAll(root, done, fetchOk).ok
    ensures WalkAll(root, done + rest, fetchOk) == WalkAll(root, done, fetchOk)
    decreases |rest|
  {
    if rest != [] {
      var n := |rest| - 1;
      WalkAllStops(root, done, rest[..n], fetchOk);
      assert done + rest == (done + rest[..n]) + [rest[n]];
      WalkAllSnoc(root, done + rest[..n], rest[n], fetchOk);
    } else {
      assert done + rest == done;
    }
  }

  /** When every GET succeeds, the loop logs, GETs and writes every visit. */
  lemma {:induction false} WalkAllComplete(root: string, visits: seq<Numbered>, fetchOk: string -> bool)
    requires forall k :: 0 <= k < |visits| ==> fetchOk(ScriptChunkUrl(root, visits[k].name))
    ensures WalkAll(root, visits, fetchOk) == Walk(visits, VisitUrls(root, visits), VisitNames(visits), true)
    decreases |visits|
  {
    if visits != [] {
      var n := |visits| - 1;
      var init := visits[..n];
      assert forall k :: 0 <= k < n ==> init[k] == visits[k];
      WalkAllComplete(root, init, fetchOk);
      assert init + [visits[n]] == visits;
    }
  }

  /**
   * When the GET of visit `k` is the first to fail, the loop has logged and GET the
   * visits up to and including `k`, written the files of those before it, and fails.
   */
  lemma {:induction false} WalkAllFailsAt(root: string, visits: seq<Numbered>, k: nat, fetchOk: string -> bool)
    requires k < |visits|
    requires forall j :: 0 <= j < k ==> fetchOk(ScriptChunkUrl(root, visits[j].name))
    requires !fetchOk(ScriptChunkUrl(root, visits[k].name))
    ensures WalkAll(root, visits, fetchOk)
      == Walk(visits[..k + 1], VisitUrls(root, visits[..k + 1]), VisitNames(visits[..k]), false)
    decreases |visits|
  {
    var n := |visits| - 1;
    var init := visits[..n];
    assert WalkAll(root, visits, fetchOk) == Visit(WalkAll(root, init, fetchOk), root, visits[n], fetchOk);
    if k == n {
      assert forall j :: 0 <= j < k ==> init[j] == visits[j];
      WalkAllComplete(root, init, fetchOk);
      assert visits[..k + 1] == visits == init + [visits[n]] && visits[..k] == init;
      assert VisitUrls(root, visits) == VisitUrls(root, init) + [ScriptChunkUrl(root, visits[n].name)];
      assert VisitNames(init) + {} == VisitNames(init);
    } else {
      assert forall j :: 0 <= j <= k ==> init[j] == visits[j];
      WalkAllFailsAt(root, init, k, fetchOk);
      assert init[..k + 1] == visits[..k + 1] && init[..k] == visits[..k];
    }
  }

  /** The loop fails exactly when the GET of some visit fails. */
  lemma {:induction false} WalkAllOk(root: string, visits: seq<Numbered>, fetchOk: string -> bool)
    ensures WalkAll(root, visits, fetchOk).ok <==> forall k :: 0 <= k < |visits| ==> fetchOk(ScriptChunkUrl(root, visits[k].name))
    decreases |visits|
  {
    if visits != [] {
      var n := |visits| - 1;
      var init := visits[..n];
      assert forall k :: 0 <= k < n ==> init[k] == visits[k];
      WalkAllOk(root, init, fetchOk);
    }
  }

  /** What one successful-so-far visit adds to the script's records. */
  lemma VisitExtends(logged0: seq<Numbered>, requests0: seq<Request>, stored0: set<string>, w: Walk,
                     root: string, visit: Numbered, referer: Option<string>, fetchOk: string -> bool)
    requires w.ok
    ensures var url, w' := ScriptChunkUrl(root, visit.name), Visit(w, root, visit, fetchOk);
      && w'.ok == fetchOk(url)
      && logged0 + w.logged + [visit] == logged0 + w'.logged
      && requests0 + Gets(w.urls, referer) + [Request(url, referer)] == requests0 + Gets(w'.urls, referer)
      && stored0 + w.files + (if fetchOk(url) then {visit.name} else {}) == stored0 + w'.files
  {
    var url := ScriptChunkUrl(root, visit.name);
    GetsSnoc(w.urls, url, referer);
    AppendAssoc(logged0, w.logged, [visit]);
    AppendAssoc(requests0, Gets(w.urls, referer), [Request(url, referer)]);
  }

  // ----- run -----

  /** The text the chunk-list URL must contain; it is cut out to leave the chunk root. */
  const ChunklistPostfix: string := "/chunklist.m3u8"

  /** What `run` derives from its two URLs before any request. */
  datatype Plan = Plan(manifestUrl: string, root: string)

  /**
   * The checks and derivations of `run`: a chunk-list URL without `/chunklist.m3u8`
   * and an entry URL without `record-new/` are rejected, in that order; otherwise the
   * manifest URL is built from the ids, and the root is the chunk-list URL with the
   * first `/chunklist.m3u8` removed.
   */
  function RunPlan(urlEntry: string, urlChunklist: string): (r: Result<Plan, Error>)
    ensures r.Failure? <==> !Contains(urlChunklist, ChunklistPostfix) || !Contains(urlEntry, WebinarRu.RecordNew)
    ensures !Contains(urlChunklist, ChunklistPostfix) ==> r == Failure(ChunklistUrlExpected(urlChunklist))
    ensures Contains(urlChunklist, ChunklistPostfix) && !Contains(urlEntry, WebinarRu.RecordNew) ==>
      r == Failure(UnexpectedVideoUrl(urlEntry))
  {
    if !Contains(urlChunklist, ChunklistPostfix) then Failure(ChunklistUrlExpected(urlChunklist))
    else if !Contains(urlEntry, WebinarRu.RecordNew) then Failure(UnexpectedVideoUrl(urlEntry))
    else
      var (sessionId, videoId) := WebinarRu.Ids(urlEntry);
      Success(Plan(WebinarRu.ManifestUrl(sessionId, videoId), ReplaceFirst(urlChunklist, ChunklistPostfix, "")))
  }

  /** The script asks for the same manifest as the current `_gather` does for the same video URL. */
  lemma RunPlanManifestAgrees(urlEntry: string, urlChunklist: string)
    requires RunPlan(urlEntry, urlChunklist).Success?
    ensures WebinarRu.Gather(urlEntry, urlChunklist).Success?
    ensures RunPlan(urlEntry, urlChunklist).value.manifestUrl == WebinarRu.Gather(urlEntry, urlChunklist).value.manifestUrl
  {
    assert urlChunklist != "" by {
      var i :| OccursAt(urlChunklist, ChunklistPostfix, i);
    }
  }

  /**
   * For a chunk-list URL that ends in its only `/chunklist.m3u8`, the script's root is
   * the text before it, which is also the root the current dumper takes.
   */
  lemma RunPlanRootAgrees(urlEntry: string, head: string)
    requires Contains(urlEntry, WebinarRu.RecordNew) && !Contains(head, ChunklistPostfix)
    ensures var r := RunPlan(urlEntry, head + ChunklistPostfix);
      r.Success? && r.value.root == head && r.value.root == PlaylistRoot(head + ChunklistPostfix)
  {
    var m := ChunklistPostfix;
    assert forall i :: 0 < i < |m| ==> m[i] != m[0];
    FirstCharUnique(m);
    var url := head + m;
    assert url == head + m + "";
    ReplaceFirstAt(head, m, "", "");
    assert Contains(url, m) by {
      assert url[|head|..|head| + |m|] == m;
      assert OccursAt(url, m, |head|);
    }
    var file := m[1..];
    assert m == "/" + file;
    assert '/' !in file by {
      assert forall i :: 0 <= i < |file| ==> file[i] == m[i + 1];
    }
    assert url == head + "/" + file;
    PlaylistRootOf(head, file);
  }

  /**
   * The script's state: the chunk files in the dump directory, every GET issued, and
   * the `(idx, name)` of every `Get idx/total` progress line. `fetchOk`, `bodyOf` and
   * `nameOf` stand for the server; `nameOf` is the `name` field of the manifest at a URL.
   */
  class Script {
    /** The names of the chunk files in the dump directory. */
    var stored: set<string>
    /** Every GET issued, in order. */
    var requests: seq<Request>
    /** The index and name of each chunk logged before its GET. */
    var logged: seq<Numbered>
    /** Whether the server answers a GET of a URL with a success status. */
    const fetchOk: string -> bool
    /** The body of a successful GET of a URL. */
    const bodyOf: string -> string
    /** The `name` of the JSON manifest served at a URL. */
    const nameOf: string -> string

    constructor(fetchOk: string -> bool, bodyOf: string -> string, nameOf: string -> string)
      ensures this.fetchOk == fetchOk && this.bodyOf == bodyOf && this.nameOf == nameOf
      ensures stored == {} && requests == [] && logged == []
    {
      this.fetchOk := fetchOk;
      this.bodyOf := bodyOf;
      this.nameOf := nameOf;
      stored := {};
      requests := [];
      logged := [];
    }

    /** One pass of the loop of `download_chunks`: log the chunk, GET it, and on success write it. */
    method GetChunk(root: string, visit: Numbered, referer: string) returns (ok: bool)
      modifies this
      ensures ok == fetchOk(ScriptChunkUrl(root, visit.name))
      ensures logged == old(logged) + [visit]
      ensures requests == old(requests) + [Request(ScriptChunkUrl(root, visit.name), Some(referer))]
      ensures stored == old(stored) + (if ok then {visit.name} else {})
    {
      logged := logged + [visit];
      var chunkUrl := ScriptChunkUrl(root, visit.name);
      requests := requests + [Request(chunkUrl, Some(referer))];
      ok := fetchOk(chunkUrl);
      if ok {
        stored := stored + {visit.name};
      }
    }

    /**
     * `download_chunks`: walk the chunks with their 1-based index, clearing the marker
     * when it is met; for each chunk past it, log it, GET it, stop at the first failed
     * GET, and otherwise write the file under the name as listed.
     */
    method DownloadChunks(root: string, chunks: seq<string>, startChunk: string, referer: string)
      returns (ok: bool)
      modifies this
      ensures var w := WalkAll(root, Visits(chunks, startChunk), fetchOk);
        && ok == w.ok
        && logged == old(logged) + w.logged
        && requests == old(requests) + Gets(w.urls, Some(referer))
        && stored == old(stored) + w.files
    {
      ghost var whole := Visits(chunks, startChunk);
      ghost var walk := Walk([], [], {}, true);
      var start := startChunk;
      for i := 0 to |chunks|
        invariant walk.logged + VisitsFrom(chunks[i..], start, i + 1) == whole
        invariant walk == WalkAll(root, walk.logged, fetchOk) && walk.ok
        invariant logged == old(logged) + walk.logged
        invariant requests == old(requests) + Gets(walk.urls, Some(referer))
        invariant stored == old(stored) + walk.files
      {
        var chunkName := chunks[i];
        VisitsStep(chunks, i, start, walk.logged, whole);
        if chunkName == start {
          start := "";
        }
        if start != "" {
          continue;
        }
        var visit := Numbered(i + 1, chunkName);
        VisitExtends(old(logged), old(requests), old(stored), walk, root, visit, Some(referer), fetchOk);
        WalkAllSnoc(root, walk.logged, visit, fetchOk);
        var fine := GetChunk(root, visit, referer);
        walk := Visit(walk, root, visit, fetchOk);
        if !fine {
          WalkAllStops(root, walk.logged, VisitsFrom(chunks[i + 1..], start, i + 2), fetchOk);
          return false;
        }
      }
      assert chunks[|chunks|..] == [];
      assert walk.logged == whole;
      return true;
    }

    /**
     * `run`: check and split the two URLs, GET the manifest for its `name`, GET and parse
     * the chunk list, download the chunks with the entry URL as referer, and on success
     * leave `<name>.mp4` and remove the dump directory.
     */
    method Run(urlEntry: string, urlChunklist: string, startChunk: string) returns (r: Result<string, Error>)
      modifies this
      ensures RunPlan(urlEntry, urlChunklist).Failure? ==>
        r == Failure(RunPlan(urlEntry, urlChunklist).error) && unchanged(this)
      ensures RunPlan(urlEntry, urlChunklist).Success? ==>
        var plan := RunPlan(urlEntry, urlChunklist).value;
        var m := plan.manifestUrl;
        && (!fetchOk(m) ==>
              && r == Failure(ManifestFetchFailed(m))
              && requests == old(requests) + [Request(m, None)]
              && stored == old(stored) && logged == old(logged))
        && (fetchOk(m) && !fetchOk(urlChunklist) ==>
              && r == Failure(PlaylistFetchFailed(urlChunklist))
              && requests == old(requests) + [Request(m, None), Request(urlChunklist, None)]
              && stored == old(stored) && logged == old(logged))
        && (fetchOk(m) && fetchOk(urlChunklist) && StrictEntries(bodyOf(urlChunklist)) == [] ==>
              && r == Failure(NoChunks)
              && requests == old(requests) + [Request(m, None), Request(urlChunklist, None)]
              && stored == old(stored) && logged == old(logged))
        && (fetchOk(m) && fetchOk(urlChunklist) && StrictEntries(bodyOf(urlChunklist)) != [] ==>
              var w := WalkAll(plan.root, Visits(StrictEntries(bodyOf(urlChunklist)), startChunk), fetchOk);
              && requests == old(requests) + [Request(m, None), Request(urlChunklist, None)] + Gets(w.urls, Some(urlEntry))
              && logged == old(logged) + w.logged
              && (w.ok ==> r == Success(nameOf(m) + ".mp4") && stored == {})
              && (!w.ok ==> r == Failure(ChunkFetchFailed) && stored == old(stored) + w.files))
    {
      var plan := RunPlan(urlEntry, urlChunklist);
      if plan.Failure? {
        return Failure(plan.error);
      }
      var manifestUrl := plan.value.manifestUrl;
      requests := requests + [Request(manifestUrl, None)];
      if !fetchOk(manifestUrl) {
        return Failure(ManifestFetchFailed(manifestUrl));
      }
      var title := nameOf(manifestUrl);
      requests := requests + [Request(urlChunklist, None)];
      if !fetchOk(urlChunklist) {
        return Failure(PlaylistFetchFailed(urlChunklist));
      }
      var chunkNames := GetChunks(bodyOf(urlChunklist));
      if chunkNames.Failure? {
        return Failure(chunkNames.error);
      }
      assert chunkNames.value == StrictEntries(bodyOf(urlChunklist));
      ghost var before := requests;
      assert before == old(requests) + [Request(manifestUrl, None), Request(urlChunklist, None)];
      var ok := DownloadChunks(plan.value.root, chunkNames.value, startChunk, urlEntry);
      ghost var w := WalkAll(plan.value.root, Visits(chunkNames.value, startChunk), fetchOk);
      assert ok == w.ok && requests == before + Gets(w.urls, Some(urlEntry));
      if !ok {
        return Failure(ChunkFetchFailed);
      }
      stored := {};
      return Success(title + ".mp4");
    }
  }
}
