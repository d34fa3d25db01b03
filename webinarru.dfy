/**
 * `WebinarRu._gather` (src/webinardump/dumpers/webinarru.py): the checks on the two
 * URLs the user gives, the session and video ids read from the video URL, the manifest
 * API URL built from them, and the dumper's session headers.
 */
module WebinarRu {
  import opened Wrappers
  import opened Errors
  import opened PyStr
  import Dumping

  /** The path segment after which a webinar.ru video URL carries its ids. */
  const RecordNew: string := "record-new/"

  /** The `Origin` header value the webinar.ru API expects. */
  const OriginValue: string := "https://events.webinar.ru"

  /** `WebinarRu._headers`: the base session headers plus `Origin`. */
  const WebinarHeaders: map<string, string> := Dumping.BaseHeaders["Origin" := OriginValue]

  /** The merge keeps every base header with its value and adds `Origin`. */
  lemma HeadersMerge()
    ensures WebinarHeaders.Keys == Dumping.BaseHeaders.Keys + {"Origin"}
    ensures forall k :: k in Dumping.BaseHeaders ==> WebinarHeaders[k] == Dumping.BaseHeaders[k]
    ensures WebinarHeaders["Origin"] == OriginValue
    ensures "Origin" !in Dumping.BaseHeaders
  {
  }

  /**
   * The ids in a video URL: after the first `record-new/`, the text up to the next `/`
   * is the session id and everything after that `/` is the video id.
   */
  function Ids(urlVideo: string): (ids: (string, string))
    ensures '/' !in ids.0
  {
    var tail := Partition(urlVideo, RecordNew).2;
    PartitionCharHead(tail, '/');
    var parts := Partition(tail, "/");
    (parts.0, parts.2)
  }

  /** The manifest API URL up to the session id. */
  const ApiHead: string := "https://events.webinar.ru/api/eventsessions/"

  /** The manifest API URL between the session id and the video id. */
  const ApiMid: string := "/record/isviewable?recordAccessToken="

  /** The API URL of the recording's manifest. */
  function ManifestUrl(sessionId: string, videoId: string): string {
    ApiHead + sessionId + ApiMid + videoId
  }

  /** The separator `record-new/` never overlaps itself. */
  lemma RecordNewBorderFree()
    ensures BorderFree(RecordNew)
  {
    assert forall i :: 0 <= i < |RecordNew| - 1 ==> RecordNew[i] != '/';
    LastCharUnique(RecordNew);
  }

  /**
   * Reading the ids back: a URL made of a prefix without `record-new/`, the separator,
   * a session id without `/`, then `/` and a video id, yields exactly those ids.
   */
  lemma IdsOf(prefix: string, sessionId: string, videoId: string)
    requires !Contains(prefix, RecordNew) && '/' !in sessionId
    ensures Ids(prefix + RecordNew + sessionId + "/" + videoId) == (sessionId, videoId)
  {
    RecordNewBorderFree();
    var tail := sessionId + "/" + videoId;
    assert prefix + RecordNew + sessionId + "/" + videoId == prefix + RecordNew + tail;
    PartitionAtFirst(prefix, RecordNew, tail);
    PartitionAtChar(sessionId, '/', videoId);
  }

  /** Without a `/` after the separator, the rest is the session id and the video id is empty. */
  lemma IdsWithoutVideo(prefix: string, sessionId: string)
    requires !Contains(prefix, RecordNew) && '/' !in sessionId
    ensures Ids(prefix + RecordNew + sessionId) == (sessionId, "")
  {
    RecordNewBorderFree();
    PartitionAtFirst(prefix, RecordNew, sessionId);
    PartitionNoChar(sessionId, '/');
  }

  /** Distinct ids give distinct manifest URLs: the session id ends at the first `/`. */
  lemma ManifestUrlInjective(s1: string, v1: string, s2: string, v2: string)
    requires '/' !in s1 && '/' !in s2
    requires ManifestUrl(s1, v1) == ManifestUrl(s2, v2)
    ensures s1 == s2 && v1 == v2
  {
    var rest := ApiMid[1..];
    assert ApiMid[0] == '/';
    var t1, t2 := s1 + ['/'] + (rest + v1), s2 + ['/'] + (rest + v2);
    Regroup(ApiHead, s1, ApiMid, v1);
    Regroup(ApiHead, s2, ApiMid, v2);
    CancelPrefix(ApiHead, t1, t2);
    SplitAtFirst(s1, '/', rest + v1, s2, rest + v2);
    CancelPrefix(rest, v1, v2);
  }

  /** What `_gather` passes on: the manifest to fetch, the playlist, and the referer. */
  datatype Plan = Plan(manifestUrl: string, urlPlaylist: string, urlReferer: string)

  /**
   * `_gather` up to the manifest request: an empty playlist URL and a video URL
   * without `record-new/` are rejected, in that order; otherwise the manifest URL is
   * built from the ids, and the raw video URL becomes the referer.
   */
  function Gather(urlVideo: string, urlPlaylist: string): (r: Result<Plan, Error>)
    ensures r.Failure? <==> urlPlaylist == "" || !Contains(urlVideo, RecordNew)
    ensures urlPlaylist == "" ==> r == Failure(PlaylistUrlMissing)
    ensures urlPlaylist != "" && !Contains(urlVideo, RecordNew) ==> r == Failure(UnexpectedVideoUrl(urlVideo))
    ensures r.Success? ==> r.value.urlPlaylist == urlPlaylist && r.value.urlReferer == urlVideo
  {
    if urlPlaylist == "" then Failure(PlaylistUrlMissing)
    else if !Contains(urlVideo, RecordNew) then Failure(UnexpectedVideoUrl(urlVideo))
    else
      var (sessionId, videoId) := Ids(urlVideo);
      Success(Plan(ManifestUrl(sessionId, videoId), urlPlaylist, urlVideo))
  }

  /**
   * A video URL made of a prefix without `record-new/`, the separator, a session id
   * without `/`, then `/` and a video id passes both checks and yields the manifest URL
   * of exactly those ids.
   */
  lemma GatherOf(prefix: string, sessionId: string, videoId: string, urlPlaylist: string)
    requires !Contains(prefix, RecordNew) && '/' !in sessionId && urlPlaylist != ""
    ensures var urlVideo := prefix + RecordNew + sessionId + "/" + videoId;
      Gather(urlVideo, urlPlaylist) == Success(Plan(ManifestUrl(sessionId, videoId), urlPlaylist, urlVideo))
  {
    var urlVideo := prefix + RecordNew + sessionId + "/" + videoId;
    IdsOf(prefix, sessionId, videoId);
    assert OccursAt(urlVideo, RecordNew, |prefix|) by {
      assert urlVideo[|prefix|..|prefix| + |RecordNew|] == RecordNew;
    }
  }

  /** The test suite's input: a video URL with a leading space yields the ids `aaa` and `bbb`. */
  lemma GatherExample(urlVideo: string, urlPlaylist: string)
    requires urlVideo == " https://events.webinar.ru/xxx/yyy/record-new/aaa/bbb"
    requires urlPlaylist == "https://here/there.m3u8"
    ensures Gather(urlVideo, urlPlaylist) == Success(Plan(ManifestUrl("aaa", "bbb"), urlPlaylist, urlVideo))
  {
    var prefix := " https://events.webinar.ru/xxx/yyy/";
    assert urlVideo == prefix + RecordNew + "aaa" + "/" + "bbb";
    assert !Contains(prefix, RecordNew) by {
      assert 'c' in RecordNew;
      assert forall i :: 0 <= i < |prefix| ==> prefix[i] != 'c';
      NotContainsMissingChar(prefix, RecordNew, 'c');
    }
    GatherOf(prefix, "aaa", "bbb", urlPlaylist);
  }

  /** The referer keeps the user's leading space until the dumper strips it. */
  lemma RefererStripped(bare: string, urlVideo: string)
    requires bare == "https://events.webinar.ru/xxx/yyy/record-new/aaa/bbb"
    requires urlVideo == " " + bare
    ensures Strip(urlVideo) == bare
  {
    var scheme, path := "https://events.webinar.ru/", "xxx/yyy/record-new/aaa/bbb";
    assert bare == scheme + path;
    assert bare[0] == scheme[0] && bare[|bare| - 1] == 'b';
    StripLeadingSpace(bare);
  }
}
