/**
 * `YandexDisk` (src/webinardump/dumpers/yadisk.py): the manifest embedded in the
 * public page of a video, and the pick of the highest-resolution stream from it.
 * The JSON manifest is given already decoded, as the resources it lists in order.
 */
module YandexDisk {
  import opened Wrappers
  import opened Errors
  import opened PyStr

  /** One entry of `videoStreams.videos`: its `dimension` label (such as "720p") and its playlist URL. */
  datatype Stream = Stream(dimension: string, url: string)

  /** One value of the manifest's `resources` map: its `name` and its video streams. */
  datatype Resource = Resource(name: string, streams: seq<Stream>)

  /** The URL kept when no stream has a numeric dimension above 0. */
  const NoPlaylist: string := "<none>"

  /**
   * The vertical resolution of a stream: its label before the first `p`, when that is a
   * non-empty run of decimal digits; None for labels such as "adaptive".
   */
  function Dimension(s: Stream): (d: Option<nat>)
    ensures d.Some? <==> IsNumeric(Before(s.dimension, 'p'))
  {
    var head := Before(s.dimension, 'p');
    if IsNumeric(head) then Some(DecimalValue(head)) else None
  }

  /** "720p" has dimension 720. */
  lemma DimensionOfLabel(hd: Stream)
    requires hd.dimension == "720p"
    ensures Dimension(hd) == Some(720)
  {
    var digits := "720";
    assert Before(hd.dimension, 'p') == digits by {
      assert hd.dimension == digits + "p" + "";
      BeforeOf(digits, 'p', "");
    }
    assert IsNumeric(digits);
    assert digits[..2] == "72" && digits[..2][..1] == "7" && digits[..2][..1][..0] == "";
    assert DecimalValue("7") == 7;
    assert DecimalValue("72") == 72;
    assert DecimalValue(digits) == 720;
  }

  /** "adaptive" has no dimension: such a stream is skipped. */
  lemma AdaptiveSkipped(adaptive: Stream)
    requires adaptive.dimension == "adaptive"
    ensures Dimension(adaptive) == None
  {
    var head := "ada";
    assert Before(adaptive.dimension, 'p') == head by {
      assert adaptive.dimension == head + "p" + "tive";
      BeforeOf(head, 'p', "tive");
    }
    assert !IsDigit(head[0]);
  }

  /**
   * The running maximum and the index of the stream that set it, after the loop of
   * `_get_playlist_and_title` has looked at `streams`; a stream replaces the current
   * one only when its dimension is strictly larger.
   */
  function Best(streams: seq<Stream>): (r: (nat, Option<nat>))
    ensures r.1.Some? ==> r.1.value < |streams|
    decreases |streams|
  {
    if streams == [] then (0, None)
    else
      var (m, i) := Best(streams[..|streams| - 1]);
      var d := Dimension(streams[|streams| - 1]);
      if d.Some? && m < d.value then (d.value, Some(|streams| - 1)) else (m, i)
  }

  /**
   * The stream picked is one with the largest dimension, the first such stream, and
   * its dimension is above 0; with no stream above 0 none is picked and the maximum stays 0.
   */
  lemma {:induction false} BestIsFirstMaximum(streams: seq<Stream>)
    ensures var (m, i) := Best(streams);
      && (forall j :: 0 <= j < |streams| && Dimension(streams[j]).Some? ==> Dimension(streams[j]).value <= m)
      && (i.None? ==> m == 0)
      && (i.Some? ==>
            && i.value < |streams|
            && Dimension(streams[i.value]) == Some(m)
            && m > 0
            && forall j :: 0 <= j < i.value && Dimension(streams[j]).Some? ==> Dimension(streams[j]).value < m)
    decreases |streams|
  {
    if streams != [] {
      var n := |streams| - 1;
      var init := streams[..n];
      BestIsFirstMaximum(init);
      assert forall j :: 0 <= j < n ==> streams[j] == init[j];
    }
  }

  /**
   * `_get_playlist_and_title`: the URL of the highest-resolution stream of the first
   * resource (`<none>` when no stream qualifies) and that resource's name; a manifest
   * without resources fails on `resources[0]`.
   */
  method PlaylistAndTitle(resources: seq<Resource>) returns (r: Result<(string, string), Error>)
    ensures resources == [] ==> r == Failure(NoResources)
    ensures resources != [] ==>
      var streams := resources[0].streams;
      && r.Success?
      && r.value.1 == resources[0].name
      && r.value.0 == match Best(streams).1 case Some(i) => streams[i].url case None => NoPlaylist
  {
    if resources == [] {
      return Failure(NoResources);
    }
    var resource := resources[0];
    var streams := resource.streams;
    var dimensionMax: nat := 0;
    var urlPlaylist := NoPlaylist;
    ghost var picked: Option<nat> := None;
    for k := 0 to |streams|
      invariant (dimensionMax, picked) == Best(streams[..k])
      invariant picked.Some? ==> picked.value < k
      invariant urlPlaylist == match picked case Some(i) => streams[i].url case None => NoPlaylist
    {
      assert streams[..k + 1][..k] == streams[..k];
      var dimension := Dimension(streams[k]);
      if dimension.None? {
        continue;
      }
      if dimensionMax < dimension.value {
        dimensionMax := dimension.value;
        urlPlaylist := streams[k].url;
        picked := Some(k);
      }
    }
    assert streams[..|streams|] == streams;
    return Success((urlPlaylist, resource.name));
  }

  /** The default URL fails the playlist check of `_video_dump`, so nothing is downloaded. */
  lemma NoPlaylistRejected()
    ensures !EndsWith(NoPlaylist, "m3u8")
  {
    assert NoPlaylist[|NoPlaylist| - 1] == '>';
  }

  /** The text that opens the embedded manifest. */
  const PrefetchOpen: string := "id=\"store-prefetch\">"

  /** The text that must follow the manifest. */
  const ScriptClose: string := "</script"

  /** The first index at or after `k` that holds `<`, or `|s|` when there is none. */
  function RunEnd(s: string, k: nat): (e: nat)
    requires k <= |s|
    ensures k <= e <= |s|
    ensures forall j :: k <= j < e ==> s[j] != '<'
    ensures e < |s| ==> s[e] == '<'
    decreases |s| - k
  {
    if k == |s| || s[k] == '<' then k else RunEnd(s, k + 1)
  }

  /**
   * The pattern `id="store-prefetch">([^<]+)</script` matches at `p`: the opening text,
   * a non-empty run free of `<`, then the closing text. The greedy run must stop at the
   * first `<`, so it ends at `RunEnd`.
   */
  predicate MatchAt(s: string, p: nat) {
    && OccursAt(s, PrefetchOpen, p)
    && var b := p + |PrefetchOpen|;
       var e := RunEnd(s, b);
       e > b && OccursAt(s, ScriptClose, e)
  }

  /** The captured run of a match at `p`. */
  function Group(s: string, p: nat): string
    requires MatchAt(s, p)
  {
    s[p + |PrefetchOpen|..RunEnd(s, p + |PrefetchOpen|)]
  }

  /** The first match at or after `p`, scanning left to right as `re.findall` does. */
  function FirstMatchFrom(s: string, p: nat): (r: Option<nat>)
    ensures r.Some? ==> p <= r.value && MatchAt(s, r.value)
    ensures r.Some? ==> forall q :: p <= q < r.value ==> !MatchAt(s, q)
    ensures r.None? ==> forall q :: p <= q ==> !MatchAt(s, q)
    decreases |s| - p
  {
    if p > |s| then None
    else if MatchAt(s, p) then Some(p)
    else FirstMatchFrom(s, p + 1)
  }

  /**
   * `_get_manifest`, given the page text: the first captured run (`manifest[0]`), or
   * the `Manifest not found` assertion when the pattern matches nowhere.
   */
  function ExtractManifest(contents: string): (r: Result<string, Error>)
    ensures r.Failure? <==> forall p :: !MatchAt(contents, p)
    ensures r.Failure? ==> r.error == ManifestNotFound
    ensures r.Success? ==> exists p ::
      && MatchAt(contents, p)
      && r.value == Group(contents, p)
      && forall q :: q < p ==> !MatchAt(contents, q)
  {
    match FirstMatchFrom(contents, 0)
    case Some(p) => Success(Group(contents, p))
    case None => Failure(ManifestNotFound)
  }

  /** The extracted manifest is non-empty and holds no `<`. */
  lemma ManifestShape(contents: string)
    requires ExtractManifest(contents).Success?
    ensures var m := ExtractManifest(contents).value; m != [] && '<' !in m
  {
    var p := FirstMatchFrom(contents, 0).value;
    var b := p + |PrefetchOpen|;
    var e := RunEnd(contents, b);
    var m := contents[b..e];
    forall c | c in m ensures c != '<' {
      var j :| 0 <= j < |m| && m[j] == c;
      assert m[j] == contents[b + j];
    }
  }
}
