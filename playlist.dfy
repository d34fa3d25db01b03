/**
 * The playlist parser of `Dumper._chunks_get_list` (src/webinardump/dumpers/base.py;
 * the same code in webinar.py): the `.ts` segment entries of an HLS media playlist.
 */
module Playlist {
  import opened Wrappers
  import opened Errors
  import opened PyStr

  /** The name a chunk is written and recorded under: the entry up to its first `?`. */
  function StoredName(entry: string): (name: string)
    ensures name <= entry && '?' !in name
    ensures |name| < |entry| ==> entry[|name|] == '?'
  {
    Before(entry, '?')
  }

  /** A stripped line names a segment when its text before the first `?` ends in ".ts". */
  predicate IsChunkEntry(line: string) {
    EndsWith(StoredName(line), ".ts")
  }

  /** The segment test is `line.partition('?')[0].endswith('.ts')`. */
  lemma IsChunkEntryPartition(line: string)
    ensures IsChunkEntry(line) <==> EndsWith(Partition(line, "?").0, ".ts")
  {
    BeforeIsPartition(line, '?');
  }

  /** `line.strip()` for every line, in order. */
  function StripAll(lines: seq<string>): (stripped: seq<string>)
    ensures |stripped| == |lines|
    ensures forall i :: 0 <= i < |lines| ==> stripped[i] == Strip(lines[i])
    decreases |lines|
  {
    if lines == [] then [] else StripAll(lines[..|lines| - 1]) + [Strip(lines[|lines| - 1])]
  }

  /** The stripped lines that name a segment, in order. */
  function Qualifying(stripped: seq<string>): seq<string>
    decreases |stripped|
  {
    if stripped == [] then []
    else if IsChunkEntry(stripped[|stripped| - 1]) then Qualifying(stripped[..|stripped| - 1]) + [stripped[|stripped| - 1]]
    else Qualifying(stripped[..|stripped| - 1])
  }

  /** The segment entries of a playlist document. */
  function ChunkEntries(playlist: string): seq<string> {
    Qualifying(StripAll(SplitLines(playlist)))
  }

  /**
   * `_chunks_get_list`, given the body of the playlist response: the entries in
   * playlist order, or the `No .ts chunks` assertion when there are none.
   */
  method ChunksGetList(playlist: string) returns (r: Result<seq<string>, Error>)
    ensures ChunkEntries(playlist) == [] ==> r == Failure(NoChunks)
    ensures ChunkEntries(playlist) != [] ==> r == Success(ChunkEntries(playlist))
  {
    var lines := SplitLines(playlist);
    var chunkLists: seq<string> := [];
    for i := 0 to |lines|
      invariant chunkLists == Qualifying(StripAll(lines[..i]))
    {
      assert lines[..i + 1][..i] == lines[..i];
      var line := Strip(lines[i]);
      assert StripAll(lines[..i + 1]) == StripAll(lines[..i]) + [line];
      if !IsChunkEntry(line) {
        continue;
      }
      chunkLists := chunkLists + [line];
    }
    assert lines[..|lines|] == lines;
    if chunkLists == [] {
      return Failure(NoChunks);
    }
    return Success(chunkLists);
  }

  /**
   * The kept lines are exactly the qualifying ones, in input order: `pos` gives, strictly
   * increasing, the stripped line each entry is, and every qualifying line is among them.
   */
  lemma {:induction false} QualifyingPositions(stripped: seq<string>) returns (pos: seq<nat>)
    ensures |pos| == |Qualifying(stripped)|
    ensures forall j :: 0 <= j < |pos| ==> pos[j] < |stripped| && Qualifying(stripped)[j] == stripped[pos[j]]
    ensures forall j :: 0 <= j < |pos| ==> IsChunkEntry(Qualifying(stripped)[j])
    ensures forall j, k :: 0 <= j < k < |pos| ==> pos[j] < pos[k]
    ensures forall i :: 0 <= i < |stripped| && IsChunkEntry(stripped[i]) ==> i in pos
    decreases |stripped|
  {
    if stripped == [] {
      return [];
    }
    var n := |stripped| - 1;
    var init := stripped[..n];
    var before := QualifyingPositions(init);
    var E := Qualifying(init);
    if IsChunkEntry(stripped[n]) {
      pos := before + [n];
      assert Qualifying(stripped) == E + [stripped[n]];
      assert pos[|before|] == n;
    } else {
      pos := before;
      assert Qualifying(stripped) == E;
    }
    forall j | 0 <= j < |pos| ensures pos[j] < |stripped| && Qualifying(stripped)[j] == stripped[pos[j]] {
      if j < |before| {
        assert pos[j] == before[j];
        assert Qualifying(stripped)[j] == E[j];
        assert init[before[j]] == stripped[before[j]];
      }
    }
    forall j, k | 0 <= j < k < |pos| ensures pos[j] < pos[k] {
      if k < |before| {
        assert pos[j] == before[j] && pos[k] == before[k];
      } else {
        assert pos[j] == before[j] && before[j] < n;
      }
    }
    forall i | 0 <= i < |stripped| && IsChunkEntry(stripped[i]) ensures i in pos {
      if i < n {
        assert init[i] == stripped[i];
        assert i in before;
        assert before <= pos;
      } else {
        assert pos[|pos| - 1] == n;
      }
    }
  }

  /** The entries of a playlist are its stripped lines that name a segment, in playlist order. */
  lemma ChunkEntriesPositions(playlist: string) returns (pos: seq<nat>)
    ensures var lines := SplitLines(playlist); var entries := ChunkEntries(playlist);
      && |pos| == |entries|
      && (forall j :: 0 <= j < |pos| ==> pos[j] < |lines| && entries[j] == Strip(lines[pos[j]]) && IsChunkEntry(entries[j]))
      && (forall j, k :: 0 <= j < k < |pos| ==> pos[j] < pos[k])
      && (forall i :: 0 <= i < |lines| && IsChunkEntry(Strip(lines[i])) ==> i in pos)
  {
    var lines := SplitLines(playlist);
    var stripped := StripAll(lines);
    pos := QualifyingPositions(stripped);
    forall i | 0 <= i < |lines| ensures stripped[i] == Strip(lines[i]) {
    }
  }

  /** A segment entry as the parser keeps it: non-empty, trimmed, on one line. */
  predicate WellFormedEntry(e: string) {
    IsChunkEntry(e) && e != [] && LineFree(e) && !IsSpace(e[0]) && !IsSpace(e[|e| - 1])
  }

  /** Every kept line is a non-empty, whitespace-trimmed segment name holding no line break. */
  lemma {:induction false} QualifyingWellFormed(lines: seq<string>)
    requires forall l :: l in lines ==> LineFree(l)
    ensures forall e :: e in Qualifying(StripAll(lines)) ==>
      WellFormedEntry(e)
  {
    var stripped := StripAll(lines);
    var pos := QualifyingPositions(stripped);
    forall e | e in Qualifying(stripped)
      ensures WellFormedEntry(e)
    {
      var j :| 0 <= j < |pos| && Qualifying(stripped)[j] == e;
      var line := lines[pos[j]];
      assert line in lines;
      assert e == Strip(line);
      EntryWellFormed(line);
    }
  }

  /** A line-free line whose stripped text names a segment gives a well-formed entry. */
  lemma EntryWellFormed(line: string)
    requires LineFree(line) && IsChunkEntry(Strip(line))
    ensures WellFormedEntry(Strip(line))
  {
    var e := Strip(line);
    assert |StoredName(e)| >= 3 && StoredName(e) <= e;
  }

  /** The parsed entries of any playlist document are well formed. */
  lemma ChunkEntriesWellFormed(playlist: string)
    ensures forall e :: e in ChunkEntries(playlist) ==>
      WellFormedEntry(e)
  {
    QualifyingWellFormed(SplitLines(playlist));
  }

  /** A single line that names a segment is kept as its stripped text. */
  lemma QualifyingSingle(line: string)
    requires IsChunkEntry(Strip(line))
    ensures Qualifying(StripAll([line])) == [Strip(line)]
  {
    assert StripAll([line]) == [Strip(line)];
    assert [Strip(line)][..0] == [];
  }

  /** The test suite's entry `1.ts?some=other1` names the segment `1.ts`. */
  lemma QueryEntryName(entry: string)
    requires entry == "1.ts?some=other1"
    ensures StoredName(entry) == "1.ts" && IsChunkEntry(entry)
  {
    var name, query := "1.ts", "some=other1";
    assert entry == name + "?" + query;
    BeforeOf(name, '?', query);
  }

  /** An entry with a query string is kept whole: the query stays in the entry. */
  lemma QueryEntryKept(entry: string, line: string)
    requires entry == "1.ts?some=other1" && line == " " + entry + "\t"
    ensures Qualifying(StripAll([line])) == [entry]
  {
    assert Strip(line) == entry by {
      assert entry[0] == '1' && entry[|entry| - 1] == '1';
      StripPadded(entry);
    }
    assert IsChunkEntry(entry) by {
      QueryEntryName(entry);
    }
    QualifyingSingle(line);
  }
}
