/**
 * The resume ledger of `Dumper._chunks_download` (src/webinardump/dumpers/base.py):
 * `files_done`, an insertion-ordered dict whose keys are the names of the chunk files
 * already written, loaded from and saved to `files.txt` in the dump directory.
 */
module Ledger {
  import opened PyStr

  predicate NoDuplicates(names: seq<string>) {
    forall i, j :: 0 <= i < j < |names| ==> names[i] != names[j]
  }

  /** `dict.fromkeys(names)`: each name once, at its first occurrence. */
  function Dedup(names: seq<string>): (keys: seq<string>)
    ensures NoDuplicates(keys)
    ensures forall n :: n in keys <==> n in names
    decreases |names|
  {
    if names == [] then []
    else
      var keys := Dedup(names[..|names| - 1]);
      var last := names[|names| - 1];
      assert forall n :: n in names <==> n in names[..|names| - 1] || n == last;
      if last in keys then keys else keys + [last]
  }

  /** The ledger read back from the text of `files.txt` (empty when the file was just touched). */
  function Load(text: string): (ledger: seq<string>)
    ensures NoDuplicates(ledger)
    ensures forall n :: n in ledger ==> LineFree(n)
  {
    Dedup(SplitLines(text))
  }

  /** The text written to `files.txt`: the keys joined by "\n". */
  function Save(ledger: seq<string>): string {
    Join(ledger, "\n")
  }

  /** A ledger that survives a save and a load: distinct names, no line breaks, a non-empty last name. */
  predicate Persistable(ledger: seq<string>) {
    && NoDuplicates(ledger)
    && (forall n :: n in ledger ==> LineFree(n))
    && (ledger != [] ==> ledger[|ledger| - 1] != [])
  }

  /** `dict.fromkeys` keeps a list without repeats as it is. */
  lemma {:induction false} DedupDistinct(names: seq<string>)
    requires NoDuplicates(names)
    ensures Dedup(names) == names
    decreases |names|
  {
    if names != [] {
      var init := names[..|names| - 1];
      DedupDistinct(init);
      assert names[|names| - 1] !in init;
      assert init + [names[|names| - 1]] == names;
    }
  }

  /** Joining line-free names with "\n" and splitting the lines gives the names back. */
  lemma {:induction false} SplitJoin(names: seq<string>)
    requires forall n :: n in names ==> LineFree(n)
    requires names != [] ==> names[|names| - 1] != []
    ensures SplitLines(Join(names, "\n")) == names
    decreases |names|
  {
    if |names| == 1 {
      assert names[0] in names;
      SplitLinesSingle(names[0]);
    } else if |names| > 1 {
      var head, tail := names[0], names[1..];
      var rest := Join(tail, "\n");
      assert Join(names, "\n") == head + "\n" + rest;
      assert head in names;
      assert forall n :: n in tail ==> n in names;
      SplitJoin(tail);
      SplitLinesCons(head, rest);
      assert names == [head] + tail;
    }
  }

  /** Resume: the ledger written to `files.txt` is the ledger a later run reads from it. */
  lemma LoadSave(ledger: seq<string>)
    requires Persistable(ledger)
    ensures Load(Save(ledger)) == ledger
  {
    SplitJoin(ledger);
    DedupDistinct(ledger);
  }

  /** A trailing empty key is lost on the way through the file: why `Persistable` asks for a non-empty last name. */
  lemma EmptyLastNameLost()
    ensures Load(Save(["a.ts", ""])) == ["a.ts"]
  {
    var name := "a.ts";
    assert Save([name, ""]) == name + "\n" + "";
    assert forall c :: c in name ==> c == 'a' || c == '.' || c == 't' || c == 's';
    SplitLinesCons(name, "");
    assert Dedup([name]) == [name];
  }
}
