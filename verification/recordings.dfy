/**
 * `list_recordings` and the dataset names the start handlers pass to the
 * control script. The directory scan (`os.path.exists`, `glob`, `isdir`,
 * `getctime`) is an input: `None` when the cache directory does not exist,
 * otherwise its entries in the order the scan returned them, with the creation
 * time as an integer sort key.
 */
module Recordings {
  import opened Wrappers
  import Text
  import Sequences

  const Owner := "chrisheninger"
  const Prefix := "so100_"

  datatype Entry = Entry(name: string, isDir: bool, created: int)

  /** One element of the reply: `{"id", "path", "created"}`. */
  datatype Recording = Recording(id: string, path: string, created: int)

  /**
   * An entry makes it into the listing: it passes the glob `so100_*` and the
   * case-sensitive `startswith("so100_")` check together, which is the same as
   * passing the latter alone, and it is a directory.
   */
  predicate Listed(e: Entry) {
    Text.StartsWith(e.name, Prefix) && e.isDir
  }

  function Describe(cacheDir: string, e: Entry): Recording {
    Recording(Text.ReplaceFirst(e.name, Prefix, ""), cacheDir + "/" + e.name, e.created)
  }

  /** The recordings of the scanned entries, in scan order. */
  function Collect(cacheDir: string, entries: seq<Entry>): (rs: seq<Recording>)
    ensures |rs| <= |entries|
    decreases |entries|
  {
    if entries == [] then []
    else
      var rest := Collect(cacheDir, entries[1..]);
      if Listed(entries[0]) then [Describe(cacheDir, entries[0])] + rest else rest
  }

  ghost predicate NewestFirst(rs: seq<Recording>) {
    forall i, j :: 0 <= i < j < |rs| ==> rs[i].created >= rs[j].created
  }

  /** The recordings created at time `t`, in order. */
  function CreatedAt(rs: seq<Recording>, t: int): seq<Recording>
    decreases |rs|
  {
    if rs == [] then []
    else (if rs[0].created == t then [rs[0]] else []) + CreatedAt(rs[1..], t)
  }

  /** Places `r` before the first recording that is not newer than it. */
  function Insert(r: Recording, rs: seq<Recording>): (out: seq<Recording>)
    ensures |out| == |rs| + 1
    ensures out[0] == r || (rs != [] && out[0] == rs[0])
    decreases |rs|
  {
    if rs == [] || r.created >= rs[0].created then [r] + rs
    else [rs[0]] + Insert(r, rs[1..])
  }

  lemma {:induction false} InsertPermutes(r: Recording, rs: seq<Recording>)
    ensures multiset(Insert(r, rs)) == multiset(rs) + multiset{r}
    decreases |rs|
  {
    if rs != [] && r.created < rs[0].created {
      InsertPermutes(r, rs[1..]);
      Sequences.MultisetOfCons(rs);
    }
  }

  lemma {:induction false} InsertKeepsOrder(r: Recording, rs: seq<Recording>)
    requires NewestFirst(rs)
    ensures NewestFirst(Insert(r, rs))
    decreases |rs|
  {
    if rs != [] && r.created < rs[0].created {
      var tail := Insert(r, rs[1..]);
      InsertKeepsOrder(r, rs[1..]);
      var out := [rs[0]] + tail;
      assert tail[0].created <= rs[0].created;
      forall i, j | 0 <= i < j < |out| ensures out[i].created >= out[j].created {
        if i == 0 {
          assert out[j] == tail[j - 1];
          assert tail[0].created >= tail[j - 1].created;
        } else {
          assert out[i] == tail[i - 1] && out[j] == tail[j - 1];
        }
      }
    }
  }

  /** `sorted(key=created, reverse=True)`: newest first, ties kept in scan order. */
  function SortNewestFirst(rs: seq<Recording>): (out: seq<Recording>)
    ensures |out| == |rs|
    ensures multiset(out) == multiset(rs)
    ensures NewestFirst(out)
    decreases |rs|
  {
    if rs == [] then []
    else
      var sortedTail := SortNewestFirst(rs[1..]);
      InsertPermutes(rs[0], sortedTail);
      InsertKeepsOrder(rs[0], sortedTail);
      Sequences.MultisetOfCons(rs);
      Insert(rs[0], sortedTail)
  }

  /**
   * `list_recordings`: nothing when the cache directory is missing, otherwise
   * the collected recordings, each exactly as often as collected, newest first.
   */
  function ListRecordings(cacheDir: string, scan: Option<seq<Entry>>): (listed: seq<Recording>)
    ensures scan.None? ==> listed == []
    ensures scan.Some? ==> multiset(listed) == multiset(Collect(cacheDir, scan.value))
    ensures NewestFirst(listed)
  {
    if scan.None? then [] else SortNewestFirst(Collect(cacheDir, scan.value))
  }

  lemma {:induction false} CollectExactly(cacheDir: string, entries: seq<Entry>, r: Recording)
    ensures r in Collect(cacheDir, entries) <==>
              exists i :: 0 <= i < |entries| && Listed(entries[i]) && r == Describe(cacheDir, entries[i])
    decreases |entries|
  {
    if entries != [] {
      CollectExactly(cacheDir, entries[1..], r);
      if exists i :: 0 <= i < |entries| && Listed(entries[i]) && r == Describe(cacheDir, entries[i]) {
        var i :| 0 <= i < |entries| && Listed(entries[i]) && r == Describe(cacheDir, entries[i]);
        if i > 0 {
          assert entries[1..][i - 1] == entries[i];
        }
      }
    }
  }

  /** Inserting a recording created at `t` puts it ahead of the others created at `t`. */
  lemma {:induction false} InsertKeepsTies(r: Recording, rs: seq<Recording>, t: int)
    requires NewestFirst(rs)
    ensures CreatedAt(Insert(r, rs), t) == (if r.created == t then [r] else []) + CreatedAt(rs, t)
    decreases |rs|
  {
    if rs == [] || r.created >= rs[0].created {
      assert ([r] + rs)[1..] == rs;
    } else {
      var tail := Insert(r, rs[1..]);
      InsertKeepsTies(r, rs[1..], t);
      assert ([rs[0]] + tail)[1..] == tail;
      if r.created == t {
        assert rs[0].created != t;
      }
    }
  }

  /** The sort is stable: recordings created at the same time keep their scan order. */
  lemma {:induction false} SortIsStable(rs: seq<Recording>, t: int)
    ensures CreatedAt(SortNewestFirst(rs), t) == CreatedAt(rs, t)
    decreases |rs|
  {
    if rs != [] {
      SortIsStable(rs[1..], t);
      InsertKeepsTies(rs[0], SortNewestFirst(rs[1..]), t);
    }
  }

  /**
   * What the listing holds: exactly the recordings described by scanned
   * directories named `so100_...`, and recordings created at the same time in
   * scan order.
   */
  lemma ListingIsTheRecordingDirectories(cacheDir: string, scan: Option<seq<Entry>>)
    ensures scan.Some? ==> forall r ::
              r in ListRecordings(cacheDir, scan) <==>
              exists i :: 0 <= i < |scan.value| && Listed(scan.value[i]) && r == Describe(cacheDir, scan.value[i])
    ensures scan.Some? ==> forall t ::
              CreatedAt(ListRecordings(cacheDir, scan), t) == CreatedAt(Collect(cacheDir, scan.value), t)
  {
    if scan.Some? {
      var collected := Collect(cacheDir, scan.value);
      var listed := ListRecordings(cacheDir, scan);
      forall r ensures r in listed <==> r in collected {
        assert r in listed <==> r in multiset(listed);
        assert r in collected <==> r in multiset(collected);
      }
      forall r ensures r in collected <==>
          exists i :: 0 <= i < |scan.value| && Listed(scan.value[i]) && r == Describe(cacheDir, scan.value[i]) {
        CollectExactly(cacheDir, scan.value, r);
      }
      forall t ensures CreatedAt(listed, t) == CreatedAt(collected, t) {
        SortIsStable(collected, t);
      }
    }
  }

  /** `--repo-id` of `start_recording`. */
  function RecordRepoId(uniqueId: string): string {
    Owner + "/" + Prefix + uniqueId
  }

  /** `recording_id` in the reply of `start_recording`. */
  function RecordingReplyId(uniqueId: string): string {
    Prefix + uniqueId
  }

  /** `--repo-id` of `replay_recording`. */
  function ReplayRepoId(recordingId: string): string {
    Owner + "/" + Prefix + recordingId
  }

  /**
   * The directory a dataset repository `chrisheninger/<name>` occupies inside the
   * cache directory: `<name>` (the control script stores datasets under their
   * repository id).
   */
  function DirectoryOf(repoId: string): Option<string> {
    if Text.StartsWith(repoId, Owner + "/") then Some(repoId[|Owner| + 1..]) else None
  }

  /** A listed id, given back to replay, names exactly the directory it was listed from. */
  lemma ListedIdReplaysItsDirectory(cacheDir: string, e: Entry)
    requires Listed(e)
    ensures var id := Describe(cacheDir, e).id;
            && Prefix + id == e.name
            && DirectoryOf(ReplayRepoId(id)) == Some(e.name)
  {
    Text.ReplaceFirstOfPrefix(e.name, Prefix);
    var id := Describe(cacheDir, e).id;
    var repo := ReplayRepoId(id);
    assert repo == (Owner + "/") + e.name;
    assert repo[..|Owner| + 1] == Owner + "/";
    assert repo[|Owner| + 1..] == e.name;
  }

  /**
   * A recording's dataset directory lists under the unique id it was recorded
   * with, and replaying that id names the same dataset repository.
   */
  lemma RecordingListsUnderItsUniqueId(cacheDir: string, uniqueId: string, created: int)
    ensures var dir := DirectoryOf(RecordRepoId(uniqueId));
            && dir == Some(Prefix + uniqueId)
            && Listed(Entry(dir.value, true, created))
            && Describe(cacheDir, Entry(dir.value, true, created)).id == uniqueId
            && ReplayRepoId(uniqueId) == RecordRepoId(uniqueId)
  {
    var repo := RecordRepoId(uniqueId);
    assert repo == (Owner + "/") + (Prefix + uniqueId);
    assert repo[..|Owner| + 1] == Owner + "/";
    assert repo[|Owner| + 1..] == Prefix + uniqueId;
    assert (Prefix + uniqueId)[..|Prefix|] == Prefix;
    Text.ReplaceFirstOfPrefix(Prefix + uniqueId, Prefix);
    assert (Prefix + uniqueId)[|Prefix|..] == uniqueId;
  }

  /** The `recording_id` that `start_recording` replies with is not an id replay accepts for that dataset. */
  lemma ReplyIdIsNotReplayId(uniqueId: string)
    ensures ReplayRepoId(RecordingReplyId(uniqueId)) != RecordRepoId(uniqueId)
  {
    assert |ReplayRepoId(RecordingReplyId(uniqueId))| == |RecordRepoId(uniqueId)| + |Prefix|;
  }
}
