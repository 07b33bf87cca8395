/**
 * The on-disk cache of per-player stats (src/cache.rs): one file per
 * handle in the `.replayCache` directory, a time-to-live sweep at start-up,
 * and, when a write leaves too many files, a background trim of the least
 * recently modified ones guarded by a single-flight flag.
 *
 * The directory is a map from entry name to `Entry`; times are nanoseconds
 * since an arbitrary epoch. The trim thread is modelled as the separate
 * operation `RunTrim`, which may run at any later point.
 */
module Cache {
  import opened Basics

  /** `TIME_TO_LIVE`: five hours, in seconds. */
  const TIME_TO_LIVE: nat := 60 * 60 * 5
  /** `MAX_CACHED_FILES`: a write that leaves more regular files than this starts a trim. */
  const MAX_CACHED_FILES: nat := 1000
  /** `MAX_TRIMMED_FILES`: how many files one trim deletes. */
  const MAX_TRIMMED_FILES: nat := 800
  const NANOS_PER_SECOND: nat := 1_000_000_000

  /** A directory entry: a regular file with its creation and modification times and its contents, or anything else. */
  datatype Entry = File(created: nat, modified: nat, content: string) | Other

  type Directory = map<string, Entry>

  // ------------------------------------------------------------ sequences of names

  /** The names in a sequence, as a set. */
  function Names(s: seq<string>): (r: set<string>)
    ensures forall x :: x in r <==> x in s
  {
    set x | x in s
  }

  /** No name occurs twice. */
  predicate NoDup(s: seq<string>)
  {
    forall x :: x in s ==> multiset(s)[x] == 1
  }

  /** A sequence without repeats has as many names as elements. */
  lemma {:induction false} NoDupCard(s: seq<string>)
    requires NoDup(s)
    ensures |Names(s)| == |s|
  {
    if s != [] {
      var front, last := s[..|s| - 1], s[|s| - 1];
      assert s == front + [last];
      assert multiset(s) == multiset(front) + multiset{last};
      assert last !in front by {
        assert multiset(s)[last] == 1;
      }
      forall x | x in front ensures multiset(front)[x] == 1 {
        assert x in s;
      }
      NoDupCard(front);
      assert Names(s) == Names(front) + {last};
    }
  }

  // ------------------------------------------------------------ the directory

  /** The names of the regular files. */
  function FileNames(dir: Directory): (r: set<string>)
    ensures forall k :: k in r <==> k in dir && dir[k].File?
  {
    set k | k in dir && dir[k].File?
  }

  /** `read_dir` lists every entry of the directory exactly once, in an order of its own. */
  predicate Enumerates(listing: seq<string>, names: set<string>)
  {
    NoDup(listing) && Names(listing) == names
  }

  /** The listing with the entries that are not regular files dropped, order kept (`filter(is_file)`). */
  function FilesListed(listing: seq<string>, dir: Directory): (r: seq<string>)
    ensures forall x :: x in r <==> x in listing && x in dir && dir[x].File?
    ensures |r| <= |listing|
  {
    if listing == [] then []
    else
      var front := FilesListed(listing[..|listing| - 1], dir);
      var last := listing[|listing| - 1];
      assert forall x :: x in listing[..|listing| - 1] ==> x in listing;
      if last in dir && dir[last].File? then front + [last] else front
  }

  /** Dropping entries keeps a listing free of repeats. */
  lemma {:induction false} FilesListedNoDup(listing: seq<string>, dir: Directory)
    requires NoDup(listing)
    ensures NoDup(FilesListed(listing, dir))
  {
    if listing != [] {
      var front, last := listing[..|listing| - 1], listing[|listing| - 1];
      assert listing == front + [last];
      assert multiset(listing) == multiset(front) + multiset{last};
      forall x | x in front ensures multiset(front)[x] == 1 {
        assert x in listing;
      }
      FilesListedNoDup(front, dir);
      var r := FilesListed(listing, dir);
      var f := FilesListed(front, dir);
      if last in dir && dir[last].File? {
        assert last !in front by {
          assert multiset(listing)[last] == 1;
        }
        assert last !in f;
        assert multiset(r) == multiset(f) + multiset{last};
        forall x | x in r ensures multiset(r)[x] == 1 {
          if x != last {
            assert x in f;
          }
        }
      }
    }
  }

  /** The filtered listing holds each regular file once: its length is the number of regular files. */
  lemma FilesListedCount(listing: seq<string>, dir: Directory)
    requires Enumerates(listing, dir.Keys)
    ensures NoDup(FilesListed(listing, dir))
    ensures Names(FilesListed(listing, dir)) == FileNames(dir)
    ensures |FilesListed(listing, dir)| == |FileNames(dir)|
  {
    FilesListedNoDup(listing, dir);
    NoDupCard(FilesListed(listing, dir));
  }

  // ------------------------------------------------------------ reading and writing

  /**
   * `get_cached_stats` on a directory: nothing when no entry has the
   * handle's name, and otherwise what parsing its contents gives, which is
   * nothing when they do not parse. An entry that is not a regular file
   * opens but cannot be read, so it gives nothing either.
   */
  function Lookup<T>(dir: Directory, handle: string, parse: string -> Option<T>): (r: Option<T>)
    ensures handle in dir && dir[handle].File? ==> r == parse(dir[handle].content)
    ensures handle !in dir || dir[handle].Other? ==> r == None
  {
    if handle !in dir then None
    else
      match dir[handle]
      case Other => None
      case File(_, _, content) => parse(content)
  }

  /**
   * The write of `set_cached_stats`: `File::create` truncates an existing
   * file, which keeps its creation time, or creates a new one; either way
   * the contents are replaced, not merged.
   */
  function Written(dir: Directory, handle: string, text: string, now: nat): (r: Directory)
    requires handle in dir ==> dir[handle].File?
    ensures r.Keys == dir.Keys + {handle}
    ensures r[handle].File? && r[handle].modified == now && r[handle].content == text
    ensures handle in dir ==> r[handle].created == dir[handle].created
    ensures handle !in dir ==> r[handle].created == now
    ensures forall k :: k in dir && k != handle ==> r[k] == dir[k]
  {
    var created := if handle in dir then dir[handle].created else now;
    dir[handle := File(created, now, text)]
  }

  /** Reading back what was written gives the parse of the written text; every other handle reads as before. */
  lemma ReadAfterWrite<T>(dir: Directory, handle: string, text: string, now: nat, parse: string -> Option<T>, other: string)
    requires handle in dir ==> dir[handle].File?
    ensures Lookup(Written(dir, handle, text, now), handle, parse) == parse(text)
    ensures other != handle ==> Lookup(Written(dir, handle, text, now), other, parse) == Lookup(dir, other, parse)
  {
  }

  /** Writing a handle twice leaves what the second write put there. */
  lemma WriteOverwrites(dir: Directory, handle: string, first: string, second: string, t1: nat, t2: nat)
    requires handle in dir ==> dir[handle].File?
    ensures Written(Written(dir, handle, first, t1), handle, second, t2)
      == Written(dir, handle, second, t2)[handle := File(Written(dir, handle, first, t1)[handle].created, t2, second)]
  {
  }

  // ------------------------------------------------------------ the start-up sweep

  /** Every regular file was created no later than `now`; otherwise `duration_since` fails and the sweep panics. */
  predicate CreatedBy(dir: Directory, now: nat)
  {
    forall k :: k in dir && dir[k].File? ==> dir[k].created <= now
  }

  /** A regular file whose age, in whole seconds, exceeds the time to live. */
  predicate Expired(e: Entry, now: nat)
    requires e.File? ==> e.created <= now
  {
    e.File? && (now - e.created) / NANOS_PER_SECOND > TIME_TO_LIVE
  }

  /** The directory after the sweep of `initialize_cache`: the expired regular files removed, everything else kept. */
  function Swept(dir: Directory, now: nat): (r: Directory)
    requires CreatedBy(dir, now)
  {
    map k | k in dir && !Expired(dir[k], now) :: dir[k]
  }

  /**
   * What the sweep keeps: every entry that is not a regular file and every
   * file at most 18000 whole seconds old, unchanged; nothing else.
   */
  lemma SweptMeaning(dir: Directory, now: nat, k: string)
    requires CreatedBy(dir, now)
    ensures k in Swept(dir, now) <==>
      k in dir && (dir[k].Other? || (now - dir[k].created) / NANOS_PER_SECOND <= TIME_TO_LIVE)
    ensures k in Swept(dir, now) ==> Swept(dir, now)[k] == dir[k]
  {
  }

  /** Sweeping again at the same time removes nothing more. */
  lemma SweepIdempotent(dir: Directory, now: nat)
    requires CreatedBy(dir, now)
    ensures CreatedBy(Swept(dir, now), now)
    ensures Swept(Swept(dir, now), now) == Swept(dir, now)
  {
  }

  /** A later sweep keeps no more than an earlier one. */
  lemma SweepLater(dir: Directory, now: nat, later: nat)
    requires CreatedBy(dir, now) && now <= later
    ensures CreatedBy(dir, later)
    ensures Swept(dir, later).Keys <= Swept(dir, now).Keys
  {
    forall k | k in Swept(dir, later) ensures k in Swept(dir, now) {
      if dir[k].File? {
        DivMonotone(now - dir[k].created, later - dir[k].created);
      }
    }
  }

  lemma DivMonotone(a: nat, b: nat)
    requires a <= b
    ensures a / NANOS_PER_SECOND <= b / NANOS_PER_SECOND
  {
  }

  /**
   * The age is truncated to whole seconds before it is compared, so a file
   * just under a second past the time to live survives the sweep.
   */
  lemma WholeSeconds(content: string, created: nat)
    ensures var now := created + TIME_TO_LIVE * NANOS_PER_SECOND + NANOS_PER_SECOND - 1;
      var dir := map["f" := File(created, created, content)];
      "f" in Swept(dir, now)
    ensures var now := created + (TIME_TO_LIVE + 1) * NANOS_PER_SECOND;
      var dir := map["f" := File(created, created, content)];
      "f" !in Swept(dir, now)
  {
    var now := created + TIME_TO_LIVE * NANOS_PER_SECOND + NANOS_PER_SECOND - 1;
    assert (now - created) / NANOS_PER_SECOND == TIME_TO_LIVE;
    var later := created + (TIME_TO_LIVE + 1) * NANOS_PER_SECOND;
    assert (later - created) / NANOS_PER_SECOND == TIME_TO_LIVE + 1;
  }

  /** The loop of `initialize_cache` over the directory's entries, in whatever order `read_dir` gives them. */
  method Sweep(dir: Directory, now: nat) returns (kept: Directory)
    requires CreatedBy(dir, now)
    ensures kept == Swept(dir, now)
  {
    kept := dir;
    var left := dir.Keys;
    while left != {}
      invariant left <= dir.Keys
      invariant kept == map k | k in dir && (k in left || !Expired(dir[k], now)) :: dir[k]
      decreases |left|
    {
      var k :| k in left;
      left := left - {k};
      var e := dir[k];
      if e.Other? {
        continue;
      }
      if (now - e.created) / NANOS_PER_SECOND > TIME_TO_LIVE {
        kept := kept - {k};
      }
    }
  }

  // ------------------------------------------------------------ ordering for the trim

  /** The modification time the trim sorts by. */
  function Modified(dir: Directory, x: string): nat
  {
    if x in dir && dir[x].File? then dir[x].modified else 0
  }

  /** Modification times never decrease along `s`. */
  predicate SortedByModified(dir: Directory, s: seq<string>)
  {
    forall i, j :: 0 <= i < j < |s| ==> Modified(dir, s[i]) <= Modified(dir, s[j])
  }

  /** `x` placed after every element of `s` that is not newer than it. */
  function Insert(dir: Directory, x: string, s: seq<string>): (r: seq<string>)
    ensures multiset(r) == multiset(s) + multiset{x}
  {
    if s == [] then [x]
    else if Modified(dir, x) < Modified(dir, s[0]) then [x] + s
    else
      assert s == [s[0]] + s[1..];
      [s[0]] + Insert(dir, x, s[1..])
  }

  /** `sort_by` on modification times: a stable sort, modelled as insertion of each name in turn. */
  function SortByModified(dir: Directory, s: seq<string>): (r: seq<string>)
    ensures multiset(r) == multiset(s)
  {
    if s == [] then []
    else
      assert s == s[..|s| - 1] + [s[|s| - 1]];
      Insert(dir, s[|s| - 1], SortByModified(dir, s[..|s| - 1]))
  }

  /** Inserting into a sorted sequence keeps it sorted. */
  lemma {:induction false} InsertSorted(dir: Directory, x: string, s: seq<string>)
    requires SortedByModified(dir, s)
    ensures SortedByModified(dir, Insert(dir, x, s))
  {
    if s != [] && Modified(dir, x) >= Modified(dir, s[0]) {
      InsertSorted(dir, x, s[1..]);
      var rest := Insert(dir, x, s[1..]);
      forall k | 0 <= k < |rest| ensures Modified(dir, s[0]) <= Modified(dir, rest[k]) {
        assert rest[k] in multiset(rest);
        if rest[k] != x {
          assert rest[k] in s[1..];
        }
      }
    }
  }

  /** The sort orders the names by modification time and is a permutation of them. */
  lemma {:induction false} SortSorted(dir: Directory, s: seq<string>)
    ensures SortedByModified(dir, SortByModified(dir, s))
    ensures |SortByModified(dir, s)| == |s|
  {
    assert |multiset(SortByModified(dir, s))| == |multiset(s)|;
    if s != [] {
      SortSorted(dir, s[..|s| - 1]);
      InsertSorted(dir, s[|s| - 1], SortByModified(dir, s[..|s| - 1]));
    }
  }

  /** The names a trim of `pending` deletes: the first 800 after sorting by modification time. */
  function Victims(dir: Directory, pending: seq<string>): (r: seq<string>)
    requires |pending| >= MAX_TRIMMED_FILES
    ensures |r| == MAX_TRIMMED_FILES
  {
    SortSorted(dir, pending);
    SortByModified(dir, pending)[..MAX_TRIMMED_FILES]
  }

  /**
   * The trim deletes the oldest files: every victim was pending and was
   * modified no later than any pending file that survives.
   */
  lemma VictimsOldest(dir: Directory, pending: seq<string>, v: string, s: string)
    requires |pending| >= MAX_TRIMMED_FILES && NoDup(pending)
    requires v in Victims(dir, pending) && s in pending && s !in Victims(dir, pending)
    ensures v in pending
    ensures Modified(dir, v) <= Modified(dir, s)
  {
    var sorted := SortByModified(dir, pending);
    SortSorted(dir, pending);
    assert v in multiset(sorted);
    assert s in multiset(sorted);
    var i :| 0 <= i < MAX_TRIMMED_FILES && sorted[i] == v;
    var j :| 0 <= j < |sorted| && sorted[j] == s;
    assert j >= MAX_TRIMMED_FILES;
  }

  /** The victims of a trim are 800 distinct names. */
  lemma VictimsDistinct(dir: Directory, pending: seq<string>)
    requires |pending| >= MAX_TRIMMED_FILES && NoDup(pending)
    ensures NoDup(Victims(dir, pending))
    ensures |Names(Victims(dir, pending))| == MAX_TRIMMED_FILES
  {
    var sorted := SortByModified(dir, pending);
    var v := Victims(dir, pending);
    assert sorted == v + sorted[MAX_TRIMMED_FILES..];
    assert multiset(sorted) == multiset(v) + multiset(sorted[MAX_TRIMMED_FILES..]);
    forall x | x in v ensures multiset(v)[x] == 1 {
      assert x in multiset(pending);
    }
    NoDupCard(v);
  }

  /**
   * A trim removes exactly 800 regular files, whatever the count was:
   * it does not bring the count down to 800.
   */
  lemma TrimCount(dir: Directory, pending: seq<string>)
    requires |pending| >= MAX_TRIMMED_FILES && NoDup(pending)
    requires forall x :: x in pending ==> x in dir && dir[x].File?
    ensures |FileNames(dir - Names(Victims(dir, pending)))| == |FileNames(dir)| - MAX_TRIMMED_FILES
  {
    var gone := Names(Victims(dir, pending));
    VictimsDistinct(dir, pending);
    forall x | x in gone ensures x in FileNames(dir) {
      assert x in multiset(SortByModified(dir, pending));
    }
    assert FileNames(dir - gone) == FileNames(dir) - gone;
  }

  // ------------------------------------------------------------ the cache

  /** The cache directory together with the `TRIMMING_CACHE` flag and the file list a running trim holds. */
  class ReplayCache {
    var entries: Directory
    var trimming: bool
    var pending: seq<string>

    /**
     * A trim runs exactly while the flag is set; the files it holds were
     * listed once each, there are more than 1000 of them, and each is still
     * a regular file, since nothing but a trim deletes one.
     */
    ghost predicate Valid()
      reads this
    {
      if trimming then
        && NoDup(pending) && |pending| > MAX_CACHED_FILES
        && forall x :: x in pending ==> x in entries && entries[x].File?
      else pending == []
    }

    /**
     * `initialize_cache`: create the directory if `existing` says it is
     * absent, then delete the expired regular files.
     */
    constructor Initialize(existing: Option<Directory>, now: nat)
      requires existing.Some? ==> CreatedBy(existing.value, now)
      ensures Valid() && !trimming
      ensures existing.None? ==> entries == map[]
      ensures existing.Some? ==> entries == Swept(existing.value, now)
    {
      var dir := if existing.Some? then existing.value else map[];
      var kept := Sweep(dir, now);
      entries := kept;
      trimming := false;
      pending := [];
    }

    /** `get_cached_stats`: the parsed contents of the handle's file when it exists, nothing when there is no such file. */
    function CachedStats<T>(handle: string, parse: string -> Option<T>): (r: Option<T>)
      reads this
      ensures handle in entries && entries[handle].File? ==> r == parse(entries[handle].content)
      ensures handle !in entries || entries[handle].Other? ==> r == None
    {
      Lookup(entries, handle, parse)
    }

    /**
     * `set_cached_stats`: write `text` (the serialised stats) under the
     * handle, list the directory (`listing` is the order `read_dir` gives),
     * and start a trim of the listed regular files when there are more than
     * 1000 of them and no trim is running. A trigger while a trim runs is dropped.
     */
    method SetCachedStats(handle: string, text: string, now: nat, listing: seq<string>)
      requires Valid()
      requires handle in entries ==> entries[handle].File?
      requires Enumerates(listing, entries.Keys + {handle})
      modifies this
      ensures Valid()
      ensures entries == Written(old(entries), handle, text, now)
      ensures old(trimming) ==> trimming && pending == old(pending)
      ensures !old(trimming) ==> (trimming <==> |FileNames(entries)| > MAX_CACHED_FILES)
      ensures !old(trimming) && trimming ==> pending == FilesListed(listing, entries)
    {
      entries := Written(entries, handle, text, now);
      var files := FilesListed(listing, entries);
      FilesListedCount(listing, entries);
      if |files| > MAX_CACHED_FILES && !trimming {
        trimming := true;
        pending := files;
      }
    }

    /**
     * The trim thread's body: sort the files it holds by modification time,
     * delete the first 800, and clear the flag.
     */
    method RunTrim()
      requires Valid() && trimming
      modifies this
      ensures Valid() && !trimming
      ensures entries == old(entries) - Names(Victims(old(entries), old(pending)))
      ensures |FileNames(entries)| == |FileNames(old(entries))| - MAX_TRIMMED_FILES
    {
      var files := SortByModified(entries, pending);
      SortSorted(entries, pending);
      TrimCount(entries, pending);
      RemoveFirst(files, MAX_TRIMMED_FILES);
      trimming := false;
      pending := [];
    }

    /** The deleting loop of the trim: remove the first `n` of `files`. */
    method RemoveFirst(files: seq<string>, n: nat)
      requires n <= |files|
      modifies this
      ensures entries == old(entries) - Names(files[..n])
      ensures trimming == old(trimming) && pending == old(pending)
    {
      for i := 0 to n
        invariant entries == old(entries) - Names(files[..i])
        invariant trimming == old(trimming) && pending == old(pending)
      {
        assert Names(files[..i + 1]) == Names(files[..i]) + {files[i]} by {
          assert files[..i + 1] == files[..i] + [files[i]];
        }
        entries := entries - {files[i]};
      }
    }
  }
}
