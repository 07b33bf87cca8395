/**
 * The watcher in `auto_muncher`: which paths it treats as replays, the
 * table of per-file results that parses and vanished files update, and the
 * name-keyed merge of that table that it writes out.
 */
module ResultTable {
  import opened Basics
  import opened PlacementStats
  import opened Accumulator
  import opened PlayerStats
  import opened AutoMuncher

  // ---------------------------------------------------------------- paths

  /** The position of the last `c` in `s`, if any. */
  function LastIndex(s: string, c: char): (r: Option<nat>)
    ensures r.Some? ==> r.value < |s| && s[r.value] == c && c !in s[r.value + 1..]
    ensures r.None? ==> c !in s
  {
    if s == [] then None
    else if s[|s| - 1] == c then Some(|s| - 1)
    else
      var r := LastIndex(s[..|s| - 1], c);
      assert s == s[..|s| - 1] + [s[|s| - 1]];
      assert r.Some? ==> s[r.value + 1..] == s[..|s| - 1][r.value + 1..] + [s[|s| - 1]];
      r
  }

  /** A `c` after which no other `c` follows is the last one. */
  lemma {:induction false} LastIndexAt(s: string, c: char, i: nat)
    requires i < |s| && s[i] == c && c !in s[i + 1..]
    ensures LastIndex(s, c) == Some(i)
  {
    if i < |s| - 1 {
      var front := s[..|s| - 1];
      assert s[|s| - 1] in s[i + 1..];
      assert front[i + 1..] <= s[i + 1..];
      LastIndexAt(front, c, i);
    }
  }

  /** `Path::file_name` for `/`-separated paths: what follows the last separator. */
  function FileName(path: string): (name: string)
    ensures '/' !in name
    ensures |name| <= |path| && path == path[..|path| - |name|] + name
    ensures |name| < |path| ==> path[|path| - |name| - 1] == '/'
  {
    match LastIndex(path, '/')
    case None => path
    case Some(i) => path[i + 1..]
  }

  /** The extension of a file name: what follows its last `.`, unless that `.` begins the name; `..` has none. */
  function NameExtension(name: string): Option<string>
  {
    if name == ".." then None
    else match LastIndex(name, '.')
      case None => None
      case Some(i) => if i == 0 then None else Some(name[i + 1..])
  }

  /** `Path::extension`: the extension of the file name. */
  function Extension(path: string): Option<string>
  {
    NameExtension(FileName(path))
  }

  /** `name` is longer than `suffix` and ends with it. */
  predicate EndsAfter(name: string, suffix: string)
  {
    |name| > |suffix| && name[|name| - |suffix|..] == suffix
  }

  /** A file name has the (dot-free, non-empty) extension `e` exactly when it is a non-empty stem followed by `.` and `e`. */
  lemma NameExtensionSuffix(name: string, e: string)
    requires e != [] && '.' !in e
    ensures NameExtension(name) == Some(e) <==> EndsAfter(name, ['.'] + e)
  {
    var n := |name|;
    if NameExtension(name) == Some(e) {
      var i := LastIndex(name, '.').value;
      assert name[i + 1..] == e;
      assert name[n - |e| - 1..] == [name[i]] + name[i + 1..];
    }
    if EndsAfter(name, ['.'] + e) {
      var i := n - |e| - 1;
      assert name[i] == '.';
      assert name[i + 1..] == e;
      LastIndexAt(name, '.', i);
    }
  }

  /** The watcher handles `.ttrm` and `.ttr` files only. */
  predicate IsReplayPath(path: string)
  {
    Extension(path) == Some("ttrm") || Extension(path) == Some("ttr")
  }

  /** A path is a replay exactly when its file name is a non-empty stem followed by `.ttrm` or `.ttr`. */
  lemma ReplayPathMeaning(path: string)
    ensures IsReplayPath(path) <==> EndsAfter(FileName(path), ".ttrm") || EndsAfter(FileName(path), ".ttr")
  {
    assert ['.'] + "ttrm" == ".ttrm" && ['.'] + "ttr" == ".ttr";
    NameExtensionSuffix(FileName(path), "ttrm");
    NameExtensionSuffix(FileName(path), "ttr");
  }

  // ------------------------------------------------------------ the table

  /** The players of one file, as `process_replay` returned them. */
  type Roster = seq<(string, Bundle)>

  /** `parse_file` on the table: a successful parse inserts or replaces the path's entry, a failed one changes nothing. */
  function Parsed(data: map<string, Roster>, path: string, result: Result<Roster, ReplayError>): (d: map<string, Roster>)
    ensures result.Ok? ==> path in d && d[path] == result.value
    ensures result.Err? ==> d == data
    ensures forall p :: p != path ==> (p in d <==> p in data) && (p in d ==> d[p] == data[p])
  {
    if result.Ok? then data[path := result.value] else data
  }

  /** The paths of an event that name replays, in order. */
  function ReplayPaths(paths: seq<string>): (r: seq<string>)
    ensures forall p :: p in r <==> p in paths && IsReplayPath(p)
  {
    Filter(IsReplayPath, paths)
  }

  /** One replay path of a watcher event: parsed when the file exists, dropped when it does not. */
  function Touched(data: map<string, Roster>, path: string, present: bool, result: Result<Roster, ReplayError>)
    : map<string, Roster>
  {
    if present then Parsed(data, path, result) else data - {path}
  }

  /** The replay paths of one watcher event, handled in order. */
  function Handled(data: map<string, Roster>, paths: seq<string>, present: string -> bool,
                   results: string -> Result<Roster, ReplayError>): map<string, Roster>
  {
    if paths == [] then data
    else
      var p := paths[|paths| - 1];
      Touched(Handled(data, paths[..|paths| - 1], present, results), p, present(p), results(p))
  }

  /** The entry of `p` is what it was. */
  predicate SameEntry(d: map<string, Roster>, data: map<string, Roster>, p: string)
  {
    (p in d <==> p in data) && (p in d ==> d[p] == data[p])
  }

  /**
   * After handling paths, the entry of a path is: unchanged when the path
   * is not among them; gone when the file no longer exists; the parse result
   * when it parsed; unchanged when its parse failed.
   */
  lemma {:induction false} HandledEntry(data: map<string, Roster>, paths: seq<string>, present: string -> bool,
                                        results: string -> Result<Roster, ReplayError>, p: string)
    ensures var d := Handled(data, paths, present, results);
      && (p !in paths ==> SameEntry(d, data, p))
      && (p in paths && !present(p) ==> p !in d)
      && (p in paths && present(p) && results(p).Ok? ==> p in d && d[p] == results(p).value)
      && (p in paths && present(p) && results(p).Err? ==> SameEntry(d, data, p))
  {
    if paths != [] {
      var front := paths[..|paths| - 1];
      var q := paths[|paths| - 1];
      HandledEntry(data, front, present, results, p);
      assert p in paths <==> p in front || p == q by {
        assert paths == front + [q];
      }
    }
  }

  /** A watcher event changes only the entries of its replay paths, as `HandledEntry` describes. */
  lemma EventEntry(data: map<string, Roster>, paths: seq<string>, present: string -> bool,
                   results: string -> Result<Roster, ReplayError>, p: string)
    requires !IsReplayPath(p)
    ensures SameEntry(Handled(data, ReplayPaths(paths), present, results), data, p)
  {
    HandledEntry(data, ReplayPaths(paths), present, results, p);
  }

  /** The watcher's `file_data`: each replay path with the players of its last successful parse. */
  class FileTable {
    var data: map<string, Roster>

    /** Every stored bundle is sound, as every bundle `process_replay` returns is. */
    ghost predicate Valid()
      reads this
    {
      forall p :: p in data ==> PairsSound(data[p])
    }

    constructor ()
      ensures data == map[] && Valid()
    {
      data := map[];
    }

    /** `parse_file`, given what `process_replay` made of the file's contents. */
    method ParseFile(path: string, result: Result<Roster, ReplayError>)
      requires Valid() && (result.Ok? ==> PairsSound(result.value))
      modifies this
      ensures Valid() && data == Parsed(old(data), path, result)
    {
      match result
      case Ok(players) =>
        data := data[path := players];
      case Err(_) =>
    }

    /**
     * The start-up scan of the watched directory: every listed replay path
     * exists and is parsed, in listing order. The output is written after
     * the scan whatever it found, even when the listing holds no replay.
     */
    method Scan(listing: seq<string>, results: string -> Result<Roster, ReplayError>)
      requires Valid() && forall p :: results(p).Ok? ==> PairsSound(results(p).value)
      modifies this
      ensures Valid() && data == Handled(old(data), ReplayPaths(listing), p => true, results)
    {
      var replays := Keep(listing);
      HandleReplays(replays, p => true, results);
    }

    /**
     * The body of the watcher loop for one event: keep the replay paths; if
     * there are any, parse those that exist, drop the others and rewrite
     * the output. `present` says whether a path exists and `results` what
     * `process_replay` makes of its contents.
     */
    method HandleEvent(paths: seq<string>, present: string -> bool, results: string -> Result<Roster, ReplayError>)
      returns (rewrite: bool)
      requires Valid() && forall p :: results(p).Ok? ==> PairsSound(results(p).value)
      modifies this
      ensures Valid() && data == Handled(old(data), ReplayPaths(paths), present, results)
      ensures rewrite <==> exists p :: p in paths && IsReplayPath(p)
    {
      var replays := Keep(paths);
      if replays == [] {
        return false;
      }
      HandleReplays(replays, present, results);
      assert replays[0] in replays;
      return true;
    }

    /** The `for path in paths` loop over the replay paths of an event. */
    method HandleReplays(replays: seq<string>, present: string -> bool, results: string -> Result<Roster, ReplayError>)
      requires Valid() && forall p :: results(p).Ok? ==> PairsSound(results(p).value)
      modifies this
      ensures Valid() && data == Handled(old(data), replays, present, results)
    {
      for k := 0 to |replays|
        invariant Valid() && data == Handled(old(data), replays[..k], present, results)
      {
        assert replays[..k + 1][..k] == replays[..k];
        var path := replays[k];
        if present(path) {
          ParseFile(path, results(path));
        } else {
          data := data - {path};
        }
      }
      assert replays[..|replays|] == replays;
    }
  }

  /** The `filter` on an event's paths: the replay paths, in order. */
  method Keep(paths: seq<string>) returns (replays: seq<string>)
    ensures replays == ReplayPaths(paths)
  {
    replays := [];
    for k := 0 to |paths|
      invariant replays == Filter(IsReplayPath, paths[..k])
    {
      assert paths[..k + 1][..k] == paths[..k];
      if IsReplayPath(paths[k]) {
        replays := replays + [paths[k]];
      }
    }
    assert paths[..|paths|] == paths;
  }

  // ----------------------------------------------------------- the output

  /** Two lists of pairs are sound exactly when their concatenation is. */
  lemma PairsSoundAppend(a: Roster, b: Roster)
    ensures PairsSound(a + b) <==> PairsSound(a) && PairsSound(b)
  {
    if PairsSound(a) && PairsSound(b) {
      forall i | 0 <= i < |a + b|
        ensures Sound((a + b)[i].1)
      {
        if i >= |a| {
          assert (a + b)[i] == b[i - |a|];
        }
      }
    }
    if PairsSound(a + b) {
      forall i | 0 <= i < |a|
        ensures Sound(a[i].1)
      {
        assert (a + b)[i] == a[i];
      }
      forall i | 0 <= i < |b|
        ensures Sound(b[i].1)
      {
        assert (a + b)[|a| + i] == b[i];
      }
    }
  }

  /** The table's players, file after file in the order `order` visits the paths. */
  function Flatten(data: map<string, Roster>, order: seq<string>): (r: Roster)
    requires forall k :: 0 <= k < |order| ==> order[k] in data
    requires forall p :: p in data ==> PairsSound(data[p])
    ensures PairsSound(r)
  {
    if order == [] then []
    else
      var front := Flatten(data, order[..|order| - 1]);
      PairsSoundAppend(front, data[order[|order| - 1]]);
      front + data[order[|order| - 1]]
  }

  /** The bundles of the pairs named `name`, in order. */
  function BundlesNamed(pairs: Roster, name: string): (bs: seq<Bundle>)
    ensures PairsSound(pairs) ==> forall k :: 0 <= k < |bs| ==> Sound(bs[k])
  {
    if pairs == [] then []
    else
      var last := pairs[|pairs| - 1];
      BundlesNamed(pairs[..|pairs| - 1], name) + (if last.0 == name then [last.1] else [])
  }

  /** Absorbing bundles one after another into the default bundle. */
  function MergeAll(bs: seq<Bundle>): (m: Bundle)
    requires forall k :: 0 <= k < |bs| ==> Sound(bs[k])
    ensures Sound(m)
  {
    if bs == [] then DefaultBundle()
    else
      var front := MergeAll(bs[..|bs| - 1]);
      MergeSound(front, bs[|bs| - 1]);
      Merge(front, bs[|bs| - 1])
  }

  /** Every value of a name-keyed map is sound. */
  predicate ValuesSound(m: map<string, Bundle>)
  {
    forall n :: n in m ==> Sound(m[n])
  }

  /**
   * The `player_stats` map of `output_data` after visiting `pairs`: the
   * first bundle of a name is inserted as a copy, later ones are absorbed
   * into it.
   */
  function Collect(acc: map<string, Bundle>, pairs: Roster): (m: map<string, Bundle>)
    requires ValuesSound(acc) && PairsSound(pairs)
    ensures ValuesSound(m)
  {
    if pairs == [] then acc
    else
      var front := pairs[..|pairs| - 1];
      assert PairsSound(front) by { PairsSoundAppend(front, [pairs[|pairs| - 1]]); assert front + [pairs[|pairs| - 1]] == pairs; }
      var prev := Collect(acc, front);
      var (n, b) := pairs[|pairs| - 1];
      if n in prev then MergeSound(prev[n], b); prev[n := Merge(prev[n], b)] else prev[n := b]
  }

  /**
   * The merged output holds exactly the names that occur, and each name's
   * bundle is the merge, in order, of every bundle for that name.
   */
  lemma {:induction false} CollectMeaning(pairs: Roster)
    requires PairsSound(pairs)
    ensures var m := Collect(map[], pairs);
      && (forall n :: n in m <==> BundlesNamed(pairs, n) != [])
      && (forall n :: n in m ==> m[n] == MergeAll(BundlesNamed(pairs, n)))
  {
    if pairs != [] {
      var front := pairs[..|pairs| - 1];
      PairsSoundAppend(front, [pairs[|pairs| - 1]]);
      assert front + [pairs[|pairs| - 1]] == pairs;
      CollectMeaning(front);
      var (n, b) := pairs[|pairs| - 1];
      var prev := Collect(map[], front);
      var m := Collect(map[], pairs);
      forall x
        ensures x in m <==> BundlesNamed(pairs, x) != []
        ensures x in m ==> m[x] == MergeAll(BundlesNamed(pairs, x))
      {
        if x == n {
          var bs := BundlesNamed(pairs, x);
          assert bs == BundlesNamed(front, x) + [b];
          assert bs[..|bs| - 1] == BundlesNamed(front, x);
          if n !in prev {
            MergeDefaultLeft(b);
          }
        } else {
          assert BundlesNamed(pairs, x) == BundlesNamed(front, x);
        }
      }
    }
  }

  /** `order` visits every key of `m` exactly once, as iterating a map does. */
  ghost predicate KeyOrder(m: map<string, Roster>, order: seq<string>)
  {
    && (forall p :: p in m <==> p in order)
    && (forall i, j :: 0 <= i < j < |order| ==> order[i] != order[j])
  }

  /**
   * `output_data`: merge the table by player name, visiting its files in
   * `order` (the map's iteration order), then summarise every player. The
   * two files written hold `raw` and `summary`.
   */
  method OutputData(table: FileTable, order: seq<string>)
    returns (raw: map<string, Bundle>, summary: map<string, PlayerInts>)
    requires table.Valid() && KeyOrder(table.data, order)
    ensures ValuesSound(raw) && raw == Collect(map[], Flatten(table.data, order))
    ensures summary.Keys == raw.Keys
    ensures forall n :: n in summary ==> Summarises(summary[n], raw[n])
  {
    raw := MergeFiles(table.data, order);
    summary := SummariseAll(raw);
  }

  /** The outer loop of `output_data`: every file's players, file after file. */
  method MergeFiles(data: map<string, Roster>, order: seq<string>) returns (raw: map<string, Bundle>)
    requires forall k :: 0 <= k < |order| ==> order[k] in data
    requires forall p :: p in data ==> PairsSound(data[p])
    ensures raw == Collect(map[], Flatten(data, order))
  {
    raw := map[];
    for k := 0 to |order|
      invariant raw == Collect(map[], Flatten(data, order[..k]))
    {
      assert order[..k + 1][..k] == order[..k];
      raw := MergePlayers(raw, Flatten(data, order[..k]), data[order[k]]);
    }
    assert order[..|order|] == order;
  }

  /** Visiting one more pair: a copy of its bundle for a new name, a merge into a known one. */
  lemma CollectSnoc(pairs: Roster, p: (string, Bundle))
    requires PairsSound(pairs) && Sound(p.1)
    ensures PairsSound(pairs + [p])
    ensures var prev := Collect(map[], pairs);
      Collect(map[], pairs + [p])
        == if p.0 in prev then prev[p.0 := Merge(prev[p.0], p.1)] else prev[p.0 := p.1]
  {
    PairsSoundAppend(pairs, [p]);
    assert (pairs + [p])[..|pairs|] == pairs;
  }

  /** The inner loop of `output_data`: insert a copy of the first bundle of a name, absorb the later ones. */
  method MergePlayers(raw: map<string, Bundle>, ghost before: Roster, players: Roster) returns (merged: map<string, Bundle>)
    requires PairsSound(before) && PairsSound(players) && raw == Collect(map[], before)
    ensures PairsSound(before + players) && merged == Collect(map[], before + players)
  {
    merged := raw;
    ghost var done := before;
    assert before + players[..0] == done;
    for j := 0 to |players|
      invariant done == before + players[..j]
      invariant PairsSound(done) && merged == Collect(map[], done)
    {
      assert before + players[..j + 1] == done + [players[j]];
      CollectSnoc(done, players[j]);
      var (name, stats) := players[j];
      if name in merged {
        merged := merged[name := Merge(merged[name], stats)];
      } else {
        merged := merged[name := stats];
      }
      done := done + [players[j]];
    }
    assert players[..|players|] == players;
  }

  /** The `PlayerStats::from` map over the merged bundles. */
  method SummariseAll(raw: map<string, Bundle>) returns (summary: map<string, PlayerInts>)
    requires ValuesSound(raw)
    ensures summary.Keys == raw.Keys
    ensures forall n :: n in summary ==> Summarises(summary[n], raw[n])
  {
    summary := map[];
    var left := raw.Keys;
    while left != {}
      invariant left <= raw.Keys && summary.Keys == raw.Keys - left
      invariant forall n :: n in summary ==> Summarises(summary[n], raw[n])
      decreases |left|
    {
      var n :| n in left;
      var stats := FromBundle(raw[n]);
      summary := summary[n := stats];
      left := left - {n};
    }
  }
}
