/**
 * One client connection of the statistics server (`handle_client` and
 * `process_replays`): a player-name filter line, a count line, that many
 * replay lines; the replays' placements grouped by player, each player's
 * placements run through the placement pass and summarised. The socket is
 * the sequence of lines it delivers; decoding a replay line is the
 * `decode` input.
 */
module Client {
  import opened Basics
  import opened StrUtil
  import opened Lines
  import opened ReplayResponse
  import opened PlacementStats
  import opened PlayerStats
  import opened AutoMuncher

  // ------------------------------------------------------------ the filter

  /** One filter entry: lower-cased, then trimmed. */
  function Normalised(piece: string): string
  {
    Trim(ToAsciiLowercase(piece))
  }

  /** Whether an entry survives the `filter(|x| x != "")`. */
  predicate NonEmpty(x: string)
  {
    x != ""
  }

  /** The pieces of the filter line: trimmed, then split on ','. */
  function Pieces(line: string): seq<string>
  {
    Split(Trim(line), ',')
  }

  /** The name filter of `handle_client` (src/main.rs:25-31). */
  function ParseFilter(line: string): seq<string>
  {
    Filter(NonEmpty, MapSeq(Normalised, Pieces(line)))
  }

  /** The filter lists exactly the non-empty normalised pieces of the line. */
  lemma FilterMembers(line: string, x: string)
    ensures x in ParseFilter(line) <==> x != "" && exists p :: p in Pieces(line) && Normalised(p) == x
  {
    MapSeqMembers(Normalised, Pieces(line));
  }

  /** What `MapSeq` yields is exactly the images of the elements. */
  lemma {:induction false} MapSeqMembers<A, B>(f: A -> B, xs: seq<A>)
    ensures forall y :: y in MapSeq(f, xs) <==> exists x :: x in xs && f(x) == y
    decreases |xs|
  {
    if xs != [] {
      var front := xs[..|xs| - 1];
      MapSeqMembers(f, front);
      assert xs == front + [xs[|xs| - 1]];
      forall y | exists x :: x in xs && f(x) == y
        ensures y in MapSeq(f, xs)
      {
        var x :| x in xs && f(x) == y;
        if x != xs[|xs| - 1] {
          assert x in front;
        }
      }
    }
  }

  /** Every character of a trimmed string comes from the string. */
  lemma TrimWithin(s: string)
    ensures forall c :: c in Trim(s) ==> c in s
  {
    var t := TrimStart(s);
    TrimStartMeaning(s);
    TrimEndMeaning(t);
    assert forall c :: c in t ==> c in s by {
      forall c | c in t ensures c in s {
        var k :| 0 <= k < |t| && t[k] == c;
        assert s[|s| - |t| + k] == c;
      }
    }
    var r := TrimEnd(t);
    forall c | c in r ensures c in t {
      var k :| 0 <= k < |r| && r[k] == c;
      assert t[k] == c;
    }
  }

  /** A string with no whitespace at either end is its own trim. */
  lemma {:induction false} TrimmedFixed(x: string)
    requires x != [] ==> !IsWhitespace(x[0]) && !IsWhitespace(x[|x| - 1])
    ensures Trim(x) == x
  {
    assert TrimStart(x) == x;
  }

  /** A string with no ASCII capitals is its own lower case. */
  lemma LowerFixed(x: string)
    requires forall k :: 0 <= k < |x| ==> !IsAsciiUpper(x[k])
    ensures ToAsciiLowercase(x) == x
  {
  }

  /** Every filter entry is non-empty, comma-free, lower-cased and trimmed. */
  lemma FilterEntriesNormal(line: string, x: string)
    requires x in ParseFilter(line)
    ensures x != "" && ',' !in x
    ensures ToAsciiLowercase(x) == x && Trim(x) == x
  {
    FilterMembers(line, x);
    var p :| p in Pieces(line) && Normalised(p) == x;
    var lower := ToAsciiLowercase(p);
    TrimWithin(lower);
    assert forall c :: c in x ==> c in lower;
    assert ',' !in p;
    assert ',' !in lower;
    forall k | 0 <= k < |x| ensures !IsAsciiUpper(x[k]) {
      assert x[k] in lower;
    }
    LowerFixed(x);
    TrimmedFixed(x);
  }

  /**
   * Whether `process_replays` keeps a player (src/main.rs:73-75): every
   * player when the filter is empty, else those whose lower-cased name is
   * listed.
   */
  predicate Kept(filtered: seq<string>, name: string)
  {
    |filtered| == 0 || ToAsciiLowercase(name) in filtered
  }

  /**
   * Read from the filter line: a player is kept when no piece of the line
   * names anybody, or when some piece, lower-cased and trimmed, is the
   * player's lower-cased name.
   */
  lemma KeptMeaning(line: string, name: string)
    ensures Kept(ParseFilter(line), name) <==>
      (forall p :: p in Pieces(line) ==> Normalised(p) == "")
      || exists p :: p in Pieces(line) && Normalised(p) == ToAsciiLowercase(name) != ""
  {
    var filtered := ParseFilter(line);
    FilterMembers(line, ToAsciiLowercase(name));
    if filtered == [] {
      forall p | p in Pieces(line) ensures Normalised(p) == "" {
        FilterMembers(line, Normalised(p));
      }
    } else {
      FilterMembers(line, filtered[0]);
      var p :| p in Pieces(line) && Normalised(p) == filtered[0];
      assert Normalised(p) != "";
    }
  }

  // ---------------------------------------------------------- the grouping

  /** A decoded replay's `player_logs`, in the order the loop visits them. */
  type Logs = seq<(string, seq<Placement>)>

  /** The filter test on one log, as a function value. */
  function KeptFn(filtered: seq<string>): ((string, seq<Placement>)) -> bool
  {
    (p: (string, seq<Placement>)) => Kept(filtered, p.0)
  }

  /** The logs the loop of `process_replays` does not skip, replay after replay. */
  function KeptLogs(logs: seq<Logs>, filtered: seq<string>): (pairs: Logs)
    ensures forall p :: p in pairs <==> Kept(filtered, p.0) && exists r :: 0 <= r < |logs| && p in logs[r]
  {
    if logs == [] then []
    else
      var front := logs[..|logs| - 1];
      var rest := KeptLogs(front, filtered);
      assert forall r :: 0 <= r < |front| ==> front[r] == logs[r];
      rest + Filter(KeptFn(filtered), logs[|logs| - 1])
  }

  /** The placements of every log of `name`, concatenated in order. */
  function PlacementsNamed(pairs: Logs, name: string): seq<Placement>
  {
    if pairs == [] then []
    else
      var last := pairs[|pairs| - 1];
      PlacementsNamed(pairs[..|pairs| - 1], name) + (if last.0 == name then last.1 else [])
  }

  /** The map of the loop: a player's first placements inserted, later ones appended to them. */
  function Gather(pairs: Logs): map<string, seq<Placement>>
  {
    if pairs == [] then map[]
    else
      var prev := Gather(pairs[..|pairs| - 1]);
      var (name, ps) := pairs[|pairs| - 1];
      if name in prev then prev[name := prev[name] + ps] else prev[name := ps]
  }

  /** The grouping of `process_replays` (src/main.rs:67-85) over the decoded replays. */
  function Grouped(logs: seq<Logs>, filtered: seq<string>): map<string, seq<Placement>>
  {
    Gather(KeptLogs(logs, filtered))
  }

  /** A name is in the map exactly when some log has it, and it holds all of that name's placements, in order. */
  lemma {:induction false} GatherMeaning(pairs: Logs)
    ensures forall n :: n in Gather(pairs) <==> exists i :: 0 <= i < |pairs| && pairs[i].0 == n
    ensures forall n :: n in Gather(pairs) ==> Gather(pairs)[n] == PlacementsNamed(pairs, n)
    ensures forall n :: n !in Gather(pairs) ==> PlacementsNamed(pairs, n) == []
  {
    if pairs != [] {
      var front := pairs[..|pairs| - 1];
      GatherMeaning(front);
      forall n
        ensures n in Gather(pairs) <==> exists i :: 0 <= i < |pairs| && pairs[i].0 == n
      {
        if exists i :: 0 <= i < |pairs| && pairs[i].0 == n {
          var i :| 0 <= i < |pairs| && pairs[i].0 == n;
          if i < |front| {
            assert front[i].0 == n;
          }
        }
        if exists i :: 0 <= i < |front| && front[i].0 == n {
          var i :| 0 <= i < |front| && front[i].0 == n;
          assert pairs[i].0 == n;
        }
      }
    }
  }

  /** Placements of later logs come after those of earlier ones. */
  lemma {:induction false} PlacementsNamedAppend(a: Logs, b: Logs, name: string)
    ensures PlacementsNamed(a + b, name) == PlacementsNamed(a, name) + PlacementsNamed(b, name)
    decreases |b|
  {
    if b != [] {
      var front := b[..|b| - 1];
      PlacementsNamedAppend(a, front, name);
      assert (a + b)[..|a + b| - 1] == a + front;
      assert (a + b)[|a + b| - 1] == b[|b| - 1];
      var tail := if b[|b| - 1].0 == name then b[|b| - 1].1 else [];
      assert PlacementsNamed(b, name) == PlacementsNamed(front, name) + tail;
      assert PlacementsNamed(a + b, name) == PlacementsNamed(a + front, name) + tail;
      assert PlacementsNamed(a, name) + PlacementsNamed(front, name) + tail
        == PlacementsNamed(a, name) + (PlacementsNamed(front, name) + tail);
    } else {
      assert a + b == a;
    }
  }

  /**
   * The grouped map has one entry per distinct kept player name, holding
   * that player's placements from every replay in replay order; a later
   * replay's placements are appended to what the earlier ones gave.
   */
  lemma GroupedMeaning(logs: seq<Logs>, filtered: seq<string>, name: string)
    ensures name in Grouped(logs, filtered) <==>
      Kept(filtered, name) && exists r, i :: 0 <= r < |logs| && 0 <= i < |logs[r]| && logs[r][i].0 == name
    ensures name in Grouped(logs, filtered) ==>
      Grouped(logs, filtered)[name] == PlacementsNamed(KeptLogs(logs, filtered), name)
  {
    var pairs := KeptLogs(logs, filtered);
    GatherMeaning(pairs);
    if name in Grouped(logs, filtered) {
      var i :| 0 <= i < |pairs| && pairs[i].0 == name;
      assert pairs[i] in pairs;
    }
    if Kept(filtered, name) && exists r, i :: 0 <= r < |logs| && 0 <= i < |logs[r]| && logs[r][i].0 == name {
      var r, i :| 0 <= r < |logs| && 0 <= i < |logs[r]| && logs[r][i].0 == name;
      assert logs[r][i] in logs[r];
      assert logs[r][i] in pairs;
      var j :| 0 <= j < |pairs| && pairs[j] == logs[r][i];
    }
  }

  /** One more replay appends its kept placements to each player's list. */
  lemma GroupedAppend(logs: seq<Logs>, log: Logs, filtered: seq<string>, name: string)
    ensures PlacementsNamed(KeptLogs(logs + [log], filtered), name)
      == PlacementsNamed(KeptLogs(logs, filtered), name) + PlacementsNamed(Filter(KeptFn(filtered), log), name)
  {
    assert (logs + [log])[..|logs|] == logs;
    PlacementsNamedAppend(KeptLogs(logs, filtered), Filter(KeptFn(filtered), log), name);
  }

  // ------------------------------------------------------- decoding, output

  /** Why `process_replays` gives up: a replay line that does not decode, or a pass that panics. */
  datatype Failure = Malformed | Panicked

  /** Every replay line decoded, in order; `None` when some line does not decode. */
  function Decoded(replays: seq<string>, decode: string -> Option<Logs>): (r: Option<seq<Logs>>)
    ensures r.Some? <==> forall i :: 0 <= i < |replays| ==> decode(replays[i]).Some?
    ensures r.Some? ==> |r.value| == |replays| && forall i :: 0 <= i < |replays| ==> decode(replays[i]) == Some(r.value[i])
  {
    if replays == [] then Some([])
    else
      var front := Decoded(replays[..|replays| - 1], decode);
      var last := decode(replays[|replays| - 1]);
      if front.None? then None
      else if last.None? then None
      else Some(front.value + [last.value])
  }

  /**
   * What `process_replays` answers (src/main.rs:63-99): `Malformed` when a
   * replay does not decode; otherwise `Panicked` when the placement pass
   * panics for some kept player, and else one summary per distinct kept
   * player, of the pass over all of that player's placements. `Thread`
   * gives the pass's bundle, or nothing when it panics.
   */
  ghost predicate Reports(p: Result<map<string, PlayerInts>, Failure>, replays: seq<string>, filtered: seq<string>,
                          decode: string -> Option<Logs>, o: Oracles)
  {
    match Decoded(replays, decode)
    case None => p == Err(Malformed)
    case Some(logs) =>
      var g := Grouped(logs, filtered);
      && (p.Ok? || p == Err(Panicked))
      && (p == Err(Panicked) <==> Panics(g, o))
      && (p.Ok? ==> p.value.Keys == g.Keys && Summarised(p.value, g, o))
  }

  /** `process_replays`: decode and group the replays, then summarise every kept player. */
  method ProcessReplays(replays: seq<string>, filtered: seq<string>, decode: string -> Option<Logs>, o: Oracles)
    returns (r: Result<map<string, PlayerInts>, Failure>)
    ensures Reports(r, replays, filtered, decode, o)
  {
    var grouped: map<string, seq<Placement>> := map[];
    ghost var logs: seq<Logs> := [];
    for k := 0 to |replays|
      invariant Decoded(replays[..k], decode) == Some(logs)
      invariant grouped == Grouped(logs, filtered)
    {
      var res := decode(replays[k]);
      if res.None? {
        assert Decoded(replays, decode).None?;
        return Err(Malformed);
      }
      assert (logs + [res.value])[..|logs|] == logs;
      assert replays[..k + 1][..k] == replays[..k];
      grouped := GroupReplay(grouped, KeptLogs(logs, filtered), res.value, filtered);
      logs := logs + [res.value];
    }
    assert replays[..|replays|] == replays;
    r := SummariseGroups(grouped, o);
  }

  /** The inner loop over one replay's logs: skip the filtered-out players, insert or append the rest. */
  method GroupReplay(grouped: map<string, seq<Placement>>, ghost before: Logs, log: Logs, filtered: seq<string>)
    returns (after: map<string, seq<Placement>>)
    requires grouped == Gather(before)
    ensures after == Gather(before + Filter(KeptFn(filtered), log))
  {
    after := grouped;
    ghost var done := before;
    assert Filter(KeptFn(filtered), log[..0]) == [];
    assert before + [] == before;
    for j := 0 to |log|
      invariant done == before + Filter(KeptFn(filtered), log[..j])
      invariant after == Gather(done)
    {
      assert log[..j + 1][..j] == log[..j];
      var (name, placements) := log[j];
      if !Kept(filtered, name) {
        continue;
      }
      assert (done + [log[j]])[..|done|] == done;
      if name in after {
        after := after[name := after[name] + placements];
      } else {
        after := after[name := placements];
      }
      done := done + [log[j]];
    }
    assert log[..|log|] == log;
  }

  /** The pass panics for some player's placements. */
  ghost predicate Panics(grouped: map<string, seq<Placement>>, o: Oracles)
  {
    exists n :: n in grouped && Thread(grouped[n], o).None?
  }

  /** Every summary in `summary` is the summary of the pass over that player's placements. */
  ghost predicate Summarised(summary: map<string, PlayerInts>, grouped: map<string, seq<Placement>>, o: Oracles)
  {
    forall n :: n in summary ==>
      n in grouped && Thread(grouped[n], o).Some? && Summarises(summary[n], Thread(grouped[n], o).value)
  }

  /** Each bundle in `bundles` is what the pass gives for that player's placements. */
  ghost predicate PassesAre(bundles: map<string, Bundle>, grouped: map<string, seq<Placement>>, o: Oracles)
  {
    forall n {:trigger bundles[n]} :: n in bundles ==> n in grouped && Thread(grouped[n], o) == Some(bundles[n])
  }

  /** Each summary in `summary` summarises the bundle of the same player. */
  ghost predicate SummariesOf(summary: map<string, PlayerInts>, bundles: map<string, Bundle>)
  {
    forall n {:trigger summary[n]} :: n in summary ==> n in bundles && WellFormed(bundles[n]) && Summarises(summary[n], bundles[n])
  }

  /** One more player's pass. */
  lemma PassesStep(bundles: map<string, Bundle>, grouped: map<string, seq<Placement>>, o: Oracles, n: string, b: Bundle)
    requires PassesAre(bundles, grouped, o) && n in grouped && Thread(grouped[n], o) == Some(b)
    ensures PassesAre(bundles[n := b], grouped, o)
  {
  }

  /** One more player's summary. */
  lemma SummariesStep(summary: map<string, PlayerInts>, bundles: map<string, Bundle>, n: string, s: PlayerInts, b: Bundle)
    requires SummariesOf(summary, bundles) && WellFormed(b) && Summarises(s, b)
    ensures SummariesOf(summary[n := s], bundles[n := b])
  {
  }

  /** Once every player is summarised, the summaries are those of the passes, and none panicked. */
  lemma SummarisedAll(summary: map<string, PlayerInts>, bundles: map<string, Bundle>, grouped: map<string, seq<Placement>>, o: Oracles)
    requires PassesAre(bundles, grouped, o) && SummariesOf(summary, bundles) && summary.Keys == grouped.Keys
    ensures Summarised(summary, grouped, o) && !Panics(grouped, o)
  {
    forall n | n in summary
      ensures n in grouped && Thread(grouped[n], o).Some? && Summarises(summary[n], Thread(grouped[n], o).value)
    {
      assert n in bundles;
    }
  }

  /**
   * One player's summary: the pass over the placements, then the integer
   * summary; `None` when the pass panics. `bundle` is the pass's result.
   */
  method PlayerSummary(placements: seq<Placement>, o: Oracles) returns (s: Option<PlayerInts>, ghost bundle: Bundle)
    ensures s.Some? <==> Thread(placements, o).Some?
    ensures s.Some? ==> Thread(placements, o) == Some(bundle) && WellFormed(bundle) && Summarises(s.value, bundle)
  {
    bundle := DefaultBundle();
    if !AllFeedable(placements) {
      return None, bundle;
    }
    var stats := FromGame(placements, o);
    GameSound(placements, o);
    var summary := FromBundle(stats);
    return Some(summary), stats;
  }

  /** The `map` of `process_replays` over the grouped placements. */
  method SummariseGroups(grouped: map<string, seq<Placement>>, o: Oracles)
    returns (r: Result<map<string, PlayerInts>, Failure>)
    ensures r.Ok? || r == Err(Panicked)
    ensures r == Err(Panicked) <==> Panics(grouped, o)
    ensures r.Ok? ==> r.value.Keys == grouped.Keys && Summarised(r.value, grouped, o)
  {
    ghost var bundles;
    r, bundles := SummariseEach(grouped, o);
    if r.Ok? {
      SummarisedAll(r.value, bundles, grouped, o);
    }
  }

  /** One round of `SummariseEach`: summarise player `n` and record the pass. */
  method AddPlayer(grouped: map<string, seq<Placement>>, o: Oracles, n: string, summary: map<string, PlayerInts>,
                   ghost bundles: map<string, Bundle>)
    returns (s: Option<PlayerInts>, ghost after: map<string, Bundle>)
    requires n in grouped && PassesAre(bundles, grouped, o) && SummariesOf(summary, bundles)
    ensures s.None? ==> Panics(grouped, o)
    ensures s.Some? ==> PassesAre(after, grouped, o) && SummariesOf(summary[n := s.value], after)
  {
    ghost var b;
    s, b := PlayerSummary(grouped[n], o);
    if s.None? {
      return s, bundles;
    }
    PassesStep(bundles, grouped, o, n, b);
    SummariesStep(summary, bundles, n, s.value, b);
    after := bundles[n := b];
  }

  /** The loop of `SummariseGroups`; `bundles` holds the passes it ran. */
  method SummariseEach(grouped: map<string, seq<Placement>>, o: Oracles)
    returns (r: Result<map<string, PlayerInts>, Failure>, ghost bundles: map<string, Bundle>)
    ensures r.Ok? || r == Err(Panicked)
    ensures r == Err(Panicked) ==> Panics(grouped, o)
    ensures r.Ok? ==> r.value.Keys == grouped.Keys && PassesAre(bundles, grouped, o) && SummariesOf(r.value, bundles)
  {
    var summary: map<string, PlayerInts> := map[];
    bundles := map[];
    var left := grouped.Keys;
    while left != {}
      invariant left <= grouped.Keys && summary.Keys == grouped.Keys - left
      invariant PassesAre(bundles, grouped, o) && SummariesOf(summary, bundles)
      decreases |left|
    {
      var n :| n in left;
      var s;
      s, bundles := AddPlayer(grouped, o, n, summary, bundles);
      if s.None? {
        return Err(Panicked), bundles;
      }
      summary := summary[n := s.value];
      left := left - {n};
    }
    return Ok(summary), bundles;
  }

  // ------------------------------------------------------------ the request

  /**
   * How a connection ends without an answer: `handle_client` returns an
   * error for a failed read, a count that is not a number, or a failed
   * write or flush of the summaries (`WriteFailed`). `Aborted` is a
   * panicking pass: `handle_client` runs inline in the accept loop of
   * `main`, so nothing catches the panic and the whole server stops; the
   * model records only that this connection gets no answer.
   */
  datatype ClientError = ReadFailed | BadCount | WriteFailed | Aborted

  /** What reaches the client: the summaries, or nothing when processing failed (the error is only logged). */
  datatype Served = Written(out: map<string, PlayerInts>) | Dropped

  /** `n` lines from position `from`, or `None` when one of them cannot be read. */
  function ReadLines(input: seq<Line>, from: nat, n: nat): (r: Option<seq<string>>)
    ensures r.Some? <==> forall i :: from <= i < from + n ==> LineAt(input, i).Text?
    ensures r.Some? ==> |r.value| == n && forall i :: from <= i < from + n ==> LineAt(input, i) == Text(r.value[i - from])
  {
    if n == 0 then Some([])
    else
      var front := ReadLines(input, from, n - 1);
      var last := LineAt(input, from + n - 1);
      if front.None? || last.Unreadable? then None else Some(front.value + [last.s])
  }

  /**
   * What `handle_client` reads (src/main.rs:20-46): the filter line, the
   * count line, then exactly as many replay lines as the count says.
   */
  function Request(input: seq<Line>): (r: Result<(seq<string>, seq<string>), ClientError>)
    ensures r == Err(BadCount) <==>
      LineAt(input, 0).Text? && LineAt(input, 1).Text? && ParseUsize(Trim(LineAt(input, 1).s)).None?
    ensures r.Ok? ==> LineAt(input, 0).Text? && r.value.0 == ParseFilter(LineAt(input, 0).s)
    ensures r.Ok? ==> LineAt(input, 1).Text? && ParseUsize(Trim(LineAt(input, 1).s)) == Some(|r.value.1|)
    ensures r.Ok? ==> forall i :: 2 <= i < 2 + |r.value.1| ==> LineAt(input, i) == Text(r.value.1[i - 2])
  {
    if LineAt(input, 0).Unreadable? || LineAt(input, 1).Unreadable? then Err(ReadFailed)
    else
      match ParseUsize(Trim(LineAt(input, 1).s))
      case None => Err(BadCount)
      case Some(n) =>
        match ReadLines(input, 2, n)
        case None => Err(ReadFailed)
        case Some(replays) => Ok((ParseFilter(LineAt(input, 0).s), replays))
  }

  /** Lines after the last replay line are never read: inputs that agree up to there give the same request. */
  lemma ReadsExactly(input: seq<Line>, other: seq<Line>)
    requires Request(input).Ok?
    requires forall i :: 0 <= i < 2 + |Request(input).value.1| ==> LineAt(other, i) == LineAt(input, i)
    ensures Request(other) == Request(input)
  {
    var n := |Request(input).value.1|;
    assert LineAt(other, 0) == LineAt(input, 0) && LineAt(other, 1) == LineAt(input, 1);
    assert ReadLines(other, 2, n).Some?;
    var mine := ReadLines(other, 2, n).value;
    forall j | 0 <= j < n ensures mine[j] == Request(input).value.1[j] {
      assert LineAt(other, j + 2) == LineAt(input, j + 2);
    }
    assert mine == Request(input).value.1;
  }

  /**
   * The outcome of processing as seen by the client (src/main.rs:50-58):
   * written on success when the write and flush succeed (`sent`),
   * `WriteFailed` when they fail, nothing on a decoding error, `Aborted`
   * when the pass panicked.
   */
  function Delivered(p: Result<map<string, PlayerInts>, Failure>, sent: bool): (r: Result<Served, ClientError>)
    ensures r.Ok? && r.value.Written? <==> p.Ok? && sent
    ensures p.Ok? && sent ==> r == Ok(Written(p.value))
    ensures r == Err(WriteFailed) <==> p.Ok? && !sent
    ensures r == Ok(Dropped) <==> p == Err(Malformed)
    ensures r == Err(Aborted) <==> p == Err(Panicked)
  {
    match p
    case Ok(out) => if sent then Ok(Written(out)) else Err(WriteFailed)
    case Err(Malformed) => Ok(Dropped)
    case Err(Panicked) => Err(Aborted)
  }

  /** The loop of `handle_client` that reads the `n` replay lines after the two header lines. */
  method ReadReplays(input: seq<Line>, n: nat) returns (r: Option<seq<string>>)
    ensures r == ReadLines(input, 2, n)
  {
    var replays: seq<string> := [];
    for k := 0 to n
      invariant |replays| == k
      invariant forall i :: 2 <= i < 2 + k ==> LineAt(input, i) == Text(replays[i - 2])
    {
      var line := LineAt(input, 2 + k);
      if line.Unreadable? {
        assert ReadLines(input, 2, n).None?;
        return None;
      }
      replays := replays + [line.s];
    }
    var read := ReadLines(input, 2, n);
    assert read.Some?;
    forall j | 0 <= j < n ensures read.value[j] == replays[j] {
      assert LineAt(input, j + 2) == Text(replays[j]);
    }
    assert read.value == replays;
    return Some(replays);
  }

  /** The reading half of `handle_client`: the two header lines, then the count's worth of replay lines. */
  method ReadRequest(input: seq<Line>) returns (r: Result<(seq<string>, seq<string>), ClientError>)
    ensures r == Request(input)
  {
    var first := LineAt(input, 0);
    if first.Unreadable? {
      return Err(ReadFailed);
    }
    var filtered := ParseFilter(first.s);
    var second := LineAt(input, 1);
    if second.Unreadable? {
      return Err(ReadFailed);
    }
    var count := ParseUsize(Trim(second.s));
    if count.None? {
      return Err(BadCount);
    }
    var replays := ReadReplays(input, count.value);
    if replays.None? {
      return Err(ReadFailed);
    }
    return Ok((filtered, replays.value));
  }

  /**
   * `handle_client`: read the request, process it, and write the summaries
   * only if processing succeeded; `sent` says whether that write and its
   * flush succeed.
   */
  method HandleClient(input: seq<Line>, decode: string -> Option<Logs>, o: Oracles, sent: bool) returns (r: Result<Served, ClientError>)
    ensures Request(input).Err? ==> r == Err(Request(input).error)
    ensures Request(input).Ok? ==>
      exists p :: r == Delivered(p, sent) && Reports(p, Request(input).value.1, Request(input).value.0, decode, o)
  {
    var request := ReadRequest(input);
    if request.Err? {
      return Err(request.error);
    }
    var p := ProcessReplays(request.value.1, request.value.0, decode, o);
    r := Delivered(p, sent);
  }
}
