/**
 * Newline-delimited text lines as both services exchange them: a line read
 * from a socket, and the sanitising every received line goes through.
 */
module Lines {
  import opened StrUtil

  /** The byte-order mark some senders put in front of a line. */
  const BOM: char := '\U{FEFF}'

  /** One line received from a peer: its text, or a read error. */
  datatype Line = Text(s: string) | Unreadable

  /** The line at position `i`; past the end, `read_line` leaves the buffer empty. */
  function LineAt(input: seq<Line>, i: nat): (l: Line)
    ensures i < |input| ==> l == input[i]
    ensures i >= |input| ==> l == Text("")
  {
    if i < |input| then input[i] else Text("")
  }

  /**
   * `sanitize_string`: drop leading byte-order marks, then trailing line
   * feeds, then trailing carriage returns. The leading marks are dropped
   * one at a time; `SanitizeSteps` shows this is the three-step pipeline.
   */
  function Sanitize(s: string): (r: string)
    ensures r != [] ==> r[|r| - 1] != '\r'
    decreases |s|
  {
    if s != [] && s[0] == BOM then Sanitize(s[1..]) else StripTrailing(StripTrailing(s, '\n'), '\r')
  }

  /** Sanitising is `trim_start_matches(BOM)`, then `trim_end_matches('\n')`, then `trim_end_matches('\r')`. */
  lemma {:induction false} SanitizeSteps(s: string)
    ensures Sanitize(s) == StripTrailing(StripTrailing(StripLeading(s, BOM), '\n'), '\r')
    decreases |s|
  {
    if s != [] && s[0] == BOM {
      SanitizeSteps(s[1..]);
    }
  }

  /** The sanitised line is the piece of the input that starts after the leading byte-order marks. */
  lemma SanitizeSubstring(s: string)
    ensures |StripLeading(s, BOM)| <= |s|
    ensures var i := |s| - |StripLeading(s, BOM)|; i + |Sanitize(s)| <= |s| && Sanitize(s) == s[i..i + |Sanitize(s)|]
  {
    var a := StripLeading(s, BOM);
    var b := StripTrailing(a, '\n');
    StripLeadingMeaning(s, BOM);
    StripTrailingMeaning(a, '\n');
    StripTrailingMeaning(b, '\r');
    SanitizeSteps(s);
    SanitizePiece(s, a, b, StripTrailing(b, '\r'));
  }

  /** The three stripping steps keep a contiguous piece of the input. */
  lemma SanitizePiece(s: string, a: string, b: string, c: string)
    requires |a| <= |s| && a == s[|s| - |a|..]
    requires |b| <= |a| && b == a[..|b|]
    requires |c| <= |b| && c == b[..|c|]
    ensures var i := |s| - |a|; i + |c| <= |s| && c == s[i..i + |c|]
  {
    var i := |s| - |a|;
    forall k | 0 <= k < |c|
      ensures c[k] == s[i + k]
    {
      assert c[k] == b[k] == a[k];
    }
  }

  /** A line with no byte-order mark in front and no line break at its end comes back unchanged. */
  lemma SanitizeClean(s: string)
    requires s == [] || (s[0] != BOM && s[|s| - 1] != '\n' && s[|s| - 1] != '\r')
    ensures Sanitize(s) == s
  {
  }
}

/**
 * The replay watcher: it sends one replay file to the parser service, reads
 * back the players and, for every player, one line per game, analyses every
 * game that is neither marked corrupt nor undecodable, and absorbs the
 * per-game bundles into one bundle per player. A table from file path to
 * those per-player bundles follows the watched directory, and the output
 * merges the table's bundles by player name.
 *
 * The connection to the parser service is modelled by its two directions:
 * `input` is the sequence of lines the service sends, and `log` is the
 * sequence of lines the watcher writes. Decoding a game line is the
 * function `decode`.
 */
module AutoMuncher {
  import opened Basics
  import opened StrUtil
  import opened Lines
  import opened ReplayResponse
  import opened PlacementStats
  import opened StatsProperties
  import opened Accumulator

  datatype ReplayError = Unsupported | Unparsable | Unmunchable | Corrupt | Connection

  const CORRUPT: string := "CORRUPT"

  /** A game line the service marks as not recoverable. */
  predicate CorruptLine(l: Line)
  {
    l.Text? && Sanitize(l.s) == CORRUPT
  }

  /** Every line at positions `lo` up to `hi` is a readable `CORRUPT` marker. */
  predicate AllCorrupt(input: seq<Line>, lo: nat, hi: nat)
  {
    forall k :: lo <= k < hi ==> CorruptLine(LineAt(input, k))
  }

  // --------------------------------------------------------- the header

  /** The three header lines are readable, the first says `true` and the third is a count. */
  predicate HeaderOk(input: seq<Line>)
  {
    && LineAt(input, 0).Text? && ParseBool(Sanitize(LineAt(input, 0).s)) == Some(true)
    && LineAt(input, 1).Text?
    && LineAt(input, 2).Text? && ParseUsize(Sanitize(LineAt(input, 2).s)).Some?
  }

  /** The first header line is readable and says `false`. */
  predicate RejectsVersion(input: seq<Line>)
  {
    LineAt(input, 0).Text? && ParseBool(Sanitize(LineAt(input, 0).s)) == Some(false)
  }

  /** The players named by the second header line, split on single spaces; an empty line names one empty player. */
  function Names(input: seq<Line>): (names: seq<string>)
    requires LineAt(input, 1).Text?
    ensures |names| >= 1
    ensures Sanitize(LineAt(input, 1).s) == "" ==> names == [""]
  {
    Split(Sanitize(LineAt(input, 1).s), ' ')
  }

  /** The number of game lines the service sends for each player. */
  function GamesPerName(input: seq<Line>): nat
    requires HeaderOk(input)
  {
    ParseUsize(Sanitize(LineAt(input, 2).s)).value
  }

  // ------------------------------------------------- one player's games

  /**
   * Reading the `j` game lines of one player that start at position
   * `start`: an unreadable line stops with `Unparsable`, a `CORRUPT` line is
   * skipped, an undecodable line stops with `Unmunchable`, and every other
   * line hands its game to an analysis thread.
   */
  function ScanGames(input: seq<Line>, start: nat, j: nat, decode: string -> Option<seq<Placement>>)
    : (r: Result<seq<seq<Placement>>, ReplayError>)
    ensures r.Err? ==> r.error == Unparsable || r.error == Unmunchable
    ensures r.Ok? ==> |r.value| <= j
  {
    if j == 0 then Ok([])
    else
      var prev := ScanGames(input, start, j - 1, decode);
      if prev.Err? then prev
      else match LineAt(input, start + j - 1)
        case Unreadable => Err(Unparsable)
        case Text(g) =>
          if Sanitize(g) == CORRUPT then prev
          else match decode(g)
            case None => Err(Unmunchable)
            case Some(game) => Ok(prev.value + [game])
  }

  /** A line that is readable and either `CORRUPT` or a decodable game. */
  predicate Usable(l: Line, decode: string -> Option<seq<Placement>>)
  {
    l.Text? && (Sanitize(l.s) == CORRUPT || decode(l.s).Some?)
  }

  /** A player's lines yield no game exactly when every one of them is `CORRUPT`. */
  lemma {:induction false} ScanGamesEmpty(input: seq<Line>, start: nat, j: nat, decode: string -> Option<seq<Placement>>)
    ensures ScanGames(input, start, j, decode) == Ok([]) <==> AllCorrupt(input, start, start + j)
  {
    if j > 0 {
      ScanGamesEmpty(input, start, j - 1, decode);
      assert AllCorrupt(input, start, start + j)
        <==> AllCorrupt(input, start, start + j - 1) && CorruptLine(LineAt(input, start + j - 1));
    }
  }

  /** A player's lines yield games exactly when every one of them is usable. */
  lemma {:induction false} ScanGamesOk(input: seq<Line>, start: nat, j: nat, decode: string -> Option<seq<Placement>>)
    ensures ScanGames(input, start, j, decode).Ok? <==> forall i :: start <= i < start + j ==> Usable(LineAt(input, i), decode)
  {
    if j > 0 {
      ScanGamesOk(input, start, j - 1, decode);
      if !Usable(LineAt(input, start + j - 1), decode) {
        assert !(forall i :: start <= i < start + j ==> Usable(LineAt(input, i), decode));
      }
    }
  }

  /** Once a player's scan stops, reading further lines does not change the error. */
  lemma {:induction false} ScanStopped(input: seq<Line>, start: nat, j: nat, m: nat, decode: string -> Option<seq<Placement>>)
    requires j <= m && ScanGames(input, start, j, decode).Err?
    ensures ScanGames(input, start, m, decode) == ScanGames(input, start, j, decode)
    decreases m - j
  {
    if j < m {
      ScanStopped(input, start, j, m - 1, decode);
    }
  }

  /** A game's bundle has its two counter arrays at their sizes and sound segments. */
  lemma GameSound(game: seq<Placement>, o: Oracles)
    requires AllFeedable(game)
    ensures Sound(GameStats(game, o))
  {
    StatsSound(Analyzed(game, o));
  }

  /** Every game of a player leaves the scorer a piece at every placement. */
  predicate AllGamesFeedable(games: seq<seq<Placement>>)
  {
    forall k :: 0 <= k < |games| ==> AllFeedable(games[k])
  }

  /**
   * What joining one game's analysis thread gives: the game's bundle, or
   * `None` when the pass panicked because some placement left the scorer
   * no piece.
   */
  function Thread(game: seq<Placement>, o: Oracles): (h: Option<Bundle>)
    ensures h.Some? ==> Sound(h.value)
  {
    if AllFeedable(game) then GameSound(game, o); Some(GameStats(game, o)) else None
  }

  /** Thread handles whose finished bundles are all sound. */
  predicate HandlesSound(hs: seq<Option<Bundle>>)
  {
    forall k :: 0 <= k < |hs| && hs[k].Some? ==> Sound(hs[k].value)
  }

  /** The body of the spawned closure, for the given oracles. */
  function ThreadFn(o: Oracles): seq<Placement> -> Option<Bundle>
  {
    g => Thread(g, o)
  }

  /** Every game's thread yields a sound bundle, if any. */
  lemma ThreadsSound(games: seq<seq<Placement>>, o: Oracles)
    ensures HandlesSound(MapSeq(ThreadFn(o), games))
  {
    forall k | 0 <= k < |games|
      ensures MapSeq(ThreadFn(o), games)[k] == Thread(games[k], o)
    {
      MapSeqAt(ThreadFn(o), games, k);
    }
  }

  /** The handles `handles.push` collects for a player: one analysis thread per game, in reading order. */
  function Spawned(games: seq<seq<Placement>>, o: Oracles): (hs: seq<Option<Bundle>>)
    ensures |hs| == |games| && HandlesSound(hs)
  {
    ThreadsSound(games, o);
    MapSeq(ThreadFn(o), games)
  }

  /** The `k`-th handle is the thread of the `k`-th game. */
  lemma SpawnedAt(games: seq<seq<Placement>>, o: Oracles, k: nat)
    requires k < |games|
    ensures Spawned(games, o)[k] == Thread(games[k], o)
  {
    MapSeqAt(ThreadFn(o), games, k);
  }

  /**
   * The `handles.pop()` loop as a function: join the handles from the last
   * pushed to the first, absorbing each bundle into `acc`; a panicked thread
   * stops the player with `Unmunchable`, dropping what was absorbed so far.
   */
  function JoinHandles(acc: Bundle, hs: seq<Option<Bundle>>): (r: Result<Bundle, ReplayError>)
    requires Sound(acc) && HandlesSound(hs)
    ensures r.Err? ==> r.error == Unmunchable
    ensures r.Ok? ==> Sound(r.value)
    decreases |hs|
  {
    if hs == [] then Ok(acc)
    else
      var rest := hs[..|hs| - 1];
      assert forall k :: 0 <= k < |rest| ==> rest[k] == hs[k];
      match hs[|hs| - 1]
      case None => Err(Unmunchable)
      case Some(b) => MergeSound(acc, b); JoinHandles(Merge(acc, b), rest)
  }

  /** Joining fails exactly when some thread panicked, whichever it is. */
  lemma {:induction false} JoinHandlesPanics(acc: Bundle, hs: seq<Option<Bundle>>)
    requires Sound(acc) && HandlesSound(hs)
    ensures JoinHandles(acc, hs).Err? <==> None in hs
    decreases |hs|
  {
    if hs != [] {
      var rest := hs[..|hs| - 1];
      assert hs == rest + [hs[|hs| - 1]];
      assert forall k :: 0 <= k < |rest| ==> rest[k] == hs[k];
      if hs[|hs| - 1].Some? {
        MergeSound(acc, hs[|hs| - 1].value);
        JoinHandlesPanics(Merge(acc, hs[|hs| - 1].value), rest);
      }
    }
  }

  /** A player's threads fail to join exactly when one of its games leaves the scorer without a piece. */
  lemma JoinPanics(acc: Bundle, games: seq<seq<Placement>>, o: Oracles)
    requires Sound(acc)
    ensures JoinHandles(acc, Spawned(games, o)).Err? <==> !AllGamesFeedable(games)
  {
    var hs := Spawned(games, o);
    JoinHandlesPanics(acc, hs);
    if None in hs {
      var k :| 0 <= k < |hs| && hs[k] == None;
      SpawnedAt(games, o, k);
    }
    if !AllGamesFeedable(games) {
      var k :| 0 <= k < |games| && !AllFeedable(games[k]);
      SpawnedAt(games, o, k);
      assert hs[k] == None;
    }
  }

  /** Number of placements in a list of games. */
  function Placements(games: seq<seq<Placement>>): nat
  {
    if games == [] then 0 else Placements(games[..|games| - 1]) + |games[|games| - 1]|
  }

  /**
   * A player's bundle counts every placement of every analysed game once,
   * by shape and by clear kind, and holds one delay per placement.
   */
  lemma {:induction false} JoinCounts(acc: Bundle, games: seq<seq<Placement>>, o: Oracles)
    requires Sound(acc) && AllGamesFeedable(games)
    ensures var r := JoinHandles(acc, Spawned(games, o));
      && r.Ok?
      && Sum(r.value.shapeTypes) == Sum(acc.shapeTypes) + Placements(games)
      && Sum(r.value.clearTypes) == Sum(acc.clearTypes) + Placements(games)
      && |r.value.delays| == |acc.delays| + Placements(games)
    decreases |games|
  {
    if games != [] {
      var last := games[|games| - 1];
      var rest := games[..|games| - 1];
      assert AllFeedable(last);
      assert forall k :: 0 <= k < |rest| ==> rest[k] == games[k];
      var g := GameStats(last, o);
      GameSound(last, o);
      var hs := Spawned(games, o);
      assert hs[..|hs| - 1] == Spawned(rest, o);
      assert hs[|hs| - 1] == Some(g);
      CountsSumToLength(Analyzed(last, o));
      GameSeries(last, o);
      MergeCounts(acc, g);
      MergeSound(acc, g);
      JoinCounts(Merge(acc, g), rest, o);
    }
  }

  // ------------------------------------------------------- all players

  /**
   * The position of the first game line of the `i`-th player, each player
   * taking `num` lines: `i * num` lines after the first player's.
   */
  function LineOf(start: nat, num: nat, i: nat): (p: nat)
    ensures p == start + i * num
  {
    if i == 0 then start
    else
      assert i * num == (i - 1) * num + num;
      LineOf(start, num, i - 1) + num
  }

  /**
   * One player's part of the exchange, given what reading its game lines
   * gave: the error that stopped it, or its bundle and whether every one of
   * its lines was `CORRUPT`.
   */
  function PlayerOutcome(scan: Result<seq<seq<Placement>>, ReplayError>, o: Oracles): Result<(Bundle, bool), ReplayError>
  {
    if scan.Err? then Err(scan.error)
    else match JoinHandles(DefaultBundle(), Spawned(scan.value, o))
      case Err(e) => Err(e)
      case Ok(b) => Ok((b, scan.value == []))
  }

  /** The outcome of each of the first `n` players, each reading its own `num` game lines. */
  function Players(input: seq<Line>, start: nat, num: nat, n: nat, decode: string -> Option<seq<Placement>>, o: Oracles)
    : (r: seq<Result<(Bundle, bool), ReplayError>>)
    ensures |r| == n
  {
    if n == 0 then []
    else Players(input, start, num, n - 1, decode, o) + [PlayerOutcome(ScanGames(input, LineOf(start, num, n - 1), num, decode), o)]
  }

  /** The `i`-th player's outcome comes from the `num` lines after those of the players before it. */
  lemma {:induction false} PlayersAt(input: seq<Line>, start: nat, num: nat, n: nat, decode: string -> Option<seq<Placement>>,
                                     o: Oracles, i: nat)
    requires i < n
    ensures Players(input, start, num, n, decode, o)[i] == PlayerOutcome(ScanGames(input, LineOf(start, num, i), num, decode), o)
  {
    if i < n - 1 {
      PlayersAt(input, start, num, n - 1, decode, o, i);
    }
  }

  /** The outcomes of fewer players are a prefix of the outcomes of more players. */
  lemma {:induction false} PlayersPrefix(input: seq<Line>, start: nat, num: nat, k: nat, n: nat,
                                         decode: string -> Option<seq<Placement>>, o: Oracles)
    requires k <= n
    ensures Players(input, start, num, n, decode, o)[..k] == Players(input, start, num, k, decode, o)
  {
    if k < n {
      PlayersPrefix(input, start, num, k, n - 1, decode, o);
      assert Players(input, start, num, n, decode, o)[..k] == Players(input, start, num, n - 1, decode, o)[..k];
    }
  }

  /** A player saw no game exactly when its outcome is a success with no game. */
  predicate NoGame(p: Result<(Bundle, bool), ReplayError>)
  {
    p.Ok? && p.value.1
  }

  /** No player of the list failed or saw a game. */
  predicate NoGames(players: seq<Result<(Bundle, bool), ReplayError>>)
  {
    forall i :: 0 <= i < |players| ==> NoGame(players[i])
  }

  /** A player saw no game exactly when reading its lines succeeded and gave no game. */
  lemma PlayerOutcomeNoGame(scan: Result<seq<seq<Placement>>, ReplayError>, o: Oracles)
    ensures NoGame(PlayerOutcome(scan, o)) <==> scan == Ok([])
  {
    if scan == Ok([]) {
      assert Spawned([], o) == [];
    }
  }

  /** A player succeeds exactly when reading succeeded and its threads joined, and then holds the joined bundle. */
  lemma PlayerOutcomeOk(scan: Result<seq<seq<Placement>>, ReplayError>, o: Oracles)
    ensures PlayerOutcome(scan, o).Ok? <==> scan.Ok? && JoinHandles(DefaultBundle(), Spawned(scan.value, o)).Ok?
    ensures PlayerOutcome(scan, o).Ok? ==>
      JoinHandles(DefaultBundle(), Spawned(scan.value, o)) == Ok(PlayerOutcome(scan, o).value.0)
  {
  }

  /** The `num` lines of the `i`-th player are all `CORRUPT`. */
  predicate OwnLinesCorrupt(input: seq<Line>, start: nat, num: nat, i: nat)
  {
    AllCorrupt(input, LineOf(start, num, i), LineOf(start, num, i) + num)
  }

  /** All the players' lines are `CORRUPT` exactly when each player's own `num` lines are. */
  lemma {:induction false} AllCorruptPlayers(input: seq<Line>, start: nat, num: nat, n: nat)
    ensures AllCorrupt(input, start, LineOf(start, num, n))
      <==> forall i :: 0 <= i < n ==> OwnLinesCorrupt(input, start, num, i)
  {
    if n > 0 {
      var lo := LineOf(start, num, n - 1);
      assert LineOf(start, num, n) == lo + num;
      AllCorruptPlayers(input, start, num, n - 1);
      assert AllCorrupt(input, start, lo + num) <==> AllCorrupt(input, start, lo) && AllCorrupt(input, lo, lo + num);
      assert OwnLinesCorrupt(input, start, num, n - 1) == AllCorrupt(input, lo, lo + num);
    }
  }

  /** Every player saw no game exactly when every game line of every player is `CORRUPT`. */
  lemma PlayersCorrupt(input: seq<Line>, start: nat, num: nat, n: nat,
                       decode: string -> Option<seq<Placement>>, o: Oracles)
    ensures NoGames(Players(input, start, num, n, decode, o)) <==> AllCorrupt(input, start, LineOf(start, num, n))
  {
    var players := Players(input, start, num, n, decode, o);
    AllCorruptPlayers(input, start, num, n);
    if NoGames(players) {
      forall i | 0 <= i < n
        ensures OwnLinesCorrupt(input, start, num, i)
      {
        PlayerCorrupt(input, start, num, n, decode, o, i);
      }
    } else {
      var i :| 0 <= i < n && !NoGame(players[i]);
      PlayerCorrupt(input, start, num, n, decode, o, i);
    }
  }

  /** The `i`-th player saw no game exactly when all of its own lines are `CORRUPT`. */
  lemma PlayerCorrupt(input: seq<Line>, start: nat, num: nat, n: nat,
                      decode: string -> Option<seq<Placement>>, o: Oracles, i: nat)
    requires i < n
    ensures NoGame(Players(input, start, num, n, decode, o)[i])
      <==> AllCorrupt(input, LineOf(start, num, i), LineOf(start, num, i) + num)
  {
    PlayersAt(input, start, num, n, decode, o, i);
    var scan := ScanGames(input, LineOf(start, num, i), num, decode);
    PlayerOutcomeNoGame(scan, o);
    ScanGamesEmpty(input, LineOf(start, num, i), num, decode);
  }

  /** A player fails only with `Unparsable` or `Unmunchable`. */
  lemma PlayersErrors(input: seq<Line>, start: nat, num: nat, n: nat,
                      decode: string -> Option<seq<Placement>>, o: Oracles)
    ensures forall i :: 0 <= i < n && Players(input, start, num, n, decode, o)[i].Err? ==>
      Players(input, start, num, n, decode, o)[i].error in {Unparsable, Unmunchable}
  {
    forall i | 0 <= i < n && Players(input, start, num, n, decode, o)[i].Err?
      ensures Players(input, start, num, n, decode, o)[i].error in {Unparsable, Unmunchable}
    {
      PlayersAt(input, start, num, n, decode, o, i);
    }
  }

  /**
   * The exchange after the players whose outcomes are given: still going,
   * with the player bundles so far, whether every game line so far was
   * `CORRUPT` and the lines written; or stopped with an error and the lines
   * written up to then.
   */
  datatype Progress =
    | Going(pairs: seq<(string, Bundle)>, fullyCorrupt: bool, log: seq<string>)
    | Stopped(error: ReplayError, log: seq<string>)

  /**
   * The loop over the players: write the player's name and take its
   * outcome; the first failing player stops the exchange.
   */
  function NamesAfter(players: seq<Result<(Bundle, bool), ReplayError>>, names: seq<string>, log0: seq<string>): (r: Progress)
    requires |players| <= |names|
    ensures r.Going? ==> |r.pairs| == |players| && r.log == log0 + names[..|players|]
    ensures r.Going? ==> forall i :: 0 <= i < |players| ==> r.pairs[i].0 == names[i]
    decreases |players|
  {
    if players == [] then Going([], true, log0)
    else
      var k := |players|;
      match NamesAfter(players[..k - 1], names, log0)
      case Stopped(e, l) => Stopped(e, l)
      case Going(pairs, fc, l) =>
        var l' := l + [names[k - 1]];
        assert l' == log0 + names[..k] by { assert names[..k] == names[..k - 1] + [names[k - 1]]; }
        match players[k - 1]
        case Err(e) => Stopped(e, l')
        case Ok((b, none)) =>
          var pairs' := pairs + [(names[k - 1], b)];
          assert forall i :: 0 <= i < k ==> pairs'[i].0 == names[i] by {
            assert forall i :: 0 <= i < k - 1 ==> pairs'[i].0 == pairs[i].0;
          }
          Going(pairs', fc && none, l')
  }

  /** While the exchange goes on, every player so far succeeded and the pairs hold their bundles. */
  lemma {:induction false} NamesBundles(players: seq<Result<(Bundle, bool), ReplayError>>, names: seq<string>, log0: seq<string>)
    requires |players| <= |names|
    ensures var r := NamesAfter(players, names, log0);
      r.Going? ==> forall i :: 0 <= i < |players| ==> players[i].Ok? && r.pairs[i].1 == players[i].value.0
    decreases |players|
  {
    if players != [] {
      var k := |players|;
      var front := players[..k - 1];
      NamesBundles(front, names, log0);
      var r := NamesAfter(players, names, log0);
      if r.Going? {
        var p := NamesAfter(front, names, log0);
        assert p.Going?;
        assert forall i :: 0 <= i < k - 1 ==> front[i] == players[i] && r.pairs[i].1 == p.pairs[i].1;
      }
    }
  }

  /**
   * While the exchange goes on, the replay is still fully corrupt exactly
   * when no player so far saw a game; and when no player fails or sees a
   * game, the exchange goes on.
   */
  lemma {:induction false} NamesCorrupt(players: seq<Result<(Bundle, bool), ReplayError>>, names: seq<string>, log0: seq<string>)
    requires |players| <= |names|
    ensures var r := NamesAfter(players, names, log0);
      r.Going? ==> (r.fullyCorrupt <==> NoGames(players))
    ensures NoGames(players) ==> NamesAfter(players, names, log0).Going?
    decreases |players|
  {
    if players != [] {
      var k := |players|;
      var front := players[..k - 1];
      NamesCorrupt(front, names, log0);
      assert NoGames(players) <==> NoGames(front) && NoGame(players[k - 1]) by {
        assert forall i :: 0 <= i < k - 1 ==> front[i] == players[i];
      }
    }
  }

  /** Once a player stops the exchange, the remaining players do not change the error or the lines written. */
  lemma {:induction false} NamesStopped(players: seq<Result<(Bundle, bool), ReplayError>>,
                                        more: seq<Result<(Bundle, bool), ReplayError>>, names: seq<string>, log0: seq<string>)
    requires |players + more| <= |names| && NamesAfter(players, names, log0).Stopped?
    ensures NamesAfter(players + more, names, log0) == NamesAfter(players, names, log0)
    decreases |more|
  {
    if more != [] {
      var m := more[..|more| - 1];
      NamesStopped(players, m, names, log0);
      assert (players + more)[..|players + more| - 1] == players + m;
      assert NamesAfter(players + m, names, log0).Stopped?;
    } else {
      assert players + more == players;
    }
  }

  /** The error that stops the exchange is the error of the first failing player. */
  lemma {:induction false} NamesErrors(players: seq<Result<(Bundle, bool), ReplayError>>, names: seq<string>, log0: seq<string>)
    requires |players| <= |names|
    ensures var r := NamesAfter(players, names, log0);
      r.Stopped? ==> exists i :: 0 <= i < |players| && players[i] == Err(r.error)
    decreases |players|
  {
    if players != [] {
      var k := |players|;
      var front := players[..k - 1];
      NamesErrors(front, names, log0);
      var p := NamesAfter(front, names, log0);
      if p.Stopped? {
        var i :| 0 <= i < k - 1 && front[i] == Err(p.error);
        assert players[i] == front[i];
      }
    }
  }

  /** The outcome of one replay exchange and the lines the watcher wrote. */
  datatype Exchange = Exchange(result: Result<seq<(string, Bundle)>, ReplayError>, log: seq<string>)

  /** `process_replay` as a function of what the service sends. */
  function Outcome(replay: string, connects: bool, input: seq<Line>,
                   decode: string -> Option<seq<Placement>>, o: Oracles): Exchange
  {
    if !connects then Exchange(Err(Connection), [])
    else
      var log := [Sanitize(replay)];
      if LineAt(input, 0).Unreadable? then Exchange(Err(Unparsable), log)
      else match ParseBool(Sanitize(LineAt(input, 0).s))
        case None => Exchange(Err(Unparsable), log)
        case Some(false) => Exchange(Err(Unsupported), log)
        case Some(true) =>
          if LineAt(input, 1).Unreadable? || LineAt(input, 2).Unreadable? then Exchange(Err(Unparsable), log)
          else if ParseUsize(Sanitize(LineAt(input, 2).s)).None? then Exchange(Err(Unparsable), log)
          else
            var names := Names(input);
            Finish(NamesAfter(Players(input, 3, GamesPerName(input), |names|, decode, o), names,
                              log + [NatToString(|names|)]))
  }

  /** The end of the exchange: the first error, else `Corrupt` if no game was seen, else the pairs. */
  function Finish(p: Progress): Exchange
  {
    match p
    case Stopped(e, l) => Exchange(Err(e), l)
    case Going(pairs, fc, l) => if fc then Exchange(Err(Corrupt), l) else Exchange(Ok(pairs), l)
  }

  /** The exchange after a sound header: the names line is echoed with its count, and every player follows. */
  lemma OutcomeAfterHeader(replay: string, connects: bool, input: seq<Line>,
                           decode: string -> Option<seq<Placement>>, o: Oracles)
    requires connects && HeaderOk(input)
    ensures Outcome(replay, connects, input, decode, o)
      == Finish(NamesAfter(Players(input, 3, GamesPerName(input), |Names(input)|, decode, o), Names(input),
                           [Sanitize(replay), NatToString(|Names(input)|)]))
  {
    assert [Sanitize(replay)] + [NatToString(|Names(input)|)] == [Sanitize(replay), NatToString(|Names(input)|)];
  }

  /**
   * The failures of the header: no connection gives `Connection`, a
   * supported line that says `false` gives `Unsupported`, and an unreadable
   * or non-boolean supported line, an unreadable names line or a count line
   * that is not a number gives `Unparsable`.
   */
  lemma OutcomeHeader(replay: string, connects: bool, input: seq<Line>,
                      decode: string -> Option<seq<Placement>>, o: Oracles)
    ensures var x := Outcome(replay, connects, input, decode, o);
      && (x.result == Err(Connection) <==> !connects)
      && (x.result == Err(Unsupported) <==> connects && RejectsVersion(input))
      && (connects && !HeaderOk(input) && !RejectsVersion(input) ==> x.result == Err(Unparsable))
  {
    if connects && HeaderOk(input) {
      var names := Names(input);
      var players := Players(input, 3, GamesPerName(input), |names|, decode, o);
      var log0 := [Sanitize(replay), NatToString(|names|)];
      OutcomeAfterHeader(replay, connects, input, decode, o);
      PlayersErrors(input, 3, GamesPerName(input), |names|, decode, o);
      NamesErrors(players, names, log0);
    }
  }

  /**
   * The replay fails as `Corrupt` exactly when the header is fine and every
   * game line of every player is `CORRUPT`, including when there are no game
   * lines at all.
   */
  lemma OutcomeCorrupt(replay: string, connects: bool, input: seq<Line>,
                       decode: string -> Option<seq<Placement>>, o: Oracles)
    ensures Outcome(replay, connects, input, decode, o).result == Err(Corrupt)
      <==> connects && HeaderOk(input) && AllCorrupt(input, 3, LineOf(3, GamesPerName(input), |Names(input)|))
  {
    if connects && HeaderOk(input) {
      var names := Names(input);
      var num := GamesPerName(input);
      var players := Players(input, 3, num, |names|, decode, o);
      var log0 := [Sanitize(replay), NatToString(|names|)];
      OutcomeAfterHeader(replay, connects, input, decode, o);
      PlayersErrors(input, 3, num, |names|, decode, o);
      NamesErrors(players, names, log0);
      NamesCorrupt(players, names, log0);
      PlayersCorrupt(input, 3, num, |names|, decode, o);
    } else {
      OutcomeHeader(replay, connects, input, decode, o);
    }
  }

  /**
   * When every player went through, the `i`-th pair holds the bundle joined
   * from the threads of the games on that player's own `num` lines.
   */
  lemma PlayersBundles(input: seq<Line>, start: nat, num: nat, names: seq<string>, log0: seq<string>,
                       decode: string -> Option<seq<Placement>>, o: Oracles)
    requires NamesAfter(Players(input, start, num, |names|, decode, o), names, log0).Going?
    ensures var p := NamesAfter(Players(input, start, num, |names|, decode, o), names, log0);
      forall i :: 0 <= i < |names| ==>
        ScanGames(input, LineOf(start, num, i), num, decode).Ok?
        && JoinHandles(DefaultBundle(), Spawned(ScanGames(input, LineOf(start, num, i), num, decode).value, o)) == Ok(p.pairs[i].1)
  {
    var players := Players(input, start, num, |names|, decode, o);
    NamesBundles(players, names, log0);
    forall i | 0 <= i < |names|
      ensures var scan := ScanGames(input, LineOf(start, num, i), num, decode);
        scan.Ok? && JoinHandles(DefaultBundle(), Spawned(scan.value, o)) == Ok(players[i].value.0)
    {
      PlayersAt(input, start, num, |names|, decode, o, i);
      PlayerOutcomeOk(ScanGames(input, LineOf(start, num, i), num, decode), o);
    }
  }

  /**
   * A successful exchange wrote the replay, the number of names (all of
   * them, unfiltered) and every name in order, and holds one pair per name,
   * in order, whose bundle absorbs the analyses of that player's own
   * `num_games` lines, which start `i * num_games` lines after the header
   * (`LineOf`).
   */
  lemma OutcomeOk(replay: string, connects: bool, input: seq<Line>,
                  decode: string -> Option<seq<Placement>>, o: Oracles)
    requires Outcome(replay, connects, input, decode, o).result.Ok?
    ensures connects && HeaderOk(input)
    ensures var x := Outcome(replay, connects, input, decode, o);
      var names := Names(input);
      var num := GamesPerName(input);
      && x.log == [Sanitize(replay), NatToString(|names|)] + names
      && |x.result.value| == |names|
      && forall i :: 0 <= i < |names| ==>
           x.result.value[i].0 == names[i]
           && ScanGames(input, LineOf(3, num, i), num, decode).Ok?
           && JoinHandles(DefaultBundle(), Spawned(ScanGames(input, LineOf(3, num, i), num, decode).value, o)) == Ok(x.result.value[i].1)
  {
    OutcomeHeader(replay, connects, input, decode, o);
    var names := Names(input);
    var num := GamesPerName(input);
    var log0 := [Sanitize(replay), NatToString(|names|)];
    OutcomeAfterHeader(replay, connects, input, decode, o);
    PlayersBundles(input, 3, num, names, log0, decode, o);
    assert names[..|names|] == names;
  }

  /** Every bundle of a list of `(name, stats)` pairs is sound. */
  predicate PairsSound(pairs: seq<(string, Bundle)>)
  {
    forall i :: 0 <= i < |pairs| ==> Sound(pairs[i].1)
  }

  /** Every bundle a successful exchange returns is sound: its arrays have their sizes and its segments their bounds. */
  lemma OutcomeSound(replay: string, connects: bool, input: seq<Line>,
                     decode: string -> Option<seq<Placement>>, o: Oracles)
    requires Outcome(replay, connects, input, decode, o).result.Ok?
    ensures PairsSound(Outcome(replay, connects, input, decode, o).result.value)
  {
    OutcomeOk(replay, connects, input, decode, o);
  }

  // ------------------------------------------- the exchange, step by step

  /** `thread::spawn` of one game's pass; joining the handle yields the bundle, or nothing when the pass panicked. */
  method Spawn(game: seq<Placement>, o: Oracles) returns (h: Option<Bundle>)
    ensures h == Thread(game, o)
  {
    if AllFeedable(game) {
      var stats := FromGame(game, o);
      h := Some(stats);
    } else {
      h := None;
    }
  }

  /**
   * The loop over one player's game lines: read, skip `CORRUPT` and decode
   * each game; seeing a game clears `fullyCorrupt`.
   */
  method ReadGames(input: seq<Line>, start: nat, num: nat, decode: string -> Option<seq<Placement>>, fullyCorrupt: bool)
    returns (r: Result<seq<seq<Placement>>, ReplayError>, stillCorrupt: bool)
    ensures r == ScanGames(input, start, num, decode)
    ensures r.Ok? ==> stillCorrupt == (fullyCorrupt && r.value == [])
  {
    var games: seq<seq<Placement>> := [];
    stillCorrupt := fullyCorrupt;
    for j := 0 to num
      invariant ScanGames(input, start, j, decode) == Ok(games)
      invariant stillCorrupt == (fullyCorrupt && games == [])
    {
      var line := LineAt(input, start + j);
      if line.Unreadable? {
        ScanStopped(input, start, j + 1, num, decode);
        return Err(Unparsable), stillCorrupt;
      }
      if Sanitize(line.s) == CORRUPT {
        continue;
      }
      stillCorrupt := false;
      var game := decode(line.s);
      if game.None? {
        ScanStopped(input, start, j + 1, num, decode);
        return Err(Unmunchable), stillCorrupt;
      }
      games := games + [game.value];
    }
    return Ok(games), stillCorrupt;
  }

  /** The `handles.push(thread::spawn(..))` of every decoded game, in reading order. */
  method SpawnAll(games: seq<seq<Placement>>, o: Oracles) returns (handles: seq<Option<Bundle>>)
    ensures handles == Spawned(games, o)
  {
    handles := [];
    for i := 0 to |games|
      invariant handles == Spawned(games[..i], o)
    {
      var handle := Spawn(games[i], o);
      assert games[..i + 1][..i] == games[..i];
      handles := handles + [handle];
    }
    assert games[..|games|] == games;
  }

  /**
   * The `handles.pop()` loop: join every analysis thread, the last started
   * first, and absorb its bundle into a fresh accumulator.
   */
  method JoinAll(handles: seq<Option<Bundle>>) returns (r: Result<Bundle, ReplayError>)
    requires HandlesSound(handles)
    ensures r == JoinHandles(DefaultBundle(), handles)
  {
    var acc := new CumulativeStats();
    var rest := handles;
    while rest != []
      invariant acc.Valid() && fresh(acc.clearTypes) && fresh(acc.shapeTypes)
      invariant HandlesSound(rest) && Sound(acc.Contents())
      invariant JoinHandles(DefaultBundle(), handles) == JoinHandles(acc.Contents(), rest)
      decreases |rest|
    {
      var handle := rest[|rest| - 1];
      rest := rest[..|rest| - 1];
      if handle.None? {
        return Err(Unmunchable);
      }
      MergeSound(acc.Contents(), handle.value);
      acc.Absorb(handle.value);
    }
    return Ok(acc.Contents());
  }

  /**
   * The body of the `for name in names` loop once the name is written: read
   * the player's game lines, spawn one thread per game and join them all.
   */
  method ProcessPlayer(input: seq<Line>, pos: nat, num: nat, decode: string -> Option<seq<Placement>>,
                       o: Oracles, fullyCorrupt: bool)
    returns (r: Result<Bundle, ReplayError>, stillCorrupt: bool)
    ensures var p := PlayerOutcome(ScanGames(input, pos, num, decode), o);
      && (r.Err? <==> p.Err?)
      && (r.Err? ==> r.error == p.error)
      && (r.Ok? ==> r.value == p.value.0 && stillCorrupt == (fullyCorrupt && p.value.1))
  {
    var scan;
    scan, stillCorrupt := ReadGames(input, pos, num, decode, fullyCorrupt);
    if scan.Err? {
      return Err(scan.error), stillCorrupt;
    }
    var handles := SpawnAll(scan.value, o);
    r := JoinAll(handles);
  }

  /**
   * One round of the player loop in `process_replay`: log the player's
   * name, read its games and join their threads.
   */
  method ServePlayer(input: seq<Line>, num: nat, names: seq<string>, log0: seq<string>,
                     decode: string -> Option<seq<Placement>>, o: Oracles,
                     k: nat, pos: nat, ghost all: seq<Result<(Bundle, bool), ReplayError>>, before: Progress)
    returns (after: Progress)
    requires k < |names| && before.Going?
    requires all == Players(input, 3, num, |names|, decode, o) && pos == LineOf(3, num, k)
    requires before == NamesAfter(all[..k], names, log0)
    ensures after == NamesAfter(all[..k + 1], names, log0)
  {
    PlayersAt(input, 3, num, |names|, decode, o, k);
    assert all[..k + 1][..k] == all[..k];
    var joined, fullyCorrupt := ProcessPlayer(input, pos, num, decode, o, before.fullyCorrupt);
    var log := before.log + [names[k]];
    if joined.Err? {
      return Stopped(joined.error, log);
    }
    return Going(before.pairs + [(names[k], joined.value)], fullyCorrupt, log);
  }

  /**
   * The `for name in names` loop: write each name, then serve that player;
   * the first failing player ends the exchange with its error.
   */
  method ServePlayers(input: seq<Line>, num: nat, names: seq<string>, log0: seq<string>,
                      decode: string -> Option<seq<Placement>>, o: Oracles)
    returns (progress: Progress)
    ensures progress == NamesAfter(Players(input, 3, num, |names|, decode, o), names, log0)
  {
    progress := Going([], true, log0);
    var pos := 3;
    ghost var all := Players(input, 3, num, |names|, decode, o);
    for k := 0 to |names|
      invariant pos == LineOf(3, num, k)
      invariant progress == NamesAfter(all[..k], names, log0) && progress.Going?
    {
      progress := ServePlayer(input, num, names, log0, decode, o, k, pos, all, progress);
      if progress.Stopped? {
        NamesStopped(all[..k + 1], all[k + 1..], names, log0);
        assert all[..k + 1] + all[k + 1..] == all;
        return;
      }
      pos := pos + num;
    }
    assert all[..|names|] == all;
  }

  /**
   * `process_replay`: send the replay, read the header, request every
   * player's games and collect one bundle per player. `connects` says
   * whether the service accepted the connection.
   */
  method ProcessReplay(replay: string, connects: bool, input: seq<Line>,
                       decode: string -> Option<seq<Placement>>, o: Oracles)
    returns (result: Result<seq<(string, Bundle)>, ReplayError>, log: seq<string>)
    ensures Exchange(result, log) == Outcome(replay, connects, input, decode, o)
  {
    if !connects {
      return Err(Connection), [];
    }
    log := [Sanitize(replay)];
    var supported := LineAt(input, 0);
    if supported.Unreadable? {
      return Err(Unparsable), log;
    }
    var flag := ParseBool(Sanitize(supported.s));
    if flag.None? {
      return Err(Unparsable), log;
    }
    if !flag.value {
      return Err(Unsupported), log;
    }
    var namesLine := LineAt(input, 1);
    if namesLine.Unreadable? {
      return Err(Unparsable), log;
    }
    var names := Split(Sanitize(namesLine.s), ' ');
    var countLine := LineAt(input, 2);
    if countLine.Unreadable? {
      return Err(Unparsable), log;
    }
    var count := ParseUsize(Sanitize(countLine.s));
    if count.None? {
      return Err(Unparsable), log;
    }
    log := log + [NatToString(|names|)];
    var progress := ServePlayers(input, count.value, names, log, decode, o);
    OutcomeAfterHeader(replay, connects, input, decode, o);
    match progress
    case Stopped(e, l) =>
      return Err(e), l;
    case Going(stats, fullyCorrupt, l) =>
      if fullyCorrupt {
        return Err(Corrupt), l;
      }
      return Ok(stats), l;
  }
}
