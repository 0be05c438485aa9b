/** One whole session against a server that answers only the first
    home-data request and never rejects a round: auth, home-data sync, a
    claim, then games until the counter reaches the limit. */
module Scenario {
  import opened Wrappers
  import opened Json
  import opened Frames
  import opened Session
  import opened Sequences

  /** The clock readings of one game's interval ticks, round by round. */
  datatype Game = Game(round1: seq<nat>, round2: seq<nat>)

  /** One reading per frame-sending tick of each round. */
  predicate FullGame(g: Game)
  {
    |g.round1| == Round1Frames && |g.round2| == Round2Frames
  }

  /** What one uninterrupted game sends: the start frame, round 1, round 2,
      and the home-data request of its completion. */
  function GameFrames(g: Game): (r: seq<string>)
  {
    [StartGameFrame] + RoundFrames(1, Round1Base, g.round1)
    + RoundFrames(2, Round2Base, g.round2) + [HomeDataFrame]
  }

  /** Consecutive games, one per entry of `games`. */
  function GamesLog(games: seq<Game>): (r: seq<string>)
  {
    if games == [] then []
    else GamesLog(games[..|games| - 1]) + GameFrames(games[|games| - 1])
  }

  lemma GamesLogSnoc(games: seq<Game>, k: nat)
    requires k < |games|
    ensures GamesLog(games[..k + 1]) == GamesLog(games[..k]) + GameFrames(games[k])
  {
    assert games[..k + 1][..k] == games[..k];
  }

  /** One game sends one start frame and no claim. */
  lemma GameFramesCounts(g: Game)
    ensures multiset(GameFrames(g))[StartGameFrame] == 1
    ensures multiset(GameFrames(g))[ClaimFrame] == 0
  {
    var r1, r2 := RoundFrames(1, Round1Base, g.round1), RoundFrames(2, Round2Base, g.round2);
    assert multiset(r1)[StartGameFrame] == 0 && multiset(r1)[ClaimFrame] == 0 by {
      RoundFramesAreTicks(1, Round1Base, g.round1);
    }
    assert multiset(r2)[StartGameFrame] == 0 && multiset(r2)[ClaimFrame] == 0 by {
      RoundFramesAreTicks(2, Round2Base, g.round2);
    }
    assert multiset([HomeDataFrame])[StartGameFrame] == 0 && multiset([HomeDataFrame])[ClaimFrame] == 0 by {
      assert |HomeDataFrame| != |StartGameFrame| && |HomeDataFrame| != |ClaimFrame|;
    }
    assert multiset([StartGameFrame])[ClaimFrame] == 0 by {
      assert |StartGameFrame| != |ClaimFrame|;
    }
    CountFramed([StartGameFrame], r1, r2, [HomeDataFrame], StartGameFrame);
    CountFramed([StartGameFrame], r1, r2, [HomeDataFrame], ClaimFrame);
  }

  /** `n` games send exactly `n` start frames and no claim. */
  lemma {:induction false} GamesLogCounts(games: seq<Game>)
    ensures multiset(GamesLog(games))[StartGameFrame] == |games|
    ensures multiset(GamesLog(games))[ClaimFrame] == 0
  {
    if games != [] {
      var init, last := games[..|games| - 1], games[|games| - 1];
      var a, b := GamesLog(init), GameFrames(last);
      assert multiset(a + b) == multiset(a) + multiset(b);
      GamesLogCounts(init);
      GameFramesCounts(last);
    }
  }

  /** The frames before the first game hold no start and one claim. */
  lemma PrefixCounts(accessToken: string, rest: seq<string>)
    ensures var log := [AuthFrame(accessToken), HomeDataFrame, ClaimFrame, HomeDataFrame] + rest;
      && multiset(log)[StartGameFrame] == multiset(rest)[StartGameFrame]
      && multiset(log)[ClaimFrame] == multiset(rest)[ClaimFrame] + 1
  {
    var a := AuthFrame(accessToken);
    assert a[1] == AuthOpen[1];
    var prefix := [a, HomeDataFrame, ClaimFrame, HomeDataFrame];
    assert multiset(prefix + rest) == multiset(prefix) + multiset(rest);
  }

  /** The home-data reply of the scenario: 5 minutes left on the claim. */
  function HomeReply(): (data: map<string, Json>)
    ensures ClaimTriggered(data, false, false) && StartArmed(data, false)
  {
    map[
      "userRank" := JObj(map["role" := JStr("A"), "profitPerHour" := JNum(1)]),
      "claimCountdown" := JObj(map["minutes" := JNum(5), "seconds" := JNum(0)]),
      "gold" := JNum(1000000),
      "dogs" := JNum(500)]
  }

  /** A snapshot whose `role` is `{"toString":0}`: the log line's `${role}`
      throws before any decision, so it neither claims nor arms a start. */
  function RoleThrowsReply(): (data: map<string, Json>)
    ensures IsSnapshot(data) && SnapshotThrows(data)
    ensures !ClaimTriggered(data, false, false) && !StartArmed(data, false)
  {
    map[
      "userRank" := JObj(map["role" := JObj(map["toString" := JNum(0)])]),
      "claimCountdown" := JObj(map["minutes" := JNum(5), "seconds" := JNum(0)])]
  }

  /** One game when the start timer is the only armed timer and nothing
      else happens meanwhile: the start fires, both rounds run, and the game
      completes. */
  method PlayGame(s: Layernet, game: Game)
    requires s.Valid() && !s.closed && FullGame(game)
    requires s.pending == [StartGameTimer] && !s.startingGame
    modifies s
    ensures s.Valid()
    ensures s.log == old(s.log) + GameFrames(game)
    ensures s.gameCount == old(s.gameCount) + 1
    ensures s.closed == (s.gameCount >= s.maxGames)
    ensures s.pending == if s.closed then [] else [StartGameTimer]
    ensures s.gameStarted && !s.startingGame && !s.isRound2Active && s.interval == None
    ensures s.claimingCoin == old(s.claimingCoin)
  {
    ghost var log0 := s.log;
    s.FireTimer(0);
    s.PlayRound(game.round1);
    ghost var log1 := s.log;
    s.PlayRound2(game.round2);
    AppendFramed(log0, log1, s.log, StartGameFrame, RoundFrames(1, Round1Base, game.round1), RoundFrames(2, Round2Base, game.round2), HomeDataFrame);
  }

  /** A fresh connection: the auth frame on open, then the home-data request
      when the settle delay has passed. */
  method Connect(accessToken: string) returns (s: Layernet)
    ensures fresh(s)
    ensures s.Valid() && !s.closed && s.gameCount == 1 && s.maxGames == 5 && s.pending == []
    ensures !s.gameStarted && !s.startingGame && !s.claimingCoin
    ensures s.log == [AuthFrame(accessToken), HomeDataFrame]
  {
    s := new Layernet();
    s.SendAuthMessage(accessToken);
    s.FireTimer(0);
  }

  /** A home-data reply arrives while no game has started and no claim is in
      flight: it triggers a claim and arms the first start. */
  method ReceiveReply(s: Layernet, reply: map<string, Json>)
    requires s.Valid() && !s.gameStarted && !s.startingGame && !s.claimingCoin && s.pending == []
    requires ClaimTriggered(reply, false, false) && StartArmed(reply, false)
    modifies s`log, s`pending, s`claimingCoin
    ensures s.Valid() && s.claimingCoin
    ensures s.pending == [ClaimDoneTimer, StartGameTimer]
    ensures s.log == old(s.log) + [ClaimFrame]
  {
    s.ProcessGameData(reply);
  }

  /** The opening of a session: a fresh connection, a home-data reply that
      triggers a claim and arms the first start, and the claim's release. */
  method OpenSession(accessToken: string, reply: map<string, Json>) returns (s: Layernet)
    requires ClaimTriggered(reply, false, false) && StartArmed(reply, false)
    ensures fresh(s)
    ensures s.Valid() && !s.closed && s.gameCount == 1 && s.maxGames == 5
    ensures s.pending == [StartGameTimer] && !s.startingGame && !s.claimingCoin
    ensures s.log == [AuthFrame(accessToken), HomeDataFrame, ClaimFrame, HomeDataFrame]
  {
    s := Connect(accessToken);
    ReceiveReply(s, reply);
    ghost var log1 := s.log;
    s.FireTimer(0);                 // the claim's release timer
    assert s.log == log1 + [HomeDataFrame];
  }

  /** Games played back to back from a state where only the start timer is
      armed, until the counter reaches the limit: each game's frames in turn,
      and then the socket is closed with no timer left. */
  method PlayGames(s: Layernet, games: seq<Game>)
    requires s.Valid() && !s.closed && s.pending == [StartGameTimer] && !s.startingGame
    requires s.gameCount + |games| == s.maxGames
    requires forall k :: 0 <= k < |games| ==> FullGame(games[k])
    modifies s
    ensures s.Valid() && s.closed && s.gameCount == s.maxGames && s.pending == []
    ensures s.gameStarted && !s.startingGame && !s.isRound2Active && s.interval == None
    ensures s.claimingCoin == old(s.claimingCoin)
    ensures s.log == old(s.log) + GamesLog(games)
  {
    ghost var log0 := s.log;
    var k := 0;
    while k < |games|
      invariant 0 <= k <= |games|
      invariant s.Valid() && s.gameCount + |games| - k == s.maxGames
      invariant k < |games| ==> !s.closed && s.pending == [StartGameTimer]
      invariant k == |games| ==> s.closed && s.pending == []
      invariant k > 0 ==> s.gameStarted
      invariant !s.startingGame && !s.isRound2Active && s.interval == None
      invariant s.claimingCoin == old(s.claimingCoin)
      invariant s.log == log0 + GamesLog(games[..k])
    {
      ghost var before := s.log;
      PlayGame(s, games[k]);
      GamesLogSnoc(games, k);
      AppendTwice(log0, before, s.log, GamesLog(games[..k]), GameFrames(games[k]));
      k := k + 1;
    }
    assert games[..k] == games;
  }

  /** A fresh session against a server that answers only the first home-data
      request and never rejects a round: it sends
      the auth frame, requests home data, claims once, and then plays games
      back to back. With the counter starting at 1 and the limit at 5 it
      completes exactly four games and then closes the socket. */
  method PlayUnrejectedSession(accessToken: string, games: seq<Game>) returns (s: Layernet)
    requires |games| == 4 && forall k :: 0 <= k < 4 ==> FullGame(games[k])
    ensures fresh(s)
    ensures s.Valid() && s.closed && s.gameCount == s.maxGames == 5 && s.pending == []
    ensures s.gameStarted && !s.startingGame && !s.isRound2Active && s.interval == None && !s.claimingCoin
    ensures s.log == [AuthFrame(accessToken), HomeDataFrame, ClaimFrame, HomeDataFrame] + GamesLog(games)
    ensures multiset(s.log)[StartGameFrame] == 4 && multiset(s.log)[ClaimFrame] == 1
  {
    s := OpenSession(accessToken, HomeReply());
    PlayGames(s, games);
    PrefixCounts(accessToken, GamesLog(games));
    GamesLogCounts(games);
  }
}
