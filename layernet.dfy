/** The session state machine of class `Layernet`: the latches
    `gameStarted`, `isRound2Active`, `claimingCoin` and `startingGame`, the game
    counter, the timers the session has armed, and the one running round
    interval. Each socket or timer callback is one method that runs to the end
    before the next callback, as on the JavaScript event loop. `ws.send` appends
    to `log`; `ws.close` sets `closed`. */
module Session {
  import opened Wrappers
  import opened Json
  import opened Decimal
  import opened Frames
  import opened Sequences

  /** A `setTimeout` callback that has been armed and has not run yet. */
  datatype Timer =
    | HomeDataTimer   // sendAuthMessage: request home data after the settle delay
    | ClaimDoneTimer  // claimCoin: release the claim latch and re-request home data
    | StartGameTimer  // processGameData or round-2 completion: call startGame

  /** The state captured by the running `setInterval` of `playRound` (round 1)
      or `playRound2` (round 2): the next sequence tag and the frames sent. */
  datatype Interval =
    | Round1(bodem: nat, messageCount: nat)
    | Round2(bodem: nat, messageCount: nat)

  const Round1Base: nat := 2
  const Round1Frames: nat := 60
  const Round2Base: nat := 63
  const Round2Frames: nat := 100
  const NotStarted: string := "Game not started"

  /** The tag of the next frame is the base tag plus the frames already sent,
      and no interval sends more than its count. */
  predicate IntervalOk(iv: Option<Interval>)
  {
    match iv
    case None => true
    case Some(Round1(b, c)) => b == Round1Base + c && c <= Round1Frames
    case Some(Round2(b, c)) => b == Round2Base + c && c <= Round2Frames
  }

  // ---- decisions taken on parsed messages ----

  /** `minutes + seconds / 60 < 10` with both read from `claimCountdown`.
      The window is open only when both fields are JSON numbers; other values,
      which JavaScript coerces, are not modelled (README, "Left out"). */
  predicate ClaimWindowOpen(countdown: Option<Json>)
  {
    match (Prop(countdown, "minutes"), Prop(countdown, "seconds"))
    case (Some(JNum(m)), Some(JNum(s))) => 60 * m + s < 600
    case _ => false
  }

  /** The integer test is the source's test on minutes and seconds. */
  lemma ClaimWindowExact(m: int, s: int)
    ensures 60 * m + s < 600 <==> (m as real) + (s as real) / 60.0 < 10.0
  {
    var x := (m as real) + (s as real) / 60.0;
    assert 60.0 * x == (60 * m + s) as real;
  }

  /** A home-data snapshot: `userRank` and `claimCountdown` both truthy. */
  predicate IsSnapshot(data: map<string, Json>)
  {
    Truthy(Get(data, "userRank")) && Truthy(Get(data, "claimCountdown"))
  }

  /** Building the "Game Information" log line of a snapshot throws: it
      converts `role`, `profitPerHour`, `minutes` and `seconds` to text and
      `gold` and `dogs` to numbers (`formatNumber`'s `Math.floor`). The
      TypeError leaves processGameData before any decision and is caught and
      logged by handleMessage. */
  predicate SnapshotThrows(data: map<string, Json>)
  {
    var rank := Get(data, "userRank");
    var countdown := Get(data, "claimCountdown");
    || ReadThrows(Prop(rank, "role")) || ReadThrows(Prop(rank, "profitPerHour"))
    || ReadThrows(Get(data, "gold")) || ReadThrows(Get(data, "dogs"))
    || ReadThrows(Prop(countdown, "minutes")) || ReadThrows(Prop(countdown, "seconds"))
  }

  /** processGameData reaches its claim and start decisions. */
  predicate Decides(data: map<string, Json>)
  {
    IsSnapshot(data) && !SnapshotThrows(data)
  }

  /** processGameData calls claimCoin. */
  predicate ClaimTriggered(data: map<string, Json>, gameStarted: bool, claimingCoin: bool)
  {
    Decides(data) && !gameStarted && !claimingCoin && ClaimWindowOpen(Get(data, "claimCountdown"))
  }

  /** processGameData arms a delayed startGame. */
  predicate StartArmed(data: map<string, Json>, startingGame: bool)
  {
    Decides(data) && !startingGame
  }

  /** `parsedMessage[0] === "exception"`. */
  predicate IsException(data: map<string, Json>)
  {
    Get(data, "0") == Some(JStr("exception"))
  }

  /** `const { message } = parsedMessage[1]` throws; the catch block only logs. */
  predicate ExceptionThrows(data: map<string, Json>)
  {
    IsException(data) && DestructureThrows(Get(data, "1"))
  }

  /** An exception whose message is "Game not started". */
  predicate IsNotStarted(data: map<string, Json>)
  {
    IsException(data) && !DestructureThrows(Get(data, "1"))
    && Prop(Get(data, "1"), "message") == Some(JStr(NotStarted))
  }

  /** The object `handleMessage` goes on to inspect: the frame matched the
      pattern and its object text parsed. */
  function Inbound(message: string, parse: string -> Option<map<string, Json>>): (r: Option<map<string, Json>>)
  {
    match Envelope(message)
    case None => None
    case Some(body) => parse(body)
  }

  /** `handleMessage` inspects an object exactly for a frame made of a
      digit run of length `k >= 1`, `[`, an object text and a final `]`, and
      the object is what the object text parses to. */
  lemma InboundExact(message: string, parse: string -> Option<map<string, Json>>)
    ensures Inbound(message, parse).Some? ==>
      exists k :: 1 <= k <= |message| - 4 && AllDigits(message[..k]) && message[k] == '['
        && message[|message| - 1] == ']' && ObjectText(message[k + 1..|message| - 1])
        && Inbound(message, parse) == parse(message[k + 1..|message| - 1])
    ensures forall k ::
      (1 <= k <= |message| - 4 && AllDigits(message[..k]) && message[k] == '['
       && message[|message| - 1] == ']' && ObjectText(message[k + 1..|message| - 1]))
      ==> Inbound(message, parse) == parse(message[k + 1..|message| - 1])
  {
    if Inbound(message, parse).Some? {
      var body := Envelope(message).value;
      var k := |message| - |body| - 2;
      assert message[k + 1..|message| - 1] == body;
    }
    forall k | 1 <= k <= |message| - 4 && AllDigits(message[..k]) && message[k] == '['
        && message[|message| - 1] == ']' && ObjectText(message[k + 1..|message| - 1])
      ensures Inbound(message, parse) == parse(message[k + 1..|message| - 1])
    {
      var body := message[k + 1..|message| - 1];
      assert message == message[..k] + "[" + body + "]";
      EnvelopeComplete(message[..k], body);
    }
  }

  /** Arming a timer other than the claim's release leaves the number of
      armed releases as it was. */
  lemma ArmedClaims(pending: seq<Timer>, t: Timer)
    ensures multiset(pending + [t])[ClaimDoneTimer]
         == multiset(pending)[ClaimDoneTimer] + (if t == ClaimDoneTimer then 1 else 0)
  {
    assert multiset(pending + [t]) == multiset(pending) + multiset{t};
  }

  class Layernet {
    var log: seq<string>
    var closed: bool
    var pending: seq<Timer>
    var interval: Option<Interval>
    var gameStarted: bool
    var isRound2Active: bool
    var claimingCoin: bool
    var startingGame: bool
    var gameCount: int
    const maxGames: int

    /** The session invariant. The claim latch is set exactly while its
        release timer is armed; an interval runs only inside a started game
        and at most one runs at a time; round 2 is active only while a round
        interval runs (startGame sets the flag before round 1); the socket is
        closed exactly once the game counter has reached the limit. */
    ghost predicate Valid()
      reads this
    {
      && IntervalOk(interval)
      && 1 <= gameCount
      && (closed <==> gameCount >= maxGames)
      && multiset(pending)[ClaimDoneTimer] == (if claimingCoin then 1 else 0)
      && (interval.Some? ==> startingGame)
      && (isRound2Active ==> interval.Some?)
      && (startingGame ==> gameStarted)
    }

    /** A game was started and round 2 was switched off without completing:
        nothing can clear `startingGame` or set `isRound2Active` again. */
    ghost predicate Frozen()
      reads this
    {
      startingGame && !isRound2Active
    }

    constructor ()
      ensures Valid()
      ensures log == [] && !closed && pending == [] && interval == None
      ensures !gameStarted && !isRound2Active && !claimingCoin && !startingGame
      ensures gameCount == 1 && maxGames == 5
    {
      log, closed, pending, interval := [], false, [], None;
      gameStarted, isRound2Active, claimingCoin, startingGame := false, false, false, false;
      gameCount, maxGames := 1, 5;
    }

    /** On open: send the auth frame and arm the home-data request. */
    method SendAuthMessage(accessToken: string)
      requires Valid()
      modifies this`log, this`pending
      ensures Valid()
      ensures log == old(log) + [AuthFrame(accessToken)]
      ensures pending == old(pending) + [HomeDataTimer]
    {
      log := log + [AuthFrame(accessToken)];
      pending := pending + [HomeDataTimer];
    }

    method SendHomeDataRequest()
      modifies this`log
      ensures log == old(log) + [HomeDataFrame]
    {
      log := log + [HomeDataFrame];
    }

    /** `claimCoin`: at most one claim is in flight. */
    method ClaimCoin()
      requires Valid()
      modifies this`log, this`pending, this`claimingCoin
      ensures Valid()
      ensures old(claimingCoin) ==> log == old(log) && pending == old(pending) && claimingCoin
      ensures !old(claimingCoin) ==>
        && claimingCoin
        && log == old(log) + [ClaimFrame]
        && pending == old(pending) + [ClaimDoneTimer]
    {
      if claimingCoin {
        return;
      }
      claimingCoin := true;
      log := log + [ClaimFrame];
      pending := pending + [ClaimDoneTimer];
    }

    /** `startGame`: at most one game runs at a time. */
    method StartGame()
      requires Valid()
      modifies this`log, this`startingGame, this`gameStarted, this`isRound2Active, this`interval
      ensures Valid()
      ensures old(startingGame) ==>
        && log == old(log) && interval == old(interval)
        && gameStarted == old(gameStarted) && isRound2Active == old(isRound2Active) && startingGame
      ensures !old(startingGame) ==>
        && log == old(log) + [StartGameFrame]
        && startingGame && gameStarted && isRound2Active
        && interval == Some(Round1(Round1Base, 0))
      ensures old(Frozen()) ==> Frozen()
    {
      if startingGame {
        return;
      }
      startingGame := true;
      log := log + [StartGameFrame];
      gameStarted := true;
      isRound2Active := true;
      interval := Some(Round1(Round1Base, 0));
    }

    /** `processGameData`: on a home-data snapshot whose log line converts
        without error, claim when the window is open and no game has started,
        and arm a delayed start. A snapshot whose log line throws changes
        nothing. */
    method ProcessGameData(data: map<string, Json>)
      requires Valid()
      modifies this`log, this`pending, this`claimingCoin
      ensures Valid()
      ensures
        var claim := ClaimTriggered(data, old(gameStarted), old(claimingCoin));
        var start := StartArmed(data, old(startingGame));
        && log == old(log) + (if claim then [ClaimFrame] else [])
        && pending == old(pending) + (if claim then [ClaimDoneTimer] else []) + (if start then [StartGameTimer] else [])
        && claimingCoin == (old(claimingCoin) || claim)
    {
      if Decides(data) {
        if ClaimTriggered(data, gameStarted, claimingCoin) {
          ClaimCoin();
        }
        if !startingGame {
          ArmedClaims(pending, StartGameTimer);
          pending := pending + [StartGameTimer];
        }
      }
    }

    /** The body of `handleMessage`'s try block once `JSON.parse` has
        succeeded: a destructuring that throws changes nothing; "Game not
        started" while round 2 is active switches round 2 off and re-requests
        home data; anything else goes to `processGameData`. */
    method HandleParsed(data: map<string, Json>)
      requires Valid()
      modifies this`log, this`pending, this`claimingCoin, this`isRound2Active
      ensures Valid()
      ensures ExceptionThrows(data) ==>
        log == old(log) && pending == old(pending)
        && isRound2Active == old(isRound2Active) && claimingCoin == old(claimingCoin)
      ensures IsNotStarted(data) && old(isRound2Active) ==>
        log == old(log) + [HomeDataFrame] && !isRound2Active && Frozen()
        && pending == old(pending) && claimingCoin == old(claimingCoin)
      ensures !ExceptionThrows(data) && !(IsNotStarted(data) && old(isRound2Active)) ==>
        var claim := ClaimTriggered(data, old(gameStarted), old(claimingCoin));
        var start := StartArmed(data, old(startingGame));
        && log == old(log) + (if claim then [ClaimFrame] else [])
        && pending == old(pending) + (if claim then [ClaimDoneTimer] else []) + (if start then [StartGameTimer] else [])
        && claimingCoin == (old(claimingCoin) || claim)
        && isRound2Active == old(isRound2Active)
    {
      if IsException(data) {
        if DestructureThrows(Get(data, "1")) {
          return;  // TypeError from the destructuring: logged and dropped
        }
        if Prop(Get(data, "1"), "message") == Some(JStr(NotStarted)) && isRound2Active {
          isRound2Active := false;
          SendHomeDataRequest();
          return;
        }
      }
      ProcessGameData(data);
    }

    /** `handleMessage`: a frame that does not match the pattern, or whose
        object text does not parse, changes nothing; a parsed object is handled
        as `HandleParsed` says. */
    method HandleMessage(message: string, parse: string -> Option<map<string, Json>>)
      requires Valid()
      modifies this`log, this`pending, this`claimingCoin, this`isRound2Active
      ensures Valid()
      ensures Envelope(message).None? ==> log == old(log) && pending == old(pending) && isRound2Active == old(isRound2Active)
      ensures
        var data := Inbound(message, parse);
        && (data.None? || ExceptionThrows(data.value) ==>
              log == old(log) && pending == old(pending)
              && isRound2Active == old(isRound2Active) && claimingCoin == old(claimingCoin))
        && (data.Some? && IsNotStarted(data.value) && old(isRound2Active) ==>
              log == old(log) + [HomeDataFrame] && !isRound2Active && Frozen()
              && pending == old(pending) && claimingCoin == old(claimingCoin))
        && (data.Some? && !ExceptionThrows(data.value) && !(IsNotStarted(data.value) && old(isRound2Active)) ==>
              var claim := ClaimTriggered(data.value, old(gameStarted), old(claimingCoin));
              var start := StartArmed(data.value, old(startingGame));
              && log == old(log) + (if claim then [ClaimFrame] else [])
              && pending == old(pending) + (if claim then [ClaimDoneTimer] else []) + (if start then [StartGameTimer] else [])
              && claimingCoin == (old(claimingCoin) || claim)
              && isRound2Active == old(isRound2Active))
    {
      var env := Envelope(message);
      if env.None? {
        return;
      }
      var parsed := parse(env.value);
      if parsed.None? {
        return;  // JSON.parse threw: logged and dropped
      }
      HandleParsed(parsed.value);
    }

    /** Runs the armed timer at position `i` (timers with different delays
        may fire in any order relative to one another and to other callbacks). */
    method FireTimer(i: nat)
      requires Valid()
      requires i < |pending|
      modifies this`log, this`pending, this`claimingCoin, this`startingGame, this`gameStarted, this`isRound2Active, this`interval
      ensures Valid()
      ensures pending == old(pending[..i] + pending[i + 1..])
      ensures old(pending[i]) == HomeDataTimer ==>
        log == old(log) + [HomeDataFrame] && claimingCoin == old(claimingCoin)
        && startingGame == old(startingGame) && isRound2Active == old(isRound2Active)
        && gameStarted == old(gameStarted) && interval == old(interval)
      ensures old(pending[i]) == ClaimDoneTimer ==>
        log == old(log) + [HomeDataFrame] && !claimingCoin
        && startingGame == old(startingGame) && isRound2Active == old(isRound2Active)
        && gameStarted == old(gameStarted) && interval == old(interval)
      ensures old(pending[i]) == StartGameTimer ==>
        claimingCoin == old(claimingCoin)
        && (old(startingGame) ==>
              log == old(log) && interval == old(interval) && startingGame
              && gameStarted == old(gameStarted) && isRound2Active == old(isRound2Active))
        && (!old(startingGame) ==>
              log == old(log) + [StartGameFrame] && startingGame && gameStarted && isRound2Active
              && interval == Some(Round1(Round1Base, 0)))
      ensures old(Frozen()) ==> Frozen()
    {
      var t := pending[i];
      assert pending == pending[..i] + [t] + pending[i + 1..];
      pending := pending[..i] + pending[i + 1..];
      match t
      case HomeDataTimer =>
        SendHomeDataRequest();
      case ClaimDoneTimer =>
        claimingCoin := false;
        SendHomeDataRequest();
      case StartGameTimer =>
        StartGame();
    }

    /** One tick of `playRound`'s interval: send the next frame with tag
        `bodem`, whatever the round-2 flag says; the tick after the sixtieth
        frame clears the interval and starts round 2. */
    method Round1Tick(now: nat)
      requires Valid()
      requires interval.Some? && interval.value.Round1?
      modifies this`log, this`interval
      ensures Valid()
      ensures
        var Round1(b, c) := old(interval.value);
        && (c < Round1Frames ==> log == old(log) + [InGameFrame(b, 1, now)] && interval == Some(Round1(b + 1, c + 1)))
        && (c >= Round1Frames ==> log == old(log) && interval == Some(Round2(Round2Base, 0)))
    {
      var Round1(b, c) := interval.value;
      if c < Round1Frames {
        log := log + [InGameFrame(b, 1, now)];
        interval := Some(Round1(b + 1, c + 1));
      } else {
        interval := Some(Round2(Round2Base, 0));
      }
    }

    /** One tick of `playRound2`'s interval: while round 2 is active, send the
        next frame; while it is not, do nothing at all, so the count stays
        where it is. The tick after the hundredth frame clears the interval and,
        if round 2 is still active, completes the game: request home data,
        release the start latch, count the game, and either arm the next start
        or close the socket. */
    method Round2Tick(now: nat)
      requires Valid()
      requires interval.Some? && interval.value.Round2?
      modifies this`log, this`interval, this`isRound2Active, this`startingGame, this`gameCount, this`pending, this`closed
      ensures Valid()
      ensures
        var Round2(b, c) := old(interval.value);
        && (c < Round2Frames && old(isRound2Active) ==>
              log == old(log) + [InGameFrame(b, 2, now)] && interval == Some(Round2(b + 1, c + 1))
              && isRound2Active && startingGame == old(startingGame)
              && gameCount == old(gameCount) && pending == old(pending) && closed == old(closed))
        && (c < Round2Frames && !old(isRound2Active) ==>
              log == old(log) && interval == old(interval)
              && !isRound2Active && startingGame == old(startingGame)
              && gameCount == old(gameCount) && pending == old(pending) && closed == old(closed))
        && (c >= Round2Frames && !old(isRound2Active) ==>
              log == old(log) && interval == None
              && !isRound2Active && startingGame == old(startingGame)
              && gameCount == old(gameCount) && pending == old(pending) && closed == old(closed))
        && (c >= Round2Frames && old(isRound2Active) ==>
              && log == old(log) + [HomeDataFrame] && interval == None
              && !isRound2Active && !startingGame
              && gameCount == old(gameCount) + 1
              && pending == old(pending) + (if gameCount < maxGames then [StartGameTimer] else [])
              && closed == (old(closed) || gameCount >= maxGames))
      ensures gameStarted == old(gameStarted) && claimingCoin == old(claimingCoin)
      ensures old(Frozen()) ==> Frozen() && gameCount == old(gameCount) && closed == old(closed)
    {
      var Round2(b, c) := interval.value;
      if c < Round2Frames {
        if isRound2Active {
          log := log + [InGameFrame(b, 2, now)];
          interval := Some(Round2(b + 1, c + 1));
        }
      } else {
        interval := None;
        if isRound2Active {
          SendHomeDataRequest();
          isRound2Active := false;
          startingGame := false;
          gameCount := gameCount + 1;
          if gameCount < maxGames {
            pending := pending + [StartGameTimer];
          } else {
            closed := true;
          }
        }
      }
    }

    /** `playRound(1)` with nothing else running in between: the sixty frames
        tagged 2 to 61, in order, and then round 2 begins. */
    method PlayRound(clock: seq<nat>)
      requires Valid()
      requires interval == Some(Round1(Round1Base, 0))
      requires |clock| == Round1Frames
      modifies this`log, this`interval
      ensures Valid()
      ensures log == old(log) + RoundFrames(1, Round1Base, clock)
      ensures interval == Some(Round2(Round2Base, 0))
    {
      var i := 0;
      while i < Round1Frames
        invariant 0 <= i <= Round1Frames
        invariant Valid()
        invariant interval == Some(Round1(Round1Base + i, i))
        invariant log == old(log) + RoundFrames(1, Round1Base, clock[..i])
      {
        ghost var before := log;
        Round1Tick(clock[i]);
        RoundFramesSnoc(1, Round1Base, clock, i);
        AppendTwice(old(log), before, log, RoundFrames(1, Round1Base, clock[..i]), [InGameFrame(Round1Base + i, 1, clock[i])]);
        i := i + 1;
      }
      Round1Tick(0);
      assert clock[..Round1Frames] == clock;
    }

    /** `playRound2(2)` with nothing else running in between: the hundred
        frames tagged 63 to 162, in order, then the completion of the game. */
    method PlayRound2(clock: seq<nat>)
      requires Valid()
      requires interval == Some(Round2(Round2Base, 0)) && isRound2Active
      requires |clock| == Round2Frames
      modifies this`log, this`interval, this`isRound2Active, this`startingGame, this`gameCount, this`pending, this`closed
      ensures Valid()
      ensures log == old(log) + RoundFrames(2, Round2Base, clock) + [HomeDataFrame]
      ensures interval == None && !isRound2Active && !startingGame
      ensures gameCount == old(gameCount) + 1
      ensures pending == old(pending) + (if gameCount < maxGames then [StartGameTimer] else [])
      ensures closed == (old(closed) || gameCount >= maxGames)
    {
      var i := 0;
      while i < Round2Frames
        invariant 0 <= i <= Round2Frames
        invariant Valid()
        invariant interval == Some(Round2(Round2Base + i, i)) && isRound2Active
        invariant log == old(log) + RoundFrames(2, Round2Base, clock[..i])
        invariant gameCount == old(gameCount) && pending == old(pending) && closed == old(closed)
      {
        ghost var before := log;
        Round2Tick(clock[i]);
        RoundFramesSnoc(2, Round2Base, clock, i);
        AppendTwice(old(log), before, log, RoundFrames(2, Round2Base, clock[..i]), [InGameFrame(Round2Base + i, 2, clock[i])]);
        i := i + 1;
      }
      Round2Tick(0);
      assert clock[..Round2Frames] == clock;
    }
  }
}
