# Layernet session model

This project models the session of the Netcoin bot's `Layernet` class
(`main.js`). The session opens one socket.io connection per account and does
the following:

- On open it sends the auth frame.
- After a settle delay it requests home data.
- It reads the server's home-data snapshots and claims coins while the claim
  window is open.
- It plays games. Each game is a start frame, then round 1 (sixty `inGame`
  ticks tagged 2 to 61), then round 2 (up to a hundred ticks tagged 63 to 162).
- It stops after the game counter reaches its limit and closes the socket.

Modules:

- `Decimal` covers decimal digits and reading a natural number back from its
  digits.
- `NumberFormat` covers `formatNumber`, the thousands separator.
- `Json` covers the parsed values the session inspects, JavaScript truthiness
  and destructuring, and the string quoting of `JSON.stringify`.
- `Frames` covers the outgoing frame texts with decoders that read them back,
  and `handleMessage`'s recognition pattern `^\d+\[(\{.*\})\]$`.
- `Session` holds the class `Layernet`. Its fields are the latches
  `gameStarted`, `isRound2Active`, `claimingCoin` and `startingGame`, the
  counter `gameCount` (starting at 1) and `maxGames` (5). It also has:
  - `log`: every `ws.send` in order;
  - `closed`: set by `ws.close`;
  - `pending`: the armed `setTimeout` callbacks;
  - `interval`: the one running `setInterval` with its captured `bodem` and
    `messageCount`.

  Each socket or timer callback is one method that runs to completion, as on
  the JavaScript event loop. `FireTimer(i)` lets any armed timer fire. That
  covers every order in which the real delays can fire, and more. The
  invariant `Valid()` is kept by every callback. It says:
  - the claim latch is set exactly while one release timer is armed;
  - an interval runs only inside a started game;
  - round 2 is active only while a round interval runs (`startGame` sets the
    flag before round 1 begins);
  - the socket is closed exactly when the counter has reached the limit.
- `Scenario` drives a whole session against a server that answers only the
  first home-data request and never rejects a round: four complete games,
  then the close. A server that also answers the later requests (the one
  after the claim's release, main.js:195, and the one at each completion,
  main.js:245) arms one more start per answer (main.js:178-179). Inside a
  game such a start does nothing, because of the latch at main.js:200;
  `FireTimer` states this. An answer to the request sent at the last
  completion, though, arms a start that runs a fifth game into the closed
  socket (main.js:254), and the model allows that trace too.
- `Sequences` holds generic regrouping facts about concatenation that the
  proofs about the log use.

After a "Game not started" rejection round 2 does not drain, and the session
freezes:

- Round 2's interval counts only the frames it sends, and it sends nothing
  while `isRound2Active` is false (main.js:234-240). A rejection that arrives
  before the hundredth frame leaves the count below 100 for good, and the
  interval keeps ticking without effect.
- A rejection that arrives after the hundredth frame finds the count at 100.
  The next tick clears the interval, but the completion branch is gated on
  `isRound2Active` (main.js:242-243), so nothing else happens.
- In both cases nothing clears `startingGame`.

As a result, no further game ever starts and the socket is never closed.
The model follows `main.js` here. `HandleParsed` and `HandleMessage` enter
`Layernet.Frozen()` on a rejection. `StartGame`, `FireTimer` and `Round2Tick`
state that they preserve it, and `Round2Tick` that it leaves the counter and
the socket alone there. No other callback may write `startingGame`, and none
may set `isRound2Active`.

## Model

| member | source | states |
|---|---|---|
| NumberFormat.Separate | main.js:34 | Inserts '.' exactly where `\B(?=(\d{3})+(?!\d))` matches: between two characters where the number of characters to the right is a positive multiple of 3. |
| NumberFormat.SeparateLength | main.js:34 | The text grows by one separator for every full group of three after the first group, and keeps the leading digit in front. |
| NumberFormat.FormatNumber | main.js:33-35 | For `n` with `d` digits, `formatNumber(n)` has `d + (d - 1) / 3` characters and starts with the leading digit of `n`. |
| NumberFormat.FormatNumberDigits | main.js:33-35 | Deleting every '.' from `formatNumber(n)` gives the decimal digits of `n`, and those digits read back as `n`. |
| NumberFormat.FormatNumberGroups | main.js:33-35 | The pieces between the separators are the digit groups of `n`. The first has 1 to 3 digits and every later one exactly 3. All are digits, and together they spell `n`. |
| NumberFormat.FormatNumberSmall | main.js:33-35 | Values below 1000 come back with no separator. |
| NumberFormat.FormatNumberLarge | main.js:33-35 | Every value from 1000 on gets at least one separator. |
| Decimal.Digits | main.js:34 | `n.toString()` is a non-empty run of decimal digits with no leading zero, except for 0 itself. |
| Decimal.ParseDigits | main.js:34 | The decimal text of `n` (`toString`) reads back as `n`. |
| Decimal.DigitsLength | main.js:34 | The decimal text of `n` has at most `k` digits exactly when `n < 10^k`. |
| Json.ConversionThrows | main.js:168-174 | Converting a parsed value to text or to a number throws exactly for an object with an own `toString` property, or an array with such a value among its elements. |
| Json.Escape | main.js:130 | `JSON.stringify` escapes every control character, so none appears raw in the quoted text. |
| Json.Quote | main.js:130 | `JSON.stringify(s)` is a literal between double quotes whose inside reads back as `s`. |
| Json.UnescapeEscape | main.js:130 | Reading back what `JSON.stringify` writes for a string gives that string, whatever characters it holds. |
| Frames.AuthFrame | main.js:130-131 | The auth frame starts with `40{"token":"`. |
| Frames.AuthFrameRoundTrip | main.js:129-131 | The auth frame carries exactly `Bearer ` followed by the access token it was built from. |
| Frames.InGameFrame | main.js:216-217 | A tick frame starts with the packet prefix `42`. The rest is read back by `InGameRoundTrip`. |
| Frames.InGameRoundTrip | main.js:216-217 | Every tick frame decodes back to its sequence tag, its round and its time. |
| Frames.InGameFrameDistinct | main.js:216-217 | A tick frame is never the home-data, claim or start-game frame. |
| Frames.RoundFramesTags | main.js:212-219 | Frame `k` of a round decodes as a tick of that round tagged `base + k`, carrying the `k`-th clock reading. |
| Frames.RoundTagsIncrease | main.js:217-219 | Within a round the sequence tags strictly increase. |
| Frames.RoundFramesAreTicks | main.js:214-219 | A round's frames contain no start-game, home-data or claim frame. |
| Frames.Envelope | main.js:142 | A recognised frame is a non-empty digit run, `[`, an object text with no line terminator, and `]`. The capture is that object text. |
| Frames.EnvelopeComplete | main.js:142 | Every frame of that shape is recognised, with its object text captured. |
| Frames.EnvelopeRefusesEvents | main.js:142-146 | A frame whose array starts with a string, such as a socket.io event `42["exception",...]`, is never recognised. |
| Session.ClaimWindowExact | main.js:174-175 | The integer test `60*m + s < 600` is exactly the source's `minutes + seconds/60 < 10`. |
| Session.ClaimWindowOpen | main.js:174-175 | The claim window is open only when both `minutes` and `seconds` are JSON numbers and `60*minutes + seconds < 600`. Other values, which the source coerces, are listed under "Left out". |
| Session.SnapshotThrows | main.js:165-172 | The "Game Information" line throws when `role`, `profitPerHour`, `gold`, `dogs`, `minutes` or `seconds` cannot be converted. |
| Session.ClaimTriggered | main.js:164-176 | processGameData calls `claimCoin` for a snapshot whose log line does not throw, with no game started, no claim in flight and the window open. |
| Session.StartArmed | main.js:164-180 | processGameData arms a start for a snapshot whose log line does not throw, while no start is in progress. |
| Session.InboundExact | main.js:141-145 | An object is inspected exactly for a frame made of a digit run of length at least 1, `[`, an object text and a final `]`. That object is what the object text parses to. |
| Session.Layernet.constructor | main.js:9-19 | A fresh session has all latches clear, the counter at 1, the limit at 5, nothing sent, no timer armed and no interval running. |
| Session.Layernet.SendAuthMessage | main.js:129-133 | Sends the auth frame and arms the home-data request. |
| Session.Layernet.SendHomeDataRequest | main.js:135-138 | Sends `420["homeData"]`. |
| Session.Layernet.ClaimCoin | main.js:184-197 | With a claim in flight nothing happens. Otherwise it sets the latch, sends `42["withdrawClaim"]` and arms the release timer. |
| Session.Layernet.StartGame | main.js:199-209 | With a start in progress nothing happens. Otherwise it sends `422["startGame"]`, sets `startingGame`, `gameStarted` and `isRound2Active`, and starts round 1 at tag 2. |
| Session.Layernet.ProcessGameData | main.js:162-182 | On a snapshot whose log line does not throw, it sends a claim exactly when no game has started, no claim is in flight and under 10 minutes remain. It arms a start exactly when none is in progress. A snapshot whose log line throws changes nothing. |
| Session.Layernet.HandleParsed | main.js:144-155 | A destructuring that throws changes nothing. "Game not started" while round 2 is active clears the flag, requests home data and freezes the session. Anything else is `ProcessGameData`. |
| Session.Layernet.HandleMessage | main.js:140-160 | An unmatched or unparsable frame changes nothing. A parsed object is handled as `HandleParsed` states. |
| Session.Layernet.FireTimer | main.js:193-196 | Removes one armed timer and runs it. The settle timer requests home data (main.js:132). The claim release clears the latch and requests home data. A start timer runs `StartGame` (main.js:180, 251). |
| Session.Layernet.Round1Tick | main.js:214-227 | While fewer than 60 frames are sent, it sends the next tick with tag `bodem` and counts it. Then it stops and round 2 begins at tag 63. |
| Session.Layernet.Round2Tick | main.js:233-258 | An active tick below 100 sends and counts. An inactive tick sends nothing and counts nothing. At 100 the interval stops; if round 2 is still active it requests home data, clears the latches, counts the game, and either arms the next start or closes. |
| Session.Layernet.PlayRound | main.js:211-228 | Uninterrupted round 1 sends exactly the 60 tick frames tagged 2 to 61 in order, then round 2 begins. |
| Session.Layernet.PlayRound2 | main.js:230-259 | Uninterrupted round 2 sends exactly the 100 tick frames tagged 63 to 162 and the home-data request. The game is counted, and the next start is armed exactly while the counter is under the limit; otherwise the socket closes. |
| Scenario.Connect | main.js:111-138 | A new connection sends the auth frame and then the home-data request, with the state otherwise fresh. |
| Scenario.ReceiveReply | main.js:162-182 | A snapshot inside the claim window, before any game, sends one claim and arms the release and the start. |
| Scenario.HomeReply | main.js:162-181 | A reply with 5:00 left on the countdown triggers a claim and arms a start. |
| Scenario.RoleThrowsReply | main.js:165-172 | A snapshot whose `role` is `{"toString":0}` throws in the log line, so it neither claims nor arms a start, even with 5:00 left. |
| Scenario.OpenSession | main.js:129-197 | The session opening sends auth, home data, claim, home data, leaving only the start timer armed. |
| Scenario.PlayGame | main.js:199-259 | One uninterrupted game sends the start frame, both rounds and the home-data request, and counts the game. Afterwards `gameStarted` is set, the start latch and round 2 are clear, no interval runs, and the claim latch is unchanged. |
| Scenario.GameFramesCounts | main.js:199-259 | One game sends exactly one start frame and no claim. |
| Scenario.GamesLogCounts | main.js:199-259 | `n` games send exactly `n` start frames and no claim. |
| Scenario.PlayGames | main.js:243-255 | Games back to back until the limit: each game's frames in turn. Then the socket is closed, no timer is armed, no interval runs, `gameStarted` is set, the start latch and round 2 are clear, and the claim latch is unchanged. |
| Scenario.PlayUnrejectedSession | main.js:17-18 | With the counter at 1 and the limit at 5, against a server that answers only the first home-data request and never rejects a round, a fresh session plays exactly four games, sends one claim and then closes, with no timer armed, no interval running and every latch but `gameStarted` clear. |

## Left out

- The socket's creation, URL and headers (main.js:102-127) are left out. Only the open and message callbacks are modelled, as `SendAuthMessage` and `HandleMessage`. The close and error callbacks only log.
- The login request to the game service (main.js:69-100) is left out. It is network I/O; the access token is a parameter.
- Reading `data.txt` (main.js:37-67), the countdown between cycles (main.js:261-271) and the outer account loop (main.js:273-318) are left out. They are file and terminal I/O around the session.
- Console logging (main.js:21-31) is left out. It has no effect on the session.
- `Date.now()` becomes a clock-reading parameter of each tick.
- `JSON.parse` becomes the parameter `parse`. `None` stands for a parse that throws.
- Delays are left out: timers carry no durations. `FireTimer` allows any armed timer to fire next, a superset of the orders the 1000, 2000 and 3000 ms delays allow.
- Interleavings are left out as separate steps: an inbound message during a round is just another callback between two ticks.
- NumberFormat.FormatNumber: modelled on natural numbers only, and it agrees with the source only below 2^53. From 2^53 a JavaScript number is rounded, and `toString` prints the shortest digits that round-trip, padded with zeros: for 2^60 the source prints `1.152.921.504.606.847.000`. From 10^21 `toString` switches to exponential text such as `1e+21`, which gets no separator. `FormatNumberDigits`, `FormatNumberGroups`, `FormatNumberLarge` and `Decimal.Digits` therefore describe the source only below 2^53. `Math.floor` of fractions, negative values and the text `NaN` for non-numbers are not modelled either. In the source the result is only logged.
- Numbers in parsed values are integers. Fractional countdown fields are not modelled.
- Session.ClaimWindowOpen: only JSON numbers open the window. JavaScript's coercion in `minutes + seconds / 60` is not modelled: null, `""`, `true` or `[]` in either field is coerced to a number and can open the window in the source (`{"minutes":null,"seconds":0}` gives 0), while `undefined`, non-numeric strings and objects give NaN and keep it closed.
- Json.Unescape: strings are sequences of Unicode scalar values, so a token holding a lone UTF-16 surrogate is not modelled.
- Session.Layernet.FireTimer: the log records every `ws.send` call, including calls made after `ws.close`. The socket library drops those without an error, and timers armed before the close still run.
