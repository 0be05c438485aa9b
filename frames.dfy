/** The frame texts the session writes to the socket (socket.io packets over
    engine.io: a numeric packet prefix followed by JSON), the decoders that
    read them back, and the recognition of inbound frames done by
    `handleMessage`. */
module Frames {
  import opened Wrappers
  import opened Decimal
  import opened Json

  predicate StartsWith(s: string, prefix: string)
  {
    |s| >= |prefix| && s[..|prefix|] == prefix
  }

  // ---- outgoing frames ----

  /** `sendHomeDataRequest`: `420` followed by `JSON.stringify(["homeData"])`. */
  const HomeDataFrame: string := "420[\"homeData\"]"

  /** `claimCoin`: `42` followed by `JSON.stringify(['withdrawClaim'])`. */
  const ClaimFrame: string := "42[\"withdrawClaim\"]"

  /** `startGame`: `422` followed by `JSON.stringify(["startGame"])`. */
  const StartGameFrame: string := "422[\"startGame\"]"

  const AuthOpen: string := "40{\"token\":\""
  const AuthClose: string := "\"}"

  /** `sendAuthMessage`: `40` followed by
      `JSON.stringify({ token: "Bearer " + accessToken })`. */
  function AuthFrame(accessToken: string): (f: string)
    ensures StartsWith(f, AuthOpen)
  {
    "40" + "{\"token\":" + Quote("Bearer " + accessToken) + "}"
  }

  /** The access token carried by an auth frame, if `f` is one. */
  function TokenOf(f: string): (r: Option<string>)
  {
    if |f| < |AuthOpen| + |AuthClose| || f[..|AuthOpen|] != AuthOpen || f[|f| - |AuthClose|..] != AuthClose then None
    else
      match Unescape(f[|AuthOpen|..|f| - |AuthClose|])
      case None => None
      case Some(v) => if StartsWith(v, "Bearer ") then Some(v[7..]) else None
  }

  /** The auth frame carries exactly the access token it was built from, however
      the token has to be escaped. */
  lemma AuthFrameRoundTrip(accessToken: string)
    ensures TokenOf(AuthFrame(accessToken)) == Some(accessToken)
  {
    var v := "Bearer " + accessToken;
    var e := Escape(v);
    var f := AuthFrame(accessToken);
    assert f == AuthOpen + e + AuthClose by {
      assert Quote(v) == "\"" + e + "\"";
    }
    assert f[..|AuthOpen|] == AuthOpen && f[|f| - |AuthClose|..] == AuthClose;
    assert f[|AuthOpen|..|f| - |AuthClose|] == e;
    assert Unescape(e) == Some(v) by {
      UnescapeEscape(v);
    }
    assert v[..7] == "Bearer ";
  }

  /** The decoded content of one in-game tick frame. */
  datatype Tick = Tick(tag: nat, round: nat, time: nat)

  const InGameOpen: string := "[\"inGame\",{\"round\":"
  const InGameTime: string := ",\"time\":"
  const InGameClose: string := ",\"gameover\":false}]"

  /** The interval bodies of `playRound`/`playRound2`: `42`, the running
      sequence tag `bodem`, then
      `JSON.stringify(["inGame", { round, time, gameover: false }])`. */
  function InGameFrame(tag: nat, round: nat, time: nat): (f: string)
    ensures StartsWith(f, "42")
  {
    "42" + (Digits(tag) + (InGameOpen + (Digits(round) + (InGameTime + (Digits(time) + InGameClose)))))
  }

  /** The text after `prefix`, if `s` starts with it. */
  function After(s: string, prefix: string): (r: Option<string>)
    ensures r.Some? <==> StartsWith(s, prefix)
    ensures r.Some? ==> s == prefix + r.value
  {
    if StartsWith(s, prefix) then
      assert s == s[..|prefix|] + s[|prefix|..];
      Some(s[|prefix|..])
    else None
  }

  lemma AfterPrefix(prefix: string, rest: string)
    ensures After(prefix + rest, prefix) == Some(rest)
  {
    assert (prefix + rest)[..|prefix|] == prefix;
  }

  /** Reads an in-game tick frame back to its tag, round and time. */
  function DecodeInGame(f: string): (r: Option<Tick>)
  {
    match After(f, "42")
    case None => None
    case Some(r0) =>
      match ReadNat(r0)
      case None => None
      case Some((tag, r1)) =>
        match After(r1, InGameOpen)
        case None => None
        case Some(r1') =>
          match ReadNat(r1')
          case None => None
          case Some((round, r2)) =>
            match After(r2, InGameTime)
            case None => None
            case Some(r2') =>
              match ReadNat(r2')
              case None => None
              case Some((time, r3)) =>
                if r3 == InGameClose then Some(Tick(tag, round, time)) else None
  }

  /** The decoder's steps, each named. */
  lemma DecodeInGameSteps(f: string, tag: nat, round: nat, time: nat, r0: string, r1: string, r1': string, r2: string, r2': string)
    requires After(f, "42") == Some(r0)
    requires ReadNat(r0) == Some((tag, r1))
    requires After(r1, InGameOpen) == Some(r1')
    requires ReadNat(r1') == Some((round, r2))
    requires After(r2, InGameTime) == Some(r2')
    requires ReadNat(r2') == Some((time, InGameClose))
    ensures DecodeInGame(f) == Some(Tick(tag, round, time))
  {
  }

  /** One field of a tick frame: a fixed lead text, then a number. */
  lemma ReadAfter(lead: string, n: nat, rest: string)
    requires rest != [] && !IsDigit(rest[0])
    ensures After(lead + (Digits(n) + rest), lead) == Some(Digits(n) + rest)
    ensures ReadNat(Digits(n) + rest) == Some((n, rest))
  {
    AfterPrefix(lead, Digits(n) + rest);
    ReadNatDigits(n, rest);
  }

  /** Every tick frame decodes to the tag, round and time it was built from. */
  lemma InGameRoundTrip(tag: nat, round: nat, time: nat)
    ensures DecodeInGame(InGameFrame(tag, round, time)) == Some(Tick(tag, round, time))
  {
    var r2 := InGameTime + (Digits(time) + InGameClose);
    var r1 := InGameOpen + (Digits(round) + r2);
    var f := InGameFrame(tag, round, time);
    ReadAfter("42", tag, r1);
    ReadAfter(InGameOpen, round, r2);
    ReadAfter(InGameTime, time, InGameClose);
    DecodeInGameSteps(f, tag, round, time, Digits(tag) + r1, r1, Digits(round) + r2, r2, Digits(time) + InGameClose);
  }

  /** A tick frame is never one of the fixed request frames. */
  lemma InGameFrameDistinct(tag: nat, round: nat, time: nat)
    ensures InGameFrame(tag, round, time) != HomeDataFrame
    ensures InGameFrame(tag, round, time) != ClaimFrame
    ensures InGameFrame(tag, round, time) != StartGameFrame
  {
    assert |InGameFrame(tag, round, time)| > |ClaimFrame| > |StartGameFrame| > |HomeDataFrame|;
  }

  /** The frames one round interval sends: tags `base`, `base + 1`, ...,
      one per entry of `times`, in order. */
  function RoundFrames(round: nat, base: nat, times: seq<nat>): (fs: seq<string>)
    ensures |fs| == |times|
  {
    if times == [] then []
    else RoundFrames(round, base, times[..|times| - 1]) + [InGameFrame(base + |times| - 1, round, times[|times| - 1])]
  }

  /** One more tick appends one more frame. */
  lemma RoundFramesSnoc(round: nat, base: nat, times: seq<nat>, i: nat)
    requires i < |times|
    ensures RoundFrames(round, base, times[..i + 1])
         == RoundFrames(round, base, times[..i]) + [InGameFrame(base + i, round, times[i])]
  {
    assert times[..i + 1][..i] == times[..i];
  }

  /** Frame `k` of a round carries tag `base + k` and the `k`-th time. */
  lemma {:induction false} RoundFrameAt(round: nat, base: nat, times: seq<nat>, k: nat)
    requires k < |times|
    ensures RoundFrames(round, base, times)[k] == InGameFrame(base + k, round, times[k])
  {
    var n := |times| - 1;
    if k < n {
      RoundFrameAt(round, base, times[..n], k);
      assert times[..n][k] == times[k];
    }
  }

  lemma RoundFrameTag(round: nat, base: nat, times: seq<nat>, k: nat)
    requires k < |times|
    ensures DecodeInGame(RoundFrames(round, base, times)[k]) == Some(Tick(base + k, round, times[k]))
  {
    var t := Tick(base + k, round, times[k]);
    var g := InGameFrame(t.tag, t.round, t.time);
    assert RoundFrames(round, base, times)[k] == g by {
      RoundFrameAt(round, base, times, k);
    }
    assert DecodeInGame(g) == Some(t) by {
      InGameRoundTrip(t.tag, t.round, t.time);
    }
  }

  /** Frame `k` of a round decodes as a tick of that round tagged `base + k`,
      so the tags run up by one from `base`. */
  lemma RoundFramesTags(round: nat, base: nat, times: seq<nat>)
    ensures forall k :: 0 <= k < |times| ==>
      DecodeInGame(RoundFrames(round, base, times)[k]) == Some(Tick(base + k, round, times[k]))
  {
    forall k | 0 <= k < |times|
      ensures DecodeInGame(RoundFrames(round, base, times)[k]) == Some(Tick(base + k, round, times[k]))
    {
      RoundFrameTag(round, base, times, k);
    }
  }

  /** No frame of a round is one of the request frames. */
  lemma {:induction false} RoundFramesAreTicks(round: nat, base: nat, times: seq<nat>)
    ensures StartGameFrame !in RoundFrames(round, base, times)
    ensures HomeDataFrame !in RoundFrames(round, base, times)
    ensures ClaimFrame !in RoundFrames(round, base, times)
  {
    if times != [] {
      var n := |times| - 1;
      RoundFramesAreTicks(round, base, times[..n]);
      InGameFrameDistinct(base + n, round, times[n]);
    }
  }

  /** Within a round the tags strictly increase from frame to frame. */
  lemma RoundTagsIncrease(round: nat, base: nat, times: seq<nat>, j: nat, k: nat)
    requires j < k < |times|
    ensures DecodeInGame(RoundFrames(round, base, times)[j]).Some?
    ensures DecodeInGame(RoundFrames(round, base, times)[k]).Some?
    ensures DecodeInGame(RoundFrames(round, base, times)[j]).value.tag
          < DecodeInGame(RoundFrames(round, base, times)[k]).value.tag
  {
    RoundFramesTags(round, base, times);
  }

  // ---- inbound frames ----

  /** The characters JavaScript's `.` does not match. */
  predicate IsLineTerminator(c: char)
  {
    c == '\n' || c == '\r' || c == '\U{2028}' || c == '\U{2029}'
  }

  /** Text matched by `\{.*\}`: braces around characters that are not line
      terminators. */
  predicate ObjectText(b: string)
  {
    |b| >= 2 && b[0] == '{' && b[|b| - 1] == '}'
    && forall i :: 0 <= i < |b| ==> !IsLineTerminator(b[i])
  }

  /** `handleMessage`'s test `/^\d+\[(\{.*\})\]$/`: the captured object text,
      or `None` when the frame does not match. */
  function Envelope(s: string): (r: Option<string>)
    ensures r.Some? ==> ObjectText(r.value)
    ensures r.Some? ==>
      var k := |s| - |r.value| - 2;
      k >= 1 && AllDigits(s[..k]) && s == s[..k] + "[" + r.value + "]"
  {
    var k := DigitRun(s);
    if k >= 1 && |s| >= k + 4 && s[k] == '[' && s[|s| - 1] == ']' && ObjectText(s[k + 1..|s| - 1])
    then
      assert s == s[..k] + "[" + s[k + 1..|s| - 1] + "]";
      Some(s[k + 1..|s| - 1])
    else None
  }

  /** Every frame of the matched shape is recognised, with its object text. */
  lemma EnvelopeComplete(packet: string, body: string)
    requires |packet| >= 1 && AllDigits(packet)
    requires ObjectText(body)
    ensures Envelope(packet + "[" + body + "]") == Some(body)
  {
    var s := packet + "[" + body + "]";
    DigitRunOf(packet, "[" + body + "]");
    assert s == packet + ("[" + body + "]");
    var k := |packet|;
    assert s[k] == '[' && s[|s| - 1] == ']';
    assert s[k + 1..|s| - 1] == body;
  }

  /** A frame whose array starts with a string, such as a socket.io event
      `42["exception",{...}]`, is never recognised. */
  lemma EnvelopeRefusesEvents(packet: string, rest: string)
    requires |packet| >= 1 && AllDigits(packet)
    ensures Envelope(packet + "[\"" + rest) == None
  {
    var s := packet + "[\"" + rest;
    DigitRunOf(packet, "[\"" + rest);
    assert s[|packet| + 1] == '"';
  }
}
