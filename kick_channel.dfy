/**
 * The pure side of the upstream subscription tracker (src/kick/KickServer.ts):
 * how a room id becomes the channel string `chatrooms.<id>.v2`, how a channel
 * string is matched against `/^chatrooms\.(\d+)\.v2$/m` and turned back into a
 * room id with `parseInt`, how an inbound frame is recognised as a
 * subscription confirmation, the subscribe command that is sent, and the id
 * check of `connectToChannel`.
 */
module KickChannel {
  import opened Wrappers

  // ---------------------------------------------------------------------------
  // Decimal digits (the `\d+` group, `parseInt(…, 10)` and `${id}`)
  // ---------------------------------------------------------------------------

  /** `\d` without the `u` flag: the ASCII digits only. */
  predicate IsDigit(c: char) { '0' <= c <= '9' }

  predicate AllDigits(s: string) { forall i :: 0 <= i < |s| ==> IsDigit(s[i]) }

  /** A digit string without superfluous leading zeros, as a number prints. */
  predicate Canonical(s: string) { |s| >= 1 && (|s| > 1 ==> s[0] != '0') }

  function DigitChar(d: nat): (c: char)
    requires d < 10
    ensures IsDigit(c)
  {
    (('0' as int) + d) as char
  }

  function DigitValue(c: char): (d: nat)
    requires IsDigit(c)
    ensures d < 10 && DigitChar(d) == c
  {
    (c as int) - ('0' as int)
  }

  /** The base-10 value of a digit string, most significant digit first. */
  function DigitsValue(s: string): (v: nat)
    requires AllDigits(s)
    ensures v == 0 <==> forall i :: 0 <= i < |s| ==> s[i] == '0'
  {
    if s == [] then 0 else DigitsValue(s[..|s| - 1]) * 10 + DigitValue(s[|s| - 1])
  }

  /** The decimal text of a natural number. */
  function NatToString(n: nat): (r: string)
    ensures AllDigits(r) && Canonical(r)
    ensures DigitsValue(r) == n
  {
    if n < 10 then [DigitChar(n)]
    else
      var prefix := NatToString(n / 10);
      var r := prefix + [DigitChar(n % 10)];
      assert r[..|r| - 1] == prefix;
      r
  }

  /** The text of an integer in a template literal: a minus sign, then the digits. */
  function IntToString(id: int): (r: string)
    ensures id >= 0 ==> r == NatToString(id)
    ensures id < 0 ==> |r| >= 2 && r[0] == '-' && r[1..] == NatToString(-id)
  {
    if id >= 0 then NatToString(id) else "-" + NatToString(-id)
  }

  /** A canonical digit string is the text of its own value. */
  lemma {:induction false} CanonicalDigitsRoundTrip(s: string)
    requires AllDigits(s) && Canonical(s)
    ensures NatToString(DigitsValue(s)) == s
  {
    var p := s[..|s| - 1];
    if |s| > 1 {
      assert AllDigits(p) && Canonical(p) && p[0] == s[0];
      LeadingDigitPositive(p);
      CanonicalDigitsRoundTrip(p);
      assert s == p + [s[|s| - 1]];
    }
  }

  lemma {:induction false} LeadingDigitPositive(s: string)
    requires AllDigits(s) && |s| >= 1 && s[0] != '0'
    ensures DigitsValue(s) >= 1
  {
    if |s| > 1 {
      LeadingDigitPositive(s[..|s| - 1]);
    }
  }

  // ---------------------------------------------------------------------------
  // Channel strings
  // ---------------------------------------------------------------------------

  const ChannelPrefix := "chatrooms."
  const ChannelSuffix := ".v2"

  /** The channel name the subscribe command carries: `chatrooms.${channelId}.v2`. */
  function FormatChannel(id: int): (r: string)
    ensures |r| > |ChannelPrefix| + |ChannelSuffix|
    ensures r[..|ChannelPrefix|] == ChannelPrefix
    ensures r[|r| - |ChannelSuffix|..] == ChannelSuffix
    ensures r[|ChannelPrefix|..|r| - |ChannelSuffix|] == IntToString(id)
  {
    var r := ChannelPrefix + IntToString(id) + ChannelSuffix;
    assert r[..|ChannelPrefix|] == ChannelPrefix;
    assert r[|r| - |ChannelSuffix|..] == ChannelSuffix;
    assert r[|ChannelPrefix|..|r| - |ChannelSuffix|] == IntToString(id);
    r
  }

  /** The line terminators of ECMAScript, at which `^` and `$` match under the `m` flag. */
  predicate IsLineTerminator(c: char)
  {
    c == '\n' || c == '\r' || c == (0x2028 as char) || c == (0x2029 as char)
  }

  predicate SingleLine(s: string) { forall i :: 0 <= i < |s| ==> !IsLineTerminator(s[i]) }

  /** Index of the first line terminator of `s`, or `|s|` when there is none. */
  function LineEnd(s: string): (i: nat)
    ensures i <= |s|
    ensures i < |s| ==> IsLineTerminator(s[i])
    ensures SingleLine(s[..i])
  {
    if s == [] then 0
    else if IsLineTerminator(s[0]) then 0
    else
      var j := LineEnd(s[1..]);
      assert s[..j + 1] == [s[0]] + s[1..][..j];
      j + 1
  }

  /** The regex `^chatrooms\.(\d+)\.v2$` against one whole line. */
  function MatchLine(line: string): (r: Option<nat>)
    ensures r.Some? ==> SingleLine(line)
    ensures r.Some? ==>
      |line| > |ChannelPrefix| + |ChannelSuffix|
      && line[..|ChannelPrefix|] == ChannelPrefix
      && line[|line| - |ChannelSuffix|..] == ChannelSuffix
      && AllDigits(line[|ChannelPrefix|..|line| - |ChannelSuffix|])
      && r.value == DigitsValue(line[|ChannelPrefix|..|line| - |ChannelSuffix|])
  {
    var lo, hi := |ChannelPrefix|, |line| - |ChannelSuffix|;
    if |line| > |ChannelPrefix| + |ChannelSuffix|
       && line[..lo] == ChannelPrefix
       && line[hi..] == ChannelSuffix
       && AllDigits(line[lo..hi])
    then
      assert SingleLine(line) by {
        assert line == line[..lo] + line[lo..hi] + line[hi..];
        assert SingleLine(ChannelPrefix) && SingleLine(ChannelSuffix);
        SingleLineAppend(line[..lo], line[lo..hi]);
        SingleLineAppend(line[..lo] + line[lo..hi], line[hi..]);
      }
      Some(DigitsValue(line[lo..hi]))
    else None
  }

  /** `channel[i..j]` is a whole line: it starts and ends at line boundaries and holds no terminator. */
  predicate IsLineAt(channel: string, i: int, j: int)
  {
    0 <= i <= j <= |channel|
    && (i == 0 || IsLineTerminator(channel[i - 1]))
    && (j == |channel| || IsLineTerminator(channel[j]))
    && SingleLine(channel[i..j])
  }

  /**
   * `parseInt(channel.match(/^chatrooms\.(\d+)\.v2$/m)[1])`, or None when the
   * regex does not match. With the `m` flag the anchors hold at every line
   * boundary, and `\d+` cannot cross one, so a match is a whole line of the
   * pattern; `match` reports the leftmost, that is the first such line.
   */
  function ParseRoomId(channel: string): (r: Option<nat>)
    ensures SingleLine(channel) ==> r == MatchLine(channel)
    ensures r.Some? ==> exists i, j :: IsLineAt(channel, i, j) && MatchLine(channel[i..j]) == r
    decreases |channel|
  {
    var i := LineEnd(channel);
    if i == |channel| then
      assert channel[0..|channel|] == channel;
      assert IsLineAt(channel, 0, |channel|);
      MatchLine(channel)
    else
      assert !SingleLine(channel) by {
        assert IsLineTerminator(channel[i]);
      }
      match MatchLine(channel[..i])
      case Some(n) =>
        assert channel[0..i] == channel[..i];
        assert IsLineAt(channel, 0, i);
        Some(n)
      case None =>
        var rest := channel[i + 1..];
        var r := ParseRoomId(rest);
        assert r.Some? ==> exists a, b :: IsLineAt(channel, a, b) && MatchLine(channel[a..b]) == r by {
          if r.Some? {
            var a, b :| IsLineAt(rest, a, b) && MatchLine(rest[a..b]) == r;
            assert channel[i + 1 + a..i + 1 + b] == rest[a..b];
            assert IsLineAt(channel, i + 1 + a, i + 1 + b);
          }
        }
        r
  }

  /** On a single line the regex matches the whole string or nothing. */
  lemma SingleLineParse(s: string)
    requires SingleLine(s)
    ensures ParseRoomId(s) == MatchLine(s)
  {
    assert LineEnd(s) == |s|;
  }

  /** The first line terminator of `line + [t] + rest`, for a single line `line`, is `t`. */
  lemma {:induction false} LineEndAfterLine(line: string, t: char, rest: string)
    requires SingleLine(line) && IsLineTerminator(t)
    ensures LineEnd(line + [t] + rest) == |line|
  {
    var s := line + [t] + rest;
    if line != [] {
      assert s[1..] == line[1..] + [t] + rest;
      LineEndAfterLine(line[1..], t, rest);
    }
  }

  /** A first line that matches decides the result, whatever follows it. */
  lemma FirstLineMatches(line: string, t: char, rest: string)
    requires SingleLine(line) && IsLineTerminator(t) && MatchLine(line).Some?
    ensures ParseRoomId(line + [t] + rest) == MatchLine(line)
  {
    var s := line + [t] + rest;
    LineEndAfterLine(line, t, rest);
    assert s[..|line|] == line;
  }

  /** A first line that does not match is skipped: the search goes on after its terminator. */
  lemma FirstLineSkipped(line: string, t: char, rest: string)
    requires SingleLine(line) && IsLineTerminator(t) && MatchLine(line).None?
    ensures ParseRoomId(line + [t] + rest) == ParseRoomId(rest)
  {
    var s := line + [t] + rest;
    LineEndAfterLine(line, t, rest);
    assert s[..|line|] == line;
    assert s[|line| + 1..] == rest;
  }

  lemma SingleLineAppend(a: string, b: string)
    requires SingleLine(a) && (SingleLine(b) || AllDigits(b))
    ensures SingleLine(a + b)
  {
    forall i | 0 <= i < |a + b| ensures !IsLineTerminator((a + b)[i]) {
      if i >= |a| {
        assert (a + b)[i] == b[i - |a|];
      }
    }
  }

  lemma ChannelNameSingleLine(middle: string)
    requires SingleLine(middle) || AllDigits(middle)
    ensures SingleLine(ChannelPrefix + middle + ChannelSuffix)
  {
    assert SingleLine(ChannelPrefix) && SingleLine(ChannelSuffix);
    SingleLineAppend(ChannelPrefix, middle);
    SingleLineAppend(ChannelPrefix + middle, ChannelSuffix);
  }

  /** `chatrooms.<digits>.v2` parses to the base-10 value of the digits. */
  lemma ParseChannelName(digits: string)
    requires AllDigits(digits) && |digits| >= 1
    ensures ParseRoomId(ChannelPrefix + digits + ChannelSuffix) == Some(DigitsValue(digits))
  {
    var s := ChannelPrefix + digits + ChannelSuffix;
    ChannelNameSingleLine(digits);
    SingleLineParse(s);
    assert s[..|ChannelPrefix|] == ChannelPrefix;
    assert s[|s| - |ChannelSuffix|..] == ChannelSuffix;
    assert s[|ChannelPrefix|..|s| - |ChannelSuffix|] == digits;
  }

  /** Conversely, a single line that parses is `chatrooms.<digits>.v2` and yields their value. */
  lemma ParsedLineShape(s: string)
    requires SingleLine(s) && ParseRoomId(s).Some?
    ensures |s| > |ChannelPrefix| + |ChannelSuffix|
    ensures s == ChannelPrefix + s[|ChannelPrefix|..|s| - |ChannelSuffix|] + ChannelSuffix
    ensures AllDigits(s[|ChannelPrefix|..|s| - |ChannelSuffix|])
    ensures ParseRoomId(s).value == DigitsValue(s[|ChannelPrefix|..|s| - |ChannelSuffix|])
  {
    SingleLineParse(s);
    MatchedLineShape(s);
  }

  lemma MatchedLineShape(s: string)
    requires MatchLine(s).Some?
    ensures |s| > |ChannelPrefix| + |ChannelSuffix|
    ensures s == ChannelPrefix + s[|ChannelPrefix|..|s| - |ChannelSuffix|] + ChannelSuffix
    ensures AllDigits(s[|ChannelPrefix|..|s| - |ChannelSuffix|])
    ensures MatchLine(s).value == DigitsValue(s[|ChannelPrefix|..|s| - |ChannelSuffix|])
  {
    var lo, hi := |ChannelPrefix|, |s| - |ChannelSuffix|;
    assert s[..lo] == ChannelPrefix && s[hi..] == ChannelSuffix;
    assert s == s[..lo] + s[lo..hi] + s[hi..];
  }

  /** The channel a subscribe names is recognised by the confirmation regex as the same id. */
  lemma {:induction false} FormatParseRoundTrip(n: nat)
    ensures ParseRoomId(FormatChannel(n)) == Some(n)
  {
    ParseChannelName(NatToString(n));
    assert FormatChannel(n) == ChannelPrefix + NatToString(n) + ChannelSuffix;
  }

  /** A negative id formats with a minus sign, which `\d+` rejects: it can never be confirmed. */
  lemma NegativeIdNeverParses(id: int)
    requires id < 0
    ensures ParseRoomId(FormatChannel(id)) == None
  {
    var s := FormatChannel(id);
    var lo, hi := |ChannelPrefix|, |s| - |ChannelSuffix|;
    assert s[lo] == IntToString(id)[0] == '-';
    var text := IntToString(id);
    assert text == [text[0]] + text[1..];
    assert SingleLine([text[0]]);
    SingleLineAppend([text[0]], text[1..]);
    assert s == ChannelPrefix + text + ChannelSuffix;
    ChannelNameSingleLine(text);
    SingleLineParse(s);
    assert !IsDigit(s[lo..hi][0]);
  }

  /**
   * The reverse round trip holds exactly for canonical digits: a single line
   * that parses to `n` is `FormatChannel(n)` if and only if its digits carry
   * no leading zero (`chatrooms.07.v2` parses to 7, which formats as `chatrooms.7.v2`).
   */
  lemma {:induction false} ParseFormatRoundTrip(s: string)
    requires SingleLine(s) && ParseRoomId(s).Some?
    ensures FormatChannel(ParseRoomId(s).value) == s
        <==> Canonical(s[|ChannelPrefix|..|s| - |ChannelSuffix|])
  {
    ParsedLineShape(s);
    var digits := s[|ChannelPrefix|..|s| - |ChannelSuffix|];
    var n := ParseRoomId(s).value;
    var formatted := FormatChannel(n);
    assert formatted[|ChannelPrefix|..|formatted| - |ChannelSuffix|] == NatToString(n);
    if formatted == s {
      assert digits == NatToString(n);
    }
    if Canonical(digits) {
      CanonicalDigitsRoundTrip(digits);
      assert formatted == ChannelPrefix + NatToString(n) + ChannelSuffix;
    }
  }

  /** The leading-zero counterexample, concretely: `chatrooms.07.v2` parses to 7, which formats as `chatrooms.7.v2`. */
  lemma LeadingZeroCounterexample()
    ensures ParseRoomId(ChannelPrefix + "07" + ChannelSuffix) == Some(7)
    ensures FormatChannel(7) != ChannelPrefix + "07" + ChannelSuffix
  {
    var s := ChannelPrefix + "07" + ChannelSuffix;
    ParseChannelName("07");
    assert DigitsValue("07") == 7 by {
      assert "07"[..1] == "0";
    }
    assert s[|ChannelPrefix|..|s| - |ChannelSuffix|] == "07";
    ParseFormatRoundTrip(s);
  }

  // ---------------------------------------------------------------------------
  // Inbound frames
  // ---------------------------------------------------------------------------

  const SubscriptionSucceeded := "pusher_internal:subscription_succeeded"

  /** A property of the decoded JSON object: absent, a string, or another JSON value. */
  datatype Field = Missing | Text(s: string) | NonText(truthy: bool)

  /**
   * An inbound websocket frame after `JSON.parse`: text that is not JSON, the
   * value `null`, or another JSON value with its `event` and `channel`
   * properties (a number, array or string yields Missing for both).
   */
  datatype Frame = NotJson | JsonNull | JsonValue(event: Field, channel: Field)

  /** What the message handler makes of a frame. */
  datatype FrameOutcome =
    | Ignored              // returns without emitting
    | Confirmed(id: nat)   // emits `channel_connect` with the room id
    | Throws               // `data.event` on null, or `.match` on a non-string: a TypeError

  /** JavaScript truthiness of a property value. */
  predicate Truthy(f: Field)
  {
    match f
    case Missing => false
    case Text(s) => s != ""
    case NonText(t) => t
  }

  /** The subscription-succeeded branch of the websocket message handler. */
  function DecodeFrame(f: Frame): (r: FrameOutcome)
    ensures f.NotJson? ==> r == Ignored
    ensures f.JsonValue? && f.event != Text(SubscriptionSucceeded) ==> r == Ignored
    ensures f.JsonValue? && !Truthy(f.channel) ==> r == Ignored
    ensures r.Confirmed? <==>
      f.JsonValue? && f.event == Text(SubscriptionSucceeded)
      && f.channel.Text? && ParseRoomId(f.channel.s).Some?
    ensures r.Confirmed? ==> ParseRoomId(f.channel.s) == Some(r.id)
    ensures r.Throws? <==>
      f.JsonNull?
      || (f.JsonValue? && f.event == Text(SubscriptionSucceeded)
          && f.channel.NonText? && f.channel.truthy)
  {
    match f
    case NotJson => Ignored
    case JsonNull => Throws
    case JsonValue(event, channel) =>
      if event == Text(SubscriptionSucceeded) && Truthy(channel) then
        match channel
        case Text(s) =>
          (match ParseRoomId(s)
           case Some(id) => Confirmed(id)
           case None => Ignored)
        case _ => Throws
      else Ignored
  }

  // ---------------------------------------------------------------------------
  // Outbound command and the id check
  // ---------------------------------------------------------------------------

  const SubscribeEvent := "pusher:subscribe"

  datatype SubscribeData = SubscribeData(channel: string, auth: Option<string>)

  /** One command sent upstream, before `JSON.stringify`. */
  datatype Command = Command(event: string, data: SubscribeData)

  /** The subscribe command for a room: `auth` is `null`, and a confirmation naming its channel confirms the room. */
  function SubscribeCommand(id: int): (cmd: Command)
    ensures cmd.event == SubscribeEvent && cmd.data.auth == None
    ensures cmd.data.channel == FormatChannel(id)
    ensures id >= 0 ==> ParseRoomId(cmd.data.channel) == Some(id)
    ensures id < 0 ==> ParseRoomId(cmd.data.channel) == None
  {
    var cmd := Command(SubscribeEvent, SubscribeData(FormatChannel(id), None));
    assert id >= 0 ==> ParseRoomId(cmd.data.channel) == Some(id) by {
      if id >= 0 { FormatParseRoundTrip(id); }
    }
    assert id < 0 ==> ParseRoomId(cmd.data.channel) == None by {
      if id < 0 { NegativeIdNeverParses(id); }
    }
    cmd
  }

  const MissingIdError := "Missing 'id' field in response"

  /**
   * The guard of `connectToChannel`: `if (!id) throw …`. The channel lookup is
   * an oracle yielding the `id` property of its response, if any.
   */
  function CheckId(id: Option<int>): (r: Result<int, string>)
    ensures r.Ok? <==> id.Some? && id.value != 0
    ensures r.Ok? ==> r.value == id.value
    ensures r.Err? ==> r.error == MissingIdError
  {
    if id.Some? && id.value != 0 then Ok(id.value) else Err(MissingIdError)
  }
}
