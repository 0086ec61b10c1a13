/**
 * The pure side of the line-protocol server of src/irc/IrcServer.ts: how a
 * data chunk is recognised as a JOIN or PART request, how the channel token is
 * cut out of it, and the reply lines written back.
 *
 * The commands loosely follow JOIN and PART of RFC 2812 (sections 3.2.1 and
 * 3.2.2), and replies end in CR LF as RFC 1459 (section 2.3) asks, but the
 * recognition is by prefix of the whole chunk, not by a message grammar.
 */
module IrcProtocol {

  const JoinPrefix := "JOIN #"
  const PartPrefix := "PART #"

  const Welcome := "Connected to proxy!\r\nType /raw JOIN #channel to connect to a channel!\r\n"

  predicate StartsWith(s: string, prefix: string)
  {
    |prefix| <= |s| && s[..|prefix|] == prefix
  }

  predicate IsCrOrLf(c: char) { c == '\r' || c == '\n' }

  predicate NoCrLf(s: string) { forall i :: 0 <= i < |s| ==> !IsCrOrLf(s[i]) }

  predicate NoSpace(s: string) { forall i :: 0 <= i < |s| ==> s[i] != ' ' }

  predicate OnlyCrLf(s: string) { forall i :: 0 <= i < |s| ==> IsCrOrLf(s[i]) }

  /** No space, CR or LF anywhere in `s`. */
  predicate IsToken(s: string) { NoSpace(s) && NoCrLf(s) }

  /** `s.split(" ")[0]`: the text before the first space, or all of `s`. */
  function UpToSpace(s: string): (r: string)
    ensures |r| <= |s| && r == s[..|r|]
    ensures NoSpace(r)
    ensures |r| < |s| ==> s[|r|] == ' '
  {
    if s == [] || s[0] == ' ' then []
    else
      var tail := UpToSpace(s[1..]);
      assert [s[0]] + tail == s[..|tail| + 1];
      [s[0]] + tail
  }

  /** `s.replace(/\r|\n/gi, "")`: every CR and LF removed, everything else kept in order. */
  function StripCrLf(s: string): (r: string)
    ensures |r| <= |s|
    ensures NoCrLf(r)
    ensures NoSpace(s) ==> NoSpace(r)
    ensures NoCrLf(s) ==> r == s
  {
    if s == [] then []
    else
      var tail := StripCrLf(s[1..]);
      assert s == [s[0]] + s[1..];
      if IsCrOrLf(s[0]) then tail else [s[0]] + tail
  }

  /** What a data chunk asks for. */
  datatype Request = Join(channel: string) | Part(channel: string) | NoRequest

  /**
   * The channel token of a JOIN or PART chunk. Both branches of the data
   * handler cut at `"JOIN #".length`, which is also the length of `"PART #"`.
   */
  function ChannelToken(chunk: string): (r: string)
    requires |chunk| >= |JoinPrefix|
    ensures IsToken(r)
    ensures |r| <= |chunk| - |JoinPrefix|
  {
    StripCrLf(UpToSpace(chunk[|JoinPrefix|..]))
  }

  /** The data handler's dispatch on the start of the chunk. */
  function ParseChunk(chunk: string): (r: Request)
    ensures r.Join? <==> StartsWith(chunk, JoinPrefix)
    ensures r.Part? <==> !StartsWith(chunk, JoinPrefix) && StartsWith(chunk, PartPrefix)
    ensures !r.NoRequest? ==> IsToken(r.channel) && r.channel == ChannelToken(chunk)
  {
    if StartsWith(chunk, JoinPrefix) then Join(ChannelToken(chunk))
    else if StartsWith(chunk, PartPrefix) then Part(ChannelToken(chunk))
    else NoRequest
  }

  /** One reply line: CR LF at its end and nowhere else. */
  predicate IsCrLfLine(line: string)
  {
    |line| >= 2 && line[|line| - 2..] == "\r\n"
    && NoCrLf(line[..|line| - 2])
  }

  /** The two lines written around a JOIN or PART, in order; nothing for other chunks. */
  function Replies(req: Request): (r: seq<string>)
    ensures req.NoRequest? <==> r == []
    ensures req.Join? ==> r == ["Joining #" + req.channel + " ...\r\n", "Joined #" + req.channel + " !\r\n"]
    ensures req.Part? ==> r == ["Parting #" + req.channel + " ...\r\n", "Parted #" + req.channel + " !\r\n"]
  {
    match req
    case Join(ch) => ["Joining #" + ch + " ...\r\n", "Joined #" + ch + " !\r\n"]
    case Part(ch) => ["Parting #" + ch + " ...\r\n", "Parted #" + ch + " !\r\n"]
    case NoRequest => []
  }

  lemma CrLfLine(head: string, ch: string, tail: string)
    requires NoCrLf(head) && IsToken(ch) && NoCrLf(tail)
    ensures IsCrLfLine(head + ch + tail + "\r\n")
  {
    var line := head + ch + tail + "\r\n";
    assert line[..|line| - 2] == head + ch + tail;
    forall i | 0 <= i < |line| - 2 ensures !IsCrOrLf(line[i]) {
      if i < |head| {
        assert line[i] == head[i];
      } else if i < |head| + |ch| {
        assert line[i] == ch[i - |head|];
      } else {
        assert line[i] == tail[i - |head| - |ch|];
      }
    }
  }

  /** For a request with a token channel, every reply is exactly one CR LF terminated line. */
  lemma ReplyLines(req: Request)
    requires !req.NoRequest? ==> IsToken(req.channel)
    ensures forall line :: line in Replies(req) ==> IsCrLfLine(line)
  {
    if !req.NoRequest? {
      var ch := req.channel;
      assert NoCrLf(" ...") && NoCrLf(" !");
      if req.Join? {
        assert NoCrLf("Joining #") && NoCrLf("Joined #");
        CrLfLine("Joining #", ch, " ...");
        CrLfLine("Joined #", ch, " !");
      } else {
        assert NoCrLf("Parting #") && NoCrLf("Parted #");
        CrLfLine("Parting #", ch, " ...");
        CrLfLine("Parted #", ch, " !");
      }
    }
  }

  /** Whatever the chunk, every reply is exactly one CR LF terminated line. */
  lemma RepliesAreLines(chunk: string)
    ensures forall line :: line in Replies(ParseChunk(chunk)) ==> IsCrLfLine(line)
  {
    ReplyLines(ParseChunk(chunk));
  }

  lemma NoSpaceAppend(a: string, b: string)
    requires NoSpace(a) && NoSpace(b)
    ensures NoSpace(a + b)
  {
    forall i | 0 <= i < |a + b| ensures (a + b)[i] != ' ' {
      if i >= |a| { assert (a + b)[i] == b[i - |a|]; }
    }
  }

  /** Text without a space, followed by nothing or by a space, is all that `split(" ")[0]` keeps. */
  lemma {:induction false} UpToSpaceOfWord(word: string, rest: string)
    requires NoSpace(word)
    requires rest == [] || rest[0] == ' '
    ensures UpToSpace(word + rest) == word
  {
    if word != [] {
      assert (word + rest)[1..] == word[1..] + rest;
      UpToSpaceOfWord(word[1..], rest);
    } else {
      assert word + rest == rest;
    }
  }

  lemma {:induction false} StripCrLfAppend(a: string, b: string)
    ensures StripCrLf(a + b) == StripCrLf(a) + StripCrLf(b)
  {
    if a != [] {
      assert (a + b)[1..] == a[1..] + b;
      StripCrLfAppend(a[1..], b);
    } else {
      assert a + b == b;
    }
  }

  lemma {:induction false} StripCrLfOnlyBreaks(eol: string)
    requires OnlyCrLf(eol)
    ensures StripCrLf(eol) == []
  {
    if eol != [] {
      StripCrLfOnlyBreaks(eol[1..]);
    }
  }

  /**
   * A well-formed single request: prefix, a token, any CR/LF, then nothing or
   * a space and anything. The request names exactly the token, so
   * `JOIN #xqc\r\n` joins `xqc`.
   */
  lemma ParseOneRequest(prefix: string, name: string, eol: string, rest: string)
    requires prefix == JoinPrefix || prefix == PartPrefix
    requires IsToken(name) && OnlyCrLf(eol)
    requires rest == [] || rest[0] == ' '
    ensures ParseChunk(prefix + name + eol + rest)
         == (if prefix == JoinPrefix then Join(name) else Part(name))
  {
    var chunk := prefix + name + eol + rest;
    assert chunk[..|prefix|] == prefix;
    assert chunk[|JoinPrefix|..] == (name + eol) + rest;
    NoSpaceAppend(name, eol);
    UpToSpaceOfWord(name + eol, rest);
    StripCrLfAppend(name, eol);
    StripCrLfOnlyBreaks(eol);
    assert StripCrLf(name + eol) == name + [];
  }

  /**
   * Lines are not split: when a chunk holds a request, its line break and the
   * start of a next line up to its first space, the line break is dropped and
   * the token runs on, so `JOIN #a\r\nJOIN #b\r\n` joins `aJOIN`.
   */
  lemma RunOnRequests(prefix: string, name: string, eol: string, next: string, rest: string)
    requires prefix == JoinPrefix || prefix == PartPrefix
    requires IsToken(name) && OnlyCrLf(eol) && IsToken(next)
    requires rest == [] || rest[0] == ' '
    ensures ParseChunk(prefix + name + eol + next + rest)
         == (if prefix == JoinPrefix then Join(name + next) else Part(name + next))
  {
    var body := name + eol + next + rest;
    assert prefix + name + eol + next + rest == prefix + body;
    RunOnToken(name, eol, next, rest);
    PrefixedToken(prefix, body);
  }

  lemma RunOnToken(name: string, eol: string, next: string, rest: string)
    requires IsToken(name) && OnlyCrLf(eol) && IsToken(next)
    requires rest == [] || rest[0] == ' '
    ensures StripCrLf(UpToSpace(name + eol + next + rest)) == name + next
  {
    var head := name + eol;
    var word := head + next;
    assert name + eol + next + rest == word + rest;
    NoSpaceAppend(name, eol);
    NoSpaceAppend(head, next);
    UpToSpaceOfWord(word, rest);
    var strippedHead := StripCrLf(head);
    assert strippedHead == name by {
      StripCrLfAppend(name, eol);
      StripCrLfOnlyBreaks(eol);
      assert StripCrLf(name) == name;
      assert name + [] == name;
    }
    StripCrLfAppend(head, next);
    assert StripCrLf(next) == next;
  }

  /** The token of `prefix + body` is taken from `body`, for either prefix. */
  lemma PrefixedToken(prefix: string, body: string)
    requires prefix == JoinPrefix || prefix == PartPrefix
    ensures ParseChunk(prefix + body)
         == (if prefix == JoinPrefix then Join(StripCrLf(UpToSpace(body)))
             else Part(StripCrLf(UpToSpace(body))))
  {
    var chunk := prefix + body;
    assert chunk[..|prefix|] == prefix;
    assert chunk[|JoinPrefix|..] == body;
  }
}
