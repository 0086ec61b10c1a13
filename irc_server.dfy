/**
 * The membership side of src/irc/IrcServer.ts: each connected client keeps
 * the set of channels it joined, and the server keeps the reverse index from
 * channel name to the set of clients in it. Socket writes are kept, per
 * client, as the sequence of strings written.
 */
module IrcServer {
  import opened IrcProtocol

  // ---------------------------------------------------------------------------
  // The reverse index as a value
  // ---------------------------------------------------------------------------

  /** Every channel present in the index has at least one member. */
  predicate NonEmptyValues<C>(m: map<string, set<C>>)
  {
    forall ch :: ch in m ==> m[ch] != {}
  }

  /** `channelMap.get(ch)`, with no entry read as no members. */
  function Members<C>(m: map<string, set<C>>, ch: string): set<C>
  {
    if ch in m then m[ch] else {}
  }

  /** The index after `joinChannel(c, ch)`: the entry is created if missing, then `c` added. */
  function IndexAfterJoin<C(==)>(m: map<string, set<C>>, c: C, ch: string): (r: map<string, set<C>>)
    ensures r.Keys == m.Keys + {ch}
    ensures r[ch] == Members(m, ch) + {c}
    ensures forall k :: k in m && k != ch ==> r[k] == m[k]
    ensures NonEmptyValues(m) ==> NonEmptyValues(r)
    ensures c in Members(m, ch) ==> r == m
  {
    var entry := if ch in m then m[ch] else {};
    var r := m[ch := entry + {c}];
    assert c in Members(m, ch) ==> r == m by {
      if c in Members(m, ch) {
        assert entry + {c} == m[ch];
      }
    }
    r
  }

  /**
   * The index after `partChannel(c, ch)`: `c` leaves the entry, and an entry
   * left empty is deleted; without an entry nothing changes.
   */
  function IndexAfterPart<C(==)>(m: map<string, set<C>>, c: C, ch: string): (r: map<string, set<C>>)
    ensures c !in Members(r, ch)
    ensures ch in r <==> Members(m, ch) - {c} != {}
    ensures ch in r ==> r[ch] == m[ch] - {c}
    ensures forall k :: k != ch ==> (k in r <==> k in m) && (k in m ==> r[k] == m[k])
    ensures NonEmptyValues(m) ==> NonEmptyValues(r)
    ensures ch !in m ==> r == m
  {
    if ch !in m then m
    else if m[ch] - {c} == {} then m - {ch}
    else m[ch := m[ch] - {c}]
  }

  /** Parting undoes joining, for a client that was not in the channel. */
  lemma JoinThenPart<C>(m: map<string, set<C>>, c: C, ch: string)
    requires NonEmptyValues(m) && c !in Members(m, ch)
    ensures IndexAfterPart(IndexAfterJoin(m, c, ch), c, ch) == m
  {
    var joined := IndexAfterJoin(m, c, ch);
    var parted := IndexAfterPart(joined, c, ch);
    assert joined[ch] - {c} == Members(m, ch);
    if ch in m {
      assert m[ch] != {};
      assert parted == joined[ch := m[ch]];
    } else {
      assert parted == joined - {ch};
    }
    assert parted.Keys == m.Keys;
  }

  // ---------------------------------------------------------------------------
  // The server
  // ---------------------------------------------------------------------------

  /** One connection: the `Client` record. */
  class Client {
    var nick: string
    var channels: set<string>
    /** What was written to this client's socket, one entry per `socket.write`. */
    var written: seq<string>

    constructor ()
      ensures nick == "anon" && channels == {} && written == []
    {
      nick := "anon";
      channels := {};
      written := [];
    }
  }

  class IrcServer {
    var clients: seq<Client>
    var channelMap: map<string, set<Client>>

    /**
     * The index holds no empty entry, its members are connected clients, and
     * each client's channel set is the inverse view of the index.
     */
    ghost predicate Valid()
      reads this, clients
    {
      NonEmptyValues(channelMap)
      && (forall ch, c :: ch in channelMap && c in channelMap[ch] ==> c in clients)
      && (forall c, ch :: c in clients ==> (ch in c.channels <==> c in Members(channelMap, ch)))
    }

    /** The listening socket, host and port, and the echo timer are not modelled. */
    constructor ()
      ensures Valid() && clients == [] && channelMap == map[]
    {
      clients := [];
      channelMap := map[];
    }

    /** `joinChannel`: `ch` is added to the client's set and the client to the index entry. */
    method JoinChannel(c: Client, ch: string)
      requires Valid() && c in clients
      modifies this`channelMap, c`channels
      ensures Valid() && clients == old(clients)
      ensures c.channels == old(c.channels) + {ch}
      ensures channelMap == IndexAfterJoin(old(channelMap), c, ch)
      ensures old(ch in c.channels) ==> c.channels == old(c.channels) && channelMap == old(channelMap)
    {
      c.channels := c.channels + {ch};
      if ch !in channelMap {
        channelMap := channelMap[ch := {}];
      }
      channelMap := channelMap[ch := channelMap[ch] + {c}];
      forall d, k | d in clients
        ensures k in d.channels <==> d in Members(channelMap, k)
      {
        assert old(k in d.channels <==> d in Members(channelMap, k));
        if k != ch {
          assert Members(channelMap, k) == Members(old(channelMap), k);
        }
        if d != c {
          assert d.channels == old(d.channels);
        }
      }
    }

    /**
     * `partChannel`: `ch` leaves the client's set and the client leaves the
     * index entry, which is deleted once empty.
     */
    method PartChannel(c: Client, ch: string)
      requires Valid()
      modifies this`channelMap, c`channels
      ensures Valid() && clients == old(clients)
      ensures c.channels == old(c.channels) - {ch}
      ensures channelMap == IndexAfterPart(old(channelMap), c, ch)
    {
      c.channels := c.channels - {ch};
      if ch in channelMap {
        var rest := channelMap[ch] - {c};
        channelMap := channelMap[ch := rest];
        if |rest| == 0 {
          channelMap := channelMap - {ch};
        }
      }
      forall d, k | d in clients
        ensures k in d.channels <==> d in Members(channelMap, k)
      {
        assert old(k in d.channels <==> d in Members(channelMap, k));
        if k != ch {
          assert Members(channelMap, k) == Members(old(channelMap), k);
        }
        if d != c {
          assert d.channels == old(d.channels);
        }
      }
    }

    /** `handleConnection`: a fresh anonymous client with no channels, greeted with the welcome text. */
    method HandleConnection() returns (c: Client)
      requires Valid()
      modifies this
      ensures Valid() && fresh(c)
      ensures clients == old(clients) + [c] && channelMap == old(channelMap)
      ensures c.nick == "anon" && c.channels == {} && c.written == [Welcome]
    {
      c := new Client();
      clients := clients + [c];
      c.written := c.written + [Welcome];
    }

    /**
     * The `data` handler of a connection: a chunk starting `JOIN #` or `PART #`
     * writes the first reply, joins or parts, then writes the second; any
     * other chunk does nothing.
     */
    method HandleData(c: Client, chunk: string)
      requires Valid() && c in clients
      modifies this`channelMap, c`channels, c`written
      ensures Valid() && clients == old(clients) && c.nick == old(c.nick)
      ensures c.written == old(c.written) + Replies(ParseChunk(chunk))
      ensures ParseChunk(chunk).Join? ==>
        c.channels == old(c.channels) + {ParseChunk(chunk).channel}
        && channelMap == IndexAfterJoin(old(channelMap), c, ParseChunk(chunk).channel)
      ensures ParseChunk(chunk).Part? ==>
        c.channels == old(c.channels) - {ParseChunk(chunk).channel}
        && channelMap == IndexAfterPart(old(channelMap), c, ParseChunk(chunk).channel)
      ensures ParseChunk(chunk).NoRequest? ==>
        c.channels == old(c.channels) && channelMap == old(channelMap)
    {
      var req := ParseChunk(chunk);
      var replies := Replies(req);
      match req
      case Join(ch) =>
        c.written := c.written + [replies[0]];
        JoinChannel(c, ch);
        c.written := c.written + [replies[1]];
      case Part(ch) =>
        c.written := c.written + [replies[0]];
        PartChannel(c, ch);
        c.written := c.written + [replies[1]];
      case NoRequest =>
    }
  }

  /** A client connects and sends `JOIN #xqc` with CR LF: it is greeted, told twice, and is the channel's one member. */
  method JoinScenario() returns (server: IrcServer, c: Client)
    ensures fresh(server) && fresh(c) && server.Valid()
    ensures server.clients == [c] && server.channelMap == map["xqc" := {c}]
    ensures c.channels == {"xqc"}
    ensures c.written == [Welcome, "Joining #xqc ...\r\n", "Joined #xqc !\r\n"]
  {
    server := new IrcServer();
    c := server.HandleConnection();
    assert IsToken("xqc") && OnlyCrLf("\r\n");
    ParseOneRequest(JoinPrefix, "xqc", "\r\n", []);
    var chunk := JoinPrefix + "xqc" + "\r\n" + [];
    assert chunk == "JOIN #xqc\r\n";
    assert ParseChunk(chunk) == Join("xqc");
    server.HandleData(c, chunk);
    assert server.channelMap == IndexAfterJoin(map[], c, "xqc");
    assert server.channelMap.Keys == {"xqc"} && server.channelMap["xqc"] == {c};
    assert "Joining #" + "xqc" == "Joining #xqc";
    assert "Joining #xqc" + " ...\r\n" == "Joining #xqc ...\r\n";
    assert "Joined #" + "xqc" == "Joined #xqc";
    assert "Joined #xqc" + " !\r\n" == "Joined #xqc !\r\n";
  }
}
