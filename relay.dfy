/** The downstream relay: the handler the WebSocket server runs for every
    browser connection. Each connection keeps the set of market ids it
    subscribed to, answers `subscribe`, `unsubscribe` and `place_bet` messages
    through the shared feed client, and on close unsubscribes every market in
    its set.

    A browser socket is reduced to the replies written on it (`outbox`). The
    `handleMarketUpdate` closure a connection registers is the value
    `Forwarder(conn, market)`; calling it is `Connection.Forward`. As in the
    feed client, each operation is first a function on snapshots (`Peer` for a
    connection, `Session` for the feed client) with lemmas, and then a method of
    the class `Connection` proved to follow it. */
module Relay {
  import opened Values
  import opened Tab

  type ConnId = nat

  /** The callback a connection registers for a market: it sends an
      `odds_update` for that market to that connection. */
  datatype Forwarder = Forwarder(conn: ConnId, market: MarketId)

  /** An inbound browser message after JSON.parse: a parse failure (with the
      exception's message), the value null, or a value with the properties the
      handler reads. `kind` is `type` when it is a string and None otherwise;
      `marketId` is None when absent. */
  datatype Request =
    | Unparsable(error: string)
    | NullRequest
    | Request(kind: Option<string>, marketId: Option<MarketId>,
              raceId: Value, horseId: Value, amount: Value, betType: Value)

  /** A message written to the browser. */
  datatype Reply =
    | SubscriptionConfirmed(marketId: MarketId)
    | UnsubscriptionConfirmed(marketId: MarketId)
    | OddsUpdate(fields: map<string, Value>)
    | BetResult(success: bool, betId: Value, raceId: Value, horseId: Value, message: string)
    | ErrorReply(message: string)

  const UnknownTypeMessage: string := "Unknown message type"
  const BetPlacedMessage: string := "Bet placed successfully"
  const BetFailedPrefix: string := "Failed to place bet: "

  /** `{ type: 'odds_update', raceId: marketId, ...updateData }` */
  function OddsUpdateFor(market: MarketId, data: Value): Reply
  {
    OddsUpdate(map["type" := Str("odds_update"), "raceId" := Str(market)] + Spread(data))
  }

  /** The forwarded update carries every payload property with its value, and
      carries `type: 'odds_update'` and `raceId` equal to the subscribed market
      unless the payload has a property of the same name, which then wins. */
  lemma OddsUpdateFields(market: MarketId, data: Value)
    ensures var fields := OddsUpdateFor(market, data).fields;
      && fields.Keys == {"type", "raceId"} + Spread(data).Keys
      && (forall k :: k in Spread(data) ==> fields[k] == Spread(data)[k])
      && ("type" !in Spread(data) ==> fields["type"] == Str("odds_update"))
      && ("raceId" !in Spread(data) ==> fields["raceId"] == Str(market))
  {
  }

  /** The bet the handler POSTs: `betType` falls back to 'win' when falsy. */
  function BetFor(raceId: Value, horseId: Value, amount: Value, betType: Value): (bet: Bet)
    ensures bet.raceId == raceId && bet.selectionId == horseId && bet.stake == amount
    ensures Truthy(betType) ==> bet.betType == betType
    ensures !Truthy(betType) ==> bet.betType == Str("win")
  {
    Bet(raceId, horseId, amount, Or(betType, Str("win")))
  }

  /** The `bet_result` for what `placeBet` returned or threw. Reading `betId`
      off a null or undefined response throws inside the same `try`, so it is
      reported as a failure too. */
  function BetReply(result: Result<Value>, raceId: Value, horseId: Value, now: int): (r: Reply)
    ensures r.BetResult? && r.raceId == raceId && r.horseId == horseId
    ensures r.success <==> result.Ok? && !result.value.Null? && !result.value.Undefined?
    ensures r.success ==> r.message == BetPlacedMessage && Truthy(r.betId)
    ensures r.success && Truthy(ReadProperty(result.value, "betId").value) ==>
      r.betId == ReadProperty(result.value, "betId").value
    ensures r.success && !Truthy(ReadProperty(result.value, "betId").value) ==>
      r.betId == Str("bet_" + IntToDecimal(now))
    ensures result.Err? ==> r == BetResult(false, Undefined, raceId, horseId, BetFailedPrefix + result.message)
    ensures !r.success ==> r.betId == Undefined && BetFailedPrefix <= r.message
  {
    match result
    case Err(message) => BetResult(false, Undefined, raceId, horseId, BetFailedPrefix + message)
    case Ok(data) =>
      match ReadProperty(data, "betId")
      case Err(message) => BetResult(false, Undefined, raceId, horseId, BetFailedPrefix + message)
      case Ok(betId) =>
        BetResult(true, Or(betId, Str("bet_" + IntToDecimal(now))), raceId, horseId, BetPlacedMessage)
  }

  /** A snapshot of one connection: its id, its `subscriptions` set (in
      insertion order, the order a JavaScript Set iterates in) and the replies it
      has sent. */
  datatype Peer = Peer(id: ConnId, subscriptions: seq<MarketId>, outbox: seq<Reply>)

  /** `subscriptions.add(m)` */
  function AddMarket(ms: seq<MarketId>, m: MarketId): (r: seq<MarketId>)
    ensures forall x :: x in r <==> x in ms || x == m
    ensures Distinct(ms) ==> Distinct(r)
  {
    if m in ms then ms
    else
      assert forall i :: 0 <= i < |ms| ==> (ms + [m])[i] == ms[i];
      ms + [m]
  }

  /** A truthy `marketId`. */
  predicate HasMarket(marketId: Option<MarketId>)
  {
    marketId.Some? && marketId.value != ""
  }

  /** The message handler, as a function of the connection and the feed client:
      the new connection and the new feed client. */
  function HandleRequest(p: Peer, s: Session<Forwarder>, req: Request, now: int, ex: Exchange, post: Post)
    : (Peer, Session<Forwarder>)
  {
    match req
    case Unparsable(error) => (p.(outbox := p.outbox + [ErrorReply(error)]), s)
    case NullRequest => (p.(outbox := p.outbox + [ErrorReply(NullReadMessage(Null, "type"))]), s)
    case Request(kind, marketId, raceId, horseId, amount, betType) =>
      if kind == Some("subscribe") then
        if HasMarket(marketId) then
          var m := marketId.value;
          (p.(subscriptions := AddMarket(p.subscriptions, m), outbox := p.outbox + [SubscriptionConfirmed(m)]),
           AfterSubscribe(s, m, Forwarder(p.id, m), now, ex))
        else (p, s)
      else if kind == Some("unsubscribe") then
        if HasMarket(marketId) && marketId.value in p.subscriptions then
          var m := marketId.value;
          (p.(subscriptions := Without(p.subscriptions, m), outbox := p.outbox + [UnsubscriptionConfirmed(m)]),
           AfterUnsubscribe(s, m, None))
        else (p, s)
      else if kind == Some("place_bet") then
        (p.(outbox := p.outbox + [BetReply(PlaceBetResult(s, now, ex, post), raceId, horseId, now)]),
         AfterPlaceBet(s, BetFor(raceId, horseId, amount, betType), now, ex))
      else (p.(outbox := p.outbox + [ErrorReply(UnknownTypeMessage)]), s)
  }

  /** The feed client after `unsubscribe(m)` for every `m` of `ms`, in order. */
  function UnsubscribeAll(s: Session<Forwarder>, ms: seq<MarketId>): Session<Forwarder>
    decreases |ms|
  {
    if ms == [] then s else AfterUnsubscribe(UnsubscribeAll(s, ms[..|ms| - 1]), ms[|ms| - 1], None)
  }

  /** The close handler. */
  function HandleClose(p: Peer, s: Session<Forwarder>): (Peer, Session<Forwarder>)
  {
    (p.(subscriptions := []), UnsubscribeAll(s, p.subscriptions))
  }

  /** The markets of `ms` that have an entry in `subs`, in order. */
  function KnownMarkets(ms: seq<MarketId>, subs: map<MarketId, seq<Forwarder>>): (r: seq<MarketId>)
    ensures forall x :: x in r <==> x in ms && x in subs
    ensures Distinct(ms) ==> Distinct(r)
    decreases |ms|
  {
    if ms == [] then []
    else
      var last := ms[|ms| - 1];
      KnownMarkets(ms[..|ms| - 1], subs) + (if last in subs then [last] else [])
  }

  function UnsubscribeFrames(ms: seq<MarketId>): seq<UpFrame>
  {
    seq(|ms|, i requires 0 <= i < |ms| => UnsubscribeFrame(ms[i]))
  }

  /** `unsubscribe(m)` without a callback, as the relay calls it: the entry
      goes, and an unsubscribe frame is sent when connected and the entry
      existed. */
  lemma DeleteEntryEffect(s: Session<Forwarder>, m: MarketId)
    ensures var t := AfterUnsubscribe(s, m, None);
      && t.subscribers == s.subscribers - {m}
      && t.connected == s.connected
      && t.sent == s.sent + (if s.connected && m in s.subscribers then [UnsubscribeFrame(m)] else [])
      && t.reconnectAttempts == s.reconnectAttempts && t.betPosts == s.betPosts
  {
  }

  /** Unsubscribing a list of distinct markets without callbacks deletes exactly
      their entries and, when connected, sends one unsubscribe frame for each of
      them that had an entry, in list order; nothing else changes. */
  lemma UnsubscribeAllEffect(s: Session<Forwarder>, ms: seq<MarketId>)
    requires SessionValid(s) && Distinct(ms)
    ensures var t := UnsubscribeAll(s, ms);
      && SessionValid(t)
      && (forall k :: k in t.subscribers <==> k in s.subscribers && k !in ms)
      && (forall k :: k in t.subscribers ==> t.subscribers[k] == s.subscribers[k])
      && t.connected == s.connected
      && t.sent == s.sent + (if s.connected then UnsubscribeFrames(KnownMarkets(ms, s.subscribers)) else [])
      && t.reconnectAttempts == s.reconnectAttempts && t.betPosts == s.betPosts
  {
    UnsubscribeAllValid(s, ms);
    UnsubscribeAllRegistry(s, ms);
    UnsubscribeAllFrames(s, ms);
  }

  lemma UnsubscribeFramesSnoc(ms: seq<MarketId>, m: MarketId)
    ensures UnsubscribeFrames(ms + [m]) == UnsubscribeFrames(ms) + [UnsubscribeFrame(m)]
  {
  }

  /** Unsubscribing a list keeps the feed client's invariant. */
  lemma {:induction false} UnsubscribeAllValid(s: Session<Forwarder>, ms: seq<MarketId>)
    requires SessionValid(s)
    ensures SessionValid(UnsubscribeAll(s, ms))
    decreases |ms|
  {
    if ms != [] {
      var init := ms[..|ms| - 1];
      var last := ms[|ms| - 1];
      UnsubscribeAllValid(s, init);
      var t0 := UnsubscribeAll(s, init);
      assert UnsubscribeAll(s, ms) == AfterUnsubscribe(t0, last, None);
      if last in t0.subscribers {
        DeregisteredValid(t0, last, None);
      }
    }
  }

  /** The registry half of UnsubscribeAllEffect. */
  lemma {:induction false} UnsubscribeAllRegistry(s: Session<Forwarder>, ms: seq<MarketId>)
    ensures var t := UnsubscribeAll(s, ms);
      && (forall k :: k in t.subscribers <==> k in s.subscribers && k !in ms)
      && (forall k :: k in t.subscribers ==> t.subscribers[k] == s.subscribers[k])
      && t.connected == s.connected
      && t.reconnectAttempts == s.reconnectAttempts && t.betPosts == s.betPosts
    decreases |ms|
  {
    if ms != [] {
      var init := ms[..|ms| - 1];
      var last := ms[|ms| - 1];
      UnsubscribeAllRegistry(s, init);
      var t0 := UnsubscribeAll(s, init);
      assert UnsubscribeAll(s, ms) == AfterUnsubscribe(t0, last, None);
      DeleteEntryEffect(t0, last);
      assert forall k :: k in ms <==> k in init || k == last;
    }
  }

  /** The frame half of UnsubscribeAllEffect. */
  lemma {:induction false} UnsubscribeAllFrames(s: Session<Forwarder>, ms: seq<MarketId>)
    requires Distinct(ms)
    ensures UnsubscribeAll(s, ms).sent
      == s.sent + (if s.connected then UnsubscribeFrames(KnownMarkets(ms, s.subscribers)) else [])
    decreases |ms|
  {
    if ms != [] {
      var init := ms[..|ms| - 1];
      var last := ms[|ms| - 1];
      assert Distinct(init);
      UnsubscribeAllFrames(s, init);
      UnsubscribeAllRegistry(s, init);
      var t0 := UnsubscribeAll(s, init);
      assert UnsubscribeAll(s, ms) == AfterUnsubscribe(t0, last, None);
      assert last !in init;
      assert last in t0.subscribers <==> last in s.subscribers;
      DeleteEntryEffect(t0, last);
      var reg0 := KnownMarkets(init, s.subscribers);
      assert KnownMarkets(ms, s.subscribers) == reg0 + (if last in s.subscribers then [last] else []);
      if s.connected && last in s.subscribers {
        assert t0.sent == s.sent + UnsubscribeFrames(reg0);
        assert UnsubscribeAll(s, ms).sent == t0.sent + [UnsubscribeFrame(last)];
        UnsubscribeFramesSnoc(reg0, last);
      } else {
        assert UnsubscribeAll(s, ms).sent == t0.sent;
        assert s.connected ==> KnownMarkets(ms, s.subscribers) == reg0;
      }
    }
  }

  /** The connection's bookkeeping invariant: distinct, truthy market ids. */
  ghost predicate PeerValid(p: Peer)
  {
    Distinct(p.subscriptions) && forall m :: m in p.subscriptions ==> m != ""
  }

  /** Every forwarder of this connection in the registry sits under its own
      market, and that market is in the connection's set. */
  ghost predicate Owns(p: Peer, subs: map<MarketId, seq<Forwarder>>)
  {
    forall m, f :: m in subs && f in subs[m] && f.conn == p.id ==> f.market == m && m in p.subscriptions
  }

  /** No forwarder of connection `id` is left in the registry. */
  ghost predicate Released(id: ConnId, subs: map<MarketId, seq<Forwarder>>)
  {
    forall m, f :: m in subs && f in subs[m] ==> f.conn != id
  }

  /** What each kind of message does to the connection's set and to the feed
      client. */
  lemma HandleRequestCases(p: Peer, s: Session<Forwarder>, req: Request, now: int, ex: Exchange, post: Post)
    ensures var (p', s') := HandleRequest(p, s, req, now, ex, post);
      && p'.id == p.id
      && (IsSubscribe(req) ==>
            p'.subscriptions == AddMarket(p.subscriptions, req.marketId.value)
            && s' == AfterSubscribe(s, req.marketId.value, Forwarder(p.id, req.marketId.value), now, ex))
      && (IsUnsubscribe(p, req) ==>
            p'.subscriptions == Without(p.subscriptions, req.marketId.value)
            && s' == AfterUnsubscribe(s, req.marketId.value, None))
      && (IsPlaceBet(req) ==>
            p'.subscriptions == p.subscriptions
            && s' == AfterPlaceBet(s, BetFor(req.raceId, req.horseId, req.amount, req.betType), now, ex))
      && (!IsSubscribe(req) && !IsUnsubscribe(p, req) && !IsPlaceBet(req) ==> p'.subscriptions == p.subscriptions && s' == s)
  {
  }

  /** A `subscribe` with a truthy market id. */
  predicate IsSubscribe(req: Request)
  {
    req.Request? && req.kind == Some("subscribe") && HasMarket(req.marketId)
  }

  /** An `unsubscribe` for a market in the connection's set. */
  predicate IsUnsubscribe(p: Peer, req: Request)
  {
    req.Request? && req.kind == Some("unsubscribe") && HasMarket(req.marketId) && req.marketId.value in p.subscriptions
  }

  predicate IsPlaceBet(req: Request)
  {
    req.Request? && req.kind == Some("place_bet")
  }

  /** Every message keeps both invariants and the feed client's. */
  lemma RequestKeepsOwnership(p: Peer, s: Session<Forwarder>, req: Request, now: int, ex: Exchange, post: Post)
    requires SessionValid(s) && PeerValid(p) && Owns(p, s.subscribers)
    ensures var (p', s') := HandleRequest(p, s, req, now, ex, post);
      && SessionValid(s') && PeerValid(p') && Owns(p', s'.subscribers) && p'.id == p.id
  {
    if IsSubscribe(req) {
      SubscribeRequestKeepsOwnership(p, s, req, now, ex, post);
    } else if IsUnsubscribe(p, req) {
      UnsubscribeRequestKeepsOwnership(p, s, req, now, ex, post);
    } else {
      HandleRequestCases(p, s, req, now, ex, post);
      if IsPlaceBet(req) {
        PlaceBetKeepsRest(s, BetFor(req.raceId, req.horseId, req.amount, req.betType), now, ex);
      }
    }
  }

  lemma SubscribeRequestKeepsOwnership(p: Peer, s: Session<Forwarder>, req: Request, now: int, ex: Exchange, post: Post)
    requires SessionValid(s) && PeerValid(p) && Owns(p, s.subscribers) && IsSubscribe(req)
    ensures var (p', s') := HandleRequest(p, s, req, now, ex, post);
      && SessionValid(s') && PeerValid(p') && Owns(p', s'.subscribers) && p'.id == p.id
  {
    HandleRequestCases(p, s, req, now, ex, post);
    OwnSubscribeKeepsOwnership(p, s, req.marketId.value, now, ex);
  }

  lemma UnsubscribeRequestKeepsOwnership(p: Peer, s: Session<Forwarder>, req: Request, now: int, ex: Exchange, post: Post)
    requires SessionValid(s) && PeerValid(p) && Owns(p, s.subscribers) && IsUnsubscribe(p, req)
    ensures var (p', s') := HandleRequest(p, s, req, now, ex, post);
      && SessionValid(s') && PeerValid(p') && Owns(p', s'.subscribers) && p'.id == p.id
  {
    HandleRequestCases(p, s, req, now, ex, post);
    OwnUnsubscribeKeepsOwnership(p, s, req.marketId.value);
  }

  /** The connection's own subscribe adds its market to its set and a
      forwarder under that market. */
  lemma OwnSubscribeKeepsOwnership(p: Peer, s: Session<Forwarder>, n: MarketId, now: int, ex: Exchange)
    requires SessionValid(s) && PeerValid(p) && Owns(p, s.subscribers) && n != ""
    ensures var s' := AfterSubscribe(s, n, Forwarder(p.id, n), now, ex);
      var p' := p.(subscriptions := AddMarket(p.subscriptions, n));
      SessionValid(s') && PeerValid(p') && Owns(p', s'.subscribers)
  {
    var f := Forwarder(p.id, n);
    SubscribeEffect(s, n, f, now, ex);
    var subs := AfterSubscribe(s, n, f, now, ex).subscribers;
    var p' := p.(subscriptions := AddMarket(p.subscriptions, n));
    forall m: MarketId, g: Forwarder | m in subs && g in subs[m] && g.conn == p.id
      ensures g.market == m && m in p'.subscriptions
    {
      if m == n {
        assert g == f || g in Listeners(s.subscribers, n);
      }
    }
  }

  /** The connection's own unsubscribe removes the market from its set and
      the market's whole entry from the registry. */
  lemma OwnUnsubscribeKeepsOwnership(p: Peer, s: Session<Forwarder>, n: MarketId)
    requires SessionValid(s) && PeerValid(p) && Owns(p, s.subscribers)
    ensures var s' := AfterUnsubscribe(s, n, None);
      var p' := p.(subscriptions := Without(p.subscriptions, n));
      SessionValid(s') && PeerValid(p') && Owns(p', s'.subscribers)
  {
    if n in s.subscribers {
      DeregisteredValid(s, n, None);
    }
    DeleteEntryEffect(s, n);
  }

  /** Another connection's messages keep this connection's invariant: they add
      only their own forwarders and only ever delete whole entries. */
  lemma OtherRequestKeepsOwnership(p: Peer, q: Peer, s: Session<Forwarder>, req: Request, now: int, ex: Exchange, post: Post)
    requires SessionValid(s) && p.id != q.id && Owns(p, s.subscribers)
    ensures Owns(p, HandleRequest(q, s, req, now, ex, post).1.subscribers)
  {
    if IsSubscribe(req) {
      OtherSubscribeRequestKeepsOwnership(p, q, s, req, now, ex, post);
    } else {
      OtherNonSubscribeKeepsOwnership(p, q, s, req, now, ex, post);
    }
  }

  /** Another connection's unsubscribe deletes a whole entry, its bets leave
      the registry alone, and its other messages change nothing. */
  lemma OtherNonSubscribeKeepsOwnership(p: Peer, q: Peer, s: Session<Forwarder>, req: Request, now: int, ex: Exchange, post: Post)
    requires Owns(p, s.subscribers) && !IsSubscribe(req)
    ensures Owns(p, HandleRequest(q, s, req, now, ex, post).1.subscribers)
  {
    HandleRequestCases(q, s, req, now, ex, post);
    if IsUnsubscribe(q, req) {
      DeleteEntryEffect(s, req.marketId.value);
    } else if IsPlaceBet(req) {
      PlaceBetKeepsRest(s, BetFor(req.raceId, req.horseId, req.amount, req.betType), now, ex);
    }
  }

  lemma OtherSubscribeRequestKeepsOwnership(p: Peer, q: Peer, s: Session<Forwarder>, req: Request, now: int, ex: Exchange, post: Post)
    requires SessionValid(s) && p.id != q.id && Owns(p, s.subscribers) && IsSubscribe(req)
    ensures Owns(p, HandleRequest(q, s, req, now, ex, post).1.subscribers)
  {
    HandleRequestCases(q, s, req, now, ex, post);
    OtherSubscribeKeepsOwnership(p, s, req.marketId.value, q.id, now, ex);
  }

  /** Another connection's subscribe adds only its own forwarder. */
  lemma OtherSubscribeKeepsOwnership(p: Peer, s: Session<Forwarder>, n: MarketId, id: ConnId, now: int, ex: Exchange)
    requires SessionValid(s) && id != p.id && Owns(p, s.subscribers)
    ensures Owns(p, AfterSubscribe(s, n, Forwarder(id, n), now, ex).subscribers)
  {
    var r := Registered(s, n, Forwarder(id, n));
    RegisteredValid(s, n, Forwarder(id, n));
    ConnectKeepsValid(r, now, ex);
    var subs := AfterSubscribe(s, n, Forwarder(id, n), now, ex).subscribers;
    assert subs == r.subscribers;
    forall m: MarketId, f: Forwarder | m in subs && f in subs[m] && f.conn == p.id
      ensures f.market == m && m in p.subscriptions
    {
      if m == n {
        assert f in Listeners(s.subscribers, n);
      }
    }
  }

  /** Another connection closing keeps this connection's invariant. */
  lemma OtherCloseKeepsOwnership(p: Peer, q: Peer, s: Session<Forwarder>)
    requires SessionValid(s) && PeerValid(q) && Owns(p, s.subscribers)
    ensures Owns(p, HandleClose(q, s).1.subscribers)
  {
    UnsubscribeAllEffect(s, q.subscriptions);
  }

  /** Closing a connection unsubscribes every market in its set and leaves the
      set empty: their entries are deleted (whoever registered callbacks in
      them), an unsubscribe frame goes out for each that had an entry if the
      feed is connected, and no forwarder of the connection remains. */
  lemma CloseReleasesEverything(p: Peer, s: Session<Forwarder>)
    requires SessionValid(s) && PeerValid(p) && Owns(p, s.subscribers)
    ensures var (p', s') := HandleClose(p, s);
      && p'.subscriptions == [] && p'.outbox == p.outbox
      && SessionValid(s')
      && (forall k :: k in s'.subscribers <==> k in s.subscribers && k !in p.subscriptions)
      && s'.sent == s.sent + (if s.connected then UnsubscribeFrames(KnownMarkets(p.subscriptions, s.subscribers)) else [])
      && Released(p.id, s'.subscribers)
  {
    UnsubscribeAllEffect(s, p.subscriptions);
  }

  /** `unsubscribe` from one connection deletes the market's whole entry, so
      another connection still subscribed to the market loses its forwarder:
      an update for the market that reached it before reaches nobody after,
      while its own set still lists the market. */
  lemma UnsubscribeSilencesOtherConnections(p: Peer, q: Peer, s: Session<Forwarder>, m: MarketId,
                                            data: Value, now: int, ex: Exchange, post: Post)
    requires p.id != q.id && m != "" && m in p.subscriptions && m in q.subscriptions
    requires m in s.subscribers && Forwarder(q.id, m) in s.subscribers[m]
    ensures var unsubscribe := Request(Some("unsubscribe"), Some(m), Undefined, Undefined, Undefined, Undefined);
      var (p', s') := HandleRequest(p, s, unsubscribe, now, ex, post);
      var update := Frame(Some("market_update"), Some(m), data);
      && Invocation(Forwarder(q.id, m), data) in Notifications(s, update)
      && Notifications(s', update) == []
      && m in q.subscriptions && m !in p'.subscriptions
  {
    var update := Frame(Some("market_update"), Some(m), data);
    var list := s.subscribers[m];
    var i :| 0 <= i < |list| && list[i] == Forwarder(q.id, m);
    assert Notifications(s, update)[i] == Invocation(Forwarder(q.id, m), data);
    var unsubscribe := Request(Some("unsubscribe"), Some(m), Undefined, Undefined, Undefined, Undefined);
    var (p', s') := HandleRequest(p, s, unsubscribe, now, ex, post);
    assert p'.subscriptions == Without(p.subscriptions, m) && s' == AfterUnsubscribe(s, m, None);
    DeleteEntryEffect(s, m);
    assert UpdatedMarket(update, s'.subscribers) == None;
  }

  /** Every message gets at most one reply, and exactly one unless it is a
      `subscribe` without a market id or an `unsubscribe` for a market the
      connection is not subscribed to, which get none and change nothing. */
  lemma OneReplyPerMessage(p: Peer, s: Session<Forwarder>, req: Request, now: int, ex: Exchange, post: Post)
    ensures var (p', s') := HandleRequest(p, s, req, now, ex, post);
      && p'.id == p.id
      && var silent := req.Request? &&
           ((req.kind == Some("subscribe") && !HasMarket(req.marketId)) ||
            (req.kind == Some("unsubscribe") && !(HasMarket(req.marketId) && req.marketId.value in p.subscriptions)));
      && (silent ==> p' == p && s' == s)
      && (!silent ==> |p'.outbox| == |p.outbox| + 1 && p'.outbox[..|p.outbox|] == p.outbox)
  {
  }

  /** The reply to each kind of message. */
  lemma ReplyKinds(p: Peer, s: Session<Forwarder>, req: Request, now: int, ex: Exchange, post: Post)
    ensures var (p', s') := HandleRequest(p, s, req, now, ex, post);
      && (req.Unparsable? ==> p'.outbox == p.outbox + [ErrorReply(req.error)] && s' == s)
      && (req.NullRequest? ==> p'.outbox == p.outbox + [ErrorReply("Cannot read properties of null (reading 'type')")] && s' == s)
      && (req.Request? && req.kind == Some("subscribe") && HasMarket(req.marketId) ==>
            p'.outbox == p.outbox + [SubscriptionConfirmed(req.marketId.value)]
            && req.marketId.value in p'.subscriptions)
      && (req.Request? && req.kind == Some("unsubscribe") && HasMarket(req.marketId) && req.marketId.value in p.subscriptions ==>
            p'.outbox == p.outbox + [UnsubscriptionConfirmed(req.marketId.value)]
            && req.marketId.value !in p'.subscriptions
            && req.marketId.value !in s'.subscribers)
      && (req.Request? && req.kind == Some("place_bet") ==>
            |p'.outbox| == |p.outbox| + 1 && p'.outbox[|p.outbox|].BetResult?)
      && (req.Request? && req.kind !in {Some("subscribe"), Some("unsubscribe"), Some("place_bet")} ==>
            p'.outbox == p.outbox + [ErrorReply(UnknownTypeMessage)] && s' == s)
  {
    assert NullReadMessage(Null, "type") == "Cannot read properties of null (reading 'type')";
  }

  /** A `place_bet` POSTs the bet (with 'win' for a falsy `betType`) when a
      token can be had, and its one reply succeeds exactly when the betting
      endpoint answered with a body other than null or undefined. */
  lemma PlaceBetReply(p: Peer, s: Session<Forwarder>, req: Request, now: int, ex: Exchange, post: Post)
    requires req.Request? && req.kind == Some("place_bet")
    ensures var (p', s') := HandleRequest(p, s, req, now, ex, post);
      var reply := p'.outbox[|p.outbox|];
      && |p'.outbox| == |p.outbox| + 1
      && reply.BetResult? && reply.raceId == req.raceId && reply.horseId == req.horseId
      && (reply.success <==> TokenResult(s, now, ex).Ok? && post.Responded? && !post.data.Null? && !post.data.Undefined?)
      && (TokenResult(s, now, ex).Ok? ==>
            s'.betPosts == s.betPosts + [BetPost(BetFor(req.raceId, req.horseId, req.amount, req.betType), TokenResult(s, now, ex).value)])
      && (TokenResult(s, now, ex).Err? ==> s'.betPosts == s.betPosts)
  {
    PlaceBetEffect(s, BetFor(req.raceId, req.horseId, req.amount, req.betType), now, ex, post);
  }

  /** The calls the feed makes for one upstream frame, as replies to
      connection `id`: an `odds_update` for each call of one of its forwarders,
      in order. */
  function RoutedTo(calls: seq<Invocation<Forwarder>>, id: ConnId): seq<Reply>
    decreases |calls|
  {
    if calls == [] then []
    else
      var last := calls[|calls| - 1];
      RoutedTo(calls[..|calls| - 1], id)
      + (if last.callback.conn == id then [OddsUpdateFor(last.callback.market, last.data)] else [])
  }

  /** An upstream update reaches a connection only for a market in its set,
      as an `odds_update` for the frame's market. */
  lemma {:induction false} UpdatesOnlyForSubscribedMarkets(p: Peer, s: Session<Forwarder>, frame: Inbound)
    requires Owns(p, s.subscribers)
    ensures forall r :: r in RoutedTo(Notifications(s, frame), p.id) ==>
      UpdatedMarket(frame, s.subscribers).Some?
      && UpdatedMarket(frame, s.subscribers).value in p.subscriptions
      && r == OddsUpdateFor(UpdatedMarket(frame, s.subscribers).value, frame.data)
  {
    var calls := Notifications(s, frame);
    if UpdatedMarket(frame, s.subscribers).Some? {
      var m := UpdatedMarket(frame, s.subscribers).value;
      RoutedToMarket(calls, p, s.subscribers, m, frame.data);
    }
  }

  lemma {:induction false} RoutedToMarket(calls: seq<Invocation<Forwarder>>, p: Peer,
                                          subs: map<MarketId, seq<Forwarder>>, m: MarketId, data: Value)
    requires Owns(p, subs) && m in subs
    requires forall i :: 0 <= i < |calls| ==> calls[i].callback in subs[m] && calls[i].data == data
    ensures forall r :: r in RoutedTo(calls, p.id) ==> m in p.subscriptions && r == OddsUpdateFor(m, data)
    decreases |calls|
  {
    if calls != [] {
      var init := calls[..|calls| - 1];
      var last := calls[|calls| - 1];
      assert forall i :: 0 <= i < |init| ==> init[i] == calls[i];
      RoutedToMarket(init, p, subs, m, data);
      assert last.callback in subs[m] && last.data == data;
      if last.callback.conn == p.id {
        assert last.callback.market == m && m in p.subscriptions;
        assert RoutedTo(calls, p.id) == RoutedTo(init, p.id) + [OddsUpdateFor(m, data)];
      } else {
        assert RoutedTo(calls, p.id) == RoutedTo(init, p.id);
      }
    }
  }


  /** The callbacks of a run of calls, in order. */
  function Callbacks(calls: seq<Invocation<Forwarder>>): (r: seq<Forwarder>)
    ensures |r| == |calls|
    ensures forall i :: 0 <= i < |calls| ==> r[i] == calls[i].callback
    decreases |calls|
  {
    if calls == [] then [] else Callbacks(calls[..|calls| - 1]) + [calls[|calls| - 1].callback]
  }

  /** When every call carries `data` and every forwarder of connection `id`
      among them belongs to market `m`, the connection receives exactly one
      update for `m` per call of its forwarder, and nothing else. */
  lemma {:induction false} RoutedCount(calls: seq<Invocation<Forwarder>>, id: ConnId, m: MarketId, data: Value)
    requires forall i :: 0 <= i < |calls| ==>
      calls[i].data == data && (calls[i].callback.conn == id ==> calls[i].callback.market == m)
    ensures |RoutedTo(calls, id)| == multiset(RoutedTo(calls, id))[OddsUpdateFor(m, data)]
    ensures |RoutedTo(calls, id)| == multiset(Callbacks(calls))[Forwarder(id, m)]
    decreases |calls|
  {
    if calls != [] {
      var init := calls[..|calls| - 1];
      RoutedCount(init, id, m, data);
      assert Callbacks(calls) == Callbacks(init) + [calls[|calls| - 1].callback];
    }
  }

  /** A market update reaches a connection once for every forwarder the
      connection has in that market's list: duplicates from repeated
      subscribes are delivered twice, and a connection with a forwarder
      there is never skipped. */
  lemma DeliveredOncePerForwarder(p: Peer, s: Session<Forwarder>, frame: Inbound)
    requires Owns(p, s.subscribers) && UpdatedMarket(frame, s.subscribers).Some?
    ensures var m := UpdatedMarket(frame, s.subscribers).value;
      var routed := RoutedTo(Notifications(s, frame), p.id);
      && |routed| == multiset(routed)[OddsUpdateFor(m, frame.data)]
      && |routed| == multiset(s.subscribers[m])[Forwarder(p.id, m)]
      && (Forwarder(p.id, m) in s.subscribers[m] ==> OddsUpdateFor(m, frame.data) in routed)
  {
    var m := UpdatedMarket(frame, s.subscribers).value;
    var calls := Notifications(s, frame);
    RoutedCount(calls, p.id, m, frame.data);
    assert Callbacks(calls) == s.subscribers[m];
  }

  // ---------------------------------------------------------------------------
  // The connection handler itself

  /** One browser connection: the state the `connection` handler's closures
      share. */
  class Connection {
    const id: ConnId
    const feed: TabClient<Forwarder>
    var subscriptions: seq<MarketId>
    var outbox: seq<Reply>

    function Snapshot(): Peer
      reads this
    {
      Peer(id, subscriptions, outbox)
    }

    ghost predicate Valid()
      reads this, feed
    {
      feed.Valid() && PeerValid(Snapshot()) && Owns(Snapshot(), feed.subscribers)
    }

    /** A new connection, sharing `feed`, under an id no forwarder uses yet. */
    constructor(id: ConnId, feed: TabClient<Forwarder>)
      requires feed.Valid() && Released(id, feed.subscribers)
      ensures Valid() && Snapshot() == Peer(id, [], []) && this.feed == feed
    {
      this.id := id;
      this.feed := feed;
      subscriptions := [];
      outbox := [];
    }

    /** The socket's `message` event. */
    method OnMessage(req: Request, now: int, ex: Exchange, post: Post)
      requires Valid()
      modifies this, feed
      ensures Valid()
      ensures (Snapshot(), feed.State()) == HandleRequest(old(Snapshot()), old(feed.State()), req, now, ex, post)
    {
      RequestKeepsOwnership(Snapshot(), feed.State(), req, now, ex, post);
      match req {
        case Unparsable(error) =>
          outbox := outbox + [ErrorReply(error)];
        case NullRequest =>
          outbox := outbox + [ErrorReply(NullReadMessage(Null, "type"))];
        case Request(kind, marketId, raceId, horseId, amount, betType) =>
          if kind == Some("subscribe") {
            if marketId.Some? && marketId.value != "" {
              var m := marketId.value;
              subscriptions := AddMarket(subscriptions, m);
              feed.Subscribe(m, Forwarder(id, m), now, ex);
              outbox := outbox + [SubscriptionConfirmed(m)];
            }
          } else if kind == Some("unsubscribe") {
            if marketId.Some? && marketId.value != "" && marketId.value in subscriptions {
              var m := marketId.value;
              feed.Unsubscribe(m, None);
              subscriptions := Without(subscriptions, m);
              outbox := outbox + [UnsubscriptionConfirmed(m)];
            }
          } else if kind == Some("place_bet") {
            var result := feed.PlaceBet(BetFor(raceId, horseId, amount, betType), now, ex, post);
            outbox := outbox + [BetReply(result, raceId, horseId, now)];
          } else {
            outbox := outbox + [ErrorReply(UnknownTypeMessage)];
          }
      }
    }

    /** The `handleMarketUpdate` closure registered for `market`. */
    method Forward(market: MarketId, data: Value)
      modifies this
      ensures Snapshot() == old(Snapshot()).(outbox := old(outbox) + [OddsUpdateFor(market, data)])
    {
      outbox := outbox + [OddsUpdateFor(market, data)];
    }

    /** The socket's `close` event. */
    method OnClose()
      requires Valid()
      modifies this, feed
      ensures Valid()
      ensures (Snapshot(), feed.State()) == HandleClose(old(Snapshot()), old(feed.State()))
    {
      var ms := subscriptions;
      ghost var s0 := feed.State();
      var i := 0;
      while i < |ms|
        invariant 0 <= i <= |ms|
        invariant Snapshot() == old(Snapshot())
        invariant feed.Valid()
        invariant feed.State() == UnsubscribeAll(s0, ms[..i])
      {
        assert ms[..i + 1][..i] == ms[..i];
        feed.Unsubscribe(ms[i], None);
        i := i + 1;
      }
      assert ms[..i] == ms;
      subscriptions := [];
      CloseReleasesEverything(old(Snapshot()), old(feed.State()));
    }
  }

  /** Delivering the calls the feed made for one frame: each call runs the
      forwarder's closure on the connection it belongs to. Looking the
      connection up by id stands for the browser socket `ws` the closure
      captured. */
  method FanOut(conns: seq<Connection>, calls: seq<Invocation<Forwarder>>)
    requires forall i, j :: 0 <= i < j < |conns| ==> conns[i].id != conns[j].id
    modifies set i | 0 <= i < |conns| :: conns[i]
    ensures forall i :: 0 <= i < |conns| ==>
      conns[i].Snapshot() == old(conns[i].Snapshot()).(outbox := old(conns[i].outbox) + RoutedTo(calls, conns[i].id))
  {
    var j := 0;
    while j < |calls|
      invariant 0 <= j <= |calls|
      invariant forall i :: 0 <= i < |conns| ==>
        conns[i].Snapshot() == old(conns[i].Snapshot()).(outbox := old(conns[i].outbox) + RoutedTo(calls[..j], conns[i].id))
    {
      assert calls[..j + 1][..j] == calls[..j];
      var call := calls[j];
      var k := 0;
      while k < |conns| && conns[k].id != call.callback.conn
        invariant 0 <= k <= |conns|
        invariant forall i :: 0 <= i < k ==> conns[i].id != call.callback.conn
      {
        k := k + 1;
      }
      if k < |conns| {
        conns[k].Forward(call.callback.market, call.data);
      }
      j := j + 1;
    }
    assert calls[..j] == calls;
  }
}
