/** The upstream feed client (the TabAPI class): an OAuth token cache, one
    upstream socket, a registry from market ids to callback lists, and a bounded
    reconnect counter.

    The socket is reduced to the frames written on it (`sent`) and the events it
    raises (open, message, close, error); the clock is a `now` parameter in
    milliseconds; each HTTP call is an input saying what the endpoint answered;
    a `setTimeout` that will re-run `connect` is a pending-timer count. Every
    event is one atomic step.

    The first half of the module gives each operation as a function on a
    snapshot of the client (`Session`) and proves what the source promises about
    it; the class `TabClient` then performs the operations in place and is
    proved to follow those functions. */
module Tab {
  import opened Values

  type MarketId = string

  /** `maxReconnectAttempts` */
  const MaxReconnectAttempts: nat := 5
  /** `reconnectInterval`, in milliseconds: the delay of every reconnect timer. */
  const ReconnectIntervalMs: nat := 5000
  /** Seconds taken off a token's lifetime when its expiry is cached. */
  const TokenSafetyMarginSeconds: int := 60

  /** A frame written on the upstream socket. */
  datatype UpFrame =
    | AuthFrame(token: string)
    | SubscribeFrame(marketId: MarketId)
    | UnsubscribeFrame(marketId: MarketId)

  /** What the OAuth token endpoint answered to one client-credentials POST. */
  datatype Exchange =
    | Granted(accessToken: string, expiresIn: int)
    | Refused(message: string)

  /** What the betting endpoint answered to one POST. */
  datatype Post =
    | Responded(data: Value)
    | PostFailed(message: string)

  /** An inbound upstream frame after JSON.parse: a parse failure, the value
      null, or a value whose `type` and `marketId` are read (None when the
      property is absent or not a string). */
  datatype Inbound =
    | Unparsable
    | NullFrame
    | Frame(kind: Option<string>, marketId: Option<MarketId>, data: Value)

  /** One call `callback(data)`. */
  datatype Invocation<C> = Invocation(callback: C, data: Value)

  /** The body of a bet POST. */
  datatype Bet = Bet(raceId: Value, selectionId: Value, stake: Value, betType: Value)

  /** One bet POST: its body and the bearer token in its Authorization header. */
  datatype BetPost = BetPost(bet: Bet, bearer: string)

  /** A snapshot of every field of the client the relay depends on, plus the
      logs of what it sent: `exchanges` counts token POSTs, `betPosts` lists bet
      POSTs, `reconnectsScheduled` counts `setTimeout` calls and `sent` lists
      upstream frames. `order` lists the keys of `subscribers` in insertion
      order, the order `Object.keys` enumerates them in. */
  datatype Session<C> = Session(
    accessToken: Option<string>,
    tokenExpiry: int,
    exchanges: nat,
    betPosts: seq<BetPost>,
    hasSocket: bool,
    socketToken: string,
    connected: bool,
    reconnectAttempts: nat,
    pendingReconnects: nat,
    reconnectsScheduled: nat,
    subscribers: map<MarketId, seq<C>>,
    order: seq<MarketId>,
    sent: seq<UpFrame>)

  /** The client as the constructor leaves it. */
  function InitialSession<C>(): Session<C>
  {
    Session(None, 0, 0, [], false, "", false, 0, 0, 0, map[], [], [])
  }

  predicate Distinct<T(==)>(s: seq<T>)
  {
    forall i, j :: 0 <= i < j < |s| ==> s[i] != s[j]
  }

  /** `order` enumerates the keys of `subs`, each once. */
  ghost predicate KeyOrder<V>(order: seq<MarketId>, subs: map<MarketId, V>)
  {
    Distinct(order) && forall m :: m in order <==> m in subs
  }

  /** The invariant every reachable session keeps. */
  ghost predicate SessionValid<C>(s: Session<C>)
  {
    && s.reconnectAttempts <= MaxReconnectAttempts
    && (s.connected ==> s.hasSocket)
    && KeyOrder(s.order, s.subscribers)
  }

  // ---------------------------------------------------------------------------
  // Token cache (getAccessToken)

  /** `this.accessToken && this.tokenExpiry > Date.now()` */
  predicate TokenFresh<C>(s: Session<C>, now: int)
  {
    s.accessToken.Some? && s.accessToken.value != "" && s.tokenExpiry > now
  }

  /** The expiry cached for a token granted at `now` for `expiresIn` seconds. */
  function ExpiryAfter(now: int, expiresIn: int): int
  {
    now + (expiresIn - TokenSafetyMarginSeconds) * 1000
  }

  /** What getAccessToken returns or throws. */
  function TokenResult<C>(s: Session<C>, now: int, ex: Exchange): Result<string>
  {
    if TokenFresh(s, now) then Ok(s.accessToken.value)
    else match ex
      case Granted(token, _) => Ok(token)
      case Refused(message) => Err(message)
  }

  /** The session after getAccessToken. */
  function AfterToken<C>(s: Session<C>, now: int, ex: Exchange): Session<C>
  {
    if TokenFresh(s, now) then s
    else match ex
      case Granted(token, expiresIn) =>
        s.(accessToken := Some(token), tokenExpiry := ExpiryAfter(now, expiresIn), exchanges := s.exchanges + 1)
      case Refused(_) => s.(exchanges := s.exchanges + 1)
  }

  /** No exchange happens exactly when a fresh token is cached, and then the
      cached token is returned whatever the endpoint would have answered. */
  lemma CachedTokenExactlyWhenFresh<C>(s: Session<C>, now: int, ex: Exchange)
    ensures AfterToken(s, now, ex).exchanges == s.exchanges <==> TokenFresh(s, now)
    ensures !TokenFresh(s, now) ==> AfterToken(s, now, ex).exchanges == s.exchanges + 1
    ensures TokenFresh(s, now) ==> AfterToken(s, now, ex) == s && TokenResult(s, now, ex) == Ok(s.accessToken.value)
  {
  }

  /** A failed exchange changes nothing but the exchange count and surfaces the
      endpoint's error; a granted one caches the new token with its expiry. */
  lemma ExchangeOutcome<C>(s: Session<C>, now: int, ex: Exchange)
    requires !TokenFresh(s, now)
    ensures ex.Refused? ==>
      && TokenResult(s, now, ex) == Err(ex.message)
      && AfterToken(s, now, ex) == s.(exchanges := s.exchanges + 1)
    ensures ex.Granted? ==>
      && TokenResult(s, now, ex) == Ok(ex.accessToken)
      && AfterToken(s, now, ex).accessToken == Some(ex.accessToken)
      && AfterToken(s, now, ex).tokenExpiry == now + (ex.expiresIn - 60) * 1000
  {
  }

  /** The safety margin: a token granted at `granted` for `expiresIn` seconds is
      served from the cache at `now` exactly while more than 60 seconds of its
      real lifetime remain. */
  lemma SafetyMargin<C>(s: Session<C>, granted: int, token: string, expiresIn: int, now: int)
    requires token != ""
    requires s.accessToken == Some(token) && s.tokenExpiry == ExpiryAfter(granted, expiresIn)
    ensures TokenFresh(s, now) <==> (granted + expiresIn * 1000) - now > 60000
  {
  }

  /** A token granted for at most 60 seconds is never served from the cache:
      the very next call at the same instant exchanges again. */
  lemma ShortLivedTokenNotCached<C>(s: Session<C>, now: int, token: string, expiresIn: int)
    requires !TokenFresh(s, now) && expiresIn <= TokenSafetyMarginSeconds
    ensures !TokenFresh(AfterToken(s, now, Granted(token, expiresIn)), now)
  {
  }

  // ---------------------------------------------------------------------------
  // Connection lifecycle (connect, reconnect and the socket's event handlers)

  /** `reconnect`: below the limit it counts an attempt and schedules a timer;
      at the limit it does nothing. */
  function AfterReconnect<C>(s: Session<C>): Session<C>
  {
    if s.reconnectAttempts >= MaxReconnectAttempts then s
    else s.(reconnectAttempts := s.reconnectAttempts + 1,
            pendingReconnects := s.pendingReconnects + 1,
            reconnectsScheduled := s.reconnectsScheduled + 1)
  }

  /** `connect`: nothing when a socket exists and is connected; otherwise fetch a
      token, then open a socket whose open handler will send that token, or, if
      the token cannot be had, call `reconnect`. */
  function AfterConnect<C>(s: Session<C>, now: int, ex: Exchange): Session<C>
  {
    if s.hasSocket && s.connected then s
    else
      var s' := AfterToken(s, now, ex);
      match TokenResult(s, now, ex)
      case Ok(token) => s'.(hasSocket := true, socketToken := token)
      case Err(_) => AfterReconnect(s')
  }

  /** The frames that resubscribe the markets `ms`, in order. */
  function SubscribeFrames(ms: seq<MarketId>): (r: seq<UpFrame>)
    ensures |r| == |ms|
    ensures forall i :: 0 <= i < |ms| ==> r[i] == SubscribeFrame(ms[i])
  {
    if ms == [] then [] else SubscribeFrames(ms[..|ms| - 1]) + [SubscribeFrame(ms[|ms| - 1])]
  }

  /** The socket's `open` handler. */
  function AfterOpen<C>(s: Session<C>): Session<C>
  {
    s.(connected := true, reconnectAttempts := 0,
       sent := s.sent + [AuthFrame(s.socketToken)] + SubscribeFrames(s.order))
  }

  /** The socket's `close` handler. */
  function AfterClose<C>(s: Session<C>): Session<C>
  {
    AfterReconnect(s.(connected := false))
  }

  /** The socket's `error` handler. */
  function AfterError<C>(s: Session<C>): Session<C>
  {
    s.(connected := false)
  }

  /** A reconnect timer firing: it runs `connect`. */
  function AfterTimer<C>(s: Session<C>, now: int, ex: Exchange): Session<C>
    requires s.pendingReconnects > 0
  {
    AfterConnect(s.(pendingReconnects := s.pendingReconnects - 1), now, ex)
  }

  /** `connect` on a connected client is a no-op. */
  lemma ConnectIdempotent<C>(s: Session<C>, now: int, ex: Exchange)
    requires s.hasSocket && s.connected
    ensures AfterConnect(s, now, ex) == s
  {
  }

  /** How often each frame occurs in a sequence of frames. */
  function Occurrences(frames: seq<UpFrame>, f: UpFrame): nat
  {
    multiset(frames)[f]
  }

  lemma {:induction false} SubscribeFramesCount(ms: seq<MarketId>, m: MarketId)
    requires Distinct(ms)
    ensures Occurrences(SubscribeFrames(ms), SubscribeFrame(m)) == if m in ms then 1 else 0
    ensures forall f :: f in SubscribeFrames(ms) ==> f.SubscribeFrame?
    decreases |ms|
  {
    if ms != [] {
      var init := ms[..|ms| - 1];
      assert Distinct(init);
      SubscribeFramesCount(init, m);
      assert m in ms <==> m in init || m == ms[|ms| - 1];
      assert ms[|ms| - 1] !in init;
    }
  }

  /** The open handler sends the auth frame first and then exactly one
      subscribe frame for every key of the registry (an emptied list included),
      and marks the client connected with a fresh attempt budget. */
  lemma OpenReplaysEveryMarketOnce<C>(s: Session<C>, m: MarketId)
    requires SessionValid(s)
    ensures var s' := AfterOpen(s);
      && s'.connected && s'.reconnectAttempts == 0
      && |s'.sent| == |s.sent| + 1 + |s.subscribers|
      && s'.sent[..|s.sent| + 1] == s.sent + [AuthFrame(s.socketToken)]
      && Occurrences(s'.sent[|s.sent| + 1..], SubscribeFrame(m)) == (if m in s.subscribers then 1 else 0)
      && (forall f :: f in s'.sent[|s.sent| + 1..] ==> f.SubscribeFrame?)
  {
    var s' := AfterOpen(s);
    assert s'.sent[|s.sent| + 1..] == SubscribeFrames(s.order);
    assert s'.sent[..|s.sent| + 1] == s.sent + [AuthFrame(s.socketToken)];
    SubscribeFramesCount(s.order, m);
    DistinctKeysCardinality(s.order, s.subscribers);
  }

  /** A sequence of distinct keys that enumerates a map is as long as the map. */
  lemma {:induction false} DistinctKeysCardinality<V>(order: seq<MarketId>, subs: map<MarketId, V>)
    requires KeyOrder(order, subs)
    ensures |order| == |subs|
    decreases |order|
  {
    if order == [] {
      assert subs.Keys == {};
    } else {
      var last := order[|order| - 1];
      var init := order[..|order| - 1];
      var rest := subs - {last};
      assert order == init + [last];
      assert Distinct(init) && last !in init;
      assert forall x :: x in init <==> x in rest;
      assert |rest| == |subs| - 1;
      DistinctKeysCardinality(init, rest);
    }
  }

  // ---------------------------------------------------------------------------
  // Subscription registry (subscribe, unsubscribe, message dispatch)

  /** `this.subscribers[marketId] || []` */
  function Listeners<C>(subs: map<MarketId, seq<C>>, m: MarketId): seq<C>
  {
    if m in subs then subs[m] else []
  }

  /** The index of the first occurrence of `x`. */
  function FirstIndex<C(==)>(s: seq<C>, x: C): (i: nat)
    requires x in s
    ensures i < |s| && s[i] == x && x !in s[..i]
  {
    if s[0] == x then 0
    else
      var j := FirstIndex(s[1..], x);
      assert s[..j + 1] == [s[0]] + s[1..][..j];
      j + 1
  }

  /** The list with its first occurrence of `x` spliced out (unchanged when
      `x` does not occur). */
  function RemoveFirst<C(==)>(s: seq<C>, x: C): (r: seq<C>)
    ensures x !in s ==> r == s
    ensures multiset(r) == multiset(s) - multiset{x}
  {
    if x !in s then s
    else
      var i := FirstIndex(s, x);
      assert s == s[..i] + [x] + s[i + 1..];
      s[..i] + s[i + 1..]
  }

  /** Removing the first occurrence is the `splice(indexOf(x), 1)` of the source:
      any index holding `x` with no `x` before it is the first index. */
  lemma RemoveFirstSplices<C>(s: seq<C>, x: C, i: nat)
    requires i < |s| && s[i] == x && x !in s[..i]
    ensures RemoveFirst(s, x) == s[..i] + s[i + 1..]
  {
    assert FirstIndex(s, x) == i;
  }

  /** `list.splice(list.indexOf(x), 1)` guarded by `indexOf(x) !== -1` is
      removing the first occurrence of `x`. */
  lemma SpliceAtIndexOf<C>(list: seq<C>, x: C, index: int)
    requires -1 <= index < |list|
    requires index == -1 <==> x !in list
    requires index != -1 ==> list[index] == x && x !in list[..index]
    ensures (if index == -1 then list else list[..index] + list[index + 1..]) == RemoveFirst(list, x)
  {
    if index != -1 {
      RemoveFirstSplices(list, x, index);
    }
  }

  /** `order` with `m` removed: the key order after `delete subscribers[m]`. */
  function Without(order: seq<MarketId>, m: MarketId): (r: seq<MarketId>)
    ensures forall x :: x in r <==> x in order && x != m
    ensures Distinct(order) ==> Distinct(r)
    ensures m !in order ==> r == order
  {
    if order == [] then []
    else
      var rest := Without(order[1..], m);
      if order[0] == m then rest
      else
        assert Distinct(order) ==> order[0] !in order[1..];
        [order[0]] + rest
  }

  /** In a duplicate-free key order, removing a key splices it out at its
      index: the remaining keys keep their order. */
  lemma WithoutSplices(order: seq<MarketId>, m: MarketId, i: nat)
    requires Distinct(order) && i < |order| && order[i] == m
    ensures Without(order, m) == order[..i] + order[i + 1..]
  {
    assert m !in order[..i] && m !in order[i + 1..];
    WithoutSpliceAt(order, m, i);
  }

  /** Removing a key that occurs once, at index `i`, splices it out there. */
  lemma {:induction false} WithoutSpliceAt(order: seq<MarketId>, m: MarketId, i: nat)
    requires i < |order| && order[i] == m && m !in order[..i] && m !in order[i + 1..]
    ensures Without(order, m) == order[..i] + order[i + 1..]
    decreases i
  {
    var tail := order[1..];
    if i == 0 {
      assert Without(order, m) == Without(tail, m) == tail;
    } else {
      assert order[0] in order[..i];
      assert tail[..i - 1] == order[1..i] && tail[i..] == order[i + 1..];
      WithoutSpliceAt(tail, m, i - 1);
      assert [order[0]] + tail[..i - 1] == order[..i];
    }
  }

  /** The registry after `subscribe` has appended `cb` to the list of `m`. */
  function Registered<C>(s: Session<C>, m: MarketId, cb: C): Session<C>
  {
    s.(subscribers := s.subscribers[m := Listeners(s.subscribers, m) + [cb]],
       order := if m in s.subscribers then s.order else s.order + [m])
  }

  /** `subscribe(marketId, callback)`: append the callback to the market's list
      (creating it), then send a subscribe frame if connected, otherwise run
      `connect`. */
  function AfterSubscribe<C>(s: Session<C>, m: MarketId, cb: C, now: int, ex: Exchange): Session<C>
  {
    var r := Registered(s, m, cb);
    if s.connected then r.(sent := r.sent + [SubscribeFrame(m)]) else AfterConnect(r, now, ex)
  }

  /** The registry after `unsubscribe` has removed the callback, or the whole
      entry when no callback is given, from a known market. */
  function Deregistered<C(==)>(s: Session<C>, m: MarketId, cb: Option<C>): (r: Session<C>)
    requires m in s.subscribers
    ensures forall k :: k != m ==> (k in r.subscribers <==> k in s.subscribers)
    ensures forall k :: k != m && k in r.subscribers ==> r.subscribers[k] == s.subscribers[k]
  {
    match cb
    case Some(c) => s.(subscribers := s.subscribers[m := RemoveFirst(s.subscribers[m], c)])
    case None => s.(subscribers := s.subscribers - {m}, order := Without(s.order, m))
  }

  /** `unsubscribe(marketId, callback)`: unknown markets are ignored; with a
      callback, its first occurrence is removed; without one, the entry is
      deleted; then, if connected and the entry is gone or empty, an
      unsubscribe frame is sent. */
  function AfterUnsubscribe<C(==)>(s: Session<C>, m: MarketId, cb: Option<C>): Session<C>
  {
    if m !in s.subscribers then s
    else
      var r := Deregistered(s, m, cb);
      if r.connected && (m !in r.subscribers || r.subscribers[m] == [])
      then r.(sent := r.sent + [UnsubscribeFrame(m)])
      else r
  }

  lemma RegisteredValid<C>(s: Session<C>, m: MarketId, cb: C)
    requires SessionValid(s)
    ensures SessionValid(Registered(s, m, cb))
  {
    var r := Registered(s, m, cb);
    if m !in s.subscribers {
      assert m !in s.order;
      forall i, j | 0 <= i < j < |r.order| ensures r.order[i] != r.order[j] {
        if j == |s.order| {
          assert r.order[i] == s.order[i];
        } else {
          assert r.order[i] == s.order[i] && r.order[j] == s.order[j];
        }
      }
    }
  }

  lemma DeregisteredValid<C>(s: Session<C>, m: MarketId, cb: Option<C>)
    requires SessionValid(s) && m in s.subscribers
    ensures SessionValid(Deregistered(s, m, cb))
  {
  }

  lemma ConnectKeepsValid<C>(s: Session<C>, now: int, ex: Exchange)
    requires SessionValid(s)
    ensures SessionValid(AfterConnect(s, now, ex))
    ensures AfterConnect(s, now, ex).subscribers == s.subscribers
    ensures AfterConnect(s, now, ex).order == s.order
    ensures AfterConnect(s, now, ex).sent == s.sent
    ensures AfterConnect(s, now, ex).connected == s.connected
  {
  }

  /** Subscribing changes the registry only at `m`, where the callback is
      appended; it sends exactly one subscribe frame for `m` when connected,
      whether or not `m` already had callbacks, and otherwise sends nothing and
      starts `connect`. */
  lemma SubscribeEffect<C>(s: Session<C>, m: MarketId, cb: C, now: int, ex: Exchange)
    requires SessionValid(s)
    ensures var s' := AfterSubscribe(s, m, cb, now, ex);
      && SessionValid(s')
      && s'.subscribers == s.subscribers[m := Listeners(s.subscribers, m) + [cb]]
      && (s.connected ==> s'.sent == s.sent + [SubscribeFrame(m)] && s'.reconnectAttempts == s.reconnectAttempts)
      && (!s.connected ==> s'.sent == s.sent && s' == AfterConnect(Registered(s, m, cb), now, ex))
  {
    RegisteredValid(s, m, cb);
    ConnectKeepsValid(Registered(s, m, cb), now, ex);
  }

  /** Unsubscribing never touches another market's list, and sends an
      unsubscribe frame exactly when the client is connected, the market was
      known, and its entry ends up absent or empty. */
  lemma UnsubscribeEffect<C>(s: Session<C>, m: MarketId, cb: Option<C>)
    requires SessionValid(s)
    ensures var s' := AfterUnsubscribe(s, m, cb);
      && SessionValid(s')
      && (forall k :: k != m ==> (k in s'.subscribers <==> k in s.subscribers))
      && (forall k :: k != m ==> Listeners(s'.subscribers, k) == Listeners(s.subscribers, k))
      && (m !in s.subscribers ==> s' == s)
      && (m in s.subscribers && cb.None? ==> s'.subscribers == s.subscribers - {m})
      && (m in s.subscribers && cb.Some? ==>
            && s'.subscribers == s.subscribers[m := RemoveFirst(s.subscribers[m], cb.value)]
            && s'.order == s.order
            && multiset(s'.subscribers[m]) == multiset(s.subscribers[m]) - multiset{cb.value})
      && (s'.sent == s.sent + [UnsubscribeFrame(m)] || s'.sent == s.sent)
      && (s'.sent != s.sent <==> s.connected && m in s.subscribers && Listeners(s'.subscribers, m) == [])
  {
    if m in s.subscribers {
      DeregisteredValid(s, m, cb);
    }
    UnsubscribeKeepsOtherMarkets(s, m, cb);
    UnsubscribeFrameRule(s, m, cb);
  }

  /** Unsubscribing leaves every other market's entry as it was. */
  lemma UnsubscribeKeepsOtherMarkets<C>(s: Session<C>, m: MarketId, cb: Option<C>)
    ensures var s' := AfterUnsubscribe(s, m, cb);
      && (forall k :: k != m ==> (k in s'.subscribers <==> k in s.subscribers))
      && (forall k :: k != m ==> Listeners(s'.subscribers, k) == Listeners(s.subscribers, k))
  {
  }

  /** Unsubscribing sends at most one frame, and sends it exactly when the
      client is connected and the market's entry ends up absent or empty. */
  lemma UnsubscribeFrameRule<C>(s: Session<C>, m: MarketId, cb: Option<C>)
    ensures var s' := AfterUnsubscribe(s, m, cb);
      && (s'.sent == s.sent + [UnsubscribeFrame(m)] || s'.sent == s.sent)
      && (s'.sent != s.sent <==> s.connected && m in s.subscribers && Listeners(s'.subscribers, m) == [])
  {
  }

  /** Removing the last callback of a market by name leaves an empty list under
      its key: the key stays in the registry (an unsubscribe frame is sent if
      connected), so the market is still replayed when the socket next opens. */
  lemma EmptiedEntryStillReplayed<C>(s: Session<C>, m: MarketId, cb: C)
    requires SessionValid(s) && m in s.subscribers && s.subscribers[m] == [cb]
    ensures var s' := AfterUnsubscribe(s, m, Some(cb));
      && s'.subscribers == s.subscribers[m := []]
      && (s.connected ==> s'.sent == s.sent + [UnsubscribeFrame(m)])
      && Occurrences(AfterOpen(s').sent[|s'.sent| + 1..], SubscribeFrame(m)) == 1
  {
    var s' := AfterUnsubscribe(s, m, Some(cb));
    assert RemoveFirst([cb], cb) == [];
    assert Deregistered(s, m, Some(cb)).subscribers == s.subscribers[m := []];
    UnsubscribeEffect(s, m, Some(cb));
    OpenReplaysEveryMarketOnce(s', m);
  }

  /** Subscribing a callback to a new market and then unsubscribing that
      callback does not restore the registry: the market keeps an empty list.
      (The rest of `subscribe` leaves the registry alone, by SubscribeEffect.) */
  lemma SubscribeUnsubscribeLeavesEmptyEntry<C>(s: Session<C>, m: MarketId, cb: C)
    requires m !in s.subscribers
    ensures var r := Registered(s, m, cb);
      m in r.subscribers && Deregistered(r, m, Some(cb)).subscribers == s.subscribers[m := []]
  {
    var r := Registered(s, m, cb);
    assert r.subscribers[m] == [cb];
    assert RemoveFirst([cb], cb) == [];
  }

  /** The market a frame updates: a `market_update` with a truthy `marketId`
      that has an entry in the registry. */
  function UpdatedMarket<C>(frame: Inbound, subs: map<MarketId, seq<C>>): (r: Option<MarketId>)
    ensures r.Some? ==> r.value in subs && r.value != ""
    ensures r.Some? ==> frame.Frame? && frame.kind == Some("market_update") && frame.marketId == Some(r.value)
    ensures (frame.Frame? && frame.kind == Some("market_update") && frame.marketId.Some?
             && frame.marketId.value != "" && frame.marketId.value in subs) ==> r == frame.marketId
  {
    match frame
    case Frame(Some("market_update"), Some(m), _) => if m != "" && m in subs then Some(m) else None
    case _ => None
  }

  /** The calls the message handler makes for a frame: every callback of the
      updated market, in list order, with the frame's `data`. */
  function Notifications<C>(s: Session<C>, frame: Inbound): seq<Invocation<C>>
  {
    match UpdatedMarket(frame, s.subscribers)
    case None => []
    case Some(m) => seq(|s.subscribers[m]|, i requires 0 <= i < |s.subscribers[m]| => Invocation(s.subscribers[m][i], frame.data))
  }

  // ---------------------------------------------------------------------------
  // Bets

  /** `placeBet`: fetch a token, then POST the bet with it. */
  function AfterPlaceBet<C>(s: Session<C>, bet: Bet, now: int, ex: Exchange): Session<C>
  {
    var s' := AfterToken(s, now, ex);
    match TokenResult(s, now, ex)
    case Ok(token) => s'.(betPosts := s'.betPosts + [BetPost(bet, token)])
    case Err(_) => s'
  }

  /** What `placeBet` returns (the response body) or throws. */
  function PlaceBetResult<C>(s: Session<C>, now: int, ex: Exchange, post: Post): Result<Value>
  {
    match TokenResult(s, now, ex)
    case Err(message) => Err(message)
    case Ok(_) =>
      match post
      case Responded(data) => Ok(data)
      case PostFailed(message) => Err(message)
  }

  /** A bet is POSTed once, with the token getAccessToken yields, exactly when
      a token can be had; the result is the endpoint's answer, or the token
      error when there is no token. */
  lemma PlaceBetEffect<C>(s: Session<C>, bet: Bet, now: int, ex: Exchange, post: Post)
    ensures var s' := AfterPlaceBet(s, bet, now, ex);
      && (TokenResult(s, now, ex).Ok? ==> s'.betPosts == s.betPosts + [BetPost(bet, TokenResult(s, now, ex).value)])
      && (TokenResult(s, now, ex).Err? ==>
            s'.betPosts == s.betPosts && PlaceBetResult(s, now, ex, post) == Err(TokenResult(s, now, ex).message))
      && (TokenResult(s, now, ex).Ok? && post.Responded? ==> PlaceBetResult(s, now, ex, post) == Ok(post.data))
      && (TokenResult(s, now, ex).Ok? && post.PostFailed? ==> PlaceBetResult(s, now, ex, post) == Err(post.message))
      && s'.sent == s.sent && s'.subscribers == s.subscribers
  {
  }

  /** `placeBet` touches only the token cache and the bet posts. */
  lemma PlaceBetKeepsRest<C>(s: Session<C>, bet: Bet, now: int, ex: Exchange)
    ensures var t := AfterPlaceBet(s, bet, now, ex);
      t == s.(accessToken := t.accessToken, tokenExpiry := t.tokenExpiry, exchanges := t.exchanges, betPosts := t.betPosts)
  {
  }

  // ---------------------------------------------------------------------------
  // Runs of events

  /** One event the client reacts to. */
  datatype Event<C> =
    | Opened
    | Closed
    | Errored
    | TimerFired(now: int, ex: Exchange)
    | ConnectCalled(now: int, ex: Exchange)
    | Subscribed(market: MarketId, callback: C, now: int, ex: Exchange)
    | Unsubscribed(market: MarketId, which: Option<C>)
    | BetPlaced(bet: Bet, now: int, ex: Exchange)
    | Received(frame: Inbound)

  /** Socket events need a socket and a timer needs to have been scheduled. */
  predicate Enabled<C>(s: Session<C>, e: Event<C>)
  {
    match e
    case Opened => s.hasSocket
    case Closed => s.hasSocket
    case Errored => s.hasSocket
    case TimerFired(_, _) => s.pendingReconnects > 0
    case _ => true
  }

  /** The session after an event; an event that cannot happen changes nothing. */
  function Step<C(==)>(s: Session<C>, e: Event<C>): Session<C>
  {
    if !Enabled(s, e) then s
    else match e
      case Opened => AfterOpen(s)
      case Closed => AfterClose(s)
      case Errored => AfterError(s)
      case TimerFired(now, ex) => AfterTimer(s, now, ex)
      case ConnectCalled(now, ex) => AfterConnect(s, now, ex)
      case Subscribed(m, cb, now, ex) => AfterSubscribe(s, m, cb, now, ex)
      case Unsubscribed(m, cb) => AfterUnsubscribe(s, m, cb)
      case BetPlaced(bet, now, ex) => AfterPlaceBet(s, bet, now, ex)
      case Received(_) => s
  }

  function Run<C(==)>(s: Session<C>, events: seq<Event<C>>): Session<C>
    decreases |events|
  {
    if events == [] then s else Run(Step(s, events[0]), events[1..])
  }

  /** Every event keeps the session invariant, in particular the bound on the
      reconnect counter. */
  lemma StepKeepsValid<C>(s: Session<C>, e: Event<C>)
    requires SessionValid(s)
    ensures SessionValid(Step(s, e))
  {
    if Enabled(s, e) {
      match e
      case Subscribed(m, cb, now, ex) => SubscribeEffect(s, m, cb, now, ex);
      case Unsubscribed(m, cb) => UnsubscribeEffect(s, m, cb);
      case TimerFired(now, ex) =>
        ConnectKeepsValid(s.(pendingReconnects := s.pendingReconnects - 1), now, ex);
      case ConnectCalled(now, ex) => ConnectKeepsValid(s, now, ex);
      case BetPlaced(bet, now, ex) =>
        assert Step(s, e).subscribers == s.subscribers && Step(s, e).order == s.order;
      case _ =>
    }
  }

  /** Between two `open` events the client schedules at most five reconnect
      timers in all: every timer it schedules is counted in `reconnectAttempts`,
      which never exceeds the limit and only an `open` resets. */
  lemma {:induction false} ReconnectBudget<C>(s: Session<C>, events: seq<Event<C>>)
    requires SessionValid(s)
    requires forall i :: 0 <= i < |events| ==> !events[i].Opened?
    ensures var t := Run(s, events);
      && SessionValid(t)
      && t.reconnectsScheduled - s.reconnectsScheduled == t.reconnectAttempts - s.reconnectAttempts
      && t.reconnectsScheduled <= s.reconnectsScheduled + MaxReconnectAttempts - s.reconnectAttempts
    decreases |events|
  {
    if events != [] {
      StepKeepsValid(s, events[0]);
      StepBudget(s, events[0]);
      ReconnectBudget(Step(s, events[0]), events[1..]);
    }
  }

  /** Every event but `open` raises the reconnect counter by exactly the
      number of timers it schedules. */
  lemma StepBudget<C>(s: Session<C>, e: Event<C>)
    requires !e.Opened?
    ensures Step(s, e).reconnectsScheduled - s.reconnectsScheduled == Step(s, e).reconnectAttempts - s.reconnectAttempts
  {
    if Enabled(s, e) {
      match e
      case Subscribed(m, cb, now, ex) =>
        ConnectBudget(Registered(s, m, cb), now, ex);
      case Unsubscribed(m, cb) =>
      case TimerFired(now, ex) =>
        ConnectBudget(s.(pendingReconnects := s.pendingReconnects - 1), now, ex);
      case ConnectCalled(now, ex) =>
        ConnectBudget(s, now, ex);
      case BetPlaced(bet, now, ex) =>
      case _ =>
    }
  }

  /** `connect` schedules a timer exactly when it raises the reconnect counter. */
  lemma ConnectBudget<C>(s: Session<C>, now: int, ex: Exchange)
    ensures var t := AfterConnect(s, now, ex);
      t.reconnectsScheduled - s.reconnectsScheduled == t.reconnectAttempts - s.reconnectAttempts
  {
    var t := AfterToken(s, now, ex);
    assert t.reconnectsScheduled == s.reconnectsScheduled && t.reconnectAttempts == s.reconnectAttempts;
  }

  /** Once the budget is spent, `close` events schedule nothing more. */
  lemma ExhaustedBudgetSchedulesNothing<C>(s: Session<C>)
    requires s.hasSocket && s.reconnectAttempts == MaxReconnectAttempts
    ensures Step(s, Closed).reconnectsScheduled == s.reconnectsScheduled
    ensures Step(s, Closed).pendingReconnects == s.pendingReconnects
    ensures !Step(s, Closed).connected
  {
  }

  // ---------------------------------------------------------------------------
  // The client itself

  /** The TabAPI object. Its methods update its fields in place and are proved
      to follow the functions above. */
  class TabClient<C(==)> {
    var accessToken: Option<string>
    var tokenExpiry: int
    var exchanges: nat
    var betPosts: seq<BetPost>
    /** `this.ws` is not null */
    var hasSocket: bool
    /** The token the current socket's open handler will send. */
    var socketToken: string
    var connected: bool
    var reconnectAttempts: nat
    var pendingReconnects: nat
    var reconnectsScheduled: nat
    var subscribers: map<MarketId, seq<C>>
    var order: seq<MarketId>
    var sent: seq<UpFrame>

    function State(): Session<C>
      reads this
    {
      Session(accessToken, tokenExpiry, exchanges, betPosts, hasSocket, socketToken, connected,
              reconnectAttempts, pendingReconnects, reconnectsScheduled, subscribers, order, sent)
    }

    ghost predicate Valid()
      reads this
    {
      SessionValid(State())
    }

    constructor()
      ensures Valid() && State() == InitialSession()
    {
      accessToken, tokenExpiry, exchanges, betPosts := None, 0, 0, [];
      hasSocket, socketToken, connected := false, "", false;
      reconnectAttempts, pendingReconnects, reconnectsScheduled := 0, 0, 0;
      subscribers, order, sent := map[], [], [];
    }

    method GetAccessToken(now: int, ex: Exchange) returns (r: Result<string>)
      modifies this
      ensures State() == AfterToken(old(State()), now, ex)
      ensures r == TokenResult(old(State()), now, ex)
    {
      if accessToken.Some? && accessToken.value != "" && tokenExpiry > now {
        return Ok(accessToken.value);
      }
      exchanges := exchanges + 1;
      match ex
      case Granted(token, expiresIn) =>
        accessToken := Some(token);
        tokenExpiry := now + (expiresIn - TokenSafetyMarginSeconds) * 1000;
        r := Ok(token);
      case Refused(message) =>
        r := Err(message);
    }

    method Reconnect()
      requires Valid()
      modifies this
      ensures Valid() && State() == AfterReconnect(old(State()))
    {
      if reconnectAttempts >= MaxReconnectAttempts {
        return;
      }
      reconnectAttempts := reconnectAttempts + 1;
      // setTimeout(() => this.connect(), ReconnectIntervalMs)
      pendingReconnects := pendingReconnects + 1;
      reconnectsScheduled := reconnectsScheduled + 1;
    }

    method Connect(now: int, ex: Exchange)
      requires Valid()
      modifies this
      ensures Valid() && State() == AfterConnect(old(State()), now, ex)
    {
      if hasSocket && connected {
        return;
      }
      var token := GetAccessToken(now, ex);
      match token
      case Ok(t) =>
        hasSocket := true;
        socketToken := t;
      case Err(_) =>
        Reconnect();
    }

    /** The socket's `open` event. */
    method OnOpen()
      requires Valid() && hasSocket
      modifies this
      ensures Valid() && State() == AfterOpen(old(State()))
    {
      connected := true;
      reconnectAttempts := 0;
      sent := sent + [AuthFrame(socketToken)];
      // Object.keys(this.subscribers).forEach(...)
      var resubscribe := [];
      var i := 0;
      while i < |order|
        invariant 0 <= i <= |order|
        invariant resubscribe == SubscribeFrames(order[..i])
      {
        assert order[..i + 1][..i] == order[..i];
        resubscribe := resubscribe + [SubscribeFrame(order[i])];
        i := i + 1;
      }
      assert order[..i] == order;
      sent := sent + resubscribe;
    }

    /** The socket's `message` event: the callbacks to call, in order. */
    method OnMessage(frame: Inbound) returns (calls: seq<Invocation<C>>)
      ensures UpdatedMarket(frame, subscribers).None? ==> calls == []
      ensures UpdatedMarket(frame, subscribers).Some? ==>
        var list := subscribers[UpdatedMarket(frame, subscribers).value];
        |calls| == |list| && forall i :: 0 <= i < |list| ==> calls[i] == Invocation(list[i], frame.data)
      ensures calls == Notifications(State(), frame)
    {
      calls := [];
      if frame.Frame? && frame.kind == Some("market_update") && frame.marketId.Some?
         && frame.marketId.value != "" && frame.marketId.value in subscribers {
        var list := subscribers[frame.marketId.value];
        var i := 0;
        while i < |list|
          invariant 0 <= i <= |list|
          invariant |calls| == i
          invariant forall k :: 0 <= k < i ==> calls[k] == Invocation(list[k], frame.data)
        {
          calls := calls + [Invocation(list[i], frame.data)];
          i := i + 1;
        }
      }
    }

    /** The socket's `close` event. */
    method OnClose()
      requires Valid() && hasSocket
      modifies this
      ensures Valid() && State() == AfterClose(old(State()))
    {
      connected := false;
      Reconnect();
    }

    /** The socket's `error` event. */
    method OnError()
      requires Valid() && hasSocket
      modifies this
      ensures Valid() && State() == AfterError(old(State()))
    {
      connected := false;
    }

    /** A reconnect timer firing. */
    method OnReconnectTimer(now: int, ex: Exchange)
      requires Valid() && pendingReconnects > 0
      modifies this
      ensures Valid() && State() == AfterTimer(old(State()), now, ex)
    {
      pendingReconnects := pendingReconnects - 1;
      Connect(now, ex);
    }

    method Subscribe(m: MarketId, cb: C, now: int, ex: Exchange)
      requires Valid()
      modifies this
      ensures Valid() && State() == AfterSubscribe(old(State()), m, cb, now, ex)
    {
      RegisteredValid(State(), m, cb);
      if m !in subscribers {
        subscribers := subscribers[m := []];
        order := order + [m];
      }
      subscribers := subscribers[m := subscribers[m] + [cb]];
      assert State() == Registered(old(State()), m, cb);
      if !connected {
        Connect(now, ex);
      } else {
        sent := sent + [SubscribeFrame(m)];
      }
    }

    method Unsubscribe(m: MarketId, cb: Option<C>)
      requires Valid()
      modifies this
      ensures Valid() && State() == AfterUnsubscribe(old(State()), m, cb)
    {
      if m !in subscribers {
        return;
      }
      DeregisteredValid(State(), m, cb);
      Deregister(m, cb);
      if connected && (m !in subscribers || |subscribers[m]| == 0) {
        sent := sent + [UnsubscribeFrame(m)];
      }
    }

    /** The registry half of `unsubscribe`: `splice` the callback's first
        occurrence out of the list, or `delete` the entry. */
    method Deregister(m: MarketId, cb: Option<C>)
      requires m in subscribers
      modifies this`subscribers, this`order
      ensures State() == Deregistered(old(State()), m, cb)
    {
      match cb {
        case Some(c) =>
          var list := subscribers[m];
          var index := IndexOf(list, c);
          var rest := list;
          if index != -1 {
            rest := list[..index] + list[index + 1..];
          }
          SpliceAtIndexOf(list, c, index);
          subscribers := subscribers[m := rest];
        case None =>
          subscribers := subscribers - {m};
          order := Without(order, m);
      }
    }

    method PlaceBet(bet: Bet, now: int, ex: Exchange, post: Post) returns (r: Result<Value>)
      modifies this
      ensures State() == AfterPlaceBet(old(State()), bet, now, ex)
      ensures r == PlaceBetResult(old(State()), now, ex, post)
    {
      var token := GetAccessToken(now, ex);
      match token
      case Err(message) =>
        r := Err(message);
      case Ok(t) =>
        betPosts := betPosts + [BetPost(bet, t)];
        match post
        case Responded(data) => r := Ok(data);
        case PostFailed(message) => r := Err(message);
    }
  }

  /** `Array.prototype.indexOf`: the first index holding `x`, or -1. */
  method IndexOf<C(==)>(s: seq<C>, x: C) returns (index: int)
    ensures -1 <= index < |s|
    ensures index == -1 <==> x !in s
    ensures index != -1 ==> s[index] == x && x !in s[..index]
  {
    index := 0;
    while index < |s|
      invariant 0 <= index <= |s|
      invariant x !in s[..index]
    {
      if s[index] == x {
        return;
      }
      assert s[..index + 1] == s[..index] + [s[index]];
      index := index + 1;
    }
    assert s[..index] == s;
    index := -1;
  }
}
