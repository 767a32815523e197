/**
 * The mobile page: it loads its configuration with defensive defaults, holds at most one
 * socket through a reference it sets and clears, and merges `market-data` events into the
 * quote store without classifying the bid direction.
 */
module MobileView {
  import opened Wrappers
  import opened MarketData
  import CommodityTable
  import TvScreen

  /** The symbols the page asks for on connect. */
  const Subscribed: seq<string> := ["GOLD", "SILVER"]

  // ---------------------------------------------------------------------------------
  // Quote store

  /**
   * The state updater for one `market-data` event: a malformed payload is dropped;
   * otherwise the symbol's record becomes the previous record overlaid by the payload
   * (a `bidChanged` the payload carries is stored like any other key) and no other
   * symbol is touched.
   */
  function Merge(store: Store, msg: Option<Quote>): (r: Store)
    ensures !IsWellFormed(msg) ==> r == store
    ensures IsWellFormed(msg) ==>
      var s := SymbolOf(msg);
      && r.Keys == store.Keys + {s}
      && (forall k :: k in store && k != s ==> r[k] == store[k])
      && (forall f :: Field(r[s], f) == Over(Field(msg.value, f), Field(Previous(store, s), f)))
      && r[s].symbol == Some(s)
      && r[s].bidChanged == Over(msg.value.bidChanged, Previous(store, s).bidChanged)
  {
    if IsWellFormed(msg) then
      var s := SymbolOf(msg);
      store[s := Overlay(Previous(store, s), msg.value)]
    else
      store
  }

  /**
   * The two pages keep the same records apart from `bidChanged`: the same keys, and for
   * every key the same record once the TV screen's direction is written over it.
   */
  lemma MergesAgreeButForDirection(store: Store, msg: Option<Quote>)
    ensures Merge(store, msg).Keys == TvScreen.Merge(store, msg).Keys
    ensures forall k :: k in Merge(store, msg) ==>
      TvScreen.Merge(store, msg)[k] == Merge(store, msg)[k].(bidChanged := TvScreen.Merge(store, msg)[k].bidChanged)
  {
  }

  /** Applying the same event twice in a row stores the same record as applying it once. */
  lemma MergeIdempotent(store: Store, msg: Option<Quote>)
    ensures Merge(Merge(store, msg), msg) == Merge(store, msg)
  {
    if IsWellFormed(msg) {
      var s := SymbolOf(msg);
      var once := Merge(store, msg);
      assert Previous(once, s) == Overlay(Previous(store, s), msg.value);
      assert Overlay(Previous(once, s), msg.value) == Previous(once, s);
    }
  }

  // ---------------------------------------------------------------------------------
  // Configuration loading

  /** The shape of a response property that should hold an array. */
  datatype Listing<T> = Missing | NotArray | Items(items: seq<T>)

  /** A spread value as the configuration service returns it. */
  datatype Scalar = Str(s: string) | Num(n: real)

  /** A news headline. */
  datatype NewsItem = NewsItem(description: string)

  /** `spotRatesRes.data.info`; a spread is `None` when it is `null` or absent. */
  datatype SpotInfo = SpotInfo(
    commodities: Listing<CommodityTable.Commodity>,
    goldBidSpread: Option<Scalar>,
    goldAskSpread: Option<Scalar>,
    silverBidSpread: Option<Scalar>,
    silverAskSpread: Option<Scalar>)

  /** The state that `loadData` sets. */
  datatype Config = Config(
    commodities: seq<CommodityTable.Commodity>,
    goldBidSpread: Scalar,
    goldAskSpread: Scalar,
    silverBidSpread: Scalar,
    silverAskSpread: Scalar,
    serverURL: string,
    news: seq<NewsItem>)

  /** The state before anything has loaded. */
  const Initial: Config := Config([], Str(""), Str(""), Str(""), Str(""), "", [])

  /** An array property read defensively: the array, or `[]` for anything else. */
  function ArrayOrEmpty<T>(l: Listing<T>): (r: seq<T>)
    ensures l.Items? ==> r == l.items
    ensures !l.Items? ==> r == []
  {
    if l.Items? then l.items else []
  }

  /**
   * The state after the three fetches settle. `spot` is the spot-rate info (`None` when
   * the fetch failed or carried no info), `serverURL` the server URL the response carries
   * (`None` when the fetch failed or carried none), `news` the news array property.
   */
  function Load(c: Config, spot: Option<SpotInfo>, serverURL: Option<string>, news: Listing<NewsItem>): (r: Config)
    ensures spot.None? ==>
      && r.commodities == []
      && r.goldBidSpread == c.goldBidSpread && r.goldAskSpread == c.goldAskSpread
      && r.silverBidSpread == c.silverBidSpread && r.silverAskSpread == c.silverAskSpread
    ensures spot.Some? ==>
      && r.commodities == ArrayOrEmpty(spot.value.commodities)
      && r.goldBidSpread == spot.value.goldBidSpread.GetOr(Str(""))
      && r.goldAskSpread == spot.value.goldAskSpread.GetOr(Str(""))
      && r.silverBidSpread == spot.value.silverBidSpread.GetOr(Str(""))
      && r.silverAskSpread == spot.value.silverAskSpread.GetOr(Str(""))
    ensures r.serverURL == if serverURL.Some? && serverURL.value != "" then serverURL.value else c.serverURL
    ensures r.news == ArrayOrEmpty(news)
  {
    var withSpot :=
      if spot.Some? then
        c.(commodities := ArrayOrEmpty(spot.value.commodities),
           goldBidSpread := spot.value.goldBidSpread.GetOr(Str("")),
           goldAskSpread := spot.value.goldAskSpread.GetOr(Str("")),
           silverBidSpread := spot.value.silverBidSpread.GetOr(Str("")),
           silverAskSpread := spot.value.silverAskSpread.GetOr(Str("")))
      else
        c.(commodities := []);
    var withServer :=
      if serverURL.Some? && serverURL.value != "" then withSpot.(serverURL := serverURL.value) else withSpot;
    withServer.(news := ArrayOrEmpty(news))
  }

  /**
   * A failed fetch costs only its own part of the state: what the other two fetches
   * deliver is stored all the same.
   */
  lemma FailuresAreIndependent(c: Config, spot: Option<SpotInfo>, serverURL: Option<string>, news: Listing<NewsItem>)
    ensures Load(c, None, serverURL, news).serverURL == Load(c, spot, serverURL, news).serverURL
    ensures Load(c, None, serverURL, news).news == Load(c, spot, serverURL, news).news
    ensures Load(c, spot, None, news).commodities == Load(c, spot, serverURL, news).commodities
    ensures Load(c, spot, None, news).news == Load(c, spot, serverURL, news).news
    ensures Load(c, spot, serverURL, Missing).commodities == Load(c, spot, serverURL, news).commodities
    ensures Load(c, spot, serverURL, Missing).serverURL == Load(c, spot, serverURL, news).serverURL
  {
  }

  /** Once a server URL is known, no later load clears it. */
  lemma ServerURLNeverCleared(c: Config, spot: Option<SpotInfo>, serverURL: Option<string>, news: Listing<NewsItem>)
    requires c.serverURL != ""
    ensures Load(c, spot, serverURL, news).serverURL != ""
  {
  }

  /** Loading the same responses again changes nothing. */
  lemma LoadIdempotent(c: Config, spot: Option<SpotInfo>, serverURL: Option<string>, news: Listing<NewsItem>)
    ensures Load(Load(c, spot, serverURL, news), spot, serverURL, news) == Load(c, spot, serverURL, news)
  {
  }

  // ---------------------------------------------------------------------------------
  // The page's mutable state

  /**
   * The page's state. Sockets are numbered in creation order; `live` holds those created
   * and not yet disconnected, `socket` is the reference the page keeps (`socketRef.current`),
   * and `mounted` is the flag of the loading effect.
   */
  class MobileSession {
    var config: Config
    var marketData: Store
    var mounted: bool
    var socket: Option<nat>
    ghost var live: set<nat>
    var nextSocket: nat
    /** Number of malformed events reported with `console.warn`. */
    var warnings: nat

    /** At most one socket is live, and it is the one the reference holds; records are filed under their symbols. */
    ghost predicate Valid()
      reads this
    {
      && (socket.None? ==> live == {})
      && (socket.Some? ==> live == {socket.value} && socket.value < nextSocket)
      && WellKeyed(marketData)
    }

    constructor ()
      ensures Valid()
      ensures config == Initial && marketData == map[] && mounted && socket == None && warnings == 0
    {
      config := Initial;
      marketData := map[];
      mounted := true;
      socket := None;
      live := {};
      nextSocket := 0;
      warnings := 0;
    }

    /** The fetches settle: their results are stored only while the page is mounted. */
    method DeliverLoad(spot: Option<SpotInfo>, serverURL: Option<string>, news: Listing<NewsItem>)
      requires Valid()
      modifies this
      ensures Valid()
      ensures config == if old(mounted) then Load(old(config), spot, serverURL, news) else old(config)
      ensures marketData == old(marketData) && mounted == old(mounted) && socket == old(socket)
      ensures live == old(live) && nextSocket == old(nextSocket) && warnings == old(warnings)
    {
      if !mounted {
        return;
      }
      config := Load(config, spot, serverURL, news);
    }

    /** The loading effect's cleanup: results that arrive later are ignored. */
    method CancelLoad()
      requires Valid()
      modifies this
      ensures Valid()
      ensures !mounted
      ensures config == old(config) && marketData == old(marketData) && socket == old(socket)
      ensures live == old(live) && nextSocket == old(nextSocket) && warnings == old(warnings)
    {
      mounted := false;
    }

    /**
     * The socket effect: nothing without a server URL, nothing while a socket is held;
     * otherwise a fresh socket is created and held.
     */
    method Connect() returns (created: bool)
      requires Valid()
      modifies this
      ensures Valid()
      ensures created <==> old(config).serverURL != "" && old(socket).None?
      ensures created ==>
        socket == Some(old(nextSocket)) && live == old(live) + {old(nextSocket)} && nextSocket == old(nextSocket) + 1
      ensures !created ==> socket == old(socket) && live == old(live) && nextSocket == old(nextSocket)
      ensures config == old(config) && marketData == old(marketData) && mounted == old(mounted)
      ensures warnings == old(warnings)
    {
      if config.serverURL == "" {
        return false;
      }
      if socket.Some? {
        return false;
      }
      socket := Some(nextSocket);
      live := live + {nextSocket};
      nextSocket := nextSocket + 1;
      created := true;
    }

    /** The socket effect's cleanup: disconnect the held socket, if any, and clear the reference. */
    method Cleanup()
      requires Valid()
      modifies this
      ensures Valid()
      ensures socket == None && live == {}
      ensures config == old(config) && marketData == old(marketData) && mounted == old(mounted)
      ensures nextSocket == old(nextSocket) && warnings == old(warnings)
    {
      if socket.Some? {
        live := live - {socket.value};
        socket := None;
      }
    }

    /** The socket's "connect" handler: it asks for the subscribed symbols. */
    method OnConnect() returns (event: string, payload: seq<string>)
      ensures event == "request-data" && payload == ["GOLD", "SILVER"]
    {
      event, payload := TvScreen.RequestEvent, Subscribed;
    }

    /** The socket's "market-data" handler. */
    method OnMarketData(msg: Option<Quote>)
      requires Valid()
      modifies this
      ensures Valid()
      ensures marketData == Merge(old(marketData), msg)
      ensures warnings == if IsWellFormed(msg) then old(warnings) else old(warnings) + 1
      ensures config == old(config) && mounted == old(mounted) && socket == old(socket)
      ensures live == old(live) && nextSocket == old(nextSocket)
    {
      if IsWellFormed(msg) {
        marketData := Merge(marketData, msg);
      } else {
        warnings := warnings + 1;
      }
    }
  }

  /** A valid session never holds two live sockets. */
  lemma AtMostOneSocket(m: MobileSession)
    requires m.Valid()
    ensures |m.live| <= 1
  {
  }

  /**
   * Connecting, cleaning up and connecting again with a known server URL yields a fresh
   * socket, and only that one is live.
   */
  method CleanupThenConnect(m: MobileSession)
    requires m.Valid() && m.config.serverURL != ""
    modifies m
    ensures m.Valid()
    ensures m.socket.Some? && m.live == {m.socket.value} && old(m.socket) != m.socket
  {
    m.Cleanup();
    var created := m.Connect();
    assert created;
  }
}
