/**
 * The per-symbol quote records that the live feed's `market-data` events are merged into.
 * A record is a JavaScript object whose keys may be absent; every field is therefore optional.
 */
module MarketData {
  import opened Wrappers

  /** The JavaScript value of a `bidChanged` property: `null` or a string such as "up" or "down". */
  datatype Change = Null | Text(s: string)

  const Up: Change := Text("up")
  const Down: Change := Text("down")

  /**
   * One quote record, either as it arrives in a `market-data` event or as it is stored.
   * `None` stands for a key the object does not carry.
   */
  datatype Quote = Quote(
    symbol: Option<string>,
    bid: Option<real>,
    ask: Option<real>,
    high: Option<real>,
    low: Option<real>,
    bidChanged: Option<Change>)

  /** The object with no keys: what `...prevData[symbol]` spreads when the symbol is new. */
  const Empty: Quote := Quote(None, None, None, None, None, None)

  /** The store: symbol to latest record (`marketData` in the views). */
  type Store = map<string, Quote>

  /** The numeric price fields of a record, named so that lemmas can speak of all of them at once. */
  datatype PriceField = Bid | Ask | High | Low

  function Field(q: Quote, f: PriceField): Option<real> {
    match f
    case Bid => q.bid
    case Ask => q.ask
    case High => q.high
    case Low => q.low
  }

  /** The newer value if the newer object carries the key, otherwise the older one (object spread). */
  function Over<T>(newer: Option<T>, older: Option<T>): (r: Option<T>)
    ensures newer.Some? ==> r == newer
    ensures newer.None? ==> r == older
  {
    if newer.Some? then newer else older
  }

  /** `{ ...prev, ...data }`: every key `data` carries wins, every other key keeps `prev`'s value. */
  function Overlay(prev: Quote, data: Quote): (r: Quote)
    ensures forall f :: Field(r, f) == Over(Field(data, f), Field(prev, f))
    ensures r.symbol == Over(data.symbol, prev.symbol)
    ensures r.bidChanged == Over(data.bidChanged, prev.bidChanged)
  {
    Quote(
      Over(data.symbol, prev.symbol),
      Over(data.bid, prev.bid),
      Over(data.ask, prev.ask),
      Over(data.high, prev.high),
      Over(data.low, prev.low),
      Over(data.bidChanged, prev.bidChanged))
  }

  /**
   * The guard `data && data.symbol`: the event payload is an object (not `null`) whose symbol
   * is present and truthy, i.e. a non-empty string.
   */
  predicate IsWellFormed(msg: Option<Quote>) {
    msg.Some? && msg.value.symbol.Some? && msg.value.symbol.value != ""
  }

  /** The symbol a well-formed message is filed under. */
  function SymbolOf(msg: Option<Quote>): string
    requires IsWellFormed(msg)
  {
    msg.value.symbol.value
  }

  /** True when the message is well formed and names `s`. */
  predicate IsFor(msg: Option<Quote>, s: string) {
    IsWellFormed(msg) && SymbolOf(msg) == s
  }

  /** `prevData[s]` when it exists. */
  function Lookup(store: Store, s: string): Option<Quote> {
    if s in store then Some(store[s]) else None
  }

  /** What `...prevData[s]` contributes to a spread: the record, or nothing. */
  function Previous(store: Store, s: string): Quote {
    Lookup(store, s).GetOr(Empty)
  }

  /** Every stored record is filed under its own symbol. */
  ghost predicate WellKeyed(store: Store) {
    forall s :: s in store ==> store[s].symbol == Some(s)
  }

  /** The last value a sequence of writes carries for one key, or `init` if none of them carries it. */
  function Latest<T>(init: Option<T>, writes: seq<Option<T>>): Option<T> {
    if |writes| == 0 then init else Over(writes[|writes| - 1], Latest(init, writes[..|writes| - 1]))
  }
}
