/**
 * The TV screen page: it merges every `market-data` event into the quote store and
 * classifies the direction of the bid against the previous record of the same symbol,
 * subscribes on connect, and turns the entitlement check into the limit-modal flag.
 */
module TvScreen {
  import opened Wrappers
  import opened MarketData

  /** The symbols the page subscribes to; the page never changes this list. */
  const Subscribed: seq<string> := ["GOLD", "SILVER"]

  /** The event the client emits once the socket is connected. */
  const RequestEvent: string := "request-data"

  /**
   * The `bidChanged` value written for a message whose bid is `newBid`, given the
   * previous record of its symbol (if any). The comparison is JavaScript's: `!==`
   * on possibly absent values, then `>`, which is false whenever either side is absent.
   */
  function Classify(prev: Option<Quote>, newBid: Option<real>): (r: Change)
    ensures r == Null <==> prev.None? || newBid == prev.value.bid
    ensures r == Up <==>
      prev.Some? && newBid.Some? && prev.value.bid.Some? && newBid.value > prev.value.bid.value
    ensures r == Down <==>
      prev.Some? &&
      ((newBid.Some? && prev.value.bid.Some? && newBid.value < prev.value.bid.value) ||
       newBid.Some? != prev.value.bid.Some?)
  {
    if prev.Some? && newBid != prev.value.bid then
      if newBid.Some? && prev.value.bid.Some? && newBid.value > prev.value.bid.value then Up else Down
    else
      Null
  }

  /**
   * The state updater run for one `market-data` event: a malformed payload leaves the
   * store as it was; otherwise the symbol's record becomes the previous record overlaid
   * by the payload, with `bidChanged` recomputed (written last, so it overrides any
   * `bidChanged` the payload carries), and no other symbol is touched.
   */
  function Merge(store: Store, msg: Option<Quote>): (r: Store)
    ensures !IsWellFormed(msg) ==> r == store
    ensures IsWellFormed(msg) ==>
      var s := SymbolOf(msg);
      && r.Keys == store.Keys + {s}
      && (forall k :: k in store && k != s ==> r[k] == store[k])
      && (forall f :: Field(r[s], f) == Over(Field(msg.value, f), Field(Previous(store, s), f)))
      && r[s].symbol == Some(s)
      && r[s].bidChanged == Some(Classify(Lookup(store, s), msg.value.bid))
  {
    if IsWellFormed(msg) then
      var s := SymbolOf(msg);
      store[s := Overlay(Previous(store, s), msg.value).(bidChanged := Some(Classify(Lookup(store, s), msg.value.bid)))]
    else
      store
  }

  /** The store after a stream of events, applied in arrival order. */
  function ApplyAll(store: Store, msgs: seq<Option<Quote>>): Store {
    if |msgs| == 0 then store else Merge(ApplyAll(store, msgs[..|msgs| - 1]), msgs[|msgs| - 1])
  }

  /** The events of a stream that are well formed and name `s`, in order. */
  function Only(msgs: seq<Option<Quote>>, s: string): seq<Option<Quote>> {
    if |msgs| == 0 then []
    else
      var rest := Only(msgs[..|msgs| - 1], s);
      if IsFor(msgs[|msgs| - 1], s) then rest + [msgs[|msgs| - 1]] else rest
  }

  /** The symbols named by the well-formed events of a stream. */
  function Symbols(msgs: seq<Option<Quote>>): set<string> {
    set i | 0 <= i < |msgs| && IsWellFormed(msgs[i]) :: SymbolOf(msgs[i])
  }

  /** The value of field `f` each event carries (nothing for a `null` payload). */
  function Writes(msgs: seq<Option<Quote>>, f: PriceField): (w: seq<Option<real>>)
    ensures |w| == |msgs|
    ensures forall i :: 0 <= i < |msgs| && msgs[i].Some? ==> w[i] == Field(msgs[i].value, f)
  {
    seq(|msgs|, i requires 0 <= i < |msgs| => if msgs[i].Some? then Field(msgs[i].value, f) else None)
  }

  lemma ApplyAllSnoc(store: Store, msgs: seq<Option<Quote>>, m: Option<Quote>)
    ensures ApplyAll(store, msgs + [m]) == Merge(ApplyAll(store, msgs), m)
  {
    assert (msgs + [m])[..|msgs|] == msgs;
  }

  /** The record of `s` after an event depends only on the record of `s` before it. */
  lemma MergeIsLocal(a: Store, b: Store, msg: Option<Quote>, s: string)
    requires Lookup(a, s) == Lookup(b, s)
    ensures Lookup(Merge(a, msg), s) == Lookup(Merge(b, msg), s)
  {

  }

  /** An event that is malformed or names another symbol leaves the record of `s` alone. */
  lemma MergeOtherSymbol(a: Store, msg: Option<Quote>, s: string)
    requires !IsFor(msg, s)
    ensures Lookup(Merge(a, msg), s) == Lookup(a, s)
  {
  }

  /**
   * Events for different symbols are independent: the record of `s` after any stream is
   * the record after the sub-stream of events that name `s`.
   */
  lemma {:induction false} PerSymbolIndependence(store: Store, msgs: seq<Option<Quote>>, s: string)
    ensures Lookup(ApplyAll(store, msgs), s) == Lookup(ApplyAll(store, Only(msgs, s)), s)
  {
    if |msgs| > 0 {
      var init, m := msgs[..|msgs| - 1], msgs[|msgs| - 1];
      PerSymbolIndependence(store, init, s);
      if IsFor(m, s) {
        ApplyAllSnoc(store, Only(init, s), m);
        MergeIsLocal(ApplyAll(store, init), ApplyAll(store, Only(init, s)), m, s);
      } else {
        MergeOtherSymbol(ApplyAll(store, init), m, s);
      }
    }
  }

  /**
   * Field-wise last-write-wins: after a stream of events for `s`, each price field of the
   * record of `s` is the last value any event carried for it, or its value before the stream.
   */
  lemma {:induction false} LastWriteWins(store: Store, msgs: seq<Option<Quote>>, s: string, f: PriceField)
    requires forall i :: 0 <= i < |msgs| ==> IsFor(msgs[i], s)
    ensures Field(Previous(ApplyAll(store, msgs), s), f) == Latest(Field(Previous(store, s), f), Writes(msgs, f))
  {
    if |msgs| > 0 {
      var init := msgs[..|msgs| - 1];
      LastWriteWins(store, init, s, f);
      assert Writes(msgs, f)[..|msgs| - 1] == Writes(init, f);
    }
  }

  /** A record exists for exactly the symbols present before the stream or named by a well-formed event. */
  lemma {:induction false} KeysAfterStream(store: Store, msgs: seq<Option<Quote>>)
    ensures ApplyAll(store, msgs).Keys == store.Keys + Symbols(msgs)
  {
    if |msgs| > 0 {
      var init, m := msgs[..|msgs| - 1], msgs[|msgs| - 1];
      KeysAfterStream(store, init);
      if IsWellFormed(m) {
        assert Symbols(msgs) == Symbols(init) + {SymbolOf(m)} by {
          forall x | x in Symbols(msgs) ensures x in Symbols(init) + {SymbolOf(m)} {
            var i :| 0 <= i < |msgs| && IsWellFormed(msgs[i]) && SymbolOf(msgs[i]) == x;
            if i < |msgs| - 1 { assert init[i] == msgs[i]; }
          }
          forall x | x in Symbols(init) ensures x in Symbols(msgs) {
            var i :| 0 <= i < |init| && IsWellFormed(init[i]) && SymbolOf(init[i]) == x;
            assert msgs[i] == init[i];
          }
        }
      } else {
        assert Symbols(msgs) == Symbols(init) by {
          forall x | x in Symbols(msgs) ensures x in Symbols(init) {
            var i :| 0 <= i < |msgs| && IsWellFormed(msgs[i]) && SymbolOf(msgs[i]) == x;
            assert i < |msgs| - 1;
            assert init[i] == msgs[i];
          }
          forall x | x in Symbols(init) ensures x in Symbols(msgs) {
            var i :| 0 <= i < |init| && IsWellFormed(init[i]) && SymbolOf(init[i]) == x;
            assert msgs[i] == init[i];
          }
        }
      }
    }
  }

  /**
   * Delivering the same well-formed event twice in a row changes no data field the second
   * time. The second `bidChanged` is `null` exactly when the event carries a bid or the
   * record had none before; otherwise (bid absent from the event, present in the record)
   * the comparison `undefined !== bid` makes it "down".
   */
  lemma RepeatedEvent(store: Store, msg: Option<Quote>)
    requires IsWellFormed(msg)
    ensures
      var s := SymbolOf(msg);
      var once := Merge(store, msg);
      var twice := Merge(once, msg);
      && twice.Keys == once.Keys
      && (forall f :: Field(twice[s], f) == Field(once[s], f))
      && twice[s].symbol == once[s].symbol
      && (twice[s].bidChanged == Some(Null) <==> msg.value.bid.Some? || Previous(store, s).bid.None?)
      && (twice[s].bidChanged != Some(Null) ==> twice[s].bidChanged == Some(Down))
  {

  }

  /** GOLD at bid 100 and then at bid 95: `null` on first sight, then "down". */
  lemma GoldFallsExample()
    ensures
      var first := Some(Quote(Some("GOLD"), Some(100.0), None, None, None, None));
      var second := Some(Quote(Some("GOLD"), Some(95.0), None, None, None, None));
      var s1 := Merge(map[], first);
      var s2 := Merge(s1, second);
      s1["GOLD"].bidChanged == Some(Null) && s2["GOLD"].bidChanged == Some(Down) && s2["GOLD"].bid == Some(95.0)
  {

  }

  /** The outcome of `fetchTVScreenData`: a resolved response, or a rejection that may carry a response status. */
  datatype Entitlement = Resolved(status: int) | Rejected(responseStatus: Option<int>)

  const UnexpectedErrorAlert: string := "An unexpected error occurred."
  const FeedErrorMessage: string := "An error occurred while receiving data"

  /**
   * The limit-modal flag after the entitlement check, and the alert it raises, if any:
   * a 200 response hides the modal, a 403 rejection shows it, any other rejection keeps
   * the flag and alerts, and any other resolved status does nothing.
   */
  function LimitModal(current: bool, outcome: Entitlement): (r: (bool, Option<string>))
    ensures outcome == Resolved(200) ==> r == (false, None)
    ensures outcome == Rejected(Some(403)) ==> r == (true, None)
    ensures outcome.Rejected? && outcome.responseStatus != Some(403) ==> r == (current, Some(UnexpectedErrorAlert))
    ensures outcome.Resolved? && outcome.status != 200 ==> r == (current, None)
    ensures r.0 != current ==> outcome == Resolved(200) || outcome == Rejected(Some(403))
  {
    match outcome
    case Resolved(status) => if status == 200 then (false, None) else (current, None)
    case Rejected(responseStatus) =>
      if responseStatus == Some(403) then (true, None) else (current, Some(UnexpectedErrorAlert))
  }

  /** The page's state that the socket and fetch callbacks update. */
  class TvScreenView {
    var marketData: Store
    var error: Option<string>
    var showLimitModal: bool
    /** Messages shown with `alert`, oldest first. */
    var alerts: seq<string>
    /** Number of malformed events reported with `console.warn`. */
    var warnings: nat

    /** Every stored record is filed under its own symbol. */
    ghost predicate Valid()
      reads this
    {
      WellKeyed(marketData)
    }

    constructor ()
      ensures Valid()
      ensures marketData == map[] && error == None && !showLimitModal && alerts == [] && warnings == 0
    {
      marketData := map[];
      error := None;
      showLimitModal := false;
      alerts := [];
      warnings := 0;
    }

    /** The socket's "connect" handler: it asks for the subscribed symbols. */
    method OnConnect() returns (event: string, payload: seq<string>)
      ensures event == "request-data" && payload == ["GOLD", "SILVER"]
    {
      event, payload := RequestEvent, Subscribed;
    }

    /** The socket's "market-data" handler. */
    method OnMarketData(msg: Option<Quote>)
      requires Valid()
      modifies this
      ensures Valid()
      ensures marketData == Merge(old(marketData), msg)
      ensures warnings == if IsWellFormed(msg) then old(warnings) else old(warnings) + 1
      ensures error == old(error) && showLimitModal == old(showLimitModal) && alerts == old(alerts)
    {
      if IsWellFormed(msg) {
        marketData := Merge(marketData, msg);
      } else {
        warnings := warnings + 1;
      }
    }

    /** The socket's "error" handler. */
    method OnSocketError()
      requires Valid()
      modifies this
      ensures Valid()
      ensures error == Some(FeedErrorMessage)
      ensures marketData == old(marketData) && showLimitModal == old(showLimitModal)
      ensures alerts == old(alerts) && warnings == old(warnings)
    {
      error := Some(FeedErrorMessage);
    }

    /** The `then`/`catch` callbacks of the entitlement check. */
    method OnEntitlement(outcome: Entitlement)
      requires Valid()
      modifies this
      ensures Valid()
      ensures showLimitModal == LimitModal(old(showLimitModal), outcome).0
      ensures alerts == old(alerts) + (var a := LimitModal(old(showLimitModal), outcome).1; if a.Some? then [a.value] else [])
      ensures marketData == old(marketData) && error == old(error) && warnings == old(warnings)
    {
      var (flag, alert) := LimitModal(showLimitModal, outcome);
      showLimitModal := flag;
      if alert.Some? {
        alerts := alerts + [alert.value];
      }
    }
  }
}
