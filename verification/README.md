# Live spot-rate screen: quote merging and retail pricing

This project models the logic inside a live precious-metal rate display for a gold shop.
The display receives gold and silver quotes over a socket, merges each quote into a
per-symbol store and, on the TV screen, marks whether the bid went up or down. Each
configured commodity (gold, kilobar, ten-tola bar, silver) is priced from the spot quote.
The price takes a premium, a conversion from US dollars per troy ounce to UAE dirhams per
gram, a weight multiplier, a unit count, a purity factor and a charge. The display also
guards its single socket, loads its configuration with defaults, and decides whether to
show the usage-limit dialog.

Modules:

- `MarketData` (`market_data.dfy`): the quote record. Every key is optional. It also has the
  object-spread overlay and the well-formedness guard for incoming events.
- `TvScreen` (`tv_screen.dfy`): the merge that classifies the bid direction, streams of
  events, the entitlement decision, and the class `TvScreenView`. That class holds the
  state the page's callbacks update.
- `MobileView` (`mobile_view.dfy`): the merge without classification, configuration loading,
  and the class `MobileSession`. That class holds the socket reference and the `mounted` flag.
- `CommodityTable` (`commodity_table.dfy`): the pricing rule, the purity factor, the weight
  table, rounding for display, metal names and purity labels.
- `SpotRate` (`spot_rate.dfy`): how the stored direction colours the bid and ask cells.
- `Wrappers` (`wrappers.dfy`): `Option`, which stands for a key that may be absent.

Numbers are Dafny `real`s, so the constants 31.103, 3.674, 116.64, 11.664 and 31.1034768
are exact. `Math.round` is modelled as rounding to the nearest integer with halves going
up. `toFixed(2)` is modelled as rounding to hundredths with halves going away from zero.

Facts about the code that the model keeps:

- When there is no previous record, or the bid is unchanged, the TV screen stores the
  direction `bidChanged` as `null`.
- The bid/ask spreads are loaded, and both pages pass them to the spot-rate context. The
  formula in `CommodityTable.jsx` does not use them.
- Only the mobile page refuses to open a second socket.
- An ask of 2005 at purity 916, for one unit in grams with no premium or charge, shows
  216.94 (`CommodityTable.GramSellExample`).

## Model

| member | source | states |
|---|---|---|
| `MarketData.Over` | src/pages/tvscreenView.jsx:119-120 | a key the newer object carries wins; a key it lacks keeps the older value |
| `MarketData.Overlay` | src/pages/tvscreenView.jsx:118-120 | `{...prev, ...data}`: every field, the symbol and `bidChanged` each come from the message if present, otherwise from the previous record |
| `TvScreen.Classify` | src/pages/tvscreenView.jsx:121-126 | `null` iff no previous record or the bid is unchanged; "up" iff both bids are present and the new one is higher; "down" iff it is lower, or exactly one of the two bids is absent |
| `TvScreen.Merge` | src/pages/tvscreenView.jsx:114-131 | malformed payload (null, no symbol, empty symbol): store unchanged; otherwise keys grow by the symbol, other symbols are untouched, each price field is overlaid, the symbol is stored, and `bidChanged` is the fresh classification, whatever the payload carried |
| `TvScreen.MergeIsLocal` | src/pages/tvscreenView.jsx:116-128 | the record of a symbol after an event depends only on its record before it |
| `TvScreen.MergeOtherSymbol` | src/pages/tvscreenView.jsx:116-118 | an event for another symbol, or a malformed one, leaves a symbol's record alone |
| `TvScreen.PerSymbolIndependence` | src/pages/tvscreenView.jsx:114-131 | after any stream, a symbol's record equals its record after only that symbol's events, so direction depends only on the same symbol's previous record |
| `TvScreen.LastWriteWins` | src/pages/tvscreenView.jsx:116-120 | after a stream of events for one symbol, each price field is the last value any event carried, or the old value if none did |
| `TvScreen.KeysAfterStream` | src/pages/tvscreenView.jsx:115-118 | a record exists exactly for symbols that were stored before or were named by a well-formed event |
| `TvScreen.RepeatedEvent` | src/pages/tvscreenView.jsx:116-126 | the same event twice leaves every data field as the first left it; the second direction is `null` iff the event has a bid or the record had none before, and otherwise it is "down" |
| `TvScreen.GoldFallsExample` | src/pages/tvscreenView.jsx:114-131 | GOLD at bid 100 then 95 gives `null`, then "down" with bid 95 |
| `TvScreen.LimitModal` | src/pages/tvscreenView.jsx:80-94 | a 200 response hides the dialog; a 403 rejection shows it; any other rejection keeps the flag and raises the alert; any other resolved status does nothing; the flag changes only in the first two cases |
| `TvScreen.TvScreenView.constructor` | src/pages/tvscreenView.jsx:21-32 | empty store, no error, dialog hidden |
| `TvScreen.TvScreenView.OnConnect` | src/pages/tvscreenView.jsx:105-108 | on connect the page emits "request-data" with ["GOLD", "SILVER"] |
| `TvScreen.TvScreenView.OnMarketData` | src/pages/tvscreenView.jsx:114-131 | the store becomes `Merge` of the old store; a malformed event adds one warning; every record stays filed under its own symbol; nothing else changes |
| `TvScreen.TvScreenView.OnSocketError` | src/pages/tvscreenView.jsx:134-137 | sets the feed error message and nothing else |
| `TvScreen.TvScreenView.OnEntitlement` | src/pages/tvscreenView.jsx:80-94 | the dialog flag and the alert log follow `LimitModal`; the store and the error message are unchanged |
| `MobileView.Merge` | src/pages/MobileView.jsx:127-140 | same drop and frame as the TV merge; the payload's own `bidChanged`, if any, is stored and none is computed |
| `MobileView.MergesAgreeButForDirection` | src/pages/MobileView.jsx:130-136 | both pages' merges produce the same keys and the same records, except for `bidChanged` |
| `MobileView.MergeIdempotent` | src/pages/MobileView.jsx:130-136 | applying the same event twice stores the same as applying it once |
| `MobileView.ArrayOrEmpty` | src/pages/MobileView.jsx:94-95 | an array property is used only if it is an array, otherwise `[]` |
| `MobileView.Load` | src/pages/MobileView.jsx:76-95 | missing spot info sets commodities to `[]` and keeps the spreads; present spot info takes the commodities array if it is one, and each spread with `null`/absent as `""`; the server URL is replaced only by a non-empty one; news is the array or `[]` |
| `MobileView.FailuresAreIndependent` | src/pages/MobileView.jsx:58-71 | a failed fetch (null result) leaves what the other two fetches deliver unaffected |
| `MobileView.ServerURLNeverCleared` | src/pages/MobileView.jsx:88-91 | once known, the server URL is never reset to empty by a load |
| `MobileView.LoadIdempotent` | src/pages/MobileView.jsx:76-95 | loading the same responses twice equals loading them once |
| `MobileView.MobileSession.constructor` | src/pages/MobileView.jsx:23-54 | empty store, default configuration, mounted, no socket |
| `MobileView.MobileSession.DeliverLoad` | src/pages/MobileView.jsx:73 | results change the configuration (by `Load`) only while mounted; after unmount they change nothing |
| `MobileView.MobileSession.CancelLoad` | src/pages/MobileView.jsx:103-105 | clears the mounted flag and nothing else |
| `MobileView.MobileSession.Connect` | src/pages/MobileView.jsx:109-119 | a socket is created iff the server URL is non-empty and none is held; the created socket is fresh and held, and it joins the live sockets without retiring any; because of the guard it is then the only live one |
| `MobileView.MobileSession.Cleanup` | src/pages/MobileView.jsx:151-155 | the held socket is disconnected and the reference cleared; no socket stays live |
| `MobileView.MobileSession.OnConnect` | src/pages/MobileView.jsx:121-125 | on connect the page emits "request-data" with ["GOLD", "SILVER"] |
| `MobileView.MobileSession.OnMarketData` | src/pages/MobileView.jsx:127-140 | the store becomes the mobile `Merge` of the old store; a malformed event adds one warning; the sockets and the configuration are unchanged |
| `MobileView.AtMostOneSocket` | src/pages/MobileView.jsx:112-119 | at most one socket is live at any time; this holds because `Connect` adds a socket only while none is held |
| `MobileView.CleanupThenConnect` | src/pages/MobileView.jsx:151-155 | after cleanup, connecting with a known URL creates a fresh socket, and it is the only live one |
| `CommodityTable.OrZero` | src/components/CommodityTable.jsx:161-164 | `parseFloat(x) \|\| 0`: a value that parses is kept, one that does not becomes 0 |
| `CommodityTable.ToLower` | src/components/CommodityTable.jsx:137 | the name keeps its length, and each character is lower-cased, as `toLowerCase` does before both the quote lookup and the name switch (line 50) |
| `CommodityTable.BidAsk` | src/components/CommodityTable.jsx:18-35 | the three gold names read the gold quote, "silver" reads the silver quote, other names get 0/0, and a value that does not parse counts as 0 |
| `CommodityTable.UnitMultiplier` | src/components/CommodityTable.jsx:149-156 | GM 1, KG 1000, TTB 116.64, TOLA 11.664, OZ 31.1034768; any other code 1; always at least 1 |
| `CommodityTable.PurityPower` | src/components/CommodityTable.jsx:38-41 | a missing, non-numeric or zero purity gives 1; any other purity p gives the factor that, multiplied by ten to the length of p's decimal text, is p again (see also `PurityPowerRange`, `PurityPowerDefaults`, `PurityPowerExamples`) |
| `CommodityTable.PerGramAed` | src/components/CommodityTable.jsx:168-169 | the per-gram dirham price times 31.103 grams is the ounce price times 3.674 dirhams per dollar |
| `CommodityTable.BuyPrice` | src/components/CommodityTable.jsx:166-174 | the bid plus the buy premium (0 if it does not parse), per gram in dirhams, times the weight multiplier, the unit count and the purity factor, plus the buy charge (0 if it does not parse), multiplied in the code's order |
| `CommodityTable.SellPrice` | src/components/CommodityTable.jsx:167-177 | the same for the ask, the sell premium and the sell charge |
| `CommodityTable.Label` | src/components/CommodityTable.jsx:218 | 916 gives "22K ", 875 gives "21K", 750 gives "18k", otherwise the raw purity |
| `CommodityTable.MetalName` | src/components/CommodityTable.jsx:49-60 | names that lower-case to a gold variant show as "Gold"; any other name keeps its length and rest, with the first letter upper-cased |
| `CommodityTable.RoundHalfUp` | src/components/CommodityTable.jsx:45 | the nearest integer, halves rounded up |
| `CommodityTable.Hundredths` | src/components/CommodityTable.jsx:45 | the nearest number of hundredths, halves rounded away from zero |
| `CommodityTable.Format` | src/components/CommodityTable.jsx:44-46 | "GM" is a whole number of hundredths within 0.005, with a tie rounded away from zero (up for a non-negative value, down for a negative one); any other code is a whole number within 0.5, a tie rounded up |
| `CommodityTable.PriceRow` | src/components/CommodityTable.jsx:136-177 | a row's buy and sell prices use the quote picked by the lower-cased metal name; the shown value is the formatted sell price; the name is the display name and the purity cell is the purity label |
| `CommodityTable.Table` | src/components/CommodityTable.jsx:136 | one row per commodity, in order |
| `CommodityTable.DigitsBounds` | src/components/CommodityTable.jsx:40 | a positive number with d digits lies in [10^(d-1), 10^d) |
| `CommodityTable.PurityPowerRange` | src/components/CommodityTable.jsx:38-41 | a positive integer purity gives a factor in [0.1, 1) |
| `CommodityTable.PurityPowerDefaults` | src/components/CommodityTable.jsx:39 | a missing, non-numeric or zero purity gives factor 1 |
| `CommodityTable.PurityPowerExamples` | src/components/CommodityTable.jsx:40 | 916 gives 0.916, 75 gives 0.75, 9999 gives 0.9999 |
| `CommodityTable.BuyChargeShifts` | src/components/CommodityTable.jsx:172-174 | changing the buy charge moves the buy price by that amount; a charge that does not parse is 0 |
| `CommodityTable.SellChargeShifts` | src/components/CommodityTable.jsx:175-177 | changing the sell charge moves the sell price by that amount; a charge that does not parse is 0 |
| `CommodityTable.MissingPremiumIsZero` | src/components/CommodityTable.jsx:163-167 | a premium that does not parse acts as a premium of 0 |
| `CommodityTable.PricesMonotone` | src/components/CommodityTable.jsx:166-177 | with a non-negative unit count and purity factor, a higher bid (ask) never lowers the buy (sell) price |
| `CommodityTable.UnknownWeightPricesAsGrams` | src/components/CommodityTable.jsx:149-156 | an unknown weight code prices exactly like "GM" |
| `CommodityTable.GoldNameIffGoldQuote` | src/components/CommodityTable.jsx:49-60 | a row shows "Gold" exactly when it is priced from the gold quote |
| `CommodityTable.MetalNameIdempotent` | src/components/CommodityTable.jsx:49-60 | showing a shown name again changes nothing |
| `CommodityTable.GramSellExample` | src/components/CommodityTable.jsx:166-177 | a 916 gram at ask 2005 with no premium or charge shows 216.94, named "Gold" and labelled "22K " |
| `SpotRate.GetColor` | src/components/SpotRate.jsx:17-24 | "up" gives "#25b325", "down" gives "#f01a1a", anything else (absent and null included) gives "white" |
| `SpotRate.GetBackgroundColor` | src/components/SpotRate.jsx:8-15 | "#3b3b3b" for every input |
| `SpotRate.BidCell` | src/components/SpotRate.jsx:114-119 | shows the bid on the fixed background; green exactly when `bidChanged` is "up", red exactly when it is "down", white exactly otherwise |
| `SpotRate.AskCell` | src/components/SpotRate.jsx:183-188 | shows the ask on the fixed background; green, red or white from `bidChanged` exactly as the bid cell is |
| `SpotRate.AskColouredByBid` | src/components/SpotRate.jsx:183-184 | the ask cell takes the bid cell's colours from `bidChanged`; changing the ask does not change its colour |
| `SpotRate.ColourAfterEvent` | src/components/SpotRate.jsx:114-115 | after a TV-screen event the cells are green iff the bid rose, red iff it fell or only one of the two bids is present, white on first sight or an equal bid |

## Left out

- Layout, styling, responsive font sizes, the clock, date formatting, the news ticker, the chart widget and window scaling. These are presentation or timers with nothing to state.
- The socket.io transport and the REST calls. They are inputs: events and fetch results become method parameters. `src/api/api.js` is not part of this model.
- `updateMarketData` and the spot-rate context. The context turns the store into the gold and silver quotes. `src/context/SpotRateContext` is not part of this model, so the two quotes are inputs to `CommodityTable.PriceRow`.
- The TV screen's `fetchData` (src/pages/tvscreenView.jsx:46-76). It copies the loaded configuration into state without defaults. Only the mobile page's defensive loading is modelled.
- The TV screen's socket creation and cleanup (src/pages/tvscreenView.jsx:97-103, 139-141). That effect has no single-socket guard, so the guard is modelled on the mobile page only.
- The disconnect handlers and the mobile error handler only log, so they are not modelled. Logging in general is left out; malformed events appear only as a warning count.
- IEEE-754 doubles and `toFixed`'s string output. Prices are exact reals, and a formatted value is the number the string spells.
- A quote field holding JSON `null` or a string. Fields are numbers or absent; `null` would compare as 0 in `>`.
- A `bidChanged` string other than "up" or "down" is modelled as a `Text`. `GetColor` treats it as white, like the code.
- `CommodityTable.UnitMultiplier`: a weight equal to an inherited object property name (such as "toString") would read a function from the lookup object and give NaN. This is not modelled; such codes get 1.
- `CommodityTable.PurityPower`: purity is an integer or absent. Fractional purities, and purities large enough that `toString` uses exponent notation, are not modelled.
- `CommodityTable.Label`: a purity given as a string such as "916" would not match `=== 916` and would show raw. The model's purity is numeric.
- The row's `unit` is used unparsed by the code; the model takes it as a number. The unused `weightValue` (src/components/CommodityTable.jsx:158) is not modelled.
- Upper- and lower-casing are ASCII only.
- The bid/ask spreads are stored by `MobileView.Load`. Both pages pass them to `updateMarketData` (src/pages/tvscreenView.jsx:38-44, src/pages/MobileView.jsx:42-48). The formula in `CommodityTable.jsx` does not use them. Whether the context folds them into the quotes is not modelled.
- `SpotRate.ColourAfterEvent` assumes the spot-rate context passes the stored record's `bidChanged` to the cells unchanged. The cells colour the context's `goldData.bidChanged` (src/components/SpotRate.jsx:114, 226).
- The object spread copies every key of the payload into the stored record (src/pages/tvscreenView.jsx:120, src/pages/MobileView.jsx:134). `MarketData.Quote` keeps only the symbol, the four prices and `bidChanged`, so extra payload keys are dropped.
- A commodity without a `metal` string makes `toLowerCase()` throw and stops rendering (src/components/CommodityTable.jsx:137, 50). The model's `metal` is always a string, so this case is excluded.
