# Presale mock backend, modelled in Dafny

The dashboard keeps a simulated token presale in memory. It holds one presale
record and a table of user records keyed by wallet address. Four operations
act on that state:

- `fetchPresaleData` closes the sale once its end time has passed, then returns a copy of the record.
- `updatePresaleData` replaces the configuration without any check.
- `fetchUserData` creates a user record the first time an address is seen.
- `buyTokens` runs six guards in a fixed order. Only when all six pass does
  it credit the buyer and add the same token quantity to the sale's sold counter.

The project has four modules:

- `Types` (`types.dfy`): the record and enum shapes.
- `Rules` (`rules.dfy`): the state as a value. It holds the guard chain as a
  function that returns the first failing check, and one function per operation
  giving the state after that operation.
- `Backend` (`backend.dfy`): the class `MockBackend`. Its fields `presale` and
  `users` are updated in place, the way the module-level variables are. Each
  method is proved to leave exactly the state that the matching `Rules`
  function describes.
- `Properties` (`properties.dfy`): lemmas about single operations and about any
  sequence of fetches and purchases, including the bounds, monotonicity and a
  token ledger. It also holds the concrete scenarios from the initial state,
  written as client methods on a `MockBackend` object whose results are proved.

Amounts are exact `real`s. Times are `int` milliseconds. The clock (`Date.now()`)
and the random whitelist decision are parameters.

Three behaviours of the code are easy to miss:

- A purchase looks only at the stored `status`, never at `saleEndTime`
  (services/mockApiService.ts:102). After the end time, purchases still go through
  until `fetchPresaleData` is called (`PastEndTimeClosesOnlyAfterFetch`).
- `fetchPresaleData` ends the sale only when `saleEndTime < now`, which is strict
  (services/mockApiService.ts:33). At `now == saleEndTime` the status stays as it is.
- `tokensSold <= totalTokens` is preserved by every fetch and purchase
  (`RunKeepsInvariant`). A configuration edit can break it, because
  `updatePresaleData` validates nothing (`UpdateCanBreakInvariant`).

## Model

| member | source | states |
|---|---|---|
| `Rules.CheckPurchase` | services/mockApiService.ts:96-115 | the result is None exactly when all six guards pass; each rejection reason is returned exactly when every earlier guard passes and its own fails, in the order: unknown user, not whitelisted, stored status not Live, amount below minPurchase (carrying the minimum), contribution + amount above maxPurchase (carrying the maximum), tokensSold + amount/tokenPrice above totalTokens |
| `Rules.Buy` | services/mockApiService.ts:93-127 | the purchase succeeds exactly when the guard chain finds nothing. A rejection carries the first failing reason and leaves the whole state unchanged. A success adds amount to the buyer's contribution, and adds amount/tokenPrice both to the buyer's tokensOwed and to tokensSold. It changes no other presale field, no other user and no key. Afterwards tokensSold <= totalTokens and the buyer's contribution <= maxPurchase |
| `Rules.RefreshStatus` | services/mockApiService.ts:33-35 | only the status may change; it becomes Ended when saleEndTime < now, and the record is untouched when now <= saleEndTime |
| `Rules.Register` | services/mockApiService.ts:73-80 | the table gains exactly the given address; existing records are unchanged; an unseen address gets {address, decision, 0, 0} |
| `Backend.MockBackend.constructor` | services/mockApiService.ts:6-19 | the initial record (Aurora/AUR, Live, 65,000,000 of 100,000,000 sold, price 0.005, end three days after load, min 0.1, max 5) and an empty user table, which satisfy the invariant |
| `Backend.MockBackend.FetchPresaleData` | services/mockApiService.ts:29-40 | the stored record becomes RefreshStatus of the old one, the returned copy equals the stored record, the user table is untouched, and the invariant is kept |
| `Backend.MockBackend.UpdatePresaleData` | services/mockApiService.ts:46-51 | the stored record and the returned copy equal the new configuration field for field, the user table is untouched, and the invariant holds afterwards exactly when the new configuration satisfies it with the old table |
| `Backend.MockBackend.FetchUserData` | services/mockApiService.ts:69-85 | the table becomes Register of the old one, the returned copy is the old record of a known address or a fresh record for an unseen one, the presale is untouched, and the invariant is kept |
| `Backend.MockBackend.BuyTokens` | services/mockApiService.ts:90-132 | the outcome and the new state are those of Rules.Buy on the old state, and the invariant is kept |
| `Properties.Apply` | services/mockApiService.ts:90-132 | no fetch or purchase changes the configuration: only status and tokensSold can differ |
| `Properties.Run` | services/mockApiService.ts:119-126 | a sequence of fetches and purchases leaves the configuration as it was: only status and tokensSold can differ |
| `Properties.RefreshIdempotent` | services/mockApiService.ts:33-37 | fetching twice with the same clock equals fetching once; the status is Ended afterwards exactly when the end time is past or it already was Ended |
| `Properties.RegisterIdempotent` | services/mockApiService.ts:73-82 | a second fetchUserData on the same address is a no-op, whatever its whitelist decision |
| `Properties.StatusIsStored` | services/mockApiService.ts:102-104 | the guard chain gives the same answer for any saleEndTime |
| `Properties.PastEndTimeClosesOnlyAfterFetch` | services/mockApiService.ts:102-103 | past the end time an admissible purchase still succeeds on the stored Live status; after a fetch it is refused as SaleNotActive and changes nothing |
| `Properties.RejectionChangesNothing` | services/mockApiService.ts:96-115 | a purchase the guards refuse leaves the whole state unchanged and reports the first failing guard |
| `Properties.ApplyKeepsInvariant` | services/mockApiService.ts:105-115 | one fetch or purchase keeps tokensSold <= totalTokens, every contribution <= maxPurchase and every record under its own address |
| `Properties.ApplyMonotone` | services/mockApiService.ts:105-126 | with minPurchase >= 0 and tokenPrice > 0, one operation deletes no user, keeps every whitelist flag, and lowers no contribution, no tokensOwed and not tokensSold |
| `Properties.RunKeepsInvariant` | services/mockApiService.ts:105-115 | any sequence of fetches and purchases keeps the bounds of the invariant |
| `Properties.RunMonotone` | services/mockApiService.ts:119-126 | with minPurchase >= 0 and tokenPrice > 0, across any sequence no user is deleted, whitelist flags stay as created, and contribution, tokensOwed and tokensSold never decrease |
| `Properties.ApplyConservesTokens` | services/mockApiService.ts:119-126 | one operation changes tokensSold and the sum of all tokensOwed by the same amount |
| `Properties.RunConservesTokens` | services/mockApiService.ts:119-126 | across any sequence of fetches and purchases, tokensSold minus the sum of all tokensOwed stays constant |
| `Properties.InitialRunsKeepInvariant` | services/mockApiService.ts:6-19 | from the initial state, every sequence keeps the invariant and keeps tokensSold equal to 65,000,000 plus the total owed to users |
| `Properties.UpdateCanBreakInvariant` | services/mockApiService.ts:46-50 | the initial state satisfies the invariant, and replacing its configuration with one whose supply is below the sold tokens is accepted and breaks it |
| `Properties.FirstPurchase` | services/mockApiService.ts:112-126 | from the initial state a whitelisted newcomer buying 1.0 succeeds, owes 200 tokens with contribution 1.0, and tokensSold becomes 65,000,200 |
| `Properties.BelowMinimumPurchase` | services/mockApiService.ts:105-106 | from the initial state buying 0.05 is refused as below the 0.1 minimum and the user keeps zero balances |
| `Properties.PurchaseBeforeFetch` | services/mockApiService.ts:93-97 | buying for an address never fetched is refused as an unknown user |
| `Properties.NotWhitelistedPurchase` | services/mockApiService.ts:99-100 | a user created with a negative whitelist decision is refused, and neither the user nor tokensSold changes |
| `Properties.CumulativeMaximum` | services/mockApiService.ts:108-109 | buying 4.0 then 2.0 gives success and then a rejection above the maximum of 5; the first purchase (contribution 4.0, 800 tokens) is retained |
| `Properties.PurchaseAfterEnd` | services/mockApiService.ts:33-34 | fetching after the end time sets the status to Ended, and a following purchase is refused as SaleNotActive |

## Left out

- `connectWallet` is random hex generation. It is not modelled, and addresses are arbitrary strings.
- The simulated latency (`setTimeout`, promises) is not modelled. Each call is one atomic step, and the
  JavaScript runtime runs nothing in between.
- `Math.random() > 0.2` is not modelled. The whitelist decision is a parameter of `FetchUserData`.
- `Date.now()` is not modelled. The clock is a parameter, and the initial end time is the load time plus three days.
- Floating point is not modelled. Amounts are exact reals, so no double rounding and no NaN or Infinity.
  In the source a NaN amount passes every guard, and the model cannot represent it.
- `Backend.MockBackend.BuyTokens`, `Rules.CheckPurchase`, `Rules.Buy`, `Properties.Apply` and `Properties.Run`:
  each requires `tokenPrice != 0`. The source does not check this. A zero price gives Infinity or NaN in
  `amount / tokenPrice`, which reals cannot express. Negative prices are kept. The first five guards
  (services/mockApiService.ts:96-110) do not read the price, so at price 0 the source still refuses with
  an unknown user, not whitelisted, sale not active, below the minimum or above the maximum; the model
  gives no verdict at price 0, including for those refusals.
- User records are values in a map. `buyTokens` updates a record through a reference into the table.
  Every read out of the table returns a copy, so no aliasing can be observed. The model therefore writes
  the updated record back into the map.
- Keys inherited from the JavaScript object prototype (such as `constructor`) are not modelled. They would
  make `mockUserDatabase[address]` truthy for an address that was never stored.
- `Properties.Run`: the traces cover fetches and purchases only. A configuration edit can set any values,
  including a zero price, so the trace lemmas hold between edits and not across them.
- The error messages are not modelled. Their Portuguese text becomes the `Rejection` datatype. The
  minimum and maximum variants carry the configured bound.
- The React components and their display formatting are not part of this model.
