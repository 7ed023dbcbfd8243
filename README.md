# LandShare front end: session routing, wallet button, metadata hook and dashboards

LandShare is a web front end for tokenizing land parcels and trading
fractions of them. This project models the parts of it that make decisions
and proves properties about them:

- **Landing page routing** (`LandingPage`). The page reacts to the wallet's
  connection flag and address. For a connected wallet with a non-empty
  address, it sends the admin wallet (compared after lower-casing) to
  `/admin` and every other wallet to `/dashboard`. While the wallet is not
  connected, it shows the wallet-connect control in its three slots.
- **Wallet button** (`WalletConnect`). The button receives render
  properties from the wallet kit. From them it computes `ready` and
  `connected`, hides its wrapper while not ready, and picks one of three
  views: connect, wrong network, or chain plus account. The account label
  is the display name, with the balance in parentheses when there is one.
- **Metadata hook** (`PinataMetadata`). The hook is a class with two state
  cells, `loading` and `metadata`, plus a trace of the effects it performs.
  `FetchMetadata` sets `loading`, calls the remote metadata function, and
  applies the `try`/`catch`/`finally` logic. The remote call's outcome is
  an input. The two shortcut fetches name the land-token contract and the
  fractionalization contract.
- **Investor dashboard** (`UserDashboard`). It holds the buy form and the
  sell form with their field updates. Its handlers validate a form and
  record a toast, or record a disconnect followed by navigation home. It
  also computes the portfolio total: strip `$` and `,`, run `parseInt`,
  then sum left to right. Each transaction row gets a sign and a colour.
- **Admin dashboard** (`AdminDashboard`). It holds the tokenize form and
  the platform-fee form with their handlers and the fee-withdrawal toast.
  Each land parcel gets a status-badge colour.
- **Shared values** (`Common`). `Option`, the three routes and their paths,
  toast notifications, UI effects, and the header's abbreviated address
  (`slice(0, 8) + "..." + slice(-6)`, with the way JavaScript's `slice`
  clamps its bounds).

A class's handler appends what it asks its collaborators to do to an
`effects` (or `trace`) sequence: toasts, disconnect, navigation, the remote
call. Its `ensures` gives the whole new state. Separate lemmas state what
those effects mean.

## Model

| member | source | states |
|---|---|---|
| Common.Route.Path | src/components/LandingPage.tsx:14-22 | the landing page is `/`, the admin console `/admin` and the investor dashboard `/dashboard`, each path exactly for its route and all of them absolute |
| Common.PathsDistinct | src/components/UserDashboard.tsx:37-40 | two routes with the same path are the same route, so navigating to `/` always means the landing page |
| Common.ShortAddress | src/components/UserDashboard.tsx:120 | no address gives `...`; otherwise the result is the first min(8, n) characters, then `...`, then the last min(6, n) characters, with its length exact |
| Common.ShortAddressHidesOnlyTheMiddle | src/components/AdminDashboard.tsx:140 | for an address of at least 14 characters the result has length 17, and splicing the hidden middle back in rebuilds the address |
| LandingPage.LowerChar | src/components/LandingPage.tsx:16 | `A`–`Z` move up 32 code points to lower case; every other character is unchanged |
| LandingPage.Lower | src/components/LandingPage.tsx:16 | lower-casing keeps the length and lower-cases each character in place |
| LandingPage.RouteFor | src/components/LandingPage.tsx:14-22 | the routing effect never navigates to the landing page itself |
| LandingPage.NavigatesOnlyWhenConnected | src/components/LandingPage.tsx:15 | navigation happens if and only if the wallet is connected with a present, non-empty address |
| LandingPage.AdminExactlyOnLowercaseMatch | src/components/LandingPage.tsx:16-20 | a connected address goes to the admin route if and only if its lower-cased form equals the admin's; otherwise it goes to the dashboard |
| LandingPage.LowerEqualIffSameUpToCase | src/components/LandingPage.tsx:16 | two strings lower-case to the same string if and only if they agree character by character up to ASCII case |
| LandingPage.LowerAppend | src/components/LandingPage.tsx:16 | lower-casing distributes over concatenation |
| LandingPage.CaseInsensitive | src/components/LandingPage.tsx:16 | two addresses that differ only in letter case get the same route |
| LandingPage.LowerIdempotent | src/components/LandingPage.tsx:16 | lower-casing twice is the same as lower-casing once |
| LandingPage.AdminCaseIrrelevant | src/components/LandingPage.tsx:16 | configuring the admin address lower-cased leaves every route unchanged |
| LandingPage.NoEscalationWithoutFullMatch | src/components/LandingPage.tsx:15-17 | the admin route implies: connected, non-empty address, non-empty admin address, same length, and equal up to case |
| LandingPage.MixedCaseAdminScenario | src/components/LandingPage.tsx:16-20 | an address differing from the admin's only in the case of its letters reaches the admin route; one differing in a digit reaches the dashboard |
| LandingPage.ConnectSlotsFor | src/components/LandingPage.tsx:68-131 | the header, hero and call-to-action slots each show the connect control exactly when the wallet is not connected |
| LandingPage.ConnectControlOrNavigation | src/components/LandingPage.tsx:83-85 | with a non-empty address, exactly one of these happens: the connect control is shown, or the page navigates away |
| WalletConnect.Ready | src/components/WalletConnect.tsx:24 | definition (no contract): ready means mounted and authentication not loading |
| WalletConnect.Connected | src/components/WalletConnect.tsx:25 | definition (no contract): ready, with an account and a chain, and no authentication status or an authenticated one; its consequences are `ConnectedImpliesReady` and `SelectView` |
| WalletConnect.AccountLabel | src/components/WalletConnect.tsx:101-104 | the label starts with the display name; it is longer exactly when the balance is present and non-empty, and then ends with ` (balance)` |
| WalletConnect.SelectView | src/components/WalletConnect.tsx:38-108 | the connect view shows if and only if not connected; wrong network if and only if connected on a chain whose `unsupported` is true; the account view carries the chain's name and the account label |
| WalletConnect.WrapperFor | src/components/WalletConnect.tsx:28-36 | the wrapper is aria-hidden exactly when not ready, and is then transparent and ignores pointer events and text selection |
| WalletConnect.ConnectedImpliesReady | src/components/WalletConnect.tsx:24-25 | `connected` implies `ready`, an account, a chain, and a status that is not unauthenticated |
| WalletConnect.AccountViewExactlyWhenConnectedOnSupportedChain | src/components/WalletConnect.tsx:53-65 | the account view shows if and only if connected on a chain that is not flagged unsupported |
| WalletConnect.HiddenWhileNotReady | src/components/WalletConnect.tsx:24-39 | while not ready the wrapper is hidden and holds the connect view; any other view sits in a visible wrapper |
| WalletConnect.UnauthenticatedShowsConnect | src/components/WalletConnect.tsx:25 | an unauthenticated session shows the connect view even when an account and a chain are present |
| PinataMetadata.RejectionMessage | src/hooks/usePinataMetadata.ts:37 | the thrown message is never empty: the reply's non-empty error, or else `Failed to fetch metadata` |
| PinataMetadata.Truthy | src/hooks/usePinataMetadata.ts:29 | definition (no contract): JavaScript truthiness of a JSON value, where null, false, 0 and the empty string are falsy |
| PinataMetadata.Describe | src/hooks/usePinataMetadata.ts:43 | definition (no contract): an `Error`'s message, or `Unknown error` for any other thrown value |
| PinataMetadata.Settle | src/hooks/usePinataMetadata.ts:25-38 | only truthy metadata is ever delivered |
| PinataMetadata.NoteFor | src/hooks/usePinataMetadata.ts:31-34 | the toast is destructive exactly on failure; on success it names the contract, and on failure it carries the caught message |
| PinataMetadata.SuccessNote | src/hooks/usePinataMetadata.ts:31-34 | definition (no contract): the `Metadata Retrieved` toast naming the contract; `NoteFor` states its properties |
| PinataMetadata.ErrorNote | src/hooks/usePinataMetadata.ts:41-45 | definition (no contract): the destructive `Error` toast with the caught message; `NoteFor` and `FailedReplyToast` state its properties |
| PinataMetadata.Lifecycle | src/hooks/usePinataMetadata.ts:19-49 | one call's effects: `loading` set first and cleared last and touched nowhere between, the remote call second, and five effects on delivery, four otherwise |
| PinataMetadata.LoadingAfter | src/hooks/usePinataMetadata.ts:14 | definition (no contract): the `loading` cell after a trace, the last value set; its properties are `LoadingAfterAppend`, `LoadingUntouched` and `LoadingBracketsTheCall` |
| PinataMetadata.StoredAfter | src/hooks/usePinataMetadata.ts:15 | definition (no contract): the `metadata` cell after a trace, the last value stored; its properties are `StoredAfterAppend`, `StoredUntouched` and `StoredAfterCall` |
| PinataMetadata.Toasts | src/hooks/usePinataMetadata.ts:16 | a trace shows at most as many toasts as it has effects |
| PinataMetadata.LoadingAfterAppend | src/hooks/usePinataMetadata.ts:14 | the `loading` value after two traces is the value after the second, starting from the value after the first |
| PinataMetadata.StoredAfterAppend | src/hooks/usePinataMetadata.ts:15 | the same composition for the stored metadata |
| PinataMetadata.ToastsAppend | src/hooks/usePinataMetadata.ts:31-45 | the toasts of a concatenation are the toasts of its parts, in order |
| PinataMetadata.LoadingUntouched | src/hooks/usePinataMetadata.ts:14 | a trace that never sets `loading` leaves it as it was |
| PinataMetadata.StoredUntouched | src/hooks/usePinataMetadata.ts:15 | a trace that never stores metadata leaves it as it was |
| PinataMetadata.LoadingBracketsTheCall | src/hooks/usePinataMetadata.ts:19-49 | a call sets `loading` first, keeps it set from then until its last effect, and clears it at the end whatever the outcome |
| PinataMetadata.ExactlyOneToast | src/hooks/usePinataMetadata.ts:29-46 | every call shows exactly one toast: the success toast or the error toast |
| PinataMetadata.StoredAfterCall | src/hooks/usePinataMetadata.ts:29-30 | a call stores exactly the delivered metadata, and otherwise keeps the previous value |
| PinataMetadata.CallSettlesState | src/hooks/usePinataMetadata.ts:29-49 | after one more call on any history, `loading` is clear, and the stored metadata is the delivered value or else unchanged |
| PinataMetadata.DeliveredExactlyOnSuccessWithMetadata | src/hooks/usePinataMetadata.ts:29 | a reply delivers its metadata if and only if `success` is set and the metadata is truthy, and then delivers it unchanged |
| PinataMetadata.SuccessWithoutMetadataFails | src/hooks/usePinataMetadata.ts:29-38 | `success` with missing or falsy metadata is rejected with the reply's error message or the fallback |
| PinataMetadata.FailedReplyToast | src/hooks/usePinataMetadata.ts:37-45 | the error toast of a failed reply is destructive and reads `Failed to fetch metadata: ` followed by the reply's error or the fallback |
| PinataMetadata.TransportErrorFails | src/hooks/usePinataMetadata.ts:25 | a client error is rethrown, and for any contract its toast is destructive and shows the client's message |
| PinataMetadata.Hook.constructor | src/hooks/usePinataMetadata.ts:14-15 | `loading` starts false, no metadata is stored, the trace is empty, and the invariant holds |
| PinataMetadata.Hook.FetchMetadata | src/hooks/usePinataMetadata.ts:18-50 | keeps the invariant linking state to trace; extends the trace by one call's lifecycle; leaves `loading` false; returns the metadata exactly when delivered (else null); stores it only then |
| PinataMetadata.Hook.FetchLandTokenMetadata | src/hooks/usePinataMetadata.ts:52-54 | the same as `FetchMetadata` on the land-token contract with no IPFS hash |
| PinataMetadata.Hook.FetchFractionalizationMetadata | src/hooks/usePinataMetadata.ts:56-58 | the same as `FetchMetadata` on the fractionalization contract with no IPFS hash |
| UserDashboard.UpdateBuy | src/components/UserDashboard.tsx:196-207 | the edited field takes the new value and the other field is unchanged |
| UserDashboard.UpdateSell | src/components/UserDashboard.tsx:232-254 | the edited field takes the new value and the other fields are unchanged |
| UserDashboard.UpdateBuyOverwrites | src/components/UserDashboard.tsx:196-207 | two edits of the same field keep only the second |
| UserDashboard.UpdateSellCommutes | src/components/UserDashboard.tsx:232-254 | edits of different fields commute |
| UserDashboard.BuyNotification | src/components/UserDashboard.tsx:42-59 | an error exactly when the land id or the units are empty, with the fixed error toast; otherwise `Processing Purchase` with the units and the land id |
| UserDashboard.SellNotification | src/components/UserDashboard.tsx:61-78 | an error exactly when any of the three fields is empty; otherwise `Listing for Sale` with the units and the price |
| UserDashboard.BuyRejectionOnlyOnEmptyField | src/components/UserDashboard.tsx:43 | filling the only empty buy field with a non-empty value makes the purchase go through |
| UserDashboard.Dashboard.constructor | src/components/UserDashboard.tsx:26-35 | both forms start with every field empty, and no effects |
| UserDashboard.Dashboard.SetBuyField | src/components/UserDashboard.tsx:196-207 | only the buy form changes, by `UpdateBuy` |
| UserDashboard.Dashboard.SetSellField | src/components/UserDashboard.tsx:232-254 | only the sell form changes, by `UpdateSell` |
| UserDashboard.Dashboard.HandleDisconnect | src/components/UserDashboard.tsx:37-40 | appends a disconnect, then navigation to the route whose path is `/`; the forms are untouched |
| UserDashboard.Dashboard.HandleBuyFromAdmin | src/components/UserDashboard.tsx:42-59 | appends exactly the buy toast; the forms are untouched |
| UserDashboard.Dashboard.HandleListForSale | src/components/UserDashboard.tsx:61-78 | appends exactly the sell toast; the forms are untouched |
| UserDashboard.StripCurrency | src/components/UserDashboard.tsx:99 | the result is no longer than the input and contains no `$` and no `,` |
| UserDashboard.StripCurrencyAppend | src/components/UserDashboard.tsx:99 | stripping distributes over concatenation |
| UserDashboard.StripCurrencyKeepsPlainText | src/components/UserDashboard.tsx:99 | a string with no `$` and no `,` is unchanged |
| UserDashboard.StripCurrencyIdempotent | src/components/UserDashboard.tsx:99 | stripping twice is the same as stripping once |
| UserDashboard.StripThousands | src/components/UserDashboard.tsx:81-83 | an amount written `$<digits>,<digits>` strips to the two digit groups joined |
| UserDashboard.ParseDigits | src/components/UserDashboard.tsx:99 | reading more digits never decreases the value, and one more digit at least multiplies it by ten and adds that digit |
| UserDashboard.ParseInt | src/components/UserDashboard.tsx:99 | a numeral's value is at least its leading digit, and a one-digit numeral is worth that digit |
| UserDashboard.HoldingValue | src/components/UserDashboard.tsx:99 | definition (no contract): a holding's display amount with `$` and `,` stripped, then parsed |
| UserDashboard.ParseDigitsSnoc | src/components/UserDashboard.tsx:99 | reading one more digit multiplies the value so far by ten and adds the digit |
| UserDashboard.ParseIntDecimal | src/components/UserDashboard.tsx:99 | the model's `ParseInt` inverts the numeral `Decimal(n)` for every natural number `n`; `Decimal` is a reference definition with no counterpart in the dashboard |
| UserDashboard.TotalPortfolioValue | src/components/UserDashboard.tsx:98-100 | the total of no holdings is zero, and no single holding is worth more than the total |
| UserDashboard.TotalAppend | src/components/UserDashboard.tsx:98-100 | the total of a concatenation of holdings is the sum of the totals |
| UserDashboard.TotalOfThree | src/components/UserDashboard.tsx:98-100 | the total of three holdings is the sum of their parsed values |
| UserDashboard.MockHolding1 | src/components/UserDashboard.tsx:81 | `$12,500` parses to 12500 |
| UserDashboard.MockHolding2 | src/components/UserDashboard.tsx:82 | `$9,000` parses to 9000 |
| UserDashboard.MockHolding3 | src/components/UserDashboard.tsx:83 | `$19,200` parses to 19200 |
| UserDashboard.MockPortfolioTotal | src/components/UserDashboard.tsx:80-100 | the three mock holdings are all parsable, and their total is 40700 |
| UserDashboard.SignedValue | src/components/UserDashboard.tsx:360 | the value gets a one-character prefix: `-` exactly for a purchase, `+` otherwise |
| UserDashboard.ValueTone | src/components/UserDashboard.tsx:359 | emerald exactly for a purchase |
| UserDashboard.SignMatchesTone | src/components/UserDashboard.tsx:359-360 | a value is shown negative exactly when it is emerald |
| AdminDashboard.UpdateTokenize | src/components/AdminDashboard.tsx:216-237 | the edited field takes the new value and the other fields are unchanged |
| AdminDashboard.TokenizeNotification | src/components/AdminDashboard.tsx:41-58 | an error exactly when the location or the acres are empty; otherwise `Tokenizing Land` naming the location |
| AdminDashboard.FeeNotification | src/components/AdminDashboard.tsx:60-77 | an error exactly when the fee is empty; otherwise `Setting Platform Fee` with the fee and `%` |
| AdminDashboard.MetadataUriNeverChecked | src/components/AdminDashboard.tsx:42 | editing the metadata URI never changes whether tokenization is rejected |
| AdminDashboard.Dashboard.constructor | src/components/AdminDashboard.tsx:26-34 | both forms start with every field empty, and no effects |
| AdminDashboard.Dashboard.SetTokenizeField | src/components/AdminDashboard.tsx:216-237 | only the tokenize form changes, by `UpdateTokenize` |
| AdminDashboard.Dashboard.SetFeePercentage | src/components/AdminDashboard.tsx:263 | only the fee changes |
| AdminDashboard.Dashboard.HandleDisconnect | src/components/AdminDashboard.tsx:36-39 | appends a disconnect, then navigation to the route whose path is `/`; the forms are untouched |
| AdminDashboard.Dashboard.HandleTokenizeLand | src/components/AdminDashboard.tsx:41-58 | appends exactly the tokenize toast; the forms are untouched |
| AdminDashboard.Dashboard.HandleSetPlatformFee | src/components/AdminDashboard.tsx:60-77 | appends exactly the fee toast; the forms are untouched |
| AdminDashboard.Dashboard.HandleWithdrawFees | src/components/AdminDashboard.tsx:79-87 | always appends the withdrawal toast, with no validation |
| AdminDashboard.StatusTone | src/components/AdminDashboard.tsx:310-314 | the badge is emerald exactly for `Active` and gold for every other status |

## Left out

- Rendering: markup, styling, icons, feature cards and tables. Only the decisions that drive rendering are modelled.
- `toLocaleString` formatting of the portfolio total (`UserDashboard.tsx:136`): the model stops at the number.
- Foreign libraries as inputs. The wallet library's account and connection state, the wallet kit's render properties, the remote function's outcome and the router are parameters. Toasts, disconnect and navigation are recorded as effects.
- The admin address is a parameter of `RouteFor`. Its configured value comes from a module that is not part of this model.
- Asynchrony: each handler and each `fetchMetadata` call runs to completion on its own. Overlapping calls, and state updates that React batches or defers, are not modelled.
- `console.log` and `console.error` output.
- LandingPage.Lower: lower-cases ASCII letters only. JavaScript's full Unicode case mapping is not modelled; wallet addresses are hexadecimal.
- UserDashboard.TotalPortfolioValue: exact integer arithmetic. The dashboard computes with JavaScript numbers, which are doubles, so the two agree only while values stay below 2^53.
- UserDashboard.ParseInt: exact integers where `parseInt` returns a double; the two agree only up to 2^53. It also requires a string of decimal digits, which holds for every stripped mock value. `parseInt`'s handling of signs, whitespace, trailing garbage and `NaN` is not modelled.
- PinataMetadata.Json: numbers are integers; floating-point metadata values are not modelled.
- The chain icon (`hasIcon`, `iconUrl`, `iconBackground`) and the modal openers in the wallet button: they only affect rendering.
- The marketplace and transaction mock arrays, and the admin's parcel list. Only the rules applied to each row are modelled: sign and tone, badge colour. The portfolio's three values are checked through `MockPortfolioTotal`.
- There is no user-role type. The code decides only a route, by comparing addresses, and the model follows it.
- The hook does not check that the contract address is non-empty; the model accepts any string.
- PinataMetadata.Hook.FetchMetadata: a client that returns neither data nor an error makes the `response.success` read throw a `TypeError`. The model has no separate case for this; it is the `Transport` outcome carrying that error, and the caller supplies it.
