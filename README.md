# Override-RSA decision rules in Dafny

Override-RSA ("auto-rsa") places the same small stock order in every account
a user holds at several brokerages. It can be driven from the command line or
from a chat bot. The project models the sequential rules inside that glue and
proves properties about them. Every brokerage SDK call, HTTP request, clock
reading and chat exchange is a parameter: a total function that gives the
remote answer, or a flag that says whether a call raised.

- `wrappers.dfy` (`Wrappers`): `Option` and `Result`.
- `text.dfy` (`Text`): the Python string operations the scripts use, restricted to ASCII. These are `lower`, `upper`, `capitalize`, `strip`, `split` on one character, `list.index`, `int(...)` and decimal rendering.
- `aggregate.dfy` (`Aggregate`): the per-brokerage aggregate `Brokerage`, the order descriptor, and the shared loops. The loops visit every account of every identity: `FanOut` for orders, `RecordHoldings` and `RecordHoldingsWhile` for holdings. Each has a specification function: `Targets`, `Sweep`, `Recorded`.
- `dispatcher.dfy` (`Dispatcher`): `auto-rsa.py`. It covers argument parsing, the broker routing tables, the market-hours test and countdown, `place_order` dispatch and the bot's dry flag.
- `fennel.dfy` (`Fennel`): the `Fennel` client class. It covers its token fields and transitions, the login guard, account-id selection, quote matching, the tradability rule and the `place_order` precondition ladder.
- `fennel_adapter.dfy` (`FennelAdapter`): `fennel_init`, `fennel_holdings` and `fennel_transaction`.
- `robinhood.dfy` (`Robinhood`): `robinhood_init` and `robinhood_transaction`.
- `schwab.dfy` (`Schwab`): `schwab_init`, `schwab_holdings` and `schwab_transaction`.

Three behaviours of the code that are easy to misread, kept as written:

- In "all" mode the adapters run inside a single `try`. The first adapter that raises therefore stops the rest (`Dispatcher.AllStopsAtFirstFailure`).
- `schwab_holdings` records positions with quantity 0, at price 0 (`Schwab.ZeroQuantityRecorded`).
- `holdings all` initialises every adapter and then exits with status 1, because the holdings table has no "all" entry (`Dispatcher.RunCommandLine`).

## Model

| member | source | states |
|---|---|---|
| Text.SplitPiecesFree | robinhoodAPI.py:83 | no piece of `split` on one character contains that character |
| Text.JoinSplit | robinhoodAPI.py:83 | joining the pieces of a split with the separator gives back the string |
| Text.SplitJoin | schwabAPI.py:56 | splitting a join of separator-free fields gives back exactly those fields |
| Text.Capitalize | schwabAPI.py:166 | `capitalize`: same length, first letter upper case, the rest lower case |
| Text.ParseIntToString | auto-rsa.py:30 | `int(...)` reads back every rendered integer |
| Aggregate.CredentialEntries | robinhoodAPI.py:67-71 | the credential entries (external string, else environment value, stripped and split at commas) are never an empty list |
| Aggregate.FirstOccurrenceNames | robinhoodAPI.py:75-76 | names built from the first-occurrence index coincide exactly when the credential strings are equal |
| Aggregate.Brokerage.constructor | fennelAPI.py:370 | a new aggregate is empty and valid |
| Aggregate.Brokerage.SetLoggedInObject | robinhoodAPI.py:119 | stores a handle under (identity, slot) and changes nothing else |
| Aggregate.Brokerage.SetAccountNumber | robinhoodAPI.py:134 | appends the account to the identity's list; a new identity is added once, at the end of the identity order |
| Aggregate.Brokerage.SetAccountTotals | robinhoodAPI.py:135-139 | sets the total of one (identity, account) pair |
| Aggregate.Brokerage.SetAccountType | robinhoodAPI.py:140-142 | sets the type of one (identity, account) pair |
| Aggregate.Brokerage.SetHoldings | schwabAPI.py:120 | appends one holding row to one account |
| Aggregate.Brokerage.AppendHoldings | fennelAPI.py:454-462 | appending rows one at a time equals appending them all at once (`Appended`) |
| Aggregate.TargetsMember | fennelAPI.py:447-448 | the accounts visited are exactly the registered (identity, account) pairs |
| Aggregate.Row | robinhoodAPI.py:191-196 | one event per visited account, in visiting order |
| Aggregate.SweepMember | robinhoodAPI.py:190-196 | each event of a sweep comes from one stock and one account, and each (stock, account) pair yields one |
| Aggregate.FanOut | robinhoodAPI.py:190-196 | the nested stock, identity and account loops return exactly `Sweep` over `Targets` |
| Aggregate.FanOutStock | robinhoodAPI.py:191-196 | the identity and account loops for one stock return exactly `Row` |
| Aggregate.FanOutIdentity | robinhoodAPI.py:196 | the account loop of one identity returns one event per account of that identity, in order |
| Aggregate.AppendedTwice | schwabAPI.py:114-120 | appending two batches equals appending their concatenation |
| Aggregate.RecordedElsewhere | fennelAPI.py:446-466 | accounts that are not visited keep their holdings |
| Aggregate.RecordedOnce | fennelAPI.py:446-466 | an account visited once ends with its old rows followed by its new rows, and has an entry iff it had one or gained rows |
| Aggregate.RecordHoldings | fennelAPI.py:447-462 | the holdings loop leaves exactly `Recorded` over all registered accounts |
| Aggregate.RecordHoldingsWhile | schwabAPI.py:106-120 | identities are handled in order until the first whose fetch fails; the holdings are `Recorded` over exactly the identities before it |
| Aggregate.RecordIdentity | schwabAPI.py:110-120 | one identity's accounts are appended after those of the identities before it |
| Dispatcher.ParseCommandLine | auto-rsa.py:27-84 | order mode iff argv[1] is not "holdings", the amount parses, and argv[4] is "dry" or a broker followed by argv[5]; action lower-cased, stock upper-cased, broker "all" for "dry"; dry from argv[5] ("dry" in any case). A bad amount exits 1. A missing index, or an unset broker or DRY, is a distinct failure. Holdings mode iff exactly `holdings <broker>`; bot mode iff no arguments and a token; neither exits 1 |
| Dispatcher.AllAmountRefused | auto-rsa.py:29-36 | an amount of "all" is refused like any other word (the `is type(str)` test is never true) |
| Dispatcher.Route | auto-rsa.py:87-124 | the init and dispatch table: "all" is the five adapters in order; "rh" and "wb" are aliases; "fidelity" selects nothing; unknown tokens are refused |
| Dispatcher.HoldingsRoute | auto-rsa.py:159-176 | the holdings table accepts the same tokens (case-insensitively) except "all" |
| Dispatcher.IsMarketHours | auto-rsa.py:130-141 | the market is open iff the clock minute lies in 9:31..15:59, because both bounds keep the current seconds |
| Dispatcher.HoursMinutes | auto-rsa.py:145-147 | floor hours and left-over minutes: minutes lie in 0..59, and whole hours plus minutes bracket the difference to within one minute |
| Dispatcher.MinutesOfHour | auto-rsa.py:152-154 | the minutes left after whole hours lie in 0..59 |
| Dispatcher.MarketCountdown | auto-rsa.py:143-157 | counts to the close while open and to 9:30 otherwise; after the close the hours are negative |
| Dispatcher.RunAdapters | auto-rsa.py:196-206 | adapters are called in order until the first that raises; the attempted ones are a prefix of the route |
| Dispatcher.PlaceOrder | auto-rsa.py:178-237 | market closed means nothing is dispatched. A dispatch needs an integer amount and a known broker. For "all", the order is placed iff no adapter raises. The unit word is "shares" iff the amount > 1. Without a chat context the error handler itself raises. Unless an error is reported or escapes, no adapter that was called raised |
| Dispatcher.RunAdaptersStops | auto-rsa.py:196-206 | once an adapter raises, no adapter after it is reached |
| Dispatcher.AllStopsAtFirstFailure | auto-rsa.py:196-206 | in "all" mode the adapters called are the first ones of the route, ending at or before the first one that raises, so no later adapter is called |
| Dispatcher.BotRsa | auto-rsa.py:284-299 | the bot's dry flag is true iff the word is "dry" or "true" in any case; nothing escapes its handler; a non-integer amount dispatches nothing |
| Dispatcher.BotDryWiderThanCli | auto-rsa.py:286 | for every word: the bot accepts each dry word the command line accepts, and the words only the bot accepts are exactly "true" in any case; "TRUE" is a witness |
| Dispatcher.RunCommandLine | auto-rsa.py:240-259 | the whole run: exit status 0 or 1. A bad amount exits 1 with nothing initialised. A closed market dispatches nothing. `holdings all` exits 1 after initialising every adapter. A clean exit means no dispatched adapter raised |
| Fennel.TakeTokens | fennelAPI.py:114-116 | the three token fields are read one after the other; a missing key stops the sequence with the earlier fields already replaced |
| Fennel.InsertPermutes | fennelAPI.py:177 | insertion adds exactly the inserted account to the multiset |
| Fennel.InsertSorted | fennelAPI.py:177 | insertion keeps the list sorted by `created` |
| Fennel.InsertStable | fennelAPI.py:177 | insertion puts the new account ahead of every account with the same `created` and reorders none of them |
| Fennel.SortByCreatedSorts | fennelAPI.py:177 | `sorted(..., key=created)` is sorted, a permutation, and stable: for every `created` value the accounts with that value keep their input order |
| Fennel.ApprovedIdsAreIds | fennelAPI.py:178-181 | the selection loop collects exactly the ids of the approved accounts |
| Fennel.ApprovedCount | fennelAPI.py:180 | each approved account occurs as often as in the input; unapproved ones never |
| Fennel.ApprovedSubseq | fennelAPI.py:180 | everything selected is approved and comes from the input |
| Fennel.ApprovedKeepsOrder | fennelAPI.py:177-181 | filtering a sorted list keeps it sorted |
| Fennel.AccountIdSelection | fennelAPI.py:172-183 | `get_account_ids` returns exactly the ids of the APPROVED accounts, each as often as it occurs, in ascending `created` order |
| Fennel.FirstWithTicker | fennelAPI.py:220-227 | `next(...)` finds the first element whose ticker matches case-insensitively, or None iff none matches |
| Fennel.QuoteOf | fennelAPI.py:202-228 | an empty search is an error; otherwise the result is the first matching security or None |
| Fennel.TradableVerdict | fennelAPI.py:286-291 | no record gives (False, "No tradeable data found"); side "buy" in any case reads canBuy, every other side canSell |
| Fennel.IsinStage | fennelAPI.py:310-317 | the ISIN lookup searches, and consults the holdings only for a sell |
| Fennel.TradeStage | fennelAPI.py:319-344 | the tradability check comes first; success requires a tradable verdict; a dry run sends no order and yields the dry-run record |
| Fennel.OrderLadder | fennelAPI.py:303-344 | the checks run in a fixed order: side, market open, ISIN, tradable, dry run. An invalid side sends nothing. Success implies every check passed. A dry-run record is returned iff dry |
| Fennel.LadderCalls | fennelAPI.py:304-344 | the requests follow the ladder order, each kind at most once; holdings only for a sell; no order request in a dry run |
| Fennel.IsinStageCalls | fennelAPI.py:310-315 | the ISIN stage sends only search and (for sells) holdings requests |
| Fennel.TradeStageCalls | fennelAPI.py:319-338 | the trade stage sends only the tradable request and, when live, the order |
| Fennel.Session.constructor | fennelAPI.py:24-47 | without stored credentials the tokens are None; stored ones are loaded; `client_id` keeps its default unless the record has one |
| Fennel.Session.ClearCredentials | fennelAPI.py:66-73 | Bearer, Refresh and ID_Token become None; `client_id` is not touched |
| Fennel.Session.StoreTokens | fennelAPI.py:114-116 | the fields are updated exactly as `TakeTokens` describes |
| Fennel.Session.RefreshToken | fennelAPI.py:121-140 | sends one refresh request (without the login guard), and the tokens and result are those of `RefreshSpec` |
| Fennel.Session.GetAccountIds | fennelAPI.py:157-183 | without a bearer it fails and sends nothing; otherwise it returns the approved ids in `created` order and stores them; a missing accounts field is an error |
| Fennel.VerifyCalls | fennelAPI.py:142-155 | `_verify_login` sends only the account fetch when it succeeds; otherwise its requests include the refresh and number at most three |
| Fennel.Session.VerifyLogin | fennelAPI.py:142-155 | never raises; true iff the fetch, or a refresh then a fetch, succeeds; on true the tokens are the verified ones, on false the credentials are cleared; the requests are `VerifyCalls` |
| Fennel.CodeExchange | fennelAPI.py:98-119 | the OAuth exchange is sent first, then at most the refresh and the account fetch, in that order. An OAuth failure is an HTTP error after that one request, tokens unchanged. True iff a 200 reply carries all three tokens, the refresh succeeds and the account fetch succeeds; then all three requests were sent and the tokens are the refreshed ones |
| Fennel.LoginReuse | fennelAPI.py:77-78 | a held bearer whose account fetch succeeds makes `login` return True after that one request, tokens unchanged; any held bearer that verifies returns True with the requests of `_verify_login` |
| Fennel.LoginStart | fennelAPI.py:80-94 | without a verified bearer or a code: a failed passwordless start is an HTTP error, and with `wait_for_code` false a started one is "2FA required"; both after the start request, with the tokens cleared of a stale bearer |
| Fennel.LoginWithCode | fennelAPI.py:80-119 | with a code (given, or typed after a started passwordless login): the requests end with the OAuth exchange and at most the refresh and fetch; an OAuth failure is an HTTP error; success iff the OAuth reply carries the tokens and the refresh and fetch succeed |
| Fennel.LoginReused | fennelAPI.py:77-78 | a verified held bearer ends `login` with the verified tokens and the verification requests |
| Fennel.LoginNotReused | fennelAPI.py:77-96 | otherwise `login` is the reuse attempt followed by the code flow from cleared tokens |
| Fennel.LoginByCode | fennelAPI.py:80-119 | once a code is at hand, `login` is the reuse attempt, the optional start request, then `CodeExchange` |
| Fennel.Session.ReuseHeldTokens | fennelAPI.py:77-78 | true iff a bearer is held and verifies; the tokens and requests are those of the reuse attempt |
| Fennel.Session.LogInWithCode | fennelAPI.py:80-119 | the result, tokens and requests are those of `CodeFlow` |
| Fennel.Session.ExchangeCode | fennelAPI.py:98-119 | the result, tokens and requests are those of `CodeExchange` |
| Fennel.Session.Login | fennelAPI.py:75-119 | the result, the tokens and the requests sent are exactly those of `LoginSpec`, whose cases are stated by `LoginReuse`, `LoginStart` and `LoginWithCode`; success means a bearer is held |
| Fennel.PortfolioOf | fennelAPI.py:185-199 | the cash fetch succeeds iff a bearer is held and the portfolio request answers |
| Fennel.Session.GetPortfolioSummary | fennelAPI.py:185-199 | guarded: no bearer gives an error and no request; otherwise one portfolio request, and the result is `PortfolioOf` |
| Fennel.Session.GetStockQuote | fennelAPI.py:201-228 | guarded; one search request; result is `QuoteOf` |
| Fennel.Session.GetStockPrice | fennelAPI.py:230-233 | guarded; the matching quote's price, or None |
| Fennel.Session.GetStockHoldings | fennelAPI.py:235-249 | guarded; one holdings request |
| Fennel.Session.IsMarketOpen | fennelAPI.py:251-265 | guarded; one market request |
| Fennel.Session.GetStockIsin | fennelAPI.py:267-270 | guarded; the matching quote's ISIN, or None |
| Fennel.Session.IsStockTradable | fennelAPI.py:272-291 | guarded; one tradable request; verdict by `TradableVerdict` |
| Fennel.Session.GetStockInfoFromHoldings | fennelAPI.py:293-300 | guarded; the first holding whose ticker matches |
| Fennel.Session.PlaceOrder | fennelAPI.py:302-344 | guarded; with a bearer the result and the requests sent are exactly those of `OrderLadder` |
| Fennel.Session.FindIsin | fennelAPI.py:310-315 | the requests and result of the ISIN lookup are those of `IsinStage` |
| Fennel.Session.Trade | fennelAPI.py:319-344 | after the ISIN is known, the requests and result are those of `TradeStage` |
| Fennel.OrderMessageRule | fennelAPI.py:493-500 | a dry order that passes the ladder reports "Dry Run Success". A live one reports "Success" when the order is "pending", otherwise the returned value ("None" when absent) |
| FennelAdapter.IdentityNamesDistinct | fennelAPI.py:380-381 | logins at different positions get different names |
| FennelAdapter.AccountNamesDistinct | fennelAPI.py:420-421 | accounts at different positions get different names |
| FennelAdapter.AccountNames | fennelAPI.py:420-421 | the names of the first n accounts are "Account 1" .. "Account n" |
| FennelAdapter.Leading | fennelAPI.py:420-431 | the number c of accounts registered before a cash fetch fails: fetches 0..c-1 succeed, and c < number of ids implies fetch c failed |
| FennelAdapter.LeadingAt | fennelAPI.py:420-431 | a position where every earlier fetch succeeded and the next one failed (or the ids ran out) is `Leading` |
| FennelAdapter.EmailLogin | fennelAPI.py:384-416 | the outcome of logging in one email (with the bot's retry on "2FA") and fetching its ids: when present, a bearer is held and the account fetch with it returned exactly those ids |
| FennelAdapter.FennelInit | fennelAPI.py:368-443 | None iff not configured. Every identity is "Fennel k" for a configured login and is fully registered. For each email k: if its login or id fetch failed, "Fennel k+1" is absent; otherwise it is enrolled as `RegisterAccounts` states |
| FennelAdapter.FileEmail | fennelAPI.py:380-441 | one turn of the loop files email k and keeps what earlier emails filed |
| FennelAdapter.FiledElsewhere | fennelAPI.py:380-441 | what one email files leaves every other email's filing intact |
| FennelAdapter.LogInEmail | fennelAPI.py:382-441 | one email: a failed login or id fetch leaves the aggregate unchanged; a successful one reaches the registration and enrols the login with its ids; other logins are untouched and stay fully registered |
| FennelAdapter.SignIn | fennelAPI.py:384-416 | the session's login, retry and id fetch give exactly the outcome `EmailLogin` |
| FennelAdapter.RegisterAccounts | fennelAPI.py:419-431 | the session is filed under "fb"; for c = `Leading`, the accounts are exactly "Account 1" .. "Account c", each holding remote id ids[j] and the cash its fetch returned; the login joins the identities iff c > 0; nothing of other logins changes |
| FennelAdapter.EnrolAccounts | fennelAPI.py:420-431 | the account loop registers accounts in order and stops at the first failed cash fetch, having enrolled exactly the `Leading` ones |
| FennelAdapter.EnrolNext | fennelAPI.py:422-430 | one account: a failed fetch changes nothing; a successful one extends the enrolment by that account |
| FennelAdapter.RegisterAccount | fennelAPI.py:424-430 | appends "Account j+1" to the login, with its cash as total and its remote id as handle, and changes nothing else |
| FennelAdapter.EnrolOne | fennelAPI.py:424-430 | registering account n after the first n extends the enrolment to n+1 and touches no other login |
| FennelAdapter.EnrolledElsewhere | fennelAPI.py:419-430 | changes under one login keep another login's enrolment |
| FennelAdapter.ElsewhereTrans | fennelAPI.py:419-430 | two steps that each touch only one login together touch only that login |
| FennelAdapter.EnrolledRegistered | fennelAPI.py:419-430 | an enrolled login with accounts is fully registered |
| FennelAdapter.RegisteredElsewhere | fennelAPI.py:419-430 | changes under one login keep another login fully registered |
| FennelAdapter.RegisteredAfter | fennelAPI.py:419-431 | after the account loop every login is fully registered |
| FennelAdapter.FennelRows | fennelAPI.py:453-462 | no zero quantity is recorded; a row is recorded iff it is the ticker, quantity and price of a position with a non-zero quantity |
| FennelAdapter.FennelHoldings | fennelAPI.py:446-467 | the holdings become `Recorded` over all accounts with `FennelRowsAt` |
| FennelAdapter.FennelHoldingsNonZero | fennelAPI.py:455-457 | after `fennel_holdings` no account holds a new zero-quantity row |
| FennelAdapter.FennelTransaction | fennelAPI.py:470-508 | one report per stock and account, each from the ladder of `place_order` and the message rule |
| FennelAdapter.DryRunReports | fennelAPI.py:493-496 | in a dry run every successful report says "Dry Run Success" |
| Robinhood.TotpSecret | robinhoodAPI.py:84-86 | the secret is the third field unless it is missing, empty, or "na", "none" or "false" in any case |
| Robinhood.ParseCredential | robinhoodAPI.py:83-99 | a credential needs at least two fields: user name and password |
| Robinhood.NaIsNoSecret | robinhoodAPI.py:83-86 | "user:pass:NA" in any letter case parses to a credential without a secret |
| Robinhood.AddFreshAccount | robinhoodAPI.py:130-134 | adding an unseen account number keeps numbers unique across identities |
| Robinhood.Tagged | robinhoodAPI.py:122 | the loaded profiles of one login, each tagged with its name, in order |
| Robinhood.FirstOfferExists | robinhoodAPI.py:131-133 | every loaded account number has a first loading |
| Robinhood.OfferRegistered | robinhoodAPI.py:130-134 | under `Complete`, every loaded account number is registered under some identity |
| Robinhood.RegistryBooked | robinhoodAPI.py:130-142 | `Complete` and `Sound` together give every registered account a total and a type |
| Robinhood.SoundCovered | robinhoodAPI.py:131-134 | every registered number is among the numbers seen |
| Robinhood.OfferPrefix | robinhoodAPI.py:130 | loading one more profile keeps the earlier first loadings |
| Robinhood.OfferSeen | robinhoodAPI.py:131-132 | skipping a profile whose number was seen keeps `Complete`, `Sound` and the seen list exact |
| Robinhood.OfferFresh | robinhoodAPI.py:133-142 | registering a profile with an unseen number keeps numbers unique, `Complete`, `Sound`, and the seen list exact |
| Robinhood.FreshComplete | robinhoodAPI.py:133-142 | the first loading of a number is registered with its cash and type |
| Robinhood.FreshSound | robinhoodAPI.py:133-134 | a registration made at a first loading keeps every registered account a first loading |
| Robinhood.SessionsStep | robinhoodAPI.py:119 | storing a successful login's session keeps every earlier successful login's session |
| Robinhood.RobinhoodInit | robinhoodAPI.py:37-151 | None iff not configured. Over the profiles loaded by the entries that parsed and logged in, in order: the first loading of every account number is registered under its login with its cash as total and its type (`Complete`), and every registered account is such a first loading (`Sound`); so no number is registered twice, and every registered account has a total and a type. Every successful login holds its session, and every identity comes from such a login |
| Robinhood.LogInEntry | robinhoodAPI.py:74-149 | keeps `Complete`, `Sound` and the sessions for one more entry; an entry that fails to parse, or whose login raises or lacks an access token, changes neither the identities, the accounts nor the sessions |
| Robinhood.OpenSession | robinhoodAPI.py:119-142 | stores the session under the identity and changes no other handle; the loaded profiles extend the registry, or nothing is loaded when the profile call raises |
| Robinhood.RegisterProfiles | robinhoodAPI.py:130-142 | the registry covers the loaded profiles, in order, and the identity is appended at most once |
| Robinhood.RegisterProfile | robinhoodAPI.py:131-142 | one profile: a number already seen changes nothing; an unseen one is appended to the identity's accounts with its cash and type and to the seen list, and the identity is appended if new |
| Robinhood.LimitPrice | robinhoodAPI.py:221-234 | the fallback limit price in cents: one cent above the higher quote for "buy", one cent below the lower quote otherwise |
| Robinhood.Message | robinhoodAPI.py:254-256 | "Success" unless `non_field_errors` is set, which then becomes the message |
| Robinhood.RobinhoodStep | robinhoodAPI.py:200-276 | a dry run sends nothing. A live order sends the market order, and the limit order only when the market order returned None and both quotes exist, at `LimitPrice`. A missing quote skips the account |
| Robinhood.RobinhoodTransaction | robinhoodAPI.py:183-276 | one report per stock and account, by `RobinhoodStep` |
| Robinhood.DryRunSendsNothing | robinhoodAPI.py:272-276 | in a dry run no account sends any order |
| Robinhood.SuccessMessage | robinhoodAPI.py:262-264 | a live report says "Success" iff `non_field_errors` is absent or is itself "Success" |
| Schwab.SchwabTotp | schwabAPI.py:62 | the secret is absent iff the third field is exactly "NA" |
| Schwab.ParseSchwab | schwabAPI.py:56-62 | a credential needs three fields |
| Schwab.TotpConventionsDiffer | schwabAPI.py:62 | for every credential: no Schwab secret implies no Robinhood secret, a secret both read is the same text, and Robinhood alone drops exactly the empty field and the spellings of "na", "none", "false" other than "NA"; "na" is a witness |
| Schwab.SchwabInit | schwabAPI.py:22-100 | None iff not configured or some entry fails to parse or log in, discarding logins already made. On success every reported account is registered under its entry's name with its value as total, nothing unreported is registered, and every identity holds a session |
| Schwab.LogInEntry | schwabAPI.py:55-95 | one entry succeeds iff it parses and its login yields account information; on success it is registered and the invariants of `schwab_init` hold for the entries so far |
| Schwab.RegisterEntry | schwabAPI.py:86-95 | after one entry the invariants of `schwab_init` hold for the entries so far |
| Schwab.RegisterItems | schwabAPI.py:91-95 | every account of the entry is registered with a total; nothing unreported is added |
| Schwab.CompleteStep | schwabAPI.py:92-95 | registering another account keeps earlier registrations |
| Schwab.SoundStep | schwabAPI.py:92-95 | registering a reported account adds nothing unreported |
| Schwab.SchwabRow | schwabAPI.py:115-120 | a falsy symbol becomes "Unknown"; the price is 0 for quantity 0 and otherwise satisfies price · quantity = market value |
| Schwab.SchwabRows | schwabAPI.py:114-120 | every position becomes one row, in order, zero quantities included |
| Schwab.SchwabRowsAt | schwabAPI.py:113 | an account missing from the fetched information records nothing |
| Schwab.SchwabHoldings | schwabAPI.py:103-124 | identities are handled in order until the first whose fetch raises, which ends the call; holdings are `Recorded` over the identities before it |
| Schwab.ZeroQuantityRecorded | schwabAPI.py:116-120 | a zero-quantity position is recorded at price 0 |
| Schwab.PurchaseAccounts | schwabAPI.py:136 | the restriction list is never empty |
| Schwab.UnsetRestrictsNothing | schwabAPI.py:136-153 | with the variable unset or empty no account is skipped |
| Schwab.VerificationNotice | schwabAPI.py:172-178 | corrected notice: always names identity and account, followed by the result |
| Schwab.ErrorNotice | schwabAPI.py:204-206 | the error notice names identity and account |
| Schwab.MessagesNotice | schwabAPI.py:199-202 | the messages notice names identity and account |
| Schwab.AsWrittenFailureUnidentified | schwabAPI.py:172-197 | as written, the failure notices of both attempts name neither identity nor account |
| Schwab.TradeCalls | schwabAPI.py:164-188 | `trade_v2` first; `trade` with the same arguments only after a reported failure |
| Schwab.TradeOutcome | schwabAPI.py:164-206 | verified iff `trade_v2` reports success; a retry outcome only after a reported failure, successful iff `trade` reports success; raised iff a consulted call raised |
| Schwab.TradeNotices | schwabAPI.py:172-206 | with the corrected notice, every notice after the trade calls names identity and account; the messages notice appears iff the retry returned |
| Schwab.NoticesIdentified | schwabAPI.py:159-206 | with the corrected notice, every notice except the dry-run banner names its identity and account |
| Schwab.SchwabStep | schwabAPI.py:146-208 | a restricted account is skipped with no call and no pause. Otherwise `trade_v2` is called first, and `trade` only when it returned failure (not when it raised). Both carry the order's dry flag and capitalised side. One pause follows. A dry run posts the banner first. The failure notices are the corrected ones (see Findings) |
| Schwab.SchwabTransaction | schwabAPI.py:127-208 | one report per stock and account, by `SchwabStep`, with the restriction list read from the environment |
| Schwab.DryRunCallsAreDry | schwabAPI.py:164-188 | in a dry run every trade call is flagged as a dry run |
| Schwab.StepCallsDry | schwabAPI.py:164-188 | in a dry run both calls of one account carry the dry-run flag |
| Schwab.SalesNeverSkipped | schwabAPI.py:149-157 | sales are never skipped and always pause once |

## Findings

| source | as written | input that shows it | evidently intended | confidence | as-written member | corrected member |
|---|---|---|---|---|---|---|
| schwabAPI.py:172-178 | `prefix + "successful" if success else "unsuccessful, retrying..."` parses as `(prefix + "successful") if success else "unsuccessful, retrying..."`, so the failure notice is the bare text | `trade_v2` returning `success == False` for identity "Schwab 1" posts "unsuccessful, retrying..." without naming the identity or account | "Schwab 1 account ****1234: The order verification was unsuccessful, retrying..." | not executed; the parse follows from Python's precedence of the conditional expression | Schwab.VerificationNoticeAsWritten | Schwab.VerificationNotice |
| schwabAPI.py:190-197 | the same precedence slip on the retry: the failure notice is the bare "retry unsuccessful" | `trade` returning `success == False` after a failed `trade_v2` | "Schwab 1 account ****1234: The order verification was retry unsuccessful" | not executed; same construction as the row above | Schwab.AsWrittenFailureUnidentified | Schwab.TradeNotices |

## Left out

- Network, SDK and bot calls: every HTTP or GraphQL request, `robin_stocks`, `schwab_api` and the Discord bot are parameters giving their answers. Their own behaviour is not modelled.
- Credential persistence: pickle and JSON session files, `os.makedirs`, `os.remove`, `load_dotenv`, `_save_credentials` and `login_with_cache`. Stored credentials enter `Fennel.Session.constructor` as a parameter.
- Output: printing, logging, tracebacks and `printHoldings`. Only the Schwab notices are modelled as strings. The per-identity "…ing N of S" announcements and the Robinhood messages are modelled as outcomes, not text.
- The Discord OTP wait (`get_otp_and_login`): it is asyncio plus a foreign event loop. The code it yields is a parameter of `FennelAdapter.FennelInit`; a non-"2FA" failure of that second login is treated like any failed login.
- TOTP code generation with `pyotp`: it is time-based cryptography from a library. Only the choice of secret is modelled.
- Floating point: `float(...)` and `round(..., 2)` in the Robinhood limit price and the Schwab holdings. Robinhood prices are integer cents; Schwab values are exact reals.
- Schwab.SchwabRow: the price is market value / quantity unrounded, instead of both values rounded to two decimals.
- `datetime.now()` and `sleep(1)`: the clock is a `Dispatcher.Clock` parameter, and each pause is counted in `Schwab.Report.pauses`.
- The internals of the aggregate, the order descriptor and `maskString`: their source is not part of this model. The aggregate offers only the operations the adapters call; masking is a parameter of `Schwab.Desk`.
- The ally, webull and tradier adapters, and `robinhood_holdings`: their source is not part of this model, and `robinhood_holdings` is not one of the rules modelled here. Dispatch to them is a routing decision whose outcome is "raised or not".
- The adapter call contract: `auto-rsa.py` passes eight positional arguments to transaction functions that take three. Dispatch is modelled as routing only.
- Python case handling is ASCII only: non-ASCII `lower`, `upper` and `strip`, and underscores inside `int(...)`, are not modelled.
- Malformed replies: a missing key inside a reply is not modelled as a KeyError. Examples are a holding's `isin`, `account_value`, `portfolio_cash`, `symbol` or `market_value`. The token fields of the Fennel OAuth replies are the exception.
- Fennel.Session.GetPortfolioSummary: returns only the tradable cash, the one value the adapter reads, not the whole portfolio record.
- FennelAdapter.FennelTransaction: requires every visited account to have its remote id registered. In the source that lookup sits outside the error handling, so a missing id would end the whole call.
- Robinhood.RobinhoodStep: an exception raised by the quote calls is not modelled; quotes are present or absent.
- Robinhood.TotpSecret: the empty third field counts as no secret, as Python's truthiness test makes it.
- Schwab.SchwabInit: the account information is a list of (number, value) pairs. Distinct account numbers, which the source's dictionary guarantees, are not assumed. So the total registered for a number is the value of some report of it.
- Schwab.SchwabStep: the `messages` returned by a trade call enter the notice as already-rendered text.
- Schwab.SchwabStep: posts the corrected failure notices, which name the identity and account, where the source posts the bare "unsuccessful, retrying..." and "retry unsuccessful". The notices as written are `Schwab.VerificationNoticeAsWritten` and `Schwab.AsWrittenFailureUnidentified`.
- Fennel.SortByCreatedSorts: `created` is modelled as an integer key; the source compares whatever values the reply carries with Python's ordering.
