/** The Fennel client: a session object holding the OAuth tokens, whose
    guarded queries refuse to run without a bearer token, its login and
    token-refresh transitions (the refresh uses the refresh-token grant of
    section 6 of RFC 6749; only its effect on the fields is modelled), the
    account-id selection, quote matching, the tradability rule and the
    precondition ladder of `place_order`.

    Every HTTP exchange is answered by a `Server`: total functions from the
    request's arguments to the reply.  The session records each request it
    sends in `sent`, so "no request is made" is a statement about `sent`. */
module Fennel {
  import opened Wrappers
  import opened Text

  /** A JSON object whose values are strings or null. */
  type Json = map<string, Option<string>>

  const DefaultClientId := "FXGlhcVdamwozAFp8BZ2MWl6coPl6agX"

  /** `d.get(key)`. */
  function Get(d: Json, key: string): Option<string> {
    if key in d then d[key] else None
  }

  /** The tokens `_load_credentials` reads from a stored record, or none. */
  function StoredTokens(stored: Option<Json>): Tokens {
    if stored.None? then Tokens(None, None, None)
    else Tokens(Get(stored.value, "Bearer"), Get(stored.value, "Refresh"), Get(stored.value, "ID_Token"))
  }

  /** The client id after `_load_credentials`: the stored one when the
      record has the key, the default otherwise. */
  function StoredClientId(stored: Option<Json>): Option<string> {
    if stored.Some? && "client_id" in stored.value then stored.value["client_id"] else Some(DefaultClientId)
  }

  /** A reply whose status is not 200 (`Failed`) or the decoded 200 body. */
  datatype Reply<T> = Failed(status: int) | Answered(body: T)

  datatype Account = Account(id: string, status: string, created: int)
  datatype Security = Security(ticker: string, isin: Option<string>, price: Option<real>)
  datatype Position = Position(ticker: string, isin: Option<string>, ownedShares: real, price: Option<real>)
  datatype Tradeable = Tradeable(canBuy: bool, canSell: bool, restrictionReason: Option<string>)
  datatype Ticket = Ticket(accountId: string, ticker: string, quantity: int, isin: string,
                           side: string, price: string)

  datatype Request =
    | PasswordlessStart(email: string)
    | OtpExchange(email: string, code: string)
    | RefreshGrant
    | AccountIdsQuery
    | PortfolioQuery(accountId: string)
    | StockSearch(ticker: string)
    | HoldingsQuery(accountId: string)
    | MarketOpenQuery
    | TradableQuery(isin: string, accountId: string)
    | OrderQuery(ticket: Ticket)

  /** The remote side, as functions of each request's content. */
  datatype Server = Server(
    passwordless: (string, Option<string>) -> int,            // (email, client id) -> status
    oauth: (string, string, Option<string>) -> Reply<Json>,    // (email, code, client id)
    refresh: (Option<string>, Option<string>) -> Reply<Json>,  // (client id, refresh token)
    accounts: string -> Reply<Option<seq<Account>>>,           // bearer -> data.user.accounts
    portfolio: string -> Reply<real>,                          // account id -> cash that can trade
    search: string -> Reply<seq<Security>>,
    holdings: string -> Reply<seq<Position>>,
    marketOpen: Reply<bool>,
    tradeable: (string, string) -> Reply<Option<Tradeable>>,  // (isin, account id)
    order: Ticket -> Reply<Option<string>>)                   // data.createOrder

  datatype Error =
    | NotLoggedIn
    | HttpError(status: int)
    | MissingKey(key: string)
    | AccountsMissing
    | NoStockFound
    | InvalidSide
    | MarketClosed
    | IsinNotFound
    | NotTradable(reason: Option<string>)
    | TwoFactorRequired

  datatype Tokens = Tokens(bearer: Option<string>, refresh: Option<string>, idToken: Option<string>)

  /** Reading `access_token`, `refresh_token` and `id_token` out of a token
      reply, one assignment after the other: a missing key stops the
      sequence (KeyError) with the earlier fields already replaced. */
  function TakeTokens(t: Tokens, body: Json): (r: (Tokens, Option<string>))
    ensures r.1.None? <==> "access_token" in body && "refresh_token" in body && "id_token" in body
    ensures r.1.None? ==> r.0 == Tokens(Get(body, "access_token"), Get(body, "refresh_token"), Get(body, "id_token"))
    ensures "access_token" !in body ==> r == (t, Some("access_token"))
    ensures "access_token" in body && "refresh_token" !in body ==>
              r == (t.(bearer := body["access_token"]), Some("refresh_token"))
  {
    if "access_token" !in body then (t, Some("access_token"))
    else if "refresh_token" !in body then (t.(bearer := body["access_token"]), Some("refresh_token"))
    else if "id_token" !in body then
      (Tokens(body["access_token"], body["refresh_token"], t.idToken), Some("id_token"))
    else (Tokens(body["access_token"], body["refresh_token"], body["id_token"]), None)
  }

  /** The effect of `refresh_token` on the tokens, and what it returns. */
  function RefreshSpec(server: Server, t: Tokens, clientId: Option<string>): (Tokens, Result<Json, Error>) {
    match server.refresh(clientId, t.refresh)
    case Failed(st) => (t, Err(HttpError(st)))
    case Answered(body) =>
      var tk := TakeTokens(t, body);
      (tk.0, if tk.1.Some? then Err(MissingKey(tk.1.value)) else Ok(body))
  }

  // ------------------------------------------------------------------
  // Account ids: sorted by `created`, APPROVED only

  ghost predicate SortedByCreated(xs: seq<Account>) {
    forall i, j :: 0 <= i < j < |xs| ==> xs[i].created <= xs[j].created
  }

  /** Inserts before the first account created no earlier, so accounts with
      equal `created` keep their order (Python's sort is stable). */
  function Insert(a: Account, xs: seq<Account>): seq<Account> {
    if xs == [] then [a]
    else if a.created <= xs[0].created then [a] + xs
    else [xs[0]] + Insert(a, xs[1..])
  }

  /** `sorted(accounts, key=lambda x: x["created"])`, as an insertion sort. */
  function SortByCreated(xs: seq<Account>): seq<Account> {
    if xs == [] then [] else Insert(xs[0], SortByCreated(xs[1..]))
  }

  /** The accounts of `xs` created at `c`, in order. */
  function WithCreated(xs: seq<Account>, c: int): seq<Account> {
    if xs == [] then [] else (if xs[0].created == c then [xs[0]] else []) + WithCreated(xs[1..], c)
  }

  lemma {:induction false} InsertPermutes(a: Account, xs: seq<Account>)
    ensures multiset(Insert(a, xs)) == multiset(xs) + multiset{a}
  {
    if xs != [] && a.created > xs[0].created {
      InsertPermutes(a, xs[1..]);
      assert xs == [xs[0]] + xs[1..];
    }
  }

  lemma {:induction false} InsertSorted(a: Account, xs: seq<Account>)
    requires SortedByCreated(xs)
    ensures SortedByCreated(Insert(a, xs))
  {
    if xs != [] && a.created > xs[0].created {
      var tail := xs[1..];
      assert SortedByCreated(tail);
      InsertSorted(a, tail);
      InsertPermutes(a, tail);
      var rest := Insert(a, tail);
      forall y | y in rest ensures xs[0].created <= y.created {
        assert y in multiset(rest);
        assert y == a || y in tail;
      }
      SortedCons(xs[0], rest);
    }
  }

  /** Insertion puts `a` ahead of every account created at its time and
      moves no account past another of the same time. */
  lemma {:induction false} InsertStable(a: Account, xs: seq<Account>, c: int)
    ensures WithCreated(Insert(a, xs), c) == (if a.created == c then [a] else []) + WithCreated(xs, c)
  {
    var own := if a.created == c then [a] else [];
    if xs == [] {
      assert WithCreated([a], c) == own + WithCreated([], c);
    } else if a.created <= xs[0].created {
      var r := [a] + xs;
      assert r[0] == a && r[1..] == xs;
      assert WithCreated(r, c) == own + WithCreated(xs, c);
    } else {
      var rest := Insert(a, xs[1..]);
      var r := [xs[0]] + rest;
      assert r[0] == xs[0] && r[1..] == rest;
      var head := if xs[0].created == c then [xs[0]] else [];
      assert WithCreated(r, c) == head + WithCreated(rest, c);
      assert WithCreated(xs, c) == head + WithCreated(xs[1..], c);
      InsertStable(a, xs[1..], c);
      assert head == [] || own == [];
    }
  }

  /** An account created no later than every account of a sorted sequence
      can go in front of it. */
  lemma SortedCons(x: Account, rest: seq<Account>)
    requires SortedByCreated(rest) && forall y :: y in rest ==> x.created <= y.created
    ensures SortedByCreated([x] + rest)
  {
    var r := [x] + rest;
    forall i, j | 0 <= i < j < |r| ensures r[i].created <= r[j].created {
      assert r[j] == rest[j - 1] && r[j] in rest;
      if i > 0 {
        assert r[i] == rest[i - 1];
      }
    }
  }

  /** The sort orders by `created`, keeps every account (as often as it
      occurs) and is stable: the accounts created at any one time appear in
      their original order. */
  lemma {:induction false} SortByCreatedSorts(xs: seq<Account>)
    ensures SortedByCreated(SortByCreated(xs))
    ensures multiset(SortByCreated(xs)) == multiset(xs)
    ensures forall c :: WithCreated(SortByCreated(xs), c) == WithCreated(xs, c)
  {
    if xs != [] {
      var tail := SortByCreated(xs[1..]);
      SortByCreatedSorts(xs[1..]);
      InsertSorted(xs[0], tail);
      InsertPermutes(xs[0], tail);
      assert xs == [xs[0]] + xs[1..];
      forall c ensures WithCreated(SortByCreated(xs), c) == WithCreated(xs, c) {
        InsertStable(xs[0], tail, c);
      }
    }
  }

  predicate IsApproved(a: Account) {
    a.status == "APPROVED"
  }

  /** The ids the selection loop collects from `xs`, in order. */
  function ApprovedIds(xs: seq<Account>): seq<string> {
    if xs == [] then []
    else ApprovedIds(xs[..|xs| - 1]) + (if IsApproved(xs[|xs| - 1]) then [xs[|xs| - 1].id] else [])
  }

  /** The approved accounts of `xs`, in order. */
  function Approved(xs: seq<Account>): seq<Account> {
    if xs == [] then []
    else Approved(xs[..|xs| - 1]) + (if IsApproved(xs[|xs| - 1]) then [xs[|xs| - 1]] else [])
  }

  function Ids(xs: seq<Account>): (r: seq<string>)
    ensures |r| == |xs| && forall i :: 0 <= i < |xs| ==> r[i] == xs[i].id
  {
    if xs == [] then [] else Ids(xs[..|xs| - 1]) + [xs[|xs| - 1].id]
  }

  lemma {:induction false} ApprovedIdsAreIds(xs: seq<Account>)
    ensures ApprovedIds(xs) == Ids(Approved(xs))
  {
    if xs != [] {
      ApprovedIdsAreIds(xs[..|xs| - 1]);
      var a := Approved(xs[..|xs| - 1]);
      if IsApproved(xs[|xs| - 1]) {
        assert Ids(a + [xs[|xs| - 1]]) == Ids(a) + [xs[|xs| - 1].id] by {
          assert (a + [xs[|xs| - 1]])[..|a|] == a;
        }
      }
    }
  }

  lemma {:induction false} ApprovedCount(xs: seq<Account>, a: Account)
    ensures multiset(Approved(xs))[a] == if IsApproved(a) then multiset(xs)[a] else 0
  {
    if xs != [] {
      var init := xs[..|xs| - 1];
      ApprovedCount(init, a);
      assert xs == init + [xs[|xs| - 1]];
    }
  }

  lemma {:induction false} ApprovedSubseq(xs: seq<Account>)
    ensures forall a :: a in Approved(xs) ==> a in xs && IsApproved(a)
  {
    if xs != [] {
      var init := xs[..|xs| - 1];
      ApprovedSubseq(init);
      assert forall a :: a in init ==> a in xs;
    }
  }

  lemma {:induction false} ApprovedKeepsOrder(xs: seq<Account>)
    requires SortedByCreated(xs)
    ensures SortedByCreated(Approved(xs))
  {
    if xs != [] {
      var init := xs[..|xs| - 1];
      var last := xs[|xs| - 1];
      assert SortedByCreated(init);
      ApprovedKeepsOrder(init);
      ApprovedSubseq(init);
      var a := Approved(init);
      forall y | y in a ensures y.created <= last.created {
        var i :| 0 <= i < |init| && init[i] == y;
      }
    }
  }

  /** `get_account_ids` returns exactly the ids of the APPROVED accounts
      (each as often as it occurs), in ascending `created` order. */
  lemma AccountIdSelection(accs: seq<Account>)
    ensures var chosen := Approved(SortByCreated(accs));
            && ApprovedIds(SortByCreated(accs)) == Ids(chosen)
            && SortedByCreated(chosen)
            && multiset(chosen) == multiset(Approved(accs))
            && forall a :: a in chosen ==> IsApproved(a)
  {
    var sorted := SortByCreated(accs);
    SortByCreatedSorts(accs);
    ApprovedIdsAreIds(sorted);
    ApprovedKeepsOrder(sorted);
    ApprovedSubseq(sorted);
    forall a ensures multiset(Approved(sorted))[a] == multiset(Approved(accs))[a] {
      ApprovedCount(sorted, a);
      ApprovedCount(accs, a);
    }
  }

  /** What `get_account_ids` makes of the accounts reply. */
  function AccountIdsOf(reply: Reply<Option<seq<Account>>>): Result<seq<string>, Error> {
    match reply
    case Failed(st) => Err(HttpError(st))
    case Answered(None) => Err(AccountsMissing)
    case Answered(Some(accs)) => Ok(ApprovedIds(SortByCreated(accs)))
  }

  /** The account fetch with bearer `b` succeeds. */
  predicate FetchOk(server: Server, b: Option<string>) {
    b.Some? && AccountIdsOf(server.accounts(b.value)).Ok?
  }

  /** `_verify_login`: the fetch with the current bearer, or else a refresh
      followed by a fetch with the new bearer. */
  predicate VerifySpec(server: Server, t: Tokens, clientId: Option<string>) {
    || FetchOk(server, t.bearer)
    || (var rf := RefreshSpec(server, t, clientId); rf.1.Ok? && FetchOk(server, rf.0.bearer))
  }

  /** The requests `_verify_login` sends from tokens `t`: the account fetch
      (skipped by the login check when there is no bearer), and on its
      failure a refresh and, when that succeeds with a bearer, a second fetch. */
  function VerifyCalls(server: Server, t: Tokens, clientId: Option<string>): (r: seq<Request>)
    ensures FetchOk(server, t.bearer) ==> r == [AccountIdsQuery]
    ensures !FetchOk(server, t.bearer) ==> RefreshGrant in r && |r| <= 3
  {
    var first := if t.bearer.Some? then [AccountIdsQuery] else [];
    if FetchOk(server, t.bearer) then first
    else
      var rf := RefreshSpec(server, t, clientId);
      first + [RefreshGrant] + (if rf.1.Ok? && rf.0.bearer.Some? then [AccountIdsQuery] else [])
  }

  /** The tokens, the requests and the result of a stretch of `login`. */
  datatype Exchange = Exchange(tokens: Tokens, calls: seq<Request>, result: Result<bool, Error>)

  /** The second half of `login`, from tokens `t` and the code `otp`: the
      OAuth code exchange, the three token fields, a refresh and an account
      fetch, each failure ending the login with its error. */
  function CodeExchange(server: Server, t: Tokens, clientId: Option<string>, email: string, otp: string): (x: Exchange)
    ensures 1 <= |x.calls| <= 3 && x.calls == [OtpExchange(email, otp)] + [RefreshGrant, AccountIdsQuery][..|x.calls| - 1]
    ensures server.oauth(email, otp, clientId).Failed? ==>
              x == Exchange(t, [OtpExchange(email, otp)], Err(HttpError(server.oauth(email, otp, clientId).status)))
    ensures x.result.Ok? ==> x.result.value && x.tokens.bearer.Some?
    ensures x.result.Ok? <==>
              && server.oauth(email, otp, clientId).Answered?
              && var tk := TakeTokens(t, server.oauth(email, otp, clientId).body);
              && tk.1.None?
              && var rf := RefreshSpec(server, tk.0, clientId);
              && rf.1.Ok? && FetchOk(server, rf.0.bearer)
    ensures x.result.Ok? ==>
              x.calls == [OtpExchange(email, otp), RefreshGrant, AccountIdsQuery] &&
              x.tokens == RefreshSpec(server, TakeTokens(t, server.oauth(email, otp, clientId).body).0, clientId).0
  {
    var c := [OtpExchange(email, otp)];
    match server.oauth(email, otp, clientId)
    case Failed(st) => Exchange(t, c, Err(HttpError(st)))
    case Answered(body) =>
      var tk := TakeTokens(t, body);
      if tk.1.Some? then Exchange(tk.0, c, Err(MissingKey(tk.1.value)))
      else
        var rf := RefreshSpec(server, tk.0, clientId);
        var c2 := c + [RefreshGrant];
        if rf.1.Err? then Exchange(rf.0, c2, Err(rf.1.error))
        else if rf.0.bearer.None? then Exchange(rf.0, c2, Err(NotLoggedIn))
        else
          match AccountIdsOf(server.accounts(rf.0.bearer.value))
          case Err(e) => Exchange(rf.0, c2 + [AccountIdsQuery], Err(e))
          case Ok(_) => Exchange(rf.0, c2 + [AccountIdsQuery], Ok(true))
  }

  // ------------------------------------------------------------------
  // Quotes, holdings lookup and the tradability rule

  function SecurityTicker(s: Security): string { s.ticker }
  function PositionTicker(p: Position): string { p.ticker }

  /** `next((x for x in xs if ticker_of(x).lower() == ticker.lower()), None)`. */
  function FirstWithTicker<T>(xs: seq<T>, tickerOf: T -> string, ticker: string): (r: Option<T>)
    ensures r.Some? ==> r.value in xs && Lower(tickerOf(r.value)) == Lower(ticker)
    ensures r.None? <==> forall x :: x in xs ==> Lower(tickerOf(x)) != Lower(ticker)
    ensures r.Some? && Lower(tickerOf(xs[0])) != Lower(ticker) ==> r == FirstWithTicker(xs[1..], tickerOf, ticker)
    ensures xs != [] && Lower(tickerOf(xs[0])) == Lower(ticker) ==> r == Some(xs[0])
  {
    if xs == [] then None
    else if Lower(tickerOf(xs[0])) == Lower(ticker) then Some(xs[0])
    else
      assert forall x :: x in xs ==> x == xs[0] || x in xs[1..];
      FirstWithTicker(xs[1..], tickerOf, ticker)
  }

  /** `get_stock_quote`: an empty search result is an error; otherwise the
      first security whose ticker matches case-insensitively, or `None`. */
  function QuoteOf(reply: Reply<seq<Security>>, ticker: string): (r: Result<Option<Security>, Error>)
    ensures reply == Answered([]) ==> r == Err(NoStockFound)
    ensures r.Ok? ==> reply.Answered? && reply.body != []
    ensures r.Ok? && r.value.Some? ==> r.value.value in reply.body && Lower(r.value.value.ticker) == Lower(ticker)
    ensures r.Ok? && r.value.None? ==> forall x :: x in reply.body ==> Lower(x.ticker) != Lower(ticker)
  {
    match reply
    case Failed(st) => Err(HttpError(st))
    case Answered(securities) =>
      if |securities| == 0 then Err(NoStockFound)
      else Ok(FirstWithTicker(securities, SecurityTicker, ticker))
  }

  /** `is_stock_tradable`'s rule on the `tradeable` record: no record means
      not tradable; a side of "buy" in any case reads `canBuy`, every other
      side `canSell`. */
  function TradableVerdict(t: Option<Tradeable>, side: string): (r: (bool, Option<string>))
    ensures t.None? ==> r == (false, Some("No tradeable data found"))
    ensures t.Some? ==> r.1 == t.value.restrictionReason
    ensures t.Some? && Lower(side) == "buy" ==> r.0 == t.value.canBuy
    ensures t.Some? && Lower(side) != "buy" ==> r.0 == t.value.canSell
  {
    match t
    case None => (false, Some("No tradeable data found"))
    case Some(can) =>
      if Lower(side) == "buy" then (can.canBuy, can.restrictionReason)
      else (can.canSell, can.restrictionReason)
  }

  // ------------------------------------------------------------------
  // The `place_order` ladder

  datatype OrderResult = DryRunRecord(ticket: Ticket) | Submitted(createOrder: Option<string>)

  datatype Ladder = Ladder(calls: seq<Request>, outcome: Result<OrderResult, Error>)

  /** The position of each kind of request in the ladder. */
  function Rank(q: Request): nat {
    match q
    case MarketOpenQuery => 0
    case StockSearch(_) => 1
    case HoldingsQuery(_) => 2
    case TradableQuery(_, _) => 3
    case OrderQuery(_) => 4
    case _ => 5
  }

  predicate IsSide(side: string) {
    Lower(side) == "buy" || Lower(side) == "sell"
  }

  /** The ISIN step: search; if nothing usable was found and the order is a
      sell, look the ticker up in the account's holdings. */
  function IsinStage(server: Server, accountId: string, ticker: string, side: string): (r: (seq<Request>, Result<Option<string>, Error>))
    ensures r.0 == [StockSearch(ticker)] ||
            (r.0 == [StockSearch(ticker), HoldingsQuery(accountId)] && Lower(side) == "sell")
  {
    var c := [StockSearch(ticker)];
    match QuoteOf(server.search(ticker), ticker)
    case Err(e) => (c, Err(e))
    case Ok(q) =>
      var isin := if q.Some? then q.value.isin else None;
      if isin.None? && Lower(side) == "sell" then
        match server.holdings(accountId)
        case Failed(st) => (c + [HoldingsQuery(accountId)], Err(HttpError(st)))
        case Answered(ps) =>
          var info := FirstWithTicker(ps, PositionTicker, ticker);
          (c + [HoldingsQuery(accountId)], Ok(if info.Some? then info.value.isin else isin))
      else (c, Ok(isin))
  }

  /** The last steps of the ladder, once an ISIN is known: the tradability
      check, then either the dry-run record or the order itself. */
  function TradeStage(server: Server, accountId: string, ticker: string, quantity: int,
                      isin: string, side: string, price: string, dry: bool): (r: Ladder)
    ensures r.calls == [TradableQuery(isin, accountId)] ||
            (!dry && r.calls == [TradableQuery(isin, accountId),
                                 OrderQuery(Ticket(accountId, ticker, quantity, isin, side, price))])
    ensures r.outcome.Ok? ==>
              server.tradeable(isin, accountId).Answered? &&
              TradableVerdict(server.tradeable(isin, accountId).body, side).0
    ensures r.outcome.Ok? ==> (r.outcome.value.DryRunRecord? <==> dry)
  {
    var c := [TradableQuery(isin, accountId)];
    match server.tradeable(isin, accountId)
    case Failed(st) => Ladder(c, Err(HttpError(st)))
    case Answered(t) =>
      var verdict := TradableVerdict(t, side);
      if !verdict.0 then Ladder(c, Err(NotTradable(verdict.1)))
      else
        var ticket := Ticket(accountId, ticker, quantity, isin, side, price);
        if dry then Ladder(c, Ok(DryRunRecord(ticket)))
        else
          match server.order(ticket)
          case Failed(st) => Ladder(c + [OrderQuery(ticket)], Err(HttpError(st)))
          case Answered(created) => Ladder(c + [OrderQuery(ticket)], Ok(Submitted(created)))
  }

  /** The requests of a ladder run in the ladder's order, each kind at most once. */
  ghost predicate InLadderOrder(calls: seq<Request>) {
    forall i, j :: 0 <= i < j < |calls| ==> Rank(calls[i]) < Rank(calls[j])
  }

  /** The checks of `place_order` in their fixed order (side, market open,
      ISIN, tradable, dry run), and the requests each reached step sends. */
  function OrderLadder(server: Server, accountId: string, ticker: string, quantity: int,
                       side: string, price: string, dry: bool): (r: Ladder)
    ensures !IsSide(side) ==> r == Ladder([], Err(InvalidSide))
    ensures r.calls != [] ==> r.calls[0] == MarketOpenQuery
    ensures |r.calls| > 1 ==> server.marketOpen == Answered(true)
    ensures r.outcome.Ok? ==>
              && IsSide(side) && server.marketOpen == Answered(true)
              && var isin := IsinStage(server, accountId, ticker, side).1;
              && isin.Ok? && isin.value.Some?
              && server.tradeable(isin.value.value, accountId).Answered?
              && TradableVerdict(server.tradeable(isin.value.value, accountId).body, side).0
    ensures r.outcome.Ok? ==> (r.outcome.value.DryRunRecord? <==> dry)
  {
    if !IsSide(side) then Ladder([], Err(InvalidSide))
    else
      var c1 := [MarketOpenQuery];
      match server.marketOpen
      case Failed(st) => Ladder(c1, Err(HttpError(st)))
      case Answered(open) =>
        if !open then Ladder(c1, Err(MarketClosed))
        else
          var stage := IsinStage(server, accountId, ticker, side);
          match stage.1
          case Err(e) => Ladder(c1 + stage.0, Err(e))
          case Ok(None) => Ladder(c1 + stage.0, Err(IsinNotFound))
          case Ok(Some(isin)) =>
            var tail := TradeStage(server, accountId, ticker, quantity, isin, side, price, dry);
            Ladder(c1 + stage.0 + tail.calls, tail.outcome)
  }

  /** The requests of any ladder run follow the ladder's order; the holdings
      fallback is only consulted for a sell, and a dry run never sends the
      order. */
  lemma LadderCalls(server: Server, accountId: string, ticker: string, quantity: int,
                    side: string, price: string, dry: bool)
    ensures var calls := OrderLadder(server, accountId, ticker, quantity, side, price, dry).calls;
            && InLadderOrder(calls)
            && (forall q :: q in calls && q.HoldingsQuery? ==> Lower(side) == "sell")
            && (dry ==> forall q :: q in calls ==> !q.OrderQuery?)
  {
    var calls := OrderLadder(server, accountId, ticker, quantity, side, price, dry).calls;
    if IsSide(side) && server.marketOpen == Answered(true) {
      var stage := IsinStage(server, accountId, ticker, side);
      var head := [MarketOpenQuery] + stage.0;
      IsinStageCalls(server, accountId, ticker, side);
      var tail: seq<Request> := [];
      if stage.1.Ok? && stage.1.value.Some? {
        tail := TradeStage(server, accountId, ticker, quantity, stage.1.value.value, side, price, dry).calls;
        TradeStageCalls(server, accountId, ticker, quantity, stage.1.value.value, side, price, dry);
      }
      assert calls == head + tail;
      ConcatInLadderOrder(head, tail);
    }
  }

  lemma IsinStageCalls(server: Server, accountId: string, ticker: string, side: string)
    ensures var calls := [MarketOpenQuery] + IsinStage(server, accountId, ticker, side).0;
            && InLadderOrder(calls)
            && (forall i :: 0 <= i < |calls| ==> Rank(calls[i]) <= 2)
            && (forall q :: q in calls && q.HoldingsQuery? ==> Lower(side) == "sell")
            && (forall q :: q in calls ==> !q.OrderQuery?)
  {
    var stage := IsinStage(server, accountId, ticker, side).0;
    var calls := [MarketOpenQuery] + stage;
    if stage == [StockSearch(ticker)] {
      assert calls == [MarketOpenQuery, StockSearch(ticker)];
    } else {
      assert calls == [MarketOpenQuery, StockSearch(ticker), HoldingsQuery(accountId)];
    }
    SearchCalls(calls, ticker, accountId, Lower(side) == "sell");
  }

  /** The two request sequences the ISIN stage can produce, after the
      market-hours query. */
  lemma SearchCalls(calls: seq<Request>, ticker: string, accountId: string, sell: bool)
    requires calls == [MarketOpenQuery, StockSearch(ticker)] ||
             (sell && calls == [MarketOpenQuery, StockSearch(ticker), HoldingsQuery(accountId)])
    ensures InLadderOrder(calls)
    ensures forall i :: 0 <= i < |calls| ==> Rank(calls[i]) <= 2
    ensures forall q :: q in calls && q.HoldingsQuery? ==> sell
    ensures forall q :: q in calls ==> !q.OrderQuery?
  {
  }

  lemma TradeStageCalls(server: Server, accountId: string, ticker: string, quantity: int,
                        isin: string, side: string, price: string, dry: bool)
    ensures var calls := TradeStage(server, accountId, ticker, quantity, isin, side, price, dry).calls;
            && InLadderOrder(calls)
            && (forall i :: 0 <= i < |calls| ==> Rank(calls[i]) >= 3)
            && (forall q :: q in calls ==> !q.HoldingsQuery?)
            && (dry ==> forall q :: q in calls ==> !q.OrderQuery?)
  {
    var calls := TradeStage(server, accountId, ticker, quantity, isin, side, price, dry).calls;
    if calls != [TradableQuery(isin, accountId)] {
      var ticket := Ticket(accountId, ticker, quantity, isin, side, price);
      assert calls == [TradableQuery(isin, accountId), OrderQuery(ticket)];
      assert Rank(calls[0]) == 3 && Rank(calls[1]) == 4;
    }
  }

  lemma ConcatInLadderOrder(a: seq<Request>, b: seq<Request>)
    requires InLadderOrder(a) && InLadderOrder(b)
    requires forall i :: 0 <= i < |a| ==> Rank(a[i]) <= 2
    requires forall i :: 0 <= i < |b| ==> Rank(b[i]) >= 3
    ensures InLadderOrder(a + b)
  {
    forall i, j | 0 <= i < j < |a + b| ensures Rank((a + b)[i]) < Rank((a + b)[j]) {
      if j < |a| {
        assert (a + b)[i] == a[i] && (a + b)[j] == a[j];
      } else if i < |a| {
        assert (a + b)[i] == a[i] && (a + b)[j] == b[j - |a|];
      } else {
        assert (a + b)[i] == b[i - |a|] && (a + b)[j] == b[j - |a|];
      }
    }
  }

  // ------------------------------------------------------------------
  // The first half of `login`: reusing held tokens

  /** A held bearer is reused: it verifies, directly or after a refresh. */
  predicate Reused(server: Server, t: Tokens, clientId: Option<string>) {
    t.bearer.Some? && VerifySpec(server, t, clientId)
  }

  /** The tokens the code flow starts from: none after a held bearer failed
      to verify, otherwise the (empty) tokens held. */
  function AfterReuse(t: Tokens): Tokens {
    if t.bearer.Some? then Tokens(None, None, None) else t
  }

  /** The requests of the reuse attempt: those of `_verify_login` when a
      bearer is held. */
  function ReuseCalls(server: Server, t: Tokens, clientId: Option<string>): seq<Request> {
    if t.bearer.Some? then VerifyCalls(server, t, clientId) else []
  }

  /** The tokens after `_verify_login` succeeds: unchanged when the first
      fetch works, the refreshed ones otherwise. */
  function VerifiedTokens(server: Server, t: Tokens, clientId: Option<string>): Tokens {
    if FetchOk(server, t.bearer) then t else RefreshSpec(server, t, clientId).0
  }

  lemma AppendAssoc<T>(a: seq<T>, b: seq<T>, c: seq<T>)
    ensures a + (b + c) == (a + b) + c
  {
  }

  /** `login` from tokens `t`: a held bearer that verifies is reused;
      otherwise, without a code, the passwordless start is sent and the
      code is awaited (`typed`) or required; then the code exchange. */
  function LoginSpec(server: Server, t: Tokens, clientId: Option<string>, email: string,
                     waitForCode: bool, code: Option<string>, typed: string): (x: Exchange)
    ensures x.result.Ok? ==> x.result.value && x.tokens.bearer.Some?
  {
    if Reused(server, t, clientId) then Exchange(VerifiedTokens(server, t, clientId), VerifyCalls(server, t, clientId), Ok(true))
    else
      var y := CodeFlow(server, AfterReuse(t), clientId, email, waitForCode, code, typed);
      Exchange(y.tokens, ReuseCalls(server, t, clientId) + y.calls, y.result)
  }

  /** The rest of `login` once no held bearer is reused, from tokens `t`. */
  function CodeFlow(server: Server, t: Tokens, clientId: Option<string>, email: string,
                    waitForCode: bool, code: Option<string>, typed: string): (y: Exchange)
    ensures y.result.Ok? ==> y.result.value && y.tokens.bearer.Some?
  {
    var asked := if code.None? then [PasswordlessStart(email)] else [];
    if code.None? && server.passwordless(email, clientId) != 200 then
      Exchange(t, asked, Err(HttpError(server.passwordless(email, clientId))))
    else if code.None? && !waitForCode then Exchange(t, asked, Err(TwoFactorRequired))
    else
      var x := CodeExchange(server, t, clientId, email, if code.Some? then code.value else typed);
      Exchange(x.tokens, asked + x.calls, x.result)
  }

  lemma LoginReused(server: Server, t: Tokens, clientId: Option<string>, email: string,
                    waitForCode: bool, code: Option<string>, typed: string)
    requires Reused(server, t, clientId)
    ensures LoginSpec(server, t, clientId, email, waitForCode, code, typed) ==
              Exchange(VerifiedTokens(server, t, clientId), ReuseCalls(server, t, clientId), Ok(true))
  {
  }

  lemma LoginNotReused(server: Server, t: Tokens, clientId: Option<string>, email: string,
                       waitForCode: bool, code: Option<string>, typed: string)
    requires !Reused(server, t, clientId)
    ensures var y := CodeFlow(server, AfterReuse(t), clientId, email, waitForCode, code, typed);
            LoginSpec(server, t, clientId, email, waitForCode, code, typed) ==
              Exchange(y.tokens, ReuseCalls(server, t, clientId) + y.calls, y.result)
  {
  }

  /** `LoginSpec` on the code path: what precedes the exchange, then the
      exchange from the tokens left by the reuse attempt. */
  lemma LoginByCode(server: Server, t: Tokens, clientId: Option<string>, email: string,
                    waitForCode: bool, code: Option<string>, typed: string)
    requires !Reused(server, t, clientId)
    requires code.Some? || (waitForCode && server.passwordless(email, clientId) == 200)
    ensures var x := CodeExchange(server, AfterReuse(t), clientId, email, if code.Some? then code.value else typed);
            LoginSpec(server, t, clientId, email, waitForCode, code, typed) ==
              Exchange(x.tokens, ReuseCalls(server, t, clientId) + (if code.None? then [PasswordlessStart(email)] else []) + x.calls,
                       x.result)
  {
  }

  /** A fetch that works with the held bearer reuses it with no other
      request; any held bearer that verifies is kept. */
  lemma LoginReuse(server: Server, t: Tokens, clientId: Option<string>, email: string,
                   waitForCode: bool, code: Option<string>, typed: string)
    ensures FetchOk(server, t.bearer) ==>
              LoginSpec(server, t, clientId, email, waitForCode, code, typed) == Exchange(t, [AccountIdsQuery], Ok(true))
    ensures Reused(server, t, clientId) ==>
              && LoginSpec(server, t, clientId, email, waitForCode, code, typed).result == Ok(true)
              && LoginSpec(server, t, clientId, email, waitForCode, code, typed).calls == VerifyCalls(server, t, clientId)
  {
    if Reused(server, t, clientId) {
      LoginReused(server, t, clientId, email, waitForCode, code, typed);
    }
  }

  /** Without a code, a passwordless start that fails ends the login with
      its status, and one that succeeds while the code is not awaited ends
      it asking for the code; the tokens are those left by the reuse attempt. */
  lemma LoginStart(server: Server, t: Tokens, clientId: Option<string>, email: string,
                   waitForCode: bool, typed: string)
    requires !Reused(server, t, clientId)
    ensures server.passwordless(email, clientId) != 200 ==>
              LoginSpec(server, t, clientId, email, waitForCode, None, typed) ==
                Exchange(AfterReuse(t), ReuseCalls(server, t, clientId) + [PasswordlessStart(email)],
                         Err(HttpError(server.passwordless(email, clientId))))
    ensures !waitForCode && server.passwordless(email, clientId) == 200 ==>
              LoginSpec(server, t, clientId, email, waitForCode, None, typed) ==
                Exchange(AfterReuse(t), ReuseCalls(server, t, clientId) + [PasswordlessStart(email)], Err(TwoFactorRequired))
  {
    LoginNotReused(server, t, clientId, email, waitForCode, None, typed);
  }

  /** With a code (given, or typed after a successful passwordless start):
      the code exchange follows, then at most a refresh and an account
      fetch; an OAuth failure ends the login with its status, and the login
      succeeds exactly when the OAuth reply carries the three tokens and the
      refresh and the account fetch that follow both succeed. */
  lemma LoginWithCode(server: Server, t: Tokens, clientId: Option<string>, email: string,
                      waitForCode: bool, code: Option<string>, typed: string)
    requires !Reused(server, t, clientId)
    requires code.Some? || (waitForCode && server.passwordless(email, clientId) == 200)
    ensures var x := LoginSpec(server, t, clientId, email, waitForCode, code, typed);
            var otp := if code.Some? then code.value else typed;
            var before := ReuseCalls(server, t, clientId) + (if code.None? then [PasswordlessStart(email)] else []);
            && |before| < |x.calls| <= |before| + 3
            && x.calls == before + [OtpExchange(email, otp)] + [RefreshGrant, AccountIdsQuery][..|x.calls| - |before| - 1]
            && (server.oauth(email, otp, clientId).Failed? ==>
                  x.result == Err(HttpError(server.oauth(email, otp, clientId).status)) && x.tokens == AfterReuse(t))
            && (x.result.Ok? <==>
                  && server.oauth(email, otp, clientId).Answered?
                  && var tk := TakeTokens(AfterReuse(t), server.oauth(email, otp, clientId).body);
                  && tk.1.None?
                  && var rf := RefreshSpec(server, tk.0, clientId);
                  && rf.1.Ok? && FetchOk(server, rf.0.bearer))
  {
    var otp := if code.Some? then code.value else typed;
    var before := ReuseCalls(server, t, clientId) + (if code.None? then [PasswordlessStart(email)] else []);
    var e := CodeExchange(server, AfterReuse(t), clientId, email, otp);
    LoginByCode(server, t, clientId, email, waitForCode, code, typed);
    assert before + e.calls == before + [OtpExchange(email, otp)] + [RefreshGrant, AccountIdsQuery][..|e.calls| - 1];
  }

  /** What `get_portfolio_summary` returns for `accountId` with bearer `b`. */
  function PortfolioOf(server: Server, b: Option<string>, accountId: string): (r: Result<real, Error>)
    ensures r.Ok? <==> b.Some? && server.portfolio(accountId).Answered?
  {
    if b.None? then Err(NotLoggedIn)
    else match server.portfolio(accountId)
         case Failed(st) => Err(HttpError(st))
         case Answered(cash) => Ok(cash)
  }

  // ------------------------------------------------------------------
  // The session object

  class Session {
    var bearer: Option<string>
    var refresh: Option<string>
    var idToken: Option<string>
    var clientId: Option<string>
    var accountIds: seq<string>
    /** Every request this session has sent, oldest first. */
    var sent: seq<Request>

    function CurrentTokens(): Tokens
      reads this
    {
      Tokens(bearer, refresh, idToken)
    }

    /** `Fennel(...)`: the tokens come from the stored credentials when a
        file is present (`stored`), the client id keeps its default unless
        the stored record has one. */
    constructor (stored: Option<Json>)
      ensures stored.None? ==> CurrentTokens() == Tokens(None, None, None) && clientId == Some(DefaultClientId)
      ensures stored.Some? ==>
                CurrentTokens() == Tokens(Get(stored.value, "Bearer"), Get(stored.value, "Refresh"),
                                          Get(stored.value, "ID_Token"))
      ensures stored.Some? && "client_id" in stored.value ==> clientId == stored.value["client_id"]
      ensures stored.Some? && "client_id" !in stored.value ==> clientId == Some(DefaultClientId)
      ensures accountIds == [] && sent == []
      ensures CurrentTokens() == StoredTokens(stored) && clientId == StoredClientId(stored)
    {
      bearer, refresh, idToken := None, None, None;
      accountIds := [];
      sent := [];
      clientId := Some(DefaultClientId);
      if stored.Some? {
        var credentials := stored.value;
        bearer := Get(credentials, "Bearer");
        refresh := Get(credentials, "Refresh");
        idToken := Get(credentials, "ID_Token");
        clientId := if "client_id" in credentials then credentials["client_id"] else clientId;
      }
    }

    /** `_clear_credentials` (the file removal is not modelled). */
    method ClearCredentials()
      modifies this`bearer, this`refresh, this`idToken
      ensures CurrentTokens() == Tokens(None, None, None)
    {
      bearer := None;
      refresh := None;
      idToken := None;
    }

    method StoreTokens(body: Json) returns (missing: Option<string>)
      modifies this`bearer, this`refresh, this`idToken
      ensures (CurrentTokens(), missing) == TakeTokens(old(CurrentTokens()), body)
    {
      if "access_token" !in body {
        return Some("access_token");
      }
      bearer := body["access_token"];
      if "refresh_token" !in body {
        return Some("refresh_token");
      }
      refresh := body["refresh_token"];
      if "id_token" !in body {
        return Some("id_token");
      }
      idToken := body["id_token"];
      return None;
    }

    /** `refresh_token`: not guarded by the login check; sends the stored
        refresh token even when it is None. */
    method RefreshToken(server: Server) returns (r: Result<Json, Error>)
      modifies this`bearer, this`refresh, this`idToken, this`sent
      ensures sent == old(sent) + [RefreshGrant]
      ensures (CurrentTokens(), r) == RefreshSpec(server, old(CurrentTokens()), clientId)
    {
      sent := sent + [RefreshGrant];
      match server.refresh(clientId, refresh)
      case Failed(st) =>
        return Err(HttpError(st));
      case Answered(body) =>
        var missing := StoreTokens(body);
        if missing.Some? {
          return Err(MissingKey(missing.value));
        }
        return Ok(body);
    }

    /** `get_account_ids`: sort by `created`, keep APPROVED, remember the list. */
    method GetAccountIds(server: Server) returns (r: Result<seq<string>, Error>)
      modifies this`accountIds, this`sent
      ensures bearer.None? ==> r == Err(NotLoggedIn) && sent == old(sent) && accountIds == old(accountIds)
      ensures bearer.Some? ==> sent == old(sent) + [AccountIdsQuery] && r == AccountIdsOf(server.accounts(bearer.value))
      ensures r.Ok? ==> accountIds == r.value
      ensures r.Err? ==> accountIds == old(accountIds)
    {
      if bearer.None? {
        return Err(NotLoggedIn);
      }
      sent := sent + [AccountIdsQuery];
      match server.accounts(bearer.value)
      case Failed(st) =>
        return Err(HttpError(st));
      case Answered(None) =>
        return Err(AccountsMissing);
      case Answered(Some(accs)) =>
        var sorted := SortByCreated(accs);
        var ids: seq<string> := [];
        var i := 0;
        while i < |sorted|
          invariant 0 <= i <= |sorted|
          invariant ids == ApprovedIds(sorted[..i])
        {
          if sorted[i].status == "APPROVED" {
            ids := ids + [sorted[i].id];
          }
          assert sorted[..i + 1][..i] == sorted[..i];
          i := i + 1;
        }
        assert sorted[..i] == sorted;
        accountIds := ids;
        return Ok(ids);
    }

    /** `_verify_login`: never raises; on failure of both attempts the
        credentials are cleared. */
    method VerifyLogin(server: Server) returns (ok: bool)
      modifies this`bearer, this`refresh, this`idToken, this`accountIds, this`sent
      ensures ok == VerifySpec(server, old(CurrentTokens()), clientId)
      ensures !ok ==> CurrentTokens() == Tokens(None, None, None)
      ensures ok ==> bearer.Some? && CurrentTokens() == VerifiedTokens(server, old(CurrentTokens()), clientId)
      ensures sent == old(sent) + VerifyCalls(server, old(CurrentTokens()), clientId)
      ensures FetchOk(server, old(bearer)) ==>
                sent == old(sent) + [AccountIdsQuery] && CurrentTokens() == old(CurrentTokens())
    {
      ghost var t := CurrentTokens();
      ghost var fetch := if bearer.Some? then [AccountIdsQuery] else [];
      var first := GetAccountIds(server);
      if first.Ok? {
        return true;
      }
      var refreshed := RefreshToken(server);
      AppendAssoc(old(sent), fetch, [RefreshGrant]);
      ghost var refetch := if refreshed.Ok? && bearer.Some? then [AccountIdsQuery] else [];
      assert VerifyCalls(server, t, clientId) == fetch + [RefreshGrant] + refetch;
      if refreshed.Ok? {
        var second := GetAccountIds(server);
        AppendAssoc(old(sent), fetch + [RefreshGrant], refetch);
        if second.Ok? {
          return true;
        }
      }
      ClearCredentials();
      return false;
    }

    /** `login`: reuse a bearer that still verifies; otherwise the
        passwordless e-mail code flow (`typed` is what `input()` returns),
        then a refresh and an account fetch. */
    method Login(email: string, waitForCode: bool, code: Option<string>, typed: string, server: Server)
      returns (r: Result<bool, Error>)
      modifies this`bearer, this`refresh, this`idToken, this`accountIds, this`sent
      ensures var x := LoginSpec(server, old(CurrentTokens()), clientId, email, waitForCode, code, typed);
              r == x.result && CurrentTokens() == x.tokens && sent == old(sent) + x.calls
    {
      ghost var t := CurrentTokens();
      var reused := ReuseHeldTokens(server);
      if reused {
        LoginReused(server, t, clientId, email, waitForCode, code, typed);
        return Ok(true);
      }
      LoginNotReused(server, t, clientId, email, waitForCode, code, typed);
      r := LogInWithCode(email, waitForCode, code, typed, server);
      AppendAssoc(old(sent), ReuseCalls(server, t, clientId),
                  CodeFlow(server, AfterReuse(t), clientId, email, waitForCode, code, typed).calls);
    }

    /** The start of `login`: a held bearer is checked with `_verify_login`. */
    method ReuseHeldTokens(server: Server) returns (ok: bool)
      modifies this`bearer, this`refresh, this`idToken, this`accountIds, this`sent
      ensures ok == Reused(server, old(CurrentTokens()), clientId)
      ensures CurrentTokens() == if ok then VerifiedTokens(server, old(CurrentTokens()), clientId) else AfterReuse(old(CurrentTokens()))
      ensures sent == old(sent) + ReuseCalls(server, old(CurrentTokens()), clientId)
    {
      if bearer.None? {
        return false;
      }
      ok := VerifyLogin(server);
    }

    /** `login` after the held tokens, if any, failed to verify: without a
        code, start the passwordless login and await the code or ask for
        it; then exchange the code. */
    method LogInWithCode(email: string, waitForCode: bool, code: Option<string>, typed: string, server: Server)
      returns (r: Result<bool, Error>)
      modifies this`bearer, this`refresh, this`idToken, this`accountIds, this`sent
      ensures var y := CodeFlow(server, old(CurrentTokens()), clientId, email, waitForCode, code, typed);
              r == y.result && CurrentTokens() == y.tokens && sent == old(sent) + y.calls
    {
      var otp: string;
      if code.None? {
        sent := sent + [PasswordlessStart(email)];
        var status := server.passwordless(email, clientId);
        if status != 200 {
          return Err(HttpError(status));
        }
        if !waitForCode {
          return Err(TwoFactorRequired);
        }
        otp := typed;
      } else {
        otp := code.value;
      }
      r := ExchangeCode(email, otp, server);
    }

    /** The OAuth code exchange of `login` and what follows it: store the
        three tokens, refresh them, fetch the account ids. */
    method ExchangeCode(email: string, otp: string, server: Server) returns (r: Result<bool, Error>)
      modifies this`bearer, this`refresh, this`idToken, this`accountIds, this`sent
      ensures var x := CodeExchange(server, old(CurrentTokens()), clientId, email, otp);
              r == x.result && CurrentTokens() == x.tokens && sent == old(sent) + x.calls
    {
      sent := sent + [OtpExchange(email, otp)];
      match server.oauth(email, otp, clientId)
      case Failed(st) =>
        return Err(HttpError(st));
      case Answered(body) =>
        var missing := StoreTokens(body);
        if missing.Some? {
          return Err(MissingKey(missing.value));
        }
      var refreshed := RefreshToken(server);
      if refreshed.Err? {
        return Err(refreshed.error);
      }
      var ids := GetAccountIds(server);
      if ids.Err? {
        return Err(ids.error);
      }
      return Ok(true);
    }

    /** `get_portfolio_summary`, reduced to the cash that can trade. */
    method GetPortfolioSummary(accountId: string, server: Server) returns (r: Result<real, Error>)
      modifies this`sent
      ensures r == PortfolioOf(server, bearer, accountId)
      ensures bearer.None? ==> r == Err(NotLoggedIn) && sent == old(sent)
      ensures bearer.Some? ==> sent == old(sent) + [PortfolioQuery(accountId)]
      ensures bearer.Some? ==> r == match server.portfolio(accountId)
                                   case Failed(st) => Err(HttpError(st))
                                   case Answered(cash) => Ok(cash)
    {
      if bearer.None? {
        return Err(NotLoggedIn);
      }
      sent := sent + [PortfolioQuery(accountId)];
      match server.portfolio(accountId)
      case Failed(st) =>
        return Err(HttpError(st));
      case Answered(cash) =>
        return Ok(cash);
    }

    method GetStockQuote(ticker: string, server: Server) returns (r: Result<Option<Security>, Error>)
      modifies this`sent
      ensures bearer.None? ==> r == Err(NotLoggedIn) && sent == old(sent)
      ensures bearer.Some? ==> sent == old(sent) + [StockSearch(ticker)] && r == QuoteOf(server.search(ticker), ticker)
    {
      if bearer.None? {
        return Err(NotLoggedIn);
      }
      sent := sent + [StockSearch(ticker)];
      return QuoteOf(server.search(ticker), ticker);
    }

    method GetStockPrice(ticker: string, server: Server) returns (r: Result<Option<real>, Error>)
      modifies this`sent
      ensures bearer.None? ==> r == Err(NotLoggedIn) && sent == old(sent)
      ensures bearer.Some? ==> sent == old(sent) + [StockSearch(ticker)]
      ensures bearer.Some? ==> r == match QuoteOf(server.search(ticker), ticker)
                                   case Err(e) => Err(e)
                                   case Ok(q) => Ok(if q.None? then None else q.value.price)
    {
      if bearer.None? {
        return Err(NotLoggedIn);
      }
      var quote := GetStockQuote(ticker, server);
      match quote
      case Err(e) =>
        return Err(e);
      case Ok(q) =>
        return Ok(if q.None? then None else q.value.price);
    }

    method GetStockHoldings(accountId: string, server: Server) returns (r: Result<seq<Position>, Error>)
      modifies this`sent
      ensures bearer.None? ==> r == Err(NotLoggedIn) && sent == old(sent)
      ensures bearer.Some? ==> sent == old(sent) + [HoldingsQuery(accountId)]
      ensures bearer.Some? ==> r == match server.holdings(accountId)
                                   case Failed(st) => Err(HttpError(st))
                                   case Answered(ps) => Ok(ps)
    {
      if bearer.None? {
        return Err(NotLoggedIn);
      }
      sent := sent + [HoldingsQuery(accountId)];
      match server.holdings(accountId)
      case Failed(st) =>
        return Err(HttpError(st));
      case Answered(ps) =>
        return Ok(ps);
    }

    method IsMarketOpen(server: Server) returns (r: Result<bool, Error>)
      modifies this`sent
      ensures bearer.None? ==> r == Err(NotLoggedIn) && sent == old(sent)
      ensures bearer.Some? ==> sent == old(sent) + [MarketOpenQuery]
      ensures bearer.Some? ==> r == match server.marketOpen
                                   case Failed(st) => Err(HttpError(st))
                                   case Answered(open) => Ok(open)
    {
      if bearer.None? {
        return Err(NotLoggedIn);
      }
      sent := sent + [MarketOpenQuery];
      match server.marketOpen
      case Failed(st) =>
        return Err(HttpError(st));
      case Answered(open) =>
        return Ok(open);
    }

    method GetStockIsin(ticker: string, server: Server) returns (r: Result<Option<string>, Error>)
      modifies this`sent
      ensures bearer.None? ==> r == Err(NotLoggedIn) && sent == old(sent)
      ensures bearer.Some? ==> sent == old(sent) + [StockSearch(ticker)]
      ensures bearer.Some? ==> r == match QuoteOf(server.search(ticker), ticker)
                                   case Err(e) => Err(e)
                                   case Ok(q) => Ok(if q.None? then None else q.value.isin)
    {
      if bearer.None? {
        return Err(NotLoggedIn);
      }
      var quote := GetStockQuote(ticker, server);
      match quote
      case Err(e) =>
        return Err(e);
      case Ok(q) =>
        return Ok(if q.None? then None else q.value.isin);
    }

    method IsStockTradable(isin: string, accountId: string, side: string, server: Server)
      returns (r: Result<(bool, Option<string>), Error>)
      modifies this`sent
      ensures bearer.None? ==> r == Err(NotLoggedIn) && sent == old(sent)
      ensures bearer.Some? ==> sent == old(sent) + [TradableQuery(isin, accountId)]
      ensures bearer.Some? ==> r == match server.tradeable(isin, accountId)
                                   case Failed(st) => Err(HttpError(st))
                                   case Answered(t) => Ok(TradableVerdict(t, side))
    {
      if bearer.None? {
        return Err(NotLoggedIn);
      }
      sent := sent + [TradableQuery(isin, accountId)];
      match server.tradeable(isin, accountId)
      case Failed(st) =>
        return Err(HttpError(st));
      case Answered(t) =>
        return Ok(TradableVerdict(t, side));
    }

    method GetStockInfoFromHoldings(accountId: string, ticker: string, server: Server)
      returns (r: Result<Option<Position>, Error>)
      modifies this`sent
      ensures bearer.None? ==> r == Err(NotLoggedIn) && sent == old(sent)
      ensures bearer.Some? ==> sent == old(sent) + [HoldingsQuery(accountId)]
      ensures bearer.Some? ==> r == match server.holdings(accountId)
                                   case Failed(st) => Err(HttpError(st))
                                   case Answered(ps) => Ok(FirstWithTicker(ps, PositionTicker, ticker))
    {
      if bearer.None? {
        return Err(NotLoggedIn);
      }
      var holdings := GetStockHoldings(accountId, server);
      match holdings
      case Err(e) =>
        return Err(e);
      case Ok(ps) =>
        return Ok(FirstWithTicker(ps, PositionTicker, ticker));
    }

    /** `place_order`: runs the ladder through the guarded queries. */
    method PlaceOrder(accountId: string, ticker: string, quantity: int, side: string,
                      price: string, dryRun: bool, server: Server)
      returns (r: Result<OrderResult, Error>)
      modifies this`sent
      ensures bearer.None? ==> r == Err(NotLoggedIn) && sent == old(sent)
      ensures bearer.Some? ==>
                var ladder := OrderLadder(server, accountId, ticker, quantity, side, price, dryRun);
                r == ladder.outcome && sent == old(sent) + ladder.calls
    {
      if bearer.None? {
        return Err(NotLoggedIn);
      }
      ghost var ladder := OrderLadder(server, accountId, ticker, quantity, side, price, dryRun);
      ghost var stage := IsinStage(server, accountId, ticker, side);
      if Lower(side) != "buy" && Lower(side) != "sell" {
        return Err(InvalidSide);
      }
      var open := IsMarketOpen(server);
      if open.Err? {
        return Err(open.error);
      }
      if !open.value {
        return Err(MarketClosed);
      }
      var isin := FindIsin(accountId, ticker, side, server);
      ghost var head := [MarketOpenQuery] + stage.0;
      AppendAssoc(old(sent), [MarketOpenQuery], stage.0);
      if isin.Err? {
        return Err(isin.error);
      }
      if isin.value.None? {
        return Err(IsinNotFound);
      }
      ghost var tail := TradeStage(server, accountId, ticker, quantity, isin.value.value, side, price, dryRun);
      assert ladder == Ladder(head + tail.calls, tail.outcome);
      r := Trade(accountId, ticker, quantity, isin.value.value, side, price, dryRun, server);
      AppendAssoc(old(sent), head, tail.calls);
    }

    /** The end of `place_order` once the ISIN is known: the tradability
        check, then the dry-run record or the order request. */
    method Trade(accountId: string, ticker: string, quantity: int, isin: string,
                 side: string, price: string, dryRun: bool, server: Server)
      returns (r: Result<OrderResult, Error>)
      modifies this`sent
      requires bearer.Some?
      ensures var tail := TradeStage(server, accountId, ticker, quantity, isin, side, price, dryRun);
              sent == old(sent) + tail.calls && r == tail.outcome
    {
      var verdict := IsStockTradable(isin, accountId, side, server);
      if verdict.Err? {
        return Err(verdict.error);
      }
      if !verdict.value.0 {
        return Err(NotTradable(verdict.value.1));
      }
      var ticket := Ticket(accountId, ticker, quantity, isin, side, price);
      if dryRun {
        return Ok(DryRunRecord(ticket));
      }
      sent := sent + [OrderQuery(ticket)];
      match server.order(ticket)
      case Failed(st) =>
        return Err(HttpError(st));
      case Answered(created) =>
        return Ok(Submitted(created));
    }

    /** The ISIN lookup inside `place_order`: the quote's ISIN, or for a sell
        the ISIN of the matching holding when the quote has none. */
    method FindIsin(accountId: string, ticker: string, side: string, server: Server)
      returns (r: Result<Option<string>, Error>)
      modifies this`sent
      requires bearer.Some?
      ensures var stage := IsinStage(server, accountId, ticker, side);
              sent == old(sent) + stage.0 && r == stage.1
    {
      var found := GetStockIsin(ticker, server);
      if found.Err? {
        return Err(found.error);
      }
      var isin := found.value;
      if isin.None? && Lower(side) == "sell" {
        var info := GetStockInfoFromHoldings(accountId, ticker, server);
        if info.Err? {
          return Err(info.error);
        }
        if info.value.Some? {
          isin := info.value.value.isin;
        }
      }
      return Ok(isin);
    }
  }

  /** `fennel_transaction`'s message for a returned order. */
  function OrderMessage(result: OrderResult, dry: bool): string {
    if dry then
      if result.DryRunRecord? then "Dry Run Success" else "Dry Run Failed"
    else
      var created := if result.Submitted? then result.createOrder else None;
      if created == Some("pending") then "Success"
      else if created.Some? then created.value else "None"
  }

  /** A dry order that passes the ladder always reports "Dry Run Success"
      ("Dry Run Failed" cannot happen); a live one reports "Success" when the
      order came back "pending" and otherwise the returned value itself. */
  lemma OrderMessageRule(server: Server, accountId: string, ticker: string, quantity: int,
                         side: string, price: string, dry: bool)
    requires OrderLadder(server, accountId, ticker, quantity, side, price, dry).outcome.Ok?
    ensures var res := OrderLadder(server, accountId, ticker, quantity, side, price, dry).outcome.value;
            && (dry ==> OrderMessage(res, dry) == "Dry Run Success")
            && (!dry && res.createOrder == Some("pending") ==> OrderMessage(res, dry) == "Success")
            && (!dry && res.createOrder.Some? && res.createOrder != Some("pending") ==>
                  OrderMessage(res, dry) == res.createOrder.value)
            && (!dry && res.createOrder.None? ==> OrderMessage(res, dry) == "None")
  {
  }
}
