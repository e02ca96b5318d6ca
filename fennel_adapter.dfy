/** The Fennel adapter: log every configured e-mail in, register its
    approved accounts as "Account 1", "Account 2", ... with their tradable
    cash, report holdings, and place an order in every account. */
module FennelAdapter {
  import opened Wrappers
  import opened Text
  import opened Aggregate
  import opened Fennel

  /** The display name of the k-th configured login (0-based). */
  function IdentityName(k: nat): string {
    "Fennel " + NatToString(k + 1)
  }

  /** The name of the j-th approved account of a login (0-based). */
  function AccountName(j: nat): string {
    "Account " + NatToString(j + 1)
  }

  lemma IdentityNamesDistinct(m: nat, n: nat)
    requires m != n
    ensures IdentityName(m) != IdentityName(n)
  {
    NatToStringInjective(m + 1, n + 1);
    assert IdentityName(m)[7..] == NatToString(m + 1);
    assert IdentityName(n)[7..] == NatToString(n + 1);
  }

  lemma AccountNamesDistinct(m: nat, n: nat)
    requires m != n
    ensures AccountName(m) != AccountName(n)
  {
    NatToStringInjective(m + 1, n + 1);
    assert AccountName(m)[8..] == NatToString(m + 1);
    assert AccountName(n)[8..] == NatToString(n + 1);
  }

  ghost predicate IsIdentityName(id: string, n: nat) {
    exists k :: 0 <= k < n && id == IdentityName(k)
  }

  /** What a successful login leaves behind for `id`: the session under the
      slot "fb" and, for each account "Account j", a total and the remote
      account id. */
  predicate RegisteredIn(accounts: map<string, seq<string>>, handles: map<Target, Handle>,
                         totals: map<Target, real>, id: string)
  {
    && id in accounts
    && (id, "fb") in handles && handles[(id, "fb")] == SessionHandle(id)
    && forall j :: 0 <= j < |accounts[id]| ==>
         && accounts[id][j] == AccountName(j)
         && (id, AccountName(j)) in totals
         && (id, AccountName(j)) in handles && handles[(id, AccountName(j))].AccountHandle?
  }

  ghost predicate Registered(b: Brokerage, id: string)
    reads b
  {
    RegisteredIn(b.accounts, b.handles, b.totals, id)
  }

  /** "Account 1" .. "Account n". */
  function AccountNames(n: nat): (r: seq<string>)
    ensures |r| == n && forall j :: 0 <= j < n ==> r[j] == AccountName(j)
  {
    if n == 0 then [] else AccountNames(n - 1) + [AccountName(n - 1)]
  }

  /** How many of the first portfolio fetches succeed before one fails. */
  function Leading(server: Server, bearer: Option<string>, ids: seq<string>): (r: nat)
    ensures r <= |ids|
    ensures forall j :: 0 <= j < r ==> PortfolioOf(server, bearer, ids[j]).Ok?
    ensures r < |ids| ==> PortfolioOf(server, bearer, ids[r]).Err?
  {
    if ids == [] || PortfolioOf(server, bearer, ids[0]).Err? then 0
    else 1 + Leading(server, bearer, ids[1..])
  }

  /** The account ids a login of `fennel_init` ends with, with the bearer
      the session then holds: the stored tokens are loaded, `login` runs
      (awaiting the code only from the console), a "2FA" refusal is retried
      with the chat bot's code when the bot and its loop are present, and
      the ids are fetched.  None when any of these fails. */
  function EmailLogin(stored: Option<Json>, server: Server, email: string, hasBot: bool, hasLoop: bool,
                      typed: string, discordCode: Option<string>): (r: Option<(Option<string>, seq<string>)>)
    ensures r.Some? ==> r.value.0.Some? && AccountIdsOf(server.accounts(r.value.0.value)) == Ok(r.value.1)
  {
    var clientId := StoredClientId(stored);
    var first := LoginSpec(server, StoredTokens(stored), clientId, email, !hasBot && !hasLoop, None, typed);
    var retry := first.result == Err(TwoFactorRequired) && hasBot && hasLoop;
    if retry && discordCode.None? then None
    else
      var login := if retry then LoginSpec(server, first.tokens, clientId, email, false, discordCode, "") else first;
      if login.result.Err? then None
      else
        match AccountIdsOf(server.accounts(login.tokens.bearer.value))
        case Err(_) => None
        case Ok(ids) => Some((login.tokens.bearer, ids))
  }

  /** The parts of the aggregate that `fennel_init` fills. */
  datatype Book = Book(identities: seq<string>, accounts: map<string, seq<string>>,
                       handles: map<Target, Handle>, totals: map<Target, real>)

  function BookOf(b: Brokerage): Book
    reads b
  {
    Book(b.identities, b.accounts, b.handles, b.totals)
  }

  /** Nothing filed under another identity than `name` changed. */
  ghost predicate Elsewhere(before: Book, after: Book, name: string) {
    && (forall id :: id != name ==> (id in after.accounts <==> id in before.accounts))
    && (forall id :: id != name && id in after.accounts ==> after.accounts[id] == before.accounts[id])
    && (forall t: Target :: t.0 != name ==> (t in after.handles <==> t in before.handles))
    && (forall t: Target :: t.0 != name && t in after.handles ==> after.handles[t] == before.handles[t])
    && (forall t: Target :: t.0 != name ==> (t in after.totals <==> t in before.totals))
    && (forall t: Target :: t.0 != name && t in after.totals ==> after.totals[t] == before.totals[t])
  }

  /** `name`'s session is filed under "fb" and its first n account ids as
      "Account 1" .. "Account n", each with its remote id and the cash its
      portfolio fetch returned. */
  ghost predicate EnrolledUpTo(bk: Book, name: string, bearer: Option<string>, ids: seq<string>,
                               server: Server, n: nat)
    requires n <= |ids|
  {
    && (name, "fb") in bk.handles && bk.handles[(name, "fb")] == SessionHandle(name)
    && (if n == 0 then name !in bk.accounts else name in bk.accounts && bk.accounts[name] == AccountNames(n))
    && forall j :: 0 <= j < n ==>
         && PortfolioOf(server, bearer, ids[j]).Ok?
         && (name, AccountName(j)) in bk.handles && bk.handles[(name, AccountName(j))] == AccountHandle(ids[j])
         && (name, AccountName(j)) in bk.totals && bk.totals[(name, AccountName(j))] == PortfolioOf(server, bearer, ids[j]).value
  }

  /** `name` is enrolled with every account whose fetch came before the
      first failure. */
  ghost predicate Enrolled(bk: Book, name: string, bearer: Option<string>, ids: seq<string>, server: Server) {
    EnrolledUpTo(bk, name, bearer, ids, server, Leading(server, bearer, ids))
  }

  /** Changes filed under `name` leave another identity's enrolment alone. */
  lemma EnrolledElsewhere(before: Book, after: Book, name: string, other: string, bearer: Option<string>,
                          ids: seq<string>, server: Server)
    requires Enrolled(before, other, bearer, ids, server) && Elsewhere(before, after, name) && other != name
    ensures Enrolled(after, other, bearer, ids, server)
  {
    var n := Leading(server, bearer, ids);
    forall j | 0 <= j < n
      ensures (other, AccountName(j)) in after.handles && after.handles[(other, AccountName(j))] == AccountHandle(ids[j])
      ensures (other, AccountName(j)) in after.totals && after.totals[(other, AccountName(j))] == PortfolioOf(server, bearer, ids[j]).value
    {
      var t: Target := (other, AccountName(j));
      assert t in before.handles && t in before.totals;
    }
    var fb: Target := (other, "fb");
    assert fb in before.handles;
  }

  lemma ElsewhereTrans(b0: Book, b1: Book, b2: Book, name: string)
    requires Elsewhere(b0, b1, name) && Elsewhere(b1, b2, name)
    ensures Elsewhere(b0, b2, name)
  {
  }

  /** One more account of `name`: "Account n+1" with its id and cash. */
  lemma EnrolOne(bk: Book, name: string, bearer: Option<string>, ids: seq<string>, server: Server, n: nat)
    requires n < |ids| && EnrolledUpTo(bk, name, bearer, ids, server, n) && PortfolioOf(server, bearer, ids[n]).Ok?
    ensures var t: Target := (name, AccountName(n));
            var after := Book(bk.identities, bk.accounts[name := AccountsOf(bk.accounts, name) + [AccountName(n)]],
                              bk.handles[t := AccountHandle(ids[n])],
                              bk.totals[t := PortfolioOf(server, bearer, ids[n]).value]);
            EnrolledUpTo(after, name, bearer, ids, server, n + 1) && Elsewhere(bk, after, name)
  {
    var t: Target := (name, AccountName(n));
    assert AccountsOf(bk.accounts, name) + [AccountName(n)] == AccountNames(n + 1);
    assert AccountName(n) != "fb" by {
      assert AccountName(n)[0] == 'A';
    }
    forall j | 0 <= j < n ensures AccountName(j) != AccountName(n) {
      AccountNamesDistinct(j, n);
    }
  }

  /** `fennel_init`.  `stored(k)` is the credentials file of the k-th login,
      `servers(k)` answers its requests, `typed(k)` is what the console
      returns when the code is awaited there, and `discordCode(k)` is the
      code read from the chat bot (None after its timeout).  Running from
      the console (`!hasBot && !hasLoop`) awaits the code; otherwise a
      required code is fetched from the bot when both the bot and its loop
      are present. */
  method FennelInit(external: Option<string>, env: Option<string>, hasBot: bool, hasLoop: bool,
                    stored: nat -> Option<Json>, servers: nat -> Server,
                    typed: nat -> string, discordCode: nat -> Option<string>)
    returns (r: Option<Brokerage>)
    ensures r.None? <==> !Configured(external, env)
    ensures r.Some? ==> fresh(r.value) && r.value.Valid() && r.value.name == "Fennel"
    ensures r.Some? ==> forall id :: id in r.value.identities ==> IsIdentityName(id, |CredentialEntries(external, env)|)
    ensures r.Some? ==> forall id :: id in r.value.identities ==> Registered(r.value, id)
    ensures r.Some? ==>
              var emails := CredentialEntries(external, env);
              forall k :: 0 <= k < |emails| ==> LoginFiled(BookOf(r.value), k, emails[k], hasBot, hasLoop,
                                                            stored(k), servers(k), typed(k), discordCode(k))
  {
    if !Configured(external, env) {
      return None;
    }
    var emails := CredentialEntries(external, env);
    ghost var outcomes := seq(|emails|, i requires 0 <= i < |emails| =>
      EmailLogin(stored(i), servers(i), emails[i], hasBot, hasLoop, typed(i), discordCode(i)));
    var b := new Brokerage("Fennel");
    for k := 0 to |emails|
      invariant fresh(b) && b.Valid() && b.name == "Fennel"
      invariant forall id :: id in b.identities ==> IsIdentityName(id, k)
      invariant forall id :: id in b.identities ==> Registered(b, id)
      invariant forall i :: 0 <= i < k ==> Filed(BookOf(b), i, outcomes[i], servers(i))
    {
      FileEmail(b, emails, k, hasBot, hasLoop, stored, servers, typed, discordCode, outcomes);
    }
    return Some(b);
  }

  /** One turn of `fennel_init`'s loop: the k-th email under "Fennel k+1". */
  method FileEmail(b: Brokerage, emails: seq<string>, k: nat, hasBot: bool, hasLoop: bool,
                   stored: nat -> Option<Json>, servers: nat -> Server,
                   typed: nat -> string, discordCode: nat -> Option<string>,
                   ghost outcomes: seq<Option<(Option<string>, seq<string>)>>)
    requires k < |emails| == |outcomes| && b.Valid()
    requires outcomes[k] == EmailLogin(stored(k), servers(k), emails[k], hasBot, hasLoop, typed(k), discordCode(k))
    requires forall id :: id in b.identities ==> IsIdentityName(id, k)
    requires forall id :: id in b.identities ==> Registered(b, id)
    requires forall i :: 0 <= i < k ==> Filed(BookOf(b), i, outcomes[i], servers(i))
    modifies b`identities, b`accounts, b`totals, b`handles
    ensures b.Valid()
    ensures forall id :: id in b.identities ==> IsIdentityName(id, k + 1)
    ensures forall id :: id in b.identities ==> Registered(b, id)
    ensures forall i :: 0 <= i < k + 1 ==> Filed(BookOf(b), i, outcomes[i], servers(i))
  {
    var name := IdentityName(k);
    assert name !in b.identities by {
      forall id | id in b.identities ensures id != name {
        var i :| 0 <= i < k && id == IdentityName(i);
        IdentityNamesDistinct(i, k);
      }
    }
    ghost var before := BookOf(b);
    LogInEmail(b, name, emails[k], hasBot, hasLoop, stored(k), servers(k), typed(k), discordCode(k));
    forall i | 0 <= i < k
      ensures Filed(BookOf(b), i, outcomes[i], servers(i))
    {
      IdentityNamesDistinct(i, k);
      FiledElsewhere(before, BookOf(b), name, i, outcomes[i], servers(i));
    }
    forall id | id in b.identities ensures IsIdentityName(id, k + 1) {
      if id != name {
        assert id in before.identities;
      }
    }
  }

  /** What `fennel_init` leaves for its k-th login: nothing when the login
      or the id fetch failed, otherwise the enrolment of its accounts. */
  ghost predicate LoginFiled(bk: Book, k: nat, email: string, hasBot: bool, hasLoop: bool,
                             stored: Option<Json>, server: Server, typed: string, discordCode: Option<string>)
  {
    Filed(bk, k, EmailLogin(stored, server, email, hasBot, hasLoop, typed, discordCode), server)
  }

  /** What is filed for the k-th login given the bearer and ids it ended
      with, if any. */
  ghost predicate Filed(bk: Book, k: nat, o: Option<(Option<string>, seq<string>)>, server: Server) {
    && (o.None? ==> IdentityName(k) !in bk.identities)
    && (o.Some? ==> Enrolled(bk, IdentityName(k), o.value.0, o.value.1, server))
  }

  lemma FiledElsewhere(before: Book, after: Book, name: string, k: nat, o: Option<(Option<string>, seq<string>)>,
                       server: Server)
    requires Filed(before, k, o, server)
    requires Elsewhere(before, after, name) && IdentityName(k) != name
    requires after.identities == before.identities || after.identities == before.identities + [name]
    ensures Filed(after, k, o, server)
  {
    if o.Some? {
      EnrolledElsewhere(before, after, name, IdentityName(k), o.value.0, o.value.1, server);
    }
  }

  /** The body of `fennel_init`'s loop for one email: a new session logs
      in (a second time with the bot's code when the first attempt asks for
      one and the bot is running), lists its accounts and registers them
      under `name`.  Any failure skips the email and leaves the aggregate
      as it was. */
  method LogInEmail(b: Brokerage, name: string, email: string, hasBot: bool, hasLoop: bool,
                    stored: Option<Json>, server: Server, typed: string, discordCode: Option<string>)
    requires b.Valid() && name !in b.identities
    requires forall id :: id in b.identities ==> Registered(b, id)
    modifies b`identities, b`accounts, b`totals, b`handles
    ensures b.Valid()
    ensures b.identities == old(b.identities) || b.identities == old(b.identities) + [name]
    ensures forall id :: id in b.identities ==> Registered(b, id)
    ensures Elsewhere(old(BookOf(b)), BookOf(b), name)
    ensures var o := EmailLogin(stored, server, email, hasBot, hasLoop, typed, discordCode);
            && (o.None? ==> BookOf(b) == old(BookOf(b)))
            && (o.Some? ==> Enrolled(BookOf(b), name, o.value.0, o.value.1, server))
  {
    var fb, ids := SignIn(email, hasBot, hasLoop, stored, server, typed, discordCode);
    if ids.Some? {
      RegisterAccounts(b, name, fb, ids.value, server);
    }
  }

  /** The login half of `fennel_init`'s loop body: a new session logs in,
      retries with the bot's code on a "2FA" refusal when the bot and its
      loop run, and lists its account ids. */
  method SignIn(email: string, hasBot: bool, hasLoop: bool, stored: Option<Json>, server: Server,
                     typed: string, discordCode: Option<string>)
    returns (fb: Session, ids: Option<seq<string>>)
    ensures fresh(fb)
    ensures ids.None? <==> EmailLogin(stored, server, email, hasBot, hasLoop, typed, discordCode).None?
    ensures ids.Some? ==> EmailLogin(stored, server, email, hasBot, hasLoop, typed, discordCode) == Some((fb.bearer, ids.value))
  {
    fb := new Session(stored);
    var login := fb.Login(email, !hasBot && !hasLoop, None, typed, server);
    if login.Err? && login.error == TwoFactorRequired && hasBot && hasLoop {
      if discordCode.None? {
        return fb, None;
      }
      login := fb.Login(email, false, discordCode, "", server);
    }
    if login.Err? {
      return fb, None;
    }
    var fetched := fb.GetAccountIds(server);
    if fetched.Err? {
      return fb, None;
    }
    return fb, Some(fetched.value);
  }

  /** The part of `fennel_init` after a successful login: store the session
      under "fb", then for each approved account id fetch its cash and
      register it as "Account j"; a failed fetch abandons the remaining
      accounts of this login. */
  method RegisterAccounts(b: Brokerage, name: string, fb: Session, ids: seq<string>, server: Server)
    requires b.Valid() && name !in b.identities
    requires forall id :: id in b.identities ==> Registered(b, id)
    modifies b`identities, b`accounts, b`totals, b`handles, fb`sent
    ensures b.Valid()
    ensures b.identities == if Leading(server, fb.bearer, ids) == 0 then old(b.identities) else old(b.identities) + [name]
    ensures forall id :: id in b.identities ==> Registered(b, id)
    ensures Enrolled(BookOf(b), name, fb.bearer, ids, server)
    ensures Elsewhere(old(BookOf(b)), BookOf(b), name)
  {
    ghost var start := BookOf(b);
    b.SetLoggedInObject(name, SessionHandle(name), "fb");
    EnrolAccounts(b, name, fb, ids, server, start);
    RegisteredAfter(start, BookOf(b), name, fb.bearer, ids, server);
  }

  /** The account loop of `fennel_init`: register accounts in order until
      a portfolio fetch fails. */
  method EnrolAccounts(b: Brokerage, name: string, fb: Session, ids: seq<string>, server: Server, ghost start: Book)
    requires b.Valid() && Progress(start, BookOf(b), name, fb.bearer, ids, server, 0)
    modifies b`identities, b`accounts, b`totals, b`handles, fb`sent
    ensures b.Valid() && Progress(start, BookOf(b), name, fb.bearer, ids, server, Leading(server, fb.bearer, ids))
  {
    var j := 0;
    var failed := false;
    while j < |ids| && !failed
      decreases |ids| - j, if failed then 0 else 1
      invariant j <= |ids| && b.Valid() && Progress(start, BookOf(b), name, fb.bearer, ids, server, j)
      invariant failed ==> j < |ids| && PortfolioOf(server, fb.bearer, ids[j]).Err?
    {
      var ok := EnrolNext(b, name, fb, ids, server, j, start);
      if ok {
        j := j + 1;
      } else {
        failed := true;
      }
    }
    LeadingAt(server, fb.bearer, ids, j);
  }

  /** The account loop has registered the first j accounts of `name`. */
  ghost predicate Progress(start: Book, bk: Book, name: string, bearer: Option<string>, ids: seq<string>,
                           server: Server, j: nat)
    requires j <= |ids|
  {
    && bk.identities == (if j == 0 then start.identities else start.identities + [name])
    && EnrolledUpTo(bk, name, bearer, ids, server, j)
    && Elsewhere(start, bk, name)
  }

  /** After the account loop every login is registered. */
  lemma RegisteredAfter(start: Book, after: Book, name: string, bearer: Option<string>, ids: seq<string>, server: Server)
    requires forall id :: id in start.identities ==> RegisteredIn(start.accounts, start.handles, start.totals, id)
    requires Progress(start, after, name, bearer, ids, server, Leading(server, bearer, ids))
    requires forall id :: id in after.identities <==> id in after.accounts
    ensures forall id :: id in after.identities ==> RegisteredIn(after.accounts, after.handles, after.totals, id)
  {
    forall id | id in after.identities ensures RegisteredIn(after.accounts, after.handles, after.totals, id) {
      if id == name {
        EnrolledRegistered(after, name, bearer, ids, server, Leading(server, bearer, ids));
      } else {
        assert id in start.identities;
        RegisteredElsewhere(start, after, name, id);
      }
    }
  }

  /** One turn of the account loop: fetch the cash of account j and, when
      the fetch succeeds, register the account. */
  method EnrolNext(b: Brokerage, name: string, fb: Session, ids: seq<string>, server: Server, j: nat,
                   ghost start: Book)
    returns (ok: bool)
    requires j < |ids| && b.Valid() && Progress(start, BookOf(b), name, fb.bearer, ids, server, j)
    modifies b`identities, b`accounts, b`totals, b`handles, fb`sent
    ensures ok == PortfolioOf(server, fb.bearer, ids[j]).Ok?
    ensures !ok ==> BookOf(b) == old(BookOf(b))
    ensures ok ==> b.Valid() && Progress(start, BookOf(b), name, fb.bearer, ids, server, j + 1)
  {
    var summary := fb.GetPortfolioSummary(ids[j], server);
    if summary.Err? {
      return false;
    }
    ghost var before := BookOf(b);
    RegisterAccount(b, name, j, ids[j], summary.value);
    EnrolOne(before, name, fb.bearer, ids, server, j);
    ElsewhereTrans(start, before, BookOf(b), name);
    return true;
  }

  /** Registers account j of `name`: its number, its cash, its remote id. */
  method RegisterAccount(b: Brokerage, name: string, j: nat, id: string, cash: real)
    requires b.Valid()
    modifies b`identities, b`accounts, b`totals, b`handles
    ensures b.Valid()
    ensures BookOf(b) == Book(if name in old(b.identities) then old(b.identities) else old(b.identities) + [name],
                              old(b.accounts)[name := AccountsOf(old(b.accounts), name) + [AccountName(j)]],
                              old(b.handles)[(name, AccountName(j)) := AccountHandle(id)],
                              old(b.totals)[(name, AccountName(j)) := cash])
  {
    ghost var accounts := b.accounts;
    b.SetAccountNumber(name, AccountName(j));
    b.SetAccountTotals(name, AccountName(j), cash);
    b.SetLoggedInObject(name, AccountHandle(id), AccountName(j));
    assert b.accounts == accounts[name := AccountsOf(accounts, name) + [AccountName(j)]];
  }

  /** An enrolment with at least one account is a full registration. */
  lemma EnrolledRegistered(bk: Book, name: string, bearer: Option<string>, ids: seq<string>, server: Server, n: nat)
    requires n <= |ids| && EnrolledUpTo(bk, name, bearer, ids, server, n) && name in bk.accounts
    ensures RegisteredIn(bk.accounts, bk.handles, bk.totals, name)
  {
  }

  /** Changes filed under `name` leave another identity's registration alone. */
  lemma RegisteredElsewhere(before: Book, after: Book, name: string, id: string)
    requires RegisteredIn(before.accounts, before.handles, before.totals, id)
    requires Elsewhere(before, after, name) && id != name
    ensures RegisteredIn(after.accounts, after.handles, after.totals, id)
  {
    forall j | 0 <= j < |after.accounts[id]|
      ensures (id, AccountName(j)) in after.totals
      ensures (id, AccountName(j)) in after.handles && after.handles[(id, AccountName(j))].AccountHandle?
    {
      var t: Target := (id, AccountName(j));
      assert t in before.handles && t in before.totals;
    }
    var fb: Target := (id, "fb");
    assert fb in before.handles;
  }

  /** The loop stops after n fetches: all of them succeeded, and the next
      one failed or there is none. */
  lemma LeadingAt(server: Server, bearer: Option<string>, ids: seq<string>, n: nat)
    requires n <= |ids| && forall j :: 0 <= j < n ==> PortfolioOf(server, bearer, ids[j]).Ok?
    requires n == |ids| || PortfolioOf(server, bearer, ids[n]).Err?
    ensures Leading(server, bearer, ids) == n
  {
  }

  // ------------------------------------------------------------------
  // Holdings

  function PriceOf(p: Option<real>): Price {
    if p.Some? then Quote(p.value) else NotAvailable
  }

  function PositionRow(p: Position): Holding {
    Holding(p.ticker, p.ownedShares, PriceOf(p.price))
  }

  /** The rows `fennel_holdings` records for one account: every position
      with a non-zero quantity, in order; a missing price becomes "N/A". */
  function FennelRows(ps: seq<Position>): (r: seq<Holding>)
    ensures forall h :: h in r ==> h.quantity != 0.0
    ensures forall h :: h in r <==> exists p :: p in ps && p.ownedShares != 0.0 && h == PositionRow(p)
  {
    if ps == [] then []
    else
      var init := ps[..|ps| - 1];
      var p := ps[|ps| - 1];
      assert ps == init + [p];
      FennelRows(init) + (if p.ownedShares == 0.0 then [] else [PositionRow(p)])
  }

  /** The rows for one account; a failed holdings request records nothing. */
  function FennelRowsAt(positions: Target -> Option<seq<Position>>, t: Target): seq<Holding> {
    match positions(t)
    case None => []
    case Some(ps) => FennelRows(ps)
  }

  /** `fennel_holdings`; `positions(t)` is the reply of the holdings
      request for account `t` (None when it failed). */
  method FennelHoldings(b: Brokerage, positions: Target -> Option<seq<Position>>)
    modifies b`holdings
    ensures b.holdings == Recorded(old(b.holdings), Targets(b.identities, b.accounts), positions, FennelRowsAt)
  {
    RecordHoldings(b, positions, FennelRowsAt);
  }

  /** After `fennel_holdings`, no account of the aggregate lists a zero
      quantity that was not already there. */
  lemma {:induction false} FennelHoldingsNonZero(h: map<Target, seq<Holding>>, targets: seq<Target>,
                                                 positions: Target -> Option<seq<Position>>, t: Target, x: Holding)
    requires t in Recorded(h, targets, positions, FennelRowsAt)
    requires x in Recorded(h, targets, positions, FennelRowsAt)[t]
    requires t in h ==> x !in h[t]
    ensures x.quantity != 0.0
  {
    if targets != [] {
      var init := targets[..|targets| - 1];
      var u := targets[|targets| - 1];
      var mid := Recorded(h, init, positions, FennelRowsAt);
      var rows := FennelRowsAt(positions, u);
      if rows != [] && t == u {
        var prior := if u in mid then mid[u] else [];
        assert x in prior + rows;
        if x in prior {
          FennelHoldingsNonZero(h, init, positions, t, x);
        }
      } else {
        FennelHoldingsNonZero(h, init, positions, t, x);
      }
    }
  }

  // ------------------------------------------------------------------
  // Orders

  /** What `fennel_transaction` reads: each login's server, the aggregate's
      handles, and the order. */
  datatype Desk = Desk(servers: string -> Server, handles: map<Target, Handle>, order: Order)

  datatype Report = Report(identity: string, account: string, stock: string, outcome: Result<string, Error>)

  /** The remote id registered for account `t`. */
  function AccountIdOf(handles: map<Target, Handle>, t: Target): string {
    if t in handles && handles[t].AccountHandle? then handles[t].id else ""
  }

  /** One order in one account: the ladder of `place_order` (a market
      order), then the message the adapter reports. */
  function FennelStep(d: Desk, s: string, t: Target): Report {
    var ladder := OrderLadder(d.servers(t.0), AccountIdOf(d.handles, t), s, d.order.amount,
                              d.order.action, "market", d.order.dry);
    Report(t.0, t.1, s, match ladder.outcome
                        case Err(e) => Err(e)
                        case Ok(res) => Ok(OrderMessage(res, d.order.dry)))
  }

  /** Every account visited has its remote id registered (the lookup sits
      outside the adapter's error handling, so a missing one would end the
      whole run). */
  ghost predicate HandlesComplete(b: Brokerage)
    reads b
  {
    forall t :: t in Targets(b.identities, b.accounts) ==> t in b.handles && b.handles[t].AccountHandle?
  }

  /** `fennel_transaction`: one report per stock and account. */
  method FennelTransaction(b: Brokerage, servers: string -> Server, order: Order)
    returns (reports: seq<Report>)
    requires HandlesComplete(b)
    ensures reports == Sweep(Desk(servers, b.handles, order), order.stocks,
                             Targets(b.identities, b.accounts), FennelStep)
  {
    reports := FanOut(b, Desk(servers, b.handles, order), order.stocks, FennelStep);
  }

  /** In a dry run every report is either a ladder error or "Dry Run
      Success" (and, by `LadderCalls`, no order request is sent for it). */
  lemma DryRunReports(d: Desk, stocks: seq<string>, targets: seq<Target>, rep: Report)
    requires d.order.dry
    requires rep in Sweep(d, stocks, targets, FennelStep)
    ensures rep.outcome.Ok? ==> rep.outcome.value == "Dry Run Success"
    ensures rep.stock in stocks
  {
    SweepMember(d, stocks, targets, FennelStep, rep);
    var i, j :| 0 <= i < |stocks| && 0 <= j < |targets| && rep == FennelStep(d, stocks[i], targets[j]);
    var t := targets[j];
    if rep.outcome.Ok? {
      OrderMessageRule(d.servers(t.0), AccountIdOf(d.handles, t), stocks[i], d.order.amount,
                       d.order.action, "market", true);
    }
  }
}
