/** The Schwab adapter: all-or-nothing login of every credential, the
    holdings walk that derives a price from market value and quantity, and
    `schwab_transaction` with its account restriction, its `trade_v2` call
    followed by a `trade` retry, and the notices it posts.  The SDK's login,
    account-information and trade calls are oracles. */
module Schwab {
  import opened Wrappers
  import opened Text
  import opened Aggregate
  import Robinhood

  // ------------------------------------------------------------------
  // Login

  datatype SchwabCredential = SchwabCredential(username: string, password: string, totp: Option<string>)

  /** The TOTP secret: the third field, except the exact text "NA".  Unlike
      the Robinhood adapter, no other spelling and not even the empty field
      means "no secret". */
  function SchwabTotp(parts: seq<string>): (r: Option<string>)
    requires |parts| >= 3
    ensures r.None? <==> parts[2] == "NA"
    ensures r.Some? ==> r.value == parts[2]
  {
    if parts[2] == "NA" then None else Some(parts[2])
  }

  /** "user:password:totp"; a third field is required (indexing it fails
      otherwise). */
  function ParseSchwab(entry: string): (r: Option<SchwabCredential>)
    ensures r.Some? <==> |Split(entry, ':')| >= 3
    ensures r.Some? ==> r.value.username == Split(entry, ':')[0] && r.value.password == Split(entry, ':')[1]
    ensures r.Some? ==> (r.value.totp.None? <==> Split(entry, ':')[2] == "NA")
  {
    var parts := Split(entry, ':');
    if |parts| < 3 then None else Some(SchwabCredential(parts[0], parts[1], SchwabTotp(parts)))
  }

  /** The two adapters read the same third field differently.  Whatever
      Schwab takes for "no secret" ("NA") is no secret for Robinhood too, and
      a secret both take is the same text; Robinhood alone drops the empty
      field and every other spelling of "na", "none" and "false".  The
      field "na" shows the difference. */
  lemma TotpConventionsDiffer(parts: seq<string>)
    requires |parts| >= 3
    ensures SchwabTotp(parts).None? ==> Robinhood.TotpSecret(parts).None?
    ensures Robinhood.TotpSecret(parts).Some? ==> SchwabTotp(parts) == Robinhood.TotpSecret(parts)
    ensures Robinhood.TotpSecret(parts).None? && SchwabTotp(parts).Some? <==>
              parts[2] == "" || (parts[2] != "NA" && Lower(parts[2]) in {"na", "none", "false"})
    ensures Robinhood.TotpSecret(["u", "p", "na"]) == None && SchwabTotp(["u", "p", "na"]) == Some("na")
  {
    assert Lower("NA") == "na";
    assert Lower("na") == "na";
  }

  /** One entry of `get_account_info_v2()`: an account number and its value. */
  datatype AccountInfo = AccountInfo(number: string, value: real)

  function SchwabName(entries: seq<string>, k: nat): string
    requires k < |entries|
  {
    FirstOccurrenceName("Schwab", entries, k)
  }

  /** Entry k parses and its login yields account information
      (`info(k, c)` is None when the login or the information call raises). */
  predicate LogsIn(entries: seq<string>, info: (nat, SchwabCredential) -> Option<seq<AccountInfo>>, k: nat)
    requires k < |entries|
  {
    ParseSchwab(entries[k]).Some? && info(k, ParseSchwab(entries[k]).value).Some?
  }

  function ItemsOf(entries: seq<string>, info: (nat, SchwabCredential) -> Option<seq<AccountInfo>>, k: nat): seq<AccountInfo>
    requires k < |entries| && LogsIn(entries, info, k)
  {
    info(k, ParseSchwab(entries[k]).value).value
  }

  /** Every identity is the name of one of the first `bound` entries and
      holds a session handle. */
  ghost predicate Named(entries: seq<string>, bound: nat, identities: seq<string>, handles: map<Target, Handle>) {
    forall id :: id in identities ==>
      (id, DefaultSlot) in handles && exists j :: 0 <= j < bound && j < |entries| && id == SchwabName(entries, j)
  }

  /** Every account reported for the first `bound` entries is registered
      under the entry's name, with a total. */
  ghost predicate Complete(entries: seq<string>, info: (nat, SchwabCredential) -> Option<seq<AccountInfo>>, bound: nat,
                           accounts: map<string, seq<string>>, totals: map<Target, real>) {
    forall j, i :: 0 <= j < bound && j < |entries| && LogsIn(entries, info, j) && 0 <= i < |ItemsOf(entries, info, j)| ==>
      ItemsOf(entries, info, j)[i].number in AccountsOf(accounts, SchwabName(entries, j)) &&
      (SchwabName(entries, j), ItemsOf(entries, info, j)[i].number) in totals
  }

  /** Account `n` with value `v` was reported for an entry named `id`. */
  ghost predicate Reported(entries: seq<string>, info: (nat, SchwabCredential) -> Option<seq<AccountInfo>>, bound: nat,
                           id: string, n: string, v: real) {
    exists j, i :: 0 <= j < bound && j < |entries| && LogsIn(entries, info, j) && id == SchwabName(entries, j) &&
                   0 <= i < |ItemsOf(entries, info, j)| && ItemsOf(entries, info, j)[i] == AccountInfo(n, v)
  }

  /** Nothing is registered that the account information did not report. */
  ghost predicate Sound(entries: seq<string>, info: (nat, SchwabCredential) -> Option<seq<AccountInfo>>, bound: nat,
                        accounts: map<string, seq<string>>, totals: map<Target, real>) {
    && (forall t :: t in totals ==> Reported(entries, info, bound, t.0, t.1, totals[t]))
    && (forall id, i :: id in accounts && 0 <= i < |accounts[id]| ==> (id, accounts[id][i]) in totals)
  }

  /** `schwab_init`: the first entry that fails to parse or to log in makes
      the whole call return None. */
  method SchwabInit(external: Option<string>, env: Option<string>,
                    info: (nat, SchwabCredential) -> Option<seq<AccountInfo>>)
    returns (r: Option<Brokerage>)
    ensures r.None? <==>
              !Configured(external, env) ||
              exists k :: 0 <= k < |CredentialEntries(external, env)| && !LogsIn(CredentialEntries(external, env), info, k)
    ensures r.Some? ==> fresh(r.value) && r.value.Valid() && r.value.name == "Schwab"
    ensures r.Some? ==>
              var entries := CredentialEntries(external, env);
              && Named(entries, |entries|, r.value.identities, r.value.handles)
              && Complete(entries, info, |entries|, r.value.accounts, r.value.totals)
              && Sound(entries, info, |entries|, r.value.accounts, r.value.totals)
  {
    if !Configured(external, env) {
      return None;
    }
    var entries := CredentialEntries(external, env);
    var b := new Brokerage("Schwab");
    for k := 0 to |entries|
      invariant fresh(b) && b.Valid() && b.name == "Schwab"
      invariant AllLogIn(entries, info, k)
      invariant Named(entries, k, b.identities, b.handles)
      invariant Complete(entries, info, k, b.accounts, b.totals)
      invariant Sound(entries, info, k, b.accounts, b.totals)
    {
      var ok := LogInEntry(b, entries, info, k);
      if !ok {
        return None;
      }
      AllLogInStep(entries, info, k);
    }
    return Some(b);
  }

  /** The first `n` entries all parse and log in. */
  ghost predicate AllLogIn(entries: seq<string>, info: (nat, SchwabCredential) -> Option<seq<AccountInfo>>, n: nat)
    requires n <= |entries|
  {
    forall j :: 0 <= j < n ==> LogsIn(entries, info, j)
  }

  lemma AllLogInStep(entries: seq<string>, info: (nat, SchwabCredential) -> Option<seq<AccountInfo>>, n: nat)
    requires n < |entries| && AllLogIn(entries, info, n) && LogsIn(entries, info, n)
    ensures AllLogIn(entries, info, n + 1)
  {
  }

  /** One entry of `schwab_init`'s loop: parse it, log in, and register what
      the login reports; `ok` is false when either step fails. */
  method LogInEntry(b: Brokerage, entries: seq<string>, info: (nat, SchwabCredential) -> Option<seq<AccountInfo>>, k: nat)
    returns (ok: bool)
    requires k < |entries|
    requires b.Valid() && Named(entries, k, b.identities, b.handles)
    requires Complete(entries, info, k, b.accounts, b.totals) && Sound(entries, info, k, b.accounts, b.totals)
    modifies b`identities, b`accounts, b`totals, b`handles
    ensures ok <==> LogsIn(entries, info, k)
    ensures ok ==> b.Valid() && Named(entries, k + 1, b.identities, b.handles)
    ensures ok ==> Complete(entries, info, k + 1, b.accounts, b.totals) && Sound(entries, info, k + 1, b.accounts, b.totals)
  {
    var credential := ParseSchwab(entries[k]);
    if credential.None? {
      return false;
    }
    var items := info(k, credential.value);
    if items.None? {
      return false;
    }
    RegisterEntry(b, entries, info, k, SchwabName(entries, k), items.value);
    return true;
  }

  /** The body of `schwab_init`'s loop for an entry that logged in: store
      the session, then register every reported account and its value. */
  method RegisterEntry(b: Brokerage, ghost entries: seq<string>, ghost info: (nat, SchwabCredential) -> Option<seq<AccountInfo>>,
                       ghost k: nat, name: string, items: seq<AccountInfo>)
    requires k < |entries| && LogsIn(entries, info, k)
    requires name == SchwabName(entries, k) && items == ItemsOf(entries, info, k)
    requires b.Valid() && Named(entries, k, b.identities, b.handles)
    requires Complete(entries, info, k, b.accounts, b.totals) && Sound(entries, info, k, b.accounts, b.totals)
    modifies b`identities, b`accounts, b`totals, b`handles
    ensures b.Valid() && Named(entries, k + 1, b.identities, b.handles)
    ensures Complete(entries, info, k + 1, b.accounts, b.totals) && Sound(entries, info, k + 1, b.accounts, b.totals)
  {
    NamedGrows(entries, k, b.identities, b.handles);
    SoundGrows(entries, info, k, b.accounts, b.totals);
    b.SetLoggedInObject(name, SessionHandle(name), DefaultSlot);
    RegisterItems(b, entries, info, k, name, items);
    CompleteGrows(entries, info, k, b.accounts, b.totals);
  }

  /** The first `i` reported accounts of an entry are registered under `name`, with totals. */
  ghost predicate ItemsDone(items: seq<AccountInfo>, i: nat, name: string,
                            accounts: map<string, seq<string>>, totals: map<Target, real>) {
    forall m :: 0 <= m < i && m < |items| ==>
      items[m].number in AccountsOf(accounts, name) && (name, items[m].number) in totals
  }

  /** The account loop of `schwab_init` for entry k: `set_account_number`
      and `set_account_totals` for every reported account. */
  method RegisterItems(b: Brokerage, ghost entries: seq<string>, ghost info: (nat, SchwabCredential) -> Option<seq<AccountInfo>>,
                       ghost k: nat, name: string, items: seq<AccountInfo>)
    requires k < |entries| && LogsIn(entries, info, k)
    requires name == SchwabName(entries, k) && items == ItemsOf(entries, info, k)
    requires b.Valid() && Named(entries, k + 1, b.identities, b.handles) && (name, DefaultSlot) in b.handles
    requires Complete(entries, info, k, b.accounts, b.totals) && Sound(entries, info, k + 1, b.accounts, b.totals)
    modifies b`identities, b`accounts, b`totals
    ensures b.Valid() && Named(entries, k + 1, b.identities, b.handles)
    ensures Complete(entries, info, k, b.accounts, b.totals) && Sound(entries, info, k + 1, b.accounts, b.totals)
    ensures forall m :: 0 <= m < |items| ==>
              items[m].number in AccountsOf(b.accounts, name) && (name, items[m].number) in b.totals
  {
    for i := 0 to |items|
      invariant b.Valid() && Named(entries, k + 1, b.identities, b.handles)
      invariant Complete(entries, info, k, b.accounts, b.totals) && Sound(entries, info, k + 1, b.accounts, b.totals)
      invariant ItemsDone(items, i, name, b.accounts, b.totals)
    {
      var n := items[i].number;
      var v := items[i].value;
      assert Reported(entries, info, k + 1, name, n, v) by {
        assert ItemsOf(entries, info, k)[i] == AccountInfo(n, v);
      }
      ghost var accounts, totals, identities := b.accounts, b.totals, b.identities;
      ghost var handles := b.handles;
      b.SetAccountNumber(name, n);
      b.SetAccountTotals(name, n, v);
      assert b.accounts == accounts[name := AccountsOf(accounts, name) + [n]];
      assert b.totals == totals[(name, n) := v];
      assert b.identities == if name in identities then identities else identities + [name];
      CompleteStep(entries, info, k, accounts, totals, name, n, v);
      SoundStep(entries, info, k + 1, accounts, totals, name, n, v);
      ItemsDoneStep(items, i, name, accounts, totals);
      NamedAdd(entries, k, identities, handles, name);
    }
  }

  lemma ItemsDoneStep(items: seq<AccountInfo>, i: nat, name: string,
                      accounts: map<string, seq<string>>, totals: map<Target, real>)
    requires i < |items| && ItemsDone(items, i, name, accounts, totals)
    ensures ItemsDone(items, i + 1, name, accounts[name := AccountsOf(accounts, name) + [items[i].number]],
                      totals[(name, items[i].number) := items[i].value])
  {
  }

  /** Adding the name of entry k, which holds a session, keeps identities named. */
  lemma NamedAdd(entries: seq<string>, k: nat, identities: seq<string>, handles: map<Target, Handle>, name: string)
    requires k < |entries| && name == SchwabName(entries, k) && (name, DefaultSlot) in handles
    requires Named(entries, k + 1, identities, handles)
    ensures Named(entries, k + 1, if name in identities then identities else identities + [name], handles)
  {
  }

  /** Once entry k's accounts are all registered, the first k + 1 entries are complete. */
  lemma CompleteGrows(entries: seq<string>, info: (nat, SchwabCredential) -> Option<seq<AccountInfo>>, k: nat,
                      accounts: map<string, seq<string>>, totals: map<Target, real>)
    requires k < |entries| && LogsIn(entries, info, k) && Complete(entries, info, k, accounts, totals)
    requires forall m :: 0 <= m < |ItemsOf(entries, info, k)| ==>
               ItemsOf(entries, info, k)[m].number in AccountsOf(accounts, SchwabName(entries, k)) &&
               (SchwabName(entries, k), ItemsOf(entries, info, k)[m].number) in totals
    ensures Complete(entries, info, k + 1, accounts, totals)
  {
  }

  lemma NamedGrows(entries: seq<string>, bound: nat, identities: seq<string>, handles: map<Target, Handle>)
    requires Named(entries, bound, identities, handles)
    ensures Named(entries, bound + 1, identities, handles)
  {
    forall id | id in identities
      ensures exists j :: 0 <= j < bound + 1 && j < |entries| && id == SchwabName(entries, j)
    {
      var j :| 0 <= j < bound && j < |entries| && id == SchwabName(entries, j);
    }
  }

  lemma SoundGrows(entries: seq<string>, info: (nat, SchwabCredential) -> Option<seq<AccountInfo>>, bound: nat,
                   accounts: map<string, seq<string>>, totals: map<Target, real>)
    requires Sound(entries, info, bound, accounts, totals)
    ensures Sound(entries, info, bound + 1, accounts, totals)
  {
    forall t | t in totals ensures Reported(entries, info, bound + 1, t.0, t.1, totals[t]) {
      var j, i :| 0 <= j < bound && j < |entries| && LogsIn(entries, info, j) && t.0 == SchwabName(entries, j) &&
                  0 <= i < |ItemsOf(entries, info, j)| && ItemsOf(entries, info, j)[i] == AccountInfo(t.1, totals[t]);
    }
  }

  /** Registering one more account keeps every earlier account registered. */
  lemma CompleteStep(entries: seq<string>, info: (nat, SchwabCredential) -> Option<seq<AccountInfo>>, k: nat,
                     accounts: map<string, seq<string>>, totals: map<Target, real>, name: string, n: string, v: real)
    requires Complete(entries, info, k, accounts, totals)
    ensures Complete(entries, info, k, accounts[name := AccountsOf(accounts, name) + [n]], totals[(name, n) := v])
  {
    var accounts' := accounts[name := AccountsOf(accounts, name) + [n]];
    forall j, i | 0 <= j < k && j < |entries| && LogsIn(entries, info, j) && 0 <= i < |ItemsOf(entries, info, j)|
      ensures ItemsOf(entries, info, j)[i].number in AccountsOf(accounts', SchwabName(entries, j))
    {
      var x := ItemsOf(entries, info, j)[i].number;
      assert x in AccountsOf(accounts, SchwabName(entries, j));
      if SchwabName(entries, j) == name {
        assert AccountsOf(accounts', name) == AccountsOf(accounts, name) + [n];
      }
    }
  }

  /** Registering an account that was reported registers nothing unreported. */
  lemma SoundStep(entries: seq<string>, info: (nat, SchwabCredential) -> Option<seq<AccountInfo>>, bound: nat,
                  accounts: map<string, seq<string>>, totals: map<Target, real>, name: string, n: string, v: real)
    requires Sound(entries, info, bound, accounts, totals)
    requires Reported(entries, info, bound, name, n, v)
    ensures Sound(entries, info, bound, accounts[name := AccountsOf(accounts, name) + [n]], totals[(name, n) := v])
  {
    var accounts' := accounts[name := AccountsOf(accounts, name) + [n]];
    var totals' := totals[(name, n) := v];
    forall t | t in totals' ensures Reported(entries, info, bound, t.0, t.1, totals'[t]) {
      if t != (name, n) {
        assert t in totals && totals'[t] == totals[t];
      }
    }
    forall id, i | id in accounts' && 0 <= i < |accounts'[id]| ensures (id, accounts'[id][i]) in totals' {
      if id == name && i < |AccountsOf(accounts, name)| {
        assert accounts'[id][i] == accounts[id][i];
      } else if id != name {
        assert accounts'[id] == accounts[id];
      }
    }
  }

  // ------------------------------------------------------------------
  // Holdings

  /** One position of `get_account_info_v2()[account]["positions"]`. */
  datatype SchwabPosition = SchwabPosition(symbol: Option<string>, marketValue: real, quantity: real)

  /** A holding row: a missing or empty symbol reads "Unknown", and the price
      is market value over quantity, or 0 for a zero quantity. */
  function SchwabRow(p: SchwabPosition): (r: Holding)
    ensures r.symbol != "" && r.quantity == p.quantity && r.price.Quote?
    ensures p.symbol.Some? && p.symbol.value != "" ==> r.symbol == p.symbol.value
    ensures p.symbol.None? || p.symbol.value == "" ==> r.symbol == "Unknown"
    ensures p.quantity == 0.0 ==> r.price.value == 0.0
    ensures p.quantity != 0.0 ==> r.price.value * p.quantity == p.marketValue
  {
    var symbol := if p.symbol.None? || p.symbol.value == "" then "Unknown" else p.symbol.value;
    Holding(symbol, p.quantity, Quote(if p.quantity == 0.0 then 0.0 else p.marketValue / p.quantity))
  }

  /** Every position becomes one row, in order; zero quantities included. */
  function SchwabRows(ps: seq<SchwabPosition>): (r: seq<Holding>)
    ensures |r| == |ps|
    ensures forall i :: 0 <= i < |ps| ==> r[i] == SchwabRow(ps[i])
  {
    if ps == [] then [] else SchwabRows(ps[..|ps| - 1]) + [SchwabRow(ps[|ps| - 1])]
  }

  /** The rows of one account: `fetch(identity)` is the identity's account
      information; an account missing from it records nothing. */
  function SchwabRowsAt(fetch: string -> Option<map<string, seq<SchwabPosition>>>, t: Target): (r: seq<Holding>)
    ensures fetch(t.0).None? || t.1 !in fetch(t.0).value ==> r == []
    ensures fetch(t.0).Some? && t.1 in fetch(t.0).value ==> |r| == |fetch(t.0).value[t.1]|
  {
    match fetch(t.0)
    case None => []
    case Some(all) => if t.1 in all then SchwabRows(all[t.1]) else []
  }

  /** `schwab_holdings`: the account information is fetched once per
      identity, outside any error handler, so the first identity whose
      fetch fails ends the whole call; `completed` is the number of
      identities handled before it. */
  method SchwabHoldings(b: Brokerage, fetch: string -> Option<map<string, seq<SchwabPosition>>>)
    returns (completed: nat)
    modifies b`holdings
    ensures completed <= |b.identities|
    ensures forall j :: 0 <= j < completed ==> fetch(b.identities[j]).Some?
    ensures completed < |b.identities| ==> fetch(b.identities[completed]).None?
    ensures b.holdings == Recorded(old(b.holdings), Targets(b.identities[..completed], b.accounts), fetch, SchwabRowsAt)
  {
    completed := RecordHoldingsWhile(b, fetch, SchwabRowsAt, id => fetch(id).Some?);
  }

  /** Unlike the Fennel adapter, zero-quantity positions are recorded. */
  lemma ZeroQuantityRecorded(fetch: string -> Option<map<string, seq<SchwabPosition>>>, t: Target, i: nat)
    requires fetch(t.0).Some? && t.1 in fetch(t.0).value && i < |fetch(t.0).value[t.1]|
    requires fetch(t.0).value[t.1][i].quantity == 0.0
    ensures SchwabRowsAt(fetch, t)[i].quantity == 0.0 && SchwabRowsAt(fetch, t)[i].price == Quote(0.0)
  {
  }

  // ------------------------------------------------------------------
  // Orders

  /** `SCHWAB_ACCOUNT_NUMBERS`, stripped and split at colons; unset reads as "". */
  function PurchaseAccounts(env: Option<string>): (r: seq<string>)
    ensures |r| >= 1
  {
    Split(Strip(env.GetOr("")), ':')
  }

  /** An account is skipped when a restriction list is set, the action is
      not a sale, and the account is not on the list. */
  predicate Restricted(purchase: seq<string>, action: string, account: string) {
    purchase != [""] && Lower(action) != "sell" && account !in purchase
  }

  /** With the variable unset or blank, no account is skipped. */
  lemma UnsetRestrictsNothing(env: Option<string>, action: string, account: string)
    requires env.None? || env.value == ""
    ensures !Restricted(PurchaseAccounts(env), action, account)
  {
    assert Strip("") == "";
    assert Split("", ':') == [""];
  }

  datatype Api = TradeV2 | TradeV1

  /** One call of `trade_v2` or `trade`. */
  datatype TradeCall = TradeCall(api: Api, ticker: string, side: string, qty: int, account: string, dry: bool)

  /** What a trade call returns: it raises, or gives rendered messages and a
      success flag. */
  datatype TradeReply = TradeRaised(error: string) | Traded(messages: string, success: bool)

  datatype Outcome = Skipped | Verified | RetryVerified | RetryFailed | Raised

  /** What happens in one account for one stock: the calls sent, the
      one-second pauses taken, the notices posted, and the outcome. */
  datatype Report = Report(identity: string, account: string, stock: string, calls: seq<TradeCall>,
                           pauses: nat, notices: seq<string>, outcome: Outcome)

  /** The SDK's answers per account (`trade(t, call)`), the parsed
      restriction list, the order, and the masking of account numbers. */
  datatype Desk = Desk(purchase: seq<string>, order: Order, trade: (Target, TradeCall) -> TradeReply,
                       mask: string -> string)

  const DryNotice := "Running in DRY mode. No transactions will be made."

  /** The head of the notices about one account: "Schwab 1 account ****1234: ". */
  function AccountPrefix(key: string, shown: string): string {
    key + " account " + shown + ": "
  }

  /** The head of the error notice, which leaves out the word "account". */
  function ErrorPrefix(key: string, shown: string): string {
    key + " " + shown + ": "
  }

  /** A notice names the identity and the masked account it is about. */
  predicate Identifies(n: string, key: string, shown: string) {
    ErrorPrefix(key, shown) <= n || AccountPrefix(key, shown) <= n
  }

  /** The verification notice as the source builds it: the conditional
      expression binds looser than `+`, so only the successful text carries
      the identity and account. */
  function VerificationNoticeAsWritten(key: string, shown: string, success: bool, ok: string, failed: string): string {
    if success then AccountPrefix(key, shown) + ("The order verification was " + ok) else failed
  }

  /** The notice as evidently intended: the prefix in front of either result. */
  function VerificationNotice(key: string, shown: string, result: string): (r: string)
    ensures AccountPrefix(key, shown) <= r && Identifies(r, key, shown)
    ensures r[|AccountPrefix(key, shown)|..] == "The order verification was " + result
  {
    AccountPrefix(key, shown) + ("The order verification was " + result)
  }

  function ErrorNotice(key: string, shown: string, error: string): (r: string)
    ensures ErrorPrefix(key, shown) <= r && Identifies(r, key, shown)
    ensures r[|ErrorPrefix(key, shown)|..] == "Error submitting order: " + error
  {
    ErrorPrefix(key, shown) + ("Error submitting order: " + error)
  }

  function MessagesNotice(key: string, shown: string, messages: string): (r: string)
    ensures AccountPrefix(key, shown) <= r && Identifies(r, key, shown)
    ensures r[|AccountPrefix(key, shown)|..] == "The order verification produced the following messages: " + messages
  {
    AccountPrefix(key, shown) + ("The order verification produced the following messages: " + messages)
  }

  /** As written, a failed verification posts a bare "unsuccessful,
      retrying..." (and a failed retry a bare "retry unsuccessful") that
      does not say which identity or account it is about. */
  lemma AsWrittenFailureUnidentified(key: string, shown: string)
    requires "Schwab" <= key
    ensures VerificationNoticeAsWritten(key, shown, false, "successful", "unsuccessful, retrying...") == "unsuccessful, retrying..."
    ensures !Identifies(VerificationNoticeAsWritten(key, shown, false, "successful", "unsuccessful, retrying..."), key, shown)
    ensures !Identifies(VerificationNoticeAsWritten(key, shown, false, "retry successful", "retry unsuccessful"), key, shown)
  {
    assert ErrorPrefix(key, shown)[0] == 'S' && AccountPrefix(key, shown)[0] == 'S';
    assert "unsuccessful, retrying..."[0] == 'u' && "retry unsuccessful"[0] == 'r';
  }

  /** Every notice, except the dry-run banner, names its identity and account. */
  predicate AllIdentified(notices: seq<string>, key: string, shown: string) {
    forall n :: n in notices ==> n == DryNotice || Identifies(n, key, shown)
  }

  /** The calls made in an account that is not skipped: `trade_v2`, then
      `trade` with the same arguments only when the first reported failure
      (not when it raised). */
  function TradeCalls(first: TradeCall, reply: TradeReply): (r: seq<TradeCall>)
    ensures 1 <= |r| <= 2 && r[0] == first
    ensures |r| == 2 <==> reply.Traded? && !reply.success
    ensures |r| == 2 ==> r[1] == first.(api := TradeV1)
  {
    if reply.Traded? && !reply.success then [first, first.(api := TradeV1)] else [first]
  }

  /** The outcome from the reply of `trade_v2` and, when it is consulted,
      the reply of `trade`. */
  function TradeOutcome(reply: TradeReply, retry: TradeReply): (r: Outcome)
    ensures r != Skipped
    ensures r == Verified <==> reply.Traded? && reply.success
    ensures r == RetryVerified || r == RetryFailed ==>
              reply.Traded? && !reply.success && retry.Traded? && (r == RetryVerified <==> retry.success)
    ensures r == Raised <==> reply.TradeRaised? || (!reply.success && retry.TradeRaised?)
  {
    match reply
    case TradeRaised(_) => Raised
    case Traded(_, true) => Verified
    case Traded(_, false) =>
      match retry
      case TradeRaised(_) => Raised
      case Traded(_, success) => if success then RetryVerified else RetryFailed
  }

  /** The notices posted after the trade calls, with the corrected
      verification notice: every one of them names the identity and the
      account. */
  function TradeNotices(key: string, shown: string, reply: TradeReply, retry: TradeReply): (r: seq<string>)
    ensures 1 <= |r| <= 3
    ensures forall n :: n in r ==> Identifies(n, key, shown)
    ensures |r| == 3 <==> reply.Traded? && !reply.success && retry.Traded?
  {
    match reply
    case TradeRaised(e) => [ErrorNotice(key, shown, e)]
    case Traded(_, true) => [VerificationNotice(key, shown, "successful")]
    case Traded(_, false) =>
      var failed := VerificationNotice(key, shown, "unsuccessful, retrying...");
      match retry
      case TradeRaised(e) => [failed, ErrorNotice(key, shown, e)]
      case Traded(messages, success) =>
        [failed, VerificationNotice(key, shown, if success then "retry successful" else "retry unsuccessful"),
         MessagesNotice(key, shown, messages)]
  }

  /** Every notice the corrected step posts, except the dry-run banner,
      names its identity and account. */
  lemma NoticesIdentified(d: Desk, s: string, t: Target)
    ensures AllIdentified(SchwabStep(d, s, t).notices, t.0, d.mask(t.1))
  {
    if !Restricted(d.purchase, d.order.action, t.1) {
      var first := TradeCall(TradeV2, s, Capitalize(d.order.action), d.order.amount, t.1, d.order.dry);
      var tail := TradeNotices(t.0, d.mask(t.1), d.trade(t, first), d.trade(t, first.(api := TradeV1)));
      assert SchwabStep(d, s, t).notices == (if d.order.dry then [DryNotice] else []) + tail;
    }
  }

  /** One stock in one account. */
  function SchwabStep(d: Desk, s: string, t: Target): (r: Report)
    ensures r.identity == t.0 && r.account == t.1 && r.stock == s
    ensures r.outcome == Skipped <==> Restricted(d.purchase, d.order.action, t.1)
    ensures r.outcome == Skipped ==> r.calls == [] && r.pauses == 0 && r.notices == []
    ensures r.outcome != Skipped ==>
              && r.pauses == 1
              && 1 <= |r.calls| <= 2
              && r.calls[0] == TradeCall(TradeV2, s, Capitalize(d.order.action), d.order.amount, t.1, d.order.dry)
              && (|r.calls| == 2 <==> d.trade(t, r.calls[0]).Traded? && !d.trade(t, r.calls[0]).success)
              && (|r.calls| == 2 ==> r.calls[1] == r.calls[0].(api := TradeV1))
              && |r.notices| >= 1 && (d.order.dry ==> r.notices[0] == DryNotice)
    ensures r.outcome == Verified <==> r.outcome != Skipped && d.trade(t, r.calls[0]).Traded? && d.trade(t, r.calls[0]).success
    ensures r.outcome == RetryVerified || r.outcome == RetryFailed ==>
              |r.calls| == 2 && d.trade(t, r.calls[1]).Traded? &&
              (r.outcome == RetryVerified <==> d.trade(t, r.calls[1]).success)
  {
    if Restricted(d.purchase, d.order.action, t.1) then Report(t.0, t.1, s, [], 0, [], Skipped)
    else
      var first := TradeCall(TradeV2, s, Capitalize(d.order.action), d.order.amount, t.1, d.order.dry);
      var reply := d.trade(t, first);
      var retry := d.trade(t, first.(api := TradeV1));
      var banner := if d.order.dry then [DryNotice] else [];
      Report(t.0, t.1, s, TradeCalls(first, reply), 1, banner + TradeNotices(t.0, d.mask(t.1), reply, retry),
             TradeOutcome(reply, retry))
  }

  /** `schwab_transaction`: one report per stock and account. */
  method SchwabTransaction(b: Brokerage, env: Option<string>, order: Order,
                           trade: (Target, TradeCall) -> TradeReply, mask: string -> string)
    returns (reports: seq<Report>)
    ensures reports == Sweep(Desk(PurchaseAccounts(env), order, trade, mask), order.stocks,
                             Targets(b.identities, b.accounts), SchwabStep)
  {
    var d := Desk(PurchaseAccounts(env), order, trade, mask);
    reports := FanOut(b, d, order.stocks, SchwabStep);
  }

  /** A dry run only ever sends calls flagged as dry runs. */
  lemma DryRunCallsAreDry(d: Desk, targets: seq<Target>, rep: Report, c: TradeCall)
    requires d.order.dry && rep in Sweep(d, d.order.stocks, targets, SchwabStep) && c in rep.calls
    ensures c.dry
  {
    SweepMember(d, d.order.stocks, targets, SchwabStep, rep);
    var i, j :| 0 <= i < |d.order.stocks| && 0 <= j < |targets| && rep == SchwabStep(d, d.order.stocks[i], targets[j]);
    StepCallsDry(d, d.order.stocks[i], targets[j]);
  }

  /** In a dry run both calls of one step carry the dry-run flag. */
  lemma StepCallsDry(d: Desk, s: string, t: Target)
    requires d.order.dry
    ensures forall c :: c in SchwabStep(d, s, t).calls ==> c.dry
  {
  }

  /** Sales ignore the restriction list: no account is skipped. */
  lemma SalesNeverSkipped(d: Desk, targets: seq<Target>, rep: Report)
    requires Lower(d.order.action) == "sell" && rep in Sweep(d, d.order.stocks, targets, SchwabStep)
    ensures rep.outcome != Skipped && rep.pauses == 1
  {
    SweepMember(d, d.order.stocks, targets, SchwabStep, rep);
  }
}
