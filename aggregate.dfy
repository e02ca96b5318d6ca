/** The shared per-brokerage aggregate that every adapter fills in at login
    and walks when it reports holdings or places orders, and the order
    descriptor handed to each adapter.  The aggregate's own source file is
    not part of this model; it is modelled here with exactly the operations
    the adapters call: register a session handle, an account number, an
    account total, an account type and a holding, and list account numbers. */
module Aggregate {
  import opened Wrappers
  import opened Text

  /** An (identity, account) pair, e.g. ("Robinhood 1", "5QR12345"). */
  type Target = (string, string)

  /** What `set_logged_in_object` stores: a session object, or (Fennel) the
      remote id of a numbered account. */
  datatype Handle = SessionHandle(owner: string) | AccountHandle(id: string)

  datatype Price = NotAvailable | Quote(value: real)

  datatype Holding = Holding(symbol: string, quantity: real, price: Price)

  /** The order descriptor: action, share count, tickers, price mode ("market"),
      time in force ("day") and the dry-run flag. */
  datatype Order = Order(action: string, amount: int, stocks: seq<string>,
                         price: string, time: string, dry: bool)

  /** The slot `set_logged_in_object` uses when no account name is given. */
  const DefaultSlot := "default"

  // ------------------------------------------------------------------
  // Configuration shared by the adapters

  /** An adapter is configured when an external credential string is given
      or its environment variable is set and non-empty. */
  predicate Configured(external: Option<string>, env: Option<string>) {
    external.Some? || (env.Some? && env.value != "")
  }

  /** The credential entries: the external string if given, else the
      environment value, stripped and split at commas. */
  function CredentialEntries(external: Option<string>, env: Option<string>): (r: seq<string>)
    ensures |r| >= 1
  {
    Split(Strip(if external.Some? then external.value else env.GetOr("")), ',')
  }

  /** `f"{prefix} {entries.index(entry) + 1}"`: the display name of entry k
      uses the position of the entry's first occurrence. */
  function FirstOccurrenceName(prefix: string, entries: seq<string>, k: nat): string
    requires k < |entries|
  {
    prefix + " " + NatToString(IndexOf(entries, entries[k]) + 1)
  }

  /** Two entries get the same name exactly when they are the same string. */
  lemma FirstOccurrenceNames(prefix: string, entries: seq<string>, k1: nat, k2: nat)
    requires k1 < |entries| && k2 < |entries|
    ensures FirstOccurrenceName(prefix, entries, k1) == FirstOccurrenceName(prefix, entries, k2)
            <==> entries[k1] == entries[k2]
  {
    var i1 := IndexOf(entries, entries[k1]);
    var i2 := IndexOf(entries, entries[k2]);
    if entries[k1] != entries[k2] {
      assert i1 != i2;
      NatToStringInjective(i1 + 1, i2 + 1);
      var n := |prefix| + 1;
      assert FirstOccurrenceName(prefix, entries, k1)[n..] == NatToString(i1 + 1);
      assert FirstOccurrenceName(prefix, entries, k2)[n..] == NatToString(i2 + 1);
    }
  }

  class Brokerage {
    const name: string
    /** The identities that have account numbers, in registration order
        (the keys of `get_account_numbers()`). */
    var identities: seq<string>
    var accounts: map<string, seq<string>>
    var handles: map<Target, Handle>
    var totals: map<Target, real>
    var types: map<Target, string>
    var holdings: map<Target, seq<Holding>>

    ghost predicate Valid()
      reads this
    {
      && Distinct(identities)
      && (forall k :: k in accounts <==> k in identities)
    }

    constructor (name: string)
      ensures Valid() && this.name == name
      ensures identities == [] && accounts == map[] && handles == map[]
      ensures totals == map[] && types == map[] && holdings == map[]
    {
      this.name := name;
      identities := [];
      accounts := map[];
      handles := map[];
      totals := map[];
      types := map[];
      holdings := map[];
    }

    /** `get_account_numbers(identity)`: an unregistered identity has none. */
    function AccountNumbers(identity: string): seq<string>
      reads this
    {
      if identity in accounts then accounts[identity] else []
    }

    function HoldingsOf(t: Target): seq<Holding>
      reads this
    {
      if t in holdings then holdings[t] else []
    }

    /** `set_logged_in_object(identity, handle, slot)`. */
    method SetLoggedInObject(identity: string, h: Handle, slot: string)
      modifies this`handles
      ensures handles == old(handles)[(identity, slot) := h]
    {
      handles := handles[(identity, slot) := h];
    }

    /** `set_account_number(identity, account)`: appends to the identity's
        list, creating the identity on its first account. */
    method SetAccountNumber(identity: string, account: string)
      requires Valid()
      modifies this`identities, this`accounts
      ensures Valid()
      ensures accounts == old(accounts)[identity := old(AccountNumbers(identity)) + [account]]
      ensures identities == if identity in old(identities) then old(identities)
                            else old(identities) + [identity]
    {
      if identity !in accounts {
        identities := identities + [identity];
      }
      accounts := accounts[identity := AccountNumbers(identity) + [account]];
    }

    /** `set_account_totals(identity, account, total)`. */
    method SetAccountTotals(identity: string, account: string, total: real)
      modifies this`totals
      ensures totals == old(totals)[(identity, account) := total]
    {
      totals := totals[(identity, account) := total];
    }

    /** `set_account_type(identity, account, type)`. */
    method SetAccountType(identity: string, account: string, kind: string)
      modifies this`types
      ensures types == old(types)[(identity, account) := kind]
    {
      types := types[(identity, account) := kind];
    }

    /** `set_holdings(identity, account, symbol, quantity, price)`: appends. */
    method SetHoldings(identity: string, account: string, h: Holding)
      modifies this`holdings
      ensures holdings == old(holdings)[(identity, account) := old(HoldingsOf((identity, account))) + [h]]
    {
      holdings := holdings[(identity, account) := HoldingsOf((identity, account)) + [h]];
    }

    /** `set_holdings` for each row of one account, in order. */
    method AppendHoldings(identity: string, account: string, rows: seq<Holding>)
      modifies this`holdings
      ensures holdings == Appended(old(holdings), (identity, account), rows)
    {
      ghost var start := holdings;
      for m := 0 to |rows|
        invariant holdings == Appended(start, (identity, account), rows[..m])
      {
        ghost var prev := holdings;
        SetHoldings(identity, account, rows[m]);
        assert holdings == Appended(prev, (identity, account), [rows[m]]);
        assert rows[..m + 1] == rows[..m] + [rows[m]];
        AppendedTwice(start, (identity, account), rows[..m], [rows[m]]);
      }
      assert rows[..|rows|] == rows;
    }
  }

  // ------------------------------------------------------------------
  // The order in which the adapters visit accounts:
  //   for key in get_account_numbers(): for account in get_account_numbers(key)

  function AccountsOf(accounts: map<string, seq<string>>, key: string): seq<string> {
    if key in accounts then accounts[key] else []
  }

  function Pairs(key: string, accts: seq<string>): (r: seq<Target>)
    ensures |r| == |accts|
    ensures forall j :: 0 <= j < |accts| ==> r[j] == (key, accts[j])
  {
    if accts == [] then [] else Pairs(key, accts[..|accts| - 1]) + [(key, accts[|accts| - 1])]
  }

  function Targets(keys: seq<string>, accounts: map<string, seq<string>>): seq<Target> {
    if keys == [] then []
    else Targets(keys[..|keys| - 1], accounts) + Pairs(keys[|keys| - 1], AccountsOf(accounts, keys[|keys| - 1]))
  }

  /** The accounts visited are exactly the registered (identity, account) pairs. */
  lemma {:induction false} TargetsMember(keys: seq<string>, accounts: map<string, seq<string>>, t: Target)
    ensures t in Targets(keys, accounts) <==> t.0 in keys && t.1 in AccountsOf(accounts, t.0)
  {
    if keys != [] {
      var init := keys[..|keys| - 1];
      var key := keys[|keys| - 1];
      TargetsMember(init, accounts, t);
      assert keys == init + [key];
      var ps := Pairs(key, AccountsOf(accounts, key));
      assert t in ps <==> t.0 == key && t.1 in AccountsOf(accounts, key) by {
        if t in ps {
          var j :| 0 <= j < |ps| && ps[j] == t;
        }
        if t.0 == key && t.1 in AccountsOf(accounts, key) {
          var j :| 0 <= j < |AccountsOf(accounts, key)| && AccountsOf(accounts, key)[j] == t.1;
          assert ps[j] == t;
        }
      }
    }
  }

  // ------------------------------------------------------------------
  // The events produced by `for s in stocks: <for every target>: step(s, target)`.

  function Row<C, E>(c: C, s: string, targets: seq<Target>, step: (C, string, Target) -> E): (r: seq<E>)
    ensures |r| == |targets|
    ensures forall j :: 0 <= j < |targets| ==> r[j] == step(c, s, targets[j])
  {
    if targets == [] then []
    else Row(c, s, targets[..|targets| - 1], step) + [step(c, s, targets[|targets| - 1])]
  }

  function Sweep<C, E>(c: C, stocks: seq<string>, targets: seq<Target>, step: (C, string, Target) -> E): seq<E> {
    if stocks == [] then []
    else Sweep(c, stocks[..|stocks| - 1], targets, step) + Row(c, stocks[|stocks| - 1], targets, step)
  }

  lemma RowAppend<C, E>(c: C, s: string, xs: seq<Target>, ys: seq<Target>, step: (C, string, Target) -> E)
    ensures Row(c, s, xs + ys, step) == Row(c, s, xs, step) + Row(c, s, ys, step)
  {
    var l := Row(c, s, xs + ys, step);
    var r := Row(c, s, xs, step) + Row(c, s, ys, step);
    assert |l| == |r|;
    forall j | 0 <= j < |l| ensures l[j] == r[j] {
      if j < |xs| {
        assert (xs + ys)[j] == xs[j];
      } else {
        assert (xs + ys)[j] == ys[j - |xs|];
      }
    }
  }

  /** Every event of a sweep comes from one stock and one target, and every
      (stock, target) pair contributes one. */
  lemma {:induction false} SweepMember<C, E>(c: C, stocks: seq<string>, targets: seq<Target>,
                                             step: (C, string, Target) -> E, e: E)
    ensures e in Sweep(c, stocks, targets, step) <==>
            exists i, j :: 0 <= i < |stocks| && 0 <= j < |targets| && e == step(c, stocks[i], targets[j])
  {
    if stocks != [] {
      var init := stocks[..|stocks| - 1];
      var s := stocks[|stocks| - 1];
      SweepMember(c, init, targets, step, e);
      var row := Row(c, s, targets, step);
      if e in row {
        var j :| 0 <= j < |row| && row[j] == e;
        assert e == step(c, stocks[|stocks| - 1], targets[j]);
      }
      if exists i, j :: 0 <= i < |stocks| && 0 <= j < |targets| && e == step(c, stocks[i], targets[j]) {
        var i, j :| 0 <= i < |stocks| && 0 <= j < |targets| && e == step(c, stocks[i], targets[j]);
        if i < |init| {
          assert stocks[i] == init[i];
        } else {
          assert row[j] == e;
        }
      }
    }
  }

  /** The loop every adapter's `transaction` runs:
        for s in stocks: for key in get_account_numbers(): for account in get_account_numbers(key)
      with `step` giving the outcome reported for one order in one account. */
  method FanOut<C, E>(b: Brokerage, c: C, stocks: seq<string>, step: (C, string, Target) -> E)
    returns (events: seq<E>)
    ensures events == Sweep(c, stocks, Targets(b.identities, b.accounts), step)
  {
    ghost var targets := Targets(b.identities, b.accounts);
    events := [];
    for i := 0 to |stocks|
      invariant events == Sweep(c, stocks[..i], targets, step)
    {
      var row := FanOutStock(b, c, stocks[i], step);
      SweepNext(c, stocks, i, targets, step);
      events := events + row;
    }
    assert stocks[..|stocks|] == stocks;
  }

  lemma SweepNext<C, E>(c: C, stocks: seq<string>, i: nat, targets: seq<Target>, step: (C, string, Target) -> E)
    requires i < |stocks|
    ensures Sweep(c, stocks[..i + 1], targets, step) == Sweep(c, stocks[..i], targets, step) + Row(c, stocks[i], targets, step)
  {
    assert stocks[..i + 1][..i] == stocks[..i];
  }

  /** One stock of `FanOut`: every account of every identity, in order. */
  method FanOutStock<C, E>(b: Brokerage, c: C, s: string, step: (C, string, Target) -> E)
    returns (row: seq<E>)
    ensures row == Row(c, s, Targets(b.identities, b.accounts), step)
  {
    var keys := b.identities;
    ghost var accounts := b.accounts;
    row := [];
    for k := 0 to |keys|
      invariant row == Row(c, s, Targets(keys[..k], accounts), step)
    {
      var events := FanOutIdentity(b, c, s, keys[k], step);
      RowAppend(c, s, Targets(keys[..k], accounts), Pairs(keys[k], AccountsOf(accounts, keys[k])), step);
      TargetsStep(keys, accounts, k);
      row := row + events;
    }
    assert keys[..|keys|] == keys;
  }

  /** The accounts of one identity, in order. */
  method FanOutIdentity<C, E>(b: Brokerage, c: C, s: string, key: string, step: (C, string, Target) -> E)
    returns (events: seq<E>)
    ensures events == Row(c, s, Pairs(key, AccountsOf(b.accounts, key)), step)
  {
    var accts := b.AccountNumbers(key);
    events := [];
    for j := 0 to |accts|
      invariant |events| == j
      invariant forall m :: 0 <= m < j ==> events[m] == step(c, s, (key, accts[m]))
    {
      events := events + [step(c, s, (key, accts[j]))];
    }
  }

  // ------------------------------------------------------------------
  // Holdings: every visited account gets its rows appended, one by one.

  /** Appending no row leaves the map as it was (`set_holdings` is never called). */
  function Appended(h: map<Target, seq<Holding>>, t: Target, rows: seq<Holding>): map<Target, seq<Holding>> {
    if rows == [] then h else h[t := (if t in h then h[t] else []) + rows]
  }

  lemma AppendedTwice(h: map<Target, seq<Holding>>, t: Target, xs: seq<Holding>, ys: seq<Holding>)
    ensures Appended(Appended(h, t, xs), t, ys) == Appended(h, t, xs + ys)
  {
    if xs == [] {
      assert xs + ys == ys;
    } else if ys == [] {
      assert xs + ys == xs;
    } else {
      var prior := if t in h then h[t] else [];
      var mid := h[t := prior + xs];
      assert Appended(h, t, xs) == mid;
      assert (prior + xs) + ys == prior + (xs + ys);
      assert mid[t := (prior + xs) + ys] == h[t := prior + (xs + ys)];
    }
  }

  lemma TargetsStep(keys: seq<string>, accounts: map<string, seq<string>>, k: nat)
    requires k < |keys|
    ensures Targets(keys[..k + 1], accounts) == Targets(keys[..k], accounts) + Pairs(keys[k], AccountsOf(accounts, keys[k]))
  {
    assert keys[..k + 1][..k] == keys[..k];
  }

  lemma PairsStep(key: string, accts: seq<string>, j: nat)
    requires j < |accts|
    ensures Pairs(key, accts[..j + 1]) == Pairs(key, accts[..j]) + [(key, accts[j])]
  {
    assert accts[..j + 1][..j] == accts[..j];
  }

  /** The holdings map after visiting `targets` in order, appending
      `rows(c, t)` to each. */
  function Recorded<C>(h: map<Target, seq<Holding>>, targets: seq<Target>, c: C,
                       rows: (C, Target) -> seq<Holding>): map<Target, seq<Holding>> {
    if targets == [] then h
    else
      var t := targets[|targets| - 1];
      Appended(Recorded(h, targets[..|targets| - 1], c, rows), t, rows(c, t))
  }

  /** Accounts that are not visited keep their holdings. */
  lemma {:induction false} RecordedElsewhere<C>(h: map<Target, seq<Holding>>, targets: seq<Target>, c: C,
                                                rows: (C, Target) -> seq<Holding>, u: Target)
    requires u !in targets
    ensures var r := Recorded(h, targets, c, rows);
            (u in r <==> u in h) && (u in h ==> r[u] == h[u])
  {
    if targets != [] {
      RecordedElsewhere(h, targets[..|targets| - 1], c, rows, u);
    }
  }

  /** An account visited once ends with its old holdings followed by its rows. */
  lemma {:induction false} RecordedOnce<C>(h: map<Target, seq<Holding>>, targets: seq<Target>, c: C,
                                           rows: (C, Target) -> seq<Holding>, u: Target)
    requires Distinct(targets) && u in targets
    ensures var r := Recorded(h, targets, c, rows);
            (u in r <==> u in h || rows(c, u) != []) &&
            (u in r ==> r[u] == (if u in h then h[u] else []) + rows(c, u))
  {
    var init := targets[..|targets| - 1];
    if u == targets[|targets| - 1] {
      assert u !in init;
      RecordedElsewhere(h, init, c, rows, u);
    } else {
      assert u in init by {
        var i :| 0 <= i < |targets| && targets[i] == u;
        assert init[i] == u;
      }
      assert Distinct(init) by {
        forall i, j | 0 <= i < j < |init| ensures init[i] != init[j] {
          assert init[i] == targets[i] && init[j] == targets[j];
        }
      }
      RecordedOnce(h, init, c, rows, u);
    }
  }

  /** The holdings loop of an adapter: visit every account in order and
      append its rows with `set_holdings`. */
  method RecordHoldings<C>(b: Brokerage, c: C, rows: (C, Target) -> seq<Holding>)
    modifies b`holdings
    ensures b.holdings == Recorded(old(b.holdings), Targets(b.identities, b.accounts), c, rows)
  {
    for k := 0 to |b.identities|
      invariant b.holdings == Recorded(old(b.holdings), Targets(b.identities[..k], b.accounts), c, rows)
    {
      RecordIdentity(b, k, c, rows, old(b.holdings));
    }
    assert b.identities[..|b.identities|] == b.identities;
  }

  /** The holdings loop of an adapter whose per-identity fetch can end the
      whole call: identities are handled in order until the first one for
      which `fetched` fails; `completed` counts those handled. */
  method RecordHoldingsWhile<C>(b: Brokerage, c: C, rows: (C, Target) -> seq<Holding>, fetched: string -> bool)
    returns (completed: nat)
    modifies b`holdings
    ensures completed <= |b.identities|
    ensures forall j :: 0 <= j < completed ==> fetched(b.identities[j])
    ensures completed < |b.identities| ==> !fetched(b.identities[completed])
    ensures b.holdings == Recorded(old(b.holdings), Targets(b.identities[..completed], b.accounts), c, rows)
  {
    var keys := b.identities;
    ghost var accounts := b.accounts;
    ghost var start := b.holdings;
    completed := 0;
    while completed < |keys| && fetched(keys[completed])
      invariant completed <= |keys|
      invariant b.identities == keys && b.accounts == accounts
      invariant AllFetched(keys, completed, fetched)
      invariant b.holdings == Recorded(start, Targets(keys[..completed], accounts), c, rows)
    {
      RecordIdentity(b, completed, c, rows, start);
      AllFetchedStep(keys, completed, fetched);
      completed := completed + 1;
    }
  }

  /** The first `n` identities were fetched. */
  ghost predicate AllFetched(keys: seq<string>, n: nat, fetched: string -> bool)
    requires n <= |keys|
  {
    forall j :: 0 <= j < n ==> fetched(keys[j])
  }

  lemma AllFetchedStep(keys: seq<string>, n: nat, fetched: string -> bool)
    requires n < |keys| && AllFetched(keys, n, fetched) && fetched(keys[n])
    ensures AllFetched(keys, n + 1, fetched)
  {
  }

  /** Visiting one more account of `key` appends its rows. */
  lemma RecordedNext<C>(h: map<Target, seq<Holding>>, before: seq<Target>, key: string, accts: seq<string>,
                        j: nat, c: C, rows: (C, Target) -> seq<Holding>)
    requires j < |accts|
    ensures Recorded(h, before + Pairs(key, accts[..j + 1]), c, rows)
            == Appended(Recorded(h, before + Pairs(key, accts[..j]), c, rows), (key, accts[j]), rows(c, (key, accts[j])))
  {
    var done := before + Pairs(key, accts[..j]);
    PairsStep(key, accts, j);
    assert before + Pairs(key, accts[..j + 1]) == done + [(key, accts[j])];
    assert (done + [(key, accts[j])])[..|done|] == done;
  }

  /** One identity of the holdings loop: every account of `identities[k]`,
      in order, after those of the identities before it. */
  method RecordIdentity<C>(b: Brokerage, k: nat, c: C, rows: (C, Target) -> seq<Holding>,
                           ghost start: map<Target, seq<Holding>>)
    requires k < |b.identities|
    requires b.holdings == Recorded(start, Targets(b.identities[..k], b.accounts), c, rows)
    modifies b`holdings
    ensures b.holdings == Recorded(start, Targets(b.identities[..k + 1], b.accounts), c, rows)
  {
    var keys := b.identities;
    var key := keys[k];
    var accts := b.AccountNumbers(key);
    ghost var accounts := b.accounts;
    ghost var before := Targets(keys[..k], accounts);
    assert before + Pairs(key, accts[..0]) == before;
    for j := 0 to |accts|
      invariant b.holdings == Recorded(start, before + Pairs(key, accts[..j]), c, rows)
    {
      var t := (key, accts[j]);
      b.AppendHoldings(key, accts[j], rows(c, t));
      RecordedNext(start, before, key, accts, j, c, rows);
    }
    assert accts[..|accts|] == accts;
    TargetsStep(keys, accounts, k);
  }
}
