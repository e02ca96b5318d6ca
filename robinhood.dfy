/** The Robinhood adapter: credential parsing with its TOTP convention,
    login of every credential with cross-login account de-duplication, and
    the order rules of `robinhood_transaction` (dry-run gate, limit-order
    fallback priced in whole cents, message rule).  The SDK's login, profile
    and order calls are oracles. */
module Robinhood {
  import opened Wrappers
  import opened Text
  import opened Aggregate

  datatype Credential = Credential(username: string, password: string, totp: Option<string>)

  /** The TOTP secret of a credential's fields: the third field, unless it is
      missing, empty, or "na", "none" or "false" in any letter case. */
  function TotpSecret(parts: seq<string>): (r: Option<string>)
    ensures r.Some? <==> |parts| > 2 && parts[2] != "" && Lower(parts[2]) !in {"na", "none", "false"}
    ensures r.Some? ==> r.value == parts[2]
  {
    if |parts| > 2 && parts[2] != "" && Lower(parts[2]) !in {"na", "none", "false"} then Some(parts[2])
    else None
  }

  /** A credential entry "user:password[:totp]"; fewer than two fields make
      the login call fail before it is sent. */
  function ParseCredential(entry: string): (r: Option<Credential>)
    ensures r.Some? <==> |Split(entry, ':')| >= 2
    ensures r.Some? ==> r.value.username == Split(entry, ':')[0] && r.value.password == Split(entry, ':')[1]
  {
    var parts := Split(entry, ':');
    if |parts| < 2 then None else Some(Credential(parts[0], parts[1], TotpSecret(parts)))
  }

  /** "na" written in any case means "no secret" here. */
  lemma NaIsNoSecret(user: string, password: string, secret: string)
    requires ':' !in user && ':' !in password && ':' !in secret
    requires Lower(secret) == "na"
    ensures ParseCredential(user + ":" + password + ":" + secret) == Some(Credential(user, password, None))
  {
    var entry := user + ":" + password + ":" + secret;
    var parts := [user, password, secret];
    assert parts[..2] == [user, password] && parts[..2][..1] == [user];
    assert Join(parts[..2], ':') == user + [':'] + password;
    assert Join(parts, ':') == user + [':'] + password + [':'] + secret;
    assert entry == Join(parts, ':');
    SplitJoin([user, password, secret], ':');
  }

  /** What `rh.login` returns: it raises, or gives a (possibly empty)
      record whose `access_token` may be missing. */
  datatype LoginReply = LoginRaised | LoginData(accessToken: Option<string>)

  predicate LoginSucceeded(reply: LoginReply) {
    reply.LoginData? && reply.accessToken.Some? && reply.accessToken.value != ""
  }

  /** One row of `load_account_profile`. */
  datatype Profile = Profile(number: string, cash: real, kind: string)

  function RobinhoodName(entries: seq<string>, k: nat): string
    requires k < |entries|
  {
    FirstOccurrenceName("Robinhood", entries, k)
  }

  /** No account number is registered twice, under one login or two. */
  ghost predicate AccountsUnique(accounts: map<string, seq<string>>) {
    forall id1, id2, i, j ::
      (id1 in accounts && id2 in accounts && 0 <= i < |accounts[id1]| && 0 <= j < |accounts[id2]| &&
       accounts[id1][i] == accounts[id2][j]) ==> id1 == id2 && i == j
  }

  /** Every registered account number has been seen. */
  ghost predicate Covered(accounts: map<string, seq<string>>, seen: seq<string>) {
    forall id, i :: id in accounts && 0 <= i < |accounts[id]| ==> accounts[id][i] in seen
  }

  /** Every registered account has a total and a type. */
  ghost predicate Booked(b: Brokerage)
    reads b
  {
    BookedIn(b.accounts, b.totals, b.types)
  }

  ghost predicate BookedIn(accounts: map<string, seq<string>>, totals: map<Target, real>, types: map<Target, string>) {
    forall id, i :: id in accounts && 0 <= i < |accounts[id]| ==>
      (id, accounts[id][i]) in totals && (id, accounts[id][i]) in types
  }

  /** Entry k parses and its login returns an access token. */
  predicate LogsIn(entries: seq<string>, login: (nat, Credential) -> LoginReply, k: nat)
    requires k < |entries|
  {
    ParseCredential(entries[k]).Some? && LoginSucceeded(login(k, ParseCredential(entries[k]).value))
  }

  /** Registered under a login whose credential parsed and whose login succeeded. */
  ghost predicate LoggedIn(entries: seq<string>, login: (nat, Credential) -> LoginReply, id: string, bound: nat) {
    exists k :: 0 <= k < bound && k < |entries| && id == RobinhoodName(entries, k) && LogsIn(entries, login, k)
  }

  lemma LoggedInGrows(entries: seq<string>, login: (nat, Credential) -> LoginReply, id: string, bound: nat)
    requires LoggedIn(entries, login, id, bound)
    ensures LoggedIn(entries, login, id, bound + 1)
  {
    var k :| 0 <= k < bound && k < |entries| && id == RobinhoodName(entries, k) && LogsIn(entries, login, k);
  }

  /** Every login that succeeded among the first `bound` entries holds its
      session under its name. */
  ghost predicate Sessions(entries: seq<string>, login: (nat, Credential) -> LoginReply, bound: nat,
                           handles: map<Target, Handle>)
    requires bound <= |entries|
  {
    forall k :: 0 <= k < bound && LogsIn(entries, login, k) ==>
      (RobinhoodName(entries, k), DefaultSlot) in handles &&
      handles[(RobinhoodName(entries, k), DefaultSlot)] == SessionHandle(RobinhoodName(entries, k))
  }

  // ------------------------------------------------------------------
  // Which accounts `robinhood_init` registers

  /** A loaded profile, tagged with the name of the login that loaded it. */
  type Offer = (string, Profile)

  function Tagged(name: string, rows: seq<Profile>): (r: seq<Offer>)
    ensures |r| == |rows| && forall i :: 0 <= i < |rows| ==> r[i] == (name, rows[i])
  {
    if rows == [] then [] else Tagged(name, rows[..|rows| - 1]) + [(name, rows[|rows| - 1])]
  }

  /** The profiles loaded by entry k: those of a login that succeeded and
      whose profile call answered. */
  function OfferedBy(entries: seq<string>, login: (nat, Credential) -> LoginReply,
                     profiles: nat -> Option<seq<Profile>>, k: nat): seq<Offer>
    requires k < |entries|
  {
    if LogsIn(entries, login, k) && profiles(k).Some? then Tagged(RobinhoodName(entries, k), profiles(k).value) else []
  }

  /** Every profile loaded by the first `n` entries, in loading order. */
  function Offered(entries: seq<string>, login: (nat, Credential) -> LoginReply,
                   profiles: nat -> Option<seq<Profile>>, n: nat): seq<Offer>
    requires n <= |entries|
  {
    if n == 0 then [] else Offered(entries, login, profiles, n - 1) + OfferedBy(entries, login, profiles, n - 1)
  }

  /** Offer i is the first one of its account number. */
  ghost predicate FirstOffer(offers: seq<Offer>, i: nat)
    requires i < |offers|
  {
    forall j :: 0 <= j < i ==> offers[j].1.number != offers[i].1.number
  }

  /** The first offer of every account number is registered under the name
      of its login, with its cash as total and its type. */
  ghost predicate Complete(offers: seq<Offer>, accounts: map<string, seq<string>>,
                           totals: map<Target, real>, types: map<Target, string>) {
    forall i :: 0 <= i < |offers| && FirstOffer(offers, i) ==>
      var t := (offers[i].0, offers[i].1.number);
      && t.0 in accounts && t.1 in accounts[t.0]
      && t in totals && totals[t] == offers[i].1.cash
      && t in types && types[t] == offers[i].1.kind
  }

  /** Some offer of `name` is the first offer of number n. */
  ghost predicate FirstOfferOf(offers: seq<Offer>, name: string, n: string) {
    exists i :: 0 <= i < |offers| && FirstOffer(offers, i) && offers[i].0 == name && offers[i].1.number == n
  }

  /** Every registered account is the first offer of its number. */
  ghost predicate Sound(offers: seq<Offer>, accounts: map<string, seq<string>>) {
    forall id, j :: id in accounts && 0 <= j < |accounts[id]| ==> FirstOfferOf(offers, id, accounts[id][j])
  }

  /** Some offer carries number n. */
  ghost predicate Offers(offers: seq<Offer>, n: string) {
    exists i :: 0 <= i < |offers| && offers[i].1.number == n
  }

  /** `all_account_numbers` holds exactly the numbers offered so far. */
  ghost predicate SeenExactly(offers: seq<Offer>, seen: seq<string>) {
    forall x :: x in seen <==> Offers(offers, x)
  }

  /** Every offered number has a first offer. */
  lemma {:induction false} FirstOfferExists(offers: seq<Offer>, i: nat)
    requires i < |offers|
    ensures exists f :: 0 <= f <= i && FirstOffer(offers, f) && offers[f].1.number == offers[i].1.number
    decreases i
  {
    if !FirstOffer(offers, i) {
      var j :| 0 <= j < i && offers[j].1.number == offers[i].1.number;
      FirstOfferExists(offers, j);
    }
  }

  /** Every loaded profile's account number is registered, under some login. */
  lemma OfferRegistered(offers: seq<Offer>, accounts: map<string, seq<string>>,
                        totals: map<Target, real>, types: map<Target, string>, i: nat)
    requires i < |offers| && Complete(offers, accounts, totals, types)
    ensures exists id :: id in accounts && offers[i].1.number in accounts[id]
  {
    FirstOfferExists(offers, i);
    var f :| 0 <= f <= i && FirstOffer(offers, f) && offers[f].1.number == offers[i].1.number;
    assert offers[f].0 in accounts && offers[f].1.number in accounts[offers[f].0];
  }

  /** A complete and sound registry books every account. */
  lemma RegistryBooked(offers: seq<Offer>, accounts: map<string, seq<string>>,
                       totals: map<Target, real>, types: map<Target, string>)
    requires Complete(offers, accounts, totals, types) && Sound(offers, accounts)
    ensures BookedIn(accounts, totals, types)
  {
    forall id, j | id in accounts && 0 <= j < |accounts[id]|
      ensures (id, accounts[id][j]) in totals && (id, accounts[id][j]) in types
    {
      assert FirstOfferOf(offers, id, accounts[id][j]);
      var i :| 0 <= i < |offers| && FirstOffer(offers, i) && offers[i].0 == id && offers[i].1.number == accounts[id][j];
    }
  }

  /** Registered numbers are seen numbers. */
  lemma SoundCovered(offers: seq<Offer>, accounts: map<string, seq<string>>, seen: seq<string>)
    requires Sound(offers, accounts) && SeenExactly(offers, seen)
    ensures Covered(accounts, seen)
  {
    forall id, j | id in accounts && 0 <= j < |accounts[id]| ensures accounts[id][j] in seen {
      assert FirstOfferOf(offers, id, accounts[id][j]);
      var i :| 0 <= i < |offers| && FirstOffer(offers, i) && offers[i].0 == id && offers[i].1.number == accounts[id][j];
      assert Offers(offers, accounts[id][j]);
    }
  }

  /** Appending an offer leaves the earlier offers and which of them come
      first. */
  lemma OfferPrefix(offers: seq<Offer>, o: Offer)
    ensures forall i :: 0 <= i < |offers| ==> (offers + [o])[i] == offers[i] && FirstOffer(offers + [o], i) == FirstOffer(offers, i)
    ensures forall n, name :: FirstOfferOf(offers, name, n) ==> FirstOfferOf(offers + [o], name, n)
    ensures forall n :: Offers(offers + [o], n) <==> Offers(offers, n) || n == o.1.number
  {
    var os := offers + [o];
    forall i | 0 <= i < |offers| ensures FirstOffer(os, i) == FirstOffer(offers, i) {
      assert forall j :: 0 <= j <= i ==> os[j] == offers[j];
    }
    forall n, name | FirstOfferOf(offers, name, n) ensures FirstOfferOf(os, name, n) {
      var i :| 0 <= i < |offers| && FirstOffer(offers, i) && offers[i].0 == name && offers[i].1.number == n;
      assert os[i] == offers[i];
    }
    forall n | Offers(os, n) ensures Offers(offers, n) || n == o.1.number {
      var i :| 0 <= i < |os| && os[i].1.number == n;
      if i < |offers| {
        assert offers[i] == os[i];
      }
    }
    assert os[|offers|] == o;
  }

  /** Offering a number already seen changes nothing registered. */
  lemma OfferSeen(offers: seq<Offer>, accounts: map<string, seq<string>>, totals: map<Target, real>,
                  types: map<Target, string>, seen: seq<string>, o: Offer)
    requires Complete(offers, accounts, totals, types) && Sound(offers, accounts) && SeenExactly(offers, seen)
    requires o.1.number in seen
    ensures Complete(offers + [o], accounts, totals, types) && Sound(offers + [o], accounts)
    ensures SeenExactly(offers + [o], seen)
  {
    var os := offers + [o];
    OfferPrefix(offers, o);
    assert !FirstOffer(os, |offers|) by {
      assert Offers(offers, o.1.number);
      var j :| 0 <= j < |offers| && offers[j].1.number == o.1.number;
      assert os[j].1.number == os[|offers|].1.number;
    }
  }

  /** Appending a number never seen keeps every number registered once. */
  lemma AddFreshAccount(accounts: map<string, seq<string>>, seen: seq<string>, name: string, n: string)
    requires AccountsUnique(accounts) && Covered(accounts, seen) && n !in seen
    ensures AccountsUnique(accounts[name := AccountsOf(accounts, name) + [n]])
  {
  }

  /** Offering a new number registers it under the offer's name with its
      cash and type, keeping every earlier registration. */
  lemma OfferFresh(offers: seq<Offer>, accounts: map<string, seq<string>>, totals: map<Target, real>,
                   types: map<Target, string>, seen: seq<string>, o: Offer)
    requires AccountsUnique(accounts) && Complete(offers, accounts, totals, types) && Sound(offers, accounts)
    requires SeenExactly(offers, seen) && o.1.number !in seen
    ensures var accounts' := accounts[o.0 := AccountsOf(accounts, o.0) + [o.1.number]];
            && AccountsUnique(accounts')
            && Complete(offers + [o], accounts', totals[(o.0, o.1.number) := o.1.cash], types[(o.0, o.1.number) := o.1.kind])
            && Sound(offers + [o], accounts')
            && SeenExactly(offers + [o], seen + [o.1.number])
  {
    SoundCovered(offers, accounts, seen);
    AddFreshAccount(accounts, seen, o.0, o.1.number);
    OfferPrefix(offers, o);
    var os := offers + [o];
    assert FirstOffer(os, |offers|) by {
      forall j | 0 <= j < |offers| ensures os[j].1.number != o.1.number {
        assert Offers(offers, os[j].1.number);
      }
    }
    FreshComplete(offers, accounts, totals, types, seen, o);
    FreshSound(offers, accounts, o);
  }

  lemma FreshComplete(offers: seq<Offer>, accounts: map<string, seq<string>>, totals: map<Target, real>,
                      types: map<Target, string>, seen: seq<string>, o: Offer)
    requires Complete(offers, accounts, totals, types) && SeenExactly(offers, seen) && o.1.number !in seen
    requires forall i :: 0 <= i < |offers| ==> (offers + [o])[i] == offers[i] && FirstOffer(offers + [o], i) == FirstOffer(offers, i)
    ensures Complete(offers + [o], accounts[o.0 := AccountsOf(accounts, o.0) + [o.1.number]],
                     totals[(o.0, o.1.number) := o.1.cash], types[(o.0, o.1.number) := o.1.kind])
  {
    var os := offers + [o];
    var accounts' := accounts[o.0 := AccountsOf(accounts, o.0) + [o.1.number]];
    forall i | 0 <= i < |offers| ensures offers[i].1.number != o.1.number {
      assert Offers(offers, offers[i].1.number);
    }
    forall i | 0 <= i < |os| && FirstOffer(os, i)
      ensures os[i].0 in accounts' && os[i].1.number in accounts'[os[i].0]
    {
      if i < |offers| {
        assert offers[i].1.number in accounts[offers[i].0];
      } else {
        assert os[i] == o;
      }
    }
  }

  lemma FreshSound(offers: seq<Offer>, accounts: map<string, seq<string>>, o: Offer)
    requires Sound(offers, accounts)
    requires forall n, name :: FirstOfferOf(offers, name, n) ==> FirstOfferOf(offers + [o], name, n)
    requires FirstOffer(offers + [o], |offers|)
    ensures Sound(offers + [o], accounts[o.0 := AccountsOf(accounts, o.0) + [o.1.number]])
  {
    var os := offers + [o];
    var accounts' := accounts[o.0 := AccountsOf(accounts, o.0) + [o.1.number]];
    forall id, j | id in accounts' && 0 <= j < |accounts'[id]| ensures FirstOfferOf(os, id, accounts'[id][j]) {
      if id == o.0 && j == |AccountsOf(accounts, o.0)| {
        assert os[|offers|] == o;
      } else {
        assert id in accounts && accounts'[id][j] == accounts[id][j];
        assert FirstOfferOf(offers, id, accounts[id][j]);
      }
    }
  }

  /** `robinhood_init`.  `login(k, c)` is the SDK's answer to the k-th
      login, `profiles(k)` the account profiles it then loads (None when that
      call fails). */
  method RobinhoodInit(external: Option<string>, env: Option<string>,
                       login: (nat, Credential) -> LoginReply, profiles: nat -> Option<seq<Profile>>)
    returns (r: Option<Brokerage>)
    ensures r.None? <==> !Configured(external, env)
    ensures r.Some? ==> fresh(r.value) && r.value.Valid() && r.value.name == "Robinhood"
    ensures r.Some? ==>
              var entries := CredentialEntries(external, env);
              var offers := Offered(entries, login, profiles, |entries|);
              && Complete(offers, r.value.accounts, r.value.totals, r.value.types)
              && Sound(offers, r.value.accounts)
              && Sessions(entries, login, |entries|, r.value.handles)
    ensures r.Some? ==> AccountsUnique(r.value.accounts) && Booked(r.value)
    ensures r.Some? ==> forall id :: id in r.value.identities ==>
                          LoggedIn(CredentialEntries(external, env), login, id, |CredentialEntries(external, env)|)
  {
    if !Configured(external, env) {
      return None;
    }
    var entries := CredentialEntries(external, env);
    var b := new Brokerage("Robinhood");
    var seen: seq<string> := [];
    for k := 0 to |entries|
      invariant fresh(b) && b.Valid() && b.name == "Robinhood"
      invariant AccountsUnique(b.accounts)
      invariant Registry(Offered(entries, login, profiles, k), b, seen)
      invariant Sessions(entries, login, k, b.handles)
      invariant forall id :: id in b.identities ==> LoggedIn(entries, login, id, k)
    {
      seen := LogInEntry(b, entries, k, login, profiles, seen);
    }
    RegistryBooked(Offered(entries, login, profiles, |entries|), b.accounts, b.totals, b.types);
    return Some(b);
  }

  /** The registry of `b` agrees with the offers so far. */
  ghost predicate Registry(offers: seq<Offer>, b: Brokerage, seen: seq<string>)
    reads b
  {
    Complete(offers, b.accounts, b.totals, b.types) && Sound(offers, b.accounts) && SeenExactly(offers, seen)
  }

  /** The body of `robinhood_init`'s loop for entry k: parse, log in, and on
      success store the session and register the loaded accounts.  Any
      failure skips the entry. */
  method LogInEntry(b: Brokerage, entries: seq<string>, k: nat,
                    login: (nat, Credential) -> LoginReply, profiles: nat -> Option<seq<Profile>>,
                    seen: seq<string>)
    returns (seen': seq<string>)
    requires k < |entries|
    requires b.Valid() && AccountsUnique(b.accounts) && Registry(Offered(entries, login, profiles, k), b, seen)
    requires Sessions(entries, login, k, b.handles)
    requires forall id :: id in b.identities ==> LoggedIn(entries, login, id, k)
    modifies b`identities, b`accounts, b`totals, b`types, b`handles
    ensures b.Valid() && AccountsUnique(b.accounts) && Registry(Offered(entries, login, profiles, k + 1), b, seen')
    ensures Sessions(entries, login, k + 1, b.handles)
    ensures forall id :: id in b.identities ==> LoggedIn(entries, login, id, k + 1)
    ensures !LogsIn(entries, login, k) ==>
              b.identities == old(b.identities) && b.accounts == old(b.accounts) && b.handles == old(b.handles)
  {
    ghost var offers := Offered(entries, login, profiles, k);
    seen' := seen;
    forall id | id in b.identities ensures LoggedIn(entries, login, id, k + 1) {
      LoggedInGrows(entries, login, id, k);
    }
    var name := RobinhoodName(entries, k);
    var credential := ParseCredential(entries[k]);
    if credential.None? || !LoginSucceeded(login(k, credential.value)) {
      assert Offered(entries, login, profiles, k + 1) == offers;
      return;
    }
    assert LoggedIn(entries, login, name, k + 1);
    ghost var handles := b.handles;
    seen' := OpenSession(b, name, profiles(k), seen, offers);
    assert Offered(entries, login, profiles, k + 1) == offers + OfferedBy(entries, login, profiles, k);
    SessionsStep(entries, login, k, handles);
  }

  /** Storing the session of entry k keeps every earlier session. */
  lemma SessionsStep(entries: seq<string>, login: (nat, Credential) -> LoginReply, k: nat,
                     handles: map<Target, Handle>)
    requires k < |entries| && LogsIn(entries, login, k) && Sessions(entries, login, k, handles)
    ensures var name := RobinhoodName(entries, k);
            Sessions(entries, login, k + 1, handles[(name, DefaultSlot) := SessionHandle(name)])
  {
  }

  /** After a successful login: the session is stored under the identity,
      then the profiles that loaded are registered. */
  method OpenSession(b: Brokerage, name: string, rows: Option<seq<Profile>>, seen: seq<string>,
                     ghost offers: seq<Offer>)
    returns (seen': seq<string>)
    requires b.Valid() && AccountsUnique(b.accounts) && Registry(offers, b, seen)
    modifies b`identities, b`accounts, b`totals, b`types, b`handles
    ensures b.Valid() && AccountsUnique(b.accounts)
    ensures Registry(offers + (if rows.Some? then Tagged(name, rows.value) else []), b, seen')
    ensures b.identities == old(b.identities) || b.identities == old(b.identities) + [name]
    ensures b.handles == old(b.handles)[(name, DefaultSlot) := SessionHandle(name)]
  {
    seen' := seen;
    b.SetLoggedInObject(name, SessionHandle(name), DefaultSlot);
    if rows.None? {
      assert offers + [] == offers;
      return;
    }
    seen' := RegisterProfiles(b, name, rows.value, seen, offers);
  }

  /** The profile loop of `robinhood_init`: an account number already seen
      in this run is skipped. */
  method RegisterProfiles(b: Brokerage, name: string, rows: seq<Profile>, seen: seq<string>,
                          ghost offers: seq<Offer>)
    returns (seen': seq<string>)
    requires b.Valid() && AccountsUnique(b.accounts) && Registry(offers, b, seen)
    modifies b`identities, b`accounts, b`totals, b`types
    ensures b.Valid() && AccountsUnique(b.accounts) && Registry(offers + Tagged(name, rows), b, seen')
    ensures b.identities == old(b.identities) || b.identities == old(b.identities) + [name]
  {
    seen' := seen;
    assert offers + Tagged(name, rows[..0]) == offers;
    for i := 0 to |rows|
      invariant b.Valid() && AccountsUnique(b.accounts) && Registry(offers + Tagged(name, rows[..i]), b, seen')
      invariant b.identities == old(b.identities) || b.identities == old(b.identities) + [name]
    {
      ghost var done := offers + Tagged(name, rows[..i]);
      seen' := RegisterProfile(b, name, rows[i], seen', done);
      assert done + [(name, rows[i])] == offers + Tagged(name, rows[..i + 1]);
    }
    assert rows[..|rows|] == rows;
  }

  /** One profile: an account number already seen is skipped, a new one is
      registered under `name` with its cash and its type. */
  method RegisterProfile(b: Brokerage, name: string, a: Profile, seen: seq<string>, ghost offers: seq<Offer>)
    returns (seen': seq<string>)
    requires b.Valid() && AccountsUnique(b.accounts) && Registry(offers, b, seen)
    modifies b`identities, b`accounts, b`totals, b`types
    ensures b.Valid() && AccountsUnique(b.accounts) && Registry(offers + [(name, a)], b, seen')
    ensures a.number in seen ==>
              && seen' == seen && b.identities == old(b.identities) && b.accounts == old(b.accounts)
              && b.totals == old(b.totals) && b.types == old(b.types)
    ensures a.number !in seen ==>
              && seen' == seen + [a.number]
              && b.accounts == old(b.accounts)[name := AccountsOf(old(b.accounts), name) + [a.number]]
              && b.totals == old(b.totals)[(name, a.number) := a.cash]
              && b.types == old(b.types)[(name, a.number) := a.kind]
              && b.identities == if name in old(b.identities) then old(b.identities) else old(b.identities) + [name]
  {
    if a.number in seen {
      OfferSeen(offers, b.accounts, b.totals, b.types, seen, (name, a));
      return seen;
    }
    ghost var accounts, totals, types := b.accounts, b.totals, b.types;
    OfferFresh(offers, accounts, totals, types, seen, (name, a));
    seen' := seen + [a.number];
    b.SetAccountNumber(name, a.number);
    b.SetAccountTotals(name, a.number, a.cash);
    b.SetAccountType(name, a.number, a.kind);
    assert b.accounts == accounts[name := AccountsOf(accounts, name) + [a.number]];
  }

  // ------------------------------------------------------------------
  // Orders

  /** The limit price of the fallback order, in cents: one cent above the
      higher quote for "buy" (compared case-sensitively), one cent below the
      lower quote for every other action. */
  function LimitPrice(action: string, ask: int, bid: int): (r: int)
    ensures action == "buy" ==> r > ask && r > bid && (r == ask + 1 || r == bid + 1)
    ensures action != "buy" ==> r < ask && r < bid && (r == ask - 1 || r == bid - 1)
  {
    if action == "buy" then (if ask > bid then ask else bid) + 1
    else (if ask < bid then ask else bid) - 1
  }

  /** What `rh.order` returns: it raises, returns None, or returns a record
      whose `non_field_errors` may be set. */
  datatype OrderReply = OrderRaised | NoOrder | Placed(nonFieldErrors: Option<string>)

  datatype Attempt = MarketOrder | LimitOrder(cents: int)

  datatype Outcome =
    | DryRun             // "Running in DRY mode" notice, nothing sent
    | Reported(message: string)
    | LimitRefused       // the limit order also returned None
    | NoQuote            // a quote was missing: account skipped
    | Raised

  datatype Report = Report(identity: string, account: string, stock: string,
                           attempts: seq<Attempt>, outcome: Outcome)

  /** The SDK's answers, per stock and account. */
  datatype Desk = Desk(order: Order,
                       market: (string, Target) -> OrderReply,
                       ask: (string, Target) -> Option<int>,
                       bid: (string, Target) -> Option<int>,
                       limit: (string, Target, int) -> OrderReply)

  function Message(nonFieldErrors: Option<string>): (r: string)
    ensures nonFieldErrors.None? ==> r == "Success"
    ensures nonFieldErrors.Some? ==> r == nonFieldErrors.value
  {
    if nonFieldErrors.None? then "Success" else nonFieldErrors.value
  }

  function Answer(reply: OrderReply): Outcome
    requires !reply.NoOrder?
  {
    if reply.OrderRaised? then Raised else Reported(Message(reply.nonFieldErrors))
  }

  /** One stock in one account. */
  function RobinhoodStep(d: Desk, s: string, t: Target): (r: Report)
    ensures r.identity == t.0 && r.account == t.1 && r.stock == s
    ensures d.order.dry <==> r.outcome == DryRun
    ensures d.order.dry ==> r.attempts == []
    ensures !d.order.dry ==> |r.attempts| >= 1 && r.attempts[0] == MarketOrder
    ensures |r.attempts| == 2 <==>
              !d.order.dry && d.market(s, t) == NoOrder && d.ask(s, t).Some? && d.bid(s, t).Some?
    ensures |r.attempts| == 2 ==>
              r.attempts[1] == LimitOrder(LimitPrice(d.order.action, d.ask(s, t).value, d.bid(s, t).value))
    ensures |r.attempts| <= 2
    ensures r.outcome == NoQuote <==>
              !d.order.dry && d.market(s, t) == NoOrder && (d.ask(s, t).None? || d.bid(s, t).None?)
  {
    if d.order.dry then Report(t.0, t.1, s, [], DryRun)
    else
      match d.market(s, t)
      case NoOrder =>
        var ask := d.ask(s, t);
        var bid := d.bid(s, t);
        if ask.None? || bid.None? then Report(t.0, t.1, s, [MarketOrder], NoQuote)
        else
          var price := LimitPrice(d.order.action, ask.value, bid.value);
          var attempts := [MarketOrder, LimitOrder(price)];
          var reply := d.limit(s, t, price);
          Report(t.0, t.1, s, attempts, if reply.NoOrder? then LimitRefused else Answer(reply))
      case _ => Report(t.0, t.1, s, [MarketOrder], Answer(d.market(s, t)))
  }

  /** `robinhood_transaction`: one report per stock and account. */
  method RobinhoodTransaction(b: Brokerage, d: Desk) returns (reports: seq<Report>)
    ensures reports == Sweep(d, d.order.stocks, Targets(b.identities, b.accounts), RobinhoodStep)
  {
    reports := FanOut(b, d, d.order.stocks, RobinhoodStep);
  }

  /** A dry run sends no order at all, in any account. */
  lemma DryRunSendsNothing(d: Desk, targets: seq<Target>, rep: Report)
    requires d.order.dry && rep in Sweep(d, d.order.stocks, targets, RobinhoodStep)
    ensures rep.attempts == [] && rep.outcome == DryRun
  {
    SweepMember(d, d.order.stocks, targets, RobinhoodStep, rep);
  }

  /** A live report says "Success" exactly when the order that answered
      carried no `non_field_errors`, or carried the text "Success" there. */
  lemma SuccessMessage(reply: OrderReply)
    requires reply.Placed?
    ensures Answer(reply) == Reported("Success") <==>
            reply.nonFieldErrors.None? || reply.nonFieldErrors == Some("Success")
  {
  }
}
