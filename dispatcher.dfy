/** The command-line and chat-bot dispatcher: argument parsing into the
    module-level settings, the broker routing table used both to initialise
    adapters and to place orders, the holdings routing table, the
    market-hours test with its countdown, and the order fan-out. */
module Dispatcher {
  import opened Wrappers
  import opened Text

  /** The broker tokens the command line accepts. */
  const Brokerages: seq<string> :=
    ["all", "ally", "fidelity", "robinhood", "rh", "schwab", "webull", "wb", "tradier"]

  datatype Adapter = Ally | Robinhood | Schwab | Webull | Tradier

  const AllAdapters: seq<Adapter> := [Ally, Robinhood, Schwab, Webull, Tradier]

  /** Why the process ends with exit status 1 before dispatching anything.
      `MissingArgument` and `Unbound` are the IndexError and NameError that
      escape the module-level code. */
  datatype Failure =
    | InvalidAmount
    | MissingArgument(index: nat)
    | Unbound(name: string)
    | NoArgumentsNoToken

  /** What the module-level argument handling settles on. */
  datatype Parse =
    | OrderMode(action: string, amount: int, stock: string, broker: string, dry: bool)
    | HoldingsMode(broker: string)
    | BotMode
    | Stop(failure: Failure)

  /** The first branch of the argument handling: an order request. */
  predicate OrderArgs(argv: seq<string>) {
    |argv| > 1 && argv[1] != "holdings"
  }

  /** The second branch: `holdings <broker>` and nothing else. */
  predicate HoldingsArgs(argv: seq<string>) {
    |argv| == 3 && argv[1] == "holdings"
  }

  /** The argument handling of the script (argv[0] is the script name).
      `singleBroker` and `dry` start unbound, as the globals do. */
  method ParseCommandLine(argv: seq<string>, hasToken: bool) returns (r: Parse)
    ensures OrderArgs(argv) && |argv| < 3 ==> r == Stop(MissingArgument(2))
    ensures OrderArgs(argv) && |argv| >= 3 && ParseInt(argv[2]).None? ==> r == Stop(InvalidAmount)
    ensures OrderArgs(argv) && 3 <= |argv| < 5 && ParseInt(argv[2]).Some? ==> r == Stop(MissingArgument(|argv|))
    ensures r.OrderMode? <==>
              && OrderArgs(argv) && |argv| >= 5 && ParseInt(argv[2]).Some?
              && (Lower(argv[4]) == "dry" || (Lower(argv[4]) in Brokerages && |argv| > 5))
    ensures r.OrderMode? ==>
              && r.action == Lower(argv[1]) && ParseInt(argv[2]) == Some(r.amount)
              && r.stock == Upper(argv[3]) && r.broker in Brokerages
              && r.broker == (if Lower(argv[4]) == "dry" then "all" else Lower(argv[4]))
              && r.dry == (if |argv| > 5 then Lower(argv[5]) == "dry" else true)
    ensures (OrderArgs(argv) && |argv| >= 5 && ParseInt(argv[2]).Some? &&
             Lower(argv[4]) != "dry" && Lower(argv[4]) !in Brokerages) ==> r == Stop(Unbound("single_broker"))
    ensures (OrderArgs(argv) && |argv| == 5 && ParseInt(argv[2]).Some? &&
             Lower(argv[4]) != "dry" && Lower(argv[4]) in Brokerages) ==> r == Stop(Unbound("DRY"))
    ensures r.HoldingsMode? <==> HoldingsArgs(argv)
    ensures r.HoldingsMode? ==> r.broker == Lower(argv[2])
    ensures r.BotMode? <==> !OrderArgs(argv) && !HoldingsArgs(argv) && hasToken
    ensures r == Stop(NoArgumentsNoToken) <==> !OrderArgs(argv) && !HoldingsArgs(argv) && !hasToken
  {
    var cliMode: bool;
    var shouldGetHoldings: bool;
    var singleBroker: Option<string> := None;
    var dry: Option<bool> := None;
    var action, amount, stock := "", 0, "";
    if |argv| > 1 && argv[1] != "holdings" {
      action := Lower(argv[1]);
      if |argv| <= 2 {
        // int(sys.argv[2]) raises, and so does the handler's own sys.argv[2]
        return Stop(MissingArgument(2));
      }
      var parsed := ParseInt(argv[2]);
      if parsed.None? {
        // the "all" alternative is guarded by `sys.argv[2] is type(str)`,
        // which compares a string with the class `str` and is never true
        return Stop(InvalidAmount);
      }
      amount := parsed.value;
      if |argv| <= 3 {
        return Stop(MissingArgument(3));
      }
      stock := Upper(argv[3]);
      if |argv| <= 4 {
        return Stop(MissingArgument(4));
      }
      var flag := Lower(argv[4]);
      if flag == "dry" && flag !in Brokerages {
        dry := Some(true);
        singleBroker := Some("all");
      } else if flag in Brokerages {
        singleBroker := Some(flag);
      }
      if |argv| > 5 {
        dry := Some(Lower(argv[5]) == "dry");
      }
      // the settings are printed next: broker first, then DRY
      if singleBroker.None? {
        return Stop(Unbound("single_broker"));
      }
      if dry.None? {
        return Stop(Unbound("DRY"));
      }
      cliMode := true;
      shouldGetHoldings := false;
    } else if |argv| == 3 && argv[1] == "holdings" {
      singleBroker := Some(Lower(argv[2]));
      shouldGetHoldings := true;
      cliMode := true;
    } else {
      cliMode := false;
      shouldGetHoldings := false;
    }
    var discord := hasToken && !cliMode;
    if !cliMode && !shouldGetHoldings && !discord {
      return Stop(NoArgumentsNoToken);
    }
    if !cliMode {
      return BotMode;
    }
    if shouldGetHoldings {
      return HoldingsMode(singleBroker.value);
    }
    return OrderMode(action, amount, stock, singleBroker.value, dry.value);
  }

  /** An amount of "all" on the command line is refused like any other word. */
  lemma AllAmountRefused(argv: seq<string>)
    requires OrderArgs(argv) && |argv| >= 3 && argv[2] == "all"
    ensures ParseInt(argv[2]) == None
  {
    assert !IsSpace('a') && !IsSpace('l');
    StripUnchanged(argv[2]);
    assert !IsDigits(argv[2]) by {
      assert argv[2][0] == 'a';
    }
  }

  /** The broker table shared by adapter initialisation and order placement:
      the adapters a broker token selects, in order, or `None` for an unknown
      token.  "fidelity" is accepted but selects nothing. */
  function Route(broker: string): (r: Option<seq<Adapter>>)
    ensures r.Some? <==> broker in Brokerages
    ensures r == Some(AllAdapters) <==> broker == "all"
    ensures r == Some([Robinhood]) <==> broker == "robinhood" || broker == "rh"
    ensures r == Some([Webull]) <==> broker == "webull" || broker == "wb"
    ensures r == Some([]) <==> broker == "fidelity"
    ensures r.Some? && broker != "all" ==> |r.value| <= 1
  {
    if broker == "all" then Some(AllAdapters)
    else if broker == "ally" then Some([Ally])
    else if broker == "fidelity" then Some([])
    else if broker == "robinhood" || broker == "rh" then Some([Robinhood])
    else if broker == "schwab" then Some([Schwab])
    else if broker == "webull" || broker == "wb" then Some([Webull])
    else if broker == "tradier" then Some([Tradier])
    else None
  }

  /** The holdings table: the same tokens as `Route` except "all", which is
      refused (the caller then exits with status 1). */
  function HoldingsRoute(account: string): (r: Option<seq<Adapter>>)
    ensures r.Some? <==> Lower(account) in Brokerages && Lower(account) != "all"
    ensures r.Some? ==> r == Route(Lower(account)) && |r.value| <= 1
  {
    var a := Lower(account);
    if a == "all" then None else Route(a)
  }

  // ------------------------------------------------------------------
  // Market clock

  /** A wall-clock reading: what `datetime.now()` contributes. */
  datatype Clock = Clock(hour: int, minute: int, second: int, micro: int)

  function Micros(c: Clock): int {
    ((c.hour * 60 + c.minute) * 60 + c.second) * 1000000 + c.micro
  }

  /** `now.replace(hour=h, minute=m)`: seconds and microseconds are kept. */
  function Replace(c: Clock, h: int, m: int): Clock {
    Clock(h, m, c.second, c.micro)
  }

  /** `MARKET_OPEN < now < MARKET_CLOSE`.  Because both bounds keep the
      current seconds, the market counts as open exactly from 9:31 through
      15:59 (whole minutes). */
  function IsMarketHours(now: Clock): (r: bool)
    ensures r <==> 9 * 60 + 31 <= now.hour * 60 + now.minute <= 15 * 60 + 59
  {
    Micros(Replace(now, 9, 30)) < Micros(now) < Micros(Replace(now, 16, 0))
  }

  datatype Countdown = Countdown(open: bool, hours: int, minutes: int)

  /** `int(divmod(s, 3600)[0])` and `int(divmod(s, 60)[0]) - hours * 60`
      for a difference of `d` microseconds (floor division). */
  function HoursMinutes(d: int): (r: (int, int))
    ensures 0 <= r.1 < 60
    ensures (3600 * r.0 + 60 * r.1) * 1000000 <= d < (3600 * r.0 + 60 * r.1 + 60) * 1000000
  {
    var h := d / 3600000000;
    var m := d / 60000000 - h * 60;
    MinutesOfHour(d);
    (h, m)
  }

  /** The whole minutes left over after the whole hours of `d` microseconds
      number 0 to 59 (both divisions are floor divisions). */
  lemma MinutesOfHour(d: int)
    ensures 0 <= d / 60000000 - (d / 3600000000) * 60 < 60
    ensures d / 60000000 * 60000000 <= d < d / 60000000 * 60000000 + 60000000
  {
    var h := d / 3600000000;
    var q := d / 60000000;
    assert d == h * 3600000000 + d % 3600000000;
    assert d == q * 60000000 + d % 60000000;
    var x := q - h * 60;
    assert x * 60000000 == d % 3600000000 - d % 60000000;
  }

  /** The `market` command's countdown: to the close while the market is
      open, otherwise to today's 9:30 opening, so after the close the hours
      come out negative. */
  function MarketCountdown(now: Clock): (r: Countdown)
    ensures r.open <==> IsMarketHours(now)
    ensures 0 <= r.minutes < 60
    ensures 60 * r.hours + r.minutes ==
            (if r.open then 16 * 60 else 9 * 60 + 30) - (now.hour * 60 + now.minute)
    ensures r.open ==> 0 <= r.hours <= 6
    ensures !r.open && now.hour * 60 + now.minute >= 16 * 60 ==> r.hours < 0
  {
    if IsMarketHours(now) then
      var hm := HoursMinutes(Micros(Replace(now, 16, 0)) - Micros(now));
      Countdown(true, hm.0, hm.1)
    else
      var hm := HoursMinutes(Micros(Replace(now, 9, 30)) - Micros(now));
      Countdown(false, hm.0, hm.1)
  }

  // ------------------------------------------------------------------
  // Order dispatch

  /** The amount as `place_order` receives it: already an integer from the
      command line, the raw word from the chat bot. */
  datatype AmountArg = Number(n: int) | Word(w: string)

  function AmountValue(a: AmountArg): Option<int> {
    match a
    case Number(n) => Some(n)
    case Word(w) => ParseInt(w)
  }

  /** How `place_order` ends.  `Escaped` is an exception leaving it: without
      a chat context the error handler's own `ctx.send` raises. */
  datatype Report =
    | MarketClosed
    | Placed(unit: string)
    | InvalidBrokerReported
    | OrderError
    | Escaped

  datatype Dispatch = Dispatch(attempted: seq<Adapter>, dry: bool, report: Report)

  /** Calls the adapters in order inside one `try`: the first that raises is
      the last attempted.  Returns the attempted adapters and whether one raised. */
  function RunAdapters(route: seq<Adapter>, raises: Adapter -> bool): (r: (seq<Adapter>, bool))
    ensures |r.0| <= |route| && r.0 == route[..|r.0|]
    ensures r.1 <==> exists a :: a in route && raises(a)
    ensures !r.1 ==> r.0 == route
    ensures r.1 ==> |r.0| > 0 && raises(r.0[|r.0| - 1])
    ensures forall j :: 0 <= j < |r.0| - 1 ==> !raises(r.0[j])
  {
    if route == [] then ([], false)
    else if raises(route[0]) then ([route[0]], true)
    else
      var rest := RunAdapters(route[1..], raises);
      assert forall a :: a in route ==> a == route[0] || a in route[1..];
      ([route[0]] + rest.0, rest.1)
  }

  /** "share" for one, "shares" for more. */
  function Unit(amount: int): string {
    if amount > 1 then "shares" else "share"
  }

  /** `place_order`: nothing is dispatched while the market is closed; when
      it is open the amount is converted, the broker routed, and the routed
      adapters called in order until one raises. */
  function PlaceOrder(action: string, amount: AmountArg, stock: string, broker: string,
                      dry: bool, hasCtx: bool, now: Clock, raises: Adapter -> bool): (r: Dispatch)
    ensures !IsMarketHours(now) ==> r == Dispatch([], dry, MarketClosed)
    ensures r.dry == dry
    ensures r.attempted != [] ==>
              && IsMarketHours(now) && AmountValue(amount).Some? && Route(Lower(broker)).Some?
              && |r.attempted| <= |Route(Lower(broker)).value|
              && r.attempted == Route(Lower(broker)).value[..|r.attempted|]
    ensures IsMarketHours(now) && AmountValue(amount).Some? && Lower(broker) == "all" ==>
              (r.report.Placed? <==> forall a :: a in AllAdapters ==> !raises(a))
    ensures r.report.Placed? ==>
              Route(Lower(broker)).Some? && r.attempted == Route(Lower(broker)).value &&
              AmountValue(amount).Some? &&
              r.report.unit == (if AmountValue(amount).value > 1 then "shares" else "share")
    ensures r.report == Escaped ==> !hasCtx
    ensures r.report == OrderError ==> hasCtx
    ensures r.report != Escaped && r.report != OrderError ==> forall a :: a in r.attempted ==> !raises(a)
  {
    if !IsMarketHours(now) then Dispatch([], dry, MarketClosed)
    else
      var fail := if hasCtx then OrderError else Escaped;
      match AmountValue(amount)
      case None => Dispatch([], dry, fail)
      case Some(n) =>
        match Route(Lower(broker))
        case None => Dispatch([], dry, if hasCtx then InvalidBrokerReported else Escaped)
        case Some(adapters) =>
          var run := RunAdapters(adapters, raises);
          Dispatch(run.0, dry, if run.1 then fail else Placed(Unit(n)))
  }

  /** An adapter that raises is the last one `RunAdapters` can reach. */
  lemma RunAdaptersStops(route: seq<Adapter>, raises: Adapter -> bool, k: nat)
    requires k < |route| && raises(route[k])
    ensures |RunAdapters(route, raises).0| <= k + 1
  {
  }

  /** "All" stops at the first adapter that raises: the adapters called are
      the first ones of the route, up to and including the one that raised,
      so the later ones are never called. */
  lemma AllStopsAtFirstFailure(action: string, amount: int, stock: string, dry: bool,
                               hasCtx: bool, now: Clock, raises: Adapter -> bool, k: nat)
    requires IsMarketHours(now)
    requires k < |AllAdapters| && raises(AllAdapters[k])
    ensures var attempted := PlaceOrder(action, Number(amount), stock, "all", dry, hasCtx, now, raises).attempted;
            attempted == AllAdapters[..|attempted|] && |attempted| <= k + 1
  {
    assert Lower("all") == "all";
    RunAdaptersStops(AllAdapters, raises, k);
  }

  /** The chat bot's dry argument: "dry" or "true" in any case. */
  function RsaDryFlag(word: string): bool {
    Lower(word) == "dry" || Lower(word) == "true"
  }

  /** The `rsa` chat command: `place_order` with a chat context and the
      bot's dry flag; its handler catches every exception. */
  function BotRsa(action: string, amount: string, stock: string, account: string,
                  dryWord: string, now: Clock, raises: Adapter -> bool): (r: Dispatch)
    ensures r.dry <==> Lower(dryWord) == "dry" || Lower(dryWord) == "true"
    ensures r.report != Escaped
    ensures ParseInt(amount).None? ==> r.attempted == []
  {
    PlaceOrder(action, Word(amount), stock, account, RsaDryFlag(dryWord), true, now, raises)
  }

  /** The bot accepts every dry word the command line accepts, and exactly
      "true" (in any case) besides; "TRUE" shows the bot's set is wider. */
  lemma BotDryWiderThanCli(word: string)
    ensures Lower(word) == "dry" ==> RsaDryFlag(word)
    ensures RsaDryFlag(word) && Lower(word) != "dry" <==> Lower(word) == "true"
    ensures RsaDryFlag("TRUE") && Lower("TRUE") != "dry"
  {
    assert Lower("TRUE") == "true";
  }

  // ------------------------------------------------------------------
  // The script as a whole

  datatype Run =
    | Exited(status: int, initialised: seq<Adapter>, dispatched: seq<Adapter>)
    | ServingBot(initialised: seq<Adapter>)

  /** One run of the script: parse, initialise the routed adapters, then
      either report holdings or place the order and exit, or hand over to
      the chat bot.  `raises` says which adapters' calls raise. */
  method RunCommandLine(argv: seq<string>, hasToken: bool, now: Clock, raises: Adapter -> bool)
    returns (r: Run)
    ensures OrderArgs(argv) && |argv| >= 3 && ParseInt(argv[2]).None? ==> r == Exited(1, [], [])
    ensures !OrderArgs(argv) && !HoldingsArgs(argv) ==>
              r == if hasToken then ServingBot(AllAdapters) else Exited(1, [], [])
    ensures OrderArgs(argv) && !IsMarketHours(now) ==> r.Exited? && r.dispatched == []
    ensures HoldingsArgs(argv) && Route(Lower(argv[2])).None? ==> r == Exited(1, [], [])
    ensures HoldingsArgs(argv) && Lower(argv[2]) == "all" ==> r == Exited(1, AllAdapters, [])
    ensures r.Exited? && r.status == 0 ==> forall a :: a in r.dispatched ==> !raises(a)
    ensures r.Exited? ==> r.status == 0 || r.status == 1
  {
    var p := ParseCommandLine(argv, hasToken);
    if p.Stop? {
      return Exited(1, [], []);
    }
    var broker := if p.BotMode? then "all" else p.broker;
    var init := Route(broker);
    if init.None? {
      return Exited(1, [], []);
    }
    if p.BotMode? {
      return ServingBot(init.value);
    }
    if p.HoldingsMode? {
      var h := HoldingsRoute(broker);
      if h.None? {
        // get_holdings calls sys.exit(1), which `except Exception` lets through
        return Exited(1, init.value, []);
      }
      var failed := exists a :: a in h.value && raises(a);
      return Exited(if failed then 1 else 0, init.value, h.value);
    }
    var d := PlaceOrder(p.action, Number(p.amount), p.stock, p.broker, p.dry, false, now, raises);
    return Exited(if d.report == Escaped then 1 else 0, init.value, d.attempted);
  }
}
