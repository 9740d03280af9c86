/**
 * The control core of main.py: the API-key check, profit and loss over the
 * current positions, the `/control/positions` report, the force-exit order
 * plan, the expiry watcher, and the controller state (running flag,
 * published positions and P&L, in-memory live credential).
 *
 * Threads, locks and sleeps are not modelled: each lock-protected section is
 * one atomic method.  Broker calls are supplied as parameters.
 */
module Control {
  import opened PyValues
  import opened Calendar

  // ---------------------------------------------------------------------
  // require_api_key
  // ---------------------------------------------------------------------

  datatype KeyCheck = Authorized | Misconfigured | InvalidKey

  /** Python's `a or b` on optional strings: None and "" are falsy. */
  function OrText(a: Option<string>, b: Option<string>): Option<string> {
    if a.Some? && a.value != "" then a else b
  }

  /**
   * `require_api_key`: 500 when no key is configured, 401 unless the
   * `x-api-key` header (or, when the header is absent or empty, the
   * `api_key` query parameter) equals the configured key.
   */
  function RequireApiKey(configured: Option<string>, header: Option<string>, query: Option<string>): (r: KeyCheck)
    ensures r == Misconfigured <==> configured.None? || configured.value == ""
    ensures r == Authorized <==> configured.Some? && configured.value != "" && OrText(header, query) == configured
    ensures configured.Some? && configured.value != "" && header == configured ==> r == Authorized
    ensures header.Some? && header.value != "" && header != configured ==> r != Authorized
  {
    if configured.None? || configured.value == "" then Misconfigured
    else
      var key := OrText(header, query);
      if key.None? || key.value == "" || key != configured then InvalidKey else Authorized
  }

  // ---------------------------------------------------------------------
  // compute_pnl
  // ---------------------------------------------------------------------

  /**
   * The term `(p.get("ltp", 0) - p.get("avg_price", 0)) * p.get("qty", 0)` of
   * compute_pnl; None where Python raises (a position that is not a dict, or
   * a field that is not a number).
   */
  function PositionPnl(p: Json): Option<real> {
    match p
    case JObj(m) =>
      var qty := Num(GetOr(m, "qty", JNum(0.0)));
      var ltp := Num(GetOr(m, "ltp", JNum(0.0)));
      var avg := Num(GetOr(m, "avg_price", JNum(0.0)));
      if qty.Some? && ltp.Some? && avg.Some? then Some((ltp.value - avg.value) * qty.value) else None
    case _ => None
  }

  /** Every position has a P&L term, so compute_pnl does not raise. */
  predicate Priced(ps: seq<Json>) {
    forall i :: 0 <= i < |ps| ==> PositionPnl(ps[i]).Some?
  }

  /** The sum, in list order, of the positions' signed-quantity P&L terms. */
  function TotalPnl(ps: seq<Json>): real
    requires Priced(ps)
    decreases |ps|
  {
    if ps == [] then 0.0 else TotalPnl(ps[..|ps| - 1]) + PositionPnl(ps[|ps| - 1]).value
  }

  /** `compute_pnl(positions)`: None where it raises. */
  method ComputePnl(positions: seq<Json>) returns (r: Option<real>)
    ensures r.Some? <==> Priced(positions)
    ensures r.Some? ==> r.value == TotalPnl(positions)
  {
    var pnl := 0.0;
    var i := 0;
    while i < |positions|
      invariant 0 <= i <= |positions|
      invariant Priced(positions[..i])
      invariant pnl == TotalPnl(positions[..i])
    {
      var term := PositionPnl(positions[i]);
      if term.None? {
        return None;
      }
      assert positions[..i + 1][..i] == positions[..i];
      pnl := pnl + term.value;
      i := i + 1;
    }
    assert positions[..i] == positions;
    r := Some(pnl);
  }

  /** TotalPnl of a concatenation is the sum of the parts' totals. */
  lemma {:induction false} TotalPnlAppend(ps: seq<Json>, qs: seq<Json>)
    requires Priced(ps) && Priced(qs)
    ensures Priced(ps + qs) && TotalPnl(ps + qs) == TotalPnl(ps) + TotalPnl(qs)
    decreases |qs|
  {
    var all := ps + qs;
    assert Priced(all) by {
      forall i | 0 <= i < |all| ensures PositionPnl(all[i]).Some? {
        if i >= |ps| { assert all[i] == qs[i - |ps|]; }
      }
    }
    if qs == [] {
      assert all == ps;
    } else {
      var init := qs[..|qs| - 1];
      assert Priced(init) by {
        forall i | 0 <= i < |init| ensures PositionPnl(init[i]).Some? {
          assert init[i] == qs[i];
        }
      }
      TotalPnlAppend(ps, init);
      assert all[..|all| - 1] == ps + init;
    }
  }

  /**
   * The strategy loop's paper positions (`paper_fetch_positions`): a long
   * and a short leg of 65, both dicts and both priced, whose P&L is 487.5.
   */
  function PaperSample(): (r: seq<Json>)
    ensures |r| == 2 && AllDicts(r)
    ensures Priced(r) && TotalPnl(r) == 487.5
  {
    var ps := [ JObj(map["symbol" := JStr("FINNIFTY-MONTH-CE-5OTM"), "qty" := JNum(65.0),
                         "avg_price" := JNum(100.0), "ltp" := JNum(104.5)]),
                JObj(map["symbol" := JStr("FINNIFTY-MONTH-PE-5OTM"), "qty" := JNum(-65.0),
                         "avg_price" := JNum(90.0), "ltp" := JNum(87.0)]) ];
    assert PositionPnl(ps[0]) == Some(292.5);
    assert PositionPnl(ps[1]) == Some(195.0);
    assert ps[..1][..0] == [];
    ps
  }

  // ---------------------------------------------------------------------
  // control_positions
  // ---------------------------------------------------------------------

  /** One entry of the `/control/positions` report. */
  datatype Detail = Detail(symbol: Json, qty: Json, avgPrice: real, ltp: real, pnl: real)

  datatype PositionsReport = PositionsReport(details: seq<Detail>, pnl: real, count: nat)

  /** Field `key`, when present, can be used in arithmetic. */
  predicate NumOrAbsent(m: map<string, Json>, key: string) {
    key in m ==> Num(m[key]).Some?
  }

  /** `p.get("symbol") or p.get("scrip") or p.get("instr") or "unknown"`. */
  function SymbolOf(m: map<string, Json>): Json {
    Or(Or(Or(Get(m, "symbol"), Get(m, "scrip")), Get(m, "instr")), JStr("unknown"))
  }

  /**
   * The report entry for one position: the average price falls back from
   * `avg_price` to `avg`, the last price from `ltp` to `last_price`, and a
   * falsy price counts as 0; None where Python raises.
   */
  function DetailOf(p: Json): (r: Option<Detail>)
    ensures !p.JObj? ==> r.None?
    ensures r.Some? ==> var q := Num(r.value.qty);
      && r.value.symbol == SymbolOf(p.fields) && r.value.qty == GetOr(p.fields, "qty", JNum(0.0))
      && q.Some? && r.value.pnl == (r.value.ltp - r.value.avgPrice) * q.value
    ensures r.Some? && "qty" !in p.fields ==> r.value.pnl == 0.0
    ensures (&& p.JObj? && Num(GetOr(p.fields, "qty", JNum(0.0))).Some?
             && NumOrAbsent(p.fields, "avg_price") && NumOrAbsent(p.fields, "avg")
             && NumOrAbsent(p.fields, "ltp") && NumOrAbsent(p.fields, "last_price")) ==> r.Some?
    // the average price: `avg_price`, else `avg`, a falsy choice counting as 0
    ensures r.Some? && "avg_price" in p.fields && Truthy(p.fields["avg_price"]) ==>
      Some(r.value.avgPrice) == Num(p.fields["avg_price"])
    ensures r.Some? && "avg_price" !in p.fields && "avg" in p.fields && Truthy(p.fields["avg"]) ==>
      Some(r.value.avgPrice) == Num(p.fields["avg"])
    ensures r.Some? && "avg_price" in p.fields && !Truthy(p.fields["avg_price"]) ==> r.value.avgPrice == 0.0
    ensures r.Some? && "avg_price" !in p.fields && "avg" in p.fields && !Truthy(p.fields["avg"]) ==> r.value.avgPrice == 0.0
    ensures r.Some? && "avg_price" !in p.fields && "avg" !in p.fields ==> r.value.avgPrice == 0.0
    // the last price: `ltp`, else `last_price`, a falsy choice counting as 0
    ensures r.Some? && "ltp" in p.fields && Truthy(p.fields["ltp"]) ==>
      Some(r.value.ltp) == Num(p.fields["ltp"])
    ensures r.Some? && "ltp" !in p.fields && "last_price" in p.fields && Truthy(p.fields["last_price"]) ==>
      Some(r.value.ltp) == Num(p.fields["last_price"])
    ensures r.Some? && "ltp" in p.fields && !Truthy(p.fields["ltp"]) ==> r.value.ltp == 0.0
    ensures r.Some? && "ltp" !in p.fields && "last_price" in p.fields && !Truthy(p.fields["last_price"]) ==> r.value.ltp == 0.0
    ensures r.Some? && "ltp" !in p.fields && "last_price" !in p.fields ==> r.value.ltp == 0.0
  {
    match p
    case JObj(m) =>
      var qty := GetOr(m, "qty", JNum(0.0));
      var avg := Num(Or(GetOr(m, "avg_price", GetOr(m, "avg", JNum(0.0))), JNum(0.0)));
      var ltp := Num(Or(GetOr(m, "ltp", GetOr(m, "last_price", JNum(0.0))), JNum(0.0)));
      var q := Num(qty);
      if q.Some? && avg.Some? && ltp.Some? then
        Some(Detail(SymbolOf(m), qty, avg.value, ltp.value, (ltp.value - avg.value) * q.value))
      else None
    case _ => None
  }

  function SumDetails(ds: seq<Detail>): real
    decreases |ds|
  {
    if ds == [] then 0.0 else SumDetails(ds[..|ds| - 1]) + ds[|ds| - 1].pnl
  }

  /**
   * `control_positions` over the published positions: one entry per
   * position in order, the total of their P&L and their count; None where
   * the endpoint raises.
   */
  method ControlPositions(positions: seq<Json>) returns (r: Option<PositionsReport>)
    ensures r.Some? <==> forall i :: 0 <= i < |positions| ==> DetailOf(positions[i]).Some?
    ensures r.Some? ==> |r.value.details| == |positions| == r.value.count
    ensures r.Some? ==> forall i :: 0 <= i < |positions| ==> r.value.details[i] == DetailOf(positions[i]).value
    ensures r.Some? ==> r.value.pnl == SumDetails(r.value.details)
  {
    var details: seq<Detail> := [];
    var total := 0.0;
    var i := 0;
    while i < |positions|
      invariant 0 <= i <= |positions| && |details| == i
      invariant forall k :: 0 <= k < i ==> DetailOf(positions[k]).Some? && details[k] == DetailOf(positions[k]).value
      invariant total == SumDetails(details)
    {
      var d := DetailOf(positions[i]);
      if d.None? {
        return None;
      }
      assert (details + [d.value])[..i] == details;
      details := details + [d.value];
      total := total + d.value.pnl;
      i := i + 1;
    }
    r := Some(PositionsReport(details, total, |details|));
  }

  /**
   * Where a position carries both `ltp` and `avg_price`, the report's entry
   * has the same P&L as compute_pnl's term for it.
   */
  lemma DetailAgreesWithPositionPnl(p: Json)
    requires p.JObj? && "ltp" in p.fields && "avg_price" in p.fields && PositionPnl(p).Some?
    ensures DetailOf(p).Some? && DetailOf(p).value.pnl == PositionPnl(p).value
  {
  }

  /**
   * So `/control/positions` reports the same total as compute_pnl when every
   * position carries both price fields.
   */
  lemma {:induction false} ReportTotalIsComputePnl(ps: seq<Json>, ds: seq<Detail>)
    requires Priced(ps) && |ds| == |ps|
    requires forall i :: 0 <= i < |ps| ==> ps[i].JObj? && "ltp" in ps[i].fields && "avg_price" in ps[i].fields
    requires forall i :: 0 <= i < |ps| ==> DetailOf(ps[i]) == Some(ds[i])
    ensures SumDetails(ds) == TotalPnl(ps)
    decreases |ps|
  {
    if ps != [] {
      var n := |ps| - 1;
      DetailAgreesWithPositionPnl(ps[n]);
      ReportedPrefix(ps, ds);
      ReportTotalIsComputePnl(ps[..n], ds[..n]);
    }
  }

  lemma ReportedPrefix(ps: seq<Json>, ds: seq<Detail>)
    requires ps != [] && Priced(ps) && |ds| == |ps|
    requires forall i :: 0 <= i < |ps| ==> ps[i].JObj? && "ltp" in ps[i].fields && "avg_price" in ps[i].fields
    requires forall i :: 0 <= i < |ps| ==> DetailOf(ps[i]) == Some(ds[i])
    ensures var n := |ps| - 1; var ps', ds' := ps[..n], ds[..n];
      && Priced(ps') && |ds'| == |ps'|
      && (forall i :: 0 <= i < |ps'| ==> ps'[i].JObj? && "ltp" in ps'[i].fields && "avg_price" in ps'[i].fields)
      && (forall i :: 0 <= i < |ps'| ==> DetailOf(ps'[i]) == Some(ds'[i]))
  {
    var n := |ps| - 1;
    assert forall i :: 0 <= i < n ==> ps[..n][i] == ps[i] && ds[..n][i] == ds[i];
  }

  // ---------------------------------------------------------------------
  // close_all_positions
  // ---------------------------------------------------------------------

  /** One entry of close_all_positions' `details`. */
  datatype CloseEntry =
    | Closed(symbol: Json, mode: string, qty: nat, side: string, result: Json)
    | CloseError(symbol: Json, error: string)

  datatype CloseSummary = CloseSummary(closed: nat, details: seq<CloseEntry>)

  /** `paper_place_order(symbol, qty, price)`: a simulated fill. */
  function PaperOrder(symbol: Json, qty: int, price: Json): Json {
    JObj(map["status" := JStr("filled"), "symbol" := symbol, "qty" := JNum(qty as real), "avg_price" := price])
  }

  /** The position's quantity as `int(p.get("qty", 0))` reads it; None where int() raises. */
  function QtyOf(m: map<string, Json>): Option<int> {
    IntOf(GetOr(m, "qty", JNum(0.0)))
  }

  /**
   * What close_all_positions does with one position (which must be a dict):
   * nothing for a zero quantity, an "exception" entry when the quantity is
   * not an integer, otherwise a closing order on the opposite side for the
   * absolute quantity, or a "no_live_auth" entry in live mode without a
   * credential.  `liveOrder` is the broker's reply to `live_place_order`.
   */
  function CloseEntryOf(m: map<string, Json>, paper: bool, hasAuth: bool,
                        liveOrder: (Json, nat, string) -> Json): (r: Option<CloseEntry>)
    ensures r.None? <==> QtyOf(m) == Some(0)
    ensures QtyOf(m).None? ==> r == Some(CloseError(GetOr(m, "symbol", JStr("unknown")), "exception"))
    ensures !paper && !hasAuth && QtyOf(m).Some? && QtyOf(m).value != 0 ==>
      r == Some(CloseError(SymbolOf(m), "no_live_auth"))
  {
    var symbol := SymbolOf(m);
    match QtyOf(m)
    case None => Some(CloseError(GetOr(m, "symbol", JStr("unknown")), "exception"))
    case Some(qty) =>
      if qty == 0 then None
      else
        var side := if qty > 0 then "sell" else "buy";
        if paper then
          var price := GetOr(m, "ltp", GetOr(m, "avg_price", JNum(0.0)));
          Some(Closed(symbol, "paper", Abs(qty), side, PaperOrder(symbol, -qty, price)))
        else if !hasAuth then Some(CloseError(symbol, "no_live_auth"))
        else Some(Closed(symbol, "live", Abs(qty), side, liveOrder(symbol, Abs(qty), side)))
  }

  predicate AllDicts(ps: seq<Json>) {
    forall i :: 0 <= i < |ps| ==> ps[i].JObj?
  }

  /** close_all_positions' `results`, in position order. */
  function CloseResults(ps: seq<Json>, paper: bool, hasAuth: bool,
                        liveOrder: (Json, nat, string) -> Json): seq<CloseEntry>
    requires AllDicts(ps)
    decreases |ps|
  {
    if ps == [] then []
    else
      var prev := CloseResults(ps[..|ps| - 1], paper, hasAuth, liveOrder);
      match CloseEntryOf(ps[|ps| - 1].fields, paper, hasAuth, liveOrder)
      case None => prev
      case Some(e) => prev + [e]
  }

  /**
   * `close_all_positions` over the published positions.  A position that is
   * not a dict makes the exception handler itself raise, so the call raises
   * (None).
   */
  method CloseAllPositions(positions: seq<Json>, paper: bool, hasAuth: bool,
                           liveOrder: (Json, nat, string) -> Json) returns (r: Option<CloseSummary>)
    ensures r.Some? <==> AllDicts(positions)
    ensures r.Some? ==> r.value.details == CloseResults(positions, paper, hasAuth, liveOrder)
    ensures r.Some? ==> r.value.closed == |r.value.details|
  {
    var results: seq<CloseEntry> := [];
    var i := 0;
    while i < |positions|
      invariant 0 <= i <= |positions|
      invariant AllDicts(positions[..i])
      invariant results == CloseResults(positions[..i], paper, hasAuth, liveOrder)
    {
      var p := positions[i];
      if !p.JObj? {
        return None;
      }
      assert positions[..i + 1][..i] == positions[..i];
      var e := CloseEntryOf(p.fields, paper, hasAuth, liveOrder);
      if e.Some? {
        results := results + [e.value];
      }
      i := i + 1;
    }
    assert positions[..i] == positions;
    r := Some(CloseSummary(|results|, results));
  }

  /** Every position that gives an entry has that entry among the results. */
  lemma {:induction false} CloseResultsKeepEntries(ps: seq<Json>, paper: bool, hasAuth: bool,
                                                   liveOrder: (Json, nat, string) -> Json, k: nat)
    requires AllDicts(ps) && k < |ps|
    requires CloseEntryOf(ps[k].fields, paper, hasAuth, liveOrder).Some?
    ensures CloseEntryOf(ps[k].fields, paper, hasAuth, liveOrder).value in CloseResults(ps, paper, hasAuth, liveOrder)
    decreases |ps|
  {
    if k < |ps| - 1 {
      var init := ps[..|ps| - 1];
      assert init[k] == ps[k];
      CloseResultsKeepEntries(init, paper, hasAuth, liveOrder, k);
    }
  }

  /** The position's quantity does not read as zero (it becomes an entry). */
  predicate Entered(p: Json)
    requires p.JObj?
  {
    QtyOf(p.fields) != Some(0)
  }

  function CountEntered(ps: seq<Json>): nat
    requires AllDicts(ps)
    decreases |ps|
  {
    if ps == [] then 0 else CountEntered(ps[..|ps| - 1]) + (if Entered(ps[|ps| - 1]) then 1 else 0)
  }

  /**
   * `closed` counts exactly the positions whose quantity is not zero, error
   * entries included.
   */
  lemma {:induction false} ClosedCountsNonzero(ps: seq<Json>, paper: bool, hasAuth: bool,
                                               liveOrder: (Json, nat, string) -> Json)
    requires AllDicts(ps)
    ensures |CloseResults(ps, paper, hasAuth, liveOrder)| == CountEntered(ps) <= |ps|
    decreases |ps|
  {
    if ps != [] {
      ClosedCountsNonzero(ps[..|ps| - 1], paper, hasAuth, liveOrder);
    }
  }

  /** The signed quantity an order on `side` adds to a position. */
  function SignedOrder(side: string, qty: nat): int {
    if side == "sell" then -(qty as int) else qty
  }

  /**
   * For a position of nonzero integer quantity q (in paper mode, or with a
   * credential), the closing order is "sell" exactly when q > 0, is for |q|,
   * and brings the position to zero.
   */
  lemma ClosingOrderFlattens(m: map<string, Json>, paper: bool, hasAuth: bool,
                             liveOrder: (Json, nat, string) -> Json, q: int)
    requires QtyOf(m) == Some(q) && q != 0 && (paper || hasAuth)
    ensures var e := CloseEntryOf(m, paper, hasAuth, liveOrder);
      && e.Some? && e.value.Closed?
      && (e.value.side == "sell" <==> q > 0)
      && e.value.qty == Abs(q) > 0
      && q + SignedOrder(e.value.side, e.value.qty) == 0
      && e.value.mode == (if paper then "paper" else "live")
  {
  }

  /**
   * The closing entry names the position's symbol, and its result is the
   * order actually placed for that symbol: a paper fill of -q priced at
   * `ltp`, else `avg_price`, else 0; or the broker's reply to an order of
   * |q| on the entry's side.
   */
  lemma ClosingOrderPlaced(m: map<string, Json>, paper: bool, hasAuth: bool,
                           liveOrder: (Json, nat, string) -> Json, q: int)
    requires QtyOf(m) == Some(q) && q != 0 && (paper || hasAuth)
    ensures var e := CloseEntryOf(m, paper, hasAuth, liveOrder);
      && e.Some? && e.value.Closed? && e.value.symbol == SymbolOf(m)
      && e.value.result == (if paper then PaperOrder(SymbolOf(m), -q, GetOr(m, "ltp", GetOr(m, "avg_price", JNum(0.0))))
                            else liveOrder(SymbolOf(m), e.value.qty, e.value.side))
  {
  }

  /** Every entry is a closing order of positive size, or an error entry whose kind says why. */
  lemma {:induction false} CloseEntriesWellFormed(ps: seq<Json>, paper: bool, hasAuth: bool,
                                                  liveOrder: (Json, nat, string) -> Json)
    requires AllDicts(ps)
    ensures forall e :: e in CloseResults(ps, paper, hasAuth, liveOrder) ==>
      if e.Closed? then e.qty > 0 && (e.side == "sell" || e.side == "buy")
      else e.error == "exception" || (e.error == "no_live_auth" && !paper && !hasAuth)
    decreases |ps|
  {
    if ps != [] {
      CloseEntriesWellFormed(ps[..|ps| - 1], paper, hasAuth, liveOrder);
    }
  }

  // ---------------------------------------------------------------------
  // expiry_force_exit_watcher
  // ---------------------------------------------------------------------

  /**
   * One poll of the expiry watcher: the new `triggered_today`, whether
   * close_all_positions was called, and whether it returned (fired).
   */
  datatype WatchOutcome = WatchOutcome(triggered: bool, attempted: bool, fired: bool)

  /**
   * One iteration of `expiry_force_exit_watcher` at local time `now`:
   * `triggered_today` is cleared at 00:00; on expiry day at 14:00, when not
   * yet triggered, the positions are closed and, if that returned
   * (`closeOk`), the flag is set.  When is_expiry_day or close_all_positions
   * raises, the handler logs and the flag keeps its value.
   */
  function WatcherStep(triggered: bool, now: DateTime, closeOk: bool): (o: WatchOutcome)
    requires ValidDateTime(now)
    ensures o.attempted <==> IsExpiryDay(now) == Some(true) && now.hour == 14 && now.minute == 0 && !triggered
    ensures o.fired <==> o.attempted && closeOk
    ensures o.triggered <==> o.fired || (triggered && !(now.hour == 0 && now.minute == 0))
  {
    var t := if now.hour == 0 && now.minute == 0 then false else triggered;
    match IsExpiryDay(now)
    case None => WatchOutcome(t, false, false)
    case Some(expiry) =>
      if expiry && !t && now.hour == 14 && now.minute == 0 then
        WatchOutcome(closeOk || t, true, closeOk)
      else WatchOutcome(t, false, false)
  }

  /** One poll: the local time and whether closing the positions would return. */
  datatype Poll = Poll(now: DateTime, closeOk: bool)

  predicate ValidPolls(polls: seq<Poll>) {
    forall i :: 0 <= i < |polls| ==> ValidDateTime(polls[i].now)
  }

  /** The number of successful force-exits over a run of polls. */
  function Fires(triggered: bool, polls: seq<Poll>): nat
    requires ValidPolls(polls)
    decreases |polls|
  {
    if polls == [] then 0
    else
      var o := WatcherStep(triggered, polls[0].now, polls[0].closeOk);
      (if o.fired then 1 else 0) + Fires(o.triggered, polls[1..])
  }

  predicate NoMidnight(polls: seq<Poll>) {
    forall i :: 0 <= i < |polls| ==> !(polls[i].now.hour == 0 && polls[i].now.minute == 0)
  }

  /**
   * Between two resets the watcher force-exits at most once, and not at all
   * once it has triggered.
   */
  lemma {:induction false} AtMostOneFireBetweenResets(triggered: bool, polls: seq<Poll>)
    requires ValidPolls(polls) && NoMidnight(polls)
    ensures Fires(triggered, polls) <= 1
    ensures triggered ==> Fires(triggered, polls) == 0
    decreases |polls|
  {
    if polls != [] {
      var o := WatcherStep(triggered, polls[0].now, polls[0].closeOk);
      assert ValidPolls(polls[1..]) && NoMidnight(polls[1..]) by {
        forall i | 0 <= i < |polls[1..]|
          ensures ValidDateTime(polls[1..][i].now) && !(polls[1..][i].now.hour == 0 && polls[1..][i].now.minute == 0)
        {
          assert polls[1..][i] == polls[i + 1];
        }
      }
      AtMostOneFireBetweenResets(o.triggered, polls[1..]);
    }
  }

  // ---------------------------------------------------------------------
  // Controller state
  // ---------------------------------------------------------------------

  datatype StartStatus = Started | AlreadyRunning

  /** `load_live_auth_from_file`'s test: the file decodes to a dict holding `jwtToken`. */
  function AcceptedLiveAuth(file: FileContent): (r: Option<map<string, Json>>)
    ensures r.Some? <==> file.Parsed? && file.value.JObj? && "jwtToken" in file.value.fields
    ensures r.Some? ==> file.value == JObj(r.value)
  {
    match file
    case Parsed(JObj(m)) => if "jwtToken" in m then Some(m) else None
    case _ => None
  }

  const Redacted: string := "***REDACTED***"

  /**
   * The module-level state of main.py: the `running` flag, the positions and
   * P&L the strategy loop last published (`current_positions`), and the
   * live credential held in memory (`app.state.live_auth`) with the time it
   * was loaded.
   */
  class Controller {
    var running: bool
    /** `runtime_mode`: "paper", or anything else for live. */
    const mode: string
    var positions: Option<seq<Json>>
    var pnl: Option<real>
    var liveAuth: Option<map<string, Json>>
    var liveAuthTs: Option<real>

    /** The published P&L is the total of the published positions. */
    ghost predicate Consistent()
      reads this
    {
      (positions.Some? <==> pnl.Some?)
      && (positions.Some? ==> Priced(positions.value) && pnl.value == TotalPnl(positions.value))
    }

    /** Process start: stopped, nothing published, no credential loaded. */
    constructor (mode: string)
      ensures !running && this.mode == mode
      ensures positions == None && pnl == None && liveAuth == None && liveAuthTs == None
      ensures Consistent()
    {
      running := false;
      this.mode := mode;
      positions := None;
      pnl := None;
      liveAuth := None;
      liveAuthTs := None;
    }

    predicate IsPaper()
      reads this
    {
      mode == "paper"
    }

    /** `if not auth`: a credential is held and is a non-empty dict. */
    predicate HasLiveAuth()
      reads this
    {
      liveAuth.Some? && liveAuth.value != map[]
    }

    /** `current_positions.get("positions", []) or []`. */
    function CurrentPositions(): seq<Json>
      reads this
    {
      if positions.Some? then positions.value else []
    }

    /** `start_bot`: sets the flag unless it is already set. */
    method Start() returns (status: StartStatus)
      modifies this`running
      ensures running
      ensures status == (if old(running) then AlreadyRunning else Started)
    {
      if running {
        return AlreadyRunning;
      }
      running := true;
      status := Started;
    }

    /** `stop_bot`: clears the flag, whatever its value; a second call changes nothing. */
    method Stop()
      modifies this`running
      ensures !running
    {
      running := false;
    }

    /**
     * `load_live_auth_from_file`: on an accepted file the credential and its
     * load time are replaced; otherwise nothing changes.
     */
    method LoadLiveAuthFromFile(file: FileContent, now: real) returns (ok: bool)
      modifies this`liveAuth, this`liveAuthTs
      ensures ok <==> AcceptedLiveAuth(file).Some?
      ensures ok ==> liveAuth == AcceptedLiveAuth(file) && liveAuthTs == Some(now)
      ensures !ok ==> liveAuth == old(liveAuth) && liveAuthTs == old(liveAuthTs)
    {
      var accepted := AcceptedLiveAuth(file);
      if accepted.None? {
        return false;
      }
      liveAuth := accepted;
      liveAuthTs := Some(now);
      ok := true;
    }

    /**
     * `control_liveauth`: None (404) without a credential; otherwise the
     * token is replaced by a fixed placeholder and only `sid` and the load
     * time are shown.
     */
    function MaskedLiveAuth(): (r: Option<map<string, Json>>)
      reads this
      ensures r.Some? <==> HasLiveAuth()
      ensures r.Some? ==> r.value.Keys == {"jwtToken", "sid", "received_at"}
      ensures r.Some? ==> r.value["jwtToken"] == JStr(Redacted) && r.value["sid"] == Get(liveAuth.value, "sid")
      ensures r.Some? ==> r.value["received_at"] == (if liveAuthTs.Some? then JNum(liveAuthTs.value) else JNull)
    {
      if !HasLiveAuth() then None
      else
        var ts := if liveAuthTs.Some? then JNum(liveAuthTs.value) else JNull;
        Some(map["jwtToken" := JStr(Redacted), "sid" := Get(liveAuth.value, "sid"), "received_at" := ts])
    }

    /**
     * The positions one iteration of `strategy_loop` fetches: paper mode
     * takes the sample positions; live mode takes none without a
     * credential, none when its `jwtToken` or `sid` is falsy, and otherwise
     * the broker's position list `brokerReply` (the decoded body of a 200
     * answer, `[]` for any other).  None where iterating the reply raises.
     */
    function FetchedPositions(brokerReply: Json): (r: Option<seq<Json>>)
      reads this
      ensures IsPaper() ==> r == Some(PaperSample())
      ensures IsPaper() ==> r.Some? && Priced(r.value) && TotalPnl(r.value) == 487.5
      ensures r.None? ==> !IsPaper() && Items(brokerReply).None?
      ensures !IsPaper() && !HasLiveAuth() ==> r == Some([])
      ensures !IsPaper() && HasLiveAuth() ==>
        r == (if Truthy(Get(liveAuth.value, "jwtToken")) && Truthy(Get(liveAuth.value, "sid"))
              then Items(brokerReply) else Some([]))
    {
      if IsPaper() then Some(PaperSample())
      else if !HasLiveAuth() then Some([])
      else
        var auth := liveAuth.value;
        if !Truthy(Get(auth, "jwtToken")) || !Truthy(Get(auth, "sid")) then Some([])
        else Items(brokerReply)
    }

    /**
     * One iteration of `strategy_loop`: the fetched positions and their P&L
     * are published; when fetching or pricing them raises, the handler logs
     * and nothing is published.  The source writes the two values one after
     * the other without a lock; here they are written in one step.
     */
    method StrategyIteration(brokerReply: Json)
      requires Consistent()
      modifies this`positions, this`pnl
      ensures Consistent()
      ensures var ps := FetchedPositions(brokerReply);
        if ps.Some? && Priced(ps.value) then positions == ps && pnl == Some(TotalPnl(ps.value))
        else positions == old(positions) && pnl == old(pnl)
    {
      var ps := FetchedPositions(brokerReply);
      if ps.None? {
        return;
      }
      var total := ComputePnl(ps.value);
      if total.Some? {
        positions := ps;
        pnl := total;
      }
    }
  }

  /** The state of `expiry_force_exit_watcher`. */
  class ExpiryWatcher {
    var triggeredToday: bool

    constructor ()
      ensures !triggeredToday
    {
      triggeredToday := false;
    }

    /**
     * One poll at local time `now`: closes the controller's published
     * positions when WatcherStep says so, and updates the flag as it says.
     */
    method Poll(now: DateTime, ctrl: Controller, liveOrder: (Json, nat, string) -> Json)
      returns (summary: Option<CloseSummary>)
      requires ValidDateTime(now)
      modifies this
      ensures var o := WatcherStep(old(triggeredToday), now, AllDicts(ctrl.CurrentPositions()));
        && triggeredToday == o.triggered
        && (summary.Some? <==> o.fired)
        && (summary.Some? ==>
              o.fired && summary.value.details
                == CloseResults(ctrl.CurrentPositions(), ctrl.IsPaper(), ctrl.HasLiveAuth(), liveOrder)
              && summary.value.closed == |summary.value.details|)
    {
      summary := None;
      if now.hour == 0 && now.minute == 0 {
        triggeredToday := false;
      }
      var expiry := IsExpiryDay(now);
      if expiry == Some(true) && !triggeredToday && now.hour == 14 && now.minute == 0 {
        summary := CloseAllPositions(ctrl.CurrentPositions(), ctrl.IsPaper(), ctrl.HasLiveAuth(), liveOrder);
        if summary.Some? {
          triggeredToday := true;
        }
      }
    }
  }
}
