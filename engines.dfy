/**
 * The two P&L engines: `live_positions_with_pnl` (live_engine.py), over the
 * broker's position book, and `paper_positions_with_pnl` (paper_engine.py),
 * over the paper positions file.  The files' contents, the broker's reply
 * and `get_ltp` are parameters; a raised exception is None.
 */
module Engines {
  import opened PyValues
  import Control

  // ---------------------------------------------------------------------
  // Both engines: one output row per input record, in order
  // ---------------------------------------------------------------------

  /** What one input record contributes: nothing, an output row, or an exception. */
  datatype RowStep<T> = Skip | Emit(row: T) | Raise

  /** The rows for a list of records, in order; None once any record raises. */
  function Rows<T>(ps: seq<Json>, step: Json -> RowStep<T>): Option<seq<T>>
    decreases |ps|
  {
    if ps == [] then Some([])
    else
      match Rows(ps[..|ps| - 1], step)
      case None => None
      case Some(prev) =>
        match step(ps[|ps| - 1])
        case Raise => None
        case Skip => Some(prev)
        case Emit(row) => Some(prev + [row])
  }

  /**
   * The loop both engines run over the records: `continue` past a record
   * that contributes nothing, `out.append` a row, and leave by the
   * exception a record raises.
   */
  method CollectRows<T>(ps: seq<Json>, step: Json -> RowStep<T>) returns (r: Option<seq<T>>)
    ensures r == Rows(ps, step)
  {
    var out: seq<T> := [];
    var i := 0;
    while i < |ps|
      invariant 0 <= i <= |ps|
      invariant Rows(ps[..i], step) == Some(out)
    {
      assert ps[..i + 1][..i] == ps[..i];
      var s := step(ps[i]);
      if s.Raise? {
        RowsRaiseStays(ps, i + 1, step);
        return None;
      }
      if s.Emit? {
        out := out + [s.row];
      }
      i := i + 1;
    }
    assert ps[..i] == ps;
    return Some(out);
  }

  /** Once a record raises, the whole list raises. */
  lemma {:induction false} RowsRaiseStays<T>(ps: seq<Json>, k: nat, step: Json -> RowStep<T>)
    requires k <= |ps| && Rows(ps[..k], step).None?
    ensures Rows(ps, step).None?
    decreases |ps| - k
  {
    if k < |ps| {
      assert ps[..k + 1][..k] == ps[..k];
      RowsRaiseStays(ps, k + 1, step);
    } else {
      assert ps[..k] == ps;
    }
  }

  /** The engine raises exactly when one of the records does. */
  lemma {:induction false} RowsSomeIff<T>(ps: seq<Json>, step: Json -> RowStep<T>)
    ensures Rows(ps, step).Some? <==> forall i :: 0 <= i < |ps| ==> !step(ps[i]).Raise?
    decreases |ps|
  {
    if ps != [] {
      var init := ps[..|ps| - 1];
      RowsSomeIff(init, step);
      assert forall i :: 0 <= i < |init| ==> init[i] == ps[i];
    }
  }

  /** The number of records that produce a row. */
  function Emitted<T>(ps: seq<Json>, step: Json -> RowStep<T>): nat
    decreases |ps|
  {
    if ps == [] then 0 else Emitted(ps[..|ps| - 1], step) + (if step(ps[|ps| - 1]).Emit? then 1 else 0)
  }

  /**
   * On success there is one row per producing record, and a property that
   * every produced row has holds of every output row.
   */
  lemma {:induction false} RowsFacts<T>(ps: seq<Json>, step: Json -> RowStep<T>, P: T -> bool)
    requires Rows(ps, step).Some?
    requires forall i :: 0 <= i < |ps| && step(ps[i]).Emit? ==> P(step(ps[i]).row)
    ensures |Rows(ps, step).value| == Emitted(ps, step) <= |ps|
    ensures forall k :: 0 <= k < |Rows(ps, step).value| ==> P(Rows(ps, step).value[k])
    decreases |ps|
  {
    if ps != [] {
      var init := ps[..|ps| - 1];
      assert forall i :: 0 <= i < |init| ==> init[i] == ps[i];
      RowsFacts(init, step, P);
    }
  }

  /** Where no record is skipped, output row k is record k's row. */
  lemma {:induction false} RowsNoSkip<T>(ps: seq<Json>, step: Json -> RowStep<T>)
    requires Rows(ps, step).Some?
    requires forall i :: 0 <= i < |ps| ==> !step(ps[i]).Skip?
    ensures |Rows(ps, step).value| == |ps|
    ensures forall k :: 0 <= k < |ps| ==> step(ps[k]).Emit? && Rows(ps, step).value[k] == step(ps[k]).row
    decreases |ps|
  {
    if ps != [] {
      var init := ps[..|ps| - 1];
      assert forall i :: 0 <= i < |init| ==> init[i] == ps[i];
      RowsNoSkip(init, step);
    }
  }

  // ---------------------------------------------------------------------
  // live_positions_with_pnl
  // ---------------------------------------------------------------------

  datatype Side = Buy | Sell

  /** One output row of `live_positions_with_pnl`. */
  datatype LivePosition = LivePosition(symbol: Json, side: Side, qty: nat, avg: real, ltp: real, pnl: real)

  /** The position's signed quantity: a short position is negative. */
  function SignedQty(row: LivePosition): int {
    if row.side == Sell then -(row.qty as int) else row.qty
  }

  /** `(avg - ltp) * abs(qty)` for a short position, `(ltp - avg) * qty` for a long one. */
  function SidePnl(side: Side, avg: real, ltp: real, qty: int): real {
    if side == Sell then (avg - ltp) * Abs(qty) as real else (ltp - avg) * qty as real
  }

  /** For a short position the SELL formula is the signed-quantity P&L too. */
  lemma SidePnlIsSigned(avg: real, ltp: real, qty: int)
    ensures SidePnl(if qty < 0 then Sell else Buy, avg, ltp, qty) == (ltp - avg) * qty as real
  {
    if qty < 0 {
      assert Abs(qty) as real == -(qty as real);
    }
  }

  /** The row for a nonzero net quantity q holds |q| on q's side, at the signed-quantity P&L. */
  lemma SignedRow(symbol: Json, avg: real, ltp: real, q: int)
    requires q != 0
    ensures var side := if q < 0 then Sell else Buy;
      var row := LivePosition(symbol, side, Abs(q), avg, ltp, SidePnl(side, avg, ltp, q));
      SignedQty(row) == q && row.pnl == (ltp - avg) * q as real
  {
    SidePnlIsSigned(avg, ltp, q);
  }

  /** `int(p.get("netqty", 0))`; None where int() raises. */
  function NetQty(m: map<string, Json>): Option<int> {
    IntOf(GetOr(m, "netqty", JNum(0.0)))
  }

  /** `float(p["netavgprc"])`; None where the key is missing or float() raises. */
  function NetAvg(m: map<string, Json>): Option<real> {
    if "netavgprc" in m then FloatOf(m["netavgprc"]) else None
  }

  /**
   * One broker record (`p`): skipped when its net quantity reads as zero;
   * otherwise a row for `tsym` priced by `ltp` (`get_ltp`, None where it
   * raises) against `netavgprc`, on the SELL side for a short position.
   */
  function LiveRow(p: Json, ltp: Json -> Option<real>): RowStep<LivePosition> {
    match p
    case JObj(m) => LiveRecord(m, NetQty(m), NetAvg(m), ltp)
    case _ => Raise
  }

  /** A broker dict with its net quantity and average price already read. */
  function LiveRecord(m: map<string, Json>, qty: Option<int>, avg: Option<real>,
                      ltp: Json -> Option<real>): (r: RowStep<LivePosition>)
    ensures r.Skip? <==> qty == Some(0)
    ensures r.Raise? <==> qty.None? || (qty.value != 0 && ("tsym" !in m || avg.None? || ltp(m["tsym"]).None?))
  {
    if qty.None? then Raise
    else if qty.value == 0 then Skip
    else if "tsym" !in m then Raise
    else
      var l := ltp(m["tsym"]);
      if l.None? || avg.None? then Raise
      else
        var q := qty.value;
        var side := if q < 0 then Sell else Buy;
        Emit(LivePosition(m["tsym"], side, Abs(q), avg.value, l.value, SidePnl(side, avg.value, l.value, q)))
  }

  function LiveStep(ltp: Json -> Option<real>): Json -> RowStep<LivePosition> {
    p => LiveRow(p, ltp)
  }

  /**
   * `live_positions_with_pnl()`: `authFile` is live_auth.json, `reply` the
   * decoded body of the position-book request (None where the request or
   * the decoding raises).  It raises without a usable credential, and when
   * the body is not a list of records.
   */
  method LivePositionsWithPnl(authFile: FileContent, reply: Option<Json>, ltp: Json -> Option<real>)
    returns (r: Option<seq<LivePosition>>)
    ensures Control.AcceptedLiveAuth(authFile).None? || reply.None? ==> r.None?
    ensures Control.AcceptedLiveAuth(authFile).Some? && reply.Some? ==>
      r == (if Items(reply.value).None? then None else Rows(Items(reply.value).value, LiveStep(ltp)))
  {
    if Control.AcceptedLiveAuth(authFile).None? || reply.None? {
      return None;
    }
    var items := Items(reply.value);
    if items.None? {
      return None;
    }
    r := CollectRows(items.value, LiveStep(ltp));
  }

  /**
   * A row is a nonzero holding of |netqty| on the side of its sign, and both
   * side formulas give the signed-quantity P&L, which is what main.py's
   * compute_pnl computes for the same holding.
   */
  lemma LiveRecordFacts(m: map<string, Json>, qty: Option<int>, avg: Option<real>, ltp: Json -> Option<real>)
    requires LiveRecord(m, qty, avg, ltp).Emit?
    ensures qty.Some? && "tsym" in m
    ensures var row := LiveRecord(m, qty, avg, ltp).row;
      row.symbol == m["tsym"] && Some(row.ltp) == ltp(row.symbol)
      && row.qty == Abs(qty.value) > 0 && SignedQty(row) == qty.value && (row.side == Sell <==> qty.value < 0)
      && row.pnl == (row.ltp - row.avg) * qty.value as real
    ensures SignedPnl(LiveRecord(m, qty, avg, ltp).row)
    ensures var row := LiveRecord(m, qty, avg, ltp).row;
      Control.PositionPnl(JObj(map["qty" := JNum(SignedQty(row) as real), "ltp" := JNum(row.ltp), "avg_price" := JNum(row.avg)]))
        == Some(row.pnl)
  {
    var row := LiveRecord(m, qty, avg, ltp).row;
    var q := qty.value;
    var side := if q < 0 then Sell else Buy;
    assert row == LivePosition(m["tsym"], side, Abs(q), avg.value, row.ltp, SidePnl(side, avg.value, row.ltp, q));
    SignedRow(m["tsym"], avg.value, row.ltp, q);
    var sq, l, a := SignedQty(row), row.ltp, row.avg;
    HoldingPnl(sq, l, a);
    assert Control.PositionPnl(JObj(map["qty" := JNum(sq as real), "ltp" := JNum(l), "avg_price" := JNum(a)]))
      == Some((l - a) * sq as real);
    assert sq == q;
    assert row.pnl == (l - a) * sq as real;
  }

  /** main.py's P&L term for a holding of q at average price `avg` and market price `ltp`. */
  lemma HoldingPnl(q: int, ltp: real, avg: real)
    ensures Control.PositionPnl(JObj(map["qty" := JNum(q as real), "ltp" := JNum(ltp), "avg_price" := JNum(avg)]))
      == Some((ltp - avg) * q as real)
  {
    var m := map["qty" := JNum(q as real), "ltp" := JNum(ltp), "avg_price" := JNum(avg)];
    assert Num(GetOr(m, "qty", JNum(0.0))) == Some(q as real);
    assert Num(GetOr(m, "ltp", JNum(0.0))) == Some(ltp);
    assert Num(GetOr(m, "avg_price", JNum(0.0))) == Some(avg);
    assert Control.PositionPnl(JObj(m)).value == (ltp - avg) * q as real;
  }

  lemma LiveRowSigned(p: Json, ltp: Json -> Option<real>)
    requires LiveRow(p, ltp).Emit?
    ensures SignedPnl(LiveRow(p, ltp).row)
  {
    var m := p.fields;
    LiveRecordFacts(m, NetQty(m), NetAvg(m), ltp);
  }

  /** A holding of positive size whose P&L is that of its signed quantity. */
  predicate SignedPnl(row: LivePosition) {
    row.qty > 0 && row.pnl == (row.ltp - row.avg) * SignedQty(row) as real
  }

  /**
   * On success there is one row per record of nonzero quantity, and every
   * row's P&L is its signed-quantity P&L.
   */
  lemma LiveRowsFacts(ps: seq<Json>, ltp: Json -> Option<real>)
    requires Rows(ps, LiveStep(ltp)).Some?
    ensures var rows := Rows(ps, LiveStep(ltp)).value;
      && |rows| == Emitted(ps, LiveStep(ltp)) <= |ps|
      && forall k :: 0 <= k < |rows| ==> SignedPnl(rows[k])
  {
    forall i | 0 <= i < |ps| && LiveStep(ltp)(ps[i]).Emit?
      ensures SignedPnl(LiveStep(ltp)(ps[i]).row)
    {
      LiveRowSigned(ps[i], ltp);
    }
    RowsFacts(ps, LiveStep(ltp), SignedPnl);
  }

  // ---------------------------------------------------------------------
  // paper_positions_with_pnl
  // ---------------------------------------------------------------------

  /**
   * One paper record: it must be a dict with `symbol`, `side`, `qty` and
   * `avg`; the output is the record with `ltp` and `pnl` added (or
   * replaced).  A side other than the string "SELL" is priced as a buy.
   * No record is skipped.
   */
  function PaperRow(p: Json, ltp: Json -> Option<real>): (r: RowStep<map<string, Json>>)
    ensures !r.Skip?
    ensures r.Emit? <==>
      && p.JObj? && "symbol" in p.fields && "side" in p.fields && "qty" in p.fields && "avg" in p.fields
      && ltp(p.fields["symbol"]).Some? && IntOf(p.fields["qty"]).Some? && FloatOf(p.fields["avg"]).Some?
  {
    match p
    case JObj(m) =>
      if "symbol" !in m || "side" !in m || "qty" !in m || "avg" !in m then Raise
      else
        var l := ltp(m["symbol"]);
        var q := IntOf(m["qty"]);
        var a := FloatOf(m["avg"]);
        if l.None? || q.None? || a.None? then Raise
        else
          var pnl := if m["side"] == JStr("SELL") then (a.value - l.value) * q.value as real
                     else (l.value - a.value) * q.value as real;
          Emit(m["ltp" := JNum(l.value)]["pnl" := JNum(pnl)])
    case _ => Raise
  }

  function PaperStep(ltp: Json -> Option<real>): Json -> RowStep<map<string, Json>> {
    p => PaperRow(p, ltp)
  }

  /**
   * `paper_positions_with_pnl()` over paper_positions.json: no file means
   * no positions; an unreadable file or one that is not a list of records
   * raises.
   */
  method PaperPositionsWithPnl(file: FileContent, ltp: Json -> Option<real>)
    returns (r: Option<seq<map<string, Json>>>)
    ensures file.Missing? ==> r == Some([])
    ensures file.Unreadable? ==> r.None?
    ensures file.Parsed? ==> r == (if Items(file.value).None? then None else Rows(Items(file.value).value, PaperStep(ltp)))
  {
    match file
    case Missing => return Some([]);
    case Unreadable => return None;
    case Parsed(v) =>
      var items := Items(v);
      if items.None? {
        return None;
      }
      r := CollectRows(items.value, PaperStep(ltp));
  }

  /**
   * A paper row keeps every field of its record apart from `ltp` and `pnl`,
   * carries the market price, and its P&L is the long P&L of the quantity,
   * negated for a SELL record.
   */
  lemma PaperRowFacts(p: Json, ltp: Json -> Option<real>)
    requires PaperRow(p, ltp).Emit?
    ensures var m := p.fields;
      var row := PaperRow(p, ltp).row;
      var l := ltp(m["symbol"]).value;
      var long := (l - FloatOf(m["avg"]).value) * IntOf(m["qty"]).value as real;
      && row.Keys == m.Keys + {"ltp", "pnl"}
      && (forall k :: k in m && k != "ltp" && k != "pnl" ==> row[k] == m[k])
      && row["ltp"] == JNum(l)
      && row["pnl"] == JNum(if m["side"] == JStr("SELL") then -long else long)
  {
  }

  /** One output row per record, each the record's own row; none when any record raises. */
  lemma PaperRowsFacts(ps: seq<Json>, ltp: Json -> Option<real>)
    ensures Rows(ps, PaperStep(ltp)).Some? <==> forall i :: 0 <= i < |ps| ==> PaperRow(ps[i], ltp).Emit?
    ensures Rows(ps, PaperStep(ltp)).Some? ==>
      |Rows(ps, PaperStep(ltp)).value| == |ps|
      && forall k :: 0 <= k < |ps| ==> Rows(ps, PaperStep(ltp)).value[k] == PaperRow(ps[k], ltp).row
  {
    RowsSomeIff(ps, PaperStep(ltp));
    if Rows(ps, PaperStep(ltp)).Some? {
      RowsNoSkip(ps, PaperStep(ltp));
    }
  }
}
