/**
 * The order helpers both iQuant venue scripts define, word for word alike:
 * the signed quantity of an order row, the 100-share rounding, the verdict
 * drawn from what the order API returned, and the loading of the orders
 * CSV into rows. The two scripts differ only in the columns they demand
 * of the file, which `Layout` names.
 */
module VenueOrders {
  import opened Common
  import opened Text
  import opened Codes
  import opened LiveFiles

  // ---------------------------------------------------------------------
  // Flags
  // ---------------------------------------------------------------------

  /** `DRY_RUN`, `ENFORCE_BUY_100_LOT` and `ROUND_SELL_TO_100`. */
  datatype Flags = Flags(dryRun: bool, enforceBuyLot: bool, roundSellTo100: bool)

  /** The values both scripts ship with. */
  const Shipped := Flags(false, true, false)

  // ---------------------------------------------------------------------
  // Signed and rounded quantities
  // ---------------------------------------------------------------------

  /** The Chinese character for "sell". */
  const SellChar: char := '\U{5356}'

  /** The action text names a sale: "SELL" in any case, or the character for sell. */
  predicate IsSellAction(action: string) {
    Contains(Canon(action), "SELL") || SellChar in action
  }

  /** `_sign_by_action`: the magnitude of the quantity, negative for a sale. */
  function SignByAction(action: string, qty: int): (r: int)
    ensures Abs(r) == Abs(qty)
    ensures r < 0 <==> IsSellAction(action) && qty != 0
    ensures r > 0 <==> !IsSellAction(action) && qty != 0
  {
    if IsSellAction(action) then -(Abs(qty) as int) else Abs(qty)
  }

  /** `abs(q) // 100 * 100`: the magnitude floored to whole lots of 100. */
  function Lots(q: int): (r: nat)
    ensures r % 100 == 0 && r <= Abs(q) < r + 100
  {
    Abs(q) / 100 * 100
  }

  /** `_round_shares` with the two rounding flags as parameters. */
  function RoundShares(qty: int, isSell: bool, roundSellTo100: bool, enforceBuyLot: bool): (r: int)
    ensures qty == 0 ==> r == 0
    ensures r > 0 ==> qty > 0
    ensures r < 0 ==> qty < 0
    ensures Abs(r) <= Abs(qty)
    ensures isSell && !roundSellTo100 ==> r == qty
    ensures !isSell && !enforceBuyLot ==> r == qty
    ensures (if isSell then roundSellTo100 else enforceBuyLot) ==> r % 100 == 0 && Abs(qty) < Abs(r) + 100
  {
    if qty == 0 then 0
    else if isSell then
      (if roundSellTo100 then Lots(qty) * (if qty < 0 then -1 else 1) else qty)
    else if enforceBuyLot then Lots(qty) * (if qty > 0 then 1 else -1)
    else qty
  }

  // ---------------------------------------------------------------------
  // Orders file rows
  // ---------------------------------------------------------------------

  /** One row of the orders frame after the loader's conversions; `price` is NaN without a price column. */
  datatype Order = Order(orderId: string, code: string, action: string, shares: int, price: Float)

  /** The quantity an order row is placed with: signed by its action, then rounded. */
  function FinalQuantity(o: Order, flags: Flags): (r: int)
    ensures Abs(r) <= Abs(o.shares)
    ensures r < 0 ==> IsSellAction(o.action)
    ensures r > 0 ==> !IsSellAction(o.action)
  {
    var signed := SignByAction(o.action, o.shares);
    RoundShares(signed, signed < 0, flags.roundSellTo100, flags.enforceBuyLot)
  }

  /** With the shipped flags a sale keeps its full size and a purchase is floored to whole lots. */
  lemma ShippedQuantities(o: Order)
    ensures IsSellAction(o.action) ==> FinalQuantity(o, Shipped) == -(Abs(o.shares) as int)
    ensures !IsSellAction(o.action) ==> FinalQuantity(o, Shipped) == Lots(o.shares)
  {
    var signed := SignByAction(o.action, o.shares);
    if !IsSellAction(o.action) && signed != 0 {
      assert Lots(signed) == Lots(o.shares);
    }
  }

  /** Which columns a script demands: `QlibLayout` also accepts "stock" for a missing "code", `LiziLayout` demands "stock". */
  datatype Layout = QlibLayout | LiziLayout

  /** The column the codes are read from, after the script's rename. */
  function CodeColumn(layout: Layout, columns: set<string>): string {
    if layout.QlibLayout? && "code" in columns then "code" else "stock"
  }

  /** The required columns are all present (after the rename). */
  predicate HasRequired(layout: Layout, columns: set<string>) {
    "order_id" in columns && "action" in columns && "shares" in columns &&
    CodeColumn(layout, columns) in columns
  }

  /** `pd.to_numeric(x, errors="coerce")`: an unparsable or empty cell is NaN. */
  function NumericOf(c: Cell, parse: string -> Option<real>): Float {
    if c.Blank? then NaN else parse(c.text)
  }

  /** `to_numeric(..., errors="coerce").fillna(0).astype(int)`: NaN becomes 0, a fraction is truncated. */
  function SharesOf(c: Cell, parse: string -> Option<real>): int {
    var v := NumericOf(c, parse);
    if v.None? then 0 else Trunc(v.value)
  }

  /** `str(x).strip()` of a cell. */
  function StrippedText(c: Cell): string {
    Strip(CellText(c))
  }

  /** The conversions the loader applies to one row. */
  function OrderOf(row: map<string, Cell>, codeCol: string, hasPrice: bool, parse: string -> Option<real>): Order {
    var c := At(row, codeCol);
    Order(StrippedText(At(row, "order_id")),
          NormalizeVenueCode(if c.Blank? then None else Some(c.text)),
          StrippedText(At(row, "action")),
          SharesOf(At(row, "shares"), parse),
          if hasPrice then NumericOf(At(row, "price"), parse) else NaN)
  }

  /** A row survives the loader's filter: it has a code and a non-zero share count. */
  predicate Kept(o: Order) {
    o.code != "" && o.shares != 0
  }

  /** `df[(df["code"] != "") & (df["shares"] != 0)]`: the kept rows, in file order. */
  function KeepOrders(os: seq<Order>): (r: seq<Order>)
    ensures |r| <= |os|
    ensures forall o :: o in r <==> o in os && Kept(o)
  {
    if os == [] then []
    else
      var before := KeepOrders(os[..|os| - 1]);
      var o := os[|os| - 1];
      assert os == os[..|os| - 1] + [o];
      if Kept(o) then before + [o] else before
  }

  /** Every row of the table, converted. */
  function OrdersOf(t: Table, layout: Layout, parse: string -> Option<real>): (r: seq<Order>)
    ensures |r| == |t.rows|
  {
    var col := CodeColumn(layout, t.columns);
    seq(|t.rows|, i requires 0 <= i < |t.rows| => OrderOf(t.rows[i], col, "price" in t.columns, parse))
  }

  /**
   * `_load_orders` / `_load_df` without the cache: a missing file and a
   * missing required column raise; otherwise the converted rows that have
   * a code and a non-zero share count, in file order.
   */
  function ParseOrders(file: Option<Table>, layout: Layout, parse: string -> Option<real>): (r: Outcome<seq<Order>>)
    ensures r.Ok? <==> file.Some? && HasRequired(layout, file.value.columns)
    ensures file.None? ==> r == Raised(FileNotFound)
    ensures file.Some? && !HasRequired(layout, file.value.columns) ==> r == Raised(MissingColumn)
    ensures r.Ok? ==> forall o :: o in r.value ==> Kept(o)
    ensures r.Ok? ==> forall i :: 0 <= i < |file.value.rows| && Kept(OrdersOf(file.value, layout, parse)[i]) ==>
      OrdersOf(file.value, layout, parse)[i] in r.value
  {
    if file.None? then Raised(FileNotFound)
    else if !HasRequired(layout, file.value.columns) then Raised(MissingColumn)
    else Ok(KeepOrders(OrdersOf(file.value, layout, parse)))
  }

  /** On a file with a "stock" column and no "code" column the two scripts load the same rows. */
  lemma LayoutsAgreeOnStockFiles(t: Table, parse: string -> Option<real>)
    requires "stock" in t.columns && "code" !in t.columns
    ensures ParseOrders(Some(t), QlibLayout, parse) == ParseOrders(Some(t), LiziLayout, parse)
  {
    assert OrdersOf(t, QlibLayout, parse) == OrdersOf(t, LiziLayout, parse);
  }

  /** A file with only a "code" column loads in the qlib script and fails in the lizi script. */
  lemma CodeColumnOnlyQlib(t: Table, parse: string -> Option<real>)
    requires "code" in t.columns && "stock" !in t.columns
    requires "order_id" in t.columns && "action" in t.columns && "shares" in t.columns
    ensures ParseOrders(Some(t), QlibLayout, parse).Ok?
    ensures ParseOrders(Some(t), LiziLayout, parse) == Raised(MissingColumn)
  {
  }

  // ---------------------------------------------------------------------
  // What the order API returned
  // ---------------------------------------------------------------------

  /** A Python value the order call may return: None, a bool, a number, a tuple or list, or an object with attributes. */
  datatype Ret = RNone | RBool(b: bool) | RNum(x: real) | RList(items: seq<Ret>) | RObj(attrs: map<string, Ret>)

  /** `x in (None, 0)`: None, zero, and False (which equals 0). */
  predicate IsNoneOrZero(v: Ret) {
    v.RNone? || v == RNum(0.0) || v == RBool(false)
  }

  /** `getattr(ret, name, None)`: only an object carries attributes. */
  function AttrOf(ret: Ret, name: string): Ret {
    if ret.RObj? && name in ret.attrs then ret.attrs[name] else RNone
  }

  /** The attributes an error code is looked for under, in order. */
  const ErrorCodeAttrs: seq<string> := ["m_nErrorCode", "error_code", "ErrorID"]

  /** `isinstance(x, (int, float))`, which a bool also satisfies. */
  predicate IsNumber(v: Ret) {
    v.RBool? || v.RNum?
  }

  /** The numeric value of a number; a bool counts as 0 or 1. */
  function NumberValue(v: Ret): real
    requires IsNumber(v)
  {
    if v.RNum? then v.x else if v.b then 1.0 else 0.0
  }

  /** Why an order call counts as failed; `NoError` is the empty message. */
  datatype OrderError =
    | NoError
    | ReturnedNone
    | ErrorCode(attr: string, code: Ret)
    | ReturnedFalse
    | NotPositive(value: real)
    | TupleStatus(status: Ret)
    | CallRaised(message: string)

  /** The first of `names` under which `ret` carries an error code other than None or 0. */
  function FirstErrorCode(ret: Ret, names: seq<string>): (r: Option<string>)
    ensures r.None? <==> forall k :: 0 <= k < |names| ==> IsNoneOrZero(AttrOf(ret, names[k]))
    ensures r.Some? ==> r.value in names && !IsNoneOrZero(AttrOf(ret, r.value))
  {
    if names == [] then None
    else if !IsNoneOrZero(AttrOf(ret, names[0])) then Some(names[0])
    else
      var rest := FirstErrorCode(ret, names[1..]);
      assert forall k :: 1 <= k < |names| ==> names[k] == names[1..][k - 1];
      rest
  }

  /** `_extract_order_error`, with the message reduced to the reason it reports. */
  function OrderErrorOf(ret: Ret): (e: OrderError)
    ensures ret.RNone? ==> e == ReturnedNone
    ensures ret == RBool(false) || (ret.RNum? && ret.x <= 0.0) ==> !e.NoError?
    ensures ret == RBool(true) || (ret.RNum? && ret.x > 0.0) ==> e == NoError
    ensures ret.RList? && |ret.items| > 0 && IsNumber(ret.items[0]) && NumberValue(ret.items[0]) <= 0.0 ==> !e.NoError?
    ensures ret.RObj? ==> (e.NoError? <==> forall k :: 0 <= k < |ErrorCodeAttrs| ==> IsNoneOrZero(AttrOf(ret, ErrorCodeAttrs[k])))
  {
    if ret.RNone? then ReturnedNone
    else
      var found := FirstErrorCode(ret, ErrorCodeAttrs);
      if found.Some? then ErrorCode(found.value, AttrOf(ret, found.value))
      else
        match ret
        case RBool(b) => if b then NoError else ReturnedFalse
        case RNum(x) => if x > 0.0 then NoError else NotPositive(x)
        case RList(items) =>
          if |items| > 0 && IsNumber(items[0]) && NumberValue(items[0]) <= 0.0 then TupleStatus(items[0]) else NoError
        case RObj(_) => NoError
  }

  /** `_extract_order_error` as the script runs it: the attribute loop, then the type tests. */
  method ExtractOrderError(ret: Ret) returns (e: OrderError)
    ensures e == OrderErrorOf(ret)
  {
    if ret.RNone? {
      return ReturnedNone;
    }
    var k := 0;
    while k < |ErrorCodeAttrs|
      invariant 0 <= k <= |ErrorCodeAttrs|
      invariant FirstErrorCode(ret, ErrorCodeAttrs[k..]) == FirstErrorCode(ret, ErrorCodeAttrs)
    {
      var code := AttrOf(ret, ErrorCodeAttrs[k]);
      if !IsNoneOrZero(code) {
        return ErrorCode(ErrorCodeAttrs[k], code);
      }
      assert ErrorCodeAttrs[k..][1..] == ErrorCodeAttrs[k + 1..];
      k := k + 1;
    }
    match ret {
      case RBool(b) => e := if b then NoError else ReturnedFalse;
      case RNum(x) => e := if x > 0.0 then NoError else NotPositive(x);
      case RList(items) =>
        e := if |items| > 0 && IsNumber(items[0]) && NumberValue(items[0]) <= 0.0 then TupleStatus(items[0]) else NoError;
      case RObj(_) => e := NoError;
    }
  }

  /** How the order call ended: it raised with a message, or it returned a value. */
  datatype CallResult = Threw(message: string) | Returned(ret: Ret)

  /** The outcome of one order: submitted (no warning printed), or failed with a reason. */
  datatype Verdict = Submitted | Failed(reason: OrderError)

  /**
   * The warning the placement loop prints: the exception text, nothing for
   * a return of None or 0, and otherwise `_extract_order_error`'s message.
   * An empty message counts as a submission.
   */
  function VerdictOf(c: CallResult): (v: Verdict)
    ensures c.Returned? && IsNoneOrZero(c.ret) ==> v == Submitted
    ensures c.Threw? ==> (v == Submitted <==> c.message == "")
    ensures v.Failed? ==> !v.reason.NoError?
  {
    match c
    case Threw(m) => if m == "" then Submitted else Failed(CallRaised(m))
    case Returned(r) =>
      if IsNoneOrZero(r) then Submitted
      else
        var e := OrderErrorOf(r);
        if e.NoError? then Submitted else Failed(e)
  }

  /** The verdict a placement loop draws from one order call. */
  method Submit(c: CallResult) returns (v: Verdict)
    ensures v == VerdictOf(c)
  {
    match c {
      case Threw(m) =>
        v := if m == "" then Submitted else Failed(CallRaised(m));
      case Returned(ret) =>
        if IsNoneOrZero(ret) {
          v := Submitted;
        } else {
          var e := ExtractOrderError(ret);
          v := if e.NoError? then Submitted else Failed(e);
        }
    }
  }

  /** `_extract_order_error` reports False as a failure, but the placement loop never asks it: False equals 0. */
  lemma FalseCountsAsSubmitted()
    ensures OrderErrorOf(RBool(false)) != NoError
    ensures VerdictOf(Returned(RBool(false))) == Submitted
  {
  }

  /** One call made to the order API: the row it came from, the quantity sent and the verdict. */
  datatype Sent = Sent(orderId: string, code: string, qty: int, verdict: Verdict)
  /**
   * How a placement loop treats a row: whether the run is dry, the final
   * quantity of a row, and the verdict on the call for a code, a quantity
   * and a price. The loops' contracts hold for any such rules; each script
   * supplies its own.
   */
  datatype Placement = Placement(dryRun: bool, quantity: Order -> int, verdict: (string, int, Float) -> Verdict)

  /**
   * `_load_orders` / `_load_df`: the cached frame if there is one, else the
   * file's rows under the script's layout.
   */
  function CachedLoad(cache: Option<seq<Order>>, file: Option<Table>, layout: Layout, parse: string -> Option<real>): Outcome<seq<Order>> {
    if cache.Some? then Ok(cache.value) else ParseOrders(file, layout, parse)
  }

  /** The frame an execution pass works on: the one `init` stored on the context, else a fresh load. */
  function Pending(ctx: Option<seq<Order>>, cache: Option<seq<Order>>, file: Option<Table>, layout: Layout,
                   parse: string -> Option<real>): Outcome<seq<Order>> {
    if ctx.Some? then Ok(ctx.value) else CachedLoad(cache, file, layout, parse)
  }
}
