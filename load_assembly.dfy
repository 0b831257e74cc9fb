/** The load-assembly driver, `run` of src/tests/test_load_assembly.py:
    today's orders are offered in the multi-selection picker, the selected
    rows are filtered back out of the order frame, and each selected order
    is typed into the logistics window.

    The selection helper filters on a column given by name; as written that
    name is `ped_numero`, which the rename just before the picker removes
    (`AsWrittenKey`, `AsWrittenSelectsNothing`). The model keeps the key a
    parameter so the row loop can be stated for a key that exists. */
module LoadAssembly {
  import opened Common
  import opened Actions

  /** A row of today's orders, with its order number and series as `str`
      renders them. */
  datatype OrderRow = OrderRow(numero: string, serie: string)

  /** The order frame: the names of its two columns and its rows. */
  datatype OrderFrame = OrderFrame(numberColumn: string, seriesColumn: string, rows: seq<OrderRow>)

  /** The frame `get_sales_orders_for_today` returns. */
  function QueryFrame(orders: seq<OrderRow>): OrderFrame {
    OrderFrame("ped_numero", "ped_spvcodigo", orders)
  }

  /** `rename(columns={'ped_numero': 'pedido', 'ped_spvcodigo': 'série'})` on one name. */
  function RenameColumn(name: string): string {
    if name == "ped_numero" then "pedido" else if name == "ped_spvcodigo" then "série" else name
  }

  function Renamed(f: OrderFrame): (r: OrderFrame)
    ensures r.rows == f.rows
  {
    OrderFrame(RenameColumn(f.numberColumn), RenameColumn(f.seriesColumn), f.rows)
  }

  /** The column the selection helper filters on, as written. */
  const AsWrittenKey := "ped_numero"

  /** What the multi-selection picker process gave back: the decoded list
      of codes (`null` decodes to `None`), or a failure (the process failed or
      its output was not JSON). */
  datatype PickerReply = Reply(codes: seq<Option<string>>) | PickerFailed

  /** The value of a row in the column named `key` (the caller checks that
      the column exists). */
  function Cell(f: OrderFrame, row: OrderRow, key: string): string {
    if key == f.numberColumn then row.numero else row.serie
  }

  /** `isin`: the row's value is among the chosen codes. */
  predicate Chosen(f: OrderFrame, key: string, codes: seq<Option<string>>, row: OrderRow) {
    Some(Cell(f, row, key)) in codes
  }

  /** The rows whose `key` value is chosen, in input order. */
  function Filter(f: OrderFrame, key: string, codes: seq<Option<string>>, rows: seq<OrderRow>): seq<OrderRow>
  {
    if rows == [] then []
    else
      var rest := Filter(f, key, codes, rows[1..]);
      if Chosen(f, key, codes, rows[0]) then [rows[0]] + rest else rest
  }

  /** Exactly the chosen rows survive the filter, and it adds nothing. */
  lemma {:induction false} FilterSpec(f: OrderFrame, key: string, codes: seq<Option<string>>, rows: seq<OrderRow>)
    ensures |Filter(f, key, codes, rows)| <= |rows|
    ensures forall r :: r in Filter(f, key, codes, rows) <==> r in rows && Chosen(f, key, codes, r)
  {
    if rows != [] {
      FilterSpec(f, key, codes, rows[1..]);
      assert rows == [rows[0]] + rows[1..];
    }
  }

  /** A reply without any code (only `null`s) chooses no row. */
  lemma {:induction false} NullCodesChooseNothing(f: OrderFrame, key: string, codes: seq<Option<string>>, rows: seq<OrderRow>)
    requires forall i :: 0 <= i < |codes| ==> codes[i].None?
    ensures Filter(f, key, codes, rows) == []
  {
    if rows != [] {
      NullCodesChooseNothing(f, key, codes, rows[1..]);
    }
  }

  /** The specification of `SelectRows`: `[]` for an empty frame, a missing
      column (the `KeyError` is caught) or a failed picker; otherwise the
      chosen rows. */
  function Selection(f: OrderFrame, key: string, reply: PickerReply): seq<OrderRow> {
    if f.rows == [] || reply.PickerFailed? || (key != f.numberColumn && key != f.seriesColumn) then []
    else Filter(f, key, reply.codes, f.rows)
  }

  /** `_select_multiple_items_from_grid` of this driver (lines 16-53): the
      rows of the frame whose `key` value is among the codes, in frame order. */
  method SelectRows(f: OrderFrame, key: string, reply: PickerReply) returns (sel: seq<OrderRow>)
    ensures sel == Selection(f, key, reply)
  {
    if f.rows == [] || reply.PickerFailed? || (key != f.numberColumn && key != f.seriesColumn) {
      return [];
    }
    sel := [];
    var i := |f.rows|;
    while i > 0
      invariant 0 <= i <= |f.rows|
      invariant sel == Filter(f, key, reply.codes, f.rows[i..])
      decreases i
    {
      i := i - 1;
      assert f.rows[i..][1..] == f.rows[i + 1..];
      if Some(Cell(f, f.rows[i], key)) in reply.codes {
        sel := [f.rows[i]] + sel;
      }
    }
  }

  /** After the rename, the as-written key names no column: the selection
      is empty whatever the human picked, so the driver stops. */
  lemma AsWrittenSelectsNothing(orders: seq<OrderRow>, reply: PickerReply)
    ensures Selection(Renamed(QueryFrame(orders)), AsWrittenKey, reply) == []
  {
  }

  /** The keys of row `i`: the first row is number, ENTER, series; every
      later one is series, ENTER, number (lines 120-125). */
  function RowKeys(sel: seq<OrderRow>, i: nat): string
    requires i < |sel|
  {
    if i == 0 then sel[i].numero + "{ENTER}" + sel[i].serie
    else sel[i].serie + "{ENTER}" + sel[i].numero
  }

  /** The row loop (lines 114-132): each row's keys, followed by
      `{ENTER 4}` for every row but the last. */
  method TypeOrders(sel: seq<OrderRow>) returns (acts: seq<Action>)
    ensures sel == [] ==> acts == []
    ensures sel != [] ==> |acts| == 2 * |sel| - 1
    ensures forall i :: 0 <= i < |sel| ==> acts[2 * i] == Type(RowKeys(sel, i))
    ensures forall i :: 0 <= i < |sel| - 1 ==> acts[2 * i + 1] == Type("{ENTER 4}")
  {
    acts := [];
    var n := |sel|;
    for i := 0 to n
      invariant i == 0 ==> acts == []
      invariant i > 0 ==> |acts| == 2 * i - 1
      invariant forall j :: 0 <= j < i ==> acts[2 * j] == Type(RowKeys(sel, j))
      invariant forall j :: 0 <= j < i - 1 ==> acts[2 * j + 1] == Type("{ENTER 4}")
    {
      if i > 0 {
        acts := acts + [Type("{ENTER 4}")];
      }
      acts := acts + [Type(RowKeys(sel, i))];
    }
  }

  /** The row loop as a function: at even positions the keys of row
      `p / 2`, at odd positions the advance to the next row. */
  function OrderKeys(sel: seq<OrderRow>): seq<Action>
    requires sel != []
  {
    seq(2 * |sel| - 1, p requires 0 <= p < 2 * |sel| - 1 =>
      if p % 2 == 0 then Type(RowKeys(sel, p / 2)) else Type("{ENTER 4}"))
  }

  /** Row `j` of `OrderKeys` sits at position `2 * j`, and the advance
      after it at `2 * j + 1`. */
  lemma OrderKeysSpec(sel: seq<OrderRow>)
    requires sel != []
    ensures |OrderKeys(sel)| == 2 * |sel| - 1
    ensures forall j :: 0 <= j < |sel| ==> OrderKeys(sel)[2 * j] == Type(RowKeys(sel, j))
    ensures forall j :: 0 <= j < |sel| - 1 ==> OrderKeys(sel)[2 * j + 1] == Type("{ENTER 4}")
  {
    var o := OrderKeys(sel);
    forall j | 0 <= j < |sel| ensures o[2 * j] == Type(RowKeys(sel, j)) {
      assert (2 * j) % 2 == 0 && (2 * j) / 2 == j;
    }
    forall j | 0 <= j < |sel| - 1 ensures o[2 * j + 1] == Type("{ENTER 4}") {
      assert (2 * j + 1) % 2 == 1;
    }
  }

  /** The loop method and the function agree. */
  lemma TypeOrdersIsOrderKeys(sel: seq<OrderRow>, acts: seq<Action>)
    requires sel != [] && |acts| == 2 * |sel| - 1
    requires forall i :: 0 <= i < |sel| ==> acts[2 * i] == Type(RowKeys(sel, i))
    requires forall i :: 0 <= i < |sel| - 1 ==> acts[2 * i + 1] == Type("{ENTER 4}")
    ensures acts == OrderKeys(sel)
  {
    var o := OrderKeys(sel);
    OrderKeysSpec(sel);
    forall p | 0 <= p < |acts| ensures acts[p] == o[p] {
      var i := p / 2;
      if p % 2 == 0 {
        assert p == 2 * i;
      } else {
        assert p == 2 * i + 1;
      }
    }
  }

  /** Whether the two windows the driver needs appear. */
  datatype LoadUi = LoadUi(mainWindow: bool, logisticsWindow: bool)

  /** The order numbers offered to the picker. */
  function OrderNumbers(orders: seq<OrderRow>): (ns: seq<string>)
    ensures |ns| == |orders| && forall i :: 0 <= i < |orders| ==> ns[i] == orders[i].numero
  {
    seq(|orders|, i requires 0 <= i < |orders| => orders[i].numero)
  }

  /** Phase 2 for a non-empty selection (lines 81-132). */
  function Entry(sel: seq<OrderRow>, ui: LoadUi): seq<Action>
    requires sel != []
  {
    if !ui.mainWindow then [Abort(WindowNotFound("main_window"))]
    else if !ui.logisticsWindow then [Type("%l"), Type("{ENTER}"), Abort(WindowNotFound("logistics_window"))]
    else [Type("%l"), Type("{ENTER}"), Type("{F2}"), Type("{ENTER 2}")] + OrderKeys(sel)
  }

  /** The whole run for a given filter key (the specification of `Run`). */
  function LoadScript(key: string, orders: seq<OrderRow>, reply: PickerReply, ui: LoadUi): seq<Action> {
    if orders == [] then []
    else
      var sel := Selection(Renamed(QueryFrame(orders)), key, reply);
      [Ask(OrderPicker, OrderNumbers(orders))]
      + if sel == [] then [Abort(Cancelled(OrderPicker))] else Entry(sel, ui)
  }

  /** `run` (lines 56-140). */
  method Run(key: string, orders: seq<OrderRow>, reply: PickerReply, ui: LoadUi) returns (log: seq<Action>)
    ensures log == LoadScript(key, orders, reply, ui)
  {
    if orders == [] {
      return [];
    }
    var frame := Renamed(QueryFrame(orders));
    log := [Ask(OrderPicker, OrderNumbers(orders))];
    var sel := SelectRows(frame, key, reply);
    if sel == [] {
      return log + [Abort(Cancelled(OrderPicker))];
    }
    if !ui.mainWindow {
      return log + [Abort(WindowNotFound("main_window"))];
    }
    log := log + [Type("%l"), Type("{ENTER}")];
    if !ui.logisticsWindow {
      return log + [Abort(WindowNotFound("logistics_window"))];
    }
    log := log + [Type("{F2}"), Type("{ENTER 2}")];
    var rows := TypeOrders(sel);
    TypeOrdersIsOrderKeys(sel, rows);
    log := log + rows;
  }

  /** No orders today: the run sends nothing and asks nothing. */
  lemma NoOrdersNoActions(key: string, reply: PickerReply, ui: LoadUi)
    ensures LoadScript(key, [], reply, ui) == []
  {
  }

  /** An empty selection stops the run before any keystroke. */
  lemma EmptySelectionSendsNothing(key: string, orders: seq<OrderRow>, reply: PickerReply, ui: LoadUi)
    requires orders != [] && Selection(Renamed(QueryFrame(orders)), key, reply) == []
    ensures LoadScript(key, orders, reply, ui) == [Ask(OrderPicker, OrderNumbers(orders)), Abort(Cancelled(OrderPicker))]
    ensures NoKeystrokes(LoadScript(key, orders, reply, ui))
  {
  }

  /** As written, any day with orders ends in the "no order selected" abort
      right after the picker, without a keystroke. */
  lemma AsWrittenAlwaysStops(orders: seq<OrderRow>, reply: PickerReply, ui: LoadUi)
    requires orders != []
    ensures LoadScript(AsWrittenKey, orders, reply, ui) == [Ask(OrderPicker, OrderNumbers(orders)), Abort(Cancelled(OrderPicker))]
  {
    AsWrittenSelectsNothing(orders, reply);
  }

  /** With both windows, the navigation preamble precedes the row loop,
      whose first row is typed number first. */
  lemma EntryPreamble(sel: seq<OrderRow>, ui: LoadUi)
    requires sel != [] && ui.mainWindow && ui.logisticsWindow
    ensures var e := Entry(sel, ui);
      |e| == 4 + 2 * |sel| - 1 &&
      e[..4] == [Type("%l"), Type("{ENTER}"), Type("{F2}"), Type("{ENTER 2}")] &&
      e[4] == Type(sel[0].numero + "{ENTER}" + sel[0].serie)
  {
    var e := Entry(sel, ui);
    var o := OrderKeys(sel);
    OrderKeysSpec(sel);
    assert e == [Type("%l"), Type("{ENTER}"), Type("{F2}"), Type("{ENTER 2}")] + o;
    assert e[4] == o[0] == Type(RowKeys(sel, 0));
  }

  /** Every row after the first is typed series first. */
  lemma EntryRows(sel: seq<OrderRow>, ui: LoadUi)
    requires sel != [] && ui.mainWindow && ui.logisticsWindow
    ensures var e := Entry(sel, ui);
      |e| == 4 + 2 * |sel| - 1 &&
      forall j :: 1 <= j < |sel| ==> e[4 + 2 * j] == Type(sel[j].serie + "{ENTER}" + sel[j].numero)
  {
    var e := Entry(sel, ui);
    var o := OrderKeys(sel);
    OrderKeysSpec(sel);
    assert e == [Type("%l"), Type("{ENTER}"), Type("{F2}"), Type("{ENTER 2}")] + o;
    forall j | 1 <= j < |sel| ensures e[4 + 2 * j] == Type(sel[j].serie + "{ENTER}" + sel[j].numero) {
      assert e[4 + 2 * j] == o[2 * j] == Type(RowKeys(sel, j));
    }
  }

  /** An advance follows every row but the last. */
  lemma EntryAdvances(sel: seq<OrderRow>, ui: LoadUi)
    requires sel != [] && ui.mainWindow && ui.logisticsWindow
    ensures var e := Entry(sel, ui);
      |e| == 4 + 2 * |sel| - 1 &&
      forall j :: 0 <= j < |sel| - 1 ==> e[4 + 2 * j + 1] == Type("{ENTER 4}")
  {
    var e := Entry(sel, ui);
    var o := OrderKeys(sel);
    OrderKeysSpec(sel);
    assert e == [Type("%l"), Type("{ENTER}"), Type("{F2}"), Type("{ENTER 2}")] + o;
    forall j | 0 <= j < |sel| - 1 ensures e[4 + 2 * j + 1] == Type("{ENTER 4}") {
      assert e[4 + 2 * j + 1] == o[2 * j + 1];
    }
  }

  /** A non-empty selection is followed by the entry phase, and a missing
      window stops it with that window's abort before the rows. */
  lemma SelectionEntered(key: string, orders: seq<OrderRow>, reply: PickerReply, ui: LoadUi)
    requires orders != []
    requires Selection(Renamed(QueryFrame(orders)), key, reply) != []
    ensures LoadScript(key, orders, reply, ui)
      == [Ask(OrderPicker, OrderNumbers(orders))] + Entry(Selection(Renamed(QueryFrame(orders)), key, reply), ui)
    ensures !ui.mainWindow ==> NoKeystrokes(LoadScript(key, orders, reply, ui))
    ensures ui.mainWindow && !ui.logisticsWindow ==>
      LoadScript(key, orders, reply, ui)[1..] == [Type("%l"), Type("{ENTER}"), Abort(WindowNotFound("logistics_window"))]
  {
  }

  /** The picker reports each checked record's `codigo_produto`, which an
      order record does not have: with only `null` codes the run stops after
      the picker whatever the filter key. */
  lemma NullCodesStop(key: string, orders: seq<OrderRow>, codes: seq<Option<string>>, ui: LoadUi)
    requires orders != []
    requires forall i :: 0 <= i < |codes| ==> codes[i].None?
    ensures LoadScript(key, orders, Reply(codes), ui) == [Ask(OrderPicker, OrderNumbers(orders)), Abort(Cancelled(OrderPicker))]
  {
    NullCodesChooseNothing(Renamed(QueryFrame(orders)), key, codes, orders);
  }
}
