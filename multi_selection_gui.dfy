/** The multi-selection picker process (src/multi_selection_gui.py): a
    table with a checkbox in column 0 and one column per further header,
    filled from the item records, and OK reporting the codes of the checked
    rows.

    A record is a dictionary from keys to the text `str` gives its values;
    the `codigo_produto` value each cell carries is taken as a string. The
    list printed as JSON is modelled as the list itself. */
module MultiSelectionGui {
  import opened Common

  type Record = map<string, string>

  /** `item.get(key, default)`. */
  function Get(item: Record, key: string, default: string): string {
    if key in item then item[key] else default
  }

  /** `item.get('codigo_produto')`: `None` for a record without that key. */
  function CodeOf(item: Record): Option<string> {
    if "codigo_produto" in item then Some(item["codigo_produto"]) else None
  }

  /** A table cell item: its text and the code stored under `UserRole`. */
  datatype CellItem = CellItem(text: string, code: Option<string>)

  /** Cell `c` of a row: column 0 holds the checkbox widget and no item;
      column `c >= 1` shows the record's value under the lower-cased header. */
  function CellAt(item: Record, headers: seq<string>, c: nat): Option<CellItem>
    requires c < |headers|
  {
    if c == 0 then None else Some(CellItem(Get(item, Lower(headers[c]), ""), CodeOf(item)))
  }

  /** The rows below `n` whose checkbox is checked, in increasing order. */
  function CheckedRows(checked: seq<bool>, n: nat): seq<nat>
    requires n <= |checked|
  {
    if n == 0 then []
    else CheckedRows(checked, n - 1) + (if checked[n - 1] then [n - 1] else [])
  }

  /** `CheckedRows` lists exactly the checked rows below `n`, each once, in
      strictly increasing order. */
  lemma {:induction false} CheckedRowsSpec(checked: seq<bool>, n: nat)
    requires n <= |checked|
    ensures forall k :: 0 <= k < |CheckedRows(checked, n)| ==>
      CheckedRows(checked, n)[k] < n && checked[CheckedRows(checked, n)[k]]
    ensures forall k, l :: 0 <= k < l < |CheckedRows(checked, n)| ==>
      CheckedRows(checked, n)[k] < CheckedRows(checked, n)[l]
    ensures forall r :: 0 <= r < n && checked[r] ==> r in CheckedRows(checked, n)
  {
    if n > 0 {
      CheckedRowsSpec(checked, n - 1);
    }
  }

  /** Nothing checked, no rows. */
  lemma {:induction false} NoneChecked(checked: seq<bool>, n: nat)
    requires n <= |checked|
    requires forall r :: 0 <= r < |checked| ==> !checked[r]
    ensures CheckedRows(checked, n) == []
  {
    if n > 0 {
      NoneChecked(checked, n - 1);
    }
  }

  /** The codes of the given rows. */
  function CodesOf(items: seq<Record>, rows: seq<nat>): (codes: seq<Option<string>>)
    requires forall k :: 0 <= k < |rows| ==> rows[k] < |items|
    ensures |codes| == |rows| && forall k :: 0 <= k < |rows| ==> codes[k] == CodeOf(items[rows[k]])
  {
    seq(|rows|, k requires 0 <= k < |rows| => CodeOf(items[rows[k]]))
  }

  /** The codes of the checked rows below `n`, in row order (what `on_ok`
      has appended after `n` rows). */
  function CodesBelow(items: seq<Record>, checked: seq<bool>, n: nat): seq<Option<string>>
    requires |checked| == |items| && n <= |items|
  {
    if n == 0 then []
    else CodesBelow(items, checked, n - 1) + (if checked[n - 1] then [CodeOf(items[n - 1])] else [])
  }

  /** `CodesBelow` holds the codes of `CheckedRows`, one per checked row. */
  lemma {:induction false} CodesBelowRows(items: seq<Record>, checked: seq<bool>, n: nat)
    requires |checked| == |items| && n <= |items|
    ensures forall k :: 0 <= k < |CheckedRows(checked, n)| ==> CheckedRows(checked, n)[k] < n
    ensures CodesBelow(items, checked, n) == CodesOf(items, CheckedRows(checked, n))
  {
    CheckedRowsSpec(checked, n);
    if n > 0 {
      CodesBelowRows(items, checked, n - 1);
      CheckedRowsSpec(checked, n - 1);
      CodesOfStep(items, CheckedRows(checked, n - 1), if checked[n - 1] then [n - 1] else []);
    }
  }

  /** The codes of the checked rows, in row order. */
  function CheckedCodes(items: seq<Record>, checked: seq<bool>): seq<Option<string>>
    requires |checked| == |items|
  {
    CodesBelow(items, checked, |checked|)
  }

  /** Records without a `codigo_produto` key (the order records of the
      load-assembly driver) are reported as `null` codes. */
  lemma NoCodeKeyGivesNulls(items: seq<Record>, checked: seq<bool>)
    requires |checked| == |items|
    requires forall r :: 0 <= r < |items| ==> "codigo_produto" !in items[r]
    ensures forall k :: 0 <= k < |CheckedCodes(items, checked)| ==> CheckedCodes(items, checked)[k].None?
  {
    CheckedRowsSpec(checked, |checked|);
    CodesBelowRows(items, checked, |checked|);
  }

  /** `MultiSelectionDialog`: the headers, the records, the table's cells
      by row and column, the checkbox states and the codes it reports. */
  class MultiSelectionDialog {
    var title: string
    var headers: seq<string>
    var items: seq<Record>
    var cells: seq<seq<Option<CellItem>>>
    var checked: seq<bool>
    var selectedCodes: seq<Option<string>>

    predicate Valid()
      reads this`cells, this`items, this`headers, this`checked
    {
      |cells| == |items| && |checked| == |items| &&
      forall r :: 0 <= r < |items| ==>
        |cells[r]| == |headers| && forall c :: 0 <= c < |headers| ==> cells[r][c] == CellAt(items[r], headers, c)
    }

    /** `len(items)` rows of `len(headers)` columns, filled row by row,
        nothing checked and no code reported yet. */
    constructor (title: string, items: seq<Record>, headers: seq<string>)
      ensures Valid()
      ensures this.title == title && this.items == items && this.headers == headers
      ensures forall r :: 0 <= r < |items| ==> !checked[r]
      ensures selectedCodes == []
    {
      this.title := title;
      this.items := items;
      this.headers := headers;
      var table: seq<seq<Option<CellItem>>> := [];
      for r := 0 to |items|
        invariant |table| == r
        invariant forall i :: 0 <= i < r ==>
          |table[i]| == |headers| && forall c :: 0 <= c < |headers| ==> table[i][c] == CellAt(items[i], headers, c)
      {
        var row: seq<Option<CellItem>> := [];
        for c := 0 to |headers|
          invariant |row| == c
          invariant forall j :: 0 <= j < c ==> row[j] == CellAt(items[r], headers, j)
        {
          if c == 0 {
            row := row + [None];
          } else {
            row := row + [Some(CellItem(Get(items[r], Lower(headers[c]), ""), CodeOf(items[r])))];
          }
        }
        table := table + [row];
      }
      cells := table;
      checked := seq(|items|, r => false);
      selectedCodes := [];
    }

    /** The human sets the checkboxes. */
    method SetChecked(states: seq<bool>)
      requires Valid() && |states| == |items|
      modifies this
      ensures Valid() && checked == states
      ensures title == old(title) && headers == old(headers) && items == old(items)
      ensures cells == old(cells) && selectedCodes == old(selectedCodes)
    {
      checked := states;
    }

    /** `on_ok`: appends the code held by column 1 of every checked row, in
        row order. Every row needs its checkbox in column 0, and a checked
        row an item in column 1. */
    method OnOk()
      requires Valid()
      requires |items| > 0 ==> |headers| >= 1
      requires true in checked ==> |headers| >= 2
      modifies this`selectedCodes
      ensures Valid()
      ensures selectedCodes == old(selectedCodes) + CheckedCodes(items, checked)
      ensures title == old(title) && headers == old(headers) && items == old(items)
      ensures cells == old(cells) && checked == old(checked)
    {
      for r := 0 to |items|
        invariant selectedCodes == old(selectedCodes) + CodesBelow(items, checked, r)
      {
        if checked[r] {
          var cell := cells[r][1];
          assert cell == CellAt(items[r], headers, 1);
          selectedCodes := selectedCodes + [cell.value.code];
        }
      }
    }
  }

  /** Collecting the codes of more rows appends theirs. */
  lemma CodesOfStep(items: seq<Record>, rows: seq<nat>, more: seq<nat>)
    requires forall k :: 0 <= k < |rows| ==> rows[k] < |items|
    requires forall k :: 0 <= k < |more| ==> more[k] < |items|
    ensures forall k :: 0 <= k < |rows + more| ==> (rows + more)[k] < |items|
    ensures CodesOf(items, rows + more) == CodesOf(items, rows) + CodesOf(items, more)
  {
    assert forall k :: 0 <= k < |rows + more| ==> (rows + more)[k] < |items| by {
      forall k | 0 <= k < |rows + more| ensures (rows + more)[k] < |items| {
        if k >= |rows| { assert (rows + more)[k] == more[k - |rows|]; }
      }
    }
  }

  /** The request file's contents. */
  datatype Request = Request(title: Option<string>, items: seq<Record>, headers: seq<string>)

  /** What the human does: set the checkboxes and press OK, or close the window. */
  datatype Interaction = Confirm(states: seq<bool>) | Close

  /** The process's result: the printed list (absent on the failure exit) and the exit code. */
  datatype ProcessResult = ProcessResult(printed: Option<seq<Option<string>>>, exitCode: int)

  /** What the process prints and how it exits (the specification of `RunDialog`). */
  function Outcome(request: Option<Request>, act: Interaction): ProcessResult
    requires request.Some? && act.Confirm? ==> |act.states| == |request.value.items|
  {
    if request.None? then ProcessResult(None, 1)
    else match act
      case Close => ProcessResult(Some([]), 0)
      case Confirm(states) => ProcessResult(Some(CheckedCodes(request.value.items, states)), 0)
  }

  /** `main` (lines 56-73), with the event loop replaced by the interaction. */
  method RunDialog(request: Option<Request>, act: Interaction) returns (result: ProcessResult)
    requires request.Some? && act.Confirm? ==> |act.states| == |request.value.items|
    requires request.Some? && |request.value.items| > 0 ==> |request.value.headers| >= 1
    requires request.Some? && act.Confirm? && true in act.states ==> |request.value.headers| >= 2
    ensures result == Outcome(request, act)
  {
    if request.None? {
      return ProcessResult(None, 1);
    }
    var title := match request.value.title case Some(t) => t case None => "Selecione os Itens";
    var dialog := new MultiSelectionDialog(title, request.value.items, request.value.headers);
    if act.Confirm? {
      dialog.SetChecked(act.states);
      dialog.OnOk();
      assert dialog.selectedCodes == CheckedCodes(request.value.items, act.states);
    } else {
      assert dialog.selectedCodes == [];
    }
    result := ProcessResult(Some(dialog.selectedCodes), 0);
  }

  /** Only an unreadable request exits 1; closing, or confirming with
      nothing checked, prints the empty list; the printed codes are those
      of checked rows, each row once, in row order. */
  lemma OutcomeCases(request: Option<Request>, act: Interaction)
    requires request.Some? && act.Confirm? ==> |act.states| == |request.value.items|
    ensures Outcome(request, act).exitCode == 1 <==> request.None?
    ensures Outcome(request, act).printed.None? <==> request.None?
    ensures request.Some? && act.Close? ==> Outcome(request, act).printed == Some([])
    ensures request.Some? && act.Confirm? && (forall r :: 0 <= r < |act.states| ==> !act.states[r]) ==>
      Outcome(request, act).printed == Some([])
  {
    if request.Some? && act.Confirm? && (forall r :: 0 <= r < |act.states| ==> !act.states[r]) {
      NoneChecked(act.states, |act.states|);
      CodesBelowRows(request.value.items, act.states, |act.states|);
    }
  }

  /** Every printed code belongs to a checked row, and the rows appear in
      increasing order. */
  lemma CheckedCodesOrder(items: seq<Record>, checked: seq<bool>)
    requires |checked| == |items|
    ensures var rows := CheckedRows(checked, |checked|);
      |CheckedCodes(items, checked)| == |rows| &&
      (forall k :: 0 <= k < |rows| ==>
        rows[k] < |items| && checked[rows[k]] && CheckedCodes(items, checked)[k] == CodeOf(items[rows[k]])) &&
      (forall k, l :: 0 <= k < l < |rows| ==> rows[k] < rows[l]) &&
      (forall r :: 0 <= r < |items| && checked[r] ==> r in rows)
  {
    CheckedRowsSpec(checked, |checked|);
    CodesBelowRows(items, checked, |checked|);
  }
}
