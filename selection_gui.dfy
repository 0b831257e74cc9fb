/** The single-selection picker process (src/selection_gui.py): a list of
    display strings, the current row starting at the first, and OK or a
    double click reporting the code of the item shown on the current row.

    The human's part is an input: the row they make current before
    confirming, or closing the window. */
module SelectionGui {
  import opened Common

  /** One entry of the request: `{'code': ..., 'display': ...}`. */
  datatype ListItem = ListItem(code: string, display: string)

  /** How the drivers build an entry from a query row
      (test_dav_creation.py, line 23): the code, " - ", the text. */
  function PickerItem(code: string, text: string): (it: ListItem)
    ensures it.code == code && it.display == code + " - " + text
  {
    ListItem(code, code + " - " + text)
  }

  /** The code of the first item whose display is `text`, if any. */
  function FirstCode(items: seq<ListItem>, text: string): Option<string>
  {
    if items == [] then None
    else if items[0].display == text then Some(items[0].code)
    else FirstCode(items[1..], text)
  }

  /** `FirstCode` finds a code exactly when some item shows `text`, and then
      it is the code of the first such item. */
  lemma {:induction false} FirstCodeSpec(items: seq<ListItem>, text: string)
    ensures FirstCode(items, text).None? <==> forall j :: 0 <= j < |items| ==> items[j].display != text
    ensures FirstCode(items, text).Some? ==>
      exists j :: 0 <= j < |items| && items[j].display == text && FirstCode(items, text).value == items[j].code
        && forall i :: 0 <= i < j ==> items[i].display != text
  {
    if items != [] && items[0].display != text {
      FirstCodeSpec(items[1..], text);
      if FirstCode(items, text).Some? {
        var j :| 0 <= j < |items[1..]| && items[1..][j].display == text
          && FirstCode(items[1..], text).value == items[1..][j].code
          && forall i :: 0 <= i < j ==> items[1..][i].display != text;
        assert forall i :: 0 <= i < j + 1 ==> items[i].display != text by {
          forall i | 0 <= i < j + 1 ensures items[i].display != text {
            if i > 0 { assert items[i] == items[1..][i - 1]; }
          }
        }
      }
    }
  }

  /** With pairwise distinct displays, confirming row `r` reports item `r`'s code. */
  lemma {:induction false} DistinctDisplaysPickRow(items: seq<ListItem>, r: nat)
    requires r < |items|
    requires forall i, j :: 0 <= i < j < |items| ==> items[i].display != items[j].display
    ensures FirstCode(items, items[r].display) == Some(items[r].code)
  {
    if r > 0 {
      assert items[0].display != items[r].display;
      DistinctDisplaysPickRow(items[1..], r - 1);
      assert items[1..][r - 1] == items[r];
    }
  }

  /** Two different entries can show the same display ("1" with "2 - x" and
      "1 - 2" with "x"); confirming the second one then reports the first
      one's code. */
  lemma DisplayCollision()
    ensures PickerItem("1", "2 - x").display == PickerItem("1 - 2", "x").display
    ensures FirstCode([PickerItem("1", "2 - x"), PickerItem("1 - 2", "x")], PickerItem("1 - 2", "x").display) == Some("1")
  {
    assert PickerItem("1", "2 - x").display == "1 - 2 - x";
    assert PickerItem("1 - 2", "x").display == "1 - 2 - x";
  }

  /** The display strings, in item order (what the list widget shows). */
  function Displays(items: seq<ListItem>): (ds: seq<string>)
    ensures |ds| == |items| && forall i :: 0 <= i < |items| ==> ds[i] == items[i].display
  {
    seq(|items|, i requires 0 <= i < |items| => items[i].display)
  }

  /** `SelectionDialog`: the rows of its list widget, the current row, and
      the code the dialog will report. */
  class SelectionDialog {
    var title: string
    var items: seq<ListItem>
    var rows: seq<string>
    var current: Option<nat>
    var selectedCode: Option<string>
    var accepted: bool

    predicate Valid()
      reads this
    {
      rows == Displays(items) && (current.Some? ==> current.value < |rows|)
    }

    /** One row per item showing its display, the first row current, no code yet. */
    constructor (title: string, items: seq<ListItem>)
      ensures Valid()
      ensures this.title == title && this.items == items
      ensures current == (if items == [] then None else Some(0))
      ensures selectedCode == None && !accepted
    {
      this.title := title;
      this.items := items;
      selectedCode := None;
      accepted := false;
      var shown: seq<string> := [];
      for i := 0 to |items|
        invariant shown == Displays(items[..i])
      {
        assert items[..i + 1] == items[..i] + [items[i]];
        shown := shown + [items[i].display];
      }
      assert items[..|items|] == items;
      rows := shown;
      current := if items == [] then None else Some(0);
    }

    /** The human moves the current row; a row outside the list leaves none current. */
    method SetCurrentRow(r: int)
      requires Valid()
      modifies this
      ensures Valid()
      ensures current == (if 0 <= r < |rows| then Some(r as nat) else None)
      ensures title == old(title) && items == old(items) && rows == old(rows)
      ensures selectedCode == old(selectedCode) && accepted == old(accepted)
    {
      current := if 0 <= r < |rows| then Some(r as nat) else None;
    }

    /** `on_ok`: with a current row, the code of the first item whose display
        is that row's text; with none, the code stays as it was. */
    method OnOk()
      requires Valid()
      modifies this
      ensures Valid() && accepted
      ensures old(current).Some? ==> selectedCode == FirstCode(items, old(rows[current.value]))
      ensures old(current).None? ==> selectedCode == old(selectedCode)
      ensures title == old(title) && items == old(items) && rows == old(rows) && current == old(current)
    {
      if current.Some? {
        var text := rows[current.value];
        FirstCodeSpec(items, text);
        for i := 0 to |items|
          invariant forall j :: 0 <= j < i ==> items[j].display != text
          invariant selectedCode == old(selectedCode)
        {
          if items[i].display == text {
            selectedCode := Some(items[i].code);
            FirstCodeIsFirst(items, text, i);
            break;
          }
        }
        assert current.value < |items| && rows[current.value] == items[current.value].display;
      }
      accepted := true;
    }
  }

  /** The first display match determines `FirstCode`. */
  lemma {:induction false} FirstCodeIsFirst(items: seq<ListItem>, text: string, i: nat)
    requires i < |items| && items[i].display == text
    requires forall j :: 0 <= j < i ==> items[j].display != text
    ensures FirstCode(items, text) == Some(items[i].code)
  {
    if i > 0 {
      FirstCodeIsFirst(items[1..], text, i - 1);
    }
  }

  /** The request file's contents: the title if given and the items. */
  datatype Request = Request(title: Option<string>, items: seq<ListItem>)

  /** What the human does: make row `r` current and confirm, or close the window. */
  datatype Interaction = Confirm(row: int) | Close

  /** The process's observable result. */
  datatype ProcessResult = ProcessResult(stdout: string, exitCode: int)

  /** What the process prints and how it exits, for a request (`None` when
      the file cannot be read or parsed) and the human's interaction. */
  function Outcome(request: Option<Request>, act: Interaction): ProcessResult {
    if request.None? then ProcessResult("", 1)
    else
      var items := request.value.items;
      var code :=
        match act
        case Close => None
        case Confirm(r) =>
          if 0 <= r < |items| then FirstCode(items, items[r].display) else None;
      if code.Some? && code.value != "" then ProcessResult(code.value + "\n", 0)
      else ProcessResult("", 0)
  }

  /** `main` (lines 39-58), with the dialog's event loop replaced by the interaction. */
  method RunDialog(request: Option<Request>, act: Interaction) returns (result: ProcessResult)
    ensures result == Outcome(request, act)
  {
    if request.None? {
      return ProcessResult("", 1);
    }
    var title := match request.value.title case Some(t) => t case None => "Selecione um Item";
    var dialog := new SelectionDialog(title, request.value.items);
    if act.Confirm? {
      dialog.SetCurrentRow(act.row);
      dialog.OnOk();
    }
    if dialog.selectedCode.Some? && dialog.selectedCode.value != "" {
      result := ProcessResult(dialog.selectedCode.value + "\n", 0);
    } else {
      result := ProcessResult("", 0);
    }
  }

  /** Only an unreadable request exits 1; closing prints nothing, which the
      caller's `strip()` turns into the empty "cancelled" answer. */
  lemma OutcomeCases(request: Option<Request>, act: Interaction)
    ensures Outcome(request, act).exitCode == 1 <==> request.None?
    ensures Outcome(request, act).exitCode == 0 <==> request.Some?
    ensures act.Close? ==> Outcome(request, act).stdout == "" && Strip(Outcome(request, act).stdout) == ""
  {
  }

  /** Confirming a row of a list with distinct displays prints that item's
      code (when it is not empty) and a newline. */
  lemma ConfirmPrintsRowCode(request: Request, r: int)
    requires 0 <= r < |request.items| && request.items[r].code != ""
    requires forall i, j :: 0 <= i < j < |request.items| ==> request.items[i].display != request.items[j].display
    ensures Outcome(Some(request), Confirm(r)) == ProcessResult(request.items[r].code + "\n", 0)
  {
    DistinctDisplaysPickRow(request.items, r);
  }
}
