/** The action log that every workflow driver produces, and the two probing
    primitives shared by the document-creation drivers: the optional-dialog
    prober and the two-phase authorization handler.

    The live ERP window is not modelled. What the UI does (whether a dialog
    becomes visible in time, whether a button becomes ready) is an oracle
    input, and what the driver sends is a logged action. */
module Actions {
  import opened Common

  /** The transient dialogs the drivers probe for. */
  datatype Dialog =
    | Credits        // credit confirmation, answered with ALT+N / ALT+S
    | StateRegWarning
    | Notification
    | Address
    | LastPrice      // "last price practiced"
    | Attention      // delivery-type change notice

  /** The two buttons of the authorization dialog, in the order they are pressed. */
  datatype AuthButton = Authorize | ConfirmAuthorization

  /** The pickers a driver launches. */
  datatype Picker =
    | BranchPicker | NaturePicker | CustomerPicker | SalesRepPicker
    | PaymentMethodPicker | PaymentTermPicker | ProductPicker | OrderPicker

  /** Why a driver stopped. Each stands for the exception the source raises
      and its top-level handler logs. */
  datatype Reason =
    | Cancelled(picker: Picker)          // a required pick came back empty
    | MissingMethod(name: string)        // AttributeError: the gateway has no such method
    | BadArguments(name: string)         // TypeError: the gateway method takes other arguments
    | MissingColumn(name: string)        // KeyError on a data-frame column
    | WindowNotFound(name: string)       // a non-optional window did not appear
    | NoneComparison(code: string)       // TypeError: `None > 1`

  datatype Action =
    | Type(keys: string)                              // type_keys on the driven window
    | Probe(dialog: Dialog, keys: string, handled: bool) // an optional-dialog probe; `handled`: the keys were sent
    | AuthCheck(detected: bool)                       // the cheap win32 pre-check for the authorization dialog
    | Invoke(button: AuthButton)                      // a button of the authorization dialog was invoked
    | ManualPause                                     // the driver blocks on operator input
    | Ask(picker: Picker, choices: seq<string>)       // a picker process was launched with these codes
    | Abort(reason: Reason)                           // the driver raised and its handler logged it

  /** The places in a driver where an optional dialog is probed; the item
      index distinguishes the probes of the item loop. */
  datatype Site =
    | CreditsAfterOpen | StateRegWarningSite | NotificationSite | AddressSite
    | CreditsAfterSalesRep | CommissionSite
    | LastPriceSite(item: nat) | AttentionSite(item: nat)

  /** The configuration flags the drivers read through `check_field_value`,
      as it returns them (`None` for an absent row): three fields of table
      natoper, by operation type, and five of the parameter tables. */
  datatype Flags = Flags(
    natCfgVendedor: Option<int>, natDatEmisPed: Option<int>, natLcLtPeds: Option<int>,
    pa5DigComisDav: Option<int>, pa2VultPreco: Option<int>, pa2InfAcrePed: Option<int>,
    pa2InfDescPed: Option<int>, pa4TipoEntit: Option<int>)

  /** A flag read with `== 1`: an absent row is not 1. */
  predicate IsOne(v: Option<int>) { v == Some(1) }

  /** `_select_from_grid`: an empty choice set gives `None` without launching
      the picker; otherwise the picker is asked and its stripped output is the
      pick (`""` when the human cancelled or the process failed). */
  function PickOne(picker: Picker, choices: seq<string>, reply: string): (r: (seq<Action>, string))
    ensures choices == [] ==> r == ([], "")
    ensures choices != [] ==> r == ([Ask(picker, choices)], reply)
  {
    if choices == [] then ([], "") else ([Ask(picker, choices)], reply)
  }

  /** `_select_multiple_items_from_grid` of the document drivers: an empty
      product frame gives `[]` without launching the picker. */
  function PickMany(picker: Picker, choices: seq<string>, reply: seq<string>): (r: (seq<Action>, seq<string>))
    ensures choices == [] ==> r == ([], [])
    ensures choices != [] ==> r == ([Ask(picker, choices)], reply)
  {
    if choices == [] then ([], []) else ([Ask(picker, choices)], reply)
  }

  predicate IsKeystroke(a: Action) {
    a.Type? || (a.Probe? && a.handled) || a.Invoke?
  }

  /** The log sends nothing to the ERP. */
  predicate NoKeystrokes(log: seq<Action>) {
    forall i :: 0 <= i < |log| ==> !IsKeystroke(log[i])
  }

  /** The log asks pickers and nothing else. */
  predicate OnlyAsks(log: seq<Action>) {
    forall i :: 0 <= i < |log| ==> log[i].Ask?
  }

  predicate NoAbort(log: seq<Action>) {
    forall i :: 0 <= i < |log| ==> !log[i].Abort?
  }

  /** The index of the first `Type(keys)` in the log, if any. */
  function FirstType(log: seq<Action>): (r: int)
    ensures -1 <= r < |log|
    ensures r >= 0 ==> log[r].Type? && forall i :: 0 <= i < r ==> !log[i].Type?
    ensures r == -1 ==> forall i :: 0 <= i < |log| ==> !log[i].Type?
  {
    if log == [] then -1
    else if log[0].Type? then 0
    else var r := FirstType(log[1..]); if r == -1 then -1 else r + 1
  }

  lemma NoKeystrokesAppend(a: seq<Action>, b: seq<Action>)
    requires NoKeystrokes(a) && NoKeystrokes(b)
    ensures NoKeystrokes(a + b)
  {
    forall i | 0 <= i < |a + b| ensures !IsKeystroke((a + b)[i]) {
      if i >= |a| { assert (a + b)[i] == b[i - |a|]; }
    }
  }

  lemma AppendAssoc(a: seq<Action>, b: seq<Action>, c: seq<Action>)
    ensures a + (b + c) == (a + b) + c
  {
  }

  /** An abort in the suffix survives the concatenation, as does a last action. */
  lemma AbortInSuffix(a: seq<Action>, b: seq<Action>)
    requires !NoAbort(b)
    ensures !NoAbort(a + b) && b != [] && (a + b)[|a + b| - 1] == b[|b| - 1]
  {
    var i :| 0 <= i < |b| && b[i].Abort?;
    assert (a + b)[|a| + i] == b[i];
  }

  lemma LastOfAppend(a: seq<Action>, b: seq<Action>)
    requires b != []
    ensures a + b != [] && (a + b)[|a + b| - 1] == b[|b| - 1]
  {
  }

  lemma NoAbortAppend(a: seq<Action>, b: seq<Action>)
    requires NoAbort(a) && NoAbort(b)
    ensures NoAbort(a + b)
  {
    forall i | 0 <= i < |a + b| ensures !(a + b)[i].Abort? {
      if i >= |a| { assert (a + b)[i] == b[i - |a|]; }
    }
  }

  // ---------------------------------------------------------------------------
  // Item loops: one block of actions per item, up to the first that aborts
  // ---------------------------------------------------------------------------

  /** The blocks `k..` concatenated, stopping after the first that aborts
      (an exception leaves the loop and ends the run). */
  function UntilAbort(blocks: seq<seq<Action>>, k: nat): seq<Action>
    decreases |blocks| - k
  {
    if k >= |blocks| then []
    else if !NoAbort(blocks[k]) then blocks[k]
    else blocks[k] + UntilAbort(blocks, k + 1)
  }

  function Flatten(blocks: seq<seq<Action>>): seq<Action>
  {
    if blocks == [] then [] else blocks[0] + Flatten(blocks[1..])
  }

  lemma {:induction false} FlattenNoAbort(blocks: seq<seq<Action>>)
    requires forall i :: 0 <= i < |blocks| ==> NoAbort(blocks[i])
    ensures NoAbort(Flatten(blocks))
  {
    if blocks != [] {
      FlattenNoAbort(blocks[1..]);
      NoAbortAppend(blocks[0], Flatten(blocks[1..]));
    }
  }

  /** While no block aborts, the blocks are sent whole and in order. */
  lemma {:induction false} UntilAbortInOrder(blocks: seq<seq<Action>>, k: nat, j: nat)
    requires k <= j <= |blocks|
    requires forall i :: k <= i < j ==> NoAbort(blocks[i])
    ensures UntilAbort(blocks, k) == Flatten(blocks[k..j]) + UntilAbort(blocks, j)
    decreases j - k
  {
    if k < j {
      UntilAbortInOrder(blocks, k + 1, j);
      assert blocks[k..j][1..] == blocks[k + 1..j];
      AppendAssoc(blocks[k], Flatten(blocks[k + 1..j]), UntilAbort(blocks, j));
    } else {
      assert blocks[k..j] == [];
    }
  }

  /** The loop aborts exactly when some block from `k` on aborts. */
  lemma {:induction false} UntilAbortIff(blocks: seq<seq<Action>>, k: nat)
    requires k <= |blocks|
    ensures NoAbort(UntilAbort(blocks, k)) <==> forall j :: k <= j < |blocks| ==> NoAbort(blocks[j])
    decreases |blocks| - k
  {
    if k < |blocks| && NoAbort(blocks[k]) {
      UntilAbortIff(blocks, k + 1);
      var rest := UntilAbort(blocks, k + 1);
      if NoAbort(rest) {
        NoAbortAppend(blocks[k], rest);
      } else {
        AbortInSuffix(blocks[k], rest);
      }
    }
  }

  /** The first block from `k` on that aborts, or `|blocks|`. */
  function FirstAbortBlock(blocks: seq<seq<Action>>, k: nat): (j: nat)
    requires k <= |blocks|
    ensures k <= j <= |blocks|
    ensures forall i :: k <= i < j ==> NoAbort(blocks[i])
    ensures j < |blocks| ==> !NoAbort(blocks[j])
    decreases |blocks| - k
  {
    if k == |blocks| || !NoAbort(blocks[k]) then k else FirstAbortBlock(blocks, k + 1)
  }

  /** The loop sends the blocks before the first aborting one whole and in
      order, then that block, and nothing after it. */
  lemma UntilAbortStopsAtFirst(blocks: seq<seq<Action>>, k: nat)
    requires k <= |blocks|
    requires FirstAbortBlock(blocks, k) < |blocks|
    ensures var j := FirstAbortBlock(blocks, k);
      UntilAbort(blocks, k) == Flatten(blocks[k..j]) + blocks[j]
  {
    var j := FirstAbortBlock(blocks, k);
    UntilAbortInOrder(blocks, k, j);
  }

  /** An aborting loop ends with the last action of its first aborting block. */
  lemma {:induction false} UntilAbortEndsAtFirst(blocks: seq<seq<Action>>, k: nat)
    requires k <= |blocks|
    requires !NoAbort(UntilAbort(blocks, k))
    ensures FirstAbortBlock(blocks, k) < |blocks|
    ensures var s, b := UntilAbort(blocks, k), blocks[FirstAbortBlock(blocks, k)];
      s != [] && b != [] && s[|s| - 1] == b[|b| - 1]
    decreases |blocks| - k
  {
    if !NoAbort(blocks[k]) {
      assert blocks[k] != [];
    } else {
      var rest := UntilAbort(blocks, k + 1);
      if NoAbort(rest) {
        NoAbortAppend(blocks[k], rest);
      }
      UntilAbortEndsAtFirst(blocks, k + 1);
      LastOfAppend(blocks[k], rest);
    }
  }

  /** The block is non-empty and its last action is an abort. */
  predicate EndsInAbort(b: seq<Action>) {
    b != [] && b[|b| - 1].Abort?
  }

  /** When every block that aborts ends with its abort, so does an aborting loop. */
  lemma UntilAbortEndsInAbort(blocks: seq<seq<Action>>, k: nat)
    requires k <= |blocks|
    requires forall i :: k <= i < |blocks| && !NoAbort(blocks[i]) ==> EndsInAbort(blocks[i])
    requires !NoAbort(UntilAbort(blocks, k))
    ensures EndsInAbort(UntilAbort(blocks, k))
  {
    UntilAbortEndsAtFirst(blocks, k);
  }

  // ---------------------------------------------------------------------------
  // Optional-dialog prober
  // ---------------------------------------------------------------------------

  /** What happened when a probe looked for a dialog: it became visible and
      took the keys, it did not appear in time (ElementNotFoundError or
      TimeoutError), or interacting with it failed in another way. */
  datatype ProbeOutcome = Appeared | Absent | Failed

  /** `_handle_optional_dialog`: look for the dialog; only if it is visible,
      focus it and send the keys. Absence and errors are logged and swallowed. */
  function HandleOptionalDialog(dialog: Dialog, keys: string, outcome: ProbeOutcome): (log: seq<Action>)
    ensures |log| == 1 && log[0].Probe? && log[0].dialog == dialog && log[0].keys == keys
    ensures log[0].handled <==> outcome == Appeared
    ensures NoAbort(log)
  {
    [Probe(dialog, keys, outcome == Appeared)]
  }

  // ---------------------------------------------------------------------------
  // Authorization dialog (two phases)
  // ---------------------------------------------------------------------------

  /** How far the rich-backend handler got: the dialog did not appear, the
      "Authorize" button never became ready, the "Confirm Authorization"
      button never became ready, or both buttons were invoked. Any other
      error is one of the first three: it stops the handler where it occurs. */
  datatype AuthStage = DialogMissing | AuthorizeUnavailable | ConfirmUnavailable | BothInvoked

  /** `_handle_authorization_dialog`: invoke "Authorize" and then
      "Confirm Authorization", stopping silently at the first step that fails. */
  function HandleAuthorization(stage: AuthStage): (log: seq<Action>)
    ensures NoAbort(log) && |log| <= 2
    ensures forall i :: 0 <= i < |log| ==> log[i].Invoke?
    ensures (Invoke(Authorize) in log) <==> (stage == ConfirmUnavailable || stage == BothInvoked)
    ensures (Invoke(ConfirmAuthorization) in log) <==> stage == BothInvoked
    ensures |log| > 0 ==> log[0] == Invoke(Authorize)
  {
    match stage
    case DialogMissing => []
    case AuthorizeUnavailable => []
    case ConfirmUnavailable => [Invoke(Authorize)]
    case BothInvoked => [Invoke(Authorize), Invoke(ConfirmAuthorization)]
  }

  /** Lines 503-506 of the current driver: the cheap pre-check (True only when
      the dialog became visible in time; a timeout or any error gives False)
      and, only when it reports the dialog, the rich-backend handler. */
  function AuthorizationStep(detected: bool, stage: AuthStage): (log: seq<Action>)
    ensures |log| >= 1 && log[0] == AuthCheck(detected) && NoAbort(log)
    ensures !detected ==> log == [AuthCheck(false)]
    ensures log[1..] == (if detected then HandleAuthorization(stage) else [])
  {
    [AuthCheck(detected)] + (if detected then HandleAuthorization(stage) else [])
  }

  /** In the authorization step, "Confirm Authorization" is invoked only after
      "Authorize", and only when the pre-check saw the dialog. */
  lemma AuthorizeBeforeConfirm(detected: bool, stage: AuthStage, j: int)
    requires 0 <= j < |AuthorizationStep(detected, stage)|
    requires AuthorizationStep(detected, stage)[j] == Invoke(ConfirmAuthorization)
    ensures detected && j >= 2 && AuthorizationStep(detected, stage)[j - 1] == Invoke(Authorize)
  {
  }
}
