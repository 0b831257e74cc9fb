# Guardian ERP test automation, modelled in Dafny

This project models the GUI test runner for the Guardian ERP. The runner has these parts:

- A console menu (`src/main.py`).
- Two document-creation drivers: the current one, `src/tests/test_dav_creation.py`, and the legacy one, `src/tests/test_dav_creation_OLD.py`. Each one drives the "DAV" (auxiliary sales document) screen.
- A load-assembly driver (`src/tests/test_load_assembly.py`).
- The database gateway they query (`src/db_handler.py`).
- Two picker processes the drivers spawn: `src/selection_gui.py` and `src/multi_selection_gui.py`.

Every driver is modelled as a method that builds the log of what it would do to the user interface. The log is a sequence of `Action`s:

- keystrokes typed;
- picker questions;
- probes of optional dialogs;
- button invocations;
- a final `Abort` carrying the reason the run stopped.

Each driver method is proved equal to a specification function of its inputs. The properties the code promises are lemmas about that function. The world the drivers observe is passed in as oracle inputs:

- the query results and configuration flags;
- the windows and dialogs that appear;
- the human's picks;
- the random draw, given as a seed.

The configuration flags the drivers read through `check_field_value` form one record, `Actions.Flags`. Each field is `None` when the lookup found nothing. The live interface is the record `DavCreation.Ui`: whether each window appears, plus maps from probe sites, items and draws to their outcomes. A site or item the map leaves out sees no dialog, or draws seed 0.

Modules:

- `Common`: Python's `strip` (on Python's white-space set), `upper`/`lower` on ASCII letters, `in` on strings, and `str(int)`.
- `Actions`: the action log, the item-loop combinator `UntilAbort`, the optional-dialog probe and the two-phase authorization handler.
- `ItemRules`: the stock map and the random quantity, shared by both document drivers.
- `DbHandler`: the `DBHandler` class. Queries are described by their shape, and the database's answer is an input.
- `DavCreation` and `DavCreationOld`: the two document-creation drivers.
- `LoadAssembly`: the load-assembly driver and its selection helper.
- `SelectionGui` and `MultiSelectionGui`: the picker processes. Each has its dialog class, the human's interaction as an input, and the printed result with the exit code.
- `EntryPoint`: the menu normalisation, the dispatch loop and the pool-closing rule.

The model keeps the code's behaviour where it is evidently broken, and proves what that behaviour is:

- The current driver calls `get_active_filiais_count`, which `DBHandler` does not define. With the gateway as shown, every run therefore stops at once (`DavCreation.ShownGatewayAbortsImmediately`). The gateway's capabilities are a parameter, so the rest of the driver is still modelled.
- After the picker returns, the load-assembly helper reads `items_df['ped_numero']`, a column the driver renamed beforehand; the `KeyError` is swallowed and the helper returns nothing. Its picker also reports `codigo_produto`, which order records lack. Either defect alone makes every day with orders stop right after the picker (`LoadAssembly.AsWrittenAlwaysStops`, `LoadAssembly.NullCodesStop`).

## Model

| member | source | states |
|---|---|---|
| Common.Strip | src/main.py:39 | the stripped text is no longer than the input |
| Common.TrimStartSpec | src/main.py:39 | the left trim is a suffix of the input that is empty or starts with a non-blank, and every dropped character is blank |
| Common.TrimEndSpec | src/main.py:39 | the right trim is a prefix of the input that is empty or ends with a non-blank, and every dropped character is blank |
| Common.StripSpec | src/main.py:39 | the stripped text is a contiguous slice of the input that is empty or starts and ends with a non-blank, and everything outside the slice is blank |
| Common.StripIdempotent | src/tests/test_dav_creation.py:431 | stripping an already stripped code changes nothing |
| Common.HasSubstring | src/db_handler.py:61 | `sub in s` holds iff `sub` occurs in `s` at some position |
| Common.Decimal | src/tests/test_dav_creation.py:482 | `str` of a natural number is a non-empty digit string with no leading zero |
| Common.DecimalRoundTrip | src/tests/test_dav_creation.py:482 | the decimal text of a quantity reads back as that quantity |
| Actions.HandleOptionalDialog | src/tests/test_dav_creation.py:114-132 | a probe sends its keys only when the dialog appeared; absence and errors never abort the run |
| Actions.HandleAuthorization | src/tests/test_dav_creation.py:160-198 | "Authorize" is invoked iff the handler got past the dialog and the first button; "Confirm Authorization" iff both buttons were ready; "Authorize" comes first; nothing aborts |
| Actions.AuthorizationStep | src/tests/test_dav_creation.py:504-506 | the rich-backend handler runs only when the win32 pre-check reported the dialog |
| Actions.AuthorizeBeforeConfirm | src/tests/test_dav_creation.py:179-190 | any "Confirm Authorization" is immediately preceded by "Authorize", and only after a positive pre-check |
| Actions.PickOne | src/tests/test_dav_creation.py:14-61 | definition (the contract is the source's own table): no choices: no picker is launched and the pick is empty; otherwise the picker is asked once and its reply is the pick |
| Actions.PickMany | src/tests/test_dav_creation.py:63-112 | definition (the contract is the source's own table): no product rows: no picker is launched and nothing is picked; otherwise the picker is asked once and its reply is the selection |
| Actions.UntilAbortIff | src/tests/test_dav_creation.py:430-535 | a per-item loop that stops at the first aborting item is abort-free iff every item is |
| Actions.UntilAbortStopsAtFirst | src/tests/test_dav_creation.py:430-535 | an aborting loop sends the items before the first aborting one whole and in order, then that item, and nothing after it |
| Actions.UntilAbortInOrder | src/tests/test_dav_creation.py:430 | items before the first abort are entered whole and in order |
| Actions.FirstAbortBlock | src/tests/test_dav_creation.py:430-535 | the first aborting item from `k` on: every item before it is abort-free, and it aborts unless it is past the end |
| Actions.UntilAbortEndsAtFirst | src/tests/test_dav_creation.py:430-535 | an aborting loop has a first aborting item, and the loop's last action is that item's last action |
| Actions.UntilAbortEndsInAbort | src/tests/test_dav_creation.py:430-535 | when every aborting item ends with its abort, an aborting loop ends with an abort |
| ItemRules.LookupSpec | src/tests/test_dav_creation.py:266 | the dictionary lookup misses iff the key is absent, and otherwise returns the value of the key's last pair |
| ItemRules.StockPairs | src/tests/test_dav_creation.py:266 | definition (the contract is the source's own table): the stock map pairs each stripped product code with its stock, in query order |
| ItemRules.ClampStock | src/tests/test_dav_creation.py:469-472 | stock below 1 becomes 1, other stock is kept |
| ItemRules.Quantity | src/tests/test_dav_creation.py:469-477 | the current quantity lies in `[1, min(clamped stock, 20)]` |
| ItemRules.RandInt | src/tests/test_dav_creation.py:475 | the draw lies in `[lo, hi]` |
| ItemRules.RandIntReaches | src/tests/test_dav_creation.py:475 | every value of `[lo, hi]` is drawn for some seed |
| ItemRules.QuantityRange | src/tests/test_dav_creation.py:469-477 | quantity in `[1, 20]` for stock ≥ 20, in `[1, stock]` for smaller stock, exactly 1 for stock ≤ 1 |
| ItemRules.QuantityReaches | src/tests/test_dav_creation.py:469-477 | every quantity allowed by the clamp and the cap is drawn for some seed |
| ItemRules.MissingStockGivesOne | src/tests/test_dav_creation.py:467-477 | a code absent from the stock map always gets quantity 1 |
| ItemRules.LegacyQuantity | src/tests/test_dav_creation_OLD.py:352-358 | the legacy quantity lies in `[1, clamped stock]` |
| ItemRules.LegacyQuantityUncapped | src/tests/test_dav_creation_OLD.py:352-358 | the legacy rule can draw more than 20 for large stock, while the current rule never does |
| DbHandler.FieldQuery | src/db_handler.py:60-66 | the query has a one-parameter WHERE on the condition field iff a condition field is given and the field name does not contain "parametro"; otherwise it is unconditioned with no parameters |
| DbHandler.FirstField | src/db_handler.py:67-69 | definition (the contract is the source's own table): the first row's field when there is a row, otherwise `None` |
| DbHandler.Coalesce | src/db_handler.py:37-43 | definition (the contract is the source's own table): the fetched rows, or an empty table both for zero rows and for a database error |
| DbHandler.ErrorLooksLikeNoRows | src/db_handler.py:40-43 | a database error and an empty result give the same table |
| DbHandler.PlaceholdersShape | src/db_handler.py:179-190 | `n` placeholders `%s` separated by single commas, length 3n-1, empty for 0 |
| DbHandler.CodeParams | src/db_handler.py:191 | definition (the contract is the source's own table): one parameter per code, in input order |
| DbHandler.DBHandler.constructor | src/db_handler.py:8-26 | the port is the configured one or 3306; the pool size is the configured one |
| DbHandler.DBHandler.ExecuteQuery | src/db_handler.py:32-43 | an empty table iff the query failed or fetched nothing; otherwise the fetched rows |
| DbHandler.DBHandler.CheckFieldValue | src/db_handler.py:60-69 | issues `FieldQuery`, and returns `None` iff the query failed or gave no rows, else the first row's field |
| DbHandler.DBHandler.GetProductUnitCounts | src/db_handler.py:175-191 | no query for an empty list; otherwise one query with one placeholder per code and the codes as parameters |
| DavCreation.Gather | src/tests/test_dav_creation.py:215-275 | Phase 1 only asks pickers and sends no keystroke |
| DavCreation.Run | src/tests/test_dav_creation.py:202-540 | the driver's log is `Script`: Phase 1, then the header, then the item loop stopping at the first abort |
| DavCreation.ShownGatewayAbortsImmediately | src/tests/test_dav_creation.py:216 | with the gateway as shown, the run stops at once on the missing branch-count method |
| DavCreation.Phase1StopSendsNothing | src/tests/test_dav_creation.py:215-269 | a run stopped in Phase 1 has sent no keystroke, asked at most seven pickers, and ends with its abort |
| DavCreation.GatherAsksAtMostSeven | src/tests/test_dav_creation.py:215-269 | Phase 1 asks at most seven pickers |
| DavCreation.BranchSelection | src/tests/test_dav_creation.py:215-227 | more than one branch: an empty pick stops the run, else the pick is the branch; one branch: branch 1; none: no branch |
| DavCreation.SalesRepPickerOnlyForCfg3 | src/tests/test_dav_creation.py:241-245 | the sales-rep picker is asked only when Nat_cfgvendedor is 3, and a completed Phase 1 then holds a non-empty rep |
| DavCreation.SalesRepKeys | src/tests/test_dav_creation.py:359-372 | definition (the contract is the source's own table): cfg 1 types `{ENTER 2}`; cfg 3 clears the field, types the rep and `{ENTER 2}`; anything else types `{ENTER}` |
| DavCreation.PaymentFallback | src/tests/test_dav_creation.py:247-259 | the customer's own methods and terms are offered, or all of them when the customer has none; a completed Phase 1 holds the non-empty picks; no choices at all stops the run |
| DavCreation.ProductSelection | src/tests/test_dav_creation.py:261-269 | Phase 1 completes only with a branch-scoped product query, products and a non-empty pick, and then the selection is the pick |
| DavCreation.HeaderAbortsIffIncomplete | src/tests/test_dav_creation.py:287-425 | the header aborts exactly when a window is missing or the flag lookup fails, and then ends with that abort |
| DavCreation.HeaderLayout | src/tests/test_dav_creation.py:320-326 | with both windows the header's fixed keystrokes are in place; Nat_DatEmisPed at 1 types `{ENTER 3}`, any other value `{ENTER 1}` |
| DavCreation.HeaderParties | src/tests/test_dav_creation.py:310-352 | ten actions and no abort: the credit probe, the nature with its date keys, the customer with ENTER, then three probes |
| DavCreation.HeaderPayment | src/tests/test_dav_creation.py:375-410 | eight actions and no abort: the credit probe, then ENTER, the payment method, ENTER, the term and `{ENTER 5}` |
| DavCreation.CommissionStep | src/tests/test_dav_creation.py:414-425 | the commission step aborts iff the gateway refuses the branch-scoped lookup, and then it is only that abort |
| DavCreation.ScriptCases | src/tests/test_dav_creation.py:202-540 | a stopped Phase 1 ends the script with its abort; an incomplete header ends it after the header; otherwise the item loop follows |
| DavCreation.UnitKeys | src/tests/test_dav_creation.py:448-459 | two ENTERs for more than one unit, one otherwise |
| DavCreation.FinaliseCases | src/tests/test_dav_creation.py:498-535 | finalising never aborts; the manual pause happens iff surcharge, discount and tipoentit are all 1; nothing is typed iff surcharge and discount are neither both 1 nor both 0 |
| DavCreation.FinaliseLayout | src/tests/test_dav_creation.py:498-535 | surcharge and discount both 1: ENTER, the authorization step, `{ENTER 5}`, then `{F1}`, the manual pause, `{ENTER 2}` and the attention probe when tipoentit is 1, else `{ENTER 3}`; both 0: exactly `{ENTER 3}`; any other combination: nothing |
| DavCreation.ItemOpening | src/tests/test_dav_creation.py:430-444 | each item types its stripped code first, then the last-price probe only when pa2_vultpreco is 1 |
| DavCreation.ItemEntryOutcome | src/tests/test_dav_creation.py:448-535 | an item with a unit count never aborts, and its quantity lies in `[1, min(clamped stock, 20)]`; the unit keys come first, then one `{ENTER}` exactly when Nat_LcLtPeds is 1, then the quantity |
| DavCreation.ItemAbortIff | src/tests/test_dav_creation.py:448-452 | an item aborts iff its code has no unit count, and then ends with the `None` comparison abort |
| DavCreation.BlocksAbortIff | src/tests/test_dav_creation.py:448-452 | each item block of the loop aborts iff its code has no unit count |
| DavCreation.FirstMissingIsFirstAbortBlock | src/tests/test_dav_creation.py:430-452 | the loop's first aborting item is the first selected code without a unit count |
| DavCreation.ItemsInOrder | src/tests/test_dav_creation.py:430 | items before the first one without a unit count are entered whole and in order |
| DavCreation.ItemLoopAbortIff | src/tests/test_dav_creation.py:430-535 | the item loop aborts exactly when some selected code has no unit count |
| DavCreation.ItemLoopStopsAtFirst | src/tests/test_dav_creation.py:430-452 | an aborting item loop stops at the first such code |
| DavCreation.RunAbortsIffUnitMissing | src/tests/test_dav_creation.py:272-275 | past the header, the run is abort-free iff every selected code has a unit count |
| DavCreationOld.Opening | src/tests/test_dav_creation_OLD.py:144-171 | the opening steps go on iff both windows appear |
| DavCreationOld.PickThen | src/tests/test_dav_creation_OLD.py:174-204 | a pick between keystrokes stops the run with the picker's "cancelled" abort iff it comes back empty |
| DavCreationOld.LegacySalesRepKeys | src/tests/test_dav_creation_OLD.py:209-227 | definition (the contract is the source's own table): cfg 3 clears the field, types the rep and a single `{ENTER}`; anything else types `{ENTER}` |
| DavCreationOld.SalesRepStage | src/tests/test_dav_creation_OLD.py:209-246 | the sales-rep step stops only when cfg is 3 and the rep pick is empty |
| DavCreationOld.ImageSearchKeys | src/tests/test_dav_creation_OLD.py:231-246 | image found types `{ENTER 5}`, not found `{ENTER 2}`, a search error `{ENTER 3}` |
| DavCreationOld.ProductStage | src/tests/test_dav_creation_OLD.py:299-315 | without products the stock map fails on the product column; an empty selection stops before the item loop |
| DavCreationOld.LegacyLastPrice | src/tests/test_dav_creation_OLD.py:337-340 | definition (the contract is the source's own table): Pa2_vultpreco at 1 types an ENTER before the last-price probe; otherwise nothing |
| DavCreationOld.RunLegacy | src/tests/test_dav_creation_OLD.py:135-374 | the legacy driver's log is `LegacyScript`: seven steps, then one block per product, stopping at the first abort |
| DavCreationOld.RunOpening | src/tests/test_dav_creation_OLD.py:142-205 | after any log, steps 1-8 and the rest of the run complete the whole legacy run |
| DavCreationOld.RunSalesRepAndMethod | src/tests/test_dav_creation_OLD.py:207-266 | after the log of steps 1-8, steps 9-13 and the rest complete the whole legacy run |
| DavCreationOld.RunTermAndProducts | src/tests/test_dav_creation_OLD.py:268-366 | after the log of steps 1-13, the term, the products and the item loop complete the whole legacy run |
| DavCreationOld.RunStage | src/tests/test_dav_creation_OLD.py:142-326 | one step typed after the log: the run goes on iff the step lets it, and a step that stops it completes the whole run |
| DavCreationOld.StageStep | src/tests/test_dav_creation_OLD.py:142-326 | a step that lets the run go on leaves the rest of the blocks to come; one that stops it is the last block |
| DavCreationOld.EnterLegacyItems | src/tests/test_dav_creation_OLD.py:327-366 | the item loop, after steps 1-17.2, completes the whole legacy run |
| DavCreationOld.StageAborts | src/tests/test_dav_creation_OLD.py:142-326 | each of the seven steps aborts iff its window is missing or its pick is empty, and then ends with the abort |
| DavCreationOld.BlockAborts | src/tests/test_dav_creation_OLD.py:135-374 | a block aborts iff it is a step that fails, and then ends with the abort; product blocks never abort |
| DavCreationOld.LegacyAbortIff | src/tests/test_dav_creation_OLD.py:135-374 | the legacy run is abort-free exactly when all seven steps go on |
| DavCreationOld.LegacyStopsAfterTyping | src/tests/test_dav_creation_OLD.py:144-315 | a stopped legacy run ends with its abort, and with both windows it has already typed keystrokes |
| DavCreationOld.LegacyEntersAllItems | src/tests/test_dav_creation_OLD.py:329-366 | a completed legacy run enters every selected product whole and in order |
| DavCreationOld.LegacyItemShape | src/tests/test_dav_creation_OLD.py:329-366 | each legacy item types its code first and `{ENTER 3}` last; `{ENTER 2}` for more than one unit, else `{ENTER}` (in particular for a code without a count); the quantity is the uncapped draw; with Pa2_vultpreco at 1 the item is six actions, the third being the last-price probe |
| LoadAssembly.FilterSpec | src/tests/test_load_assembly.py:43 | exactly the rows whose key value is among the chosen codes survive |
| LoadAssembly.SelectRows | src/tests/test_load_assembly.py:16-53 | an empty frame, a failed picker or a missing column give no rows; otherwise the chosen rows in input order |
| LoadAssembly.AsWrittenSelectsNothing | src/tests/test_load_assembly.py:37-72 | after the rename the filter key names no column, so the selection is always empty |
| LoadAssembly.NullCodesChooseNothing | src/tests/test_load_assembly.py:43 | a reply of `null` codes chooses no row |
| LoadAssembly.TypeOrders | src/tests/test_load_assembly.py:114-132 | row 0 is typed number, ENTER, series; every later row series, ENTER, number; `{ENTER 4}` follows every row but the last; 2n-1 actions |
| LoadAssembly.OrderKeysSpec | src/tests/test_load_assembly.py:114-132 | row `j`'s keys sit at position `2j` of the row loop's output and an advance at `2j+1` |
| LoadAssembly.TypeOrdersIsOrderKeys | src/tests/test_load_assembly.py:114-132 | the row loop's output is exactly the interleaving of row keys and advances |
| LoadAssembly.Run | src/tests/test_load_assembly.py:56-140 | the driver's log is `LoadScript` |
| LoadAssembly.NoOrdersNoActions | src/tests/test_load_assembly.py:67-69 | no orders today: nothing is asked or typed |
| LoadAssembly.EmptySelectionSendsNothing | src/tests/test_load_assembly.py:76-77 | an empty selection stops after the picker with no keystroke |
| LoadAssembly.AsWrittenAlwaysStops | src/tests/test_load_assembly.py:72-77 | as written, every day with orders stops right after the picker |
| LoadAssembly.NullCodesStop | src/tests/test_load_assembly.py:74-77 | with only `null` codes from the picker, the run stops after it whatever the key |
| LoadAssembly.EntryPreamble | src/tests/test_load_assembly.py:87-125 | with both windows, ALT+L, ENTER, F2, `{ENTER 2}` precede the rows, and the first row is typed number, ENTER, series |
| LoadAssembly.EntryRows | src/tests/test_load_assembly.py:114-125 | every later row is typed series, ENTER, number |
| LoadAssembly.EntryAdvances | src/tests/test_load_assembly.py:127-132 | `{ENTER 4}` follows every row but the last |
| LoadAssembly.SelectionEntered | src/tests/test_load_assembly.py:81-98 | a missing main window stops before any keystroke; a missing logistics window stops after ALT+L and ENTER |
| SelectionGui.PickerItem | src/tests/test_dav_creation.py:23 | definition (the contract is the source's own table): an entry's display is its code, " - ", and the text |
| SelectionGui.FirstCodeSpec | src/selection_gui.py:33-36 | the lookup finds a code iff some item shows the text, and then it is the first such item's code |
| SelectionGui.FirstCodeIsFirst | src/selection_gui.py:33-36 | the first item showing the text decides the code |
| SelectionGui.DistinctDisplaysPickRow | src/selection_gui.py:31-36 | with distinct displays, confirming row r reports item r's code |
| SelectionGui.DisplayCollision | src/selection_gui.py:34 | two different entries can show the same display, and confirming the second reports the first one's code |
| SelectionGui.Displays | src/selection_gui.py:16-17 | definition (the contract is the source's own table): the list shows the items' displays in item order |
| SelectionGui.SelectionDialog.constructor | src/selection_gui.py:8-28 | one row per item, the first row current, no code yet |
| SelectionGui.SelectionDialog.SetCurrentRow | src/selection_gui.py:27 | a row inside the list becomes current; any other row leaves none current |
| SelectionGui.SelectionDialog.OnOk | src/selection_gui.py:30-37 | with a current row, the code of the first item showing that row's text; with none, the code is unchanged |
| SelectionGui.RunDialog | src/selection_gui.py:39-58 | the process's result is `Outcome` |
| SelectionGui.OutcomeCases | src/selection_gui.py:46-58 | exit 1 iff the request cannot be read; closing prints nothing, which strips to the empty answer |
| SelectionGui.ConfirmPrintsRowCode | src/selection_gui.py:55-56 | confirming a row with a non-empty code prints that code and a newline |
| MultiSelectionGui.CheckedRowsSpec | src/multi_selection_gui.py:49-50 | exactly the checked rows, each once, in increasing order |
| MultiSelectionGui.NoneChecked | src/multi_selection_gui.py:49-53 | nothing checked, no rows |
| MultiSelectionGui.CodesOf | src/multi_selection_gui.py:52-53 | definition (the contract is the source's own table): one code per listed row, in that order |
| MultiSelectionGui.CodesBelowRows | src/multi_selection_gui.py:48-54 | the codes collected after `n` rows are the codes of the checked rows below `n`, in row order |
| MultiSelectionGui.NoCodeKeyGivesNulls | src/multi_selection_gui.py:37 | records without `codigo_produto` are reported as `null` |
| MultiSelectionGui.MultiSelectionDialog.constructor | src/multi_selection_gui.py:9-38 | `len(items)` rows of `len(headers)` cells; column 0 holds only the checkbox, column c ≥ 1 shows the record's value under the lower-cased header and carries its `codigo_produto` |
| MultiSelectionGui.MultiSelectionDialog.SetChecked | src/multi_selection_gui.py:26-30 | the checkboxes take the human's states |
| MultiSelectionGui.MultiSelectionDialog.OnOk | src/multi_selection_gui.py:48-54 | appends the codes of the checked rows, read from column 1, in row order |
| MultiSelectionGui.RunDialog | src/multi_selection_gui.py:56-73 | the process's result is `Outcome` |
| MultiSelectionGui.OutcomeCases | src/multi_selection_gui.py:56-73 | exit 1, and nothing printed, iff the request cannot be read; closing or confirming with nothing checked prints the empty list |
| MultiSelectionGui.CheckedCodesOrder | src/multi_selection_gui.py:49-53 | the printed codes are those of the checked rows, every checked row once, in increasing row order |
| EntryPoint.QuitIff | src/main.py:39-60 | the loop quits iff the stripped line is "q" or "Q" |
| EntryPoint.QuitThroughUnicodeBlanks | src/main.py:39 | a "q" framed by an ideographic space and a unit separator still quits, since `strip` removes all of Python's white space |
| EntryPoint.DigitChoice | src/main.py:39-62 | a digit key is chosen exactly by typing that digit, with any surrounding blanks |
| EntryPoint.RunMain | src/main.py:41-74 | the runner's events are `Session` |
| EntryPoint.MenuDispatchesUntilQuit | src/main.py:57-67 | every line before the first quit line runs its test or reports an invalid option, in order; with no quit line the end of input is logged |
| EntryPoint.DispatchedSpec | src/main.py:62-67 | one event per dispatched line, in line order |
| EntryPoint.FirstQuit | src/main.py:57-60 | the first quit line from `i` on: every earlier line is not a quit, and it is one unless it is past the end |
| EntryPoint.MenuNeverCloses | src/main.py:57-67 | the menu loop itself never closes the pool |
| EntryPoint.SessionRunsUntilQuit | src/main.py:54-74 | once the handler exists, the session is the dispatched lines, the end-of-input log if no quit line came, then the pool closing |
| EntryPoint.ClosePoolIff | src/main.py:69-74 | the pool is closed iff the handler was constructed, exactly once and last; a setup failure is only logged |
| EntryPoint.QuitFirst | src/main.py:59-73 | quitting on the first line runs nothing and only closes the pool |

## Left out

- All pywinauto and pyautogui calls (window lookup, waits, focus, typing, invoking, screen search) are represented only by the actions they would perform. Whether each window appears is an input.
- Timing (`time.sleep`, wait timeouts) is not modelled.
- Logging and `src/logger_config.py` are not modelled. Neither are the configuration and selector file loading, whose failure is an input.
- The subprocess and temporary-file exchange with the picker processes is not modelled. The request and the decoded reply are values, and the JSON text is not modelled.
- Qt widgets and event loops are not modelled. The human's interaction with a picker is an input.
- SQL text, relational semantics and the MySQL pool are not modelled. Query results and database errors are inputs, and statements are recorded by shape.
- `DbHandler.DBHandler.constructor`: the pool is not created. A connection failure is the `poolCreated` input of `EntryPoint.Startup`.
- `close_pool` (db_handler.py:217-221) only logs. It appears as the `PoolClosed` event.
- `get_sales_orders_for_today` and the other fixed queries are only named. Their rows are inputs to the drivers.
- `int(float(...))` stock parsing is not modelled: stock arrives as an integer. `random.randint` is a seed-chosen value of its range: the seed, taken modulo the width of the range, is the offset from the low end.
- `str.strip` removes exactly the characters Python's `str.isspace` accepts. `upper` and `lower` are modelled on ASCII letters only; Python's Unicode case tables are not modelled. Cell values are the text `str` gives them.
- The `input()` manual pause of the current driver is a single `ManualPause` action.
- `Actions.Flags`: the configuration flags are read once per run. The current driver re-reads pa2_vultpreco, Nat_LcLtPeds, pa2_infacreped, pa2_infdescped and pa4_tipoentit for every item (test_dav_creation.py:436, 462, 486, 492, 512), and the legacy driver re-reads Pa2_vultpreco (test_dav_creation_OLD.py:337). A database error swallowed by `execute_query` can make one of those re-reads come back `None` on its own, so the source can finalise one item differently from the next; the model cannot.
- `DavCreationOld.LegacyItemShape`: the legacy unit map is keyed by the raw query codes, exactly as written. A numeric code column would never match a string product code in Python; the model compares codes as strings.
- `MultiSelectionGui.MultiSelectionDialog.OnOk`: a table with fewer than two header columns makes `on_ok` fail. That case is a precondition (every caller passes three or four headers).
- `src/main.py:12` imports `tests.test_dav_creation_new`. That module is not part of this model. Menu choice "1" is recorded as running the document-creation test.
- The diagnostic scripts under `test/` are not modelled. They are one-shot UI inspections with no logic of their own.
