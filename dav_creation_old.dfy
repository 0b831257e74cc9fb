/** The legacy document-creation driver, `run` of
    src/tests/test_dav_creation_OLD.py.

    Unlike the current driver it interleaves picks with keystrokes: each
    selection is asked for just before its value is typed, so an empty pick
    stops a run that has already typed into the ERP. Its gateway calls all
    exist in src/db_handler.py. It reads the same selections as the current
    driver (`Gathering`, whose branch fields it ignores) and the same UI
    oracle (`Ui`, whose authorization fields it ignores), plus the outcome
    of the on-screen image search.

    The script is a sequence of blocks, one per step of the source and one
    per product: the run is their concatenation up to the first block that
    aborts (`UntilAbort`). */
module DavCreationOld {
  import opened Common
  import opened Actions
  import opened ItemRules
  import opened DavCreation

  /** `pyautogui.locateOnScreen` of the "ID STUFF" image: found, not found,
      or raised. */
  datatype ImageSearch = Found | NotFound | SearchError

  /** Step 11 (lines 236-246). */
  function ImageKeys(image: ImageSearch): string {
    match image
    case Found => "{ENTER 5}"
    case NotFound => "{ENTER 2}"
    case SearchError => "{ENTER 3}"
  }

  /** Step 9 (lines 211-227): the sales-rep field; cfg 3 types the rep picked
      just before. Every branch ends with a single ENTER. */
  function LegacySalesRepKeys(cfg: Option<int>, salesRep: string): (log: seq<Action>)
    ensures cfg == Some(3) ==> log == [Type(ClearField), Type(salesRep), Type("{ENTER}")]
    ensures cfg != Some(3) ==> log == [Type("{ENTER}")]
  {
    if cfg == Some(3) then [Type(ClearField), Type(salesRep), Type("{ENTER}")] else [Type("{ENTER}")]
  }

  /** Steps 1-5.1 (lines 144-171): the main window, the sales menu, the new
      document key and the credit probe. */
  function Opening(ui: Ui): (log: seq<Action>)
    ensures NoAbort(log) <==> ui.mainWindow && ui.davWindow
  {
    if !ui.mainWindow then
      assert [Abort(WindowNotFound("main_window"))][0].Abort?;
      [Abort(WindowNotFound("main_window"))]
    else if !ui.davWindow then
      assert [Type("%V"), Type("{ENTER}"), Abort(WindowNotFound("dav_inclusion_window"))][2].Abort?;
      [Type("%V"), Type("{ENTER}"), Abort(WindowNotFound("dav_inclusion_window"))]
    else [Type("%V"), Type("{ENTER}"), Type("{F2}")] + HandleOptionalDialog(Credits, "%n", ui.ProbeAt(CreditsAfterOpen))
  }

  /** A pick that stops the run when empty: the picker's ask, then either
      the abort or `keys`, the keys that type the pick (which, when it is
      not empty, is the picker's reply). */
  function PickThen(picker: Picker, choices: seq<string>, reply: string, keys: seq<Action>): (log: seq<Action>)
    requires NoAbort(keys)
    ensures NoAbort(log) <==> PickOne(picker, choices, reply).1 != ""
    ensures PickOne(picker, choices, reply).1 == "" ==> log != [] && log[|log| - 1] == Abort(Cancelled(picker))
    ensures PickOne(picker, choices, reply).1 != "" ==> log == [Ask(picker, choices)] + keys
    ensures |log| >= 1 && (choices != [] ==> log[0] == Ask(picker, choices))
  {
    var p := PickOne(picker, choices, reply);
    if p.1 == "" then
      LastOfAppend(p.0, [Abort(Cancelled(picker))]);
      AbortInSuffix(p.0, [Abort(Cancelled(picker))]);
      p.0 + [Abort(Cancelled(picker))]
    else
      assert NoAbort(p.0);
      NoAbortAppend(p.0, keys);
      p.0 + keys
  }

  /** Steps 6-7 (lines 174-192): nature, then its date keys. */
  function NatureStage(g: Gathering, flags: Flags): seq<Action> {
    PickThen(NaturePicker, g.natures, g.naturePick,
             [Type(ClearField), Type(g.naturePick), Type(DateKeys(flags.natDatEmisPed))])
  }

  /** Step 8 (lines 196-204). */
  function CustomerStage(g: Gathering): seq<Action> {
    PickThen(CustomerPicker, g.customers, g.customerPick, [Type(ClearField), Type(g.customerPick), Type("{ENTER}")])
  }

  /** What follows the sales-rep field up to the payment method: the second
      credit probe and the image-dependent ENTERs (lines 231-246). */
  function AfterSalesRep(ui: Ui, image: ImageSearch): (log: seq<Action>)
    ensures NoAbort(log)
  {
    HandleOptionalDialog(Credits, "%n", ui.ProbeAt(CreditsAfterSalesRep)) + [Type(ImageKeys(image))]
  }

  /** After the credit probe, an image found types `{ENTER 5}`, an image not
      found `{ENTER 2}`, and a failed search `{ENTER 3}`. */
  lemma ImageSearchKeys(ui: Ui, image: ImageSearch)
    ensures var log := AfterSalesRep(ui, image);
      |log| == 2 && log[0].Probe? && log[0].dialog == Credits &&
      (log[1] == Type("{ENTER 5}") <==> image == Found) &&
      (log[1] == Type("{ENTER 2}") <==> image == NotFound) &&
      (log[1] == Type("{ENTER 3}") <==> image == SearchError)
  {
  }

  /** Steps 9-11 (lines 209-246): the rep is picked only when cfg is 3. */
  function SalesRepStage(g: Gathering, ui: Ui, image: ImageSearch, flags: Flags): (log: seq<Action>)
    ensures NoAbort(log) <==> (flags.natCfgVendedor == Some(3) ==> PickOne(SalesRepPicker, g.salesReps, g.salesRepPick).1 != "")
  {
    var cfg := flags.natCfgVendedor;
    if cfg == Some(3) then
      NoAbortAppend(LegacySalesRepKeys(cfg, g.salesRepPick), AfterSalesRep(ui, image));
      PickThen(SalesRepPicker, g.salesReps, g.salesRepPick, LegacySalesRepKeys(cfg, g.salesRepPick) + AfterSalesRep(ui, image))
    else
      NoAbortAppend(LegacySalesRepKeys(cfg, ""), AfterSalesRep(ui, image));
      LegacySalesRepKeys(cfg, "") + AfterSalesRep(ui, image)
  }

  /** Steps 12-13 (lines 251-265). */
  function MethodStage(g: Gathering): seq<Action> {
    PickThen(PaymentMethodPicker, MethodChoices(g), g.methodPick, [Type(ClearField), Type(g.methodPick), Type("{ENTER}")])
  }

  /** The keys after the term: the five ENTERs and the optional commission probe (lines 284-291). */
  function AfterTerm(ui: Ui, flags: Flags): (log: seq<Action>)
    ensures NoAbort(log)
  {
    [Type("{ENTER 5}")] + (if IsOne(flags.pa5DigComisDav) then HandleOptionalDialog(Credits, "%(s)", ui.ProbeAt(CommissionSite)) else [])
  }

  /** Steps 14-16 (lines 270-291). */
  function TermStage(g: Gathering, ui: Ui, flags: Flags): seq<Action> {
    PickThen(PaymentTermPicker, TermChoices(g), g.termPick, [Type(ClearField), Type(g.termPick)] + AfterTerm(ui, flags))
  }

  /** Step 17.1 (lines 299-315): the stock map needs the product column, so
      an empty product query stops the run before the picker; an empty
      selection stops it before the item loop. */
  function ProductStage(g: Gathering): (log: seq<Action>)
    ensures NoAbort(log) <==> g.products != [] && g.productPicks != []
    ensures g.products == [] ==> log == [Abort(MissingColumn("codigo_produto"))]
    ensures g.products != [] && g.productPicks == [] ==>
      log == [Ask(ProductPicker, ProductCodes(g.products)), Abort(Cancelled(ProductPicker))]
  {
    if g.products == [] then
      assert [Abort(MissingColumn("codigo_produto"))][0].Abort?;
      [Abort(MissingColumn("codigo_produto"))]
    else
      var ps := PickMany(ProductPicker, ProductCodes(g.products), g.productPicks);
      if ps.1 == [] then
        assert (ps.0 + [Abort(Cancelled(ProductPicker))])[1].Abort?;
        ps.0 + [Abort(Cancelled(ProductPicker))]
      else ps.0
  }

  /** `unit_counts_map.get(product_code, 1)`: the map is built from the raw
      first two columns, so its keys are not stripped. */
  function LegacyUnits(g: Gathering, code: string): int {
    match Lookup(g.unitRows, code)
    case Some(u) => u
    case None => 1
  }

  /** Two ENTERs for more than one unit, one otherwise (lines 345-348). */
  function LegacyUnitKeys(units: int): string {
    if units > 1 then "{ENTER 2}" else "{ENTER}"
  }

  /** One product of the loop (lines 329-366). */
  function LegacyItem(g: Gathering, ui: Ui, flags: Flags, k: nat): (log: seq<Action>)
    requires k < |g.productPicks|
    ensures NoAbort(log)
  {
    var code := Strip(g.productPicks[k]);
    var head := [Type(code)] + LegacyLastPrice(ui, flags, k);
    var tail := [Type(LegacyUnitKeys(LegacyUnits(g, code))), Type(LegacyQuantityKeys(g, ui, k, code)), Type("{ENTER 3}")];
    NoAbortAppend([Type(code)], LegacyLastPrice(ui, flags, k));
    NoAbortAppend(head, tail);
    head + tail
  }

  /** Lines 352-362: `str` of the quantity drawn from the clamped stock. */
  function LegacyQuantityKeys(g: Gathering, ui: Ui, k: nat, code: string): string {
    Decimal(LegacyQuantity(StockOf(StockPairs(g.products), code), ui.SeedAt(k)) as nat)
  }

  /** Lines 337-340: with Pa2_vultpreco at 1, an ENTER and then the last-price probe. */
  function LegacyLastPrice(ui: Ui, flags: Flags, k: nat): (log: seq<Action>)
    ensures NoAbort(log)
    ensures IsOne(flags.pa2VultPreco) ==>
      log == [Type("{ENTER}"), Probe(LastPrice, "{ENTER}", ui.ProbeAt(LastPriceSite(k)) == Appeared)]
    ensures !IsOne(flags.pa2VultPreco) ==> log == []
  {
    if IsOne(flags.pa2VultPreco) then [Type("{ENTER}")] + HandleOptionalDialog(LastPrice, "{ENTER}", ui.ProbeAt(LastPriceSite(k))) else []
  }

  /** Step `i` of the seven before the loop. */
  function StageBlock(g: Gathering, ui: Ui, image: ImageSearch, flags: Flags, i: nat): seq<Action>
    requires i < 7
  {
    match i
    case 0 => Opening(ui)
    case 1 => NatureStage(g, flags)
    case 2 => CustomerStage(g)
    case 3 => SalesRepStage(g, ui, image, flags)
    case 4 => MethodStage(g)
    case 5 => TermStage(g, ui, flags)
    case _ => ProductStage(g)
  }

  /** Whether step `i` of the seven before the loop lets the run go on. */
  predicate StageOk(g: Gathering, ui: Ui, flags: Flags, i: nat) {
    match i
    case 0 => ui.mainWindow && ui.davWindow
    case 1 => PickOne(NaturePicker, g.natures, g.naturePick).1 != ""
    case 2 => PickOne(CustomerPicker, g.customers, g.customerPick).1 != ""
    case 3 => flags.natCfgVendedor == Some(3) ==> PickOne(SalesRepPicker, g.salesReps, g.salesRepPick).1 != ""
    case 4 => PickOne(PaymentMethodPicker, MethodChoices(g), g.methodPick).1 != ""
    case 5 => PickOne(PaymentTermPicker, TermChoices(g), g.termPick).1 != ""
    case _ => g.products != [] && g.productPicks != []
  }

  /** The seven steps before the loop, then one block per selected product. */
  function LegacyBlocks(g: Gathering, ui: Ui, image: ImageSearch, flags: Flags): (blocks: seq<seq<Action>>)
    ensures |blocks| == 7 + |g.productPicks|
    ensures forall i :: 0 <= i < 7 ==> blocks[i] == StageBlock(g, ui, image, flags, i)
    ensures forall k :: 0 <= k < |g.productPicks| ==> blocks[7 + k] == LegacyItem(g, ui, flags, k)
  {
    seq(7, i requires 0 <= i < 7 => StageBlock(g, ui, image, flags, i))
    + seq(|g.productPicks|, k requires 0 <= k < |g.productPicks| => LegacyItem(g, ui, flags, k))
  }

  /** The whole legacy run (the specification of `RunLegacy`). */
  function LegacyScript(g: Gathering, ui: Ui, image: ImageSearch, flags: Flags): seq<Action> {
    UntilAbort(LegacyBlocks(g, ui, image, flags), 0)
  }

  /** One block of the loop added to the log: the log plus the rest is still the run. */
  lemma Advance(blocks: seq<seq<Action>>, log: seq<Action>, k: nat, whole: seq<Action>)
    requires k < |blocks| && NoAbort(blocks[k])
    requires log + UntilAbort(blocks, k) == whole
    ensures (log + blocks[k]) + UntilAbort(blocks, k + 1) == whole
  {
    AppendAssoc(log, blocks[k], UntilAbort(blocks, k + 1));
  }

  /** A block that aborts is the last one: the log plus it is the run. */
  lemma Finish(blocks: seq<seq<Action>>, log: seq<Action>, k: nat, whole: seq<Action>)
    requires k < |blocks| && !NoAbort(blocks[k])
    requires log + UntilAbort(blocks, k) == whole
    ensures log + blocks[k] == whole
  {
  }

  /** Step `i` added to the log: the run goes on past it when the step lets
      it, and otherwise the log plus the step is the whole run. */
  lemma StageStep(g: Gathering, ui: Ui, image: ImageSearch, flags: Flags, i: nat, log: seq<Action>, whole: seq<Action>)
    requires i < 7
    requires log + UntilAbort(LegacyBlocks(g, ui, image, flags), i) == whole
    ensures StageOk(g, ui, flags, i) ==>
      (log + StageBlock(g, ui, image, flags, i)) + UntilAbort(LegacyBlocks(g, ui, image, flags), i + 1) == whole
    ensures !StageOk(g, ui, flags, i) ==> log + StageBlock(g, ui, image, flags, i) == whole
  {
    var blocks := LegacyBlocks(g, ui, image, flags);
    StageAborts(g, ui, image, flags, i);
    if StageOk(g, ui, flags, i) {
      Advance(blocks, log, i, whole);
    } else {
      Finish(blocks, log, i, whole);
    }
  }

  /** `run` of the legacy driver: each step types its keys and stops the run
      when its pick is empty or its window is missing; then the item loop.
      The run is told in four parts, each ending in the next; every part
      after the log `prefix` completes the whole run. */
  method RunLegacy(g: Gathering, ui: Ui, image: ImageSearch, flags: Flags) returns (log: seq<Action>)
    ensures log == LegacyScript(g, ui, image, flags)
  {
    ghost var whole := LegacyScript(g, ui, image, flags);
    assert [] + UntilAbort(LegacyBlocks(g, ui, image, flags), 0) == whole;
    log := RunOpening(g, ui, image, flags, [], whole);
  }

  /** Steps 1-8 (lines 142-205): the window, the nature and the customer. */
  method RunOpening(g: Gathering, ui: Ui, image: ImageSearch, flags: Flags, prefix: seq<Action>, ghost whole: seq<Action>)
    returns (log: seq<Action>)
    requires prefix + UntilAbort(LegacyBlocks(g, ui, image, flags), 0) == whole
    ensures log == whole
  {
    var go;
    log, go := RunStage(g, ui, image, flags, 0, prefix, whole);  // Opening: steps 1-5.1 (lines 142-171)
    if !go {
      return;
    }
    log, go := RunStage(g, ui, image, flags, 1, log, whole);  // NatureStage: steps 6-7 (lines 173-193)
    if !go {
      return;
    }
    log, go := RunStage(g, ui, image, flags, 2, log, whole);  // CustomerStage: step 8 (lines 195-205)
    if !go {
      return;
    }
    log := RunSalesRepAndMethod(g, ui, image, flags, log, whole);
  }

  /** Steps 9-13 (lines 207-266): the sales rep and the payment method. */
  method RunSalesRepAndMethod(g: Gathering, ui: Ui, image: ImageSearch, flags: Flags, prefix: seq<Action>, ghost whole: seq<Action>)
    returns (log: seq<Action>)
    requires prefix + UntilAbort(LegacyBlocks(g, ui, image, flags), 3) == whole
    ensures log == whole
  {
    var go;
    log, go := RunStage(g, ui, image, flags, 3, prefix, whole);  // SalesRepStage: steps 9-11 (lines 207-247)
    if !go {
      return;
    }
    log, go := RunStage(g, ui, image, flags, 4, log, whole);  // MethodStage: steps 12-13 (lines 249-266)
    if !go {
      return;
    }
    log := RunTermAndProducts(g, ui, image, flags, log, whole);
  }

  /** Steps 14-17.3 (lines 268-366): the payment term and the products, then the item loop. */
  method RunTermAndProducts(g: Gathering, ui: Ui, image: ImageSearch, flags: Flags, prefix: seq<Action>, ghost whole: seq<Action>)
    returns (log: seq<Action>)
    requires prefix + UntilAbort(LegacyBlocks(g, ui, image, flags), 5) == whole
    ensures log == whole
  {
    var go;
    log, go := RunStage(g, ui, image, flags, 5, prefix, whole);  // TermStage: steps 14-16 (lines 268-293)
    if !go {
      return;
    }
    log, go := RunStage(g, ui, image, flags, 6, log, whole);  // ProductStage: steps 17-17.2 (lines 295-326)
    if !go {
      return;
    }
    log := EnterLegacyItems(g, ui, image, flags, log, whole);
  }

  /** Step `i` of `run` after the log `prefix`: its keys are typed, and the
      run goes on (`go`) exactly when the step lets it; otherwise the log
      is the whole run. */
  method RunStage(g: Gathering, ui: Ui, image: ImageSearch, flags: Flags, i: nat, prefix: seq<Action>, ghost whole: seq<Action>)
    returns (log: seq<Action>, go: bool)
    requires i < 7
    requires prefix + UntilAbort(LegacyBlocks(g, ui, image, flags), i) == whole
    ensures go == StageOk(g, ui, flags, i)
    ensures go ==> log + UntilAbort(LegacyBlocks(g, ui, image, flags), i + 1) == whole
    ensures !go ==> log == whole
  {
    var step := StageBlock(g, ui, image, flags, i);
    StageStep(g, ui, image, flags, i, prefix, whole);
    log := prefix + step;
    go := StageOk(g, ui, flags, i);
  }

  /** The product loop (lines 329-366): every selected product's block in
      turn; none of them aborts. */
  method EnterLegacyItems(g: Gathering, ui: Ui, image: ImageSearch, flags: Flags, prefix: seq<Action>, ghost whole: seq<Action>)
    returns (log: seq<Action>)
    requires prefix + UntilAbort(LegacyBlocks(g, ui, image, flags), 7) == whole
    ensures log == whole
  {
    ghost var blocks := LegacyBlocks(g, ui, image, flags);
    log := prefix;
    for k := 0 to |g.productPicks|
      invariant log + UntilAbort(blocks, 7 + k) == whole
    {
      var item := LegacyItem(g, ui, flags, k);
      Advance(blocks, log, 7 + k, whole);
      log := log + item;
    }
  }

  // ---------------------------------------------------------------------------
  // Properties
  // ---------------------------------------------------------------------------

  /** All seven steps let the run go on. */
  predicate LegacyCompletes(g: Gathering, ui: Ui, flags: Flags) {
    forall i :: 0 <= i < 7 ==> StageOk(g, ui, flags, i)
  }

  /** Each of the seven steps aborts exactly when it fails, and then ends with the abort. */
  lemma StageAborts(g: Gathering, ui: Ui, image: ImageSearch, flags: Flags, i: nat)
    requires i < 7
    ensures var b := StageBlock(g, ui, image, flags, i);
      (NoAbort(b) <==> StageOk(g, ui, flags, i)) && (!NoAbort(b) ==> EndsInAbort(b))
  {
    if i == 0 {
      var b := Opening(ui);
      if !ui.mainWindow { assert b == [Abort(WindowNotFound("main_window"))]; }
      else if !ui.davWindow { assert b[|b| - 1] == Abort(WindowNotFound("dav_inclusion_window")); }
    } else if i == 3 {
      if flags.natCfgVendedor != Some(3) { assert NoAbort(SalesRepStage(g, ui, image, flags)); }
    }
  }

  /** Each block aborts exactly when its step fails, and then ends with the
      abort; the product blocks never abort. */
  lemma BlockAborts(g: Gathering, ui: Ui, image: ImageSearch, flags: Flags, i: nat)
    requires i < |LegacyBlocks(g, ui, image, flags)|
    ensures var b := LegacyBlocks(g, ui, image, flags)[i];
      (NoAbort(b) <==> (i < 7 ==> StageOk(g, ui, flags, i))) && (!NoAbort(b) ==> EndsInAbort(b))
  {
    if i < 7 {
      StageAborts(g, ui, image, flags, i);
    }
  }

  /** The legacy run ends without an abort exactly when every step goes on;
      the product loop itself never aborts. */
  lemma LegacyAbortIff(g: Gathering, ui: Ui, image: ImageSearch, flags: Flags)
    ensures NoAbort(LegacyScript(g, ui, image, flags)) <==> LegacyCompletes(g, ui, flags)
  {
    var blocks := LegacyBlocks(g, ui, image, flags);
    forall i | 0 <= i < |blocks| ensures NoAbort(blocks[i]) <==> (i < 7 ==> StageOk(g, ui, flags, i)) {
      BlockAborts(g, ui, image, flags, i);
    }
    UntilAbortIff(blocks, 0);
  }

  /** A legacy run that stops ends with its abort; once the two windows are
      there, it stops only after typing into the ERP (unlike the current
      driver, whose Phase 1 stops send nothing). */
  lemma LegacyStopsAfterTyping(g: Gathering, ui: Ui, image: ImageSearch, flags: Flags)
    requires !LegacyCompletes(g, ui, flags)
    ensures EndsInAbort(LegacyScript(g, ui, image, flags))
    ensures ui.mainWindow && ui.davWindow ==>
      LegacyScript(g, ui, image, flags)[0] == Type("%V") && !NoKeystrokes(LegacyScript(g, ui, image, flags))
  {
    var blocks := LegacyBlocks(g, ui, image, flags);
    forall i | 0 <= i < |blocks| && !NoAbort(blocks[i]) ensures EndsInAbort(blocks[i]) {
      BlockAborts(g, ui, image, flags, i);
    }
    LegacyAbortIff(g, ui, image, flags);
    UntilAbortEndsInAbort(blocks, 0);
    if ui.mainWindow && ui.davWindow {
      BlockAborts(g, ui, image, flags, 0);
      assert UntilAbort(blocks, 0) == blocks[0] + UntilAbort(blocks, 1);
      assert blocks[0][0] == Type("%V");
      assert IsKeystroke(UntilAbort(blocks, 0)[0]);
    }
  }

  /** A completed legacy run enters every selected product, whole and in
      selection order, after the seven steps. */
  lemma LegacyEntersAllItems(g: Gathering, ui: Ui, image: ImageSearch, flags: Flags)
    requires LegacyCompletes(g, ui, flags)
    ensures var blocks := LegacyBlocks(g, ui, image, flags);
      LegacyScript(g, ui, image, flags) == Flatten(blocks[..7]) + Flatten(blocks[7..]) &&
      forall k :: 0 <= k < |g.productPicks| ==> blocks[7..][k] == LegacyItem(g, ui, flags, k)
  {
    var blocks := LegacyBlocks(g, ui, image, flags);
    forall i | 0 <= i < |blocks| ensures NoAbort(blocks[i]) {
      BlockAborts(g, ui, image, flags, i);
    }
    UntilAbortInOrder(blocks, 0, 7);
    UntilAbortInOrder(blocks, 7, |blocks|);
    assert blocks[0..7] == blocks[..7];
    assert blocks[7..|blocks|] == blocks[7..];
    assert UntilAbort(blocks, |blocks|) == [];
  }

  /** Every legacy item types its stripped code first and ends with
      `{ENTER 3}`; Pa2_vultpreco at 1 adds an ENTER before the last-price
      probe; the unit keys are two ENTERs exactly when the (raw-keyed)
      count is above 1, a code without a count counting as 1; the quantity
      typed lies in [1, stock] with no cap. */
  lemma LegacyItemShape(g: Gathering, ui: Ui, flags: Flags, k: nat)
    requires k < |g.productPicks|
    ensures var a := LegacyItem(g, ui, flags, k);
      var code := Strip(g.productPicks[k]);
      var stock := StockOf(StockPairs(g.products), code);
      a[0] == Type(code) && a[|a| - 1] == Type("{ENTER 3}") &&
      (IsOne(flags.pa2VultPreco) ==>
         |a| == 6 && a[1] == Type("{ENTER}") &&
         a[2] == Probe(LastPrice, "{ENTER}", ui.ProbeAt(LastPriceSite(k)) == Appeared)) &&
      (!IsOne(flags.pa2VultPreco) ==> |a| == 4) &&
      (LegacyUnits(g, code) > 1 ==> a[|a| - 3] == Type("{ENTER 2}")) &&
      (LegacyUnits(g, code) <= 1 ==> a[|a| - 3] == Type("{ENTER}")) &&
      ((forall i :: 0 <= i < |g.unitRows| ==> g.unitRows[i].0 != code) ==> a[|a| - 3] == Type("{ENTER}")) &&
      a[|a| - 2] == Type(Decimal(LegacyQuantity(stock, ui.SeedAt(k)) as nat)) &&
      1 <= LegacyQuantity(stock, ui.SeedAt(k)) <= ClampStock(stock)
  {
    var code := Strip(g.productPicks[k]);
    LookupSpec(g.unitRows, code);
  }
}
