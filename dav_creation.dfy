/** The current document-creation (DAV) driver, `run` of
    src/tests/test_dav_creation.py, as a keystroke-script generator.

    Phase 1 gathers every selection before the ERP is touched; Phase 2 types
    the script, with configuration flags read live and optional-dialog probes
    interspersed; the item loop enters each selected product.

    The driver calls three gateway methods in forms that the shown
    `DBHandler` does not offer. `Gateway` records which of them a gateway
    has, so the same model covers the shown gateway (where the run aborts at
    once) and one that has them (the flow the driver is written for). */
module DavCreation {
  import opened Common
  import opened Actions
  import opened ItemRules

  /** Which of the methods this driver needs the gateway offers:
      `get_active_filiais_count` and `get_active_filiais`;
      `get_available_products(branch)`; `check_field_value(table=, field=, filial_code=)`. */
  datatype Gateway = Gateway(branchQueries: bool, productsByBranch: bool, flagsByBranch: bool)

  /** src/db_handler.py offers none of the three. */
  const ShownGateway := Gateway(false, false, false)

  /** What Phase 1 reads: the gateway's answers and the human's picks. A
      pick is the picker's stripped standard output, `""` when the human
      cancelled or the process failed. */
  datatype Gathering = Gathering(
    branchCount: int, branches: seq<string>, branchPick: string,
    natures: seq<string>, naturePick: string,
    customers: seq<string>, customerPick: string,
    salesReps: seq<string>, salesRepPick: string,
    customerMethods: seq<string>, allMethods: seq<string>, methodPick: string,
    customerTerms: seq<string>, allTerms: seq<string>, termPick: string,
    products: seq<Product>, productPicks: seq<string>,
    unitRows: seq<(string, int)>)

  /** The values Phase 2 replays. */
  datatype Collected = Collected(
    branch: Option<string>, nature: string, customer: string, salesRep: string,
    payMethod: string, term: string,
    stockMap: seq<(string, int)>, selected: seq<string>, unitMap: seq<(string, int)>)

  datatype Phase1 = Ready(log: seq<Action>, c: Collected) | Stopped(log: seq<Action>, reason: Reason)

  /** What the live UI does: whether the two windows the driver needs appear,
      each optional probe's outcome, the authorization dialog per item (the
      pre-check's answer and how far the rich handler gets), and the random
      seed of each item's quantity. */
  datatype Ui = Ui(mainWindow: bool, davWindow: bool, probes: map<Site, ProbeOutcome>,
                   seen: map<nat, bool>, stages: map<nat, AuthStage>, seeds: map<nat, nat>)
  {
    /** The outcome of the probe at `s`; a site left out sees no dialog. */
    function ProbeAt(s: Site): ProbeOutcome {
      if s in probes then probes[s] else Absent
    }

    /** The pre-check's answer for item `k`; an item left out sees no dialog. */
    function SeenAt(k: nat): bool {
      if k in seen then seen[k] else false
    }

    /** How far the rich handler gets for item `k`. */
    function StageAt(k: nat): AuthStage {
      if k in stages then stages[k] else DialogMissing
    }

    /** The random seed of item `k`'s quantity. */
    function SeedAt(k: nat): nat {
      if k in seeds then seeds[k] else 0
    }
  }

  const ClearField := "^a{DELETE}"

  /** The payment methods offered: the customer's own, or all active ones when it has none. */
  function MethodChoices(g: Gathering): seq<string> {
    if g.customerMethods != [] then g.customerMethods else g.allMethods
  }

  /** The payment terms offered: the customer's own, or all compatible ones when it has none. */
  function TermChoices(g: Gathering): seq<string> {
    if g.customerTerms != [] then g.customerTerms else g.allTerms
  }

  /** `str(row['codigo_produto'])` for every product row, in row order. */
  function ProductCodes(products: seq<Product>): (codes: seq<string>)
    ensures |codes| == |products| && forall i :: 0 <= i < |products| ==> codes[i] == products[i].code
  {
    seq(|products|, i requires 0 <= i < |products| => products[i].code)
  }

  /** `unit_counts_map`: the unit-count rows with their codes stripped. */
  function StripKeys(rows: seq<(string, int)>): (m: seq<(string, int)>)
    ensures |m| == |rows| && forall i :: 0 <= i < |rows| ==> m[i] == (Strip(rows[i].0), rows[i].1)
  {
    seq(|rows|, i requires 0 <= i < |rows| => (Strip(rows[i].0), rows[i].1))
  }

  /** Phase 1 (lines 215-275): every pick, every required value, before any UI action. */
  function Gather(gw: Gateway, g: Gathering, flags: Flags): (p: Phase1)
    ensures OnlyAsks(p.log)
  {
    if !gw.branchQueries then Stopped([], MissingMethod("get_active_filiais_count"))
    else
    var b := if g.branchCount > 1 then PickOne(BranchPicker, g.branches, g.branchPick) else ([], "");
    if g.branchCount > 1 && b.1 == "" then Stopped(b.0, Cancelled(BranchPicker))
    else
    var branch := if g.branchCount > 1 then Some(b.1) else if g.branchCount == 1 then Some("1") else None;
    var n := PickOne(NaturePicker, g.natures, g.naturePick);
    var log1 := b.0 + n.0;
    if n.1 == "" then Stopped(log1, Cancelled(NaturePicker))
    else
    var cu := PickOne(CustomerPicker, g.customers, g.customerPick);
    var log2 := log1 + cu.0;
    if cu.1 == "" then Stopped(log2, Cancelled(CustomerPicker))
    else
    var rep := if flags.natCfgVendedor == Some(3) then PickOne(SalesRepPicker, g.salesReps, g.salesRepPick) else ([], "");
    var log3 := log2 + rep.0;
    if flags.natCfgVendedor == Some(3) && rep.1 == "" then Stopped(log3, Cancelled(SalesRepPicker))
    else
    var m := PickOne(PaymentMethodPicker, MethodChoices(g), g.methodPick);
    var log4 := log3 + m.0;
    if m.1 == "" then Stopped(log4, Cancelled(PaymentMethodPicker))
    else
    var t := PickOne(PaymentTermPicker, TermChoices(g), g.termPick);
    var log5 := log4 + t.0;
    if t.1 == "" then Stopped(log5, Cancelled(PaymentTermPicker))
    else if !gw.productsByBranch then Stopped(log5, BadArguments("get_available_products"))
    else if g.products == [] then Stopped(log5, MissingColumn("codigo_produto"))
    else
    var ps := PickMany(ProductPicker, ProductCodes(g.products), g.productPicks);
    var log6 := log5 + ps.0;
    if ps.1 == [] then Stopped(log6, Cancelled(ProductPicker))
    else
    Ready(log6, Collected(branch, n.1, cu.1, rep.1, m.1, t.1, StockPairs(g.products), ps.1, StripKeys(g.unitRows)))
  }

  /** Step 7: `{ENTER 3}` when Nat_DatEmisPed is 1, `{ENTER 1}` otherwise (absent included). */
  function DateKeys(v: Option<int>): string {
    if IsOne(v) then "{ENTER 3}" else "{ENTER 1}"
  }

  /** Step 9, the sales-rep field, by Nat_cfgvendedor. */
  function SalesRepKeys(cfg: Option<int>, salesRep: string): (log: seq<Action>)
    ensures cfg == Some(1) ==> log == [Type("{ENTER 2}")]
    ensures cfg == Some(3) ==> log == [Type(ClearField), Type(salesRep), Type("{ENTER 2}")]
    ensures cfg != Some(1) && cfg != Some(3) ==> log == [Type("{ENTER}")]
  {
    match cfg
    case Some(1) => [Type("{ENTER 2}")]
    case Some(2) => [Type("{ENTER}")]
    case Some(3) => [Type(ClearField), Type(salesRep), Type("{ENTER 2}")]
    case _ => [Type("{ENTER}")]
  }

  /** The header completes (reaches the item loop) only when both windows
      appear and the gateway takes the branch-scoped flag lookup. */
  predicate HeaderCompletes(gw: Gateway, ui: Ui) {
    ui.mainWindow && ui.davWindow && gw.flagsByBranch
  }

  /** Steps 5.1-8.3 (lines 310-352): the credit probe, the nature and its
      date keys, the customer, and the three probes after it. */
  function HeaderParties(c: Collected, ui: Ui, flags: Flags): (log: seq<Action>)
    ensures |log| == 10 && NoAbort(log)
    ensures log[0] == Probe(Credits, "%n", ui.ProbeAt(CreditsAfterOpen) == Appeared)
    ensures log[1..3] == [Type(ClearField), Type(c.nature)] && log[3] == Type(DateKeys(flags.natDatEmisPed))
    ensures log[4..7] == [Type(ClearField), Type(c.customer), Type("{ENTER}")]
    ensures log[7].Probe? && log[8].Probe? && log[9].Probe?
  {
    HandleOptionalDialog(Credits, "%n", ui.ProbeAt(CreditsAfterOpen))
    + [Type(ClearField), Type(c.nature), Type(DateKeys(flags.natDatEmisPed))]
    + [Type(ClearField), Type(c.customer), Type("{ENTER}")]
    + HandleOptionalDialog(StateRegWarning, "{ENTER}", ui.ProbeAt(StateRegWarningSite))
    + HandleOptionalDialog(Notification, "{ENTER}", ui.ProbeAt(NotificationSite))
    + HandleOptionalDialog(Address, "{TAB}{TAB}{TAB}{ENTER}", ui.ProbeAt(AddressSite))
  }

  /** Steps 10-15 (lines 375-410): the second credit probe, the payment
      method and the payment term. */
  function HeaderPayment(c: Collected, ui: Ui): (log: seq<Action>)
    ensures |log| == 8 && NoAbort(log)
    ensures log[0].Probe? && log[1..] == [Type("{ENTER}"), Type(ClearField), Type(c.payMethod), Type("{ENTER}"),
                                          Type(ClearField), Type(c.term), Type("{ENTER 5}")]
  {
    HandleOptionalDialog(Credits, "%n", ui.ProbeAt(CreditsAfterSalesRep))
    + [Type("{ENTER}"), Type(ClearField), Type(c.payMethod), Type("{ENTER}"),
       Type(ClearField), Type(c.term), Type("{ENTER 5}")]
  }

  /** Step 16 (lines 414-425): the branch-scoped lookup of Pa5_DigComisDav,
      which the gateway as shown refuses, then the optional commission probe. */
  function CommissionStep(gw: Gateway, ui: Ui, flags: Flags): (log: seq<Action>)
    ensures NoAbort(log) <==> gw.flagsByBranch
    ensures !gw.flagsByBranch ==> log == [Abort(BadArguments("check_field_value"))]
  {
    if !gw.flagsByBranch then
      assert [Abort(BadArguments("check_field_value"))][0].Abort?;
      [Abort(BadArguments("check_field_value"))]
    else if IsOne(flags.pa5DigComisDav) then HandleOptionalDialog(Credits, "%(s)", ui.ProbeAt(CommissionSite))
    else []
  }

  /** Phase 2 up to the item loop (lines 287-425). */
  function Header(gw: Gateway, c: Collected, ui: Ui, flags: Flags): seq<Action>
  {
    if !ui.mainWindow then [Abort(WindowNotFound("main_window"))]
    else if !ui.davWindow then [Type("%V"), Type("{ENTER}"), Abort(WindowNotFound("dav_inclusion_window"))]
    else
      [Type("%V"), Type("{ENTER}"), Type("{F2}")] + HeaderParties(c, ui, flags)
      + SalesRepKeys(flags.natCfgVendedor, c.salesRep) + HeaderPayment(c, ui) + CommissionStep(gw, ui, flags)
  }

  /** Unit selection (lines 448-459): two ENTERs for a product with more
      than one unit, one otherwise. */
  function UnitKeys(units: int): (log: seq<Action>)
    ensures |log| == (if units > 1 then 2 else 1)
    ensures forall i :: 0 <= i < |log| ==> log[i] == Type("{ENTER}")
  {
    if units > 1 then [Type("{ENTER}"), Type("{ENTER}")] else [Type("{ENTER}")]
  }

  /** Item finalisation (lines 498-535), by the surcharge and discount flags. */
  function Finalise(flags: Flags, ui: Ui, k: nat): seq<Action>
  {
    if IsOne(flags.pa2InfAcrePed) && IsOne(flags.pa2InfDescPed) then
      [Type("{ENTER}")] + AuthorizationStep(ui.SeenAt(k), ui.StageAt(k)) + [Type("{ENTER 5}")]
      + (if IsOne(flags.pa4TipoEntit) then
           [Type("{F1}"), ManualPause, Type("{ENTER 2}")]
           + HandleOptionalDialog(Attention, "{ENTER}", ui.ProbeAt(AttentionSite(k)))
         else [Type("{ENTER 3}")])
    else if flags.pa2InfAcrePed == Some(0) && flags.pa2InfDescPed == Some(0) then [Type("{ENTER 3}")]
    else []
  }

  /** The stripped code of the k-th selected product. */
  function ItemCode(c: Collected, k: nat): string
    requires k < |c.selected|
  {
    Strip(c.selected[k])
  }

  /** `unit_counts_map.get(code)` has no default: a product without a
      unit-count row makes `None > 1` raise. */
  predicate ItemAborts(c: Collected, k: nat)
    requires k < |c.selected|
  {
    Lookup(c.unitMap, ItemCode(c, k)).None?
  }

  /** The optional last-price probe after the product code (lines 437-443). */
  function LastPriceStep(flags: Flags, ui: Ui, k: nat): (log: seq<Action>)
    ensures NoAbort(log)
  {
    if IsOne(flags.pa2VultPreco) then HandleOptionalDialog(LastPrice, "{ENTER}", ui.ProbeAt(LastPriceSite(k))) else []
  }

  /** What an item with a unit count sends after the code (lines 448-535):
      unit keys, the optional ENTER of Nat_lcltpeds, the quantity, the finalisation. */
  function ItemEntry(c: Collected, ui: Ui, flags: Flags, k: nat, units: int): seq<Action>
    requires k < |c.selected|
  {
    UnitKeys(units)
    + (if IsOne(flags.natLcLtPeds) then [Type("{ENTER}")] else [])
    + [Type(Decimal(Quantity(StockOf(c.stockMap, ItemCode(c, k)), ui.SeedAt(k)) as nat))]
    + Finalise(flags, ui, k)
  }

  /** The actions of the k-th item (lines 431-535). */
  function ItemActions(c: Collected, ui: Ui, flags: Flags, k: nat): seq<Action>
    requires k < |c.selected|
  {
    [Type(ItemCode(c, k))] + LastPriceStep(flags, ui, k)
    + match Lookup(c.unitMap, ItemCode(c, k))
      case None => [Abort(NoneComparison(ItemCode(c, k)))]
      case Some(units) => ItemEntry(c, ui, flags, k, units)
  }

  /** The per-item blocks of the item loop, in selection order. */
  function ItemBlocks(c: Collected, ui: Ui, flags: Flags): (blocks: seq<seq<Action>>)
    ensures |blocks| == |c.selected|
    ensures forall k :: 0 <= k < |c.selected| ==> blocks[k] == ItemActions(c, ui, flags, k)
  {
    seq(|c.selected|, k requires 0 <= k < |c.selected| => ItemActions(c, ui, flags, k))
  }

  /** The whole run as a log of actions (the specification of `Run`). */
  function Script(gw: Gateway, g: Gathering, ui: Ui, flags: Flags): seq<Action>
  {
    match Gather(gw, g, flags)
    case Stopped(log, r) => log + [Abort(r)]
    case Ready(log, c) =>
      var h := Header(gw, c, ui, flags);
      if HeaderCompletes(gw, ui) then log + h + UntilAbort(ItemBlocks(c, ui, flags), 0) else log + h
  }

  /** The two shapes of a script, by the outcome of Phase 1. */
  lemma ScriptCases(gw: Gateway, g: Gathering, ui: Ui, flags: Flags, p: Phase1)
    requires p == Gather(gw, g, flags)
    ensures p.Stopped? ==> Script(gw, g, ui, flags) == p.log + [Abort(p.reason)]
    ensures p.Ready? && !HeaderCompletes(gw, ui) ==> Script(gw, g, ui, flags) == p.log + Header(gw, p.c, ui, flags)
    ensures p.Ready? && HeaderCompletes(gw, ui) ==>
      Script(gw, g, ui, flags) == p.log + Header(gw, p.c, ui, flags) + UntilAbort(ItemBlocks(p.c, ui, flags), 0)
  {
  }

  /** `run`: Phase 1, the Phase-2 header, then the item loop. */
  method Run(gw: Gateway, g: Gathering, ui: Ui, flags: Flags) returns (log: seq<Action>)
    ensures log == Script(gw, g, ui, flags)
  {
    var p := Gather(gw, g, flags);
    ScriptCases(gw, g, ui, flags, p);
    if p.Stopped? {
      return p.log + [Abort(p.reason)];
    }
    var c := p.c;
    log := p.log + Header(gw, c, ui, flags);
    if !HeaderCompletes(gw, ui) {
      return;
    }
    ghost var prefix := log;
    ghost var blocks := ItemBlocks(c, ui, flags);
    for k := 0 to |c.selected|
      invariant log + UntilAbort(blocks, k) == prefix + UntilAbort(blocks, 0)
    {
      var item := ItemActions(c, ui, flags, k);
      ItemAbortIff(c, ui, flags, k);
      AppendAssoc(log, item, UntilAbort(blocks, k + 1));
      log := log + item;
      if ItemAborts(c, k) {
        break;
      }
    }
  }

  // ---------------------------------------------------------------------------
  // Phase 1
  // ---------------------------------------------------------------------------

  /** With the gateway as shown, the first call of the run fails: the run
      sends nothing and asks nothing. */
  lemma ShownGatewayAbortsImmediately(g: Gathering, ui: Ui, flags: Flags)
    ensures Script(ShownGateway, g, ui, flags) == [Abort(MissingMethod("get_active_filiais_count"))]
  {
  }

  /** A run stopped in Phase 1 has asked at most the seven pickers, has sent
      no keystroke, and ends with its reason. */
  lemma Phase1StopSendsNothing(gw: Gateway, g: Gathering, ui: Ui, flags: Flags)
    requires Gather(gw, g, flags).Stopped?
    ensures var s := Script(gw, g, ui, flags);
      NoKeystrokes(s) && |s| <= 8 && s[|s| - 1] == Abort(Gather(gw, g, flags).reason)
  {
    var p := Gather(gw, g, flags);
    ScriptCases(gw, g, ui, flags, p);
    GatherAsksAtMostSeven(gw, g, flags);
    var s := p.log + [Abort(p.reason)];
    forall i | 0 <= i < |s| ensures !IsKeystroke(s[i]) {
      if i < |p.log| { assert s[i] == p.log[i]; }
    }
  }

  lemma GatherAsksAtMostSeven(gw: Gateway, g: Gathering, flags: Flags)
    ensures |Gather(gw, g, flags).log| <= 7
  {
  }

  /** Branch: picked when more than one is active (an empty pick stops the
      run), "1" when exactly one is, none otherwise. */
  lemma BranchSelection(gw: Gateway, g: Gathering, flags: Flags)
    requires gw.branchQueries
    ensures g.branchCount > 1 && PickOne(BranchPicker, g.branches, g.branchPick).1 == "" ==>
      Gather(gw, g, flags) == Stopped(PickOne(BranchPicker, g.branches, g.branchPick).0, Cancelled(BranchPicker))
    ensures Gather(gw, g, flags).Ready? ==>
      Gather(gw, g, flags).c.branch ==
        (if g.branchCount > 1 then Some(g.branchPick) else if g.branchCount == 1 then Some("1") else None)
    ensures Gather(gw, g, flags).Ready? && g.branchCount > 1 ==>
      Gather(gw, g, flags).log[0] == Ask(BranchPicker, g.branches)
  {
  }

  /** The sales-rep picker is launched only when Nat_cfgvendedor is 3; when
      it is 3 a completed Phase 1 carries the picked rep, and otherwise no rep. */
  lemma SalesRepPickerOnlyForCfg3(gw: Gateway, g: Gathering, flags: Flags)
    ensures flags.natCfgVendedor != Some(3) ==>
      forall i :: 0 <= i < |Gather(gw, g, flags).log| ==> Gather(gw, g, flags).log[i].picker != SalesRepPicker
    ensures Gather(gw, g, flags).Ready? ==>
      Gather(gw, g, flags).c.salesRep == (if flags.natCfgVendedor == Some(3) then g.salesRepPick else "")
    ensures Gather(gw, g, flags).Ready? && flags.natCfgVendedor == Some(3) ==>
      g.salesRepPick != "" && Ask(SalesRepPicker, g.salesReps) in Gather(gw, g, flags).log
  {
  }

  /** Payment method and term: the customer's own lists are offered, or the
      general ones when the customer has none; with nothing to offer the run stops. */
  lemma PaymentFallback(gw: Gateway, g: Gathering, flags: Flags)
    ensures Gather(gw, g, flags).Ready? ==>
      Ask(PaymentMethodPicker, MethodChoices(g)) in Gather(gw, g, flags).log &&
      Ask(PaymentTermPicker, TermChoices(g)) in Gather(gw, g, flags).log &&
      Gather(gw, g, flags).c.payMethod == g.methodPick != "" &&
      Gather(gw, g, flags).c.term == g.termPick != ""
    ensures g.customerMethods == [] && g.allMethods == [] ==> Gather(gw, g, flags).Stopped?
    ensures g.customerTerms == [] && g.allTerms == [] ==> Gather(gw, g, flags).Stopped?
  {
  }

  /** Products: Phase 1 completes only when the branch-scoped product query
      is available, returns rows, the human picks at least one, and the last
      picker asked is the product picker over the codes returned. */
  lemma ProductSelection(gw: Gateway, g: Gathering, flags: Flags)
    ensures !gw.productsByBranch || g.products == [] || g.productPicks == [] ==> Gather(gw, g, flags).Stopped?
    ensures Gather(gw, g, flags).Ready? ==>
      var p := Gather(gw, g, flags);
      p.c.selected == g.productPicks && p.log[|p.log| - 1] == Ask(ProductPicker, ProductCodes(g.products))
  {
  }

  // ---------------------------------------------------------------------------
  // Phase 2 header
  // ---------------------------------------------------------------------------

  /** The header stops with an abort exactly when it does not reach the
      item loop, and that abort is its last action. */
  lemma HeaderAbortsIffIncomplete(gw: Gateway, c: Collected, ui: Ui, flags: Flags)
    ensures NoAbort(Header(gw, c, ui, flags)) <==> HeaderCompletes(gw, ui)
    ensures !HeaderCompletes(gw, ui) ==>
      var h := Header(gw, c, ui, flags); h != [] && h[|h| - 1].Abort?
  {
    var h := Header(gw, c, ui, flags);
    if ui.mainWindow && ui.davWindow {
      var front := [Type("%V"), Type("{ENTER}"), Type("{F2}")] + HeaderParties(c, ui, flags)
        + SalesRepKeys(flags.natCfgVendedor, c.salesRep) + HeaderPayment(c, ui);
      var tail := CommissionStep(gw, ui, flags);
      assert h == front + tail;
      NoAbortAppend([Type("%V"), Type("{ENTER}"), Type("{F2}")], HeaderParties(c, ui, flags));
      NoAbortAppend([Type("%V"), Type("{ENTER}"), Type("{F2}")] + HeaderParties(c, ui, flags),
                    SalesRepKeys(flags.natCfgVendedor, c.salesRep));
      NoAbortAppend([Type("%V"), Type("{ENTER}"), Type("{F2}")] + HeaderParties(c, ui, flags)
                    + SalesRepKeys(flags.natCfgVendedor, c.salesRep), HeaderPayment(c, ui));
      if gw.flagsByBranch {
        NoAbortAppend(front, tail);
      } else {
        AbortInSuffix(front, tail);
      }
    } else if !ui.mainWindow {
      assert h[0].Abort?;
    } else {
      assert h[2].Abort?;
    }
  }

  /** The header's fixed opening: the menu, the new-document key, the
      nature and its date keys (three ENTERs exactly when Nat_DatEmisPed is
      1), the customer, and the sales-rep keys after the three probes. */
  lemma HeaderLayout(gw: Gateway, c: Collected, ui: Ui, flags: Flags)
    requires ui.mainWindow && ui.davWindow
    ensures var h := Header(gw, c, ui, flags);
      |h| > 13 + |SalesRepKeys(flags.natCfgVendedor, c.salesRep)| &&
      h[..3] == [Type("%V"), Type("{ENTER}"), Type("{F2}")] &&
      h[3] == Probe(Credits, "%n", ui.ProbeAt(CreditsAfterOpen) == Appeared) &&
      h[4..6] == [Type(ClearField), Type(c.nature)] &&
      (h[6] == Type("{ENTER 3}") <==> IsOne(flags.natDatEmisPed)) &&
      (h[6] == Type("{ENTER 1}") <==> !IsOne(flags.natDatEmisPed)) &&
      h[7..10] == [Type(ClearField), Type(c.customer), Type("{ENTER}")] &&
      h[10].Probe? && h[11].Probe? && h[12].Probe? &&
      h[13..13 + |SalesRepKeys(flags.natCfgVendedor, c.salesRep)|] == SalesRepKeys(flags.natCfgVendedor, c.salesRep)
  {
    var h := Header(gw, c, ui, flags);
    var parties := HeaderParties(c, ui, flags);
    var rep := SalesRepKeys(flags.natCfgVendedor, c.salesRep);
    var front := [Type("%V"), Type("{ENTER}"), Type("{F2}")] + parties;
    var rest := HeaderPayment(c, ui) + CommissionStep(gw, ui, flags);
    assert h == front + (rep + rest);
    assert h[..13] == front;
    assert h[13..13 + |rep|] == rep;
  }

  // ---------------------------------------------------------------------------
  // Items
  // ---------------------------------------------------------------------------

  /** Finalisation: the manual pause happens exactly when both flags and the
      delivery-type flag are 1, and then it comes just before the last
      confirmation keys; the authorization step follows the first ENTER
      when both flags are 1; nothing is sent unless both flags are 1 or both 0. */
  lemma FinaliseCases(flags: Flags, ui: Ui, k: nat)
    ensures var f := Finalise(flags, ui, k);
      NoAbort(f) &&
      ((ManualPause in f) <==> IsOne(flags.pa2InfAcrePed) && IsOne(flags.pa2InfDescPed) && IsOne(flags.pa4TipoEntit)) &&
      (ManualPause in f ==> |f| >= 3 && f[|f| - 3] == ManualPause && f[|f| - 2] == Type("{ENTER 2}")) &&
      (f == [] <==> !(IsOne(flags.pa2InfAcrePed) && IsOne(flags.pa2InfDescPed)) &&
                    !(flags.pa2InfAcrePed == Some(0) && flags.pa2InfDescPed == Some(0))) &&
      (IsOne(flags.pa2InfAcrePed) && IsOne(flags.pa2InfDescPed) ==>
         f[0] == Type("{ENTER}") && f[1] == AuthCheck(ui.SeenAt(k)))
  {
    var acre, desc := flags.pa2InfAcrePed, flags.pa2InfDescPed;
    var f := Finalise(flags, ui, k);
    if IsOne(acre) && IsOne(desc) {
      var a := AuthorizationStep(ui.SeenAt(k), ui.StageAt(k));
      var tail := if IsOne(flags.pa4TipoEntit) then
           [Type("{F1}"), ManualPause, Type("{ENTER 2}")]
           + HandleOptionalDialog(Attention, "{ENTER}", ui.ProbeAt(AttentionSite(k)))
         else [Type("{ENTER 3}")];
      assert f == [Type("{ENTER}")] + a + [Type("{ENTER 5}")] + tail;
      assert ManualPause !in a;
      NoAbortAppend([Type("{ENTER}")] + a, [Type("{ENTER 5}")] + tail);
      if !IsOne(flags.pa4TipoEntit) {
        assert forall i :: 0 <= i < |f| ==> f[i] != ManualPause by {
          forall i | 0 <= i < |f| ensures f[i] != ManualPause {
            if 1 <= i < 1 + |a| { assert f[i] == a[i - 1]; }
          }
        }
      }
    }
  }

  /** The finalisation in full: with both flags at 1, an ENTER, the
      authorization step, `{ENTER 5}`, then F1, the manual pause,
      `{ENTER 2}` and the attention probe when the delivery-type flag is 1
      and `{ENTER 3}` otherwise; with both at 0, `{ENTER 3}` alone; in
      every other case nothing. */
  lemma FinaliseLayout(flags: Flags, ui: Ui, k: nat)
    ensures var f, a := Finalise(flags, ui, k), AuthorizationStep(ui.SeenAt(k), ui.StageAt(k));
      (IsOne(flags.pa2InfAcrePed) && IsOne(flags.pa2InfDescPed) ==>
         |f| > 2 + |a| && f[..1 + |a|] == [Type("{ENTER}")] + a && f[1 + |a|] == Type("{ENTER 5}") &&
         (IsOne(flags.pa4TipoEntit) ==>
            f[2 + |a|..] == [Type("{F1}"), ManualPause, Type("{ENTER 2}"),
                             Probe(Attention, "{ENTER}", ui.ProbeAt(AttentionSite(k)) == Appeared)]) &&
         (!IsOne(flags.pa4TipoEntit) ==> f[2 + |a|..] == [Type("{ENTER 3}")])) &&
      (flags.pa2InfAcrePed == Some(0) && flags.pa2InfDescPed == Some(0) ==> f == [Type("{ENTER 3}")]) &&
      ((!(IsOne(flags.pa2InfAcrePed) && IsOne(flags.pa2InfDescPed)) &&
        !(flags.pa2InfAcrePed == Some(0) && flags.pa2InfDescPed == Some(0))) ==> f == [])
  {
    var f, a := Finalise(flags, ui, k), AuthorizationStep(ui.SeenAt(k), ui.StageAt(k));
    if IsOne(flags.pa2InfAcrePed) && IsOne(flags.pa2InfDescPed) {
      var tail := if IsOne(flags.pa4TipoEntit) then
           [Type("{F1}"), ManualPause, Type("{ENTER 2}")]
           + HandleOptionalDialog(Attention, "{ENTER}", ui.ProbeAt(AttentionSite(k)))
         else [Type("{ENTER 3}")];
      assert f == ([Type("{ENTER}")] + a) + ([Type("{ENTER 5}")] + tail);
    }
  }

  /** Every item types its code first; a last-price probe follows exactly
      when Pa2_vultpreco is 1. */
  lemma ItemOpening(c: Collected, ui: Ui, flags: Flags, k: nat)
    requires k < |c.selected|
    ensures var a := ItemActions(c, ui, flags, k);
      |a| >= 2 && a[0] == Type(ItemCode(c, k)) &&
      (a[1].Probe? <==> IsOne(flags.pa2VultPreco)) &&
      (IsOne(flags.pa2VultPreco) ==> a[1] == Probe(LastPrice, "{ENTER}", ui.ProbeAt(LastPriceSite(k)) == Appeared))
  {
    var a := ItemActions(c, ui, flags, k);
    var rest := match Lookup(c.unitMap, ItemCode(c, k))
      case None => [Abort(NoneComparison(ItemCode(c, k)))]
      case Some(units) => ItemEntry(c, ui, flags, k, units);
    assert a == [Type(ItemCode(c, k))] + LastPriceStep(flags, ui, k) + rest;
    assert rest != [] && !rest[0].Probe?;
  }

  /** An item with a unit count sends no abort, and types a quantity between
      1 and its stock capped at 20. */
  lemma ItemEntryOutcome(c: Collected, ui: Ui, flags: Flags, k: nat, units: int)
    requires k < |c.selected|
    ensures NoAbort(ItemEntry(c, ui, flags, k, units))
    ensures var q := Quantity(StockOf(c.stockMap, ItemCode(c, k)), ui.SeedAt(k));
      1 <= q <= QuantityBound(StockOf(c.stockMap, ItemCode(c, k))) && q <= 20 &&
      Type(Decimal(q as nat)) in ItemEntry(c, ui, flags, k, units)
    ensures var e, u := ItemEntry(c, ui, flags, k, units), |UnitKeys(units)|;
      var q := Quantity(StockOf(c.stockMap, ItemCode(c, k)), ui.SeedAt(k));
      |e| > u && e[..u] == UnitKeys(units) &&
      (IsOne(flags.natLcLtPeds) ==> e[u] == Type("{ENTER}") && e[u + 1] == Type(Decimal(q as nat))) &&
      (!IsOne(flags.natLcLtPeds) ==> e[u] == Type(Decimal(q as nat)))
  {
    var q := Quantity(StockOf(c.stockMap, ItemCode(c, k)), ui.SeedAt(k)) as nat;
    var mid := UnitKeys(units) + (if IsOne(flags.natLcLtPeds) then [Type("{ENTER}")] else []);
    var f := Finalise(flags, ui, k);
    assert ItemEntry(c, ui, flags, k, units) == mid + [Type(Decimal(q))] + f;
    FinaliseCases(flags, ui, k);
    assert NoAbort(mid);
    NoAbortAppend(mid, [Type(Decimal(q))]);
    NoAbortAppend(mid + [Type(Decimal(q))], f);
    assert (mid + [Type(Decimal(q))] + f)[|mid|] == Type(Decimal(q));
    assert (mid + [Type(Decimal(q))] + f)[..|UnitKeys(units)|] == UnitKeys(units);
  }

  /** An item aborts exactly when its code has no unit count; the abort
      names the code and is the item's last action. */
  lemma ItemAbortIff(c: Collected, ui: Ui, flags: Flags, k: nat)
    requires k < |c.selected|
    ensures NoAbort(ItemActions(c, ui, flags, k)) <==> !ItemAborts(c, k)
    ensures ItemAborts(c, k) ==>
      var a := ItemActions(c, ui, flags, k); a != [] && a[|a| - 1] == Abort(NoneComparison(ItemCode(c, k)))
  {
    var head := [Type(ItemCode(c, k))] + LastPriceStep(flags, ui, k);
    assert NoAbort(head);
    match Lookup(c.unitMap, ItemCode(c, k))
    case None =>
      var a := head + [Abort(NoneComparison(ItemCode(c, k)))];
      assert ItemActions(c, ui, flags, k) == a;
      assert a[|a| - 1].Abort?;
    case Some(units) =>
      assert ItemActions(c, ui, flags, k) == head + ItemEntry(c, ui, flags, k, units);
      ItemEntryOutcome(c, ui, flags, k, units);
      NoAbortAppend(head, ItemEntry(c, ui, flags, k, units));
  }

  /** The items before `j` are entered whole and in selection order when
      none of them lacks a unit count. */
  lemma ItemsInOrder(c: Collected, ui: Ui, flags: Flags, j: nat)
    requires j <= |c.selected|
    requires forall i :: 0 <= i < j ==> !ItemAborts(c, i)
    ensures var blocks := ItemBlocks(c, ui, flags);
      UntilAbort(blocks, 0) == Flatten(blocks[..j]) + UntilAbort(blocks, j) &&
      NoAbort(Flatten(blocks[..j]))
  {
    var blocks := ItemBlocks(c, ui, flags);
    forall i | 0 <= i < j ensures NoAbort(blocks[i]) {
      ItemAbortIff(c, ui, flags, i);
    }
    UntilAbortInOrder(blocks, 0, j);
    assert blocks[0..j] == blocks[..j];
    FlattenNoAbort(blocks[..j]);
  }

  /** Each item block aborts exactly when its code has no unit count. */
  lemma BlocksAbortIff(c: Collected, ui: Ui, flags: Flags)
    ensures forall i :: 0 <= i < |c.selected| ==>
      (NoAbort(ItemBlocks(c, ui, flags)[i]) <==> !ItemAborts(c, i))
  {
    forall i | 0 <= i < |c.selected| ensures NoAbort(ItemBlocks(c, ui, flags)[i]) <==> !ItemAborts(c, i) {
      ItemAbortIff(c, ui, flags, i);
    }
  }

  /** The item loop aborts exactly when some selected code has no unit count. */
  lemma ItemLoopAbortIff(c: Collected, ui: Ui, flags: Flags)
    ensures NoAbort(UntilAbort(ItemBlocks(c, ui, flags), 0)) <==>
      forall j :: 0 <= j < |c.selected| ==> !ItemAborts(c, j)
  {
    BlocksAbortIff(c, ui, flags);
    UntilAbortIff(ItemBlocks(c, ui, flags), 0);
  }

  /** The first item from `k` on whose code has no unit count, or the
      number of items when there is none. */
  function FirstMissing(c: Collected, k: nat): (j: nat)
    requires k <= |c.selected|
    ensures k <= j <= |c.selected|
    ensures forall i :: k <= i < j ==> !ItemAborts(c, i)
    ensures j < |c.selected| ==> ItemAborts(c, j)
    decreases |c.selected| - k
  {
    if k == |c.selected| || ItemAborts(c, k) then k else FirstMissing(c, k + 1)
  }

  lemma {:induction false} FirstMissingIsFirstAbortBlock(c: Collected, ui: Ui, flags: Flags, k: nat)
    requires k <= |c.selected|
    ensures FirstAbortBlock(ItemBlocks(c, ui, flags), k) == FirstMissing(c, k)
    decreases |c.selected| - k
  {
    if k < |c.selected| {
      ItemAbortIff(c, ui, flags, k);
      FirstMissingIsFirstAbortBlock(c, ui, flags, k + 1);
    }
  }

  /** When it aborts, the loop stops at the first item without a unit count,
      and that item's abort, naming its code, is the last action of the run. */
  lemma ItemLoopStopsAtFirst(c: Collected, ui: Ui, flags: Flags)
    requires !NoAbort(UntilAbort(ItemBlocks(c, ui, flags), 0))
    ensures FirstMissing(c, 0) < |c.selected|
    ensures var s := UntilAbort(ItemBlocks(c, ui, flags), 0);
      s != [] && s[|s| - 1] == Abort(NoneComparison(ItemCode(c, FirstMissing(c, 0))))
  {
    UntilAbortEndsAtFirst(ItemBlocks(c, ui, flags), 0);
    FirstMissingIsFirstAbortBlock(c, ui, flags, 0);
    ItemAbortIff(c, ui, flags, FirstMissing(c, 0));
  }

  /** A run that completes Phase 1 and the header has no abort exactly when
      every selected code has a unit count. */
  lemma RunAbortsIffUnitMissing(gw: Gateway, g: Gathering, ui: Ui, flags: Flags)
    requires Gather(gw, g, flags).Ready? && HeaderCompletes(gw, ui)
    ensures var c := Gather(gw, g, flags).c;
      NoAbort(Script(gw, g, ui, flags)) <==> forall j :: 0 <= j < |c.selected| ==> !ItemAborts(c, j)
  {
    var p := Gather(gw, g, flags);
    ScriptCases(gw, g, ui, flags, p);
    var h := Header(gw, p.c, ui, flags);
    var items := UntilAbort(ItemBlocks(p.c, ui, flags), 0);
    HeaderAbortsIffIncomplete(gw, p.c, ui, flags);
    ItemLoopAbortIff(p.c, ui, flags);
    assert NoAbort(p.log);
    NoAbortAppend(p.log, h);
    if NoAbort(items) {
      NoAbortAppend(p.log + h, items);
    } else {
      AbortInSuffix(p.log + h, items);
    }
  }
}
