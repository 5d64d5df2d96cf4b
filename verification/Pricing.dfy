/** The pricing engine: integer prices over a catalog snapshot. Every line is
    inspected before anything is refused. */
module Pricing {
  import opened Options

  datatype Choice = Choice(id: string, name: string, delta: int)

  datatype Group = Group(id: string, name: string, minSelect: int, maxSelect: int, options: seq<Choice>)

  datatype Item = Item(id: string, name: string, price: int, currency: string, available: bool, groups: seq<Group>)

  datatype Snapshot = Snapshot(id: string, name: string, status: string, openNow: bool, items: seq<Item>, missing: set<string>)

  datatype Selection = Selection(group: string, option: string)

  datatype Line = Line(item: string, qty: nat, options: seq<Selection>)

  datatype Config = Config(deliveryFee: nat, taxBasisPoints: nat)

  datatype PricedOption = PricedOption(group: string, groupName: string, option: string, name: string, delta: int)

  datatype PricedLine = PricedLine(item: string, name: string, qty: nat, unitPrice: int, options: seq<PricedOption>, total: int)

  datatype Totals = Totals(subtotal: int, discount: int, fee: int, tax: int, total: int)

  datatype Order = Order(lines: seq<PricedLine>, totals: Totals, currency: string, restaurant: string)

  datatype Fault = Drift | Duplicate(group: string) | TooFew(group: string, least: int) | TooMany(group: string, most: int)

  datatype Violation = NoLines | AtLine(index: nat, fault: Fault)

  datatype Result =
    | Priced(order: Order)
    | RestaurantClosed(id: string)
    | ItemUnavailable(items: set<string>)
    | InvalidSelection(violations: seq<Violation>)
    | PriceChanged(current: int)

  // ── look-ups; where an id repeats, the last one counts for items and groups, the
  //    first one for options ──

  function FindItem(items: seq<Item>, id: string): Option<Item> {
    if |items| == 0 then None
    else if items[|items| - 1].id == id then Some(items[|items| - 1])
    else FindItem(items[..|items| - 1], id)
  }

  function FindGroup(groups: seq<Group>, id: string): Option<Group> {
    if |groups| == 0 then None
    else if groups[|groups| - 1].id == id then Some(groups[|groups| - 1])
    else FindGroup(groups[..|groups| - 1], id)
  }

  function FindOption(options: seq<Choice>, id: string): Option<Choice> {
    if |options| == 0 then None
    else if options[0].id == id then Some(options[0])
    else FindOption(options[1..], id)
  }

  // ── the same look-ups, told by positions ──

  /** The last item, or group, that carries the id. */
  ghost predicate LastItem(items: seq<Item>, id: string, k: nat) {
    k < |items| && items[k].id == id && forall h :: k < h < |items| ==> items[h].id != id
  }

  ghost predicate LastGroup(groups: seq<Group>, id: string, k: nat) {
    k < |groups| && groups[k].id == id && forall h :: k < h < |groups| ==> groups[h].id != id
  }

  /** The first option that carries the id. */
  ghost predicate FirstOption(options: seq<Choice>, id: string, k: nat) {
    k < |options| && options[k].id == id && forall h :: 0 <= h < k ==> options[h].id != id
  }

  ghost predicate IsItem(items: seq<Item>, id: string, item: Item) { exists k: nat :: LastItem(items, id, k) && items[k] == item }

  ghost predicate IsGroup(groups: seq<Group>, id: string, g: Group) { exists k: nat :: LastGroup(groups, id, k) && groups[k] == g }

  ghost predicate IsOption(options: seq<Choice>, id: string, c: Choice) { exists k: nat :: FirstOption(options, id, k) && options[k] == c }

  lemma {:induction false} ItemAt(items: seq<Item>, id: string) returns (k: nat)
    requires FindItem(items, id).Some?
    ensures LastItem(items, id, k) && items[k] == FindItem(items, id).value
  {
    if items[|items| - 1].id == id {
      k := |items| - 1;
    } else {
      k := ItemAt(items[..|items| - 1], id);
    }
  }

  lemma {:induction false} GroupAt(groups: seq<Group>, id: string) returns (k: nat)
    requires FindGroup(groups, id).Some?
    ensures LastGroup(groups, id, k) && groups[k] == FindGroup(groups, id).value
  {
    if groups[|groups| - 1].id == id {
      k := |groups| - 1;
    } else {
      k := GroupAt(groups[..|groups| - 1], id);
    }
  }

  lemma {:induction false} OptionAt(options: seq<Choice>, id: string) returns (k: nat)
    requires FindOption(options, id).Some?
    ensures FirstOption(options, id, k) && options[k] == FindOption(options, id).value
  {
    if options[0].id == id {
      k := 0;
    } else {
      k := OptionAt(options[1..], id);
      k := k + 1;
      forall h | 0 <= h < k ensures options[h].id != id {
        assert h > 0 ==> options[h] == options[1..][h - 1];
      }
    }
  }

  /** Nothing is found iff nothing carries the id; for items, groups and options. */
  lemma {:induction false} NoItem(items: seq<Item>, id: string)
    ensures FindItem(items, id).None? <==> forall k :: 0 <= k < |items| ==> items[k].id != id
  {
    if |items| > 0 && items[|items| - 1].id != id {
      NoItem(items[..|items| - 1], id);
    }
  }

  lemma {:induction false} NoGroup(groups: seq<Group>, id: string)
    ensures FindGroup(groups, id).None? <==> forall k :: 0 <= k < |groups| ==> groups[k].id != id
  {
    if |groups| > 0 && groups[|groups| - 1].id != id {
      NoGroup(groups[..|groups| - 1], id);
    }
  }

  lemma {:induction false} NoOption(options: seq<Choice>, id: string)
    ensures FindOption(options, id).None? <==> forall k :: 0 <= k < |options| ==> options[k].id != id
  {
    if |options| > 0 && options[0].id != id {
      NoOption(options[1..], id);
      assert forall k :: 0 < k < |options| ==> options[k] == options[1..][k - 1];
      assert forall k :: 0 <= k < |options[1..]| ==> options[1..][k] == options[k + 1];
    }
  }

  ghost predicate OnMenu(item: Item, s: Selection) {
    exists g, c :: IsGroup(item.groups, s.group, g) && IsOption(g.options, s.option, c)
  }

  /** A selection is on the menu iff its group is and the group has the option. */
  lemma OnMenuIff(item: Item, s: Selection)
    ensures ChoiceOf(item, s).Some? <==> OnMenu(item, s)
  {
    NoGroup(item.groups, s.group);
    if FindGroup(item.groups, s.group).Some? {
      var g := FindGroup(item.groups, s.group).value;
      var k := GroupAt(item.groups, s.group);
      NoOption(g.options, s.option);
      if FindOption(g.options, s.option).Some? {
        var i := OptionAt(g.options, s.option);
        assert IsGroup(item.groups, s.group, g) && IsOption(g.options, s.option, g.options[i]);
      } else if g', c :| IsGroup(item.groups, s.group, g') && IsOption(g'.options, s.option, c) {
        SameGroup(item.groups, s.group, g, g');
      }
    }
  }

  lemma SameGroup(groups: seq<Group>, id: string, g: Group, g': Group)
    requires IsGroup(groups, id, g) && IsGroup(groups, id, g')
    ensures g == g'
  {
    var k: nat :| LastGroup(groups, id, k) && groups[k] == g;
    var k': nat :| LastGroup(groups, id, k') && groups[k'] == g';
    assert k == k';
  }

  // ── what is wrong with a line ──

  function ChoiceOf(item: Item, s: Selection): Option<Choice> {
    match FindGroup(item.groups, s.group)
    case None => None
    case Some(g) => FindOption(g.options, s.option)
  }

  function GroupName(item: Item, id: string): string {
    match FindGroup(item.groups, id)
    case None => ""
    case Some(g) => g.name
  }

  /** The j-th selection alone: not on the menu any more, or picked before. */
  function SelectionFault(item: Item, picks: seq<Selection>, j: nat): Option<Fault>
    requires j < |picks|
  {
    if ChoiceOf(item, picks[j]).None? then Some(Drift)
    else if picks[j] in picks[..j] then Some(Duplicate(GroupName(item, picks[j].group)))
    else None
  }

  function PickedIn(picks: seq<Selection>, group: string): set<string> {
    set j | 0 <= j < |picks| && picks[j].group == group :: picks[j].option
  }

  /** One group of the item against everything picked in it. */
  function GroupFault(g: Group, picks: seq<Selection>): Option<Fault> {
    var count := |PickedIn(picks, g.id)|;
    if count < g.minSelect then Some(TooFew(g.name, g.minSelect))
    else if count > g.maxSelect then Some(TooMany(g.name, g.maxSelect))
    else None
  }

  /** Selections are judged in order, then every group of the item in menu order. */
  function FirstSelectionFault(item: Item, picks: seq<Selection>, j: nat): Option<Fault>
    requires j <= |picks|
    decreases |picks| - j
  {
    if j == |picks| then None
    else if SelectionFault(item, picks, j).Some? then SelectionFault(item, picks, j)
    else FirstSelectionFault(item, picks, j + 1)
  }

  function FirstGroupFault(item: Item, picks: seq<Selection>, k: nat): Option<Fault>
    requires k <= |item.groups|
    decreases |item.groups| - k
  {
    if k == |item.groups| then None
    else if GroupFault(item.groups[k], picks).Some? then GroupFault(item.groups[k], picks)
    else FirstGroupFault(item, picks, k + 1)
  }

  function LineFault(item: Item, picks: seq<Selection>): Option<Fault> {
    var f := FirstSelectionFault(item, picks, 0);
    if f.Some? then f else FirstGroupFault(item, picks, 0)
  }

  /** Everything a customer may ask of a line: each pick is on the menu, none twice, and
      every group, mentioned or not, has as many as it wants. */
  ghost predicate Acceptable(item: Item, picks: seq<Selection>) {
    && (forall j :: 0 <= j < |picks| ==> OnMenu(item, picks[j]))
    && (forall i, j :: 0 <= i < j < |picks| ==> picks[i] != picks[j])
    && (forall k :: 0 <= k < |item.groups| ==>
          item.groups[k].minSelect <= |PickedIn(picks, item.groups[k].id)| <= item.groups[k].maxSelect)
  }

  lemma {:induction false} FirstSelectionFaultMeans(item: Item, picks: seq<Selection>, j: nat)
    requires j <= |picks|
    ensures FirstSelectionFault(item, picks, j).None? <==> forall i :: j <= i < |picks| ==> SelectionFault(item, picks, i).None?
    ensures FirstSelectionFault(item, picks, j).Some? ==>
              exists i :: j <= i < |picks| && FirstSelectionFault(item, picks, j) == SelectionFault(item, picks, i)
                          && forall h :: j <= h < i ==> SelectionFault(item, picks, h).None?
    decreases |picks| - j
  {
    if j < |picks| && SelectionFault(item, picks, j).None? {
      FirstSelectionFaultMeans(item, picks, j + 1);
    }
  }

  lemma {:induction false} FirstGroupFaultMeans(item: Item, picks: seq<Selection>, k: nat)
    requires k <= |item.groups|
    ensures FirstGroupFault(item, picks, k).None? <==> forall i :: k <= i < |item.groups| ==> GroupFault(item.groups[i], picks).None?
    ensures FirstGroupFault(item, picks, k) != Some(Drift)
    decreases |item.groups| - k
  {
    if k < |item.groups| {
      FirstGroupFaultMeans(item, picks, k + 1);
    }
  }

  /** A line has no fault iff it is acceptable. */
  lemma FaultlessIffAcceptable(item: Item, picks: seq<Selection>)
    ensures LineFault(item, picks).None? <==> Acceptable(item, picks)
  {
    FirstSelectionFaultMeans(item, picks, 0);
    if FirstSelectionFault(item, picks, 0).None? {
      FirstGroupFaultMeans(item, picks, 0);
      forall i, j | 0 <= i < j < |picks| ensures picks[i] != picks[j] {
        assert SelectionFault(item, picks, j).None?;
        assert picks[i] == picks[..j][i];
      }
      forall j | 0 <= j < |picks| ensures OnMenu(item, picks[j]) {
        assert SelectionFault(item, picks, j).None?;
        OnMenuIff(item, picks[j]);
      }
      assert forall k :: 0 <= k < |item.groups| ==>
        (GroupFault(item.groups[k], picks).None? <==>
         item.groups[k].minSelect <= |PickedIn(picks, item.groups[k].id)| <= item.groups[k].maxSelect);
    } else {
      var j :| 0 <= j < |picks| && SelectionFault(item, picks, j).Some?;
      OnMenuIff(item, picks[j]);
      if picks[j] in picks[..j] {
        var i :| 0 <= i < j && picks[..j][i] == picks[j];
        assert picks[i] == picks[j];
      }
    }
  }

  /** The first pick that is off the menu or repeats an earlier one. */
  ghost predicate BadPick(item: Item, picks: seq<Selection>, j: nat)
    requires j < |picks|
  {
    !OnMenu(item, picks[j]) || exists i :: 0 <= i < j && picks[i] == picks[j]
  }

  ghost predicate FirstBadPick(item: Item, picks: seq<Selection>, j: nat) {
    j < |picks| && BadPick(item, picks, j) && forall h: nat :: h < j ==> !BadPick(item, picks, h)
  }

  /** The first group of the item, mentioned or not, that has too few or too many. */
  predicate BadGroup(g: Group, picks: seq<Selection>) {
    !(g.minSelect <= |PickedIn(picks, g.id)| <= g.maxSelect)
  }

  ghost predicate FirstBadGroup(item: Item, picks: seq<Selection>, k: nat) {
    k < |item.groups| && BadGroup(item.groups[k], picks) && forall h :: 0 <= h < k ==> !BadGroup(item.groups[h], picks)
  }

  lemma SelectionFaultIff(item: Item, picks: seq<Selection>, j: nat)
    requires j < |picks|
    ensures SelectionFault(item, picks, j).Some? <==> BadPick(item, picks, j)
    ensures SelectionFault(item, picks, j) == Some(Drift) <==> !OnMenu(item, picks[j])
  {
    OnMenuIff(item, picks[j]);
    if i :| 0 <= i < j && picks[i] == picks[j] {
      assert picks[..j][i] == picks[j];
    }
  }

  lemma {:induction false} FirstGroupFaultAt(item: Item, picks: seq<Selection>, k: nat) returns (i: nat)
    requires k <= |item.groups| && FirstGroupFault(item, picks, k).Some?
    ensures k <= i < |item.groups| && FirstGroupFault(item, picks, k) == GroupFault(item.groups[i], picks) != None
    ensures forall h :: k <= h < i ==> GroupFault(item.groups[h], picks) == None
    decreases |item.groups| - k
  {
    i := k;
    if GroupFault(item.groups[k], picks).None? {
      i := FirstGroupFaultAt(item, picks, k + 1);
    }
  }

  /** A line is refused with its first problem: the first bad pick, and failing that the
      first bad group, named as the menu names it. */
  lemma FaultIsTheFirstProblem(item: Item, picks: seq<Selection>) returns (at: nat)
    requires LineFault(item, picks).Some?
    ensures || (&& FirstBadPick(item, picks, at)
                && if !OnMenu(item, picks[at]) then LineFault(item, picks) == Some(Drift)
                   else exists g :: IsGroup(item.groups, picks[at].group, g) && LineFault(item, picks) == Some(Duplicate(g.name)))
            || (&& (forall j: nat :: j < |picks| ==> !BadPick(item, picks, j))
                && FirstBadGroup(item, picks, at)
                && var g := item.groups[at];
                   LineFault(item, picks) == Some(if |PickedIn(picks, g.id)| < g.minSelect then TooFew(g.name, g.minSelect)
                                                  else TooMany(g.name, g.maxSelect)))
  {
    FirstSelectionFaultMeans(item, picks, 0);
    forall j: nat | j < |picks| ensures SelectionFault(item, picks, j).Some? <==> BadPick(item, picks, j) {
      SelectionFaultIff(item, picks, j);
    }
    if FirstSelectionFault(item, picks, 0).Some? {
      at :| 0 <= at < |picks| && FirstSelectionFault(item, picks, 0) == SelectionFault(item, picks, at)
            && forall h :: 0 <= h < at ==> SelectionFault(item, picks, h).None?;
      SelectionFaultIff(item, picks, at);
      if OnMenu(item, picks[at]) {
        OnMenuIff(item, picks[at]);
        var k := GroupAt(item.groups, picks[at].group);
        assert IsGroup(item.groups, picks[at].group, item.groups[k]);
      }
    } else {
      at := FirstGroupFaultAt(item, picks, 0);
    }
  }

  // ── pricing one line ──

  function Shown(item: Item, s: Selection): PricedOption {
    match ChoiceOf(item, s)
    case None => PricedOption(s.group, "", s.option, "", 0)
    case Some(c) => PricedOption(s.group, GroupName(item, s.group), c.id, c.name, c.delta)
  }

  function ShownAll(item: Item, picks: seq<Selection>): seq<PricedOption> {
    seq(|picks|, j requires 0 <= j < |picks| => Shown(item, picks[j]))
  }

  function Deltas(options: seq<PricedOption>): int {
    if |options| == 0 then 0 else Deltas(options[..|options| - 1]) + options[|options| - 1].delta
  }

  // ── what a price is ──

  function Sum(xs: seq<int>): int { if |xs| == 0 then 0 else Sum(xs[..|xs| - 1]) + xs[|xs| - 1] }

  /** A sum is nothing for nothing, the amount itself for one, and additive. */
  lemma {:induction false} SumAdds(xs: seq<int>, ys: seq<int>, x: int)
    ensures Sum([]) == 0 && Sum([x]) == x && Sum(xs + ys) == Sum(xs) + Sum(ys)
  {
    if |ys| == 0 {
      assert xs + ys == xs;
    } else {
      assert (xs + ys)[..|xs + ys| - 1] == xs + ys[..|ys| - 1];
      SumAdds(xs, ys[..|ys| - 1], x);
    }
    assert [x][..0] == [];
  }

  /** A picked option as it is charged: the first option of that id in the group of that
      id, with its own price difference. */
  ghost predicate IsPick(item: Item, s: Selection, o: PricedOption) {
    exists g, c :: IsGroup(item.groups, s.group, g) && IsOption(g.options, s.option, c)
      && o == PricedOption(s.group, g.name, s.option, c.name, c.delta)
  }

  function DeltasOf(options: seq<PricedOption>): seq<int> {
    seq(|options|, j requires 0 <= j < |options| => options[j].delta)
  }

  /** One priced option per pick, in order, and the price of the item with all of them,
      as often as it was ordered. */
  ghost predicate IsPriceOf(line: Line, item: Item, p: PricedLine) {
    && p.item == line.item && p.name == item.name && p.qty == line.qty && p.unitPrice == item.price
    && |p.options| == |line.options|
    && (forall j :: 0 <= j < |line.options| ==> IsPick(item, line.options[j], p.options[j]))
    && p.total == (item.price + Sum(DeltasOf(p.options))) * line.qty
  }

  lemma {:induction false} DeltasSum(options: seq<PricedOption>)
    ensures Deltas(options) == Sum(DeltasOf(options))
  {
    if |options| > 0 {
      DeltasSum(options[..|options| - 1]);
      assert DeltasOf(options)[..|options| - 1] == DeltasOf(options[..|options| - 1]);
    }
  }

  lemma ShownIsPick(item: Item, s: Selection)
    requires ChoiceOf(item, s).Some?
    ensures IsPick(item, s, Shown(item, s))
  {
    var g := FindGroup(item.groups, s.group).value;
    var k := GroupAt(item.groups, s.group);
    var i := OptionAt(g.options, s.option);
    assert IsGroup(item.groups, s.group, g) && IsOption(g.options, s.option, g.options[i]);
  }

  lemma PicksAreShown(item: Item, picks: seq<Selection>)
    requires forall j :: 0 <= j < |picks| ==> ChoiceOf(item, picks[j]).Some?
    ensures forall j :: 0 <= j < |picks| ==> IsPick(item, picks[j], ShownAll(item, picks)[j])
  {
    forall j | 0 <= j < |picks| ensures IsPick(item, picks[j], ShownAll(item, picks)[j]) {
      ShownIsPick(item, picks[j]);
    }
  }

  lemma FaultlessPicks(item: Item, picks: seq<Selection>)
    requires LineFault(item, picks).None?
    ensures forall j :: 0 <= j < |picks| ==> ChoiceOf(item, picks[j]).Some?
  {
    FaultlessIffAcceptable(item, picks);
    forall j | 0 <= j < |picks| ensures ChoiceOf(item, picks[j]).Some? {
      OnMenuIff(item, picks[j]);
    }
  }

  /** Every line without a fault is charged at its price. */
  lemma PricedAsIsThePrice(line: Line, item: Item)
    requires LineFault(item, line.options).None?
    ensures IsPriceOf(line, item, PricedAs(line, item))
  {
    FaultlessPicks(item, line.options);
    PicksAreShown(item, line.options);
    AllAreCharged(line, item);
  }

  lemma AllAreCharged(line: Line, item: Item)
    ensures var p := PricedAs(line, item);
            |p.options| == |line.options| && p.total == (item.price + Sum(DeltasOf(p.options))) * line.qty
  {
    DeltasSum(ShownAll(item, line.options));
  }

  function PricedAs(line: Line, item: Item): PricedLine {
    var chosen := ShownAll(item, line.options);
    PricedLine(line.item, item.name, line.qty, item.price, chosen, (item.price + Deltas(chosen)) * line.qty)
  }

  datatype LineOutcome = Line(priced: PricedLine) | Faulty(fault: Fault)

  /** One line: priced, or refused with its first problem. */
  method PriceLine(line: Line, item: Item) returns (r: LineOutcome)
    ensures r == match LineFault(item, line.options)
                 case None => LineOutcome.Line(PricedAs(line, item))
                 case Some(fault) => Faulty(fault)
    ensures r.Line? <==> Acceptable(item, line.options)
    ensures r.Line? ==> IsPriceOf(line, item, r.priced)
  {
    r := ChargeLine(line, item);
    FaultlessIffAcceptable(item, line.options);
    if r.Line? {
      PricedAsIsThePrice(line, item);
    }
  }

  /** Its loop over the picks, then over the groups. */
  method ChargeLine(line: Line, item: Item) returns (r: LineOutcome)
    ensures r == match LineFault(item, line.options)
                 case None => LineOutcome.Line(PricedAs(line, item))
                 case Some(fault) => Faulty(fault)
  {
    var picks := line.options;
    var chosen: seq<PricedOption> := [];
    var pickedPerGroup: map<string, set<string>> := map[];
    for j := 0 to |picks|
      invariant FirstSelectionFault(item, picks, 0) == FirstSelectionFault(item, picks, j)
      invariant chosen == ShownAll(item, picks)[..j]
      invariant forall g :: Picked(pickedPerGroup, g) == PickedIn(picks[..j], g)
    {
      var s := picks[j];
      var group := FindGroup(item.groups, s.group);
      if group.None? {
        return Faulty(Drift);
      }
      var option := FindOption(group.value.options, s.option);
      if option.None? {
        return Faulty(Drift);
      }
      PickedStep(picks, j);
      if s.option in Picked(pickedPerGroup, s.group) {
        return Faulty(Duplicate(group.value.name));
      }
      ghost var before := pickedPerGroup;
      pickedPerGroup := pickedPerGroup[s.group := Picked(pickedPerGroup, s.group) + {s.option}];
      forall g ensures Picked(pickedPerGroup, g) == PickedIn(picks[..j + 1], g) {
        assert Picked(before, g) == PickedIn(picks[..j], g);
      }
      chosen := chosen + [PricedOption(s.group, group.value.name, option.value.id, option.value.name, option.value.delta)];
    }
    assert picks[..|picks|] == picks && ShownAll(item, picks)[..|picks|] == ShownAll(item, picks);
    for k := 0 to |item.groups|
      invariant FirstGroupFault(item, picks, 0) == FirstGroupFault(item, picks, k)
    {
      var g := item.groups[k];
      var count := |Picked(pickedPerGroup, g.id)|;
      if count < g.minSelect {
        return Faulty(TooFew(g.name, g.minSelect));
      }
      if count > g.maxSelect {
        return Faulty(TooMany(g.name, g.maxSelect));
      }
    }
    r := LineOutcome.Line(PricedLine(line.item, item.name, line.qty, item.price, chosen, (item.price + Deltas(chosen)) * line.qty));
  }

  function Picked(m: map<string, set<string>>, g: string): set<string> { if g in m then m[g] else {} }

  lemma PickedStep(picks: seq<Selection>, j: nat)
    requires j < |picks|
    ensures picks[j] in picks[..j] <==> picks[j].option in PickedIn(picks[..j], picks[j].group)
    ensures forall g :: PickedIn(picks[..j + 1], g) == PickedIn(picks[..j], g) + if g == picks[j].group then {picks[j].option} else {}
  {
    forall g ensures PickedIn(picks[..j + 1], g) == PickedIn(picks[..j], g) + if g == picks[j].group then {picks[j].option} else {} {
      forall o | o in PickedIn(picks[..j], g) ensures o in PickedIn(picks[..j + 1], g) {
        var i :| 0 <= i < j && picks[..j][i].group == g && picks[..j][i].option == o;
        assert picks[..j + 1][i] == picks[..j][i];
      }
      forall o | o in PickedIn(picks[..j + 1], g) && o !in PickedIn(picks[..j], g) ensures g == picks[j].group && o == picks[j].option {
        var i :| 0 <= i < j + 1 && picks[..j + 1][i].group == g && picks[..j + 1][i].option == o;
      }
      assert picks[..j + 1][j] == picks[j];
    }
    if picks[j].option in PickedIn(picks[..j], picks[j].group) {
      var i :| 0 <= i < j && picks[..j][i].group == picks[j].group && picks[..j][i].option == picks[j].option;
      assert picks[..j][i] == picks[j];
    }
  }

  // ── the whole order ──

  predicate Orderable(s: Snapshot, line: Line) {
    var item := FindItem(s.items, line.item);
    item.Some? && line.item !in s.missing && item.value.available
  }

  function FaultOf(s: Snapshot, line: Line): Option<Fault> {
    if !Orderable(s, line) then Some(Drift) else LineFault(FindItem(s.items, line.item).value, line.options)
  }

  /** Lines whose first problem is that the menu has moved on, by item. */
  function Gone(s: Snapshot, lines: seq<Line>): set<string> {
    if |lines| == 0 then {}
    else Gone(s, lines[..|lines| - 1]) +
         if FaultOf(s, lines[|lines| - 1]) == Some(Drift) then {lines[|lines| - 1].item} else {}
  }

  function Wrong(s: Snapshot, lines: seq<Line>): seq<Violation> {
    if |lines| == 0 then []
    else
      var f := FaultOf(s, lines[|lines| - 1]);
      Wrong(s, lines[..|lines| - 1]) + if f.Some? && f != Some(Drift) then [AtLine(|lines| - 1, f.value)] else []
  }

  function PricedLines(s: Snapshot, lines: seq<Line>): seq<PricedLine> {
    if |lines| == 0 then []
    else
      var line := lines[|lines| - 1];
      PricedLines(s, lines[..|lines| - 1]) +
      if FaultOf(s, line).None? && FindItem(s.items, line.item).Some?
      then [PricedAs(line, FindItem(s.items, line.item).value)] else []
  }

  function CurrencyOf(s: Snapshot, lines: seq<Line>): string {
    if |lines| == 0 then "USD"
    else
      var line := lines[|lines| - 1];
      if FaultOf(s, line).None? && FindItem(s.items, line.item).Some?
      then FindItem(s.items, line.item).value.currency
      else CurrencyOf(s, lines[..|lines| - 1])
  }

  function Subtotal(priced: seq<PricedLine>): int {
    if |priced| == 0 then 0 else Subtotal(priced[..|priced| - 1]) + priced[|priced| - 1].total
  }

  function TotalsOf(subtotal: int, cfg: Config): Totals {
    var tax := subtotal * cfg.taxBasisPoints / 10_000;
    Totals(subtotal, 0, cfg.deliveryFee, tax, subtotal - 0 + cfg.deliveryFee + tax)
  }

  predicate Open(s: Snapshot) { s.status == "open" && s.openNow }

  function Outcome(s: Snapshot, lines: seq<Line>, expected: Option<int>, cfg: Config): Result {
    var priced := PricedLines(s, lines);
    var totals := TotalsOf(Subtotal(priced), cfg);
    if !Open(s) then RestaurantClosed(s.id)
    else if lines == [] then InvalidSelection([NoLines])
    else if Gone(s, lines) != {} then ItemUnavailable(Gone(s, lines))
    else if Wrong(s, lines) != [] then InvalidSelection(Wrong(s, lines))
    else if expected.Some? && expected.value != totals.total then PriceChanged(totals.total)
    else Priced(Order(priced, totals, CurrencyOf(s, lines), s.name))
  }

  /** One line of the cart against the snapshot. */
  method JudgeLine(s: Snapshot, line: Line) returns (r: LineOutcome, currency: string)
    ensures FaultOf(s, line).Some? ==> r == Faulty(FaultOf(s, line).value)
    ensures FaultOf(s, line).None? ==>
              var item := FindItem(s.items, line.item);
              item.Some? && r == LineOutcome.Line(PricedAs(line, item.value)) && currency == item.value.currency
  {
    var item := FindItem(s.items, line.item);
    if item.None? || line.item in s.missing || !item.value.available {
      return Faulty(Drift), "";
    }
    r := PriceLine(line, item.value);
    currency := item.value.currency;
  }

  method PriceOrder(s: Snapshot, lines: seq<Line>, expected: Option<int>, cfg: Config) returns (r: Result)
    ensures r == Outcome(s, lines, expected, cfg)
  {
    if s.status != "open" || !s.openNow {
      return RestaurantClosed(s.id);
    }
    if |lines| == 0 {
      return InvalidSelection([NoLines]);
    }
    var unavailable: set<string> := {};
    var violations: seq<Violation> := [];
    var priced: seq<PricedLine> := [];
    var currency := "USD";
    for i := 0 to |lines|
      invariant unavailable == Gone(s, lines[..i]) && violations == Wrong(s, lines[..i])
      invariant priced == PricedLines(s, lines[..i]) && currency == CurrencyOf(s, lines[..i])
    {
      assert lines[..i + 1][..i] == lines[..i];
      var outcome, itemCurrency := JudgeLine(s, lines[i]);
      if outcome.Line? {
        priced, currency := priced + [outcome.priced], itemCurrency;
      } else if outcome.fault.Drift? {
        unavailable := unavailable + {lines[i].item};
      } else {
        violations := violations + [AtLine(i, outcome.fault)];
      }
    }
    assert lines[..|lines|] == lines;
    if unavailable != {} {
      return ItemUnavailable(unavailable);
    }
    if violations != [] {
      return InvalidSelection(violations);
    }
    var totals := TotalsOf(Subtotal(priced), cfg);
    if expected.Some? && expected.value != totals.total {
      return PriceChanged(totals.total);
    }
    r := Priced(Order(priced, totals, currency, s.name));
  }

  // ── what the engine promises ──

  /** Placement with an expected total goes through iff the quote on the same snapshot
      does with that total, and then gives the same order. */
  lemma PlacementIffQuote(s: Snapshot, lines: seq<Line>, total: int, cfg: Config)
    ensures var quote, placed := Outcome(s, lines, None, cfg), Outcome(s, lines, Some(total), cfg);
            && (placed.Priced? <==> quote.Priced? && quote.order.totals.total == total)
            && (placed.Priced? ==> placed == quote)
            && (placed.PriceChanged? <==> quote.Priced? && quote.order.totals.total != total)
            && (placed.PriceChanged? ==> placed.current == quote.order.totals.total)
            && (!quote.Priced? ==> placed == quote)
  {
  }

  lemma {:induction false} GoneMeans(s: Snapshot, lines: seq<Line>, item: string)
    ensures item in Gone(s, lines) <==> exists i :: 0 <= i < |lines| && lines[i].item == item && FaultOf(s, lines[i]) == Some(Drift)
  {
    if |lines| > 0 {
      var before := lines[..|lines| - 1];
      GoneMeans(s, before, item);
      assert forall i :: 0 <= i < |before| ==> before[i] == lines[i];
      if item in Gone(s, before) {
        var i :| 0 <= i < |before| && before[i].item == item && FaultOf(s, before[i]) == Some(Drift);
        assert lines[i].item == item;
      }
    }
  }

  /** Each line contributes its first problem once, in line order, unless that problem
      is that the item is gone. */
  lemma {:induction false} WrongMeans(s: Snapshot, lines: seq<Line>)
    ensures forall i: nat, f :: AtLine(i, f) in Wrong(s, lines) <==> i < |lines| && FaultOf(s, lines[i]) == Some(f) && f != Drift
    ensures forall k :: 0 <= k < |Wrong(s, lines)| ==> Wrong(s, lines)[k].AtLine? && Wrong(s, lines)[k].index < |lines|
    ensures forall k, l :: 0 <= k < l < |Wrong(s, lines)| ==> Wrong(s, lines)[k].index < Wrong(s, lines)[l].index
  {
    if |lines| > 0 {
      WrongMeans(s, lines[..|lines| - 1]);
    }
  }

  lemma NothingWrongIff(s: Snapshot, lines: seq<Line>)
    ensures Gone(s, lines) == {} && Wrong(s, lines) == [] <==> forall i :: 0 <= i < |lines| ==> FaultOf(s, lines[i]).None?
  {
    WrongMeans(s, lines);
    if i :| 0 <= i < |lines| && FaultOf(s, lines[i]).Some? {
      GoneMeans(s, lines, lines[i].item);
      assert FaultOf(s, lines[i]) != Some(Drift) ==> AtLine(i, FaultOf(s, lines[i]).value) in Wrong(s, lines);
    } else {
      forall item ensures item !in Gone(s, lines) { GoneMeans(s, lines, item); }
    }
  }

  /** The item a line asks for, as far as the restaurant has it now. */
  ghost predicate Offers(s: Snapshot, id: string, item: Item) {
    IsItem(s.items, id, item) && id !in s.missing && item.available
  }

  /** The line's item is on the menu and its picks are acceptable. */
  ghost predicate GoodLine(s: Snapshot, line: Line) {
    exists item :: Offers(s, line.item, item) && Acceptable(item, line.options)
  }

  lemma SameItem(items: seq<Item>, id: string, item: Item, item': Item)
    requires IsItem(items, id, item) && IsItem(items, id, item')
    ensures item == item'
  {
    var k: nat :| LastItem(items, id, k) && items[k] == item;
    var k': nat :| LastItem(items, id, k') && items[k'] == item';
    assert k == k';
  }

  lemma OffersIff(s: Snapshot, line: Line)
    ensures Orderable(s, line) ==> Offers(s, line.item, FindItem(s.items, line.item).value)
    ensures forall item :: Offers(s, line.item, item) ==> Orderable(s, line) && item == FindItem(s.items, line.item).value
  {
    NoItem(s.items, line.item);
    if FindItem(s.items, line.item).Some? {
      var k := ItemAt(s.items, line.item);
      assert IsItem(s.items, line.item, s.items[k]);
      forall item | Offers(s, line.item, item) ensures item == s.items[k] {
        SameItem(s.items, line.item, item, s.items[k]);
      }
    }
  }

  /** A line counts as gone iff the restaurant does not offer its item, or its first bad
      pick is off the menu. */
  lemma GoneIff(s: Snapshot, line: Line)
    ensures FaultOf(s, line) == Some(Drift) <==>
              forall item :: Offers(s, line.item, item) ==>
                exists j: nat :: FirstBadPick(item, line.options, j) && !OnMenu(item, line.options[j])
  {
    OffersIff(s, line);
    if Orderable(s, line) {
      var item := FindItem(s.items, line.item).value;
      if LineFault(item, line.options).Some? {
        var at := FaultIsTheFirstProblem(item, line.options);
        if j: nat :| FirstBadPick(item, line.options, j) && !OnMenu(item, line.options[j]) {
          assert FirstBadPick(item, line.options, at) ==> at == j;
        }
      } else {
        FaultlessIffAcceptable(item, line.options);
      }
    }
  }

  /** A quote is given iff the restaurant is open and every line of a non-empty cart is
      good. */
  lemma PricedIff(s: Snapshot, lines: seq<Line>, cfg: Config)
    ensures Outcome(s, lines, None, cfg) == RestaurantClosed(s.id) <==> s.status != "open" || !s.openNow
    ensures Outcome(s, lines, None, cfg).Priced? <==>
            s.status == "open" && s.openNow && lines != [] && forall i :: 0 <= i < |lines| ==> GoodLine(s, lines[i])
  {
    NothingWrongIff(s, lines);
    forall i | 0 <= i < |lines| ensures FaultOf(s, lines[i]).None? <==> GoodLine(s, lines[i]) {
      GoodIffFaultless(s, lines[i]);
    }
  }

  lemma GoodIffFaultless(s: Snapshot, line: Line)
    ensures FaultOf(s, line).None? <==> GoodLine(s, line)
  {
    OffersIff(s, line);
    if Orderable(s, line) {
      FaultlessIffAcceptable(FindItem(s.items, line.item).value, line.options);
    }
  }

  /** What a refusal names: the unavailable items, all of them, before any violation;
      otherwise one violation per faulty line. */
  lemma RefusalsAreComplete(s: Snapshot, lines: seq<Line>, expected: Option<int>, cfg: Config)
    requires Open(s) && lines != []
    ensures var r := Outcome(s, lines, expected, cfg);
            && (r.ItemUnavailable? <==> exists i :: 0 <= i < |lines| && FaultOf(s, lines[i]) == Some(Drift))
            && (r.ItemUnavailable? ==> forall item :: item in r.items <==>
                  exists i :: 0 <= i < |lines| && lines[i].item == item && FaultOf(s, lines[i]) == Some(Drift))
            && (r.InvalidSelection? ==> forall i: nat, f :: AtLine(i, f) in r.violations <==>
                  i < |lines| && FaultOf(s, lines[i]) == Some(f))
  {
    WrongMeans(s, lines);
    forall item ensures item in Gone(s, lines) <==> exists i :: 0 <= i < |lines| && lines[i].item == item && FaultOf(s, lines[i]) == Some(Drift) {
      GoneMeans(s, lines, item);
    }
    if i :| 0 <= i < |lines| && FaultOf(s, lines[i]) == Some(Drift) {
      assert lines[i].item in Gone(s, lines);
    }
  }

  lemma {:induction false} AllPriced(s: Snapshot, lines: seq<Line>)
    requires forall i :: 0 <= i < |lines| ==> FaultOf(s, lines[i]).None?
    ensures |PricedLines(s, lines)| == |lines|
    ensures forall i :: 0 <= i < |lines| ==>
              FindItem(s.items, lines[i].item).Some?
              && PricedLines(s, lines)[i] == PricedAs(lines[i], FindItem(s.items, lines[i].item).value)
  {
    if |lines| > 0 {
      AllPriced(s, lines[..|lines| - 1]);
      assert FaultOf(s, lines[|lines| - 1]).None?;
    }
  }

  lemma RoundedDown(amount: int)
    ensures amount / 10_000 * 10_000 <= amount < (amount / 10_000 + 1) * 10_000
  {
  }

  lemma TaxRoundsDown(subtotal: int, cfg: Config)
    ensures var t := TotalsOf(subtotal, cfg);
            && t.subtotal == subtotal && t.discount == 0 && t.fee == cfg.deliveryFee && t.total == subtotal + cfg.deliveryFee + t.tax
            && t.tax * 10_000 <= subtotal * cfg.taxBasisPoints < (t.tax + 1) * 10_000
  {
    RoundedDown(subtotal * cfg.taxBasisPoints);
  }

  lemma PricedMeans(s: Snapshot, lines: seq<Line>, expected: Option<int>, cfg: Config)
    requires Outcome(s, lines, expected, cfg).Priced?
    ensures var o := Outcome(s, lines, expected, cfg).order;
            o.lines == PricedLines(s, lines) && o.totals == TotalsOf(Subtotal(o.lines), cfg)
    ensures forall i :: 0 <= i < |lines| ==> FaultOf(s, lines[i]).None?
  {
    NothingWrongIff(s, lines);
  }

  function LineTotals(priced: seq<PricedLine>): seq<int> {
    seq(|priced|, i requires 0 <= i < |priced| => priced[i].total)
  }

  lemma {:induction false} SubtotalSums(priced: seq<PricedLine>)
    ensures Subtotal(priced) == Sum(LineTotals(priced))
  {
    if |priced| > 0 {
      SubtotalSums(priced[..|priced| - 1]);
      assert LineTotals(priced)[..|priced| - 1] == LineTotals(priced[..|priced| - 1]);
    }
  }

  /** The currency is that of the last line's item. */
  lemma LastCurrency(s: Snapshot, lines: seq<Line>)
    requires |lines| > 0 && FaultOf(s, lines[|lines| - 1]).None?
    ensures FindItem(s.items, lines[|lines| - 1].item).Some?
    ensures CurrencyOf(s, lines) == FindItem(s.items, lines[|lines| - 1].item).value.currency
  {
  }

  /** Line i of the order is charged at the price of its item, as the snapshot has it. */
  ghost predicate ChargesLine(s: Snapshot, line: Line, p: PricedLine) {
    exists item :: IsItem(s.items, line.item, item) && IsPriceOf(line, item, p)
  }

  lemma ChargesAll(s: Snapshot, lines: seq<Line>, i: nat)
    requires i < |lines| && forall i :: 0 <= i < |lines| ==> FaultOf(s, lines[i]).None?
    ensures |PricedLines(s, lines)| == |lines| && ChargesLine(s, lines[i], PricedLines(s, lines)[i])
  {
    AllPriced(s, lines);
    assert FaultOf(s, lines[i]).None?;
    var k := ItemAt(s.items, lines[i].item);
    PricedAsIsThePrice(lines[i], FindItem(s.items, lines[i].item).value);
  }

  /** A priced order has one priced line per line, in order, each at its item's price, and
      charges the sum of the line totals, the fee, and the tax rounded down to the cent,
      in the currency of the last line. */
  lemma TotalsAddUp(s: Snapshot, lines: seq<Line>, expected: Option<int>, cfg: Config)
    requires Outcome(s, lines, expected, cfg).Priced?
    ensures var o := Outcome(s, lines, expected, cfg).order;
            && |o.lines| == |lines|
            && (forall i :: 0 <= i < |lines| ==> ChargesLine(s, lines[i], o.lines[i]))
            && o.totals.subtotal == Sum(LineTotals(o.lines)) && o.totals.discount == 0 && o.totals.fee == cfg.deliveryFee
            && o.totals.total == o.totals.subtotal + cfg.deliveryFee + o.totals.tax
            && o.totals.tax * 10_000 <= o.totals.subtotal * cfg.taxBasisPoints < (o.totals.tax + 1) * 10_000
            && o.restaurant == s.name
            && exists item :: IsItem(s.items, lines[|lines| - 1].item, item) && o.currency == item.currency
  {
    PricedMeans(s, lines, expected, cfg);
    var o := Outcome(s, lines, expected, cfg).order;
    TaxRoundsDown(Subtotal(o.lines), cfg);
    SubtotalSums(o.lines);
    AllPriced(s, lines);
    forall i | 0 <= i < |lines| ensures ChargesLine(s, lines[i], o.lines[i]) {
      ChargesAll(s, lines, i);
    }
    LastCurrency(s, lines);
    var k := ItemAt(s.items, lines[|lines| - 1].item);
  }
}
