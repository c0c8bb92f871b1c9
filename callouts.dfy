/** The callout engine of main.js: the order callouts are found in, their
    numbering, the rebuilt callout list and its vertical layout. */
module Callouts {
  import opened Js
  import opened Layers
  import opened Sorting
  import opened Symbols
  import opened Titles

  const CalloutDescription: string := "<calloutDescription>"
  const CalloutNumberSlot: string := "<calloutNumber>"
  const ListDescriptionSlot: string := "<calloutListDescription>"
  const ListNumberSlot: string := "<calloutListNumber>"

  /** What the host supplies and the model does not compute: the document's
      masters; the overrides a fresh instance of the list master starts with;
      the group `createCalloutDescriptionGroup` would place by float scaling;
      and the height a text layer wraps to at a width. */
  datatype Host = Host(
    allSymbols: seq<Layer>,
    freshOverrides: map<string, JsValue>,
    newListGroup: Layer,
    measure: (JsValue, int) -> int)

  // ---------------------------------------------------------------------
  // sortedCallouts

  /** The callouts inside one top-level group, row-sorted. */
  function GroupCallouts(g: Layer): seq<Layer>
  {
    var calloutInstances := SymbolsWithOverrideSpec(FilterClass(Children(g), SymbolInstance), CalloutDescription);
    Sort(ByRows(MinYOf(calloutInstances)), calloutInstances)
  }

  /** The callouts of each group in turn. */
  function AllGroupCallouts(groups: seq<Layer>): seq<Layer>
  {
    if groups == [] then []
    else AllGroupCallouts(groups[..|groups| - 1]) + GroupCallouts(groups[|groups| - 1])
  }

  /** The artboard's top-level groups, left to right. */
  function GroupsInOrder(artboard: Layer): seq<Layer>
  {
    Sort(ByX, FilterClass(artboard.layers, LayerGroup))
  }

  /** The callouts lying directly on the artboard, top to bottom. */
  function UngroupedCallouts(artboard: Layer): seq<Layer>
  {
    Sort(ByY, SymbolsWithOverrideSpec(FilterClass(artboard.layers, SymbolInstance), CalloutDescription))
  }

  /** Specification of `sortedCallouts(artboard)`. */
  function SortedCalloutsSpec(artboard: Layer): seq<Layer>
  {
    AllGroupCallouts(GroupsInOrder(artboard)) + UngroupedCallouts(artboard)
  }

  method ToArray(s: seq<Layer>) returns (a: array<Layer>)
    ensures fresh(a) && a[..] == s
  {
    a := new Layer[|s|](k requires 0 <= k < |s| => s[k]);
  }

  /** The loop body of `sortedCallouts` for one group: its callout
      instances, sorted in place by rows. */
  method RowSortedCallouts(group: Layer) returns (r: seq<Layer>)
    ensures r == GroupCallouts(group)
  {
    var instances := FilterClass(Children(group), SymbolInstance);
    var found := SymbolsWithOverride(instances, CalloutDescription);
    var calloutInstances := ToArray(found);
    SortLayersByRows(calloutInstances);
    r := calloutInstances[..];
  }

  /** The ungrouped callouts of `sortedCallouts`, sorted in place by `y`. */
  method VerticalCallouts(artboard: Layer) returns (r: seq<Layer>)
    ensures r == UngroupedCallouts(artboard)
  {
    var ungroupedInstances := FilterClass(artboard.layers, SymbolInstance);
    var found := SymbolsWithOverride(ungroupedInstances, CalloutDescription);
    var calloutInstances := ToArray(found);
    SortByVerticalPosition(calloutInstances);
    r := calloutInstances[..];
  }

  /** The artboard's top-level groups, sorted in place by `x`. */
  method HorizontalGroups(artboard: Layer) returns (r: seq<Layer>)
    ensures r == GroupsInOrder(artboard)
  {
    var groups := ToArray(FilterClass(artboard.layers, LayerGroup));
    SortByHorizontalPosition(groups);
    r := groups[..];
  }

  /** The callouts of one more group extend those of the groups before it. */
  lemma AllGroupCalloutsStep(groups: seq<Layer>, i: nat)
    requires i < |groups|
    ensures AllGroupCallouts(groups[..i + 1]) == AllGroupCallouts(groups[..i]) + GroupCallouts(groups[i])
  {
    assert groups[..i + 1][..i] == groups[..i];
  }

  /** The body of the group loop of `sortedCallouts` on the `i`-th group. */
  method NextGroupCallouts(groups: seq<Layer>, i: nat, callouts: seq<Layer>) returns (r: seq<Layer>)
    requires i < |groups|
    requires callouts == AllGroupCallouts(groups[..i])
    ensures r == AllGroupCallouts(groups[..i + 1])
  {
    var calloutInstances := RowSortedCallouts(groups[i]);
    AllGroupCalloutsStep(groups, i);
    r := callouts + calloutInstances;
  }

  /** `sortedCallouts(artboard)`: grouped callouts, group by group from left
      to right and row-sorted within each group, then the ungrouped ones from
      top to bottom. `instancesWithOverride` is read as `symbolsWithOverride`. */
  method SortedCallouts(artboard: Layer) returns (callouts: seq<Layer>)
    ensures callouts == SortedCalloutsSpec(artboard)
  {
    callouts := [];
    var groups := HorizontalGroups(artboard);
    var i := 0;
    while i < |groups|
      invariant 0 <= i <= |groups|
      invariant callouts == AllGroupCallouts(groups[..i])
    {
      callouts := NextGroupCallouts(groups, i, callouts);
      i := i + 1;
    }
    assert groups[..i] == groups;
    var ungrouped := VerticalCallouts(artboard);
    callouts := callouts + ungrouped;
  }

  /** Every callout found is a symbol instance whose master has a `<calloutDescription>` slot. */
  predicate IsCallout(c: Layer)
  {
    c.cls == SymbolInstance && HasOverride(c, CalloutDescription)
  }

  lemma SortKeepsMembers(k: SortKey, s: seq<Layer>, x: Layer)
    requires x in Sort(k, s)
    ensures x in s
  {
    SortPermutes(k, s);
    assert x in multiset(Sort(k, s));
  }

  lemma FoundAreCallouts(instances: seq<Layer>)
    requires forall k :: 0 <= k < |instances| ==> instances[k].cls == SymbolInstance
    ensures forall c :: c in SymbolsWithOverrideSpec(instances, CalloutDescription) ==> IsCallout(c)
  {
    SymbolsWithOverrideMembers(instances, CalloutDescription);
    var r := SymbolsWithOverrideSpec(instances, CalloutDescription);
    forall c | c in r ensures IsCallout(c) {
      var k :| 0 <= k < |r| && r[k] == c;
      var j :| 0 <= j < |instances| && instances[j] == c;
    }
  }

  lemma {:induction false} AllGroupCalloutsAreCallouts(groups: seq<Layer>)
    ensures forall c :: c in AllGroupCallouts(groups) ==> IsCallout(c)
  {
    if groups != [] {
      AllGroupCalloutsAreCallouts(groups[..|groups| - 1]);
      var g := groups[|groups| - 1];
      var found := SymbolsWithOverrideSpec(FilterClass(Children(g), SymbolInstance), CalloutDescription);
      FoundAreCallouts(FilterClass(Children(g), SymbolInstance));
      forall c | c in GroupCallouts(g) ensures IsCallout(c) {
        SortKeepsMembers(ByRows(MinYOf(found)), found, c);
      }
    }
  }

  /** `sortedCallouts` yields only callouts; the groups are visited by
      non-decreasing x, each group's callouts come in row order, and the
      ungrouped callouts by non-decreasing y. */
  lemma SortedCalloutsOrder(artboard: Layer)
    ensures forall c :: c in SortedCalloutsSpec(artboard) ==> IsCallout(c)
    ensures SortedBy(ByX, GroupsInOrder(artboard))
    ensures multiset(GroupsInOrder(artboard)) == multiset(FilterClass(artboard.layers, LayerGroup))
    ensures forall g :: g in GroupsInOrder(artboard) ==>
      var found := SymbolsWithOverrideSpec(FilterClass(Children(g), SymbolInstance), CalloutDescription);
      SortedBy(ByRows(MinYOf(found)), GroupCallouts(g))
    ensures SortedBy(ByY, UngroupedCallouts(artboard))
  {
    AllGroupCalloutsAreCallouts(GroupsInOrder(artboard));
    var found := SymbolsWithOverrideSpec(FilterClass(artboard.layers, SymbolInstance), CalloutDescription);
    FoundAreCallouts(FilterClass(artboard.layers, SymbolInstance));
    forall c | c in UngroupedCallouts(artboard) ensures IsCallout(c) {
      SortKeepsMembers(ByY, found, c);
    }
    SortSorted(ByX, FilterClass(artboard.layers, LayerGroup));
    SortPermutes(ByX, FilterClass(artboard.layers, LayerGroup));
    forall g | g in GroupsInOrder(artboard)
      ensures var found := SymbolsWithOverrideSpec(FilterClass(Children(g), SymbolInstance), CalloutDescription);
              SortedBy(ByRows(MinYOf(found)), GroupCallouts(g))
    {
      var found := SymbolsWithOverrideSpec(FilterClass(Children(g), SymbolInstance), CalloutDescription);
      SortSorted(ByRows(MinYOf(found)), found);
    }
    SortSorted(ByY, found);
  }

  // ---------------------------------------------------------------------
  // updateCalloutsOnArtboard

  /** One line of `calloutListDescriptions`. */
  datatype ListEntry = ListEntry(description: string, calloutNumber: string)

  /** `artboard.name().substring(0, artboard.name().indexOf(' ')).concat('.')`:
      the name up to its first space, or nothing when there is no space. */
  function SectionPrefix(artboardName: string): (r: string)
    ensures IndexOfChar(artboardName, ' ') >= 0 ==> r == artboardName[..IndexOfChar(artboardName, ' ')] + "."
    ensures IndexOfChar(artboardName, ' ') < 0 ==> r == "."
  {
    Substring(artboardName, 0, IndexOfChar(artboardName, ' ')) + "."
  }

  /** The number of the `k`-th callout (from 1). */
  function CalloutNumber(useSections: bool, prefix: string, k: nat): string
    requires k >= 1
  {
    if useSections then prefix + NatToString(k) else NumberToLetters(k - 1)
  }

  /** Two callouts of an artboard never share a number (with letters, below
      the bound where `String.fromCharCode` stays exact). */
  lemma CalloutNumbersDistinct(useSections: bool, prefix: string, j: nat, k: nat)
    requires 1 <= j && 1 <= k && j != k
    requires !useSections ==> j <= LetterCodeBound && k <= LetterCodeBound
    ensures CalloutNumber(useSections, prefix, j) != CalloutNumber(useSections, prefix, k)
  {
    if useSections {
      var a, b := prefix + NatToString(j), prefix + NatToString(k);
      if a == b {
        assert a[|prefix|..] == NatToString(j);
        assert b[|prefix|..] == NatToString(k);
        NatToStringInjective(j, k);
      }
    } else if NumberToLetters(j - 1) == NumberToLetters(k - 1) {
      NumberToLettersInjective(j - 1, k - 1);
    }
  }

  /** The description `getOverrideText` reads, null read as `''`; none when
      the value has no `substring` (undefined, a number, a boolean). */
  function DescriptionOf(c: Layer): Option<string>
  {
    match OverrideText(c, CalloutDescription)
    case Null => Some("")
    case Str(s) => Some(s)
    case _ => None
  }

  /** The host name of a numbered callout. */
  function CalloutName(calloutNumber: string, description: string): string
  {
    calloutNumber + " - " + Substring(description, 0, 30) + "..."
  }

  /** One callout after numbering: its number slot set, its description slot
      set to `' '` and back, and its name rebuilt. */
  function Renumbered(c: Layer, calloutNumber: string, description: string): Layer
  {
    var c1 := SetOverride(c, CalloutNumberSlot, Str(calloutNumber)).0;
    var c2 := SetOverride(c1, CalloutDescription, Str(" ")).0;
    var c3 := SetOverride(c2, CalloutDescription, Str(description)).0;
    c3.(name := CalloutName(calloutNumber, description))
  }

  /** A callout whose description slot is one text child with an entry keeps
      its description through the renumbering. */
  lemma {:induction false} RenumberedKeepsDescription(c: Layer, calloutNumber: string, i: nat)
    requires DescriptionOf(c).Some?
    requires i < |c.masterChildren| && IsTextNamed(c.masterChildren[i], CalloutDescription)
    requires forall j :: 0 <= j < |c.masterChildren| && j != i ==> !IsTextNamed(c.masterChildren[j], CalloutDescription)
    requires HasEntry(c.overrides, c.masterChildren[i].objectID)
    ensures OverrideText(Renumbered(c, calloutNumber, DescriptionOf(c).value), CalloutDescription)
            == Str(DescriptionOf(c).value)
  {
    var d := DescriptionOf(c).value;
    var cs := c.masterChildren;
    var c1 := SetOverride(c, CalloutNumberSlot, Str(calloutNumber)).0;
    assert c1.masterChildren == cs;
    assert WritableChildFrom(cs, CalloutDescription, c1.overrides, 0).Some? by {
      WritableChildFromMeaning(cs, CalloutDescription, c1.overrides, 0);
      assert IsWritable(cs[i], CalloutDescription, c1.overrides);
    }
    var c2 := SetOverride(c1, CalloutDescription, Str(" ")).0;
    assert c2.masterChildren == cs;
    assert WritableChildFrom(cs, CalloutDescription, c2.overrides, 0).Some? by {
      WritableChildFromMeaning(cs, CalloutDescription, c2.overrides, 0);
      assert IsWritable(cs[i], CalloutDescription, c2.overrides);
    }
    SetThenGet(c2, CalloutDescription, Str(d), i);
  }

  /** Specification of the callout loop of `updateCalloutsOnArtboard`: the
      list lines, in callout order; none when some description throws at
      `substring`. */
  function ListEntries(cs: seq<Layer>, useSections: bool, prefix: string): (r: Option<seq<ListEntry>>)
    ensures r.Some? ==> |r.value| == |cs|
  {
    if cs == [] then Some([])
    else
      var front := ListEntries(cs[..|cs| - 1], useSections, prefix);
      var d := DescriptionOf(cs[|cs| - 1]);
      if front.None? || d.None? then None
      else Some(front.value + [ListEntry(d.value, CalloutNumber(useSections, prefix, |cs|))])
  }

  /** The callouts as the loop leaves them, each renumbered after its list line. */
  function RenumberAll(cs: seq<Layer>, entries: seq<ListEntry>): (r: seq<Layer>)
    requires |cs| == |entries|
    ensures |r| == |cs|
  {
    if cs == [] then []
    else
      var e := entries[|cs| - 1];
      RenumberAll(cs[..|cs| - 1], entries[..|cs| - 1]) + [Renumbered(cs[|cs| - 1], e.calloutNumber, e.description)]
  }

  /** The loop throws exactly when some description is undefined or not a
      string. */
  lemma {:induction false} ListEntriesMeaning(cs: seq<Layer>, useSections: bool, prefix: string)
    ensures ListEntries(cs, useSections, prefix).Some? <==> forall k :: 0 <= k < |cs| ==> DescriptionOf(cs[k]).Some?
  {
    if cs != [] {
      var n := |cs| - 1;
      var front := cs[..n];
      ListEntriesMeaning(front, useSections, prefix);
      DescribedLast(cs, front);
    }
  }

  /** Every callout has a description exactly when all but the last do and
      the last does. */
  lemma DescribedLast(cs: seq<Layer>, front: seq<Layer>)
    requires cs != [] && front == cs[..|cs| - 1]
    ensures (forall k :: 0 <= k < |cs| ==> DescriptionOf(cs[k]).Some?)
        <==> (forall k :: 0 <= k < |front| ==> DescriptionOf(front[k]).Some?) && DescriptionOf(cs[|cs| - 1]).Some?
  {
    assert forall k :: 0 <= k < |cs| - 1 ==> front[k] == cs[k];
  }

  /** Otherwise the list gets one line per callout, in the same order: the
      `k`-th callout (from 1) gets number `k` after the prefix, or the letter
      code of `k - 1`. */
  lemma {:induction false} ListEntriesLines(cs: seq<Layer>, useSections: bool, prefix: string)
    requires ListEntries(cs, useSections, prefix).Some?
    ensures var es := ListEntries(cs, useSections, prefix).value;
      forall k :: 0 <= k < |cs| ==>
        DescriptionOf(cs[k]) == Some(es[k].description) && es[k].calloutNumber == CalloutNumber(useSections, prefix, k + 1)
  {
    if cs != [] {
      var n := |cs| - 1;
      var front := cs[..n];
      ListEntriesLines(front, useSections, prefix);
      var fe := ListEntries(front, useSections, prefix).value;
      var es := ListEntries(cs, useSections, prefix).value;
      assert es == fe + [ListEntry(DescriptionOf(cs[n]).value, CalloutNumber(useSections, prefix, n + 1))];
      forall k | 0 <= k < n
        ensures DescriptionOf(cs[k]) == Some(es[k].description) && es[k].calloutNumber == CalloutNumber(useSections, prefix, k + 1)
      {
        assert front[k] == cs[k];
        assert es[k] == fe[k];
      }
    }
  }

  /** Each callout is renamed and renumbered from its own list line. */
  lemma {:induction false} RenumberAllMeaning(cs: seq<Layer>, entries: seq<ListEntry>)
    requires |cs| == |entries|
    ensures |RenumberAll(cs, entries)| == |cs|
    ensures forall k :: 0 <= k < |cs| ==>
      RenumberAll(cs, entries)[k] == Renumbered(cs[k], entries[k].calloutNumber, entries[k].description)
  {
    if cs != [] {
      var n := |cs| - 1;
      var front := RenumberAll(cs[..n], entries[..n]);
      var r := RenumberAll(cs, entries);
      RenumberAllMeaning(cs[..n], entries[..n]);
      assert r == front + [Renumbered(cs[n], entries[n].calloutNumber, entries[n].description)];
      forall k | 0 <= k < |cs|
        ensures r[k] == Renumbered(cs[k], entries[k].calloutNumber, entries[k].description)
      {
        if k < n {
          assert cs[..n][k] == cs[k] && entries[..n][k] == entries[k];
          assert r[k] == front[k];
        }
      }
    }
  }

  /** A fresh instance of the list master, filled with one list line. */
  function NewListInstance(master: Layer, initial: map<string, JsValue>, e: ListEntry): Layer
  {
    var inst := Layer(SymbolInstance, "", "", Frame(0, 0, master.frame.width, master.frame.height),
                      [], "", Children(master), initial);
    var i1 := SetOverride(inst, ListDescriptionSlot, Str(e.description)).0;
    var i2 := SetOverride(i1, ListNumberSlot, Str(e.calloutNumber)).0;
    i2.(name := e.calloutNumber)
  }

  /** The instances the list gets, one per line, in order. */
  function ListInstances(master: Layer, initial: map<string, JsValue>, entries: seq<ListEntry>): seq<Layer>
  {
    if entries == [] then []
    else ListInstances(master, initial, entries[..|entries| - 1]) + [NewListInstance(master, initial, entries[|entries| - 1])]
  }

  /** One more list line adds its instance at the end. */
  lemma ListInstancesStep(master: Layer, initial: map<string, JsValue>, entries: seq<ListEntry>, i: nat)
    requires i < |entries|
    ensures ListInstances(master, initial, entries[..i + 1])
            == ListInstances(master, initial, entries[..i]) + [NewListInstance(master, initial, entries[i])]
  {
    assert entries[..i + 1][..i] == entries[..i];
  }

  /** The layers of a list group without its symbol instances. */
  function WithoutInstances(ls: seq<Layer>): (r: seq<Layer>)
    ensures |r| <= |ls|
    ensures forall k :: 0 <= k < |r| ==> r[k].cls != SymbolInstance
  {
    if ls == [] then []
    else (if ls[0].cls != SymbolInstance then [ls[0]] else []) + WithoutInstances(ls[1..])
  }

  /** Emptying the list group keeps exactly its layers that are not instances. */
  lemma {:induction false} WithoutInstancesMembers(ls: seq<Layer>)
    ensures forall x :: x in WithoutInstances(ls) <==> x in ls && x.cls != SymbolInstance
  {
    if ls != [] {
      WithoutInstancesMembers(ls[1..]);
      assert forall x :: x in ls <==> x == ls[0] || x in ls[1..];
    }
  }

  // ---------------------------------------------------------------------
  // layoutCalloutDescriptions

  /** The group after layout and the background rectangle sized to it. */
  datatype Laidout = Laidout(group: Layer, rect: Layer)

  /** The group with a background rectangle: the existing one, or a new one
      of the group's size moved to the back. */
  function WithRect(group: Layer): (r: (Layer, Layer))
    ensures r.1.cls == RectangleShape && r.1.name == "<calloutGroupRect>"
    ensures r.0.frame == group.frame
  {
    match FirstNamed(Children(group), RectangleShape, "<calloutGroupRect>")
    case Some(rect) => (group, rect)
    case None =>
      var rect := Layer(RectangleShape, "", "<calloutGroupRect>", Frame(0, 0, group.frame.width, group.frame.height),
                        [], "", [], map[]);
      (group.(layers := [rect] + group.layers), rect)
  }

  /** The height one list instance takes: the padding around the text plus
      the wrapped height of its description. */
  function EntryHeight(inst: Layer, width: int, padV: int, padH: int, measure: (JsValue, int) -> int): int
  {
    padV + measure(OverrideText(inst, ListDescriptionSlot), width - padH)
  }

  /** The summed heights of the list instances among `ls`. */
  function StackHeight(ls: seq<Layer>, width: int, padV: int, padH: int, measure: (JsValue, int) -> int): int
  {
    if ls == [] then 0
    else
      var last := ls[|ls| - 1];
      StackHeight(ls[..|ls| - 1], width, padV, padH, measure)
      + (if last.cls == SymbolInstance then EntryHeight(last, width, padV, padH, measure) else 0)
  }

  /** One layer of the group after layout: an instance gets the group's width
      and its top at `top`; anything else is left as it is. */
  function Place(l: Layer, width: int, top: int): Layer
  {
    if l.cls == SymbolInstance then l.(frame := l.frame.(y := top, width := width)) else l
  }

  /** Specification of the layout loop: each layer placed at the summed
      height of the instances before it. */
  function Stacked(ls: seq<Layer>, width: int, padV: int, padH: int, measure: (JsValue, int) -> int): seq<Layer>
  {
    if ls == [] then []
    else
      var front := ls[..|ls| - 1];
      Stacked(front, width, padV, padH, measure) + [Place(ls[|ls| - 1], width, StackHeight(front, width, padV, padH, measure))]
  }

  /** `out` is `ls` laid out: every layer keeps its place, and the `k`-th
      gets the width and its top from the instances above it. */
  predicate StackedAt(out: seq<Layer>, ls: seq<Layer>, width: int, padV: int, padH: int, measure: (JsValue, int) -> int)
  {
    && |out| == |ls|
    && forall k :: 0 <= k < |ls| ==> out[k] == Place(ls[k], width, StackHeight(ls[..k], width, padV, padH, measure))
  }

  /** Layout changes only the frames of instances, each placed below the
      instances before it. */
  lemma {:induction false} StackedMeaning(ls: seq<Layer>, width: int, padV: int, padH: int, measure: (JsValue, int) -> int)
    ensures StackedAt(Stacked(ls, width, padV, padH, measure), ls, width, padV, padH, measure)
  {
    if ls != [] {
      var n := |ls| - 1;
      var front := ls[..n];
      StackedMeaning(front, width, padV, padH, measure);
      var r := Stacked(ls, width, padV, padH, measure);
      assert r == Stacked(front, width, padV, padH, measure) + [Place(ls[n], width, StackHeight(front, width, padV, padH, measure))];
      forall k | 0 <= k < |ls|
        ensures r[k] == Place(ls[k], width, StackHeight(ls[..k], width, padV, padH, measure))
      {
        if k < n {
          assert front[k] == ls[k] && front[..k] == ls[..k];
          assert r[k] == Stacked(front, width, padV, padH, measure)[k];
        }
      }
    }
  }

  /** Specification of `layoutCalloutDescriptions(group, doc)`. It throws
      when the document has no list master or the master has no description
      layer (`getOverrideLayerfromSymbolMaster` is read as
      `getOverrideLayerfromSymbol` on the master). */
  function LayoutSpec(group: Layer, host: Host): Outcome<Laidout>
  {
    var (g1, rect) := WithRect(group);
    match MasterWithOverrideName(host.allSymbols, ListDescriptionSlot)
    case None => TypeError("calloutDescriptionSymbol is undefined")
    case Some(master) =>
      match OverrideLayerOf(master, ListDescriptionSlot)
      case None => TypeError("overrideLayer is undefined")
      case Some(overrideLayer) =>
        var padV := master.frame.height - overrideLayer.frame.height;
        var padH := master.frame.width - overrideLayer.frame.width;
        var width := g1.frame.width;
        var height := StackHeight(g1.layers, width, padV, padH, host.measure);
        var g2 := g1.(layers := Stacked(g1.layers, width, padV, padH, host.measure),
                      frame := g1.frame.(height := height));
        Done(Laidout(g2, rect.(frame := rect.frame.(width := g2.frame.width, height := g2.frame.height))))
  }

  /** The loop of `layoutCalloutDescriptions`: each instance gets the group
      width and the running top, which then grows by the instance's height. */
  method StackInstances(layers: seq<Layer>, width: int, padV: int, padH: int, measure: (JsValue, int) -> int)
    returns (placed: seq<Layer>, runningTop: int)
    ensures placed == Stacked(layers, width, padV, padH, measure)
    ensures runningTop == StackHeight(layers, width, padV, padH, measure)
  {
    placed := [];
    runningTop := 0;
    var i := 0;
    while i < |layers|
      invariant 0 <= i <= |layers|
      invariant placed == Stacked(layers[..i], width, padV, padH, measure)
      invariant runningTop == StackHeight(layers[..i], width, padV, padH, measure)
    {
      var instance := layers[i];
      assert layers[..i + 1][..i] == layers[..i];
      if instance.cls == SymbolInstance {
        placed := placed + [instance.(frame := instance.frame.(y := runningTop, width := width))];
        runningTop := runningTop + padV + measure(OverrideText(instance, ListDescriptionSlot), width - padH);
      } else {
        placed := placed + [instance];
      }
      i := i + 1;
    }
    assert layers[..i] == layers;
  }

  /** `layoutCalloutDescriptions(group, doc)` with the wrapped-text height
      measured by `host.measure` instead of a scratch copy of the text layer. */
  method LayoutCalloutDescriptions(group: Layer, host: Host) returns (r: Outcome<Laidout>)
    ensures r == LayoutSpec(group, host)
  {
    var (g1, groupRect) := WithRect(group);
    var calloutDescriptionSymbol := SymbolMasterWithOverrideName(host.allSymbols, ListDescriptionSlot);
    if calloutDescriptionSymbol.None? {
      return TypeError("calloutDescriptionSymbol is undefined");
    }
    var master := calloutDescriptionSymbol.value;
    var overrideLayer := GetOverrideLayerFromSymbol(master, ListDescriptionSlot);
    if overrideLayer.None? {
      return TypeError("overrideLayer is undefined");
    }
    var symbolPaddingVertical := master.frame.height - overrideLayer.value.frame.height;
    var symbolPaddingHorizontal := master.frame.width - overrideLayer.value.frame.width;
    var placed, runningTop := StackInstances(g1.layers, g1.frame.width, symbolPaddingVertical,
                                             symbolPaddingHorizontal, host.measure);
    var g2 := g1.(layers := placed, frame := g1.frame.(height := runningTop));
    return Done(Laidout(g2, groupRect.(frame := groupRect.frame.(width := g2.frame.width, height := g2.frame.height))));
  }

  /** After layout the group keeps its width and is as tall as the whole
      stack, and the background rectangle has the group's size. */
  lemma LayoutMeaning(group: Layer, host: Host)
    requires LayoutSpec(group, host).Done?
    ensures var l := LayoutSpec(group, host).value;
      var g1 := WithRect(group).0;
      var master := MasterWithOverrideName(host.allSymbols, ListDescriptionSlot).value;
      var overrideLayer := OverrideLayerOf(master, ListDescriptionSlot).value;
      var padV := master.frame.height - overrideLayer.frame.height;
      var padH := master.frame.width - overrideLayer.frame.width;
      && l.group.frame.height == StackHeight(g1.layers, group.frame.width, padV, padH, host.measure)
      && l.rect.frame.width == l.group.frame.width == group.frame.width
      && l.rect.frame.height == l.group.frame.height
  {
  }

  /** Layout keeps every layer of the group in its place and stacks the
      instances: the `k`-th gets the group's width and its top from the
      instances above it. */
  lemma LayoutPlaces(group: Layer, host: Host)
    requires LayoutSpec(group, host).Done?
    ensures var g1 := WithRect(group).0;
      var master := MasterWithOverrideName(host.allSymbols, ListDescriptionSlot).value;
      var overrideLayer := OverrideLayerOf(master, ListDescriptionSlot).value;
      StackedAt(LayoutSpec(group, host).value.group.layers, g1.layers, group.frame.width,
                master.frame.height - overrideLayer.frame.height,
                master.frame.width - overrideLayer.frame.width, host.measure)
  {
    var g1 := WithRect(group).0;
    var master := MasterWithOverrideName(host.allSymbols, ListDescriptionSlot).value;
    var overrideLayer := OverrideLayerOf(master, ListDescriptionSlot).value;
    LayoutStacks(group, host);
    StackedMeaning(g1.layers, group.frame.width, master.frame.height - overrideLayer.frame.height,
                   master.frame.width - overrideLayer.frame.width, host.measure);
  }

  /** The laid-out layers are the group's layers stacked at its width. */
  lemma LayoutStacks(group: Layer, host: Host)
    requires LayoutSpec(group, host).Done?
    ensures var g1 := WithRect(group).0;
      var master := MasterWithOverrideName(host.allSymbols, ListDescriptionSlot).value;
      var overrideLayer := OverrideLayerOf(master, ListDescriptionSlot).value;
      LayoutSpec(group, host).value.group.layers
        == Stacked(g1.layers, group.frame.width, master.frame.height - overrideLayer.frame.height,
                   master.frame.width - overrideLayer.frame.width, host.measure)
  {
  }

  // ---------------------------------------------------------------------
  // updateCalloutsOnArtboard, whole

  /** What `updateCalloutsOnArtboard` leaves: the count it returns, the
      numbered callouts, and the laid-out list when there was a callout. */
  datatype CalloutUpdate = CalloutUpdate(count: nat, callouts: seq<Layer>, list: Option<Laidout>)

  /** The list group before layout: the existing one emptied of its
      instances, or a new one, then one new instance per list line. */
  function RefilledList(artboard: Layer, host: Host, master: Layer, entries: seq<ListEntry>): Layer
  {
    var g0 := match FirstNamed(Children(artboard), LayerGroup, "<calloutListGroup>")
              case None => host.newListGroup
              case Some(g) => g.(layers := WithoutInstances(g.layers));
    g0.(layers := g0.layers + ListInstances(master, host.freshOverrides, entries))
  }

  /** Specification of `updateCalloutsOnArtboard(artboard, doc)` with the
      `useSections` setting passed in. */
  function UpdateCalloutsSpec(artboard: Layer, useSections: bool, host: Host): Outcome<CalloutUpdate>
  {
    var callouts := SortedCalloutsSpec(artboard);
    var prefix := if useSections then SectionPrefix(artboard.name) else "";
    match ListEntries(callouts, useSections, prefix)
    case None => TypeError("overrideText is undefined")
    case Some(entries) =>
      if |callouts| == 0 then Done(CalloutUpdate(0, [], None))
      else
        var updated := RenumberAll(callouts, entries);
        match MasterWithOverrideName(host.allSymbols, ListDescriptionSlot)
        case None => TypeError("calloutDescriptionSymbol is undefined")
        case Some(master) =>
          match LayoutSpec(RefilledList(artboard, host, master, entries), host)
          case TypeError(e) => TypeError(e)
          case Done(laid) => Done(CalloutUpdate(|callouts|, updated, Some(laid)))
  }

  /** The refill loop of `updateCalloutsOnArtboard`: finds or creates the
      list group, removes its instances and adds one per list line. */
  method RefillList(artboard: Layer, host: Host, master: Layer, entries: seq<ListEntry>) returns (group: Layer)
    ensures group == RefilledList(artboard, host, master, entries)
  {
    var found := LayerWithName(Children(artboard), LayerGroup, "<calloutListGroup>");
    group := if found.None? then host.newListGroup else found.value.(layers := WithoutInstances(found.value.layers));
    var layers := AddListInstances(group.layers, master, host.freshOverrides, entries);
    group := group.(layers := layers);
  }

  /** The loop that adds one new instance per list line to the group's layers. */
  method AddListInstances(layers: seq<Layer>, master: Layer, initial: map<string, JsValue>, entries: seq<ListEntry>)
    returns (r: seq<Layer>)
    ensures r == layers + ListInstances(master, initial, entries)
  {
    r := layers;
    var i := 0;
    while i < |entries|
      invariant 0 <= i <= |entries|
      invariant r == layers + ListInstances(master, initial, entries[..i])
    {
      var instance := NewListInstance(master, initial, entries[i]);
      ListInstancesStep(master, initial, entries, i);
      assert layers + ListInstances(master, initial, entries[..i + 1]) == r + [instance];
      r := r + [instance];
      i := i + 1;
    }
    assert entries[..i] == entries;
  }

  /** The three override writes and the rename of one callout. */
  method RenumberCallout(callout: Layer, calloutNumber: string, overrideText: JsValue) returns (c: Layer)
    requires overrideText.Str?
    ensures c == Renumbered(callout, calloutNumber, overrideText.s)
  {
    var c1, _ := SetOverrideText(callout, CalloutNumberSlot, Str(calloutNumber));
    var c2, _ := SetOverrideText(c1, CalloutDescription, Str(" "));
    var c3, _ := SetOverrideText(c2, CalloutDescription, overrideText);
    c := c3.(name := CalloutName(calloutNumber, overrideText.s));
  }

  /** `getOverrideText(callout, '<calloutDescription>')`, null read as `''`. */
  method ReadDescription(callout: Layer) returns (overrideText: JsValue)
    ensures overrideText.Str? <==> DescriptionOf(callout).Some?
    ensures overrideText.Str? ==> overrideText.s == DescriptionOf(callout).value
  {
    overrideText := GetOverrideText(callout, CalloutDescription);
    if overrideText == Null {
      overrideText := Str("");
    }
  }

  /** One more callout extends the list lines and the renumbered callouts. */
  lemma NumberStep(cs: seq<Layer>, useSections: bool, prefix: string, n: nat, es: seq<ListEntry>, d: string)
    requires n < |cs| && |es| == n
    requires ListEntries(cs[..n], useSections, prefix) == Some(es)
    requires DescriptionOf(cs[n]) == Some(d)
    ensures ListEntries(cs[..n + 1], useSections, prefix)
            == Some(es + [ListEntry(d, CalloutNumber(useSections, prefix, n + 1))])
    ensures var e := ListEntry(d, CalloutNumber(useSections, prefix, n + 1));
      RenumberAll(cs[..n + 1], es + [e]) == RenumberAll(cs[..n], es) + [Renumbered(cs[n], e.calloutNumber, d)]
  {
    assert cs[..n + 1][..n] == cs[..n];
    var e := ListEntry(d, CalloutNumber(useSections, prefix, n + 1));
    assert (es + [e])[..n] == es;
  }

  /** A callout whose description throws ends the list lines. */
  lemma NumberStepFails(cs: seq<Layer>, useSections: bool, prefix: string, n: nat)
    requires n < |cs| && DescriptionOf(cs[n]).None?
    ensures ListEntries(cs[..n + 1], useSections, prefix).None?
  {
    assert cs[..n + 1][..n] == cs[..n];
  }

  /** The body of the numbering loop on the `i`-th callout: its list line,
      none when its description throws, and the callout renumbered. */
  method NumberNextCallout(callouts: seq<Layer>, i: nat, useSections: bool, sectionNumber: string,
                           es: seq<ListEntry>, updated: seq<Layer>)
    returns (e: Option<ListEntry>, c: Layer)
    requires i < |callouts| && |es| == i
    requires ListEntries(callouts[..i], useSections, sectionNumber) == Some(es)
    requires updated == RenumberAll(callouts[..i], es)
    ensures e.None? ==> ListEntries(callouts[..i + 1], useSections, sectionNumber).None?
    ensures e.Some? ==> ListEntries(callouts[..i + 1], useSections, sectionNumber) == Some(es + [e.value])
                        && updated + [c] == RenumberAll(callouts[..i + 1], es + [e.value])
  {
    var callout := callouts[i];
    var overrideText := ReadDescription(callout);
    var calloutNumber := if useSections then sectionNumber + NatToString(i + 1) else NumberToLetters(i);
    assert calloutNumber == CalloutNumber(useSections, sectionNumber, i + 1);
    if !overrideText.Str? {
      NumberStepFails(callouts, useSections, sectionNumber, i);
      return None, callout;
    }
    NumberStep(callouts, useSections, sectionNumber, i, es, overrideText.s);
    c := RenumberCallout(callout, calloutNumber, overrideText);
    e := Some(ListEntry(overrideText.s, calloutNumber));
  }

  /** The numbering loop of `updateCalloutsOnArtboard`: the list lines, none
      when a description throws, and the renumbered callouts. */
  method NumberCallouts(callouts: seq<Layer>, useSections: bool, sectionNumber: string)
    returns (entries: Option<seq<ListEntry>>, updated: seq<Layer>)
    ensures entries == ListEntries(callouts, useSections, sectionNumber)
    ensures entries.Some? ==> updated == RenumberAll(callouts, entries.value)
  {
    var calloutCount := 0;
    updated := [];
    var calloutListDescriptions: seq<ListEntry> := [];
    while calloutCount < |callouts|
      invariant 0 <= calloutCount <= |callouts|
      invariant ListEntries(callouts[..calloutCount], useSections, sectionNumber) == Some(calloutListDescriptions)
      invariant |calloutListDescriptions| == calloutCount
      invariant updated == RenumberAll(callouts[..calloutCount], calloutListDescriptions)
    {
      var e, c := NumberNextCallout(callouts, calloutCount, useSections, sectionNumber, calloutListDescriptions, updated);
      if e.None? {
        ListEntriesPrefix(callouts, useSections, sectionNumber, calloutCount + 1);
        return None, updated;
      }
      calloutListDescriptions := calloutListDescriptions + [e.value];
      updated := updated + [c];
      calloutCount := calloutCount + 1;
    }
    assert callouts[..calloutCount] == callouts;
    entries := Some(calloutListDescriptions);
  }

  /** `updateCalloutsOnArtboard(artboard, doc)`: numbers the callouts in
      `sortedCallouts` order and, when there is at least one, replaces the
      list's instances by one per callout and lays the list out. */
  method UpdateCalloutsOnArtboard(artboard: Layer, useSections: bool, host: Host) returns (r: Outcome<CalloutUpdate>)
    ensures r == UpdateCalloutsSpec(artboard, useSections, host)
  {
    var callouts := SortedCallouts(artboard);
    var sectionNumber := "";
    if useSections {
      sectionNumber := SectionPrefix(artboard.name);
    }
    var entries, updated := NumberCallouts(callouts, useSections, sectionNumber);
    if entries.None? {
      return TypeError("overrideText is undefined");
    }
    if |callouts| == 0 {
      return Done(CalloutUpdate(0, [], None));
    }
    var calloutDescriptionSymbol := SymbolMasterWithOverrideName(host.allSymbols, ListDescriptionSlot);
    if calloutDescriptionSymbol.None? {
      return TypeError("calloutDescriptionSymbol is undefined");
    }
    var calloutDescriptionsGroup := RefillList(artboard, host, calloutDescriptionSymbol.value, entries.value);
    var laid := LayoutCalloutDescriptions(calloutDescriptionsGroup, host);
    if laid.TypeError? {
      return TypeError(laid.what);
    }
    return Done(CalloutUpdate(|callouts|, updated, Some(laid.value)));
  }

  /** Once the loop throws on a prefix of the callouts, it throws on all of them. */
  lemma {:induction false} ListEntriesPrefix(cs: seq<Layer>, useSections: bool, prefix: string, n: nat)
    requires n <= |cs|
    requires ListEntries(cs[..n], useSections, prefix).None?
    ensures ListEntries(cs, useSections, prefix).None?
    decreases |cs| - n
  {
    if n < |cs| {
      assert cs[..n + 1][..n] == cs[..n];
      ListEntriesPrefix(cs, useSections, prefix, n + 1);
    } else {
      assert cs[..n] == cs;
    }
  }

  /** The count is that of `sortedCallouts`, and the list is rebuilt exactly
      when it is positive: then it holds one new instance per callout, in
      callout order, named after the callout's number. */
  lemma UpdateCalloutsMeaning(artboard: Layer, useSections: bool, host: Host)
    requires UpdateCalloutsSpec(artboard, useSections, host).Done?
    ensures var u := UpdateCalloutsSpec(artboard, useSections, host).value;
      && u.count == |SortedCalloutsSpec(artboard)| == |u.callouts|
      && (u.list.Some? <==> u.count > 0)
  {
  }

  /** The instances added to the list are one per line, in order, each an
      instance named after its line's number. */
  lemma {:induction false} ListInstancesMeaning(master: Layer, initial: map<string, JsValue>, entries: seq<ListEntry>)
    ensures var li := ListInstances(master, initial, entries);
      && |li| == |entries|
      && forall k :: 0 <= k < |entries| ==> li[k].cls == SymbolInstance && li[k].name == entries[k].calloutNumber
  {
    if entries != [] {
      var n := |entries| - 1;
      ListInstancesMeaning(master, initial, entries[..n]);
      var li := ListInstances(master, initial, entries);
      var front := ListInstances(master, initial, entries[..n]);
      assert li == front + [NewListInstance(master, initial, entries[n])];
      forall k | 0 <= k < |entries|
        ensures li[k].cls == SymbolInstance && li[k].name == entries[k].calloutNumber
      {
        if k < n {
          assert li[k] == front[k] && entries[..n][k] == entries[k];
        }
      }
    }
  }

  /** Layout keeps the kind and the name of every layer of the list. */
  lemma LayoutKeepsNames(group: Layer, host: Host)
    requires LayoutSpec(group, host).Done?
    ensures var g1 := WithRect(group).0;
      var out := LayoutSpec(group, host).value.group.layers;
      && |out| == |g1.layers|
      && forall k :: 0 <= k < |out| ==> out[k].cls == g1.layers[k].cls && out[k].name == g1.layers[k].name
  {
    LayoutPlaces(group, host);
  }

  /** The list group a refill starts from: the one found on the artboard
      emptied of its instances, or the host's new group. */
  function ListBase(artboard: Layer, host: Host): (r: Layer)
    ensures FirstNamed(Children(artboard), LayerGroup, "<calloutListGroup>").Some? ==> NoInstances(r.layers)
  {
    match FirstNamed(Children(artboard), LayerGroup, "<calloutListGroup>")
    case None => host.newListGroup
    case Some(g) => g.(layers := WithoutInstances(g.layers))
  }

  /** A refill puts the new instances after the layers of its base group. */
  lemma RefilledLayers(artboard: Layer, host: Host, master: Layer, entries: seq<ListEntry>)
    ensures RefilledList(artboard, host, master, entries).layers
            == ListBase(artboard, host).layers + ListInstances(master, host.freshOverrides, entries)
  {
  }

  predicate NoInstances(ls: seq<Layer>)
  {
    forall k :: 0 <= k < |ls| ==> ls[k].cls != SymbolInstance
  }

  /** The list ends with one instance per list line, named after the line's
      number, and, when `clean`, holds no other instance. */
  predicate ListTail(ls: seq<Layer>, entries: seq<ListEntry>, clean: bool)
  {
    && |ls| >= |entries|
    && var tail := ls[|ls| - |entries|..];
    && (forall k :: 0 <= k < |entries| ==> tail[k].cls == SymbolInstance && tail[k].name == entries[k].calloutNumber)
    && (clean ==> NoInstances(ls[..|ls| - |entries|]))
  }

  /** The background rectangle, if it has to be added, goes in front of the
      group's layers. */
  lemma RectLayers(group: Layer)
    ensures var g1 := WithRect(group).0;
      && |g1.layers| >= |group.layers|
      && g1.layers == g1.layers[..|g1.layers| - |group.layers|] + group.layers
      && NoInstances(g1.layers[..|g1.layers| - |group.layers|])
  {
    var g1 := WithRect(group).0;
    if FirstNamed(Children(group), RectangleShape, "<calloutGroupRect>").None? {
      assert g1.layers == [WithRect(group).1] + group.layers;
      assert g1.layers[..1] == [WithRect(group).1];
    } else {
      assert g1.layers[..0] == [];
    }
  }

  lemma NoInstancesConcat(a: seq<Layer>, b: seq<Layer>)
    requires NoInstances(a) && NoInstances(b)
    ensures NoInstances(a + b)
  {
    forall k | 0 <= k < |a + b|
      ensures (a + b)[k].cls != SymbolInstance
    {
      if k >= |a| {
        assert (a + b)[k] == b[k - |a|];
      }
    }
  }

  /** Index arithmetic for the refilled list: layers kept in kind and name
      end with the instances, and keep an instance-free front. */
  lemma {:induction false} KindsTail(out: seq<Layer>, front: seq<Layer>, li: seq<Layer>, entries: seq<ListEntry>, clean: bool)
    requires |out| == |front| + |li| && |li| == |entries|
    requires forall k :: 0 <= k < |out| ==> out[k].cls == (front + li)[k].cls && out[k].name == (front + li)[k].name
    requires clean ==> NoInstances(front)
    requires forall k :: 0 <= k < |li| ==> li[k].cls == SymbolInstance && li[k].name == entries[k].calloutNumber
    ensures ListTail(out, entries, clean)
  {
    var tail := out[|front|..];
    forall k | 0 <= k < |entries|
      ensures tail[k].cls == SymbolInstance && tail[k].name == entries[k].calloutNumber
    {
      assert tail[k] == out[|front| + k];
      assert (front + li)[|front| + k] == li[k];
    }
    if clean {
      forall k | 0 <= k < |front|
        ensures out[..|front|][k].cls != SymbolInstance
      {
        assert (front + li)[k] == front[k];
      }
    }
  }

  /** Layout of a group whose layers, with the rectangle, are an
      instance-free front and the list instances. */
  lemma LaidOutTail(group: Layer, host: Host, front: seq<Layer>, li: seq<Layer>, entries: seq<ListEntry>, clean: bool)
    requires LayoutSpec(group, host).Done?
    requires WithRect(group).0.layers == front + li && |li| == |entries|
    requires clean ==> NoInstances(front)
    requires forall k :: 0 <= k < |li| ==> li[k].cls == SymbolInstance && li[k].name == entries[k].calloutNumber
    ensures ListTail(LayoutSpec(group, host).value.group.layers, entries, clean)
  {
    LayoutKeepsNames(group, host);
    KindsTail(LayoutSpec(group, host).value.group.layers, front, li, entries, clean);
  }

  /** With its rectangle, a group made of a base and the list instances is
      an instance-free front, when the base has no instance, followed by the
      list instances. */
  lemma RectFront(group: Layer, base: seq<Layer>, li: seq<Layer>, clean: bool)
    requires group.layers == base + li
    requires clean ==> NoInstances(base)
    ensures var g1 := WithRect(group).0.layers;
      && |g1| >= |li|
      && g1 == g1[..|g1| - |li|] + li
      && (clean ==> NoInstances(g1[..|g1| - |li|]))
  {
    RectLayers(group);
    var g1 := WithRect(group).0.layers;
    var rects := g1[..|g1| - |group.layers|];
    assert g1 == rects + (base + li);
    assert rects + (base + li) == (rects + base) + li;
    assert g1[..|g1| - |li|] == rects + base;
    if clean {
      NoInstancesConcat(rects, base);
    }
  }

  /** The list laid out after a refill ends with one instance per list
      line, in order, named after the line's number; a list found on the
      artboard keeps no instance of its own. */
  lemma RefilledListLaidOut(artboard: Layer, host: Host, master: Layer, entries: seq<ListEntry>)
    requires LayoutSpec(RefilledList(artboard, host, master, entries), host).Done?
    ensures ListTail(LayoutSpec(RefilledList(artboard, host, master, entries), host).value.group.layers, entries,
                     FirstNamed(Children(artboard), LayerGroup, "<calloutListGroup>").Some?)
  {
    var group := RefilledList(artboard, host, master, entries);
    var li := ListInstances(master, host.freshOverrides, entries);
    var clean := FirstNamed(Children(artboard), LayerGroup, "<calloutListGroup>").Some?;
    ListInstancesMeaning(master, host.freshOverrides, entries);
    RefilledLayers(artboard, host, master, entries);
    RectFront(group, ListBase(artboard, host).layers, li, clean);
    var g1 := WithRect(group).0.layers;
    LaidOutTail(group, host, g1[..|g1| - |li|], li, entries, clean);
  }

  /** The list ends with `n` instances, the k-th (from 1) named with the
      k-th callout number, and, when `clean`, holds no other instance. */
  predicate NumberedList(ls: seq<Layer>, useSections: bool, prefix: string, n: nat, clean: bool)
  {
    && |ls| >= n
    && var tail := ls[|ls| - n..];
    && (forall k :: 0 <= k < n ==> tail[k].cls == SymbolInstance && tail[k].name == CalloutNumber(useSections, prefix, k + 1))
    && (clean ==> NoInstances(ls[..|ls| - n]))
  }

  lemma NumberedFromTail(ls: seq<Layer>, entries: seq<ListEntry>, useSections: bool, prefix: string, clean: bool)
    requires ListTail(ls, entries, clean)
    requires forall k :: 0 <= k < |entries| ==> entries[k].calloutNumber == CalloutNumber(useSections, prefix, k + 1)
    ensures NumberedList(ls, useSections, prefix, |entries|, clean)
  {
  }

  /** When an artboard has callouts, the rebuilt list ends with one instance
      per callout, in the callouts' order, each named with that callout's
      number; a list found on the artboard keeps no instance of its own. */
  lemma UpdateCalloutsList(artboard: Layer, useSections: bool, host: Host)
    requires UpdateCalloutsSpec(artboard, useSections, host).Done?
    requires SortedCalloutsSpec(artboard) != []
    ensures var u := UpdateCalloutsSpec(artboard, useSections, host).value;
      && u.list.Some?
      && NumberedList(u.list.value.group.layers, useSections, if useSections then SectionPrefix(artboard.name) else "",
                      |SortedCalloutsSpec(artboard)|, FirstNamed(Children(artboard), LayerGroup, "<calloutListGroup>").Some?)
  {
    var callouts := SortedCalloutsSpec(artboard);
    var prefix := if useSections then SectionPrefix(artboard.name) else "";
    var entries := ListEntries(callouts, useSections, prefix).value;
    var master := MasterWithOverrideName(host.allSymbols, ListDescriptionSlot).value;
    ListEntriesLines(callouts, useSections, prefix);
    RefilledListLaidOut(artboard, host, master, entries);
    var laid := LayoutSpec(RefilledList(artboard, host, master, entries), host).value;
    assert UpdateCalloutsSpec(artboard, useSections, host).value.list == Some(laid);
    NumberedFromTail(laid.group.layers, entries, useSections, prefix,
                     FirstNamed(Children(artboard), LayerGroup, "<calloutListGroup>").Some?);
  }
}
