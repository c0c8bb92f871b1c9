/** `numberAndNameArtboards` of main.js: the walk over the page's artboards
    that numbers section and page titles, writes page numbers and the running
    section title into symbol instances, names each artboard after its title,
    collects the table-of-contents lines and updates each artboard's callouts. */
module Numbering {
  import opened Js
  import opened Layers
  import opened Symbols
  import opened Titles
  import opened Callouts

  const PageNumberSlot: string := "<pageNumber>"
  const SectionTitleSlot: string := "<sectionTitle>"
  const PageTitleSlot: string := "<pageTitle>"
  const CurrentSectionSlot: string := "<currentSection>"

  /** `startPageNum` */
  const StartPageNum: nat := 1

  /** One element of `tocArray`; an absent title is the text `'<undefined>'`. */
  datatype TocEntry = TocEntry(sectionTitle: string, pageTitle: string, pageNumber: nat)

  /** The variables the walk carries from one artboard to the next. */
  datatype Counters = Counters(
    sectionNumber: nat,
    sectionPageNumber: nat,
    titlesAdded: nat,
    curPage: nat,
    firstPageFound: bool,
    runningSectionTitle: Option<string>)

  /** The values the walk starts from. */
  const Initial: Counters := Counters(0, 0, 0, StartPageNum, false, None)

  /** The variables local to one artboard: the titles found on it so far and
      the name it has been given. */
  datatype Titled = Titled(curSectionTitle: Option<string>, curPageTitle: Option<string>, name: string)

  /** The state after one symbol instance. */
  datatype Step = Step(counters: Counters, titled: Titled, instance: Layer)

  /** The state after the instances of one artboard, with the instances as updated. */
  datatype Walked = Walked(counters: Counters, titled: Titled, instances: seq<Layer>)

  /** One artboard after the walk: renamed, its instances updated, its callouts numbered.
      The updated instances and the callout update are kept side by side, not
      merged back into one artboard layer tree. */
  datatype Board = Board(artboard: Layer, instances: seq<Layer>, callouts: CalloutUpdate)

  /** The state after one artboard. */
  datatype BoardStep = BoardStep(counters: Counters, toc: seq<TocEntry>, calloutsUpdated: nat, board: Board)

  /** The state after several artboards. */
  datatype Numbered = Numbered(counters: Counters, calloutsUpdated: nat, toc: seq<TocEntry>, boards: seq<Board>)

  /** What the walk hands back: `tocArray`, the summary with its two new lines,
      and the artboards as updated. */
  datatype NumberingResult = NumberingResult(toc: seq<TocEntry>, summary: seq<string>, boards: seq<Board>)

  // ---------------------------------------------------------------------
  // one instance

  /** A new section with its renumbered title: the section count goes up,
      the page count restarts, and the title is written back and becomes the
      running section title and the artboard's name. */
  function OpenSection(c: Counters, t: Titled, inst: Layer, title: string): Step
  {
    Step(c.(sectionNumber := c.sectionNumber + 1, sectionPageNumber := 0, titlesAdded := c.titlesAdded + 1,
            runningSectionTitle := Some(title)),
         t.(curSectionTitle := Some(title), name := title),
         SetOverride(inst, SectionTitleSlot, Str(title)).0)
  }

  /** One more page in the current section, with its renumbered title
      written back and made the artboard's name. */
  function OpenPage(c: Counters, t: Titled, inst: Layer, title: string): Step
  {
    Step(c.(sectionPageNumber := c.sectionPageNumber + 1, titlesAdded := c.titlesAdded + 1),
         t.(curPageTitle := Some(title), name := title),
         SetOverride(inst, PageTitleSlot, Str(title)).0)
  }

  /** The `<sectionTitle>` branch; `prefixEndIndex` calls `trim` on the
      override text, which throws unless it is a string. */
  function SectionStep(c: Counters, t: Titled, inst: Layer, useSections: bool, dash: string): Outcome<Step>
  {
    if !HasOverride(inst, SectionTitleSlot) then Done(Step(c, t, inst))
    else
      var text := OverrideText(inst, SectionTitleSlot);
      if text.Str? then Done(OpenSection(c, t, inst, AddSectionNumbers(text.s, c.sectionNumber + 1, 0, useSections, dash)))
      else TypeError("text.trim is not a function")
  }

  /** The `<pageTitle>` branch. */
  function PageStep(c: Counters, t: Titled, inst: Layer, useSections: bool, dash: string): Outcome<Step>
  {
    if !HasOverride(inst, PageTitleSlot) then Done(Step(c, t, inst))
    else
      var text := OverrideText(inst, PageTitleSlot);
      if text.Str? then Done(OpenPage(c, t, inst, AddSectionNumbers(text.s, c.sectionNumber, c.sectionPageNumber + 1, useSections, dash)))
      else TypeError("text.trim is not a function")
  }

  /** Specification of the body of the inner `forEach`: the page number, the
      section branch, the page branch, then the running section title. */
  function InstanceStep(c: Counters, t: Titled, inst: Layer, useSections: bool, dash: string): Outcome<Step>
  {
    var w := SetOverride(inst, PageNumberSlot, Str(NatToString(c.curPage)));
    var c1 := if Truthy(w.1) then c.(firstPageFound := true) else c;
    match SectionStep(c1, t, w.0, useSections, dash)
    case TypeError(e) => TypeError(e)
    case Done(s2) =>
      match PageStep(s2.counters, s2.titled, s2.instance, useSections, dash)
      case TypeError(e) => TypeError(e)
      case Done(s3) =>
        var running := RemoveSectionNumbers(s3.counters.runningSectionTitle);
        Done(s3.(instance := SetOverride(s3.instance, CurrentSectionSlot, running).0))
  }

  /** The inner `forEach` over the instances of one artboard. */
  function InstancesWalk(c: Counters, t: Titled, insts: seq<Layer>, useSections: bool, dash: string): Outcome<Walked>
  {
    if insts == [] then Done(Walked(c, t, []))
    else
      match InstancesWalk(c, t, insts[..|insts| - 1], useSections, dash)
      case TypeError(e) => TypeError(e)
      case Done(w) =>
        match InstanceStep(w.counters, w.titled, insts[|insts| - 1], useSections, dash)
        case TypeError(e) => TypeError(e)
        case Done(s) => Done(Walked(s.counters, s.titled, w.instances + [s.instance]))
  }

  // ---------------------------------------------------------------------
  // one artboard

  /** The symbol instances of an artboard, depth first. */
  function Instances(artboard: Layer): seq<Layer>
  {
    FilterClass(Children(artboard), SymbolInstance)
  }

  /** `if (curSectionTitle || curPageTitle)` on one title. */
  predicate TitleTruthy(title: Option<string>)
  {
    title.Some? && title.value != ""
  }

  /** A title as `tocArray` records it. */
  function TocText(title: Option<string>): string
  {
    if title.None? then "<undefined>" else title.value
  }

  /** The `tocArray` line of an artboard, if one of its titles is truthy. */
  function TocLine(sectionTitle: Option<string>, pageTitle: Option<string>, curPage: nat): seq<TocEntry>
  {
    if TitleTruthy(sectionTitle) || TitleTruthy(pageTitle)
    then [TocEntry(TocText(sectionTitle), TocText(pageTitle), curPage)]
    else []
  }

  /** The page count moves on once the first page number has been written. */
  function NextPage(c: Counters): Counters
  {
    if c.firstPageFound then c.(curPage := c.curPage + 1) else c
  }

  /** The rest of the outer `forEach` body, after the instance walk. */
  function FinishArtboard(w: Walked, artboard: Layer, useSections: bool, host: Host): Outcome<BoardStep>
  {
    var named := artboard.(name := w.titled.name);
    match UpdateCalloutsSpec(named, useSections, host)
    case TypeError(e) => TypeError(e)
    case Done(u) =>
      Done(BoardStep(NextPage(w.counters), TocLine(w.titled.curSectionTitle, w.titled.curPageTitle, w.counters.curPage), u.count, Board(named, w.instances, u)))
  }

  /** Specification of the body of the outer `forEach`. */
  function ArtboardStep(c: Counters, artboard: Layer, useSections: bool, dash: string, host: Host): Outcome<BoardStep>
  {
    match InstancesWalk(c, Titled(None, None, artboard.name), Instances(artboard), useSections, dash)
    case TypeError(e) => TypeError(e)
    case Done(w) => FinishArtboard(w, artboard, useSections, host)
  }

  /** The state after one more artboard, or the error its step throws. */
  function Append(n: Numbered, b: Outcome<BoardStep>): Outcome<Numbered>
  {
    match b
    case TypeError(e) => TypeError(e)
    case Done(b) => Done(Numbered(b.counters, n.calloutsUpdated + b.calloutsUpdated, n.toc + b.toc, n.boards + [b.board]))
  }

  /** One more artboard after the walk so far, unless that walk has thrown. */
  function Advance(o: Outcome<Numbered>, artboard: Layer, useSections: bool, dash: string, host: Host): Outcome<Numbered>
  {
    match o
    case TypeError(e) => TypeError(e)
    case Done(n) => Append(n, ArtboardStep(n.counters, artboard, useSections, dash, host))
  }

  /** The outer `forEach` over the artboards. */
  function ArtboardsWalk(c: Counters, artboards: seq<Layer>, useSections: bool, dash: string, host: Host): Outcome<Numbered>
    decreases |artboards|, 1
  {
    if artboards == [] then Done(Numbered(c, 0, [], []))
    else WalkLast(c, artboards, useSections, dash, host)
  }

  /** The walk over a non-empty list of artboards: the walk over all but the
      last, then the last. */
  function WalkLast(c: Counters, artboards: seq<Layer>, useSections: bool, dash: string, host: Host): Outcome<Numbered>
    requires artboards != []
    decreases |artboards|, 0
  {
    var front := ArtboardsWalk(c, artboards[..|artboards| - 1], useSections, dash, host);
    Advance(front, artboards[|artboards| - 1], useSections, dash, host)
  }

  /** The two summary lines. */
  function SummaryLines(titlesAdded: nat, calloutsUpdated: nat): seq<string>
  {
    [NatToString(titlesAdded) + " artboards updated", NatToString(calloutsUpdated) + " callouts updated"]
  }

  /** Specification of `numberAndNameArtboards(context, summary)` with the
      stored `useSections` flag and dash passed in. */
  function NumberAndNameSpec(pageLayers: seq<Layer>, useSections: bool, dash: string, host: Host, summary: seq<string>)
    : Outcome<NumberingResult>
  {
    match ArtboardsWalk(Initial, AllArtboards(pageLayers), useSections, dash, host)
    case TypeError(e) => TypeError(e)
    case Done(n) => Done(NumberingResult(n.toc, summary + SummaryLines(n.counters.titlesAdded, n.calloutsUpdated), n.boards))
  }

  // ---------------------------------------------------------------------
  // the methods

  /** The write-back of a renumbered section title. */
  method NumberNewSection(c: Counters, t: Titled, inst: Layer, curSectionTitle: string) returns (s: Step)
    ensures s == OpenSection(c, t, inst, curSectionTitle)
  {
    var updated, _ := SetOverrideText(inst, SectionTitleSlot, Str(curSectionTitle));
    var counters := c.(sectionNumber := c.sectionNumber + 1, sectionPageNumber := 0, titlesAdded := c.titlesAdded + 1,
                       runningSectionTitle := Some(curSectionTitle));
    return Step(counters, t.(curSectionTitle := Some(curSectionTitle), name := curSectionTitle), updated);
  }

  /** The write-back of a renumbered page title. */
  method NumberNewPage(c: Counters, t: Titled, inst: Layer, curPageTitle: string) returns (s: Step)
    ensures s == OpenPage(c, t, inst, curPageTitle)
  {
    var updated, _ := SetOverrideText(inst, PageTitleSlot, Str(curPageTitle));
    var counters := c.(sectionPageNumber := c.sectionPageNumber + 1, titlesAdded := c.titlesAdded + 1);
    return Step(counters, t.(curPageTitle := Some(curPageTitle), name := curPageTitle), updated);
  }

  /** The `<sectionTitle>` branch. */
  method NumberSection(c: Counters, t: Titled, inst: Layer, useSections: bool, dash: string) returns (r: Outcome<Step>)
    ensures r == SectionStep(c, t, inst, useSections, dash)
  {
    var has := InstanceHasOverride(inst, SectionTitleSlot);
    if !has {
      return Done(Step(c, t, inst));
    }
    var text := GetOverrideText(inst, SectionTitleSlot);
    if !text.Str? {
      return TypeError("text.trim is not a function");
    }
    var curSectionTitle := AddSectionNumbers(text.s, c.sectionNumber + 1, 0, useSections, dash);
    var s := NumberNewSection(c, t, inst, curSectionTitle);
    return Done(s);
  }

  /** The `<pageTitle>` branch. */
  method NumberPage(c: Counters, t: Titled, inst: Layer, useSections: bool, dash: string) returns (r: Outcome<Step>)
    ensures r == PageStep(c, t, inst, useSections, dash)
  {
    var has := InstanceHasOverride(inst, PageTitleSlot);
    if !has {
      return Done(Step(c, t, inst));
    }
    var text := GetOverrideText(inst, PageTitleSlot);
    if !text.Str? {
      return TypeError("text.trim is not a function");
    }
    var curPageTitle := AddSectionNumbers(text.s, c.sectionNumber, c.sectionPageNumber + 1, useSections, dash);
    var s := NumberNewPage(c, t, inst, curPageTitle);
    return Done(s);
  }

  /** The body of the inner `forEach`. */
  method NumberInstance(c: Counters, t: Titled, inst: Layer, useSections: bool, dash: string) returns (r: Outcome<Step>)
    ensures r == InstanceStep(c, t, inst, useSections, dash)
  {
    var instance, written := SetOverrideText(inst, PageNumberSlot, Str(NatToString(c.curPage)));
    var counters := c;
    if Truthy(written) {
      counters := counters.(firstPageFound := true);
    }
    var s2 := NumberSection(counters, t, instance, useSections, dash);
    if s2.TypeError? {
      return TypeError(s2.what);
    }
    var s3 := NumberPage(s2.value.counters, s2.value.titled, s2.value.instance, useSections, dash);
    if s3.TypeError? {
      return TypeError(s3.what);
    }
    var last, _ := SetOverrideText(s3.value.instance, CurrentSectionSlot,
                                   RemoveSectionNumbers(s3.value.counters.runningSectionTitle));
    return Done(s3.value.(instance := last));
  }

  /** The inner `forEach`. */
  method NumberInstances(c: Counters, t: Titled, insts: seq<Layer>, useSections: bool, dash: string)
    returns (r: Outcome<Walked>)
    ensures r == InstancesWalk(c, t, insts, useSections, dash)
  {
    var counters, titled, updated := c, t, [];
    var i := 0;
    while i < |insts|
      invariant 0 <= i <= |insts|
      invariant InstancesWalk(c, t, insts[..i], useSections, dash) == Done(Walked(counters, titled, updated))
    {
      assert insts[..i + 1][..i] == insts[..i];
      var s := NumberInstance(counters, titled, insts[i], useSections, dash);
      if s.TypeError? {
        InstancesWalkAborts(c, t, insts, useSections, dash, i + 1);
        return TypeError(s.what);
      }
      counters, titled, updated := s.value.counters, s.value.titled, updated + [s.value.instance];
      i := i + 1;
    }
    assert insts[..i] == insts;
    return Done(Walked(counters, titled, updated));
  }

  /** Once the inner walk throws on a prefix, it throws on the whole. */
  lemma {:induction false} InstancesWalkAborts(c: Counters, t: Titled, insts: seq<Layer>, useSections: bool, dash: string, n: nat)
    requires n <= |insts|
    requires InstancesWalk(c, t, insts[..n], useSections, dash).TypeError?
    ensures InstancesWalk(c, t, insts, useSections, dash) == InstancesWalk(c, t, insts[..n], useSections, dash)
    decreases |insts| - n
  {
    if n < |insts| {
      assert insts[..n + 1][..n] == insts[..n];
      InstancesWalkAborts(c, t, insts, useSections, dash, n + 1);
    } else {
      assert insts[..n] == insts;
    }
  }

  /** The outer `forEach` body after the instance walk: the TOC line, the
      page count and the callouts. */
  method FinishBoard(w: Walked, artboard: Layer, useSections: bool, host: Host) returns (r: Outcome<BoardStep>)
    ensures r == FinishArtboard(w, artboard, useSections, host)
  {
    var curSectionTitle, curPageTitle := w.titled.curSectionTitle, w.titled.curPageTitle;
    var toc := [];
    if TitleTruthy(curSectionTitle) || TitleTruthy(curPageTitle) {
      toc := [TocEntry(TocText(curSectionTitle), TocText(curPageTitle), w.counters.curPage)];
    }
    var counters := w.counters;
    if counters.firstPageFound {
      counters := counters.(curPage := counters.curPage + 1);
    }
    var named := artboard.(name := w.titled.name);
    var u := UpdateCalloutsOnArtboard(named, useSections, host);
    if u.TypeError? {
      return TypeError(u.what);
    }
    return Done(BoardStep(counters, toc, u.value.count, Board(named, w.instances, u.value)));
  }

  /** The body of the outer `forEach`. */
  method NumberArtboard(c: Counters, artboard: Layer, useSections: bool, dash: string, host: Host) returns (r: Outcome<BoardStep>)
    ensures r == ArtboardStep(c, artboard, useSections, dash, host)
  {
    var instances := LayersWithClass(Children(artboard), SymbolInstance);
    var w := NumberInstances(c, Titled(None, None, artboard.name), instances, useSections, dash);
    if w.TypeError? {
      return TypeError(w.what);
    }
    r := FinishBoard(w.value, artboard, useSections, host);
  }

  /** Once the outer walk throws on a prefix, it throws on the whole. */
  lemma {:induction false} ArtboardsWalkAborts(c: Counters, artboards: seq<Layer>, useSections: bool, dash: string, host: Host, n: nat)
    requires n <= |artboards|
    requires ArtboardsWalk(c, artboards[..n], useSections, dash, host).TypeError?
    ensures ArtboardsWalk(c, artboards, useSections, dash, host) == ArtboardsWalk(c, artboards[..n], useSections, dash, host)
    decreases |artboards| - n
  {
    if n < |artboards| {
      assert artboards[..n + 1][..n] == artboards[..n];
      ArtboardsWalkAborts(c, artboards, useSections, dash, host, n + 1);
    } else {
      assert artboards[..n] == artboards;
    }
  }

  /** One more artboard extends the walk by its step. */
  lemma ArtboardsWalkStep(c: Counters, artboards: seq<Layer>, i: nat, useSections: bool, dash: string, host: Host, n: Numbered)
    requires i < |artboards|
    requires ArtboardsWalk(c, artboards[..i], useSections, dash, host) == Done(n)
    ensures ArtboardsWalk(c, artboards[..i + 1], useSections, dash, host)
            == Append(n, ArtboardStep(n.counters, artboards[i], useSections, dash, host))
  {
    assert artboards[..i + 1][..i] == artboards[..i];
  }

  /** The outer `forEach` body on the `i`-th artboard, after the walk over
      the ones before it. */
  method NumberNextArtboard(c: Counters, artboards: seq<Layer>, i: nat, useSections: bool, dash: string, host: Host, n: Numbered)
    returns (b: Outcome<BoardStep>)
    requires i < |artboards|
    requires ArtboardsWalk(c, artboards[..i], useSections, dash, host) == Done(n)
    ensures ArtboardsWalk(c, artboards[..i + 1], useSections, dash, host) == Append(n, b)
  {
    b := NumberArtboard(n.counters, artboards[i], useSections, dash, host);
    ArtboardsWalkStep(c, artboards, i, useSections, dash, host, n);
  }

  /** The outer `forEach`. */
  method NumberArtboards(c: Counters, artboards: seq<Layer>, useSections: bool, dash: string, host: Host)
    returns (r: Outcome<Numbered>)
    ensures r == ArtboardsWalk(c, artboards, useSections, dash, host)
  {
    var n := Numbered(c, 0, [], []);
    var i := 0;
    while i < |artboards|
      invariant 0 <= i <= |artboards|
      invariant ArtboardsWalk(c, artboards[..i], useSections, dash, host) == Done(n)
    {
      var b := NumberNextArtboard(c, artboards, i, useSections, dash, host, n);
      if b.TypeError? {
        ArtboardsWalkAborts(c, artboards, useSections, dash, host, i + 1);
        return TypeError(b.what);
      }
      n := Numbered(b.value.counters, n.calloutsUpdated + b.value.calloutsUpdated, n.toc + b.value.toc,
                    n.boards + [b.value.board]);
      i := i + 1;
    }
    assert artboards[..i] == artboards;
    return Done(n);
  }

  /** `numberAndNameArtboards(context, summary)`: walks the page's artboards
      and returns `tocArray`, with the summary extended by the number of
      titles and of callouts updated. */
  method NumberAndNameArtboards(pageLayers: seq<Layer>, useSections: bool, dash: string, host: Host, summary: seq<string>)
    returns (r: Outcome<NumberingResult>)
    ensures r == NumberAndNameSpec(pageLayers, useSections, dash, host, summary)
  {
    var artboards := AllArtboards(pageLayers);
    var n := NumberArtboards(Initial, artboards, useSections, dash, host);
    if n.TypeError? {
      return TypeError(n.what);
    }
    var titlesAdded, calloutsUpdated := n.value.counters.titlesAdded, n.value.calloutsUpdated;
    var lines := [NatToString(titlesAdded) + " artboards updated", NatToString(calloutsUpdated) + " callouts updated"];
    return Done(NumberingResult(n.value.toc, summary + lines, n.value.boards));
  }

  // ---------------------------------------------------------------------
  // what the counters count

  /** 1 when `b` holds, else 0. */
  function Once(b: bool): nat
  {
    if b then 1 else 0
  }

  /** The number of instances among `insts` that have the slot `name`. */
  function SlotCount(insts: seq<Layer>, name: string): nat
  {
    if insts == [] then 0
    else SlotCount(insts[..|insts| - 1], name) + Once(HasOverride(insts[|insts| - 1], name))
  }

  /** The section branch counts one title and one section and restarts the
      page count exactly when the instance has a `<sectionTitle>` slot, and
      the renumbered title then becomes the running section title and the
      artboard's name; it throws exactly when that slot's text is not a string. */
  lemma SectionStepCounts(c: Counters, t: Titled, inst: Layer, useSections: bool, dash: string)
    ensures var r := SectionStep(c, t, inst, useSections, dash);
      var sec := HasOverride(inst, SectionTitleSlot);
      && (r.TypeError? <==> sec && !OverrideText(inst, SectionTitleSlot).Str?)
      && (r.Done? ==>
            && r.value.counters.sectionNumber == c.sectionNumber + Once(sec)
            && r.value.counters.sectionPageNumber == (if sec then 0 else c.sectionPageNumber)
            && r.value.counters.titlesAdded == c.titlesAdded + Once(sec)
            && r.value.counters.curPage == c.curPage
            && r.value.counters.firstPageFound == c.firstPageFound
            && r.value.instance.masterChildren == inst.masterChildren
            && r.value.titled.curPageTitle == t.curPageTitle
            && (sec ==> && r.value.titled.curSectionTitle
                             == Some(AddSectionNumbers(OverrideText(inst, SectionTitleSlot).s, c.sectionNumber + 1, 0, useSections, dash))
                        && r.value.counters.runningSectionTitle == r.value.titled.curSectionTitle
                        && r.value.titled.name == r.value.titled.curSectionTitle.value)
            && (!sec ==> r.value.counters == c && r.value.titled == t))
  {
  }

  /** The page branch counts one title and one page of the section exactly
      when the instance has a `<pageTitle>` slot, and names the artboard
      after the renumbered page title; it throws exactly when that slot's
      text is not a string. */
  lemma PageStepCounts(c: Counters, t: Titled, inst: Layer, useSections: bool, dash: string)
    ensures var r := PageStep(c, t, inst, useSections, dash);
      var pg := HasOverride(inst, PageTitleSlot);
      && (r.TypeError? <==> pg && !OverrideText(inst, PageTitleSlot).Str?)
      && (r.Done? ==>
            && r.value.counters == c.(sectionPageNumber := c.sectionPageNumber + Once(pg),
                                      titlesAdded := c.titlesAdded + Once(pg))
            && r.value.instance.masterChildren == inst.masterChildren
            && r.value.titled.curSectionTitle == t.curSectionTitle
            && (pg ==> && r.value.titled.curPageTitle
                            == Some(AddSectionNumbers(OverrideText(inst, PageTitleSlot).s, c.sectionNumber, c.sectionPageNumber + 1, useSections, dash))
                       && r.value.titled.name == r.value.titled.curPageTitle.value)
            && (!pg ==> r.value.titled == t))
  {
  }

  /** One instance: the section count rises by one for a `<sectionTitle>`
      slot, which restarts the page count; the page count rises by one for a
      `<pageTitle>` slot; each title counts once; the page number stays, and
      the first page is found once a `<pageNumber>` write returns a truthy value. */
  lemma {:induction false} InstanceStepCounts(c: Counters, t: Titled, inst: Layer, useSections: bool, dash: string)
    requires InstanceStep(c, t, inst, useSections, dash).Done?
    ensures var s := InstanceStep(c, t, inst, useSections, dash).value;
      var sec, pg := HasOverride(inst, SectionTitleSlot), HasOverride(inst, PageTitleSlot);
      && s.counters.sectionNumber == c.sectionNumber + Once(sec)
      && s.counters.sectionPageNumber == (if sec then 0 else c.sectionPageNumber) + Once(pg)
      && s.counters.titlesAdded == c.titlesAdded + Once(sec) + Once(pg)
      && s.counters.curPage == c.curPage
      && s.counters.firstPageFound == (c.firstPageFound || Truthy(SetOverride(inst, PageNumberSlot, Str(NatToString(c.curPage))).1))
  {
    var w := SetOverride(inst, PageNumberSlot, Str(NatToString(c.curPage)));
    var c1 := if Truthy(w.1) then c.(firstPageFound := true) else c;
    assert HasOverride(w.0, SectionTitleSlot) == HasOverride(inst, SectionTitleSlot);
    SectionStepCounts(c1, t, w.0, useSections, dash);
    var s2 := SectionStep(c1, t, w.0, useSections, dash).value;
    assert HasOverride(s2.instance, PageTitleSlot) == HasOverride(inst, PageTitleSlot);
    PageStepCounts(s2.counters, s2.titled, s2.instance, useSections, dash);
  }

  /** One artboard's instances: sections and titles add up over the
      instances, the page number stays, and a found first page stays found. */
  lemma {:induction false} InstancesWalkCounts(c: Counters, t: Titled, insts: seq<Layer>, useSections: bool, dash: string)
    requires InstancesWalk(c, t, insts, useSections, dash).Done?
    ensures var w := InstancesWalk(c, t, insts, useSections, dash).value;
      && w.counters.sectionNumber == c.sectionNumber + SlotCount(insts, SectionTitleSlot)
      && w.counters.titlesAdded == c.titlesAdded + SlotCount(insts, SectionTitleSlot) + SlotCount(insts, PageTitleSlot)
      && w.counters.curPage == c.curPage
      && (c.firstPageFound ==> w.counters.firstPageFound)
      && |w.instances| == |insts|
  {
    if insts != [] {
      var front := insts[..|insts| - 1];
      InstancesWalkCounts(c, t, front, useSections, dash);
      var w := InstancesWalk(c, t, front, useSections, dash).value;
      InstanceStepCounts(w.counters, w.titled, insts[|insts| - 1], useSections, dash);
    }
  }

  /** What one artboard's step `b`, started from `c`, does to the counters
      and the TOC: its instances' sections and titles are counted, it adds at
      most one TOC line, which carries the page number the artboard started
      with, and the page number then rises by one exactly when the first
      page has been found. */
  predicate BoardCounts(c: Counters, insts: seq<Layer>, b: BoardStep)
  {
    && b.counters.sectionNumber == c.sectionNumber + SlotCount(insts, SectionTitleSlot)
    && b.counters.titlesAdded == c.titlesAdded + SlotCount(insts, SectionTitleSlot) + SlotCount(insts, PageTitleSlot)
    && b.counters.curPage == c.curPage + Once(b.counters.firstPageFound)
    && (c.firstPageFound ==> b.counters.firstPageFound)
    && |b.toc| <= 1
    && (forall k :: 0 <= k < |b.toc| ==> b.toc[k].pageNumber == c.curPage)
    && b.calloutsUpdated == b.board.callouts.count
  }

  /** The step on one artboard counts as `BoardCounts` says, and reports
      the callouts its callout update numbered. */
  lemma ArtboardStepCounts(c: Counters, artboard: Layer, useSections: bool, dash: string, host: Host)
    requires ArtboardStep(c, artboard, useSections, dash, host).Done?
    ensures var b := ArtboardStep(c, artboard, useSections, dash, host).value;
      BoardCounts(c, Instances(artboard), b) && b.calloutsUpdated == b.board.callouts.count
  {
    InstancesWalkCounts(c, Titled(None, None, artboard.name), Instances(artboard), useSections, dash);
  }

  /** The sections on the instances of all the artboards. */
  function SectionsOn(artboards: seq<Layer>): nat
  {
    if artboards == [] then 0
    else SectionsOn(artboards[..|artboards| - 1]) + SlotCount(Instances(artboards[|artboards| - 1]), SectionTitleSlot)
  }

  /** The section and page titles on the instances of all the artboards. */
  function TitlesOn(artboards: seq<Layer>): nat
  {
    if artboards == [] then 0
    else
      var insts := Instances(artboards[|artboards| - 1]);
      TitlesOn(artboards[..|artboards| - 1]) + SlotCount(insts, SectionTitleSlot) + SlotCount(insts, PageTitleSlot)
  }

  /** The callouts numbered on the boards, summed. */
  function CalloutsOn(boards: seq<Board>): nat
  {
    if boards == [] then 0
    else CalloutsOn(boards[..|boards| - 1]) + boards[|boards| - 1].callouts.count
  }

  /** What the walk over `artboards`, started from `c`, leaves in `n`: one
      board per artboard and at most one TOC line each; the callouts of all
      boards summed in `calloutsUpdated`; every section and
      title counted; the page number risen by at most one per artboard, by
      exactly one once the first page has been found; and TOC lines whose
      page numbers lie in that range and never decrease. */
  predicate WalkCounts(c: Counters, artboards: seq<Layer>, n: Numbered)
  {
    && |n.boards| == |artboards|
    && |n.toc| <= |artboards|
    && n.calloutsUpdated == CalloutsOn(n.boards)
    && n.counters.sectionNumber == c.sectionNumber + SectionsOn(artboards)
    && n.counters.titlesAdded == c.titlesAdded + TitlesOn(artboards)
    && c.curPage <= n.counters.curPage <= c.curPage + |artboards|
    && (c.firstPageFound ==> n.counters.firstPageFound && n.counters.curPage == c.curPage + |artboards|)
    && (forall k :: 0 <= k < |n.toc| ==> c.curPage <= n.toc[k].pageNumber <= n.counters.curPage)
    && (forall j, k :: 0 <= j < k < |n.toc| ==> n.toc[j].pageNumber <= n.toc[k].pageNumber)
  }

  /** One more artboard keeps `WalkCounts`. */
  lemma AppendCounts(c: Counters, artboards: seq<Layer>, n0: Numbered, b: BoardStep)
    requires artboards != []
    requires WalkCounts(c, artboards[..|artboards| - 1], n0)
    requires BoardCounts(n0.counters, Instances(artboards[|artboards| - 1]), b)
    ensures WalkCounts(c, artboards, Append(n0, Done(b)).value)
  {
    var n := Append(n0, Done(b)).value;
    assert n.toc == n0.toc + b.toc;
    assert n.boards[..|n.boards| - 1] == n0.boards;
    forall j, k | 0 <= j < k < |n.toc|
      ensures n.toc[j].pageNumber <= n.toc[k].pageNumber
    {
      if k >= |n0.toc| {
        assert n.toc[k] == b.toc[k - |n0.toc|];
        if j < |n0.toc| { assert n.toc[j] == n0.toc[j]; }
      } else {
        assert n.toc[j] == n0.toc[j] && n.toc[k] == n0.toc[k];
      }
    }
    forall k | 0 <= k < |n.toc|
      ensures c.curPage <= n.toc[k].pageNumber <= n.counters.curPage
    {
      if k >= |n0.toc| { assert n.toc[k] == b.toc[k - |n0.toc|]; } else { assert n.toc[k] == n0.toc[k]; }
    }
  }

  /** The whole walk counts as `WalkCounts` says. */
  lemma {:induction false} ArtboardsWalkCounts(c: Counters, artboards: seq<Layer>, useSections: bool, dash: string, host: Host)
    requires ArtboardsWalk(c, artboards, useSections, dash, host).Done?
    ensures WalkCounts(c, artboards, ArtboardsWalk(c, artboards, useSections, dash, host).value)
  {
    if artboards != [] {
      var front := artboards[..|artboards| - 1];
      var last := artboards[|artboards| - 1];
      var o := ArtboardsWalk(c, front, useSections, dash, host);
      assert ArtboardsWalk(c, artboards, useSections, dash, host) == Advance(o, last, useSections, dash, host);
      ArtboardsWalkCounts(c, front, useSections, dash, host);
      var b := ArtboardStep(o.value.counters, last, useSections, dash, host);
      assert ArtboardsWalk(c, artboards, useSections, dash, host) == Append(o.value, b);
      ArtboardStepCounts(o.value.counters, last, useSections, dash, host);
      AppendCounts(c, artboards, o.value, b.value);
    }
  }

  /** `numberAndNameArtboards`: one board per artboard of the page; the
      summary gains the title count and then the total of the callouts
      numbered on the boards; the TOC
      holds at most one line per artboard, numbered from 1 on, never
      decreasing, and never beyond one more than the number of artboards. */
  lemma NumberAndNameCounts(pageLayers: seq<Layer>, useSections: bool, dash: string, host: Host, summary: seq<string>)
    requires NumberAndNameSpec(pageLayers, useSections, dash, host, summary).Done?
    ensures var r := NumberAndNameSpec(pageLayers, useSections, dash, host, summary).value;
      var artboards := AllArtboards(pageLayers);
      && |r.boards| == |artboards|
      && |r.summary| == |summary| + 2 && r.summary[..|summary|] == summary
      && r.summary[|summary|] == NatToString(TitlesOn(artboards)) + " artboards updated"
      && r.summary[|summary| + 1] == NatToString(CalloutsOn(r.boards)) + " callouts updated"
      && |r.toc| <= |artboards|
      && (forall k :: 0 <= k < |r.toc| ==> StartPageNum <= r.toc[k].pageNumber <= |artboards| + 1)
      && (forall j, k :: 0 <= j < k < |r.toc| ==> r.toc[j].pageNumber <= r.toc[k].pageNumber)
  {
    ArtboardsWalkCounts(Initial, AllArtboards(pageLayers), useSections, dash, host);
  }

  // ---------------------------------------------------------------------
  // what tocArray holds

  /** Sketch gives every layer its own `objectID`; here, the master children
      of an instance, so that writing one slot leaves the others alone. */
  predicate DistinctIds(inst: Layer)
  {
    forall i, j :: 0 <= i < j < |inst.masterChildren| ==> inst.masterChildren[i].objectID != inst.masterChildren[j].objectID
  }

  predicate AllDistinctIds(insts: seq<Layer>)
  {
    forall k :: 0 <= k < |insts| ==> DistinctIds(insts[k])
  }

  predicate BoardsDistinctIds(artboards: seq<Layer>)
  {
    forall i :: 0 <= i < |artboards| ==> AllDistinctIds(Instances(artboards[i]))
  }

  /** Whether the instance has a writable `<pageNumber>` text child, which is
      when `setOverrideText(instance, '<pageNumber>', …)` returns the text. */
  predicate NumbersPage(inst: Layer)
  {
    WritableChildFrom(inst.masterChildren, PageNumberSlot, inst.overrides, 0).Some?
  }

  /** Whether some of the instances take a page number. */
  predicate NumbersPages(insts: seq<Layer>)
  {
    insts != [] && (NumbersPages(insts[..|insts| - 1]) || NumbersPage(insts[|insts| - 1]))
  }

  /** `sectionPageNumber` after the instances, from `p0`: each section title
      restarts it, each page title adds one. */
  function SectionPage(p0: nat, insts: seq<Layer>): nat
  {
    if insts == [] then p0
    else
      var x := insts[|insts| - 1];
      (if HasOverride(x, SectionTitleSlot) then 0 else SectionPage(p0, insts[..|insts| - 1])) + Once(HasOverride(x, PageTitleSlot))
  }

  /** The section title an artboard ends with: the text of its last instance
      with a `<sectionTitle>` slot, numbered with the count of sections up to
      and including it; `init` when there is none. */
  function LastSectionTitle(s0: nat, insts: seq<Layer>, useSections: bool, dash: string, init: Option<string>): Option<string>
  {
    if insts == [] then init
    else
      var x := insts[|insts| - 1];
      if HasOverride(x, SectionTitleSlot) then
        var text := OverrideText(x, SectionTitleSlot);
        if text.Str? then Some(AddSectionNumbers(text.s, s0 + SlotCount(insts, SectionTitleSlot), 0, useSections, dash)) else None
      else LastSectionTitle(s0, insts[..|insts| - 1], useSections, dash, init)
  }

  /** The page title an artboard ends with: the text of its last instance
      with a `<pageTitle>` slot, numbered with the sections and the pages of
      the section up to and including it; `init` when there is none. */
  function LastPageTitle(s0: nat, p0: nat, insts: seq<Layer>, useSections: bool, dash: string, init: Option<string>): Option<string>
  {
    if insts == [] then init
    else
      var x := insts[|insts| - 1];
      if HasOverride(x, PageTitleSlot) then
        var text := OverrideText(x, PageTitleSlot);
        if text.Str? then Some(AddSectionNumbers(text.s, s0 + SlotCount(insts, SectionTitleSlot), SectionPage(p0, insts), useSections, dash))
        else None
      else LastPageTitle(s0, p0, insts[..|insts| - 1], useSections, dash, init)
  }

  /** The text of a title slot and the numbers `addSectionNumbers` gives it. */
  datatype Renumbering = Renumbering(text: JsValue, sectionNumber: nat, sectionPageNumber: nat)

  /** The section title an artboard ends with: its last instance with a
      `<sectionTitle>` slot, numbered with the count of sections up to and
      including it; none when there is no such instance. */
  function LastSection(s0: nat, insts: seq<Layer>): Option<Renumbering>
  {
    if insts == [] then None
    else
      var x := insts[|insts| - 1];
      if HasOverride(x, SectionTitleSlot) then Some(Renumbering(OverrideText(x, SectionTitleSlot), s0 + SlotCount(insts, SectionTitleSlot), 0))
      else LastSection(s0, insts[..|insts| - 1])
  }

  /** The page title an artboard ends with: its last instance with a
      `<pageTitle>` slot, numbered with the sections and the pages of the
      section up to and including it; none when there is no such instance. */
  function LastPage(s0: nat, p0: nat, insts: seq<Layer>): Option<Renumbering>
  {
    if insts == [] then None
    else
      var x := insts[|insts| - 1];
      if HasOverride(x, PageTitleSlot)
      then Some(Renumbering(OverrideText(x, PageTitleSlot), s0 + SlotCount(insts, SectionTitleSlot), SectionPage(p0, insts)))
      else LastPage(s0, p0, insts[..|insts| - 1])
  }

  /** The title a renumbering gives, `init` when there is none. */
  function TitleFrom(r: Option<Renumbering>, useSections: bool, dash: string, init: Option<string>): Option<string>
  {
    match r
    case None => init
    case Some(n) => if n.text.Str? then Some(AddSectionNumbers(n.text.s, n.sectionNumber, n.sectionPageNumber, useSections, dash)) else None
  }

  /** `sectionPageNumber` after the artboards, from `p0`. */
  function SectionPageOn(p0: nat, artboards: seq<Layer>): nat
  {
    if artboards == [] then p0
    else SectionPage(SectionPageOn(p0, artboards[..|artboards| - 1]), Instances(artboards[|artboards| - 1]))
  }

  /** `firstPageFound` after the artboards, from `found`. */
  predicate PagesStarted(found: bool, artboards: seq<Layer>)
  {
    if artboards == [] then found
    else PagesStarted(found, artboards[..|artboards| - 1]) || NumbersPages(Instances(artboards[|artboards| - 1]))
  }

  /** `curPage` after the artboards: one more after each artboard from the
      first one that takes a page number on. */
  function PageAfter(c: Counters, artboards: seq<Layer>): nat
  {
    if artboards == [] then c.curPage
    else PageAfter(c, artboards[..|artboards| - 1]) + Once(PagesStarted(c.firstPageFound, artboards))
  }

  /** `tocArray` after the artboards, from `c`: in artboard order, a line
      for each artboard whose last section or page title is truthy, holding
      those titles and the page number reached before it. */
  function TocFrom(c: Counters, artboards: seq<Layer>, useSections: bool, dash: string): seq<TocEntry>
  {
    if artboards == [] then []
    else
      var front := artboards[..|artboards| - 1];
      var insts := Instances(artboards[|artboards| - 1]);
      var s0 := c.sectionNumber + SectionsOn(front);
      TocFrom(c, front, useSections, dash)
        + TocLine(LastSectionTitle(s0, insts, useSections, dash, None),
                  LastPageTitle(s0, SectionPageOn(c.sectionPageNumber, front), insts, useSections, dash, None),
                  PageAfter(c, front))
  }

  /** A write to one slot leaves the text of another slot as it was. */
  lemma SlotKept(inst: Layer, name: string, other: string, v: JsValue)
    requires DistinctIds(inst) && name != other
    ensures OverrideText(SetOverride(inst, name, v).0, other) == OverrideText(inst, other)
  {
    TextChildFromMeaning(inst.masterChildren, other, 0);
    WritableChildFromMeaning(inst.masterChildren, name, inst.overrides, 0);
    SetKeepsOtherSlots(inst, name, other, v);
  }

  /** The page-number write returns a truthy value exactly when the instance
      takes a page number. */
  lemma PageNumberWritten(inst: Layer, page: nat)
    ensures Truthy(SetOverride(inst, PageNumberSlot, Str(NatToString(page))).1) <==> NumbersPage(inst)
  {
    SetOverrideMeaning(inst, PageNumberSlot, Str(NatToString(page)));
  }

  /** A normal turn of the inner `forEach` is the section branch and then
      the page branch on the instance with its page number written. */
  lemma InstanceStepParts(c: Counters, t: Titled, inst: Layer, useSections: bool, dash: string)
    requires InstanceStep(c, t, inst, useSections, dash).Done?
    ensures var w := SetOverride(inst, PageNumberSlot, Str(NatToString(c.curPage)));
      var c1 := if Truthy(w.1) then c.(firstPageFound := true) else c;
      var r2 := SectionStep(c1, t, w.0, useSections, dash);
      && r2.Done?
      && PageStep(r2.value.counters, r2.value.titled, r2.value.instance, useSections, dash).Done?
      && InstanceStep(c, t, inst, useSections, dash).value.titled
         == PageStep(r2.value.counters, r2.value.titled, r2.value.instance, useSections, dash).value.titled
      && InstanceStep(c, t, inst, useSections, dash).value.counters
         == PageStep(r2.value.counters, r2.value.titled, r2.value.instance, useSections, dash).value.counters
  {
  }

  /** The section branch leaves the page title slot as it was. */
  lemma SectionKeepsPageText(c: Counters, t: Titled, x: Layer, useSections: bool, dash: string)
    requires SectionStep(c, t, x, useSections, dash).Done? && DistinctIds(x)
    ensures var y := SectionStep(c, t, x, useSections, dash).value.instance;
      && HasOverride(y, PageTitleSlot) == HasOverride(x, PageTitleSlot)
      && OverrideText(y, PageTitleSlot) == OverrideText(x, PageTitleSlot)
  {
    if HasOverride(x, SectionTitleSlot) {
      var title := AddSectionNumbers(OverrideText(x, SectionTitleSlot).s, c.sectionNumber + 1, 0, useSections, dash);
      SlotKept(x, SectionTitleSlot, PageTitleSlot, Str(title));
    }
  }

  /** The section branch and then the page branch set the titles to the
      renumbered texts of the slots the instance has, numbered with the
      counts as they stand after the branches. */
  lemma SectionThenPage(c: Counters, t: Titled, x: Layer, useSections: bool, dash: string)
    requires SectionStep(c, t, x, useSections, dash).Done? && DistinctIds(x)
    requires var r2 := SectionStep(c, t, x, useSections, dash).value;
      PageStep(r2.counters, r2.titled, r2.instance, useSections, dash).Done?
    ensures var r2 := SectionStep(c, t, x, useSections, dash).value;
      var s := PageStep(r2.counters, r2.titled, r2.instance, useSections, dash).value;
      var sec, pg := HasOverride(x, SectionTitleSlot), HasOverride(x, PageTitleSlot);
      && (sec ==> OverrideText(x, SectionTitleSlot).Str?)
      && (pg ==> OverrideText(x, PageTitleSlot).Str?)
      && s.titled.curSectionTitle
         == (if sec then Some(AddSectionNumbers(OverrideText(x, SectionTitleSlot).s, s.counters.sectionNumber, 0, useSections, dash))
             else t.curSectionTitle)
      && s.titled.curPageTitle
         == (if pg then Some(AddSectionNumbers(OverrideText(x, PageTitleSlot).s, s.counters.sectionNumber,
                                              s.counters.sectionPageNumber, useSections, dash))
             else t.curPageTitle)
      && s.counters.firstPageFound == c.firstPageFound
  {
    SectionStepCounts(c, t, x, useSections, dash);
    SectionKeepsPageText(c, t, x, useSections, dash);
    var r2 := SectionStep(c, t, x, useSections, dash).value;
    PageStepCounts(r2.counters, r2.titled, r2.instance, useSections, dash);
  }

  /** One instance: a `<sectionTitle>` slot sets the artboard's section title
      to its text renumbered with the section count, a `<pageTitle>` slot its
      page title to its text renumbered with the section and page counts, as
      they stand after the instance; the first page is found once an
      instance takes a page number. */
  lemma InstanceStepTitles(c: Counters, t: Titled, inst: Layer, useSections: bool, dash: string)
    requires InstanceStep(c, t, inst, useSections, dash).Done? && DistinctIds(inst)
    ensures var s := InstanceStep(c, t, inst, useSections, dash).value;
      var sec, pg := HasOverride(inst, SectionTitleSlot), HasOverride(inst, PageTitleSlot);
      && (sec ==> OverrideText(inst, SectionTitleSlot).Str?)
      && (pg ==> OverrideText(inst, PageTitleSlot).Str?)
      && s.titled.curSectionTitle
         == (if sec then Some(AddSectionNumbers(OverrideText(inst, SectionTitleSlot).s, s.counters.sectionNumber, 0, useSections, dash))
             else t.curSectionTitle)
      && s.titled.curPageTitle
         == (if pg then Some(AddSectionNumbers(OverrideText(inst, PageTitleSlot).s, s.counters.sectionNumber,
                                              s.counters.sectionPageNumber, useSections, dash))
             else t.curPageTitle)
      && s.counters.firstPageFound == (c.firstPageFound || NumbersPage(inst))
  {
    var w := SetOverride(inst, PageNumberSlot, Str(NatToString(c.curPage)));
    var c1 := if Truthy(w.1) then c.(firstPageFound := true) else c;
    InstanceStepParts(c, t, inst, useSections, dash);
    PageNumberWritten(inst, c.curPage);
    SlotKept(inst, PageNumberSlot, SectionTitleSlot, Str(NatToString(c.curPage)));
    SlotKept(inst, PageNumberSlot, PageTitleSlot, Str(NatToString(c.curPage)));
    assert w.0.masterChildren == inst.masterChildren;
    assert HasOverride(w.0, SectionTitleSlot) == HasOverride(inst, SectionTitleSlot);
    assert HasOverride(w.0, PageTitleSlot) == HasOverride(inst, PageTitleSlot);
    SectionThenPage(c1, t, w.0, useSections, dash);
  }

  /** One artboard's instances leave as its titles the last ones they carry,
      numbered as `LastSectionTitle` and `LastPageTitle` say. */
  lemma {:induction false} InstancesWalkTitles(c: Counters, t: Titled, insts: seq<Layer>, useSections: bool, dash: string)
    requires InstancesWalk(c, t, insts, useSections, dash).Done? && AllDistinctIds(insts)
    ensures var w := InstancesWalk(c, t, insts, useSections, dash).value;
      && w.titled.curSectionTitle == LastSectionTitle(c.sectionNumber, insts, useSections, dash, t.curSectionTitle)
      && w.titled.curPageTitle == LastPageTitle(c.sectionNumber, c.sectionPageNumber, insts, useSections, dash, t.curPageTitle)
      && w.counters.sectionPageNumber == SectionPage(c.sectionPageNumber, insts)
      && w.counters.firstPageFound == (c.firstPageFound || NumbersPages(insts))
  {
    if insts != [] {
      var front, x := insts[..|insts| - 1], insts[|insts| - 1];
      assert AllDistinctIds(front) by {
        forall k | 0 <= k < |front| ensures DistinctIds(front[k]) { assert front[k] == insts[k]; }
      }
      InstancesWalkTitles(c, t, front, useSections, dash);
      InstancesWalkCounts(c, t, front, useSections, dash);
      InstancesWalkCounts(c, t, insts, useSections, dash);
      var w := InstancesWalk(c, t, front, useSections, dash).value;
      var s := InstanceStep(w.counters, w.titled, x, useSections, dash).value;
      assert InstancesWalk(c, t, insts, useSections, dash).value == Walked(s.counters, s.titled, w.instances + [s.instance]);
      InstanceStepTitles(w.counters, w.titled, x, useSections, dash);
      InstanceStepCounts(w.counters, w.titled, x, useSections, dash);
      LastTitlesStep(c.sectionNumber, c.sectionPageNumber, insts, useSections, dash, t, w.titled, s.titled,
                     s.counters.sectionNumber, w.counters.sectionPageNumber, s.counters.sectionPageNumber);
    }
  }

  /** One more instance moves `LastSectionTitle`, `LastPageTitle` and
      `SectionPage` on as one turn of the inner `forEach` moves the titles
      and `sectionPageNumber` on. */
  lemma LastTitlesStep(s0: nat, p0: nat, insts: seq<Layer>, useSections: bool, dash: string,
                       t: Titled, before: Titled, after: Titled, sn: nat, pBefore: nat, pAfter: nat)
    requires insts != []
    requires var front := insts[..|insts| - 1];
      && before.curSectionTitle == LastSectionTitle(s0, front, useSections, dash, t.curSectionTitle)
      && before.curPageTitle == LastPageTitle(s0, p0, front, useSections, dash, t.curPageTitle)
      && pBefore == SectionPage(p0, front)
    requires sn == s0 + SlotCount(insts, SectionTitleSlot)
    requires var x := insts[|insts| - 1];
      var sec, pg := HasOverride(x, SectionTitleSlot), HasOverride(x, PageTitleSlot);
      && pAfter == (if sec then 0 else pBefore) + Once(pg)
      && (sec ==> OverrideText(x, SectionTitleSlot).Str?)
      && (pg ==> OverrideText(x, PageTitleSlot).Str?)
      && after.curSectionTitle
         == (if sec then Some(AddSectionNumbers(OverrideText(x, SectionTitleSlot).s, sn, 0, useSections, dash))
             else before.curSectionTitle)
      && after.curPageTitle
         == (if pg then Some(AddSectionNumbers(OverrideText(x, PageTitleSlot).s, sn, pAfter, useSections, dash))
             else before.curPageTitle)
    ensures after.curSectionTitle == LastSectionTitle(s0, insts, useSections, dash, t.curSectionTitle)
    ensures after.curPageTitle == LastPageTitle(s0, p0, insts, useSections, dash, t.curPageTitle)
    ensures pAfter == SectionPage(p0, insts)
  {
  }

  /** The line one artboard adds to the TOC, and what it leaves in the
      section page count and the first-page flag. */
  lemma ArtboardStepToc(c: Counters, artboard: Layer, useSections: bool, dash: string, host: Host)
    requires ArtboardStep(c, artboard, useSections, dash, host).Done? && AllDistinctIds(Instances(artboard))
    ensures var b := ArtboardStep(c, artboard, useSections, dash, host).value;
      var insts := Instances(artboard);
      && b.toc == TocLine(LastSectionTitle(c.sectionNumber, insts, useSections, dash, None),
                          LastPageTitle(c.sectionNumber, c.sectionPageNumber, insts, useSections, dash, None), c.curPage)
      && b.counters.sectionPageNumber == SectionPage(c.sectionPageNumber, insts)
      && b.counters.firstPageFound == (c.firstPageFound || NumbersPages(insts))
  {
    InstancesWalkTitles(c, Titled(None, None, artboard.name), Instances(artboard), useSections, dash);
    InstancesWalkCounts(c, Titled(None, None, artboard.name), Instances(artboard), useSections, dash);
  }

  /** The walk over the artboards builds `TocFrom`, and leaves the counters
      `SectionsOn`, `SectionPageOn`, `PagesStarted` and `PageAfter` describe. */
  lemma {:induction false} ArtboardsWalkToc(c: Counters, artboards: seq<Layer>, useSections: bool, dash: string, host: Host)
    requires ArtboardsWalk(c, artboards, useSections, dash, host).Done? && BoardsDistinctIds(artboards)
    ensures var n := ArtboardsWalk(c, artboards, useSections, dash, host).value;
      && n.toc == TocFrom(c, artboards, useSections, dash)
      && n.counters.sectionNumber == c.sectionNumber + SectionsOn(artboards)
      && n.counters.sectionPageNumber == SectionPageOn(c.sectionPageNumber, artboards)
      && n.counters.firstPageFound == PagesStarted(c.firstPageFound, artboards)
      && n.counters.curPage == PageAfter(c, artboards)
  {
    if artboards != [] {
      var front := artboards[..|artboards| - 1];
      var last := artboards[|artboards| - 1];
      assert BoardsDistinctIds(front) by {
        forall i | 0 <= i < |front| ensures AllDistinctIds(Instances(front[i])) { assert front[i] == artboards[i]; }
      }
      var o := ArtboardsWalk(c, front, useSections, dash, host);
      assert ArtboardsWalk(c, artboards, useSections, dash, host) == Advance(o, last, useSections, dash, host);
      ArtboardsWalkToc(c, front, useSections, dash, host);
      var b := ArtboardStep(o.value.counters, last, useSections, dash, host);
      assert ArtboardsWalk(c, artboards, useSections, dash, host) == Append(o.value, b);
      ArtboardStepCounts(o.value.counters, last, useSections, dash, host);
      ArtboardStepToc(o.value.counters, last, useSections, dash, host);
      TocStep(c, artboards, useSections, dash, o.value, b.value);
    }
  }

  /** What `TocFrom` and the counts say of the artboards but the last, and
      the last artboard's step, give for all of them. */
  lemma TocStep(c: Counters, artboards: seq<Layer>, useSections: bool, dash: string, o: Numbered, b: BoardStep)
    requires artboards != []
    requires var front := artboards[..|artboards| - 1];
      && o.toc == TocFrom(c, front, useSections, dash)
      && o.counters.sectionNumber == c.sectionNumber + SectionsOn(front)
      && o.counters.sectionPageNumber == SectionPageOn(c.sectionPageNumber, front)
      && o.counters.firstPageFound == PagesStarted(c.firstPageFound, front)
      && o.counters.curPage == PageAfter(c, front)
    requires var insts := Instances(artboards[|artboards| - 1]);
      var oc := o.counters;
      && b.toc == TocLine(LastSectionTitle(oc.sectionNumber, insts, useSections, dash, None),
                          LastPageTitle(oc.sectionNumber, oc.sectionPageNumber, insts, useSections, dash, None), oc.curPage)
      && b.counters.sectionNumber == oc.sectionNumber + SlotCount(insts, SectionTitleSlot)
      && b.counters.sectionPageNumber == SectionPage(oc.sectionPageNumber, insts)
      && b.counters.firstPageFound == (oc.firstPageFound || NumbersPages(insts))
      && b.counters.curPage == oc.curPage + Once(b.counters.firstPageFound)
    ensures var n := Append(o, Done(b)).value;
      && n.toc == TocFrom(c, artboards, useSections, dash)
      && n.counters.sectionNumber == c.sectionNumber + SectionsOn(artboards)
      && n.counters.sectionPageNumber == SectionPageOn(c.sectionPageNumber, artboards)
      && n.counters.firstPageFound == PagesStarted(c.firstPageFound, artboards)
      && n.counters.curPage == PageAfter(c, artboards)
  {
  }

  /** `numberAndNameArtboards` returns as `tocArray` the lines `TocFrom`
      gives for the page's artboards, from the starting counters. */
  lemma NumberAndNameToc(pageLayers: seq<Layer>, useSections: bool, dash: string, host: Host, summary: seq<string>)
    requires NumberAndNameSpec(pageLayers, useSections, dash, host, summary).Done?
    requires BoardsDistinctIds(AllArtboards(pageLayers))
    ensures NumberAndNameSpec(pageLayers, useSections, dash, host, summary).value.toc
            == TocFrom(Initial, AllArtboards(pageLayers), useSections, dash)
  {
    ArtboardsWalkToc(Initial, AllArtboards(pageLayers), useSections, dash, host);
  }

  // ---------------------------------------------------------------------
  // what the reference says

  /** The title one slot's renumbering gives. */
  lemma TitleOfSlot(text: JsValue, sn: nat, pn: nat, useSections: bool, dash: string, init: Option<string>)
    ensures TitleFrom(Some(Renumbering(text, sn, pn)), useSections, dash, init)
            == if text.Str? then Some(AddSectionNumbers(text.s, sn, pn, useSections, dash)) else None
  {
  }

  /** `LastSectionTitle` is the title `LastSection` names. */
  lemma {:induction false} LastSectionTitleIs(s0: nat, insts: seq<Layer>, useSections: bool, dash: string, init: Option<string>)
    ensures LastSectionTitle(s0, insts, useSections, dash, init) == TitleFrom(LastSection(s0, insts), useSections, dash, init)
  {
    if insts != [] {
      var x := insts[|insts| - 1];
      if HasOverride(x, SectionTitleSlot) {
        TitleOfSlot(OverrideText(x, SectionTitleSlot), s0 + SlotCount(insts, SectionTitleSlot), 0, useSections, dash, init);
      } else {
        LastSectionTitleIs(s0, insts[..|insts| - 1], useSections, dash, init);
      }
    }
  }

  /** `LastPageTitle` is the title `LastPage` names. */
  lemma {:induction false} LastPageTitleIs(s0: nat, p0: nat, insts: seq<Layer>, useSections: bool, dash: string, init: Option<string>)
    ensures LastPageTitle(s0, p0, insts, useSections, dash, init) == TitleFrom(LastPage(s0, p0, insts), useSections, dash, init)
  {
    if insts != [] {
      var x := insts[|insts| - 1];
      if HasOverride(x, PageTitleSlot) {
        TitleOfSlot(OverrideText(x, PageTitleSlot), s0 + SlotCount(insts, SectionTitleSlot), SectionPage(p0, insts), useSections, dash, init);
      } else {
        LastPageTitleIs(s0, p0, insts[..|insts| - 1], useSections, dash, init);
      }
    }
  }

  /** An artboard without a `<sectionTitle>` slot has no section title. */
  lemma {:induction false} LastSectionNone(s0: nat, insts: seq<Layer>)
    requires forall j :: 0 <= j < |insts| ==> !HasOverride(insts[j], SectionTitleSlot)
    ensures LastSection(s0, insts) == None
  {
    if insts != [] {
      LastSectionNone(s0, insts[..|insts| - 1]);
    }
  }

  /** When instance `k` is the last with a `<sectionTitle>` slot, the section
      title is its text, numbered with the artboard's sections counted. */
  lemma {:induction false} LastSectionAt(s0: nat, insts: seq<Layer>, k: nat)
    requires k < |insts| && HasOverride(insts[k], SectionTitleSlot)
    requires forall j :: k < j < |insts| ==> !HasOverride(insts[j], SectionTitleSlot)
    ensures LastSection(s0, insts) == Some(Renumbering(OverrideText(insts[k], SectionTitleSlot), s0 + SlotCount(insts, SectionTitleSlot), 0))
  {
    if k < |insts| - 1 {
      var front := insts[..|insts| - 1];
      assert front[k] == insts[k];
      LastSectionAt(s0, front, k);
    }
  }

  /** An artboard without a `<pageTitle>` slot has no page title. */
  lemma {:induction false} LastPageNone(s0: nat, p0: nat, insts: seq<Layer>)
    requires forall j :: 0 <= j < |insts| ==> !HasOverride(insts[j], PageTitleSlot)
    ensures LastPage(s0, p0, insts) == None
  {
    if insts != [] {
      LastPageNone(s0, p0, insts[..|insts| - 1]);
    }
  }

  /** When instance `k` is the last with a `<pageTitle>` slot, the page title
      is its text, numbered with the sections and the pages of the section
      counted up to and including it. */
  lemma {:induction false} LastPageAt(s0: nat, p0: nat, insts: seq<Layer>, k: nat)
    requires k < |insts| && HasOverride(insts[k], PageTitleSlot)
    requires forall j :: k < j < |insts| ==> !HasOverride(insts[j], PageTitleSlot)
    ensures var upTo := insts[..k + 1];
      LastPage(s0, p0, insts)
      == Some(Renumbering(OverrideText(insts[k], PageTitleSlot), s0 + SlotCount(upTo, SectionTitleSlot), SectionPage(p0, upTo)))
  {
    if k == |insts| - 1 {
      assert insts[..k + 1] == insts;
    } else {
      var front := insts[..|insts| - 1];
      assert front[k] == insts[k];
      assert front[..k + 1] == insts[..k + 1];
      LastPageAt(s0, p0, front, k);
    }
  }

  /** Some instance takes a page number exactly when one of them does. */
  lemma {:induction false} NumbersPagesMeaning(insts: seq<Layer>)
    ensures NumbersPages(insts) <==> exists k :: 0 <= k < |insts| && NumbersPage(insts[k])
  {
    if insts != [] {
      var front := insts[..|insts| - 1];
      NumbersPagesMeaning(front);
      if exists k :: 0 <= k < |insts| && NumbersPage(insts[k]) {
        var k :| 0 <= k < |insts| && NumbersPage(insts[k]);
        if k < |front| { assert front[k] == insts[k]; }
      }
      if exists k :: 0 <= k < |front| && NumbersPage(front[k]) {
        var k :| 0 <= k < |front| && NumbersPage(front[k]);
        assert insts[k] == front[k];
      }
    }
  }

  /** Before any artboard takes a page number, the page count stays where it started. */
  lemma {:induction false} PageAfterUnstarted(c: Counters, artboards: seq<Layer>)
    requires !c.firstPageFound
    requires forall i :: 0 <= i < |artboards| ==> !NumbersPages(Instances(artboards[i]))
    ensures !PagesStarted(c.firstPageFound, artboards) && PageAfter(c, artboards) == c.curPage
  {
    if artboards != [] {
      var front := artboards[..|artboards| - 1];
      assert forall i :: 0 <= i < |front| ==> front[i] == artboards[i];
      PageAfterUnstarted(c, front);
    }
  }

  /** When artboard `f` is the first that takes a page number, the artboards
      up to it are all on the starting page and each one after moves the
      page count on by one. */
  lemma {:induction false} PageAfterFirst(c: Counters, artboards: seq<Layer>, f: nat)
    requires !c.firstPageFound
    requires f < |artboards| && NumbersPages(Instances(artboards[f]))
    requires forall i :: 0 <= i < f ==> !NumbersPages(Instances(artboards[i]))
    ensures PagesStarted(c.firstPageFound, artboards) && PageAfter(c, artboards) == c.curPage + |artboards| - f
  {
    var front := artboards[..|artboards| - 1];
    if f == |artboards| - 1 {
      assert forall i :: 0 <= i < |front| ==> front[i] == artboards[i];
      PageAfterUnstarted(c, front);
    } else {
      assert front[f] == artboards[f];
      assert forall i :: 0 <= i < f ==> front[i] == artboards[i];
      PageAfterFirst(c, front, f);
    }
  }

  /** Once the first page has been found, every artboard moves the page count on. */
  lemma {:induction false} PageAfterStarted(c: Counters, artboards: seq<Layer>)
    requires c.firstPageFound
    ensures PagesStarted(c.firstPageFound, artboards) && PageAfter(c, artboards) == c.curPage + |artboards|
  {
    if artboards != [] {
      PageAfterStarted(c, artboards[..|artboards| - 1]);
    }
  }

  /** Each artboard adds at most one line. */
  lemma {:induction false} TocFromAtMostOne(c: Counters, artboards: seq<Layer>, useSections: bool, dash: string)
    ensures |TocFrom(c, artboards, useSections, dash)| <= |artboards|
  {
    if artboards != [] {
      TocFromAtMostOne(c, artboards[..|artboards| - 1], useSections, dash);
    }
  }

  /** An artboard with neither title slot gives no line. */
  lemma NoTitlesNoLine(s0: nat, p0: nat, insts: seq<Layer>, useSections: bool, dash: string, curPage: nat)
    requires forall j :: 0 <= j < |insts| ==> !HasOverride(insts[j], SectionTitleSlot) && !HasOverride(insts[j], PageTitleSlot)
    ensures TocLine(LastSectionTitle(s0, insts, useSections, dash, None), LastPageTitle(s0, p0, insts, useSections, dash, None), curPage) == []
  {
    LastSectionNone(s0, insts);
    LastPageNone(s0, p0, insts);
    LastSectionTitleIs(s0, insts, useSections, dash, None);
    LastPageTitleIs(s0, p0, insts, useSections, dash, None);
  }

}
