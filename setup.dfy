/** `checkPageSetup` of main.js: the checks every menu command runs before it
    touches the page, each failure reported as a tagged summary line. */
module Setup {
  import opened Js
  import opened Layers
  import opened Symbols
  import Summary

  const NoArtboards: string := Summary.ErrorTag + "The current page contains no artboards."
  const NoPageNumber: string := Summary.ErrorTag + "No symbol with override <pageNumber> found."
  const NoSectionTitle: string := Summary.ErrorTag + "No symbol with override <sectionTitle> found."
  const NoPageTitle: string := Summary.ErrorTag + "No symbol with override <pageTitle> found."
  const NoTocSectionTitle: string := Summary.ErrorTag + "Table of contents: No symbol with override <tocSectionTitle> found."
  const NoTocPageTitle: string := Summary.ErrorTag + "Table of contents: No symbol with override <tocPageTitle> found."
  const NoTocGroup: string := Summary.ErrorTag + "Table of contents: Group named <tocGroup> not found on any artboard."
  const NoTocRect: string := Summary.ErrorTag + "Table of contents: <tocGroup> must contain a rectangle named <tocGroupRect>."

  /** One line when the master is missing, none otherwise. */
  function MissingMaster(masters: seq<Layer>, name: string, message: string): seq<string>
  {
    if MasterWithOverrideName(masters, name).None? then [message] else []
  }

  /** The lines of the three page-symbol checks, in the order they run. */
  function SymbolErrors(masters: seq<Layer>): seq<string>
  {
    MissingMaster(masters, "<pageNumber>", NoPageNumber)
    + MissingMaster(masters, "<sectionTitle>", NoSectionTitle)
    + MissingMaster(masters, "<pageTitle>", NoPageTitle)
  }

  /** `layerWithName(page.children(), MSLayerGroup, '<tocGroup>')` */
  function TocGroupOf(pageLayers: seq<Layer>): Option<Layer>
  {
    FirstNamed(ChildrenOfAll(pageLayers), LayerGroup, "<tocGroup>")
  }

  /** The lines of the table-of-contents checks, in the order they run; the
      rectangle is looked for only inside a group that was found. */
  function TocErrors(pageLayers: seq<Layer>, masters: seq<Layer>): seq<string>
  {
    var group := TocGroupOf(pageLayers);
    MissingMaster(masters, "<tocSectionTitle>", NoTocSectionTitle)
    + MissingMaster(masters, "<tocPageTitle>", NoTocPageTitle)
    + (if group.None? then [NoTocGroup] else [])
    + (if group.Some? && FirstNamed(Children(group.value), RectangleShape, "<tocGroupRect>").None? then [NoTocRect] else [])
  }

  /** Specification of the lines `checkPageSetup` pushes: a page without
      artboards stops at once; missing page symbols stop before the
      table-of-contents checks, which run only when `useToc` holds. */
  function SetupErrors(pageLayers: seq<Layer>, masters: seq<Layer>, useToc: bool): seq<string>
  {
    if AllArtboards(pageLayers) == [] then [NoArtboards]
    else if SymbolErrors(masters) != [] then SymbolErrors(masters)
    else if useToc then TocErrors(pageLayers, masters)
    else []
  }

  /** `checkPageSetup(doc, summary)` on a page whose top-level layers are
      `pageLayers`, with the document's symbol masters and the truthiness of
      `storedValue('useTOC')`: answers `'success'` or undefined and appends
      the error lines to the summary. */
  method CheckPageSetup(pageLayers: seq<Layer>, masters: seq<Layer>, useToc: bool, summary: seq<string>)
    returns (retval: JsValue, out: seq<string>)
    ensures out == summary + SetupErrors(pageLayers, masters, useToc)
    ensures retval == if SetupErrors(pageLayers, masters, useToc) == [] then Str("success") else Undefined
  {
    if |AllArtboards(pageLayers)| == 0 {
      return Undefined, summary + [NoArtboards];
    }
    var symbolLines := CheckSymbols(masters);
    if symbolLines != [] {
      return Undefined, summary + symbolLines;
    }
    retval, out := Str("success"), summary;
    if useToc {
      var tocLines := CheckToc(pageLayers, masters);
      out := out + tocLines;
      if tocLines != [] {
        retval := Undefined;
      }
    } else {
      assert out == summary + [];
    }
  }

  /** The three page-symbol checks of `checkPageSetup`. */
  method CheckSymbols(masters: seq<Layer>) returns (lines: seq<string>)
    ensures lines == SymbolErrors(masters)
  {
    lines := [];
    var pageNumber := SymbolMasterWithOverrideName(masters, "<pageNumber>");
    if pageNumber.None? {
      lines := lines + [NoPageNumber];
    }
    var sectionTitle := SymbolMasterWithOverrideName(masters, "<sectionTitle>");
    if sectionTitle.None? {
      lines := lines + [NoSectionTitle];
    }
    var pageTitle := SymbolMasterWithOverrideName(masters, "<pageTitle>");
    if pageTitle.None? {
      lines := lines + [NoPageTitle];
    }
  }

  /** The table-of-contents checks of `checkPageSetup`. */
  method CheckToc(pageLayers: seq<Layer>, masters: seq<Layer>) returns (lines: seq<string>)
    ensures lines == TocErrors(pageLayers, masters)
  {
    lines := [];
    var tocSectionTitle := SymbolMasterWithOverrideName(masters, "<tocSectionTitle>");
    if tocSectionTitle.None? {
      lines := lines + [NoTocSectionTitle];
    }
    var tocPageTitle := SymbolMasterWithOverrideName(masters, "<tocPageTitle>");
    if tocPageTitle.None? {
      lines := lines + [NoTocPageTitle];
    }
    var tocGroup := LayerWithName(ChildrenOfAll(pageLayers), LayerGroup, "<tocGroup>");
    if tocGroup.None? {
      lines := lines + [NoTocGroup];
    }
    if tocGroup.Some? {
      var tocRect := LayerWithName(Children(tocGroup.value), RectangleShape, "<tocGroupRect>");
      if tocRect.None? {
        lines := lines + [NoTocRect];
      }
    }
  }

  // ---------------------------------------------------------------------
  // what the checks promise

  /** The page symbols numbering needs are all in the document. */
  predicate SymbolsReady(masters: seq<Layer>)
  {
    && (exists m :: m in masters && MasterHasTextSlot(m, "<pageNumber>"))
    && (exists m :: m in masters && MasterHasTextSlot(m, "<sectionTitle>"))
    && (exists m :: m in masters && MasterHasTextSlot(m, "<pageTitle>"))
  }

  /** The symbols and the group the table of contents needs are all there. */
  predicate TocReady(pageLayers: seq<Layer>, masters: seq<Layer>)
  {
    && (exists m :: m in masters && MasterHasTextSlot(m, "<tocSectionTitle>"))
    && (exists m :: m in masters && MasterHasTextSlot(m, "<tocPageTitle>"))
    && (exists g :: g in ChildrenOfAll(pageLayers) && Matches(g, LayerGroup, "<tocGroup>"))
    && TocGroupOf(pageLayers).Some?
    && (exists r :: r in Children(TocGroupOf(pageLayers).value) && Matches(r, RectangleShape, "<tocGroupRect>"))
  }

  /** Everything the page needs for numbering and, with `useToc`, for the
      table of contents. */
  predicate PageReady(pageLayers: seq<Layer>, masters: seq<Layer>, useToc: bool)
  {
    && (exists a :: a in pageLayers && a.cls == Artboard)
    && SymbolsReady(masters)
    && (useToc ==> TocReady(pageLayers, masters))
  }

  /** A master of the name is found exactly when one exists. */
  lemma MasterFound(masters: seq<Layer>, name: string)
    ensures MasterWithOverrideName(masters, name).Some? <==> exists m :: m in masters && MasterHasTextSlot(m, name)
  {
    MasterWithTextFromMeaning(masters, name, 0);
    if m :| m in masters && MasterHasTextSlot(m, name) {
      var j :| 0 <= j < |masters| && masters[j] == m;
    }
  }

  /** A layer of the class and name is found exactly when one exists. */
  lemma LayerFound(ls: seq<Layer>, cls: LayerClass, name: string)
    ensures FirstNamed(ls, cls, name).Some? <==> exists l :: l in ls && Matches(l, cls, name)
  {
    NamedLayersMembers(ls, cls, name);
  }

  /** No page-symbol line exactly when the symbols are there. */
  lemma SymbolErrorsIffReady(masters: seq<Layer>)
    ensures SymbolErrors(masters) == [] <==> SymbolsReady(masters)
  {
    MasterFound(masters, "<pageNumber>");
    MasterFound(masters, "<sectionTitle>");
    MasterFound(masters, "<pageTitle>");
  }

  /** No table-of-contents line exactly when its symbols and group are there. */
  lemma TocErrorsIffReady(pageLayers: seq<Layer>, masters: seq<Layer>)
    ensures TocErrors(pageLayers, masters) == [] <==> TocReady(pageLayers, masters)
  {
    MasterFound(masters, "<tocSectionTitle>");
    MasterFound(masters, "<tocPageTitle>");
    LayerFound(ChildrenOfAll(pageLayers), LayerGroup, "<tocGroup>");
    if TocGroupOf(pageLayers).Some? {
      LayerFound(Children(TocGroupOf(pageLayers).value), RectangleShape, "<tocGroupRect>");
    }
  }

  /** `checkPageSetup` succeeds exactly when the page is ready. */
  lemma SetupSucceedsIffReady(pageLayers: seq<Layer>, masters: seq<Layer>, useToc: bool)
    ensures SetupErrors(pageLayers, masters, useToc) == [] <==> PageReady(pageLayers, masters, useToc)
  {
    AllArtboardsMembers(pageLayers);
    SymbolErrorsIffReady(masters);
    TocErrorsIffReady(pageLayers, masters);
  }

  /** A page without artboards gets exactly one line, whatever else is missing. */
  lemma NoArtboardsStopsAtOnce(pageLayers: seq<Layer>, masters: seq<Layer>, useToc: bool)
    requires forall a :: a in pageLayers ==> a.cls != Artboard
    ensures SetupErrors(pageLayers, masters, useToc) == [NoArtboards]
  {
    AllArtboardsMembers(pageLayers);
  }

  /** Missing page symbols are reported one line each, and then the
      table-of-contents checks do not run. */
  lemma SymbolsBeforeToc(pageLayers: seq<Layer>, masters: seq<Layer>, useToc: bool)
    requires AllArtboards(pageLayers) != []
    ensures var errs := SetupErrors(pageLayers, masters, useToc);
      && (SymbolErrors(masters) != [] ==> errs == SymbolErrors(masters))
      && |SymbolErrors(masters)| == (if MasterWithOverrideName(masters, "<pageNumber>").None? then 1 else 0)
                                   + (if MasterWithOverrideName(masters, "<sectionTitle>").None? then 1 else 0)
                                   + (if MasterWithOverrideName(masters, "<pageTitle>").None? then 1 else 0)
      && (NoTocGroup in errs || NoTocRect in errs ==> useToc && SymbolErrors(masters) == [])
  {
  }

  /** The table of contents is missing either its group or the group's
      rectangle, never both. */
  lemma GroupOrRect(pageLayers: seq<Layer>, masters: seq<Layer>)
    ensures !(NoTocGroup in TocErrors(pageLayers, masters) && NoTocRect in TocErrors(pageLayers, masters))
  {
  }

  /** A line made of the tag and a text is an error line. */
  lemma TaggedIsError(rest: string)
    ensures Summary.IsError(Summary.ErrorTag + rest)
  {
    var s := Summary.ErrorTag + rest;
    assert s[0..|Summary.ErrorTag|] == Summary.ErrorTag;
    assert OccursAt(s, Summary.ErrorTag, 0);
  }

  /** Every line of a list is tagged as an error. */
  predicate AllTagged(lines: seq<string>)
  {
    forall e :: e in lines ==> Summary.IsError(e)
  }

  /** The line of a missing master carries the tag of its message. */
  lemma MissingTagged(masters: seq<Layer>, name: string, rest: string)
    ensures AllTagged(MissingMaster(masters, name, Summary.ErrorTag + rest))
  {
    TaggedIsError(rest);
  }

  /** The page-symbol lines are tagged. */
  lemma SymbolErrorsTagged(masters: seq<Layer>)
    ensures AllTagged(SymbolErrors(masters))
  {
    MissingTagged(masters, "<pageNumber>", "No symbol with override <pageNumber> found.");
    MissingTagged(masters, "<sectionTitle>", "No symbol with override <sectionTitle> found.");
    MissingTagged(masters, "<pageTitle>", "No symbol with override <pageTitle> found.");
  }

  /** The table-of-contents lines are tagged. */
  lemma TocErrorsTagged(pageLayers: seq<Layer>, masters: seq<Layer>)
    ensures AllTagged(TocErrors(pageLayers, masters))
  {
    MissingTagged(masters, "<tocSectionTitle>", "Table of contents: No symbol with override <tocSectionTitle> found.");
    MissingTagged(masters, "<tocPageTitle>", "Table of contents: No symbol with override <tocPageTitle> found.");
    TaggedIsError("Table of contents: Group named <tocGroup> not found on any artboard.");
    TaggedIsError("Table of contents: <tocGroup> must contain a rectangle named <tocGroupRect>.");
  }

  /** Every line `checkPageSetup` pushes is tagged as an error. */
  lemma SetupErrorsTagged(pageLayers: seq<Layer>, masters: seq<Layer>, useToc: bool)
    ensures AllTagged(SetupErrors(pageLayers, masters, useToc))
  {
    TaggedIsError("The current page contains no artboards.");
    SymbolErrorsTagged(masters);
    TocErrorsTagged(pageLayers, masters);
  }

  /** A failed setup always ends in the `'Update error'` alert once the
      summary is displayed. */
  lemma FailedSetupAlerts(pageLayers: seq<Layer>, masters: seq<Layer>, useToc: bool, summary: seq<string>)
    requires SetupErrors(pageLayers, masters, useToc) != []
    ensures Summary.SummarySpec(summary + SetupErrors(pageLayers, masters, useToc)).alert.Some?
  {
    var errs := SetupErrors(pageLayers, masters, useToc);
    SetupErrorsTagged(pageLayers, masters, useToc);
    assert errs[0] in errs;
    Summary.ErrorInErrors(summary + errs, |summary|);
    Summary.SummaryMeaning(summary + errs);
  }
}
