/** The DataDisplay component: how it finds the scraped content, the AI
    analysis and the content statistics inside whatever shape of `data` it is
    given, which of its three tab bodies it renders, how much of each long
    list it shows, and the two pieces of state it keeps (the active tab and
    which sections are expanded). */
module DataDisplay {
  import opened JsValue

  const AiAnalysisTab := "ai-analysis"
  const OriginalDataTab := "original-data"
  const RawJsonTab := "raw-json"

  const ParagraphLimit: nat := 10
  const LinkLimit: nat := 20
  const ImageLimit: nat := 12

  /** `data.content || data`: the nested content when it is truthy, the
      record itself otherwise. */
  function ContentOf(data: Json): (content: Json)
    requires Truthy(data)
    ensures Truthy(content)
    ensures Truthy(Prop(data, "content")) ==> content == Prop(data, "content")
    ensures !Truthy(Prop(data, "content")) ==> content == data
  {
    Or(Prop(data, "content"), data)
  }

  /** The analysis lookup as the source writes it: `content.aiAnalysis`, then
      `data.ai_analysis`, then `data.content.aiAnalysis`, else null. */
  function AnalysisOf(data: Json): (analysis: Json)
    requires Truthy(data)
    ensures analysis == JNull || Truthy(analysis)
  {
    var content := ContentOf(data);
    var nested := Prop(data, "content");
    if Truthy(Prop(content, "aiAnalysis")) then Prop(content, "aiAnalysis")
    else if Truthy(Prop(data, "ai_analysis")) then Prop(data, "ai_analysis")
    else if Truthy(nested) && Truthy(OptProp(nested, "aiAnalysis")) then OptProp(nested, "aiAnalysis")
    else JNull
  }

  /** The lookup with its third candidate dropped. */
  function TwoCandidateAnalysis(data: Json): (analysis: Json)
    requires Truthy(data)
  {
    Or(Or(Prop(ContentOf(data), "aiAnalysis"), Prop(data, "ai_analysis")), JNull)
  }

  /** The third candidate never decides the result: whenever
      `data.content.aiAnalysis` is truthy, `content` is `data.content` and
      the first candidate already holds it. */
  lemma ThirdCandidateUnreachable(data: Json)
    requires Truthy(data)
    ensures AnalysisOf(data) == TwoCandidateAnalysis(data)
    ensures Truthy(AnalysisOf(data)) <==>
              Truthy(Prop(ContentOf(data), "aiAnalysis")) || Truthy(Prop(data, "ai_analysis"))
  {
  }

  /** `content.contentStats || {}`. */
  function StatsOf(content: Json): (stats: Json)
    requires !Nullish(content)
    ensures Truthy(stats)
    ensures Truthy(Prop(content, "contentStats")) ==> stats == Prop(content, "contentStats")
    ensures !Truthy(Prop(content, "contentStats")) ==> stats == JObj(map[])
  {
    Or(Prop(content, "contentStats"), JObj(map[]))
  }

  /** `!analysis || Object.keys(analysis).length === 0`: the "No AI analysis
      available" body. */
  predicate NoAnalysisShown(analysis: Json)
    ensures !NoAnalysisShown(analysis) <==>
              (analysis.JStr? && analysis.s != "") || (analysis.JArr? && analysis.items != [])
              || (analysis.JObj? && analysis.fields != map[])
  {
    !Truthy(analysis) || KeyCount(analysis) == 0
  }

  /** For a resolved analysis the placeholder shows exactly when nothing was
      found or what was found has no keys. */
  lemma NoAnalysisIff(data: Json)
    requires Truthy(data)
    ensures NoAnalysisShown(AnalysisOf(data)) <==>
              AnalysisOf(data) == JNull || KeyCount(AnalysisOf(data)) == 0
  {
  }

  /** What `data` resolves to once it is truthy. */
  datatype Resolved = Resolved(content: Json, analysis: Json, stats: Json)

  /** `list.slice(0, limit)`. */
  function Truncate(xs: seq<Json>, limit: nat): (shown: seq<Json>)
    ensures |shown| == if |xs| < limit then |xs| else limit
    ensures shown == xs[..|shown|]
  {
    if |xs| <= limit then xs else xs[..limit]
  }

  /** One of the collapsible lists of the Original Data tab. `more` is the
      count in "...and N more", which only the paragraph list shows. */
  datatype Panel =
    | NoPanel
    | Collapsed(total: nat)
    | Expanded(total: nat, shown: seq<Json>, more: Option<nat>)

  /** `list && list.length > 0 && (...)`, then the expanded body, with at
      most `limit` items and, when `noteMore`, a count of the rest. */
  function ListPanel(list: Json, expanded: bool, limit: nat, noteMore: bool): (p: Panel)
    ensures p.NoPanel? <==> !(list.JArr? && |list.items| > 0)
    ensures p.Expanded? <==> list.JArr? && |list.items| > 0 && expanded
    ensures !p.NoPanel? ==> p.total == |list.items|
    ensures p.Expanded? ==> && |p.shown| <= limit && |p.shown| <= |list.items|
                            && p.shown == list.items[..|p.shown|]
                            && (|list.items| <= limit ==> p.shown == list.items)
    ensures p.Expanded? ==> (p.more.Some? <==> noteMore && |list.items| > limit)
    ensures p.Expanded? && p.more.Some? ==> |p.shown| + p.more.value == |list.items|
    ensures p.Expanded? ==> p.shown == Truncate(list.items, limit)
    ensures p.Expanded? && p.more.Some? ==> p.more.value == |list.items| - limit
  {
    if list.JArr? && |list.items| > 0 then
      var n := |list.items|;
      if expanded then
        Expanded(n, Truncate(list.items, limit),
                 if noteMore && n > limit then Some(n - limit) else None)
      else Collapsed(n)
    else NoPanel
  }

  /** A section's expansion flag: `expandedSections[s]`, falsy when absent. */
  predicate IsExpanded(sections: map<string, bool>, s: string) {
    s in sections && sections[s]
  }

  /** A list field that gets a section: a non-empty array. */
  predicate NonEmptyList(list: Json) {
    list.JArr? && |list.items| > 0
  }

  /** The Original Data tab's three lists. */
  datatype OriginalData = OriginalData(paragraphs: Panel, links: Panel, images: Panel)

  function OriginalDataOf(content: Json, sections: map<string, bool>): (view: OriginalData)
    requires !Nullish(content)
    ensures view.paragraphs.NoPanel? <==> !NonEmptyList(Prop(content, "paragraphs"))
    ensures view.links.NoPanel? <==> !NonEmptyList(Prop(content, "links"))
    ensures view.images.NoPanel? <==> !NonEmptyList(Prop(content, "images"))
    ensures view.paragraphs.Expanded? <==> NonEmptyList(Prop(content, "paragraphs")) && IsExpanded(sections, "paragraphs")
    ensures view.links.Expanded? <==> NonEmptyList(Prop(content, "links")) && IsExpanded(sections, "links")
    ensures view.images.Expanded? <==> NonEmptyList(Prop(content, "images")) && IsExpanded(sections, "images")
  {
    OriginalData(
      ListPanel(Prop(content, "paragraphs"), IsExpanded(sections, "paragraphs"), ParagraphLimit, true),
      ListPanel(Prop(content, "links"), IsExpanded(sections, "links"), LinkLimit, false),
      ListPanel(Prop(content, "images"), IsExpanded(sections, "images"), ImageLimit, false))
  }

  /** Every list on the Original Data tab shows the first 10 paragraphs,
      20 links and 12 images of the original list, or all of a shorter one;
      "...and N more"
      appears only under the paragraphs, exactly when there are more than 10,
      with N the number left out. */
  lemma OriginalDataLimits(content: Json, sections: map<string, bool>)
    requires !Nullish(content)
    ensures var v := OriginalDataOf(content, sections);
            && (v.paragraphs.Expanded? ==>
                  && |v.paragraphs.shown| <= 10
                  && (v.paragraphs.more.Some? <==> v.paragraphs.total > 10)
                  && (v.paragraphs.more.Some? ==> v.paragraphs.more.value == v.paragraphs.total - 10))
            && (v.links.Expanded? ==> |v.links.shown| <= 20 && v.links.more.None?)
            && (v.images.Expanded? ==> |v.images.shown| <= 12 && v.images.more.None?)
            && (v.paragraphs.Expanded? ==> v.paragraphs.shown == Truncate(Prop(content, "paragraphs").items, 10))
            && (v.links.Expanded? ==> v.links.shown == Truncate(Prop(content, "links").items, 20))
            && (v.images.Expanded? ==> v.images.shown == Truncate(Prop(content, "images").items, 12))
  {
  }

  /** The body rendered under the tabs. */
  datatype Body =
    | AnalysisBody(noAnalysis: bool)
    | OriginalDataBody(original: OriginalData)
    | RawJsonBody

  /** The three `activeTab === ... && render...()` lines, in order. */
  function TabBodies(tab: string, r: Resolved, sections: map<string, bool>): (bodies: seq<Body>)
    requires !Nullish(r.content)
    ensures |bodies| <= 1
    ensures |bodies| == 1 <==> tab == AiAnalysisTab || tab == OriginalDataTab || tab == RawJsonTab
    ensures tab == AiAnalysisTab ==> bodies == [AnalysisBody(NoAnalysisShown(r.analysis))]
    ensures tab == OriginalDataTab ==> bodies == [OriginalDataBody(OriginalDataOf(r.content, sections))]
    ensures tab == RawJsonTab ==> bodies == [RawJsonBody]
  {
    (if tab == AiAnalysisTab then [AnalysisBody(NoAnalysisShown(r.analysis))] else [])
    + (if tab == OriginalDataTab then [OriginalDataBody(OriginalDataOf(r.content, sections))] else [])
    + (if tab == RawJsonTab then [RawJsonBody] else [])
  }

  /** What the component renders. */
  datatype Screen = Placeholder | Page(resolved: Resolved, bodies: seq<Body>)

  /** A falsy `data` renders only the placeholder and resolves nothing;
      otherwise content, analysis and statistics are resolved and the active
      tab's body is rendered. */
  function Render(data: Json, tab: string, sections: map<string, bool>): (s: Screen)
    ensures s.Placeholder? <==> !Truthy(data)
    ensures s.Page? ==> && s.resolved.content == ContentOf(data)
                        && s.resolved.analysis == AnalysisOf(data)
                        && s.resolved.stats == StatsOf(ContentOf(data))
                        && s.bodies == TabBodies(tab, s.resolved, sections)
                        && |s.bodies| <= 1
  {
    if !Truthy(data) then Placeholder
    else
      var content := ContentOf(data);
      var r := Resolved(content, AnalysisOf(data), StatsOf(content));
      Page(r, TabBodies(tab, r, sections))
  }

  /** `{...prev, [s]: !prev[s]}`. */
  function Toggled(sections: map<string, bool>, s: string): (r: map<string, bool>)
    ensures IsExpanded(r, s) == !IsExpanded(sections, s)
    ensures forall k :: k != s ==> IsExpanded(r, k) == IsExpanded(sections, k)
    ensures r.Keys == sections.Keys + {s}
  {
    sections[s := !IsExpanded(sections, s)]
  }

  /** Toggling a section twice restores every section's expansion, though
      the key, once toggled, stays in the map. */
  lemma ToggleTwice(sections: map<string, bool>, s: string, k: string)
    ensures IsExpanded(Toggled(Toggled(sections, s), s), k) == IsExpanded(sections, k)
  {
  }

  class DataDisplayState {
    var activeTab: string
    var expandedSections: map<string, bool>

    constructor ()
      ensures activeTab == AiAnalysisTab && expandedSections == map[]
    {
      activeTab := AiAnalysisTab;
      expandedSections := map[];
    }

    /** A tab button's `setActiveTab`. */
    method SetActiveTab(tab: string)
      modifies this
      ensures activeTab == tab && expandedSections == old(expandedSections)
    {
      activeTab := tab;
    }

    /** `toggleSection(s)`: flips section `s` and leaves every other section
        and the active tab as they were. */
    method ToggleSection(s: string)
      modifies this
      ensures expandedSections == Toggled(old(expandedSections), s)
      ensures activeTab == old(activeTab)
    {
      expandedSections := Toggled(expandedSections, s);
    }
  }
}
