/**
 * The report page: which view a request id leads to, the values derived from the
 * stored report (company name, counts, the recommendation index keyed by solution
 * id), the roadmap with its step numbers running on across the three phases, and
 * the small text choices the page makes for recommendations and competitors.
 */
module Report {
  import opened Values

  // ---------------------------------------------------------------- loading

  /** What `.select(...).eq("request_id", requestId).single()` returned. */
  datatype QueryOutcome = Found(data: Json) | QueryFailed

  datatype View = ReportNotFound | CouldNotLoad | Loaded(report: Json)

  /** The view shown, and the request id the report was queried with (None when no query was made). */
  datatype PageLoad = PageLoad(queried: Option<string>, view: View)

  /**
   * A missing or empty `requestId` shows "Report not found" without querying; a query
   * error or an empty result shows "We couldn't load your report"; otherwise the
   * report is shown.
   */
  function Load(requestId: Option<string>, query: QueryOutcome): (p: PageLoad)
    ensures p.queried.Some? <==> requestId.Some? && requestId.value != ""
    ensures p.queried.Some? ==> p.queried == requestId
    ensures p.view == ReportNotFound <==> p.queried.None?
    ensures p.view.Loaded? <==> p.queried.Some? && query.Found? && Truthy(Defined(query.data))
    ensures p.view.Loaded? ==> p.view.report == query.data
  {
    if requestId.None? || requestId.value == "" then PageLoad(None, ReportNotFound)
    else if query.QueryFailed? || !Truthy(Defined(query.data)) then PageLoad(requestId, CouldNotLoad)
    else PageLoad(requestId, Loaded(query.data))
  }

  // ---------------------------------------------------------------- derived values

  /** `report.<column>` of the loaded report. */
  function Column(report: Json, key: string): JsValue
  {
    OptField(Defined(report), key)
  }

  /** `business_summary?.company_name ?? "Your business"`: the stored name, even an empty one, unless it is null or absent. */
  function CompanyName(report: Json): (name: JsValue)
    ensures !Nullish(name)
    ensures Nullish(OptField(Column(report, "business_summary"), "company_name")) ==> name == Defined(Str("Your business"))
    ensures !Nullish(OptField(Column(report, "business_summary"), "company_name")) ==>
      name == OptField(Column(report, "business_summary"), "company_name")
  {
    Coalesce(OptField(Column(report, "business_summary"), "company_name"), Defined(Str("Your business")))
  }

  /** The three counts of the page header. */
  datatype Counts = Counts(solutions: nat, quickWins: nat, goals: nat)

  /** Each count is the length of its array, or 0 when the value is absent or not an array. */
  function HeaderCounts(report: Json): (c: Counts)
    ensures c.solutions == |Items(Column(report, "recommendations"))|
    ensures c.quickWins == |Items(OptField(Column(report, "implementation_roadmap"), "quick_wins"))|
    ensures c.goals == |Items(OptField(Column(report, "business_summary"), "key_goals"))|
  {
    Counts(
      ArrayLength(Column(report, "recommendations")),
      ArrayLength(OptField(Column(report, "implementation_roadmap"), "quick_wins")),
      ArrayLength(OptField(Column(report, "business_summary"), "key_goals")))
  }

  /** The elements of an array; nothing for any other value. */
  function Items(x: JsValue): (items: seq<Json>)
    ensures x.Defined? && x.json.Arr? ==> items == x.json.items
    ensures !(x.Defined? && x.json.Arr?) ==> items == []
    ensures |items| == ArrayLength(x)
  {
    if x.Defined? && x.json.Arr? then x.json.items else []
  }

  /** The plural ending after a count: "s" exactly when there is more than one. */
  function Plural(n: int): (suffix: string)
    ensures suffix == "s" <==> n > 1
    ensures suffix == "" <==> n <= 1
  {
    if n > 1 then "s" else ""
  }

  /** The description of a recommendation: `solution_description` when truthy, `problem_opportunity` otherwise. */
  function Description(rec: Json): (d: JsValue)
    requires rec != Null
    ensures Truthy(Field(Defined(rec), "solution_description")) ==> d == Field(Defined(rec), "solution_description")
    ensures !Truthy(Field(Defined(rec), "solution_description")) ==> d == Field(Defined(rec), "problem_opportunity")
    ensures Truthy(d) <==>
      Truthy(Field(Defined(rec), "solution_description")) || Truthy(Field(Defined(rec), "problem_opportunity"))
  {
    var sd := Field(Defined(rec), "solution_description");
    if Truthy(sd) then sd else Field(Defined(rec), "problem_opportunity")
  }

  /** The competitor badge: none for a falsy score, "Advanced AI" exactly for the string "advanced", "Basic AI" otherwise. */
  function CompetitorBadge(score: JsValue): (badge: Option<string>)
    ensures badge.None? <==> !Truthy(score)
    ensures badge == Some("Advanced AI") <==> score == Defined(Str("advanced"))
    ensures badge.Some? && score != Defined(Str("advanced")) ==> badge == Some("Basic AI")
  {
    if !Truthy(score) then None
    else if score == Defined(Str("advanced")) then Some("Advanced AI")
    else Some("Basic AI")
  }

  // ---------------------------------------------------------------- recommendation index

  /** `rec?.solution_id` */
  function SolutionId(rec: Json): JsValue
  {
    OptField(Defined(rec), "solution_id")
  }

  /** The recommendation is indexed under `key`: its solution id is truthy and is `key`. */
  predicate IndexedUnder(rec: Json, key: Json)
  {
    Truthy(SolutionId(rec)) && SolutionId(rec) == Defined(key)
  }

  /** The index after the loop has seen `recs`, one recommendation after another. */
  function IndexOf(recs: seq<Json>): map<Json, Json>
  {
    if recs == [] then map[]
    else
      var index := IndexOf(recs[..|recs| - 1]);
      var rec := recs[|recs| - 1];
      if Truthy(SolutionId(rec)) then index[SolutionId(rec).json := rec] else index
  }

  /**
   * The index holds exactly the solution ids of recommendations that have a truthy
   * one, and under each the last recommendation carrying it.
   */
  lemma {:induction false} IndexContents(recs: seq<Json>, key: Json)
    ensures key in IndexOf(recs) <==> exists i :: 0 <= i < |recs| && IndexedUnder(recs[i], key)
    ensures key in IndexOf(recs) ==>
      exists i :: && 0 <= i < |recs| && IndexedUnder(recs[i], key) && IndexOf(recs)[key] == recs[i]
                  && forall j :: i < j < |recs| ==> !IndexedUnder(recs[j], key)
  {
    if recs != [] {
      var n := |recs| - 1;
      var init := recs[..n];
      IndexContents(init, key);
      assert forall i :: 0 <= i < n ==> init[i] == recs[i];
      if IndexedUnder(recs[n], key) {
        assert IndexOf(recs)[key] == recs[n];
      } else if key in IndexOf(recs) {
        assert key in IndexOf(init) && IndexOf(recs)[key] == IndexOf(init)[key];
        var i :| && 0 <= i < n && IndexedUnder(init[i], key) && IndexOf(init)[key] == init[i]
                 && forall j :: i < j < n ==> !IndexedUnder(init[j], key);
        assert IndexedUnder(recs[i], key) && IndexOf(recs)[key] == recs[i];
      }
    }
  }

  /** The `for (const rec of recommendations)` loop filling `recommendationIndex`. */
  method BuildIndex(recommendations: JsValue) returns (index: map<Json, Json>)
    ensures index == IndexOf(Items(recommendations))
  {
    index := map[];
    if recommendations.Defined? && recommendations.json.Arr? {
      var recs := recommendations.json.items;
      for i := 0 to |recs|
        invariant index == IndexOf(recs[..i])
      {
        assert recs[..i + 1][..i] == recs[..i];
        var rec := recs[i];
        if Truthy(SolutionId(rec)) {
          index := index[SolutionId(rec).json := rec];
        }
      }
      assert recs[..|recs|] == recs;
    }
  }

  // ---------------------------------------------------------------- roadmap

  datatype Phase = QuickWins | MediumTerm | LongTerm

  function PhaseKey(p: Phase): string
  {
    match p
    case QuickWins => "quick_wins"
    case MediumTerm => "medium_term"
    case LongTerm => "long_term"
  }

  /** The items of one phase; nothing when the roadmap is falsy or the phase is not an array. */
  function PhaseItems(roadmap: JsValue, p: Phase): seq<Json>
  {
    if Truthy(roadmap) then Items(Field(roadmap, PhaseKey(p))) else []
  }

  /** The roadmap items in display order: quick wins, then medium term, then long term. */
  function RoadmapItems(roadmap: JsValue): seq<Json>
  {
    PhaseItems(roadmap, QuickWins) + PhaseItems(roadmap, MediumTerm) + PhaseItems(roadmap, LongTerm)
  }

  /** One roadmap entry as shown: its step number, its label and the outcomes listed under it. */
  datatype Line = Line(number: nat, caption: JsValue, outcomes: seq<Json>)

  /** `item.solution_id && recommendationIndex[item.solution_id]` */
  function Linked(index: map<Json, Json>, item: Json): (linked: JsValue)
    requires item != Null
    ensures !Truthy(Field(Defined(item), "solution_id")) ==> linked == Field(Defined(item), "solution_id")
    ensures Truthy(Field(Defined(item), "solution_id")) ==>
      var sid := Field(Defined(item), "solution_id").json;
      linked == if sid in index then Defined(index[sid]) else Undefined
  {
    var sid := Field(Defined(item), "solution_id");
    if !Truthy(sid) then sid
    else if sid.json in index then Defined(index[sid.json])
    else Undefined
  }

  /**
   * The entry for one item: the label is the linked recommendation's title, or the
   * item's solution id when there is no linked recommendation or it has no title;
   * at most the first two expected outcomes of the linked recommendation are listed.
   */
  function LineFor(index: map<Json, Json>, item: Json, number: nat): (line: Line)
    requires item != Null
    ensures line.number == number
    ensures !Nullish(OptField(Linked(index, item), "title")) ==> line.caption == OptField(Linked(index, item), "title")
    ensures Nullish(OptField(Linked(index, item), "title")) ==> line.caption == Field(Defined(item), "solution_id")
    ensures |line.outcomes| <= 2
    ensures
      var outcomes := Items(OptField(OptField(Linked(index, item), "business_impact"), "expected_outcomes"));
      |line.outcomes| == (if |outcomes| < 2 then |outcomes| else 2) && line.outcomes == outcomes[..|line.outcomes|]
  {
    var linked := Linked(index, item);
    var outcomes := Items(OptField(OptField(linked, "business_impact"), "expected_outcomes"));
    var caption := Coalesce(OptField(linked, "title"), Field(Defined(item), "solution_id"));
    Line(number, caption, if |outcomes| < 2 then outcomes else outcomes[..2])
  }

  /** The rendered roadmap, or the TypeError thrown by `item.solution_id` on a null item. */
  datatype Roadmap = Rendered(lines: seq<Line>) | RenderThrows

  /** One `map` pass over a phase's items, taking numbers from the shared counter `roadmapStep`. */
  method RenderPhase(index: map<Json, Json>, items: seq<Json>, step: nat) returns (r: Roadmap, next: nat)
    ensures r.RenderThrows? <==> Null in items
    ensures r.Rendered? ==>
      && |r.lines| == |items| && next == step + |items|
      && forall i :: 0 <= i < |items| ==> r.lines[i] == LineFor(index, items[i], step + i)
  {
    var lines: seq<Line> := [];
    next := step;
    for i := 0 to |items|
      invariant Null !in items[..i]
      invariant |lines| == i && next == step + i
      invariant forall k :: 0 <= k < i ==> lines[k] == LineFor(index, items[k], step + k)
    {
      if items[i] == Null {
        return RenderThrows, next;
      }
      assert items[..i + 1] == items[..i] + [items[i]];
      lines := lines + [LineFor(index, items[i], next)];
      next := next + 1;
    }
    assert items[..|items|] == items;
    r := Rendered(lines);
  }

  /**
   * The roadmap section: nothing for a falsy roadmap; otherwise the three phases in
   * order, numbered 1, 2, 3, ... consecutively across all of them, each entry
   * derived from its item. A null item anywhere makes the page throw.
   */
  method RenderRoadmap(index: map<Json, Json>, roadmap: JsValue) returns (r: Roadmap)
    ensures r.RenderThrows? <==> Null in RoadmapItems(roadmap)
    ensures r.Rendered? ==>
      && |r.lines| == |RoadmapItems(roadmap)|
      && forall i :: 0 <= i < |r.lines| ==> r.lines[i] == LineFor(index, RoadmapItems(roadmap)[i], i + 1)
  {
    if !Truthy(roadmap) {
      return Rendered([]);
    }
    var quick := PhaseItems(roadmap, QuickWins);
    var medium := PhaseItems(roadmap, MediumTerm);
    var long := PhaseItems(roadmap, LongTerm);
    assert RoadmapItems(roadmap) == quick + medium + long;
    var roadmapStep := 1;
    var r1, r2, r3;
    r1, roadmapStep := RenderPhase(index, quick, roadmapStep);
    if r1.RenderThrows? {
      return RenderThrows;
    }
    r2, roadmapStep := RenderPhase(index, medium, roadmapStep);
    if r2.RenderThrows? {
      return RenderThrows;
    }
    r3, roadmapStep := RenderPhase(index, long, roadmapStep);
    if r3.RenderThrows? {
      return RenderThrows;
    }
    r := Rendered(r1.lines + r2.lines + r3.lines);
    forall i | 0 <= i < |r.lines|
      ensures r.lines[i] == LineFor(index, RoadmapItems(roadmap)[i], i + 1)
    {
      if i < |quick| {
      } else if i < |quick| + |medium| {
        assert r.lines[i] == r2.lines[i - |quick|];
      } else {
        assert r.lines[i] == r3.lines[i - |quick| - |medium|];
      }
    }
  }

  /** A phase's first entry is numbered one past the entries of the phases before it. */
  lemma PhaseNumbering(index: map<Json, Json>, roadmap: JsValue, lines: seq<Line>)
    requires Null !in RoadmapItems(roadmap) && |lines| == |RoadmapItems(roadmap)|
    requires forall i :: 0 <= i < |lines| ==> lines[i] == LineFor(index, RoadmapItems(roadmap)[i], i + 1)
    ensures PhaseItems(roadmap, MediumTerm) != [] ==>
      lines[|PhaseItems(roadmap, QuickWins)|].number == |PhaseItems(roadmap, QuickWins)| + 1
    ensures PhaseItems(roadmap, LongTerm) != [] ==>
      lines[|PhaseItems(roadmap, QuickWins)| + |PhaseItems(roadmap, MediumTerm)|].number
        == |PhaseItems(roadmap, QuickWins)| + |PhaseItems(roadmap, MediumTerm)| + 1
    ensures forall i :: 0 <= i < |lines| ==> lines[i].number == i + 1
  {
  }
}
