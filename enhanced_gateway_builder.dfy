/**
 * Trend analysis over scraped ideas and the suggestion logic of the enhanced builder:
 * technology frequencies, the difficulty distribution, the three fixed emerging patterns,
 * the recommendation list, the first-match tech-stack lookup, and the one-hour cache of
 * scraped ideas. Scraping itself and the clock are inputs.
 */
module EnhancedGatewayBuilder {
  import opened Wrappers
  import opened Dicts
  import opened PyText
  import opened Seqs
  import opened Counting
  import opened WebScraper

  // ---------------------------------------------------------------------------------------
  // Technology trends
  // ---------------------------------------------------------------------------------------

  /** The lower-cased technology entries of all ideas, in order. */
  function TechEntries(ideas: seq<ScrapedIdea>): seq<string> {
    LoweredWords(TechLists(ideas))
  }

  /** The technology frequency table, most frequent first. */
  function TechTrends(ideas: seq<ScrapedIdea>): Counts {
    SortDesc(TallyOf(TechEntries(ideas)))
  }

  /**
   * `_analyze_tech_trends`. Rebuilding a dictionary from the sorted items keeps their order,
   * since the keys are distinct.
   */
  method AnalyzeTechTrends(ideas: seq<ScrapedIdea>) returns (trends: Counts)
    ensures trends == TechTrends(ideas)
  {
    var techCounts := CountLowered(TechLists(ideas));
    trends := SortDesc(techCounts);
  }

  /**
   * Each lower-cased technology appears once, with its number of occurrences; the table is
   * ordered by non-increasing count, equal counts in first-seen order, and the counts add up
   * to the number of technology entries.
   */
  lemma TechTrendsCorrect(ideas: seq<ScrapedIdea>)
    ensures NonIncreasing(TechTrends(ideas))
    ensures DistinctKeys(TechTrends(ideas))
    ensures forall e :: e in TechTrends(ideas) ==> e.0 in TechEntries(ideas) && e.1 == Occurrences(TechEntries(ideas), e.0)
    ensures forall w :: w in TechEntries(ideas) ==> w in Keys(TechTrends(ideas))
    ensures forall c :: WithCount(TechTrends(ideas), c) == WithCount(TallyOf(TechEntries(ideas)), c)
    ensures Total(TechTrends(ideas)) == |TechEntries(ideas)|
  {
    TechTrendsTop(ideas);
    TechTrendsCover(ideas);
    var ws := TechEntries(ideas);
    TallyTotal(ws);
    TotalSorted(TallyOf(ws));
  }

  /** The trends are the whole of `Top` over the technology entries. */
  lemma TechTrendsTop(ideas: seq<ScrapedIdea>)
    ensures TechTrends(ideas) == Top(TechEntries(ideas), |TallyOf(TechEntries(ideas))|)
    ensures NonIncreasing(TechTrends(ideas))
    ensures DistinctKeys(TechTrends(ideas))
    ensures forall e :: e in TechTrends(ideas) ==> e.0 in TechEntries(ideas) && e.1 == Occurrences(TechEntries(ideas), e.0)
    ensures forall c :: WithCount(TechTrends(ideas), c) == WithCount(TallyOf(TechEntries(ideas)), c)
    ensures multiset(TechTrends(ideas)) == multiset(TallyOf(TechEntries(ideas)))
  {
    var ws := TechEntries(ideas);
    var tally := TallyOf(ws);
    SortDescCorrect(tally);
    assert |SortDesc(tally)| == |multiset(SortDesc(tally))| == |tally|;
    TopCorrect(ws, |tally|);
  }

  /** Every technology entry has its trend. */
  lemma TechTrendsCover(ideas: seq<ScrapedIdea>)
    ensures forall w :: w in TechEntries(ideas) ==> w in Keys(TechTrends(ideas))
  {
    var ws := TechEntries(ideas);
    var tally := TallyOf(ws);
    TechTrendsTop(ideas);
    TallyKeys(ws);
    FirstSeenMembers(ws);
    forall w | w in ws ensures w in Keys(TechTrends(ideas)) {
      assert w in Keys(tally);
      var i :| 0 <= i < |tally| && Keys(tally)[i] == w;
      assert tally[i] in multiset(TechTrends(ideas));
      var j :| 0 <= j < |TechTrends(ideas)| && TechTrends(ideas)[j] == tally[i];
      assert Keys(TechTrends(ideas))[j] == w;
    }
  }

  // ---------------------------------------------------------------------------------------
  // Difficulty distribution
  // ---------------------------------------------------------------------------------------

  /** The beginner, intermediate and advanced counts, or the `KeyError` of the first unknown level. */
  function LevelCounts(ideas: seq<ScrapedIdea>): Result<(int, int, int)>
    decreases |ideas|
  {
    if ideas == [] then Success((0, 0, 0))
    else
      match LevelCounts(ideas[..|ideas| - 1])
      case Failure(e) => Failure(e)
      case Success(c) =>
        var d := ideas[|ideas| - 1].difficulty;
        if d == "beginner" then Success((c.0 + 1, c.1, c.2))
        else if d == "intermediate" then Success((c.0, c.1 + 1, c.2))
        else if d == "advanced" then Success((c.0, c.1, c.2 + 1))
        else Failure(KeyError(d))
  }

  function DistributionOf(ideas: seq<ScrapedIdea>): Result<Counts> {
    match LevelCounts(ideas)
    case Failure(e) => Failure(e)
    case Success(c) => Success([("beginner", c.0), ("intermediate", c.1), ("advanced", c.2)])
  }

  /** `_analyze_difficulty_distribution`. */
  method AnalyzeDifficultyDistribution(ideas: seq<ScrapedIdea>) returns (r: Result<Counts>)
    ensures r == DistributionOf(ideas)
  {
    var beginner, intermediate, advanced := 0, 0, 0;
    var i := 0;
    while i < |ideas|
      invariant 0 <= i <= |ideas|
      invariant LevelCounts(ideas[..i]) == Success((beginner, intermediate, advanced))
    {
      var d := ideas[i].difficulty;
      assert ideas[..i + 1][..i] == ideas[..i];
      if d == "beginner" {
        beginner := beginner + 1;
      } else if d == "intermediate" {
        intermediate := intermediate + 1;
      } else if d == "advanced" {
        advanced := advanced + 1;
      } else {
        LevelCountsFailureSticks(ideas, i + 1);
        return Failure(KeyError(d));
      }
      i := i + 1;
    }
    assert ideas[..i] == ideas;
    r := Success([("beginner", beginner), ("intermediate", intermediate), ("advanced", advanced)]);
  }

  lemma {:induction false} LevelCountsFailureSticks(ideas: seq<ScrapedIdea>, k: nat)
    requires k <= |ideas| && LevelCounts(ideas[..k]).Failure?
    ensures LevelCounts(ideas) == LevelCounts(ideas[..k])
    decreases |ideas| - k
  {
    if k < |ideas| {
      assert ideas[..k + 1][..k] == ideas[..k];
      LevelCountsFailureSticks(ideas, k + 1);
    } else {
      assert ideas[..k] == ideas;
    }
  }

  /** The counts are the sizes of the report's difficulty buckets, and the errors agree. */
  lemma {:induction false} LevelCountsAreBucketSizes(ideas: seq<ScrapedIdea>)
    ensures LevelCounts(ideas).Success? <==> Categorized(ideas).Success?
    ensures LevelCounts(ideas).Failure? ==> LevelCounts(ideas).error == Categorized(ideas).error
    ensures LevelCounts(ideas).Success? ==>
      var b := Categorized(ideas).value;
      LevelCounts(ideas).value == (|b.beginner|, |b.intermediate|, |b.advanced|)
    decreases |ideas|
  {
    if ideas != [] {
      LevelCountsAreBucketSizes(ideas[..|ideas| - 1]);
    }
  }

  /** The distribution exists exactly when every level is known. */
  lemma DistributionSucceeds(ideas: seq<ScrapedIdea>)
    ensures DistributionOf(ideas).Success? <==> forall x :: x in ideas ==> x.difficulty in Levels
  {
    LevelCountsAreBucketSizes(ideas);
    CategorizedSucceeds(ideas);
  }

  /**
   * The distribution has the three level keys in order, each with the number of ideas of that
   * level, adding up to the number of ideas.
   */
  lemma DistributionCounts(ideas: seq<ScrapedIdea>)
    requires DistributionOf(ideas).Success?
    ensures Keys(DistributionOf(ideas).value) == Levels
    ensures forall k :: 0 <= k < 3 ==> DistributionOf(ideas).value[k].1 == |Bucket(ideas, Levels[k])|
    ensures Total(DistributionOf(ideas).value) == |ideas|
  {
    DistributionSizes(ideas);
    DistributionTotal(ideas);
  }

  lemma DistributionSizes(ideas: seq<ScrapedIdea>)
    requires DistributionOf(ideas).Success?
    ensures Keys(DistributionOf(ideas).value) == Levels
    ensures forall k :: 0 <= k < 3 ==> DistributionOf(ideas).value[k].1 == |Bucket(ideas, Levels[k])|
  {
    LevelCountsAreBucketSizes(ideas);
    CategorizedBuckets(ideas);
  }

  lemma DistributionTotal(ideas: seq<ScrapedIdea>)
    requires DistributionOf(ideas).Success?
    ensures Total(DistributionOf(ideas).value) == |ideas|
  {
    DistributionSucceeds(ideas);
    DistributionSizes(ideas);
    BucketsPartition(ideas);
    var d := DistributionOf(ideas).value;
    TotalThree(d);
    var b, m, a := multiset(Bucket(ideas, "beginner")), multiset(Bucket(ideas, "intermediate")),
      multiset(Bucket(ideas, "advanced"));
    assert d[0].1 + d[1].1 + d[2].1 == |b| + |m| + |a|;
    assert |b + m + a| == |b| + |m| + |a|;
    assert |multiset(ideas)| == |ideas|;
  }

  /** A failed distribution names the first unknown level. */
  lemma DistributionError(ideas: seq<ScrapedIdea>)
    requires DistributionOf(ideas).Failure?
    ensures exists i :: 0 <= i < |ideas| && ideas[i].difficulty !in Levels &&
                        DistributionOf(ideas).error == KeyError(ideas[i].difficulty) &&
                        forall j :: 0 <= j < i ==> ideas[j].difficulty in Levels
  {
    LevelCountsAreBucketSizes(ideas);
    CategorizedError(ideas);
  }

  lemma TotalThree(d: Counts)
    requires |d| == 3
    ensures Total(d) == d[0].1 + d[1].1 + d[2].1
  {
    var t := d[1..];
    var u := t[1..];
    assert u[1..] == [];
    assert Total(u) == u[0].1 + Total(u[1..]);
    assert Total(t) == t[0].1 + Total(u);
  }

  // ---------------------------------------------------------------------------------------
  // Emerging patterns
  // ---------------------------------------------------------------------------------------

  /** A theme the analyser looks for: ideas carrying one of its tags exactly. */
  datatype Theme = Theme(name: string, description: string, tags: seq<string>, tech: seq<string>)

  datatype Pattern = Pattern(pattern: string, description: string, count: int, examples: seq<string>,
                             recommendedTech: seq<string>)

  const AiTheme := Theme("AI/ML Integration", "Growing trend of AI-powered applications",
    ["ai", "ml", "machine learning", "artificial intelligence"], ["Python", "TensorFlow", "React", "Node.js"])
  const ProductivityTheme := Theme("Productivity Tools", "High demand for productivity and utility applications",
    ["productivity", "tool", "utility"], ["JavaScript", "React", "Electron", "PWA"])
  const WebTheme := Theme("Modern Web Development", "Preference for modern web frameworks and architectures",
    ["web", "frontend", "backend", "fullstack"], ["React", "Vue", "Angular", "Node.js", "TypeScript"])

  /** The themes in the order they are checked. */
  const Themes: seq<Theme> := [AiTheme, ProductivityTheme, WebTheme]

  /** The ideas carrying one of `tags`, in order. */
  function Matching(ideas: seq<ScrapedIdea>, tags: seq<string>): (r: seq<ScrapedIdea>)
    ensures forall x :: x in r <==> x in ideas && exists t :: t in tags && t in x.tags
    ensures |r| <= |ideas|
    decreases |ideas|
  {
    if ideas == [] then []
    else
      var init := ideas[..|ideas| - 1];
      var x := ideas[|ideas| - 1];
      assert ideas == init + [x];
      Matching(init, tags) + (if AnyListed(tags, x.tags) then [x] else [])
  }

  function TitlesOf(ideas: seq<ScrapedIdea>): (r: seq<string>)
    ensures |r| == |ideas| && forall i :: 0 <= i < |ideas| ==> r[i] == ideas[i].title
  {
    seq(|ideas|, i requires 0 <= i < |ideas| => ideas[i].title)
  }

  /** The pattern a theme yields, when at least one idea matches it. */
  function Detect(theme: Theme, ideas: seq<ScrapedIdea>): Option<Pattern> {
    var matched := Matching(ideas, theme.tags);
    if matched == [] then None
    else Some(Pattern(theme.name, theme.description, |matched|, TitlesOf(PyTake(matched, 3)), theme.tech))
  }

  function PatternsFor(themes: seq<Theme>, ideas: seq<ScrapedIdea>): seq<Pattern>
    decreases |themes|
  {
    if themes == [] then []
    else
      PatternsFor(themes[..|themes| - 1], ideas) +
        (match Detect(themes[|themes| - 1], ideas) case Some(p) => [p] case None => [])
  }

  /** `_identify_emerging_patterns`. */
  method IdentifyEmergingPatterns(ideas: seq<ScrapedIdea>) returns (patterns: seq<Pattern>)
    ensures patterns == PatternsFor(Themes, ideas)
  {
    patterns := [];
    var aiIdeas := Matching(ideas, AiTheme.tags);
    if aiIdeas != [] {
      patterns := patterns + [Pattern(AiTheme.name, AiTheme.description, |aiIdeas|,
                                      TitlesOf(PyTake(aiIdeas, 3)), AiTheme.tech)];
    }
    assert Themes[..1][..0] == [];
    assert patterns == PatternsFor(Themes[..1], ideas);
    var productivityIdeas := Matching(ideas, ProductivityTheme.tags);
    if productivityIdeas != [] {
      patterns := patterns + [Pattern(ProductivityTheme.name, ProductivityTheme.description, |productivityIdeas|,
                                      TitlesOf(PyTake(productivityIdeas, 3)), ProductivityTheme.tech)];
    }
    assert Themes[..2][..1] == Themes[..1];
    assert patterns == PatternsFor(Themes[..2], ideas);
    var webIdeas := Matching(ideas, WebTheme.tags);
    if webIdeas != [] {
      patterns := patterns + [Pattern(WebTheme.name, WebTheme.description, |webIdeas|,
                                      TitlesOf(PyTake(webIdeas, 3)), WebTheme.tech)];
    }
    assert Themes[..3][..2] == Themes[..2];
    assert Themes[..3] == Themes;
  }

  ghost function Names(patterns: seq<Pattern>): seq<string> {
    seq(|patterns|, i requires 0 <= i < |patterns| => patterns[i].pattern)
  }

  ghost function ThemeNames(themes: seq<Theme>): seq<string> {
    seq(|themes|, i requires 0 <= i < |themes| => themes[i].name)
  }

  /** One pattern at most per theme, in theme order. */
  lemma {:induction false} PatternsInOrder(themes: seq<Theme>, ideas: seq<ScrapedIdea>)
    ensures |PatternsFor(themes, ideas)| <= |themes|
    ensures IsSubsequence(Names(PatternsFor(themes, ideas)), ThemeNames(themes))
    decreases |themes|
  {
    if themes != [] {
      var init := themes[..|themes| - 1];
      var th := themes[|themes| - 1];
      var ps := PatternsFor(init, ideas);
      PatternsInOrder(init, ideas);
      ThemeNamesAppend(init, th);
      assert init + [th] == themes;
      PatternsStep(themes, ideas);
    }
  }

  lemma PatternsStep(themes: seq<Theme>, ideas: seq<ScrapedIdea>)
    requires themes != []
    requires IsSubsequence(Names(PatternsFor(themes[..|themes| - 1], ideas)), ThemeNames(themes[..|themes| - 1]))
    requires ThemeNames(themes) == ThemeNames(themes[..|themes| - 1]) + [themes[|themes| - 1].name]
    ensures IsSubsequence(Names(PatternsFor(themes, ideas)), ThemeNames(themes))
  {
    var init := themes[..|themes| - 1];
    var th := themes[|themes| - 1];
    var ps := PatternsFor(init, ideas);
    var d := Detect(th, ideas);
    if d.Some? {
      assert PatternsFor(themes, ideas) == ps + [d.value];
      DetectName(th, ideas);
      NamesAppend(ps, d.value);
      assert Names(PatternsFor(themes, ideas)) == Names(ps) + [th.name];
      SubsequenceBoth(Names(ps), ThemeNames(init), th.name);
    } else {
      assert PatternsFor(themes, ideas) == ps;
      SubsequenceExtend(Names(ps), ThemeNames(init), th.name);
    }
  }

  lemma DetectName(th: Theme, ideas: seq<ScrapedIdea>)
    requires Detect(th, ideas).Some?
    ensures Detect(th, ideas).value.pattern == th.name
  {
  }

  lemma NamesAppend(ps: seq<Pattern>, p: Pattern)
    ensures Names(ps + [p]) == Names(ps) + [p.pattern]
  {
  }

  lemma ThemeNamesAppend(themes: seq<Theme>, th: Theme)
    ensures ThemeNames(themes + [th]) == ThemeNames(themes) + [th.name]
  {
  }

  /** Every pattern is what its theme detects, and every theme detected gives its pattern. */
  lemma {:induction false} PatternsDetected(themes: seq<Theme>, ideas: seq<ScrapedIdea>)
    ensures forall p :: p in PatternsFor(themes, ideas) ==> exists th :: th in themes && Detect(th, ideas) == Some(p)
    ensures forall th :: th in themes && Detect(th, ideas).Some? ==> Detect(th, ideas).value in PatternsFor(themes, ideas)
    decreases |themes|
  {
    if themes != [] {
      var init := themes[..|themes| - 1];
      var th := themes[|themes| - 1];
      PatternsDetected(init, ideas);
      assert themes == init + [th];
    }
  }

  /** At most three patterns, named in the order AI/ML, productivity, web. */
  lemma PatternsOrdered(ideas: seq<ScrapedIdea>)
    ensures |PatternsFor(Themes, ideas)| <= 3
    ensures IsSubsequence(Names(PatternsFor(Themes, ideas)), ["AI/ML Integration", "Productivity Tools", "Modern Web Development"])
  {
    PatternsInOrder(Themes, ideas);
    assert ThemeNames(Themes) == ["AI/ML Integration", "Productivity Tools", "Modern Web Development"];
  }

  /** No two themes share a name. */
  lemma ThemeNamed(th: Theme, th': Theme)
    requires th in Themes && th' in Themes && th.name == th'.name
    ensures th == th'
  {
  }

  /** A theme gives a pattern exactly when some idea carries one of its tags. */
  lemma PatternPresent(ideas: seq<ScrapedIdea>, th: Theme)
    requires th in Themes
    ensures (exists p :: p in PatternsFor(Themes, ideas) && p.pattern == th.name) <==>
            (exists x :: x in ideas && exists t :: t in th.tags && t in x.tags)
  {
    var ps := PatternsFor(Themes, ideas);
    PatternsDetected(Themes, ideas);
    var m := Matching(ideas, th.tags);
    if exists x :: x in ideas && exists t :: t in th.tags && t in x.tags {
      var x :| x in ideas && exists t :: t in th.tags && t in x.tags;
      assert x in m;
      DetectName(th, ideas);
      assert Detect(th, ideas).value in ps;
    }
    if p :| p in ps && p.pattern == th.name {
      var th' :| th' in Themes && Detect(th', ideas) == Some(p);
      DetectName(th', ideas);
      ThemeNamed(th, th');
      assert m[0] in m;
    }
  }

  /** Each pattern counts the ideas carrying one of its theme's tags and cites the first three. */
  lemma PatternCounts(ideas: seq<ScrapedIdea>, p: Pattern)
    requires p in PatternsFor(Themes, ideas)
    ensures exists th :: (th in Themes && p.pattern == th.name && p.description == th.description &&
                          p.count == |Matching(ideas, th.tags)| && p.count >= 1 &&
                          p.examples == TitlesOf(Take(Matching(ideas, th.tags), 3)) && p.recommendedTech == th.tech)
  {
    PatternsDetected(Themes, ideas);
    var th :| th in Themes && Detect(th, ideas) == Some(p);
    var m := Matching(ideas, th.tags);
    assert PyTake(m, 3) == Take(m, 3);
  }

  // ---------------------------------------------------------------------------------------
  // Recommendations
  // ---------------------------------------------------------------------------------------

  /** `max(items, key=count)`: the first entry with the largest count. */
  function FirstMax(es: seq<Entry>): (r: Entry)
    requires es != []
    ensures r in es
    ensures forall e :: e in es ==> e.1 <= r.1
    decreases |es|
  {
    if |es| == 1 then
      es[0]
    else
      var m := FirstMax(es[1..]);
      assert forall e :: e in es ==> e == es[0] || e in es[1..];
      if es[0].1 >= m.1 then es[0] else m
  }

  /** Among entries of the largest count, `max` picks the first one. */
  lemma {:induction false} FirstMaxIsFirst(es: seq<Entry>)
    requires es != []
    ensures exists i :: 0 <= i < |es| && es[i] == FirstMax(es) && forall j :: 0 <= j < i ==> es[j].1 < FirstMax(es).1
    decreases |es|
  {
    if |es| == 1 {
      assert es[0] == FirstMax(es);
    } else {
      var m := FirstMax(es[1..]);
      if es[0].1 >= m.1 {
        assert es[0] == FirstMax(es);
      } else {
        FirstMaxIsFirst(es[1..]);
        var i :| 0 <= i < |es[1..]| && es[1..][i] == m && forall j :: 0 <= j < i ==> es[1..][j].1 < m.1;
        assert es[i + 1] == m;
        forall j | 0 <= j < i + 1 ensures es[j].1 < m.1 {
          if j > 0 {
            assert es[j] == es[1..][j - 1];
          }
        }
      }
    }
  }

  /** In a table sorted by non-increasing count the first maximum is the first entry. */
  lemma FirstMaxOfSorted(es: seq<Entry>)
    requires es != [] && NonIncreasing(es)
    ensures FirstMax(es) == es[0]
  {
  }

  function FocusOn(top: Entry): string {
    "Focus on " + Title(top.0) + " - it's trending with " + IntToString(top.1) + " projects"
  }

  function ConsiderBuilding(p: Pattern): string {
    "Consider building " + p.pattern + " apps - " + p.description
  }

  const StartBeginner: string := "Start with beginner-friendly projects to build confidence"
  const GrowAdvanced: string := "Gradually incorporate advanced technologies as skills develop"

  function RecommendationsOf(techTrends: Counts, patterns: seq<Pattern>): seq<string> {
    (if techTrends == [] then [] else [FocusOn(FirstMax(techTrends))]) +
    seq(|patterns|, i requires 0 <= i < |patterns| => ConsiderBuilding(patterns[i])) +
    [StartBeginner, GrowAdvanced]
  }

  /** `_generate_recommendations`. */
  method GenerateRecommendations(techTrends: Counts, patterns: seq<Pattern>) returns (recommendations: seq<string>)
    ensures recommendations == RecommendationsOf(techTrends, patterns)
  {
    recommendations := [];
    if techTrends != [] {
      var topTech := FirstMax(techTrends);
      recommendations := recommendations + [FocusOn(topTech)];
    }
    ghost var lead := recommendations;
    var i := 0;
    while i < |patterns|
      invariant 0 <= i <= |patterns|
      invariant recommendations == lead + seq(i, k requires 0 <= k < i => ConsiderBuilding(patterns[k]))
    {
      recommendations := recommendations + [ConsiderBuilding(patterns[i])];
      i := i + 1;
    }
    recommendations := recommendations + [StartBeginner];
    recommendations := recommendations + [GrowAdvanced];
  }

  /**
   * One recommendation for the top technology when there is one, one per pattern in order,
   * then the two fixed ones about beginner and advanced projects.
   */
  lemma RecommendationsShape(techTrends: Counts, patterns: seq<Pattern>)
    ensures var r := RecommendationsOf(techTrends, patterns);
      var lead := if techTrends == [] then 0 else 1;
      |r| == lead + |patterns| + 2 &&
      (techTrends != [] ==> r[0] == FocusOn(FirstMax(techTrends))) &&
      (forall i :: 0 <= i < |patterns| ==> r[lead + i] == ConsiderBuilding(patterns[i])) &&
      r[|r| - 2] == StartBeginner && r[|r| - 1] == GrowAdvanced
  {
    RecommendationsEnds(techTrends, patterns);
    RecommendationsMiddle(techTrends, patterns);
  }

  lemma RecommendationsEnds(techTrends: Counts, patterns: seq<Pattern>)
    ensures var r := RecommendationsOf(techTrends, patterns);
      |r| == (if techTrends == [] then 0 else 1) + |patterns| + 2 &&
      (techTrends != [] ==> r[0] == FocusOn(FirstMax(techTrends))) &&
      r[|r| - 2] == StartBeginner && r[|r| - 1] == GrowAdvanced
  {
    var head := if techTrends == [] then [] else [FocusOn(FirstMax(techTrends))];
    var middle := seq(|patterns|, i requires 0 <= i < |patterns| => ConsiderBuilding(patterns[i]));
    assert RecommendationsOf(techTrends, patterns) == head + middle + [StartBeginner, GrowAdvanced];
  }

  lemma RecommendationsMiddle(techTrends: Counts, patterns: seq<Pattern>)
    ensures var r := RecommendationsOf(techTrends, patterns);
      var lead := if techTrends == [] then 0 else 1;
      |r| == lead + |patterns| + 2 &&
      forall i :: 0 <= i < |patterns| ==> r[lead + i] == ConsiderBuilding(patterns[i])
  {
    var head := if techTrends == [] then [] else [FocusOn(FirstMax(techTrends))];
    var middle := seq(|patterns|, i requires 0 <= i < |patterns| => ConsiderBuilding(patterns[i]));
    var r := head + middle + [StartBeginner, GrowAdvanced];
    assert RecommendationsOf(techTrends, patterns) == r;
    forall i | 0 <= i < |patterns| ensures r[|head| + i] == ConsiderBuilding(patterns[i]) {
      assert r[|head| + i] == middle[i];
    }
  }

  // ---------------------------------------------------------------------------------------
  // Trend analysis
  // ---------------------------------------------------------------------------------------

  datatype Trends = Trends(technologyTrends: Counts, difficultyDistribution: Counts, emergingPatterns: seq<Pattern>)

  /** What `analyze_trends` returns, without its date; `trends` is `None` for no ideas. */
  datatype Analysis = Analysis(trends: Option<Trends>, recommendations: seq<string>)

  function AnalysisOf(ideas: seq<ScrapedIdea>): Result<Analysis> {
    if ideas == [] then Success(Analysis(None, []))
    else
      match DistributionOf(ideas)
      case Failure(e) => Failure(e)
      case Success(d) =>
        var t := TechTrends(ideas);
        var p := PatternsFor(Themes, ideas);
        Success(Analysis(Some(Trends(t, d, p)), RecommendationsOf(t, p)))
  }

  /** `analyze_trends`. */
  method AnalyzeTrends(ideas: seq<ScrapedIdea>) returns (r: Result<Analysis>)
    ensures r == AnalysisOf(ideas)
  {
    if ideas == [] {
      return Success(Analysis(None, []));
    }
    var techTrends := AnalyzeTechTrends(ideas);
    var distribution := AnalyzeDifficultyDistribution(ideas);
    if distribution.Failure? {
      return Failure(distribution.error);
    }
    var patterns := IdentifyEmergingPatterns(ideas);
    var recommendations := GenerateRecommendations(techTrends, patterns);
    r := Success(Analysis(Some(Trends(techTrends, distribution.value, patterns)), recommendations));
  }

  /**
   * No ideas, no trends and no recommendations. Otherwise the analysis exists exactly when
   * every level is known; it then recommends first the most frequent technology when any idea
   * lists one, one item per pattern, and the two fixed ones: at least two in all.
   */
  lemma AnalysisFacts(ideas: seq<ScrapedIdea>)
    ensures ideas == [] ==> AnalysisOf(ideas) == Success(Analysis(None, []))
    ensures ideas != [] ==> (AnalysisOf(ideas).Success? <==> forall x :: x in ideas ==> x.difficulty in Levels)
    ensures ideas != [] && AnalysisOf(ideas).Success? ==>
      var a := AnalysisOf(ideas).value;
      var lead := if TechEntries(ideas) == [] then 0 else 1;
      a.trends.Some? &&
      |a.recommendations| == lead + |a.trends.value.emergingPatterns| + 2 &&
      (TechEntries(ideas) != [] ==> a.recommendations[0] == FocusOn(TechTrends(ideas)[0]))
  {
    DistributionSucceeds(ideas);
    if ideas != [] && AnalysisOf(ideas).Success? {
      var t := TechTrends(ideas);
      TechTrendsCorrect(ideas);
      RecommendationsShape(t, PatternsFor(Themes, ideas));
      if TechEntries(ideas) != [] {
        assert TechEntries(ideas)[0] in Keys(t);
        FirstMaxOfSorted(t);
      }
    }
  }

  // ---------------------------------------------------------------------------------------
  // Tech-stack lookup
  // ---------------------------------------------------------------------------------------

  /** Stacks by key, in the order the keys are tried. */
  const TechStacks: seq<(string, seq<string>)> := [
    ("react", ["React", "Node.js", "Express", "MongoDB"]),
    ("python", ["Python", "Flask/Django", "PostgreSQL", "React/Vue"]),
    ("ai", ["Python", "TensorFlow/PyTorch", "React", "FastAPI"]),
    ("productivity", ["JavaScript", "React", "Electron", "PWA"]),
    ("web", ["React/Vue/Angular", "Node.js", "Express", "PostgreSQL"])]

  const DefaultStack: seq<string> := ["React", "Node.js", "Express", "MongoDB"]

  /** The stack of the first key occurring in `text`, else the default one. */
  function StackFor(table: seq<(string, seq<string>)>, text: string): seq<string>
    decreases |table|
  {
    if table == [] then DefaultStack
    else if Contains(text, table[0].0) then table[0].1
    else StackFor(table[1..], text)
  }

  /** The lookup picks the stack of the first key occurring in `text`, or the default when none does. */
  lemma {:induction false} StackForFirstMatch(table: seq<(string, seq<string>)>, text: string)
    ensures (exists i :: 0 <= i < |table| && Contains(text, table[i].0) && StackFor(table, text) == table[i].1 &&
                         forall j :: 0 <= j < i ==> !Contains(text, table[j].0))
         || ((forall j :: 0 <= j < |table| ==> !Contains(text, table[j].0)) && StackFor(table, text) == DefaultStack)
    decreases |table|
  {
    if table != [] && !Contains(text, table[0].0) {
      StackForFirstMatch(table[1..], text);
      assert forall j :: 0 < j < |table| ==> table[j] == table[1..][j - 1];
      if i :| 0 <= i < |table[1..]| && Contains(text, table[1..][i].0) && StackFor(table[1..], text) == table[1..][i].1 &&
              forall j :: 0 <= j < i ==> !Contains(text, table[1..][j].0) {
        assert Contains(text, table[i + 1].0) && StackFor(table, text) == table[i + 1].1;
      }
    }
  }

  /** `_get_recommended_tech_stack`. */
  function RecommendedTechStack(recommendation: string): seq<string> {
    StackFor(TechStacks, Lower(recommendation))
  }

  // ---------------------------------------------------------------------------------------
  // Suggestions and the cache of scraped ideas
  // ---------------------------------------------------------------------------------------

  datatype ProjectIdea = ProjectIdea(
    id: int,
    title: string,
    description: string,
    difficulty: string,
    techStack: seq<string>,
    inspiration: string,
    estimatedTime: string)

  /** The suggestion built from the `i`-th (from zero) recommendation. */
  function SuggestionAt(i: nat, recommendation: string): ProjectIdea {
    ProjectIdea(i + 1, "Trend-Based Project " + IntToString(i + 1), recommendation, "intermediate",
                RecommendedTechStack(recommendation), "Based on current technology trends", "2-4 weeks")
  }

  /** What `suggest_project_ideas` returns for a given cache, or the error it raises. */
  function SuggestionsOf(cache: seq<ScrapedIdea>, count: int): Result<seq<ProjectIdea>> {
    if cache == [] then Success([])
    else
      match AnalysisOf(cache)
      case Failure(e) => Failure(e)
      case Success(a) =>
        Success(SuggestionsFrom(PyTake(a.recommendations, count)))
  }

  /** One numbered suggestion per recommendation. */
  function SuggestionsFrom(recs: seq<string>): (s: seq<ProjectIdea>)
    ensures |s| == |recs| && forall i :: 0 <= i < |recs| ==> s[i] == SuggestionAt(i, recs[i])
    decreases |recs|
  {
    if recs == [] then []
    else
      var init := recs[..|recs| - 1];
      var s := SuggestionsFrom(init) + [SuggestionAt(|recs| - 1, recs[|recs| - 1])];
      assert forall i :: 0 <= i < |init| ==> recs[i] == init[i];
      s
  }

  /**
   * With an empty cache there are no suggestions. Otherwise, when the analysis succeeds and
   * `count` is not negative, there are `count` suggestions or as many as recommendations if
   * fewer, numbered from 1, each describing its recommendation with its looked-up stack.
   */
  lemma SuggestionsFacts(cache: seq<ScrapedIdea>, count: int)
    ensures cache == [] ==> SuggestionsOf(cache, count) == Success([])
    ensures cache != [] ==> (SuggestionsOf(cache, count).Success? <==> forall x :: x in cache ==> x.difficulty in Levels)
    ensures cache != [] && SuggestionsOf(cache, count).Success? && count >= 0 ==>
      var recs := AnalysisOf(cache).value.recommendations;
      var s := SuggestionsOf(cache, count).value;
      |recs| >= 2 && |s| == (if count <= |recs| then count else |recs|) &&
      forall i :: 0 <= i < |s| ==>
        s[i].id == i + 1 && s[i].description == recs[i] && s[i].difficulty == "intermediate" &&
        s[i].techStack == RecommendedTechStack(recs[i])
  {
    AnalysisFacts(cache);
  }

  /** The loop of `suggest_project_ideas` that numbers the recommendations. */
  method NumberSuggestions(recommendations: seq<string>) returns (projectIdeas: seq<ProjectIdea>)
    ensures projectIdeas == SuggestionsFrom(recommendations)
  {
    projectIdeas := [];
    var i := 0;
    while i < |recommendations|
      invariant 0 <= i <= |recommendations|
      invariant projectIdeas == SuggestionsFrom(recommendations[..i])
    {
      assert recommendations[..i + 1][..i] == recommendations[..i];
      projectIdeas := projectIdeas + [SuggestionAt(i, recommendations[i])];
      i := i + 1;
    }
    assert recommendations[..i] == recommendations;
  }

  /** A successful refresh replaces the cache by the de-duplicated scrape; a failed one keeps it. */
  function Refreshed(cache: seq<ScrapedIdea>, scraped: Option<seq<ScrapedIdea>>): seq<ScrapedIdea> {
    match scraped
    case Some(all) => UniqueByUrl(all)
    case None => cache
  }

  /**
   * The builder's cache of scraped ideas. `scraped` stands for the combined result of the
   * three scrapers, `None` when scraping raised; `now` is the current time in seconds.
   */
  class EnhancedDayZeroBuilder {
    var scrapedIdeasCache: seq<ScrapedIdea>
    var lastScrapeTime: int
    const scrapeCacheDuration: int

    constructor ()
      ensures scrapedIdeasCache == [] && lastScrapeTime == 0 && scrapeCacheDuration == 3600
    {
      scrapedIdeasCache := [];
      lastScrapeTime := 0;
      scrapeCacheDuration := 3600;
    }

    /** `_get_trend_insights`: the most frequent cached technology, title-cased. */
    function TrendInsights(): (r: string)
      reads this
      ensures r == [] <==> TechEntries(scrapedIdeasCache) == []
      ensures r != [] ==> r == "\U{1F4CA} Trending: " + Title(TechTrends(scrapedIdeasCache)[0].0)
    {
      TechTrendsCorrect(scrapedIdeasCache);
      if scrapedIdeasCache == [] then []
      else
        var techTrends := TechTrends(scrapedIdeasCache);
        if techTrends == [] then []
        else
          assert techTrends[0] in techTrends;
          "\U{1F4CA} Trending: " + Title(techTrends[0].0)
    }

    /** `_refresh_scraped_data`. */
    method RefreshScrapedData(scraped: Option<seq<ScrapedIdea>>)
      modifies this
      ensures scrapedIdeasCache == Refreshed(old(scrapedIdeasCache), scraped)
      ensures lastScrapeTime == old(lastScrapeTime)
    {
      if scraped.Some? {
        var uniqueIdeas := DedupByUrl(scraped.value);
        scrapedIdeasCache := uniqueIdeas;
      }
    }

    /**
     * `_ensure_fresh_scraped_data`: refresh only when more than an hour has passed, and
     * record the time of the attempt even if it failed.
     */
    method EnsureFreshScrapedData(now: int, scraped: Option<seq<ScrapedIdea>>)
      modifies this
      ensures now - old(lastScrapeTime) > scrapeCacheDuration ==>
        scrapedIdeasCache == Refreshed(old(scrapedIdeasCache), scraped) && lastScrapeTime == now
      ensures now - old(lastScrapeTime) <= scrapeCacheDuration ==>
        scrapedIdeasCache == old(scrapedIdeasCache) && lastScrapeTime == old(lastScrapeTime)
    {
      if now - lastScrapeTime > scrapeCacheDuration {
        RefreshScrapedData(scraped);
        lastScrapeTime := now;
      }
    }

    /** `suggest_project_ideas`. */
    method SuggestProjectIdeas(now: int, scraped: Option<seq<ScrapedIdea>>, count: int)
      returns (r: Result<seq<ProjectIdea>>)
      modifies this
      ensures now - old(lastScrapeTime) > scrapeCacheDuration ==>
        scrapedIdeasCache == Refreshed(old(scrapedIdeasCache), scraped) && lastScrapeTime == now
      ensures now - old(lastScrapeTime) <= scrapeCacheDuration ==>
        scrapedIdeasCache == old(scrapedIdeasCache) && lastScrapeTime == old(lastScrapeTime)
      ensures r == SuggestionsOf(scrapedIdeasCache, count)
    {
      EnsureFreshScrapedData(now, scraped);
      if scrapedIdeasCache == [] {
        return Success([]);
      }
      var analysis := AnalyzeTrends(scrapedIdeasCache);
      if analysis.Failure? {
        return Failure(analysis.error);
      }
      var recommendations := PyTake(analysis.value.recommendations, count);
      var projectIdeas := NumberSuggestions(recommendations);
      r := Success(projectIdeas);
    }
  }
}
