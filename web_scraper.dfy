/**
 * The deterministic part of the idea scraper: classifying a scraped idea by keywords,
 * collecting scraped links up to a limit, and the report's de-duplication, difficulty
 * buckets and frequency tables. Fetching pages and parsing HTML are outside the model:
 * what a page yields is given as a function from the page to its extracted links.
 */
module WebScraper {
  import opened Wrappers
  import opened Dicts
  import opened PyText
  import opened Seqs
  import opened Counting

  /** `ScrapedIdea` without its timestamp and relevance score. */
  datatype ScrapedIdea = ScrapedIdea(
    title: string,
    description: string,
    source: string,
    url: string,
    tags: seq<string>,
    difficulty: string,
    techStack: seq<string>)

  // ---------------------------------------------------------------------------------------
  // Difficulty
  // ---------------------------------------------------------------------------------------

  const Levels: seq<string> := ["beginner", "intermediate", "advanced"]
  const BeginnerKeywords: seq<string> := ["tutorial", "beginner", "simple", "basic", "hello world"]
  const AdvancedKeywords: seq<string> := ["ml", "ai", "neural", "distributed", "microservices", "kubernetes", "docker"]

  /** `any(k in text for k in keywords)`. */
  function AnyContained(keywords: seq<string>, text: string): (r: bool)
    ensures r <==> exists k :: k in keywords && Contains(text, k)
    decreases |keywords|
  {
    if keywords == [] then false
    else
      assert forall k :: k in keywords <==> k == keywords[0] || k in keywords[1..];
      if Contains(text, keywords[0]) then
        assert keywords[0] in keywords;
        true
      else AnyContained(keywords[1..], text)
  }

  /** `any(k in words for k in keywords)`: exact list membership. */
  function AnyListed(keywords: seq<string>, words: seq<string>): (r: bool)
    ensures r <==> exists k :: k in keywords && k in words
    decreases |keywords|
  {
    if keywords == [] then false
    else
      assert forall k :: k in keywords <==> k == keywords[0] || k in keywords[1..];
      keywords[0] in words || AnyListed(keywords[1..], words)
  }

  /**
   * `_estimate_difficulty`: "beginner" when a beginner keyword occurs in the lower-cased
   * description, whatever else does; otherwise "advanced" when an advanced keyword occurs in
   * it, or equals a lower-cased tag; otherwise "intermediate".
   */
  function EstimateDifficulty(description: string, tags: seq<string>): (r: string)
    ensures r in Levels
    ensures r == "beginner" <==> exists k :: k in BeginnerKeywords && Contains(Lower(description), k)
    ensures r == "advanced" <==>
      (forall k :: k in BeginnerKeywords ==> !Contains(Lower(description), k))
      && ((exists k :: k in AdvancedKeywords && Contains(Lower(description), k))
          || (exists k, t :: k in AdvancedKeywords && t in tags && Lower(t) == k))
  {
    var d := Lower(description);
    var lowered := LowerAll(tags);
    assert forall k :: k in lowered <==> exists t :: t in tags && Lower(t) == k by {
      forall k | k in lowered ensures exists t :: t in tags && Lower(t) == k {
        var i :| 0 <= i < |lowered| && lowered[i] == k;
        assert tags[i] in tags;
      }
      forall k, t | t in tags && Lower(t) == k ensures k in lowered {
        var i :| 0 <= i < |tags| && tags[i] == t;
        assert lowered[i] == k;
      }
    }
    if AnyContained(BeginnerKeywords, d) then "beginner"
    else if AnyContained(AdvancedKeywords, d) then "advanced"
    else if AnyListed(AdvancedKeywords, lowered) then "advanced"
    else "intermediate"
  }

  /** The description a GitHub card without one gets. */
  const NoDescription: string := "No description available"

  /**
   * As written, the advanced keyword "ai" matches inside "available", so every repository
   * without a description is rated "advanced", though no advanced keyword occurs as a word.
   */
  lemma NoDescriptionRatedAdvanced(description: string)
    requires description == NoDescription
    ensures EstimateDifficulty(description, []) == "advanced"
    ensures forall k :: k in AdvancedKeywords ==> !HasWord(Lower(description), k)
  {
    NoDescriptionWords();
    var d := Lower(description);
    LowerNoDescription();
    AiInside(d);
    assert "ai" in AdvancedKeywords && Contains(d, "ai");
  }

  /** "ai" occurs inside "available". */
  lemma AiInside(d: string)
    requires d == "no description available"
    ensures OccursAt(d, "ai", 17)
  {
  }

  /** Which keywords occur in the lower-cased `NoDescription`, and how. */
  lemma NoDescriptionWords()
    ensures forall k :: k in BeginnerKeywords ==> !Contains(Lower(NoDescription), k)
    ensures forall k :: k in AdvancedKeywords ==> !HasWord(Lower(NoDescription), k)
  {
    LowerNoDescription();
    NoBeginnerKeyword(Lower(NoDescription));
    NoAdvancedWord(Lower(NoDescription));
  }

  lemma LowerNoDescription()
    ensures Lower(NoDescription) == "no description available"
  {
  }

  /** Letters "no description available" lacks. */
  lemma Lacks(c: char)
    requires c in "gukmh"
    ensures c !in "no description available"
  {
  }

  /** Where "b" and "ai" occur in "no description available". */
  lemma OnlyB(d: string, i: int)
    requires d == "no description available" && 0 <= i < |d| && d[i] == 'b'
    ensures i == 21 && d[i + 1] == 'l'
  {
  }

  lemma OnlyAi(d: string, i: int)
    requires d == "no description available" && 0 <= i < |d| - 1 && d[i] == 'a' && d[i + 1] == 'i'
    ensures i == 17 && d[i - 1] == 'v'
  {
  }

  lemma NoBeginnerKeyword(d: string)
    requires d == "no description available"
    ensures forall k :: k in BeginnerKeywords ==> !Contains(d, k)
  {
    Lacks('u');
    Lacks('g');
    Lacks('m');
    Lacks('h');
    NoBeginnerLetters(d);
    forall i | OccursAt(d, "basic", i) ensures false {
      assert d[i..i + 5][0] == d[i] && d[i..i + 5][1] == d[i + 1];
      OnlyB(d, i);
    }
  }

  /** Every beginner keyword but "basic" has a 'u', a 'g', an 'm' or an 'h'. */
  lemma NoBeginnerLetters(d: string)
    requires 'u' !in d && 'g' !in d && 'm' !in d && 'h' !in d
    ensures forall k :: k in BeginnerKeywords && k != "basic" ==> !Contains(d, k)
  {
    Absent(d, "tutorial", 1);
    Absent(d, "beginner", 2);
    Absent(d, "simple", 2);
    Absent(d, "hello world", 0);
  }

  lemma NoAdvancedWord(d: string)
    requires d == "no description available"
    ensures forall k :: k in AdvancedKeywords ==> !HasWord(d, k)
  {
    Lacks('u');
    Lacks('m');
    Lacks('k');
    NoAdvancedLetters(d);
    forall i | WordOccursAt(d, "ai", i) ensures false {
      assert d[i..i + 2][0] == d[i] && d[i..i + 2][1] == d[i + 1];
      OnlyAi(d, i);
    }
  }

  /** Every advanced keyword but "ai" has a 'u', an 'm' or a 'k'. */
  lemma NoAdvancedLetters(d: string)
    requires 'u' !in d && 'm' !in d && 'k' !in d
    ensures forall k :: k in AdvancedKeywords && k != "ai" ==> !Contains(d, k)
  {
    Absent(d, "ml", 0);
    Absent(d, "neural", 2);
    Absent(d, "distributed", 7);
    Absent(d, "microservices", 0);
    Absent(d, "kubernetes", 0);
    Absent(d, "docker", 3);
  }

  /** A needle with a character the text lacks does not occur in it. */
  lemma Absent(hay: string, needle: string, j: nat)
    requires j < |needle| && needle[j] !in hay
    ensures !Contains(hay, needle) && !HasWord(hay, needle)
  {
  }

  /** `_estimate_difficulty` with advanced keywords in the description matched as whole words. */
  function EstimateDifficultyByWord(description: string, tags: seq<string>): (r: string)
    ensures r in Levels
    ensures r == "advanced" ==>
      (exists k :: k in AdvancedKeywords && HasWord(Lower(description), k))
      || (exists k, t :: k in AdvancedKeywords && t in tags && Lower(t) == k)
  {
    var d := Lower(description);
    if AnyContained(BeginnerKeywords, d) then "beginner"
    else if AnyWord(AdvancedKeywords, d) then "advanced"
    else if AnyListed(AdvancedKeywords, LowerAll(tags)) then
      var k :| k in AdvancedKeywords && k in LowerAll(tags);
      var i :| 0 <= i < |tags| && LowerAll(tags)[i] == k;
      assert tags[i] in tags;
      "advanced"
    else "intermediate"
  }

  /** Corrected, a repository without a description is rated "intermediate". */
  lemma NoDescriptionRatedIntermediate(description: string)
    requires description == NoDescription
    ensures EstimateDifficultyByWord(description, []) == "intermediate"
  {
    NoDescriptionWords();
    var d := Lower(description);
    assert !AnyContained(BeginnerKeywords, d);
    assert !AnyWord(AdvancedKeywords, d);
    assert LowerAll([]) == [];
    assert !AnyListed(AdvancedKeywords, LowerAll([]));
  }

  /** Some keyword occurs in `text` as a whole word. */
  function AnyWord(keywords: seq<string>, text: string): (r: bool)
    ensures r <==> exists k :: k in keywords && HasWord(text, k)
    decreases |keywords|
  {
    if keywords == [] then false
    else
      assert forall k :: k in keywords <==> k == keywords[0] || k in keywords[1..];
      HasWord(text, keywords[0]) || AnyWord(keywords[1..], text)
  }

  // ---------------------------------------------------------------------------------------
  // Technology keywords
  // ---------------------------------------------------------------------------------------

  /** The alternatives of the five patterns of `_extract_tech_stack`, each matched between `\b`s. */
  const TechPatterns: seq<seq<string>> := [
    ["react", "vue", "angular", "svelte"],
    ["node.js", "python", "javascript", "typescript", "java", "c#", "go", "rust"],
    ["postgresql", "mysql", "mongodb", "redis", "sqlite"],
    ["docker", "kubernetes", "aws", "azure", "gcp"],
    ["api", "rest", "graphql", "websocket"]]

  /** `f"{description} {' '.join(tags)}".lower()`. */
  function TechText(description: string, tags: seq<string>): string {
    Lower(description + " " + Join(" ", tags))
  }

  /**
   * The distinct results of `re.findall` for one pattern: the alternatives that occur in
   * `text` between word boundaries. No two alternatives of a pattern can match at one offset,
   * and none starts at a boundary inside another's match, so scanning order does not matter.
   */
  function Matches(text: string, alternatives: seq<string>): (r: set<string>)
    ensures forall w :: w in r <==> w in alternatives && HasWord(text, w)
    decreases |alternatives|
  {
    if alternatives == [] then {}
    else
      assert forall w :: w in alternatives <==> w == alternatives[0] || w in alternatives[1..];
      (if HasWord(text, alternatives[0]) then {alternatives[0]} else {}) + Matches(text, alternatives[1..])
  }

  /**
   * `_extract_tech_stack`: the vocabulary words that occur as regex words in the lower-cased
   * description and tags. The list Python builds from the set has no duplicates; its order is
   * the set's iteration order, so the result is modelled as the set.
   */
  method ExtractTechStack(description: string, tags: seq<string>) returns (found: set<string>)
    ensures forall w :: w in found <==>
      (exists p :: p in TechPatterns && w in p) && HasWord(TechText(description, tags), w)
  {
    var text := TechText(description, tags);
    found := {};
    var i := 0;
    while i < |TechPatterns|
      invariant 0 <= i <= |TechPatterns|
      invariant forall w :: w in found <==> (exists p :: p in TechPatterns[..i] && w in p) && HasWord(text, w)
    {
      assert forall p :: p in TechPatterns[..i + 1] <==> p in TechPatterns[..i] || p == TechPatterns[i];
      found := found + Matches(text, TechPatterns[i]);
      i := i + 1;
    }
    assert TechPatterns[..i] == TechPatterns;
  }

  /**
   * As written, `\bc#\b` needs a word character right after the '#', so "c#" standing on its
   * own is never found: a description of just "c#" yields no "c#".
   */
  lemma CSharpNeverFound(description: string)
    requires description == "c#"
    ensures !HasWord(TechText(description, []), "c#")
  {
    var s := TechText(description, []);
    assert s == "c# ";
  }

  /** `(?<!\w)w(?!\w)` matches at offset `i`: `w` with no word character on either side. */
  ghost predicate TokenAt(s: string, w: string, i: int) {
    OccursAt(s, w, i) && !WordAt(s, i - 1) && !WordAt(s, i + |w|)
  }

  function HasTokenFrom(s: string, w: string, from: nat): (r: bool)
    ensures r <==> exists i :: from <= i && TokenAt(s, w, i)
    decreases |s| - from
  {
    if from + |w| > |s| then
      assert forall i :: from <= i ==> !OccursAt(s, w, i);
      false
    else if s[from..from + |w|] == w && !WordAt(s, from - 1) && !WordAt(s, from + |w|) then
      assert TokenAt(s, w, from);
      true
    else
      HasTokenFrom(s, w, from + 1)
  }

  /** The evidently intended match of a vocabulary word: a token not glued to other word characters. */
  function HasToken(s: string, w: string): bool {
    HasTokenFrom(s, w, 0)
  }

  /** Corrected, every vocabulary word written as its own token is found, "c#" included. */
  lemma TokenFound(pre: string, w: string, post: string)
    requires pre == [] || !IsWordChar(pre[|pre| - 1])
    requires post == [] || !IsWordChar(post[0])
    ensures HasToken(pre + w + post, w)
  {
    var s := pre + w + post;
    assert s[|pre|..|pre| + |w|] == w;
    if pre != [] { assert s[|pre| - 1] == pre[|pre| - 1]; }
    if post != [] { assert s[|pre| + |w|] == post[0]; }
    assert TokenAt(s, w, |pre|);
  }

  /** `_extract_tech_stack` with each vocabulary word matched as a token. */
  function TechStackByToken(description: string, tags: seq<string>): (found: set<string>)
    ensures forall w :: w in found <==>
      (exists p :: p in TechPatterns && w in p) && HasToken(TechText(description, tags), w)
  {
    var text := TechText(description, tags);
    set p, w | p in TechPatterns && w in p && HasToken(text, w) :: w
  }

  /** Corrected, a description of just "c#" yields "c#". */
  lemma CSharpFoundByToken(description: string)
    requires description == "c#"
    ensures "c#" in TechStackByToken(description, [])
  {
    var s := TechText(description, []);
    assert s == "c#" + " " + [];
    TokenFound([], "c#", " ");
    assert "c#" in TechPatterns[1];
  }

  /** The correction changes nothing for words that begin and end with a word character. */
  lemma TokenIsWord(s: string, w: string, i: int)
    requires w != [] && IsWordChar(w[0]) && IsWordChar(w[|w| - 1])
    ensures TokenAt(s, w, i) <==> WordOccursAt(s, w, i)
  {
    if OccursAt(s, w, i) {
      assert s[i] == s[i..i + |w|][0];
      assert s[i + |w| - 1] == s[i..i + |w|][|w| - 1];
    }
  }

  /** The terms `_extract_tech_keywords` looks for, in its order. */
  const TechTerms: seq<string> := [
    "react", "vue", "angular", "svelte", "node.js", "python", "javascript",
    "typescript", "java", "c#", "go", "rust", "postgresql", "mysql",
    "mongodb", "redis", "docker", "kubernetes", "aws", "azure", "gcp"]

  /** The terms, in their order, that occur in `text` as substrings. */
  function KeywordsIn(terms: seq<string>, text: string): seq<string>
    decreases |terms|
  {
    if terms == [] then []
    else
      var last := terms[|terms| - 1];
      KeywordsIn(terms[..|terms| - 1], text) + (if Contains(text, last) then [last] else [])
  }

  /** Exactly the terms occurring in the text, kept in the terms' order. */
  lemma {:induction false} KeywordsInCorrect(terms: seq<string>, text: string)
    ensures forall w :: w in KeywordsIn(terms, text) <==> w in terms && Contains(text, w)
    ensures IsSubsequence(KeywordsIn(terms, text), terms)
    decreases |terms|
  {
    if terms != [] {
      var init := terms[..|terms| - 1];
      var last := terms[|terms| - 1];
      KeywordsInCorrect(init, text);
      assert terms == init + [last];
      var r := KeywordsIn(terms, text);
      assert terms[..|terms| - 1] == init;
      if Contains(text, last) {
        assert r[..|r| - 1] == KeywordsIn(init, text);
      } else if r != [] {
        assert r == KeywordsIn(init, text);
        assert r[|r| - 1] in r;
        assert r[|r| - 1] != last;
        assert IsSubsequence(r, terms) == IsSubsequence(r, init);
      }
    }
  }

  lemma KeywordsInStep(terms: seq<string>, text: string, i: nat)
    requires i < |terms|
    ensures KeywordsIn(terms[..i + 1], text) ==
      KeywordsIn(terms[..i], text) + if Contains(text, terms[i]) then [terms[i]] else []
  {
    assert terms[..i + 1][..i] == terms[..i];
  }

  /** `_extract_tech_keywords`. */
  method ExtractTechKeywords(title: string) returns (keywords: seq<string>)
    ensures keywords == KeywordsIn(TechTerms, Lower(title))
  {
    keywords := [];
    var titleLower := Lower(title);
    var i := 0;
    while i < |TechTerms|
      invariant 0 <= i <= |TechTerms|
      invariant keywords == KeywordsIn(TechTerms[..i], titleLower)
    {
      var term := TechTerms[i];
      KeywordsInStep(TechTerms, titleLower, i);
      if Contains(titleLower, term) {
        keywords := keywords + [term];
      }
      i := i + 1;
    }
    assert TechTerms[..i] == TechTerms;
  }

  /**
   * The keywords of a title are exactly the terms occurring in its lower-cased form, in the
   * terms' order and without duplicates.
   */
  lemma TechKeywordsCorrect(title: string)
    ensures forall w :: w in KeywordsIn(TechTerms, Lower(title)) <==> w in TechTerms && Contains(Lower(title), w)
    ensures IsSubsequence(KeywordsIn(TechTerms, Lower(title)), TechTerms)
    ensures Distinct(KeywordsIn(TechTerms, Lower(title)))
  {
    KeywordsInCorrect(TechTerms, Lower(title));
    TechTermsDistinct();
    SubsequenceDistinct(KeywordsIn(TechTerms, Lower(title)), TechTerms);
  }

  /** The length, first letter and last letter of each term. */
  const TechTags: seq<(int, char, char)> := [
    (5, 'r', 't'), (3, 'v', 'e'), (7, 'a', 'r'), (6, 's', 'e'), (7, 'n', 's'), (6, 'p', 'n'),
    (10, 'j', 't'), (10, 't', 't'), (4, 'j', 'a'), (2, 'c', '#'), (2, 'g', 'o'), (4, 'r', 't'),
    (10, 'p', 'l'), (5, 'm', 'l'), (7, 'm', 'b'), (5, 'r', 's'), (6, 'd', 'r'), (10, 'k', 's'),
    (3, 'a', 's'), (5, 'a', 'e'), (3, 'g', 'p')]

  /** No two terms share their length, first letter and last letter. */
  lemma TechTermsDistinct()
    ensures Distinct(TechTerms)
  {
    assert |TechTags| == |TechTerms|;
    assert forall i :: 0 <= i < |TechTerms| ==> Tag(TechTerms[i]) == TechTags[i];
    TechTagsApart0();
    TechTagsApart7();
    TechTagsApart14();
    forall i, j | 0 <= i < j < |TechTerms| ensures TechTerms[i] != TechTerms[j] {
      assert TechTags[i] != TechTags[j];
    }
  }

  lemma TechTagsApart0()
    ensures forall i, j :: 0 <= i < 7 && i < j < |TechTags| ==> TechTags[i] != TechTags[j]
  {
  }

  lemma TechTagsApart7()
    ensures forall i, j :: 7 <= i < 14 && i < j < |TechTags| ==> TechTags[i] != TechTags[j]
  {
  }

  lemma TechTagsApart14()
    ensures forall i, j :: 14 <= i < j < |TechTags| ==> TechTags[i] != TechTags[j]
  {
  }

  function Tag(w: string): (int, char, char)
    requires w != []
  {
    (|w|, w[0], w[|w| - 1])
  }

  // ---------------------------------------------------------------------------------------
  // De-duplication and difficulty buckets
  // ---------------------------------------------------------------------------------------

  /** The URLs of the ideas. */
  function Urls(ideas: seq<ScrapedIdea>): set<string>
    decreases |ideas|
  {
    if ideas == [] then {}
    else Urls(ideas[..|ideas| - 1]) + {ideas[|ideas| - 1].url}
  }

  /** A URL is collected exactly when some idea has it. */
  lemma {:induction false} UrlsOf(ideas: seq<ScrapedIdea>)
    ensures forall u :: u in Urls(ideas) <==> exists i :: 0 <= i < |ideas| && ideas[i].url == u
    decreases |ideas|
  {
    if ideas != [] {
      var init := ideas[..|ideas| - 1];
      UrlsOf(init);
      assert forall i :: 0 <= i < |init| ==> init[i] == ideas[i];
    }
  }

  /** The ideas whose URL no earlier idea has, in order. */
  function UniqueByUrl(ideas: seq<ScrapedIdea>): seq<ScrapedIdea>
    decreases |ideas|
  {
    if ideas == [] then []
    else
      var init := ideas[..|ideas| - 1];
      var x := ideas[|ideas| - 1];
      if x.url in Urls(init) then UniqueByUrl(init) else UniqueByUrl(init) + [x]
  }

  /** `x` is an idea of the list and no idea before it has its URL. */
  ghost predicate FirstOfUrl(ideas: seq<ScrapedIdea>, x: ScrapedIdea) {
    exists i :: 0 <= i < |ideas| && ideas[i] == x && forall j :: 0 <= j < i ==> ideas[j].url != x.url
  }

  ghost predicate DistinctUrls(ideas: seq<ScrapedIdea>) {
    forall i, j :: 0 <= i < j < |ideas| ==> ideas[i].url != ideas[j].url
  }

  lemma FirstOfUrlExtend(ideas: seq<ScrapedIdea>, y: ScrapedIdea, x: ScrapedIdea)
    requires FirstOfUrl(ideas, x)
    ensures FirstOfUrl(ideas + [y], x)
  {
    var i :| 0 <= i < |ideas| && ideas[i] == x && forall j :: 0 <= j < i ==> ideas[j].url != x.url;
    assert (ideas + [y])[i] == x;
    assert forall j :: 0 <= j < i ==> (ideas + [y])[j] == ideas[j];
  }

  /** The kept URLs are distinct and are exactly the URLs of the input. */
  lemma {:induction false} UniqueUrls(ideas: seq<ScrapedIdea>)
    ensures DistinctUrls(UniqueByUrl(ideas))
    ensures Urls(UniqueByUrl(ideas)) == Urls(ideas)
    decreases |ideas|
  {
    if ideas != [] {
      var init := ideas[..|ideas| - 1];
      var x := ideas[|ideas| - 1];
      var u := UniqueByUrl(init);
      UniqueUrls(init);
      if x.url !in Urls(init) {
        UrlsOf(u);
        var r := u + [x];
        forall i, j | 0 <= i < j < |r| ensures r[i].url != r[j].url {
          assert r[i] == u[i];
          if j < |r| - 1 {
            assert r[j] == u[j];
          }
        }
      }
    }
  }

  /** The kept ideas are in input order. */
  lemma {:induction false} UniqueInOrder(ideas: seq<ScrapedIdea>)
    ensures IsSubsequence(UniqueByUrl(ideas), ideas)
    decreases |ideas|
  {
    if ideas != [] {
      var init := ideas[..|ideas| - 1];
      var x := ideas[|ideas| - 1];
      var u := UniqueByUrl(init);
      UniqueInOrder(init);
      if x.url !in Urls(init) {
        assert (u + [x])[..|u|] == u;
      } else {
        SubsequenceExtend(u, init, x);
        assert init + [x] == ideas;
      }
    }
  }

  /** Each kept idea is the first idea with its URL. */
  lemma {:induction false} UniqueFirsts(ideas: seq<ScrapedIdea>)
    ensures forall x :: x in UniqueByUrl(ideas) ==> FirstOfUrl(ideas, x)
    decreases |ideas|
  {
    if ideas != [] {
      var init := ideas[..|ideas| - 1];
      var x := ideas[|ideas| - 1];
      var u := UniqueByUrl(init);
      UniqueFirsts(init);
      assert ideas == init + [x];
      forall y | y in u ensures FirstOfUrl(ideas, y) {
        FirstOfUrlExtend(init, x, y);
      }
      if x.url !in Urls(init) {
        UrlsOf(init);
        assert forall j :: 0 <= j < |init| ==> ideas[j] == init[j];
        assert FirstOfUrl(ideas, x);
      }
    }
  }

  /**
   * De-duplication keeps one idea per URL, the first, in the original order: the URLs are
   * distinct and are exactly the URLs of the input.
   */
  lemma UniqueByUrlCorrect(ideas: seq<ScrapedIdea>)
    ensures DistinctUrls(UniqueByUrl(ideas))
    ensures Urls(UniqueByUrl(ideas)) == Urls(ideas)
    ensures IsSubsequence(UniqueByUrl(ideas), ideas)
    ensures forall x :: x in UniqueByUrl(ideas) ==> FirstOfUrl(ideas, x)
  {
    UniqueUrls(ideas);
    UniqueInOrder(ideas);
    UniqueFirsts(ideas);
  }

  /** The de-duplication loop of `generate_app_ideas_report`. */
  method DedupByUrl(ideas: seq<ScrapedIdea>) returns (unique: seq<ScrapedIdea>)
    ensures unique == UniqueByUrl(ideas)
  {
    var seenUrls: set<string> := {};
    unique := [];
    var i := 0;
    while i < |ideas|
      invariant 0 <= i <= |ideas|
      invariant unique == UniqueByUrl(ideas[..i])
      invariant seenUrls == Urls(ideas[..i])
    {
      var idea := ideas[i];
      assert ideas[..i + 1][..i] == ideas[..i];
      if idea.url !in seenUrls {
        seenUrls := seenUrls + {idea.url};
        unique := unique + [idea];
      }
      i := i + 1;
    }
    assert ideas[..i] == ideas;
  }

  /** The three lists of `ideas_by_difficulty`. */
  datatype Buckets = Buckets(beginner: seq<ScrapedIdea>, intermediate: seq<ScrapedIdea>, advanced: seq<ScrapedIdea>)

  /** `KeyError` raised by `categorized_ideas[idea.difficulty]` for an unknown level. */
  function KeyError(key: string): string {
    "KeyError: '" + key + "'"
  }

  /** `categorized_ideas[idea.difficulty].append(idea)`. */
  function Place(b: Buckets, x: ScrapedIdea): Result<Buckets> {
    if x.difficulty == "beginner" then Success(b.(beginner := b.beginner + [x]))
    else if x.difficulty == "intermediate" then Success(b.(intermediate := b.intermediate + [x]))
    else if x.difficulty == "advanced" then Success(b.(advanced := b.advanced + [x]))
    else Failure(KeyError(x.difficulty))
  }

  /** Placing every idea in turn; the first unknown level raises. */
  function Categorized(ideas: seq<ScrapedIdea>): Result<Buckets>
    decreases |ideas|
  {
    if ideas == [] then Success(Buckets([], [], []))
    else
      match Categorized(ideas[..|ideas| - 1])
      case Failure(e) => Failure(e)
      case Success(b) => Place(b, ideas[|ideas| - 1])
  }

  /** The ideas of the given level, in order. */
  function Bucket(ideas: seq<ScrapedIdea>, level: string): (r: seq<ScrapedIdea>)
    ensures forall x :: x in r <==> x in ideas && x.difficulty == level
    decreases |ideas|
  {
    if ideas == [] then []
    else
      var init := ideas[..|ideas| - 1];
      var x := ideas[|ideas| - 1];
      assert ideas == init + [x];
      Bucket(init, level) + (if x.difficulty == level then [x] else [])
  }

  /** Categorising succeeds exactly when every level is known. */
  lemma {:induction false} CategorizedSucceeds(ideas: seq<ScrapedIdea>)
    ensures Categorized(ideas).Success? <==> forall x :: x in ideas ==> x.difficulty in Levels
    decreases |ideas|
  {
    if ideas != [] {
      var init := ideas[..|ideas| - 1];
      var x := ideas[|ideas| - 1];
      CategorizedSucceeds(init);
      assert ideas == init + [x];
      assert forall y :: y in ideas <==> y in init || y == x;
      if Categorized(init).Success? {
        assert Categorized(ideas) == Place(Categorized(init).value, x);
      }
    }
  }

  /** On success the buckets hold the ideas of each level, in order. */
  lemma {:induction false} CategorizedBuckets(ideas: seq<ScrapedIdea>)
    requires Categorized(ideas).Success?
    ensures Categorized(ideas).value ==
      Buckets(Bucket(ideas, "beginner"), Bucket(ideas, "intermediate"), Bucket(ideas, "advanced"))
    decreases |ideas|
  {
    if ideas != [] {
      CategorizedBuckets(ideas[..|ideas| - 1]);
    }
  }

  /** The three buckets together are a rearrangement of the ideas when every level is known. */
  lemma {:induction false} BucketsPartition(ideas: seq<ScrapedIdea>)
    requires forall x :: x in ideas ==> x.difficulty in Levels
    ensures multiset(Bucket(ideas, "beginner")) + multiset(Bucket(ideas, "intermediate")) +
      multiset(Bucket(ideas, "advanced")) == multiset(ideas)
    decreases |ideas|
  {
    if ideas != [] {
      var init := ideas[..|ideas| - 1];
      var x := ideas[|ideas| - 1];
      assert ideas == init + [x];
      assert x in ideas;
      assert forall y :: y in init ==> y in ideas;
      BucketsPartition(init);
      BucketsStep(init, x);
    }
  }

  /** The buckets of the ideas so far, put together. */
  ghost function AllBuckets(ideas: seq<ScrapedIdea>): multiset<ScrapedIdea> {
    multiset(Bucket(ideas, "beginner")) + multiset(Bucket(ideas, "intermediate")) +
      multiset(Bucket(ideas, "advanced"))
  }

  lemma BucketsStep(init: seq<ScrapedIdea>, x: ScrapedIdea)
    requires x.difficulty in Levels
    ensures AllBuckets(init + [x]) == AllBuckets(init) + multiset{x}
  {
    var b, m, a := multiset(Bucket(init, "beginner")), multiset(Bucket(init, "intermediate")),
      multiset(Bucket(init, "advanced"));
    UnionShift(b, m, a, multiset{x});
    if x.difficulty == "beginner" {
      BucketHit(init, x, "beginner");
      BucketMiss(init, x, "intermediate");
      BucketMiss(init, x, "advanced");
    } else if x.difficulty == "intermediate" {
      BucketMiss(init, x, "beginner");
      BucketHit(init, x, "intermediate");
      BucketMiss(init, x, "advanced");
    } else {
      BucketMiss(init, x, "beginner");
      BucketMiss(init, x, "intermediate");
      BucketHit(init, x, "advanced");
    }
  }

  lemma UnionShift<T>(b: multiset<T>, m: multiset<T>, a: multiset<T>, one: multiset<T>)
    ensures (b + one) + m + a == b + m + a + one
    ensures b + (m + one) + a == b + m + a + one
    ensures b + m + (a + one) == b + m + a + one
  {
  }

  lemma BucketHit(init: seq<ScrapedIdea>, x: ScrapedIdea, level: string)
    requires x.difficulty == level
    ensures multiset(Bucket(init + [x], level)) == multiset(Bucket(init, level)) + multiset{x}
  {
    assert (init + [x])[..|init|] == init;
  }

  lemma BucketMiss(init: seq<ScrapedIdea>, x: ScrapedIdea, level: string)
    requires x.difficulty != level
    ensures Bucket(init + [x], level) == Bucket(init, level)
  {
    assert (init + [x])[..|init|] == init;
  }

  /** On failure the error names the level of the first idea whose level is unknown. */
  lemma {:induction false} CategorizedError(ideas: seq<ScrapedIdea>)
    requires Categorized(ideas).Failure?
    ensures exists i :: 0 <= i < |ideas| && ideas[i].difficulty !in Levels &&
                        Categorized(ideas).error == KeyError(ideas[i].difficulty) &&
                        forall j :: 0 <= j < i ==> ideas[j].difficulty in Levels
    decreases |ideas|
  {
    var init := ideas[..|ideas| - 1];
    var x := ideas[|ideas| - 1];
    assert forall j :: 0 <= j < |init| ==> ideas[j] == init[j];
    if Categorized(init).Failure? {
      CategorizedError(init);
      var i :| 0 <= i < |init| && init[i].difficulty !in Levels &&
        Categorized(init).error == KeyError(init[i].difficulty) &&
        forall j :: 0 <= j < i ==> init[j].difficulty in Levels;
      assert ideas[i] == init[i];
    } else {
      CategorizedSucceeds(init);
      assert ideas[|init|] == x;
      assert forall j :: 0 <= j < |init| ==> init[j] in init;
    }
  }

  /** The categorising loop of `generate_app_ideas_report`. */
  method Categorize(ideas: seq<ScrapedIdea>) returns (r: Result<Buckets>)
    ensures r == Categorized(ideas)
  {
    var b := Buckets([], [], []);
    var i := 0;
    while i < |ideas|
      invariant 0 <= i <= |ideas|
      invariant Categorized(ideas[..i]) == Success(b)
    {
      var idea := ideas[i];
      assert ideas[..i + 1][..i] == ideas[..i];
      if idea.difficulty == "beginner" {
        b := b.(beginner := b.beginner + [idea]);
      } else if idea.difficulty == "intermediate" {
        b := b.(intermediate := b.intermediate + [idea]);
      } else if idea.difficulty == "advanced" {
        b := b.(advanced := b.advanced + [idea]);
      } else {
        FailureSticks(ideas, i + 1);
        return Failure(KeyError(idea.difficulty));
      }
      i := i + 1;
    }
    assert ideas[..i] == ideas;
    r := Success(b);
  }

  /** Once an idea raises, the ideas after it do not matter. */
  lemma {:induction false} FailureSticks(ideas: seq<ScrapedIdea>, k: nat)
    requires k <= |ideas| && Categorized(ideas[..k]).Failure?
    ensures Categorized(ideas) == Categorized(ideas[..k])
    decreases |ideas| - k
  {
    if k < |ideas| {
      assert ideas[..k + 1][..k] == ideas[..k];
      FailureSticks(ideas, k + 1);
    } else {
      assert ideas[..k] == ideas;
    }
  }

  // ---------------------------------------------------------------------------------------
  // Collecting scraped ideas up to a limit
  // ---------------------------------------------------------------------------------------

  /** What one visited page yields: `None` when the request failed, else one entry per link visited, `None` for a skipped link. */
  type Batch = Option<seq<Option<ScrapedIdea>>>

  /** The ideas of the links that were not skipped, in order. */
  function Somes(xs: seq<Option<ScrapedIdea>>): (r: seq<ScrapedIdea>)
    ensures |r| <= |xs|
    decreases |xs|
  {
    if xs == [] then []
    else Somes(xs[..|xs| - 1]) + (match xs[|xs| - 1] case Some(x) => [x] case None => [])
  }

  function BatchIdeas(b: Batch): seq<ScrapedIdea> {
    match b
    case Some(xs) => Somes(xs)
    case None => []
  }

  /** Every idea the pages yield, page after page, when nothing stops early. */
  function Candidates(batches: seq<Batch>): seq<ScrapedIdea>
    decreases |batches|
  {
    if batches == [] then [] else Candidates(batches[..|batches| - 1]) + BatchIdeas(batches[|batches| - 1])
  }

  /** The first page whose request succeeded. */
  function FirstFetched(batches: seq<Batch>): Batch
    decreases |batches|
  {
    if batches == [] then None
    else if FirstFetched(batches[..|batches| - 1]).Some? then FirstFetched(batches[..|batches| - 1])
    else batches[|batches| - 1]
  }

  /**
   * What the scraping loops return. The check `len(ideas) >= limit` runs after each appended idea
   * and after each fetched page, so a positive limit keeps the first `limit` candidates, while a
   * limit of zero or less stops after the first page that was fetched, with at most one idea.
   */
  function Collected(batches: seq<Batch>, limit: int): seq<ScrapedIdea> {
    if limit >= 1 then Take(Candidates(batches), limit)
    else
      match FirstFetched(batches)
      case Some(xs) => Take(Somes(xs), 1)
      case None => []
  }

  lemma {:induction false} SomesPrefix(xs: seq<Option<ScrapedIdea>>, j: nat)
    requires j <= |xs|
    ensures Somes(xs[..j]) <= Somes(xs)
    decreases |xs| - j
  {
    if j < |xs| {
      assert xs[..j + 1][..j] == xs[..j];
      SomesPrefix(xs, j + 1);
      var c, c' := Somes(xs[..j]), Somes(xs[..j + 1]);
      assert c' == c + (match xs[j] case Some(x) => [x] case None => []);
      PrefixTrans(c, c', Somes(xs));
    } else {
      assert xs[..j] == xs;
    }
  }

  lemma {:induction false} CandidatesPrefix(batches: seq<Batch>, i: nat)
    requires i <= |batches|
    ensures Candidates(batches[..i]) <= Candidates(batches)
    decreases |batches| - i
  {
    if i < |batches| {
      assert batches[..i + 1][..i] == batches[..i];
      CandidatesPrefix(batches, i + 1);
      var c, c' := Candidates(batches[..i]), Candidates(batches[..i + 1]);
      assert c' == c + BatchIdeas(batches[i]);
      PrefixTrans(c, c', Candidates(batches));
    } else {
      assert batches[..i] == batches;
    }
  }

  /** No page fetched, no candidates. */
  lemma {:induction false} NothingFetched(batches: seq<Batch>)
    requires FirstFetched(batches).None?
    ensures Candidates(batches) == []
    decreases |batches|
  {
    if batches != [] {
      NothingFetched(batches[..|batches| - 1]);
    }
  }

  /** The first fetched page of a prefix is the first fetched page of the whole list. */
  lemma {:induction false} FirstFetchedStays(batches: seq<Batch>, i: nat)
    requires i <= |batches| && FirstFetched(batches[..i]).Some?
    ensures FirstFetched(batches) == FirstFetched(batches[..i])
    decreases |batches| - i
  {
    if i < |batches| {
      assert batches[..i + 1][..i] == batches[..i];
      FirstFetchedStays(batches, i + 1);
    } else {
      assert batches[..i] == batches;
    }
  }

  /** The first fetched page's ideas open the candidates. */
  lemma {:induction false} FirstFetchedLeads(batches: seq<Batch>)
    requires FirstFetched(batches).Some?
    ensures Somes(FirstFetched(batches).value) <= Candidates(batches)
    decreases |batches|
  {
    var init := batches[..|batches| - 1];
    if FirstFetched(init).Some? {
      FirstFetchedLeads(init);
    } else {
      NothingFetched(init);
    }
  }

  /** Stopping once the limit is reached, for a positive limit. */
  lemma CollectedAtLimit(batches: seq<Batch>, limit: int, i: nat, xs: seq<Option<ScrapedIdea>>, j: nat)
    requires i < |batches| && batches[i] == Some(xs) && j <= |xs|
    requires limit >= 1 && |Candidates(batches[..i]) + Somes(xs[..j])| == limit
    ensures Collected(batches, limit) == Candidates(batches[..i]) + Somes(xs[..j])
  {
    assert batches[..i + 1][..i] == batches[..i];
    SomesPrefix(xs, j);
    CandidatesPrefix(batches, i + 1);
  }

  /** Stopping after the first fetched page, for a limit of zero or less. */
  lemma CollectedAtFirst(batches: seq<Batch>, limit: int, i: nat, xs: seq<Option<ScrapedIdea>>, j: nat)
    requires i < |batches| && batches[i] == Some(xs) && j <= |xs|
    requires limit < 1 && FirstFetched(batches[..i]).None?
    requires |Somes(xs[..j])| == 1 || (j == |xs| && Somes(xs) == [])
    ensures Collected(batches, limit) == Candidates(batches[..i]) + Somes(xs[..j])
  {
    assert batches[..i + 1][..i] == batches[..i];
    FirstFetchedStays(batches, i + 1);
    NothingFetched(batches[..i]);
    SomesPrefix(xs, j);
  }

  /**
   * The nested loops of `scrape_tech_blogs` and `scrape_stackoverflow_trends`: append each idea
   * in turn, stop once `limit` are held, and stop after a fetched page once `limit` are held.
   */
  method Collect(batches: seq<Batch>, limit: int) returns (ideas: seq<ScrapedIdea>)
    ensures ideas == Collected(batches, limit)
  {
    ideas := [];
    var i := 0;
    while i < |batches|
      invariant 0 <= i <= |batches|
      invariant ideas == Candidates(batches[..i])
      invariant limit >= 1 ==> |ideas| < limit
      invariant limit < 1 ==> FirstFetched(batches[..i]).None?
    {
      CollectStep(batches, i);
      if batches[i].Some? {
        var stop;
        ideas, stop := CollectFetched(batches, limit, i, ideas);
        if stop {
          return;
        }
      }
      i := i + 1;
    }
    assert batches[..i] == batches;
    CollectedAtEnd(batches, limit);
  }

  /** Page `i` of `Collect`, fetched: its ideas are added, and `stop` says the limit ended the loops. */
  method CollectFetched(batches: seq<Batch>, limit: int, i: nat, held: seq<ScrapedIdea>)
    returns (ideas: seq<ScrapedIdea>, stop: bool)
    requires i < |batches| && batches[i].Some? && held == Candidates(batches[..i])
    requires limit >= 1 ==> |held| < limit
    requires limit < 1 ==> FirstFetched(batches[..i]).None?
    ensures stop ==> ideas == Collected(batches, limit)
    ensures !stop ==> limit >= 1 && |ideas| < limit && ideas == held + Somes(batches[i].value)
  {
    var xs := batches[i].value;
    if limit < 1 {
      NothingFetched(batches[..i]);
    }
    var j;
    ideas, j := CollectPage(held, xs, limit);
    stop := |ideas| >= limit;
    if stop {
      if limit >= 1 {
        CollectedAtLimit(batches, limit, i, xs, j);
      } else {
        CollectedAtFirst(batches, limit, i, xs, j);
      }
    } else {
      assert xs[..j] == xs;
    }
  }

  /**
   * The inner loop over one fetched page: append the idea of each link not skipped, and stop
   * as soon as `limit` ideas are held. Returns the ideas and how many links were visited.
   */
  method CollectPage(held: seq<ScrapedIdea>, xs: seq<Option<ScrapedIdea>>, limit: int)
    returns (ideas: seq<ScrapedIdea>, j: nat)
    requires limit >= 1 ==> |held| < limit
    requires limit < 1 ==> held == []
    ensures j <= |xs| && ideas == held + Somes(xs[..j])
    ensures |ideas| < limit ==> j == |xs|
    ensures limit >= 1 ==> |ideas| <= limit
    ensures limit < 1 ==> |Somes(xs[..j])| == 1 || (j == |xs| && Somes(xs) == [])
  {
    ideas := held;
    j := 0;
    while j < |xs|
      invariant 0 <= j <= |xs|
      invariant ideas == held + Somes(xs[..j])
      invariant limit >= 1 ==> |ideas| < limit
      invariant limit < 1 ==> Somes(xs[..j]) == []
    {
      assert xs[..j + 1][..j] == xs[..j];
      if xs[j].Some? {
        ideas := ideas + [xs[j].value];
        if |ideas| >= limit {
          j := j + 1;
          return;
        }
      }
      j := j + 1;
    }
    assert xs[..j] == xs;
  }

  /** One more page adds its ideas to the candidates, and a failed page fetches nothing. */
  lemma CollectStep(batches: seq<Batch>, i: nat)
    requires i < |batches|
    ensures Candidates(batches[..i + 1]) == Candidates(batches[..i]) + BatchIdeas(batches[i])
    ensures FirstFetched(batches[..i]).None? && batches[i].None? ==> FirstFetched(batches[..i + 1]).None?
  {
    assert batches[..i + 1][..i] == batches[..i];
  }

  /** Running out of pages before the limit keeps every candidate. */
  lemma CollectedAtEnd(batches: seq<Batch>, limit: int)
    requires limit >= 1 ==> |Candidates(batches)| < limit
    requires limit < 1 ==> FirstFetched(batches).None?
    ensures Collected(batches, limit) == Candidates(batches)
  {
    if limit < 1 {
      NothingFetched(batches);
    }
  }

  /**
   * The loops return at most `limit` ideas (at most one when `limit` is zero or less), the
   * leading candidates in order, and every candidate when fewer than `limit` exist.
   */
  lemma CollectedBounds(batches: seq<Batch>, limit: int)
    ensures |Collected(batches, limit)| <= if limit >= 1 then limit else 1
    ensures Collected(batches, limit) <= Candidates(batches)
    ensures limit >= 1 && |Candidates(batches)| <= limit ==> Collected(batches, limit) == Candidates(batches)
  {
    if limit < 1 && FirstFetched(batches).Some? {
      FirstFetchedLeads(batches);
    }
  }

  /** Every candidate comes from a link of a fetched page. */
  lemma {:induction false} CandidateOrigin(batches: seq<Batch>, x: ScrapedIdea)
    requires x in Candidates(batches)
    ensures exists i :: 0 <= i < |batches| && batches[i].Some? && Some(x) in batches[i].value
    decreases |batches|
  {
    var init := batches[..|batches| - 1];
    if x in Candidates(init) {
      CandidateOrigin(init, x);
      var i :| 0 <= i < |init| && init[i].Some? && Some(x) in init[i].value;
      assert batches[i] == init[i];
    } else {
      SomesOrigin(batches[|batches| - 1].value, x);
    }
  }

  lemma {:induction false} SomesOrigin(xs: seq<Option<ScrapedIdea>>, x: ScrapedIdea)
    requires x in Somes(xs)
    ensures Some(x) in xs
    decreases |xs|
  {
    var init := xs[..|xs| - 1];
    if x in Somes(init) {
      SomesOrigin(init, x);
    }
    assert xs == init + [xs[|xs| - 1]];
  }

  // ---------------------------------------------------------------------------------------
  // Technology blogs
  // ---------------------------------------------------------------------------------------

  /** A fetched page's content. */
  type Page = string

  /** A link as a page yields it: its stripped text and its address resolved against the page. */
  datatype Link = Link(title: string, url: string)

  const TechBlogs: seq<string> := [
    "https://blog.stackoverflow.com/", "https://dev.to/", "https://css-tricks.com/",
    "https://www.smashingmagazine.com/"]
  const DefaultTopics: seq<string> := ["web development", "AI", "machine learning", "mobile apps", "productivity"]
  const Selectors: seq<string> := ["article a", ".post a", ".article a", ".entry a", "h2 a", "h3 a"]

  /** `urlparse(url).netloc` for an address of the form `scheme://host/path`; empty without `//`. */
  function Netloc(url: string): string {
    var k := IndexOf(url, ':');
    if k + 3 <= |url| && url[k..k + 3] == "://" then
      var rest := url[k + 3..];
      rest[..IndexOf(rest, '/')]
    else []
  }

  /** The links each selector picks out of a page, in selector order. */
  function SelectAll(page: Page, select: (Page, string) -> seq<Link>): seq<seq<Link>> {
    seq(|Selectors|, i requires 0 <= i < |Selectors| => select(page, Selectors[i]))
  }

  /** Every link of every list, in order. */
  function Flatten(lists: seq<seq<Link>>): seq<Link>
    decreases |lists|
  {
    if lists == [] then [] else lists[0] + Flatten(lists[1..])
  }

  /**
   * `article_links` after the selector loop: lists are added until at least `limit` links are
   * held; with a limit of zero or less that is after the first list.
   */
  function Gathered(lists: seq<seq<Link>>, limit: int): seq<Link>
    decreases |lists|
  {
    if lists == [] then []
    else if |lists[0]| >= limit then lists[0]
    else lists[0] + Gathered(lists[1..], limit - |lists[0]|)
  }

  /** The links held are the leading links of all lists, and at least `limit` of them unless every list was taken. */
  lemma {:induction false} GatheredPrefix(lists: seq<seq<Link>>, limit: int)
    ensures Gathered(lists, limit) <= Flatten(lists)
    ensures |Gathered(lists, limit)| < limit ==> Gathered(lists, limit) == Flatten(lists)
    decreases |lists|
  {
    if lists != [] && |lists[0]| < limit {
      GatheredPrefix(lists[1..], limit - |lists[0]|);
    }
  }

  /** For a limit of zero or more the early stop changes nothing: `article_links[:limit]` is the first `limit` links of all selectors. */
  lemma GatheredTake(lists: seq<seq<Link>>, limit: int)
    requires limit >= 0
    ensures PyTake(Gathered(lists, limit), limit) == PyTake(Flatten(lists), limit)
  {
    GatheredPrefix(lists, limit);
    var g := Gathered(lists, limit);
    var f := Flatten(lists);
    if |g| >= limit {
      assert g[..limit] == f[..limit];
    }
  }

  /** The selector loop of `scrape_tech_blogs`. */
  method GatherLinks(page: Page, select: (Page, string) -> seq<Link>, limit: int) returns (links: seq<Link>)
    ensures links == Gathered(SelectAll(page, select), limit)
  {
    var lists := SelectAll(page, select);
    links := [];
    var i := 0;
    while i < |Selectors|
      invariant 0 <= i <= |Selectors|
      invariant links + Gathered(lists[i..], limit - |links|) == Gathered(lists, limit)
      invariant i > 0 ==> |links| < limit
    {
      assert lists[i..][1..] == lists[i + 1..];
      links := links + select(page, Selectors[i]);
      if |links| >= limit {
        return;
      }
      i := i + 1;
    }
  }

  /** One link of a blog page: skipped without a title or address, or when no topic occurs in the title. */
  function BlogIdea(blogUrl: string, topics: seq<string>, link: Link): Option<ScrapedIdea> {
    if link.title == [] || link.url == [] then None
    else if topics != [] && !AnyContained(LowerAll(topics), Lower(link.title)) then None
    else Some(ScrapedIdea(link.title, "Article from " + Netloc(blogUrl), "Tech Blog", link.url,
                          topics, "intermediate", []))
  }

  /** What one blog yields: `None` when its page could not be fetched. */
  function BlogBatch(fetch: string -> Option<Page>, select: (Page, string) -> seq<Link>,
                     topics: seq<string>, limit: int, blogUrl: string): Batch
  {
    match fetch(blogUrl)
    case None => None
    case Some(page) =>
      var links := PyTake(Gathered(SelectAll(page, select), limit), limit);
      Some(seq(|links|, j requires 0 <= j < |links| => BlogIdea(blogUrl, topics, links[j])))
  }

  function BlogBatches(fetch: string -> Option<Page>, select: (Page, string) -> seq<Link>,
                       topics: seq<string>, limit: int): seq<Batch>
  {
    seq(|TechBlogs|, i requires 0 <= i < |TechBlogs| => BlogBatch(fetch, select, topics, limit, TechBlogs[i]))
  }

  function OrDefault(topics: Option<seq<string>>, default: seq<string>): seq<string> {
    match topics
    case Some(ts) => ts
    case None => default
  }

  /**
   * `scrape_tech_blogs`: pages are given by `fetch` (`None` for a failed request) and the links
   * a CSS selector picks out of a page by `select`.
   */
  method ScrapeTechBlogs(fetch: string -> Option<Page>, select: (Page, string) -> seq<Link>,
                         topics: Option<seq<string>>, limit: int) returns (ideas: seq<ScrapedIdea>)
    ensures ideas == Collected(BlogBatches(fetch, select, OrDefault(topics, DefaultTopics), limit), limit)
  {
    var ts := OrDefault(topics, DefaultTopics);
    ghost var spec := BlogBatches(fetch, select, ts, limit);
    var batches: seq<Batch> := [];
    var i := 0;
    while i < |TechBlogs|
      invariant 0 <= i <= |TechBlogs|
      invariant batches == spec[..i]
    {
      var blogUrl := TechBlogs[i];
      var response := fetch(blogUrl);
      if response.None? {
        batches := batches + [None];
      } else {
        var articleLinks := GatherLinks(response.value, select, limit);
        var links := PyTake(articleLinks, limit);
        batches := batches + [Some(seq(|links|, j requires 0 <= j < |links| => BlogIdea(blogUrl, ts, links[j])))];
      }
      assert spec[..i + 1] == spec[..i] + [spec[i]];
      i := i + 1;
    }
    assert spec[..i] == spec;
    ideas := Collect(batches, limit);
  }

  /** What `BlogIdeasFacts` states of every idea. */
  ghost predicate BlogIdeaShape(x: ScrapedIdea, topics: seq<string>) {
    x.title != [] && x.url != [] && x.source == "Tech Blog" && x.difficulty == "intermediate" &&
    x.tags == topics && x.techStack == [] &&
    (topics != [] ==> exists t :: t in topics && Contains(Lower(x.title), Lower(t)))
  }

  lemma BlogIdeaHasShape(blogUrl: string, topics: seq<string>, link: Link)
    requires BlogIdea(blogUrl, topics, link).Some?
    ensures BlogIdeaShape(BlogIdea(blogUrl, topics, link).value, topics)
  {
    if topics != [] {
      var k :| k in LowerAll(topics) && Contains(Lower(link.title), k);
      var n :| 0 <= n < |topics| && LowerAll(topics)[n] == k;
      assert topics[n] in topics;
    }
  }

  lemma BlogBatchHasShape(fetch: string -> Option<Page>, select: (Page, string) -> seq<Link>,
                          topics: seq<string>, limit: int, blogUrl: string, x: ScrapedIdea)
    requires BlogBatch(fetch, select, topics, limit, blogUrl).Some?
    requires Some(x) in BlogBatch(fetch, select, topics, limit, blogUrl).value
    ensures BlogIdeaShape(x, topics)
  {
    var xs := BlogBatch(fetch, select, topics, limit, blogUrl).value;
    var links := PyTake(Gathered(SelectAll(fetch(blogUrl).value, select), limit), limit);
    var j :| 0 <= j < |xs| && xs[j] == Some(x);
    BlogIdeaHasShape(blogUrl, topics, links[j]);
  }

  /**
   * Every blog idea has a title and an address, comes from "Tech Blog" at level "intermediate",
   * carries the topics as its tags, and has one of them in its title when there are topics;
   * there are at most `limit` of them (one when `limit` is zero or less).
   */
  lemma BlogIdeasFacts(fetch: string -> Option<Page>, select: (Page, string) -> seq<Link>,
                       topics: seq<string>, limit: int)
    ensures |Collected(BlogBatches(fetch, select, topics, limit), limit)| <= if limit >= 1 then limit else 1
    ensures forall x :: x in Collected(BlogBatches(fetch, select, topics, limit), limit) ==> BlogIdeaShape(x, topics)
  {
    var batches := BlogBatches(fetch, select, topics, limit);
    CollectedBounds(batches, limit);
    forall x | x in Collected(batches, limit) ensures BlogIdeaShape(x, topics) {
      CandidateOrigin(batches, x);
      var i :| 0 <= i < |batches| && batches[i].Some? && Some(x) in batches[i].value;
      BlogBatchHasShape(fetch, select, topics, limit, TechBlogs[i], x);
    }
  }

  // ---------------------------------------------------------------------------------------
  // Stack Overflow
  // ---------------------------------------------------------------------------------------

  const DefaultTags: seq<string> := ["python", "javascript", "react", "node.js", "ai", "machine-learning"]

  /** The question list of a tag, most voted first. */
  function TagUrl(tag: string): string {
    "https://stackoverflow.com/questions/tagged/" + tag + "?sort=votes&pagesize=50"
  }

  /** One question link: skipped without a title; its tech keywords become both tags and stack. */
  function QuestionIdea(tag: string, link: Link): Option<ScrapedIdea> {
    if link.title == [] then None
    else
      var keywords := KeywordsIn(TechTerms, Lower(link.title));
      Some(ScrapedIdea("Stack Overflow: " + link.title, "Popular question about " + tag, "Stack Overflow",
                       link.url, [tag] + keywords, "intermediate", keywords))
  }

  /** What one tag's page yields: `None` when it could not be fetched. */
  function QuestionBatch(fetch: string -> Option<Page>, questions: Page -> seq<Link>, limit: int, tag: string): Batch {
    match fetch(TagUrl(tag))
    case None => None
    case Some(page) =>
      var links := PyTake(questions(page), limit);
      Some(seq(|links|, j requires 0 <= j < |links| => QuestionIdea(tag, links[j])))
  }

  function QuestionBatches(fetch: string -> Option<Page>, questions: Page -> seq<Link>,
                           tags: seq<string>, limit: int): seq<Batch>
  {
    seq(|tags|, i requires 0 <= i < |tags| => QuestionBatch(fetch, questions, limit, tags[i]))
  }

  /**
   * `scrape_stackoverflow_trends`: pages are given by `fetch` and the question links of a page
   * by `questions`.
   */
  method ScrapeStackOverflowTrends(fetch: string -> Option<Page>, questions: Page -> seq<Link>,
                                   tags: Option<seq<string>>, limit: int) returns (ideas: seq<ScrapedIdea>)
    ensures ideas == Collected(QuestionBatches(fetch, questions, OrDefault(tags, DefaultTags), limit), limit)
  {
    var ts := OrDefault(tags, DefaultTags);
    ghost var spec := QuestionBatches(fetch, questions, ts, limit);
    var batches: seq<Batch> := [];
    var i := 0;
    while i < |ts|
      invariant 0 <= i <= |ts|
      invariant batches == spec[..i]
    {
      var tag := ts[i];
      var response := fetch(TagUrl(tag));
      if response.None? {
        batches := batches + [None];
      } else {
        var links := PyTake(questions(response.value), limit);
        batches := batches + [Some(seq(|links|, j requires 0 <= j < |links| => QuestionIdea(tag, links[j])))];
      }
      assert spec[..i + 1] == spec[..i] + [spec[i]];
      i := i + 1;
    }
    assert spec[..i] == spec;
    ideas := Collect(batches, limit);
  }

  /** What `QuestionIdeasFacts` states of every idea. */
  ghost predicate QuestionIdeaShape(x: ScrapedIdea, tags: seq<string>) {
    x.source == "Stack Overflow" && x.difficulty == "intermediate" &&
    exists tag, title :: tag in tags && title != [] &&
      x.title == "Stack Overflow: " + title && x.description == "Popular question about " + tag &&
      x.techStack == KeywordsIn(TechTerms, Lower(title)) && x.tags == [tag] + x.techStack
  }

  lemma QuestionBatchHasShape(fetch: string -> Option<Page>, questions: Page -> seq<Link>,
                              tags: seq<string>, limit: int, i: nat, x: ScrapedIdea)
    requires i < |tags|
    requires QuestionBatch(fetch, questions, limit, tags[i]).Some?
    requires Some(x) in QuestionBatch(fetch, questions, limit, tags[i]).value
    ensures QuestionIdeaShape(x, tags)
  {
    var xs := QuestionBatch(fetch, questions, limit, tags[i]).value;
    var links := PyTake(questions(fetch(TagUrl(tags[i])).value), limit);
    var j :| 0 <= j < |xs| && xs[j] == Some(x);
    assert tags[i] in tags;
    assert x.title == "Stack Overflow: " + links[j].title;
  }

  /**
   * Every question idea comes from "Stack Overflow" at level "intermediate", names one of the
   * tags, and lists the tech keywords of its question's title as its stack and, after the tag,
   * as its tags; there are at most `limit` of them (one when `limit` is zero or less).
   */
  lemma QuestionIdeasFacts(fetch: string -> Option<Page>, questions: Page -> seq<Link>,
                           tags: seq<string>, limit: int)
    ensures |Collected(QuestionBatches(fetch, questions, tags, limit), limit)| <= if limit >= 1 then limit else 1
    ensures forall x :: x in Collected(QuestionBatches(fetch, questions, tags, limit), limit) ==> QuestionIdeaShape(x, tags)
  {
    var batches := QuestionBatches(fetch, questions, tags, limit);
    CollectedBounds(batches, limit);
    forall x | x in Collected(batches, limit) ensures QuestionIdeaShape(x, tags) {
      CandidateOrigin(batches, x);
      var i :| 0 <= i < |batches| && batches[i].Some? && Some(x) in batches[i].value;
      QuestionBatchHasShape(fetch, questions, tags, limit, i, x);
    }
  }

  // ---------------------------------------------------------------------------------------
  // The report
  // ---------------------------------------------------------------------------------------

  /** The `statistics` of the report; the two tables hold (word, count) rows. */
  datatype Statistics = Statistics(
    totalIdeas: int,
    byDifficulty: seq<(string, int)>,
    bySource: seq<(string, int)>,
    mostCommonTags: seq<Entry>,
    mostCommonTech: seq<Entry>)

  /** The report without its timestamps: statistics, the difficulty buckets and the ideas kept. */
  datatype Report = Report(statistics: Statistics, ideasByDifficulty: Buckets, allIdeas: seq<ScrapedIdea>)

  /** Number of ideas from the given source. */
  function CountSource(ideas: seq<ScrapedIdea>, source: string): nat
    decreases |ideas|
  {
    if ideas == [] then 0
    else CountSource(ideas[..|ideas| - 1], source) + (if ideas[|ideas| - 1].source == source then 1 else 0)
  }

  /** Ideas are counted under at most one of three different sources. */
  lemma {:induction false} SourcesDisjoint(ideas: seq<ScrapedIdea>, a: string, b: string, c: string)
    requires a != b && b != c && a != c
    ensures CountSource(ideas, a) + CountSource(ideas, b) + CountSource(ideas, c) <= |ideas|
    decreases |ideas|
  {
    if ideas != [] {
      SourcesDisjoint(ideas[..|ideas| - 1], a, b, c);
    }
  }

  function TagLists(ideas: seq<ScrapedIdea>): seq<seq<string>> {
    seq(|ideas|, i requires 0 <= i < |ideas| => ideas[i].tags)
  }

  function TechLists(ideas: seq<ScrapedIdea>): seq<seq<string>> {
    seq(|ideas|, i requires 0 <= i < |ideas| => ideas[i].techStack)
  }

  /** `_get_most_common_tags`: the ten most frequent lower-cased tags. */
  method MostCommonTags(ideas: seq<ScrapedIdea>) returns (top: seq<Entry>)
    ensures top == Top(LoweredWords(TagLists(ideas)), 10)
  {
    var counts := CountLowered(TagLists(ideas));
    top := PyTake(SortDesc(counts), 10);
  }

  /** `_get_most_common_tech`: the ten most frequent lower-cased technologies. */
  method MostCommonTech(ideas: seq<ScrapedIdea>) returns (top: seq<Entry>)
    ensures top == Top(LoweredWords(TechLists(ideas)), 10)
  {
    var counts := CountLowered(TechLists(ideas));
    top := PyTake(SortDesc(counts), 10);
  }

  /** The report built from the combined ideas, or the `KeyError` of an unknown level. */
  function ReportOf(all: seq<ScrapedIdea>): Result<Report> {
    var unique := UniqueByUrl(all);
    match Categorized(unique)
    case Failure(e) => Failure(e)
    case Success(b) =>
      var stats := Statistics(
        |unique|,
        [("beginner", |b.beginner|), ("intermediate", |b.intermediate|), ("advanced", |b.advanced|)],
        [("GitHub Trending", CountSource(unique, "GitHub Trending")),
         ("Tech Blogs", CountSource(unique, "Tech Blog")),
         ("Stack Overflow", CountSource(unique, "Stack Overflow"))],
        Top(LoweredWords(TagLists(unique)), 10),
        Top(LoweredWords(TechLists(unique)), 10));
      Success(Report(stats, b, unique))
  }

  /** Sum of the second components. */
  function SumCounts(rows: seq<(string, int)>): int
    decreases |rows|
  {
    if rows == [] then 0 else rows[0].1 + SumCounts(rows[1..])
  }

  lemma SumThree(rows: seq<(string, int)>)
    requires |rows| == 3
    ensures SumCounts(rows) == rows[0].1 + rows[1].1 + rows[2].1
  {
    var t := rows[1..];
    var u := t[1..];
    assert u[1..] == [];
    assert SumCounts(u) == u[0].1 + SumCounts(u[1..]);
    assert SumCounts(t) == t[0].1 + SumCounts(u);
  }

  /**
   * The report exists exactly when every kept idea has a known level. It then keeps one idea
   * per URL, the first, with the URLs of the input; its total is the number kept, the levels
   * add up to the total and the sources to at most the total.
   */
  lemma ReportCorrect(all: seq<ScrapedIdea>)
    ensures ReportOf(all).Success? <==> forall x :: x in UniqueByUrl(all) ==> x.difficulty in Levels
    ensures ReportOf(all).Success? ==>
      var r := ReportOf(all).value;
      r.allIdeas == UniqueByUrl(all) && DistinctUrls(r.allIdeas) && Urls(r.allIdeas) == Urls(all) &&
      r.statistics.totalIdeas == |r.allIdeas| &&
      SumCounts(r.statistics.byDifficulty) == r.statistics.totalIdeas &&
      SumCounts(r.statistics.bySource) <= r.statistics.totalIdeas
  {
    var unique := UniqueByUrl(all);
    UniqueUrls(all);
    CategorizedSucceeds(unique);
    if Categorized(unique).Success? {
      CategorizedBuckets(unique);
      BucketsPartition(unique);
      SourcesDisjoint(unique, "GitHub Trending", "Tech Blog", "Stack Overflow");
      var b := Categorized(unique).value;
      assert |multiset(b.beginner)| + |multiset(b.intermediate)| + |multiset(b.advanced)| == |multiset(unique)|;
      SumThree(ReportOf(all).value.statistics.byDifficulty);
      SumThree(ReportOf(all).value.statistics.bySource);
    }
  }

  /**
   * `generate_app_ideas_report` without its output file: `github` stands for the repositories
   * scraped from GitHub, the blogs and Stack Overflow are scraped with a limit of ten each.
   */
  method GenerateAppIdeasReport(github: seq<ScrapedIdea>, fetch: string -> Option<Page>,
                                select: (Page, string) -> seq<Link>, questions: Page -> seq<Link>)
    returns (report: Result<Report>)
    ensures report == ReportOf(github + Collected(BlogBatches(fetch, select, DefaultTopics, 10), 10) +
                               Collected(QuestionBatches(fetch, questions, DefaultTags, 10), 10))
  {
    var blogIdeas := ScrapeTechBlogs(fetch, select, None, 10);
    var questionIdeas := ScrapeStackOverflowTrends(fetch, questions, None, 10);
    var allIdeas := github + blogIdeas + questionIdeas;
    var uniqueIdeas := DedupByUrl(allIdeas);
    var categorized := Categorize(uniqueIdeas);
    if categorized.Failure? {
      return Failure(categorized.error);
    }
    var b := categorized.value;
    var tags := MostCommonTags(uniqueIdeas);
    var tech := MostCommonTech(uniqueIdeas);
    var stats := Statistics(
      |uniqueIdeas|,
      [("beginner", |b.beginner|), ("intermediate", |b.intermediate|), ("advanced", |b.advanced|)],
      [("GitHub Trending", CountSource(uniqueIdeas, "GitHub Trending")),
       ("Tech Blogs", CountSource(uniqueIdeas, "Tech Blog")),
       ("Stack Overflow", CountSource(uniqueIdeas, "Stack Overflow"))],
      tags, tech);
    report := Success(Report(stats, b, uniqueIdeas));
  }

  /**
   * The scrapers only produce known levels, so when the GitHub ideas have known levels the
   * report is always produced, with at most twenty ideas more than GitHub gave.
   */
  lemma ScrapedReportSucceeds(github: seq<ScrapedIdea>, fetch: string -> Option<Page>,
                              select: (Page, string) -> seq<Link>, questions: Page -> seq<Link>)
    requires forall x :: x in github ==> x.difficulty in Levels
    ensures ReportOf(github + Collected(BlogBatches(fetch, select, DefaultTopics, 10), 10) +
                     Collected(QuestionBatches(fetch, questions, DefaultTags, 10), 10)).Success?
    ensures ReportOf(github + Collected(BlogBatches(fetch, select, DefaultTopics, 10), 10) +
                     Collected(QuestionBatches(fetch, questions, DefaultTags, 10), 10)).value.statistics.totalIdeas
            <= |github| + 20
  {
    var blogs := Collected(BlogBatches(fetch, select, DefaultTopics, 10), 10);
    var qs := Collected(QuestionBatches(fetch, questions, DefaultTags, 10), 10);
    var all := github + blogs + qs;
    BlogIdeasFacts(fetch, select, DefaultTopics, 10);
    QuestionIdeasFacts(fetch, questions, DefaultTags, 10);
    UniqueFirsts(all);
    forall x | x in UniqueByUrl(all) ensures x.difficulty in Levels {
      assert FirstOfUrl(all, x);
      assert x in all;
    }
    ReportCorrect(all);
    UniqueInOrder(all);
    SubsequenceLength(UniqueByUrl(all), all);
  }
}
