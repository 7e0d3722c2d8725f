/** Keyword classification: weighted keyword counts per category, the first
    category with the top score, and a confidence derived from the scores. */
module Classifier {
  import opened Wrappers
  import opened Text
  import opened Config
  import opened Parser

  /** `calculate_keyword_score`: the hits of every listed keyword (duplicates
      included), lower-cased, in the lower-cased text. */
  function KeywordScore(text: string, keywords: seq<string>): nat
  {
    if |keywords| == 0 then 0
    else KeywordScore(text, keywords[..|keywords| - 1]) + Count(Lower(text), Lower(keywords[|keywords| - 1]))
  }

  /** `calculate_keyword_score`, accumulating the hits keyword by keyword. */
  method CalculateKeywordScore(text: string, keywords: seq<string>) returns (matches: nat)
    ensures matches == KeywordScore(text, keywords)
  {
    matches := 0;
    var textLower := Lower(text);
    for i := 0 to |keywords|
      invariant matches == KeywordScore(text, keywords[..i])
    {
      var keywordLower := Lower(keywords[i]);
      assert keywords[..i + 1][..i] == keywords[..i];
      matches := matches + Count(textLower, keywordLower);
    }
    assert keywords[..|keywords|] == keywords;
  }

  /** The score of a keyword list is the sum of the scores of its parts, so a
      keyword listed twice is counted twice. */
  lemma {:induction false} KeywordScoreAppend(text: string, a: seq<string>, b: seq<string>)
    ensures KeywordScore(text, a + b) == KeywordScore(text, a) + KeywordScore(text, b)
    decreases |b|
  {
    if |b| > 0 {
      var b' := b[..|b| - 1];
      var last := b[|b| - 1];
      assert (a + b)[..|a + b| - 1] == a + b';
      assert (a + b)[|a + b| - 1] == last;
      KeywordScoreAppend(text, a, b');
      calc {
        KeywordScore(text, a + b);
        KeywordScore(text, a + b') + Count(Lower(text), Lower(last));
        KeywordScore(text, a) + KeywordScore(text, b') + Count(Lower(text), Lower(last));
        KeywordScore(text, a) + KeywordScore(text, b);
      }
    } else {
      assert a + b == a;
    }
  }

  /** No hit in an empty text for a list of non-empty keywords. */
  lemma {:induction false} KeywordScoreOfEmptyText(keywords: seq<string>)
    requires forall k :: k in keywords ==> |k| > 0
    ensures KeywordScore("", keywords) == 0
  {
    if |keywords| > 0 {
      KeywordScoreOfEmptyText(keywords[..|keywords| - 1]);
      assert keywords[|keywords| - 1] in keywords;
    }
  }

  lemma KeywordScorePrefixStep(text: string, keywords: seq<string>, n: nat)
    requires n < |keywords|
    ensures KeywordScore(text, keywords[..n + 1])
            == KeywordScore(text, keywords[..n]) + Count(Lower(text), Lower(keywords[n]))
  {
    assert keywords[..n + 1][..n] == keywords[..n];
  }

  /** Every listed keyword contributes its hits to the score. */
  lemma {:induction false} KeywordScoreCountsListing(text: string, keywords: seq<string>, i: nat)
    requires i < |keywords|
    ensures KeywordScore(text, keywords) >= Count(Lower(text), Lower(keywords[i]))
    decreases |keywords|
  {
    var prefix := keywords[..|keywords| - 1];
    if i < |keywords| - 1 {
      assert prefix[i] == keywords[i];
      KeywordScoreCountsListing(text, prefix, i);
    }
  }

  /** A keyword listed at two positions contributes its hits twice. */
  lemma {:induction false} KeywordScoreCountsTwoListings(text: string, keywords: seq<string>, i: nat, j: nat)
    requires i < j < |keywords|
    ensures KeywordScore(text, keywords)
            >= Count(Lower(text), Lower(keywords[i])) + Count(Lower(text), Lower(keywords[j]))
    decreases |keywords|
  {
    var prefix := keywords[..|keywords| - 1];
    assert prefix[i] == keywords[i];
    if j < |keywords| - 1 {
      assert prefix[j] == keywords[j];
      KeywordScoreCountsTwoListings(text, prefix, i, j);
    } else {
      KeywordScoreCountsListing(text, prefix, i);
    }
  }

  /** "enrollment" is listed twice among the university keywords, so each of
      its hits adds two to the university score. */
  lemma EnrollmentCountsTwice(text: string)
    ensures KeywordScore(text, Keywords(UniversityDocs)) >= 2 * Count(Lower(text), "enrollment")
  {
    EnrollmentListedTwice();
    var ks := Keywords(UniversityDocs);
    assert Lower("enrollment") == "enrollment";
    KeywordScoreCountsTwoListings(text, ks, 2, 15);
  }

  /** "course" and "courses" are both university keywords, and every
      "courses" holds a "course", so each "courses" adds two to the
      university score. */
  lemma CoursesCountsTwice(text: string)
    ensures KeywordScore(text, Keywords(UniversityDocs)) >= 2 * Count(Lower(text), "courses")
  {
    var ks := Keywords(UniversityDocs);
    assert ks[5] == "course" && ks[17] == "courses";
    assert Lower("course") == "course";
    assert Lower("courses") == "courses";
    KeywordScoreCountsTwoListings(text, ks, 5, 17);
    FirstCharUniqueNoOverlap("course");
    assert "course" + "s" == "courses";
    CountOfPrefixWord(Lower(text), "course", "s");
  }

  /** The name as scored: underscores and hyphens read as spaces. */
  function FilenameText(filename: string): string
  {
    ReplaceChar(ReplaceChar(filename, '_', ' '), '-', ' ')
  }

  /** One category's score: weighted file-name hits plus weighted content hits. */
  function Score(filenameText: string, content: string, c: Category): real
  {
    FilenameWeight * (KeywordScore(filenameText, Keywords(c)) as real)
    + ContentWeight * (KeywordScore(content, Keywords(c)) as real)
  }

  /** A keyword hit in the file name weighs one and a half times the same
      hit in the content: the same text scores 1.5 times as much as a file
      name with no content as it does as content under an empty name. */
  lemma FilenameWeighsMore(text: string, c: Category)
    ensures Score(text, "", c) == 1.5 * Score("", text, c)
  {
    KeywordsNonEmpty(c);
    KeywordScoreOfEmptyText(Keywords(c));
  }

  /** The scores of all three categories. */
  function ScoresOf(filenameText: string, content: string): (s: map<Category, real>)
    ensures forall c :: c in s <==> c in CategoryOrder
    ensures forall c :: c in s ==> s[c] >= 0.0
  {
    map c | c in CategoryOrder :: Score(filenameText, content, c)
  }

  /** The keywords of a list, in list order and with duplicates, that occur in the text. */
  function MatchedKeywords(fullText: string, keywords: seq<string>): seq<string>
  {
    if |keywords| == 0 then []
    else MatchedKeywords(fullText, keywords[..|keywords| - 1])
         + (if Contains(Lower(fullText), Lower(keywords[|keywords| - 1])) then [keywords[|keywords| - 1]] else [])
  }

  predicate AllScored(order: seq<Category>, s: map<Category, real>)
  {
    forall c :: c in order ==> c in s
  }

  /** Python's `max` with a key: scanning from index i with the best so far at
      index k, a later entry replaces the best only when strictly greater. */
  function MaxFrom(order: seq<Category>, s: map<Category, real>, i: nat, k: nat): (r: nat)
    requires k < |order| && i <= |order| && AllScored(order, s)
    ensures r < |order|
    decreases |order| - i
  {
    if i == |order| then k
    else MaxFrom(order, s, i + 1, if s[order[i]] > s[order[k]] then i else k)
  }

  /** `max(scores, key=scores.get)` over the keys in declaration order. */
  function FirstMax(order: seq<Category>, s: map<Category, real>): Category
    requires |order| > 0 && AllScored(order, s)
  {
    order[MaxFrom(order, s, 1, 0)]
  }

  /** Index k holds a top score and every earlier entry scores strictly less. */
  predicate IsFirstMaxAt(order: seq<Category>, s: map<Category, real>, k: int)
    requires AllScored(order, s)
  {
    && 0 <= k < |order|
    && (forall j :: 0 <= j < |order| ==> s[order[j]] <= s[order[k]])
    && (forall j :: 0 <= j < k ==> s[order[j]] < s[order[k]])
  }

  lemma {:induction false} MaxFromIsFirstMax(order: seq<Category>, s: map<Category, real>, i: nat, k: nat)
    requires k < i <= |order| && AllScored(order, s)
    requires IsFirstMaxAt(order[..i], s, k)
    ensures IsFirstMaxAt(order, s, MaxFrom(order, s, i, k))
    decreases |order| - i
  {
    if i == |order| {
      assert order[..i] == order;
    } else {
      var k' := if s[order[i]] > s[order[k]] then i else k;
      assert order[..i + 1][..i] == order[..i];
      forall j | 0 <= j < i + 1 ensures s[order[j]] <= s[order[k']] {
        if j < i { assert order[..i][j] == order[j]; }
      }
      forall j | 0 <= j < k' ensures s[order[j]] < s[order[k']] {
        assert order[..i][j] == order[j];
      }
      assert IsFirstMaxAt(order[..i + 1], s, k');
      MaxFromIsFirstMax(order, s, i + 1, k');
    }
  }

  /** The winner of `max` is the first category, in declaration order, among
      those with the top score. */
  lemma FirstMaxIsFirstMaximum(order: seq<Category>, s: map<Category, real>)
    requires |order| > 0 && AllScored(order, s)
    ensures IsFirstMaxAt(order, s, MaxFrom(order, s, 1, 0))
  {
    MaxFromIsFirstMax(order, s, 1, 0);
  }

  /** ... and that characterisation determines the winner's position. */
  lemma FirstMaxUnique(order: seq<Category>, s: map<Category, real>, k: int)
    requires |order| > 0 && AllScored(order, s)
    requires IsFirstMaxAt(order, s, k)
    ensures k == MaxFrom(order, s, 1, 0) && order[k] == FirstMax(order, s)
  {
    FirstMaxIsFirstMaximum(order, s);
  }

  /** Rescaling the scores without changing how they compare does not change the winner. */
  lemma {:induction false} MaxFromRespectsOrder(order: seq<Category>, s: map<Category, real>, t: map<Category, real>, i: nat, k: nat)
    requires k < |order| && i <= |order| && AllScored(order, s) && AllScored(order, t)
    requires forall a, b :: a in order && b in order ==> (s[a] < s[b] <==> t[a] < t[b])
    ensures MaxFrom(order, s, i, k) == MaxFrom(order, t, i, k)
    decreases |order| - i
  {
    if i < |order| {
      assert order[i] in order && order[k] in order;
      MaxFromRespectsOrder(order, s, t, i + 1, if s[order[i]] > s[order[k]] then i else k);
    }
  }

  /** The sum of the scores over the declaration order. */
  function Total(order: seq<Category>, s: map<Category, real>): real
    requires AllScored(order, s)
  {
    if |order| == 0 then 0.0 else Total(order[..|order| - 1], s) + s[order[|order| - 1]]
  }

  /** The total over the three categories. */
  lemma TotalOfCategories(s: map<Category, real>)
    requires AllScored(CategoryOrder, s)
    ensures Total(CategoryOrder, s) == s[UniversityDocs] + s[TechnicalWork] + s[CapstoneWork]
  {
    var o := CategoryOrder;
    assert o[..1] == [UniversityDocs] && o[..1][..0] == [];
    assert Total(o[..1], s) == s[UniversityDocs];
    assert o[..2] == [UniversityDocs, TechnicalWork] && o[..2][..1] == o[..1];
    assert Total(o[..2], s) == s[UniversityDocs] + s[TechnicalWork];
    assert o[..3][..2] == o[..2] && o[..3] == o;
  }

  lemma {:induction false} TotalBoundsEach(order: seq<Category>, s: map<Category, real>, j: nat)
    requires AllScored(order, s) && j < |order|
    requires forall c :: c in order ==> s[c] >= 0.0
    ensures 0.0 <= s[order[j]] <= Total(order, s)
  {
    var n := |order|;
    var init := order[..n - 1];
    assert forall c :: c in init ==> c in order;
    TotalNonNegative(init, s);
    if j < n - 1 {
      assert init[j] == order[j];
      TotalBoundsEach(init, s, j);
      assert order[n - 1] in order;
    }
  }

  lemma {:induction false} TotalNonNegative(order: seq<Category>, s: map<Category, real>)
    requires AllScored(order, s)
    requires forall c :: c in order ==> s[c] >= 0.0
    ensures Total(order, s) >= 0.0
  {
    if |order| > 0 {
      var init := order[..|order| - 1];
      assert forall c :: c in init ==> c in order;
      TotalNonNegative(init, s);
      assert order[|order| - 1] in order;
    }
  }

  /** `min(max(x, 0.0), 1.0)` */
  function Clamp(x: real): real
  {
    if x < 0.0 then 0.0 else if x > 1.0 then 1.0 else x
  }

  /** The raw confidence: the best score over the total plus one, or 0 when nothing scored. */
  function RawConfidence(best: real, total: real): real
  {
    if total > 0.0 then best / (total + 1.0) else 0.0
  }

  /** With non-negative scores the raw confidence lies in [0, 1), so the clamp
      never changes it. */
  lemma ConfidenceInRange(best: real, total: real)
    requires 0.0 <= best <= total
    ensures 0.0 <= RawConfidence(best, total) < 1.0
    ensures Clamp(RawConfidence(best, total)) == RawConfidence(best, total)
  {
    if total > 0.0 {
      var q := best / (total + 1.0);
      assert q * (total + 1.0) == best;
    }
  }

  /** The classification result (the diagnostic `reasoning` text is not modelled). */
  datatype ClassStatus = ClassSuccess | LowConfidence | ClassError

  datatype Classification = Classification(
    filename: string,
    category: Option<Category>,
    confidence: real,
    keywordsMatched: seq<string>,
    allScores: map<Category, real>,
    status: ClassStatus)

  /** The result for a file that does not exist. */
  function ErrorResult(name: string): Classification
  {
    Classification(name, None, 0.0, [], map[], ClassError)
  }

  /** Classification of an extracted (file name, content) pair. */
  function ClassifyText(filename: string, content: string): Classification
  {
    var filenameText := FilenameText(filename);
    var fullText := filenameText + " " + content;
    var scores := ScoresOf(filenameText, content);
    var best := FirstMax(CategoryOrder, scores);
    var confidence := Clamp(RawConfidence(scores[best], Total(CategoryOrder, scores)));
    Classification(
      filename, Some(best), confidence,
      MatchedKeywords(fullText, Keywords(best)),
      scores,
      if confidence < ScoreThreshold then LowConfidence else ClassSuccess)
  }

  /** `classify_document` for a file reference: its name and its data, absent
      when no file exists at the path. */
  function Classify(name: string, file: Option<FileData>): Classification
  {
    if file.None? then ErrorResult(name)
    else
      match Extract(name, file)
      case None => ErrorResult(name)
      case Some((filename, content)) => ClassifyText(filename, content)
  }

  /** The error status, the missing category and the missing file go together;
      any existing file gets one of the three categories. */
  lemma ErrorIffMissing(name: string, file: Option<FileData>)
    ensures var r := Classify(name, file);
      && (r.status == ClassError <==> file.None?)
      && (r.category.None? <==> file.None?)
      && (file.None? ==> r.confidence == 0.0 && r.keywordsMatched == [] && r.allScores == map[])
      && r.filename == name
  {
  }

  /** The confidence of every classification lies in [0, 1). */
  lemma ClassifyConfidenceInRange(name: string, file: Option<FileData>)
    ensures 0.0 <= Classify(name, file).confidence < 1.0
  {
    if file.Some? {
      var (filename, content) := Extract(name, file).value;
      var filenameText := FilenameText(filename);
      var scores := ScoresOf(filenameText, content);
      FirstMaxIsFirstMaximum(CategoryOrder, scores);
      var k := MaxFrom(CategoryOrder, scores, 1, 0);
      TotalBoundsEach(CategoryOrder, scores, k);
      ConfidenceInRange(scores[CategoryOrder[k]], Total(CategoryOrder, scores));
    }
  }

  /** The winner is the first category in declaration order among those with
      the top score; the status is low confidence exactly below the threshold. */
  lemma ClassifyPicksFirstTopScore(filename: string, content: string)
    ensures var r := ClassifyText(filename, content);
      && r.category.Some?
      && (forall c :: c in CategoryOrder ==> r.allScores[c] <= r.allScores[r.category.value])
      && (forall j :: 0 <= j < |CategoryOrder| && CategoryOrder[j] == r.category.value ==>
            forall i :: 0 <= i < j ==> r.allScores[CategoryOrder[i]] < r.allScores[r.category.value])
      && (r.status == LowConfidence <==> r.confidence < 0.3)
      && r.status != ClassError
  {
    var scores := ScoresOf(FilenameText(filename), content);
    FirstMaxIsFirstMaximum(CategoryOrder, scores);
  }

  /** With every score zero the result is the first category with
      confidence 0 and low confidence, never a missing category. */
  lemma ZeroScoresGiveFirstCategory(filename: string, content: string)
    requires forall c :: Score(FilenameText(filename), content, c) == 0.0
    ensures ClassifyText(filename, content).category == Some(UniversityDocs)
    ensures ClassifyText(filename, content).confidence == 0.0
    ensures ClassifyText(filename, content).status == LowConfidence
  {
    var scores := ScoresOf(FilenameText(filename), content);
    assert scores[UniversityDocs] == 0.0 && scores[TechnicalWork] == 0.0 && scores[CapstoneWork] == 0.0;
    TotalOfCategories(scores);
    assert IsFirstMaxAt(CategoryOrder, scores, 0);
    FirstMaxUnique(CategoryOrder, scores, 0);
  }

  /** With no keyword hit anywhere, every score is zero, so the result is
      the first category, with confidence 0 and low confidence. */
  lemma NoHitsGivesFirstCategory(filename: string, content: string)
    requires forall c :: KeywordScore(FilenameText(filename), Keywords(c)) == 0
    requires forall c :: KeywordScore(content, Keywords(c)) == 0
    ensures ClassifyText(filename, content).category == Some(UniversityDocs)
    ensures ClassifyText(filename, content).confidence == 0.0
    ensures ClassifyText(filename, content).status == LowConfidence
  {
    forall c ensures Score(FilenameText(filename), content, c) == 0.0 {
    }
    ZeroScoresGiveFirstCategory(filename, content);
  }

  /** Every keyword that scores in the file name or in the content is listed
      as matched: both texts are part of the text searched for matches. */
  lemma {:induction false} HitsAreMatched(filenameText: string, content: string, keywords: seq<string>, k: string)
    requires k in keywords && |k| > 0
    requires Count(Lower(filenameText), Lower(k)) > 0 || Count(Lower(content), Lower(k)) > 0
    ensures k in MatchedKeywords(filenameText + " " + content, keywords)
  {
    var full := filenameText + " " + content;
    var lk := Lower(k);
    assert Lower(full) == Lower(filenameText) + Lower(" ") + Lower(content);
    if Count(Lower(filenameText), lk) > 0 {
      CountPositiveIffContains(Lower(filenameText), lk);
      var i :| 0 <= i <= |Lower(filenameText)| - |lk| && OccursAt(Lower(filenameText), lk, i);
      assert Lower(full)[i..i + |lk|] == Lower(filenameText)[i..i + |lk|];
      assert OccursAt(Lower(full), lk, i);
    } else {
      CountPositiveIffContains(Lower(content), lk);
      var i :| 0 <= i <= |Lower(content)| - |lk| && OccursAt(Lower(content), lk, i);
      var off := |filenameText| + 1;
      assert Lower(full)[off + i..off + i + |lk|] == Lower(content)[i..i + |lk|];
      assert OccursAt(Lower(full), lk, off + i);
    }
    MatchedContainsAllOccurring(full, keywords, k);
  }

  lemma {:induction false} MatchedContainsAllOccurring(fullText: string, keywords: seq<string>, k: string)
    requires k in keywords && Contains(Lower(fullText), Lower(k))
    ensures k in MatchedKeywords(fullText, keywords)
  {
    var n := |keywords|;
    if keywords[n - 1] != k {
      assert k in keywords[..n - 1];
      MatchedContainsAllOccurring(fullText, keywords[..n - 1], k);
    }
  }

  /** Only keywords of the list that occur in the lower-cased text are
      listed as matched. */
  lemma {:induction false} MatchedAreOccurring(fullText: string, keywords: seq<string>, k: string)
    requires k in MatchedKeywords(fullText, keywords)
    ensures k in keywords && Contains(Lower(fullText), Lower(k))
  {
    var n := |keywords|;
    if k in MatchedKeywords(fullText, keywords[..n - 1]) {
      MatchedAreOccurring(fullText, keywords[..n - 1], k);
      assert keywords[..n - 1] <= keywords;
    }
  }

  /** A hit is not needed for a match, though: a keyword can be matched
      across the space that joins the file name to the content while scoring
      nothing. */
  lemma MatchedWithoutHit()
    ensures "data collection" in MatchedKeywords("data" + " " + "collection", Keywords(CapstoneWork))
    ensures Count(Lower("data"), Lower("data collection")) == 0
    ensures Count(Lower("collection"), Lower("data collection")) == 0
  {
    var full := "data" + " " + "collection";
    assert full == "data collection";
    assert Lower(full) == full;
    assert Lower("data collection") == "data collection";
    assert OccursAt(Lower(full), Lower("data collection"), 0);
    assert Keywords(CapstoneWork)[5] == "data collection";
    MatchedContainsAllOccurring(full, Keywords(CapstoneWork), "data collection");
  }

  /** The matched-keyword loop of `classify_document`. */
  method CollectMatched(fullText: string, keywords: seq<string>) returns (matched: seq<string>)
    ensures matched == MatchedKeywords(fullText, keywords)
  {
    matched := [];
    for j := 0 to |keywords|
      invariant matched == MatchedKeywords(fullText, keywords[..j])
    {
      assert keywords[..j + 1][..j] == keywords[..j];
      if Contains(Lower(fullText), Lower(keywords[j])) {
        matched := matched + [keywords[j]];
      }
    }
    assert keywords[..|keywords|] == keywords;
  }

  /** The scoring loop of `classify_document`: each category's score and
      matched keywords, filled category by category. */
  method ScoreCategories(filenameText: string, content: string)
    returns (scores: map<Category, real>, matchedPerCategory: map<Category, seq<string>>)
    ensures scores == ScoresOf(filenameText, content)
    ensures forall c :: c in matchedPerCategory <==> c in CategoryOrder
    ensures forall c :: c in matchedPerCategory ==>
      matchedPerCategory[c] == MatchedKeywords(filenameText + " " + content, Keywords(c))
  {
    var fullText := filenameText + " " + content;
    scores := map[];
    matchedPerCategory := map[];
    for i := 0 to |CategoryOrder|
      invariant forall c :: c in scores <==> c in CategoryOrder[..i]
      invariant forall c :: c in matchedPerCategory <==> c in CategoryOrder[..i]
      invariant forall c :: c in scores ==> scores[c] == Score(filenameText, content, c)
      invariant forall c :: c in matchedPerCategory ==> matchedPerCategory[c] == MatchedKeywords(fullText, Keywords(c))
    {
      var category := CategoryOrder[i];
      var keywords := Keywords(category);
      var filenameScore := CalculateKeywordScore(filenameText, keywords);
      var contentScore := CalculateKeywordScore(content, keywords);
      scores := scores[category := FilenameWeight * (filenameScore as real) + ContentWeight * (contentScore as real)];
      assert scores[category] == Score(filenameText, content, category);
      var matched := CollectMatched(fullText, keywords);
      matchedPerCategory := matchedPerCategory[category := matched];
      assert CategoryOrder[..i + 1] == CategoryOrder[..i] + [category];
    }
    ScoresComplete(scores, filenameText, content);
  }

  /** A map holding every category's score is the map of all scores. */
  lemma ScoresComplete(scores: map<Category, real>, filenameText: string, content: string)
    requires forall c :: c in scores <==> c in CategoryOrder[..|CategoryOrder|]
    requires forall c :: c in scores ==> scores[c] == Score(filenameText, content, c)
    ensures scores == ScoresOf(filenameText, content)
  {
    assert CategoryOrder[..|CategoryOrder|] == CategoryOrder;
  }

  /** `classify_document`: scores and matched keywords are filled category by category. */
  method ClassifyDocument(name: string, file: Option<FileData>) returns (r: Classification)
    ensures r == Classify(name, file)
  {
    if file.None? {
      return ErrorResult(name);
    }
    var extracted := ExtractContent(name, file);
    if extracted.None? {
      return ErrorResult(name);
    }
    var (filename, content) := extracted.value;
    var filenameText := FilenameText(filename);
    var scores, matchedPerCategory := ScoreCategories(filenameText, content);
    var best := FirstMax(CategoryOrder, scores);
    var total := Total(CategoryOrder, scores);
    var confidence := if total > 0.0 then scores[best] / (total + 1.0) else 0.0;
    confidence := Clamp(confidence);
    var status := if confidence < ScoreThreshold then LowConfidence else ClassSuccess;
    r := Classification(filename, Some(best), confidence, matchedPerCategory[best], scores, status);
  }

  /** The classifications of a list of files, in list order. */
  function ClassifyAll(files: seq<(string, Option<FileData>)>): (rs: seq<Classification>)
    ensures |rs| == |files|
  {
    if |files| == 0 then []
    else ClassifyAll(files[..|files| - 1]) + [Classify(files[|files| - 1].0, files[|files| - 1].1)]
  }

  /** Each file's result sits at the file's own position. */
  lemma {:induction false} ClassifyAllInOrder(files: seq<(string, Option<FileData>)>, i: nat)
    requires i < |files|
    ensures ClassifyAll(files)[i] == Classify(files[i].0, files[i].1)
    decreases |files|
  {
    var n := |files| - 1;
    var init := files[..n];
    assert ClassifyAll(files) == ClassifyAll(init) + [Classify(files[n].0, files[n].1)];
    if i < n {
      ClassifyAllInOrder(init, i);
      assert init[i] == files[i];
    }
  }

  /** `batch_classify`: one result per input, in input order. */
  method BatchClassify(files: seq<(string, Option<FileData>)>) returns (results: seq<Classification>)
    ensures results == ClassifyAll(files)
  {
    results := [];
    for i := 0 to |files|
      invariant results == ClassifyAll(files[..i])
    {
      var result := ClassifyDocument(files[i].0, files[i].1);
      assert files[..i + 1][..i] == files[..i];
      results := results + [result];
    }
    assert files[..|files|] == files;
  }
}
