/**
 * The phase-one scenario generator: every student profile is paired with
 * every content segment and every question position, in that nesting order,
 * and each scenario carries the sample exchanges that precede its question.
 */
module GenerateScenarios {
  import Text
  import Seqs

  datatype Profile = Profile(age: int, grade: int, depthPreference: string)

  datatype Segment = Segment(
    id: int, title: string, summary: string, keyConcepts: seq<string>,
    difficultyLevel: string, timePeriod: string)

  datatype Exchange = Exchange(question: string, answer: string)

  datatype Scenario = Scenario(
    id: string, studentProfile: Profile, contentSegment: Segment,
    questionNumber: int, previousQa: seq<Exchange>)

  const StudentProfiles: seq<Profile> := [
    Profile(14, 9, "surface"),
    Profile(15, 9, "moderate"),
    Profile(15, 10, "moderate"),
    Profile(16, 10, "deep"),
    Profile(16, 11, "moderate"),
    Profile(17, 11, "deep"),
    Profile(17, 12, "deep"),
    Profile(18, 12, "moderate"),
    Profile(14, 9, "deep"),
    Profile(18, 12, "surface")
  ]

  /** The summary text of each content segment, by segment id (1 to 4). */
  function Summary(segmentId: int): string {
    if segmentId == 1 then
      "Tredegar Iron Works was founded in Richmond, Virginia " + "in 1837 by Francis B. Deane Jr. Located along the James " + "River, it became the South's " + "largest ironworks. The facility " + "produced railroad equipment, including locomotives, rails, " + "and spikes. Richmond's strategic " + "location near water transportation " + "and coal deposits made it ideal for industrial development " + "during America's early Industrial Revolution."
    else if segmentId == 2 then
      "During the Civil War (1861-1865), " + "Tredegar became the Confederacy's " + "most important industrial asset. The facility produced " + "cannons, artillery shells, railroad iron, and naval " + "armor plating. At its peak, Tredegar employed over 2,500 " + "workers, including both enslaved laborers and free " + "workers. The ironworks' capacity to produce weapons " + "was critical to Confederate military operations, though " + "Union forces repeatedly attempted to capture or destroy it."
    else if segmentId == 3 then
      "After the Civil War, Tredegar " + "struggled to adapt to peacetime " + "production and the end of slavery. The facility faced " + "labor disputes, including significant strikes in the " + "1870s and 1880s as workers organized for better wages " + "and conditions. The transition from enslaved to wage labor " + "created new tensions and dynamics. Richmond's industrial " + "landscape changed dramatically as the city rebuilt its " + "economy without slavery as its foundation."
    else
      "Tredegar Iron Works ceased operations in 1957 after " + "120 years of production. In 2000, the American Civil " + "War Museum opened at the historic site, transforming " + "the former industrial complex " + "into a place for understanding " + "Civil War history and its lasting impacts. The museum " + "presents multiple perspectives on the war, including the " + "experiences of soldiers, civilians, enslaved people, " + "and free African Americans. Debates continue about how " + "to interpret and present this complex history."
  }

  /** The title, key concepts, difficulty level and period of each segment, by segment id (1 to 4). */
  function SegmentDetails(segmentId: int): (string, seq<string>, string, string) {
    if segmentId == 1 then
      ("Founding and Early Years",
       ["Industrial Revolution", "Richmond's geographic advantages", "Railroad expansion", "Southern industrialization"],
       "introductory", "1837-1860")
    else if segmentId == 2 then
      ("Civil War Era Production",
       ["Confederate war industry", "Munitions production", "Enslaved labor in industry", "Strategic military importance"],
       "intermediate", "1861-1865")
    else if segmentId == 3 then
      ("Reconstruction and Labor History",
       ["Post-war economic transition", "Labor movements and strikes", "Wage labor vs. enslaved labor", "Reconstruction challenges"],
       "intermediate", "1865-1900")
    else
      ("Preservation and Historical Memory",
       ["Historical preservation", "Public memory and commemoration", "Multiple historical perspectives", "Museums and interpretation"],
       "advanced", "1957-present")
  }

  /** The segment with the given id (1 to 4). */
  function SegmentWithId(segmentId: int): (r: Segment)
    ensures r.id == segmentId
  {
    var (title, concepts, difficulty, period) := SegmentDetails(segmentId);
    Segment(segmentId, title, Summary(segmentId), concepts, difficulty, period)
  }

  /** The four content segments, with ids 1 to 4 in order. */
  const ContentSegments: seq<Segment> := seq(4, i => SegmentWithId(i + 1))

  /** The synthetic exchange at `position` (0 or 1) of each segment's sample, by segment id (1 to 4). */
  function SampleExchange(segmentId: int, position: int): Exchange {
    if segmentId == 1 && position == 0 then
      Exchange("What geographical features made Richmond a good location " + "for an ironworks?",
               "Richmond was near the James River for transportation " + "and had access to coal deposits needed for iron production.")
    else if segmentId == 1 && position == 1 then
      Exchange("Based on your answer about location, why might controlling " + "Richmond have been strategically " + "important during the Civil War?",
               "Because Tredegar was there and it was the South's main " + "source of weapons and military supplies.")
    else if segmentId == 2 && position == 0 then
      Exchange("What types of weapons did Tredegar produce during " + "the Civil War?",
               "They made cannons, artillery shells, and armor for ships. " + "Also railroad materials for moving troops.")
    else if segmentId == 2 && position == 1 then
      Exchange("You mentioned multiple products. " + "Which do you think was most " + "critical to Confederate military operations and why?",
               "Probably the cannons because they needed artillery for " + "battles. Without cannons they couldn't fight effectively.")
    else if segmentId == 3 && position == 0 then
      Exchange("How did the workforce at Tredegar change after the " + "Civil War ended?",
               "They couldn't use enslaved labor anymore so they had " + "to hire wage workers instead.")
    else if segmentId == 3 && position == 1 then
      Exchange("What challenges might this transition from enslaved " + "to wage labor have created for both the company and " + "the workers?",
               "The company had to pay wages now which costs more. Workers " + "had to negotiate for fair pay and might have needed " + "to strike to get better treatment.")
    else if segmentId == 4 && position == 0 then
      Exchange("Why do you think it's important " + "to preserve historical sites " + "like Tredegar?",
               "So people can learn about what happened there and " + "understand history better by seeing the actual place.")
    else
      Exchange("You mentioned seeing the actual place helps understanding. " + "What specific aspects of the Civil War might be harder " + "to understand if Tredegar hadn't been preserved?",
               "It would be harder to understand how important industry was " + "to the war, not just battles. Also harder to see where " + "enslaved people worked and how they were part of the " + "war effort.")
  }

  /** The two sample exchanges of a segment, in order. */
  function SampleExchanges(segmentId: int): (r: seq<Exchange>)
    ensures |r| == 2
  {
    [SampleExchange(segmentId, 0), SampleExchange(segmentId, 1)]
  }

  /** The synthetic exchanges that precede the second and third question of each segment, by segment id. */
  const SampleQaExchanges: map<int, seq<Exchange>> :=
    map segmentId | segmentId in {1, 2, 3, 4} :: SampleExchanges(segmentId)

  /** Every segment has sample exchanges, at least one of them: otherwise the lookups raise KeyError or IndexError. */
  predicate ExchangesCover(segments: seq<Segment>, exchanges: map<int, seq<Exchange>>) {
    forall s :: 0 <= s < |segments| ==> segments[s].id in exchanges && |exchanges[segments[s].id]| >= 1
  }

  /** The exchanges before question `questionNumber`: none before the first, the first before the second, the first two before the third. */
  function PreviousQa(exchanges: seq<Exchange>, questionNumber: int): (r: seq<Exchange>)
    requires |exchanges| >= 1
    ensures r <= exchanges
    ensures |exchanges| >= 2 && 1 <= questionNumber <= 3 ==> |r| == questionNumber - 1
  {
    if questionNumber == 2 then [exchanges[0]]
    else if questionNumber == 3 then (if |exchanges| >= 2 then exchanges[..2] else exchanges)
    else []
  }

  /** Position (from 0) of the scenario for profile `p`, segment `s` and question position `q` (0 to 2): profile-major, then segment, then question. */
  function Index(p: nat, s: nat, q: nat, segmentCount: nat): nat {
    (p * segmentCount + s) * 3 + q
  }

  lemma DivModUnique(m: int, n: int, d: int, r: int)
    requires n > 0 && 0 <= r < n && m == d * n + r
    ensures m / n == d && m % n == r
  {
    var d', r' := m / n, m % n;
    assert m == d' * n + r' && 0 <= r' < n;
    if d' > d {
      MulAtLeast(d' - d, n);
    } else if d' < d {
      MulAtLeast(d - d', n);
    }
  }

  lemma MulAtLeast(a: int, n: int)
    requires a >= 1 && n > 0
    ensures a * n >= n
  {
    assert a * n == (a - 1) * n + n;
  }

  /** A triple inside the tables has a position inside the list, and the position gives the triple back. */
  lemma IndexDecomposes(p: nat, s: nat, q: nat, profileCount: nat, n: nat)
    requires p < profileCount && s < n && q < 3
    ensures Index(p, s, q, n) < profileCount * n * 3
    ensures Index(p, s, q, n) / 3 / n == p && Index(p, s, q, n) / 3 % n == s && Index(p, s, q, n) % 3 == q
  {
    var m := p * n + s;
    DivModUnique(Index(p, s, q, n), 3, m, q);
    DivModUnique(m, n, p, s);
    assert m < (p + 1) * n;
    assert (profileCount - (p + 1)) * n >= 0;
  }

  /** Every position below the total is the position of a triple inside the tables. */
  lemma IndexCovers(k: nat, profileCount: nat, n: nat)
    requires k < profileCount * n * 3
    ensures n > 0 && k / 3 / n < profileCount
    ensures k == Index(k / 3 / n, k / 3 % n, k % 3, n)
  {
    var m := k / 3;
    assert k == m * 3 + k % 3;
    var p := m / n;
    assert m == p * n + m % n;
  }

  /** A position below the total names a profile and a segment inside the tables. */
  lemma IndexInRange(k: nat, profileCount: nat, n: nat)
    requires k < profileCount * n * 3
    ensures n > 0 && k / 3 / n < profileCount
  {
    var t := profileCount * n;
    var m := k / 3;
    assert m < t;
    var p := m / n;
    assert p * n <= m;
    MulMono(profileCount, p, n);
  }

  lemma MulMono(a: int, b: int, n: int)
    requires n >= 0
    ensures a <= b ==> a * n <= b * n
  {
    assert b * n - a * n == (b - a) * n;
  }

  /** `f"scenario_{n:03d}"`. */
  function ScenarioId(n: nat): string {
    "scenario_" + Text.Pad3(n)
  }

  /**
   * The scenario at position `k`: numbered `k + 1`, with the profile, segment
   * and question number that profile-major, then segment, then question order
   * puts there.
   */
  function ScenarioAt(profiles: seq<Profile>, segments: seq<Segment>, exchanges: map<int, seq<Exchange>>, k: nat): Scenario
    requires k < |profiles| * |segments| * 3 && ExchangesCover(segments, exchanges)
  {
    IndexInRange(k, |profiles|, |segments|);
    var n := |segments|;
    Scenario(ScenarioId(k + 1), profiles[k / 3 / n], segments[k / 3 % n], k % 3 + 1,
             PreviousQa(exchanges[segments[k / 3 % n].id], k % 3 + 1))
  }

  /** The scenario for profile `p`, segment `s` and question position `q` sits at `Index(p, s, q)`. */
  lemma ScenarioAtTriple(profiles: seq<Profile>, segments: seq<Segment>, exchanges: map<int, seq<Exchange>>,
                         p: nat, s: nat, q: nat)
    requires p < |profiles| && s < |segments| && q < 3 && ExchangesCover(segments, exchanges)
    ensures Index(p, s, q, |segments|) < |profiles| * |segments| * 3
    ensures var sc := ScenarioAt(profiles, segments, exchanges, Index(p, s, q, |segments|));
            && sc.studentProfile == profiles[p] && sc.contentSegment == segments[s] && sc.questionNumber == q + 1
  {
    IndexDecomposes(p, s, q, |profiles|, |segments|);
  }

  /** All the scenarios in generation order: position `k` holds `ScenarioAt(k)`. */
  function AllScenarios(profiles: seq<Profile>, segments: seq<Segment>, exchanges: map<int, seq<Exchange>>): (r: seq<Scenario>)
    requires ExchangesCover(segments, exchanges)
    ensures |r| == |profiles| * |segments| * 3
    ensures forall k :: 0 <= k < |r| ==> r[k] == ScenarioAt(profiles, segments, exchanges, k)
  {
    seq(|profiles| * |segments| * 3, k requires 0 <= k < |profiles| * |segments| * 3 => ScenarioAt(profiles, segments, exchanges, k))
  }

  /**
   * `generate_scenarios` over the given tables: three nested loops append one
   * scenario per profile, segment and question number, numbering them from 1.
   */
  method Generate(profiles: seq<Profile>, segments: seq<Segment>, exchanges: map<int, seq<Exchange>>)
    returns (scenarios: seq<Scenario>)
    requires ExchangesCover(segments, exchanges)
    ensures scenarios == AllScenarios(profiles, segments, exchanges)
  {
    ghost var all := AllScenarios(profiles, segments, exchanges);
    var n := |segments|;
    scenarios := [];
    var scenarioId := 1;
    var p := 0;
    while p < |profiles|
      invariant 0 <= p <= |profiles|
      invariant |scenarios| == Index(p, 0, 0, n) <= |profiles| * n * 3 && scenarioId == |scenarios| + 1
      invariant scenarios == all[..|scenarios|]
    {
      var s := 0;
      while s < n
        invariant 0 <= s <= n
        invariant |scenarios| == Index(p, s, 0, n) <= |profiles| * n * 3 && scenarioId == |scenarios| + 1
        invariant scenarios == all[..|scenarios|]
      {
        var q := 0;
        while q < 3
          invariant 0 <= q <= 3
          invariant |scenarios| == Index(p, s, q, n) <= |profiles| * n * 3 && scenarioId == |scenarios| + 1
          invariant scenarios == all[..|scenarios|]
        {
          var questionNumber := q + 1;
          var previousQa := [];
          if questionNumber == 2 {
            previousQa := [exchanges[segments[s].id][0]];
          } else if questionNumber == 3 {
            var ex := exchanges[segments[s].id];
            previousQa := if |ex| >= 2 then ex[..2] else ex;
          }
          var scenario := Scenario(ScenarioId(scenarioId), profiles[p], segments[s], questionNumber, previousQa);
          IndexDecomposes(p, s, q, |profiles|, n);
          assert scenario == ScenarioAt(profiles, segments, exchanges, |scenarios|);
          Seqs.SnocPrefix(scenarios, scenario, all);
          scenarios := scenarios + [scenario];
          scenarioId := scenarioId + 1;
          q := q + 1;
        }
        s := s + 1;
      }
      assert Index(p, n, 0, n) == Index(p + 1, 0, 0, n) by {
        assert (p + 1) * n == p * n + n;
      }
      p := p + 1;
    }
  }

  /** The study's tables: ten profiles, four segments, two sample exchanges for every segment. */
  lemma FixedTables()
    ensures |StudentProfiles| == 10 && |ContentSegments| == 4
    ensures ExchangesCover(ContentSegments, SampleQaExchanges)
    ensures forall s :: 0 <= s < |ContentSegments| ==> |SampleQaExchanges[ContentSegments[s].id]| == 2
  {
    SegmentIds();
    ExchangeKeys();
  }

  lemma SegmentIds()
    ensures forall s :: 0 <= s < 4 ==> ContentSegments[s].id == s + 1
  {
  }

  lemma ExchangeKeys()
    ensures forall id :: 1 <= id <= 4 ==> id in SampleQaExchanges && |SampleQaExchanges[id]| == 2
  {
  }

  /** Each scenario is numbered one past its position, and the numbers are distinct and, below 1000, three digits wide. */
  lemma ScenarioIds(profiles: seq<Profile>, segments: seq<Segment>, exchanges: map<int, seq<Exchange>>, k: nat, k': nat)
    requires k < |profiles| * |segments| * 3 && k' < |profiles| * |segments| * 3 && ExchangesCover(segments, exchanges)
    ensures ScenarioAt(profiles, segments, exchanges, k).id == "scenario_" + Text.Pad3(k + 1)
    ensures k < 999 ==> |Text.Pad3(k + 1)| == 3
    ensures k != k' ==> ScenarioAt(profiles, segments, exchanges, k).id != ScenarioAt(profiles, segments, exchanges, k').id
  {
    if k != k' && ScenarioAt(profiles, segments, exchanges, k).id == ScenarioAt(profiles, segments, exchanges, k').id {
      var a, b := ScenarioId(k + 1), ScenarioId(k' + 1);
      assert a[9..] == Text.Pad3(k + 1) && b[9..] == Text.Pad3(k' + 1);
      Text.Pad3Injective(k + 1, k' + 1);
    }
  }

  /** When every segment has two sample exchanges, the scenario for the n-th question carries n - 1 of them. */
  lemma PreviousQaCount(profiles: seq<Profile>, segments: seq<Segment>, exchanges: map<int, seq<Exchange>>, k: nat)
    requires k < |profiles| * |segments| * 3 && ExchangesCover(segments, exchanges)
    requires forall s :: 0 <= s < |segments| ==> |exchanges[segments[s].id]| >= 2
    ensures var sc := ScenarioAt(profiles, segments, exchanges, k);
            1 <= sc.questionNumber <= 3 && |sc.previousQa| == sc.questionNumber - 1
            && sc.previousQa <= exchanges[sc.contentSegment.id]
  {
    IndexInRange(k, |profiles|, |segments|);
  }

  /** The generator over the study's fixed tables: 10 x 4 x 3 = 120 scenarios. */
  method GenerateTestScenarios() returns (scenarios: seq<Scenario>)
    ensures |scenarios| == 120
    ensures ExchangesCover(ContentSegments, SampleQaExchanges)
    ensures forall k :: 0 <= k < 120 ==> scenarios[k] == ScenarioAt(StudentProfiles, ContentSegments, SampleQaExchanges, k)
  {
    FixedTables();
    scenarios := Generate(StudentProfiles, ContentSegments, SampleQaExchanges);
  }
}
