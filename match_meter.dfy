/**
 * The results page: its summary figures (total, average and best match
 * score), the ranked list of cards, and the notification text shown when a
 * conversation is started.
 */
module MatchMeter {

  import opened Wrappers
  import opened Statistics
  import opened Text
  import opened MatchData
  import opened MatchAnalytics
  import opened MatchCard

  /** A record of the fixed result set. */
  function MockMatch(id: string, score: int, c: int, s: int, so: int, l: int, f: int, key: string): Match
  {
    Match(id, score, CriteriaScores(c, s, so, l, f), key)
  }

  /** The page's fixed result set. */
  const MockMatches: seq<Match> := [
    MockMatch("MOON_1305", 88, 92, 78, 85, 88, 65, "123"),
    MockMatch("CLOUD_7097", 85, 88, 90, 82, 85, 75, "456"),
    MockMatch("SUN_5672", 82, 85, 75, 90, 80, 80, "777"),
    MockMatch("STAR_4357", 79, 80, 85, 75, 82, 73, "098"),
    MockMatch("CLOUD_8433", 76, 75, 82, 78, 76, 69, "678")]

  /** The argument the page passes to `toast`. */
  datatype Toast = Toast(title: string, description: string, duration: int)

  const PasskeyPrefix: string := "Connecting you to chat room with PassKey: "

  /** The toast's description: the fixed prefix, the pass key unchanged, and `...`. */
  function ToastDescription(passkey: string): (d: string)
    ensures |d| == |PasskeyPrefix| + |passkey| + 3
    ensures d[..|PasskeyPrefix|] == PasskeyPrefix
    ensures d[|PasskeyPrefix|..|d| - 3] == passkey
    ensures d[|d| - 3..] == "..."
  {
    PasskeyPrefix + passkey + "..."
  }

  /** The notification `handleMessage` raises for a pass key. */
  function HandleMessage(passkey: string): (t: Toast)
    ensures t.title == "Opening Chat Room" && t.duration == 3000
    ensures t.description == ToastDescription(passkey)
  {
    Toast("Opening Chat Room", ToastDescription(passkey), 3000)
  }

  /** The pass key a toast description names, if it has the description's shape. */
  function PasskeyOf(d: string): Option<string>
  {
    var n := |PasskeyPrefix|;
    if |d| >= n + 3 && d[..n] == PasskeyPrefix && d[|d| - 3..] == "..." then Some(d[n..|d| - 3]) else None
  }

  /** The description names exactly the pass key it was built from. */
  lemma PasskeyRoundTrip(passkey: string)
    ensures PasskeyOf(ToastDescription(passkey)) == Some(passkey)
  {
  }

  /** Different pass keys give different descriptions. */
  lemma ToastDescriptionInjective(a: string, b: string)
    requires ToastDescription(a) == ToastDescription(b)
    ensures a == b
  {
    PasskeyRoundTrip(a);
    PasskeyRoundTrip(b);
  }

  /** `matches.map(m => m.match_score)`. */
  function Scores(ms: seq<Match>): (xs: seq<int>)
    ensures |xs| == |ms|
    ensures forall i :: 0 <= i < |ms| ==> xs[i] == ms[i].matchScore
  {
    Mapped(ms, MatchScore)
  }

  /**
   * `averageMatch`: `Math.round` of the sum of the match scores over their
   * number; it lies between the lowest and the highest score.
   */
  function AverageMatch(ms: seq<Match>): (avg: int)
    requires |ms| > 0
    ensures IsRoundedMean(avg, Sum(Scores(ms)), |ms|)
    ensures Minimum(Scores(ms)) <= avg <= Maximum(Scores(ms))
  {
    MeanWithinRange(Scores(ms));
    RoundDiv(ReduceSum(ms, MatchScore, 0), |ms|)
  }

  /** The average does not depend on the order of the matches. */
  lemma AverageMatchPermutation(ms: seq<Match>, ns: seq<Match>)
    requires |ms| > 0
    requires multiset(ms) == multiset(ns)
    ensures |ns| > 0 && AverageMatch(ms) == AverageMatch(ns)
  {
    assert |ns| == |multiset(ns)| == |multiset(ms)| == |ms|;
    SumMappedPermutation(ms, ns, MatchScore);
    RoundedMeanUnique(AverageMatch(ms), AverageMatch(ns), Sum(Scores(ms)), |ms|);
  }

  /** "Best Match": `matches[0]?.match_score`, absent for an empty list. */
  function BestMatch(ms: seq<Match>): (best: Option<int>)
    ensures best.Some? <==> |ms| > 0
    ensures |ms| > 0 ==> best.value == ms[0].matchScore
  {
    if |ms| > 0 then Some(ms[0].matchScore) else None
  }

  /** The order the producer of the result set promises. */
  ghost predicate SortedDescending(ms: seq<Match>)
  {
    forall i, j :: 0 <= i < j < |ms| ==> ms[i].matchScore >= ms[j].matchScore
  }

  /** On a list sorted by descending score the first score is the maximum and at least the average. */
  lemma BestMatchOfSorted(ms: seq<Match>)
    requires |ms| > 0 && SortedDescending(ms)
    ensures BestMatch(ms) == Some(Maximum(Scores(ms)))
    ensures BestMatch(ms).value >= AverageMatch(ms)
  {
    var xs := Scores(ms);
    var i :| 0 <= i < |xs| && xs[i] == Maximum(xs);
    assert i == 0 || ms[0].matchScore >= ms[i].matchScore;
  }

  /** The first score is shown even when a later match scores higher: no maximum is taken. */
  lemma BestMatchIsPositional()
    ensures var ms := [MockMatch("A", 70, 0, 0, 0, 0, 0, ""), MockMatch("B", 90, 0, 0, 0, 0, 0, "")];
            BestMatch(ms) == Some(70) && Maximum(Scores(ms)) == 90
  {
    var ms := [MockMatch("A", 70, 0, 0, 0, 0, 0, ""), MockMatch("B", 90, 0, 0, 0, 0, 0, "")];
    assert Scores(ms)[1] == 90;
  }

  /** "Total Matches": the number of matches, which is also the number of cards and of chart points. */
  function TotalMatches(ms: seq<Match>): (n: nat)
    ensures n == |MatchCards(ms)| == |MatchScoreData(ms)|
  {
    |ms|
  }

  /** The properties the page passes to one `MatchCard`. */
  datatype CardProps = CardProps(entry: Match, rank: int)

  /** `matches.map((match, index) => <MatchCard match={match} rank={index + 1} />)` from `offset` on. */
  function CardsFrom(ms: seq<Match>, offset: nat): (cards: seq<CardProps>)
    ensures |cards| == |ms|
    ensures forall i :: 0 <= i < |ms| ==> cards[i] == CardProps(ms[i], offset + i + 1)
  {
    if ms == [] then [] else [CardProps(ms[0], offset + 1)] + CardsFrom(ms[1..], offset + 1)
  }

  /** One card per match, in list order, ranked 1 to n. */
  function MatchCards(ms: seq<Match>): (cards: seq<CardProps>)
    ensures |cards| == |ms|
    ensures forall i :: 0 <= i < |ms| ==> cards[i].entry == ms[i] && cards[i].rank == i + 1
  {
    CardsFrom(ms, 0)
  }

  /** The cards and the score chart give every match the same rank and score. */
  lemma CardsAgreeWithChart(ms: seq<Match>)
    ensures forall i :: 0 <= i < |ms| ==>
      && MatchCards(ms)[i].rank == MatchScoreData(ms)[i].rank
      && MatchCards(ms)[i].entry.matchScore == MatchScoreData(ms)[i].score
  {
  }

  /** The rendered card of the match at index `i`. */
  function CardAt(ms: seq<Match>, i: nat): CardView
    requires i < |ms|
  {
    var props := MatchCards(ms)[i];
    Card(props.entry, props.rank)
  }

  /** Card `i` shows the badge of rank `i + 1`. */
  lemma CardBadgeAt(ms: seq<Match>, i: nat)
    requires i < |ms|
    ensures CardAt(ms, i).badge == GetRankBadge(i + 1)
  {
  }

  /**
   * The first three cards carry the medal badges, every later one its number,
   * and no two cards carry the same badge text.
   */
  lemma CardBadges(ms: seq<Match>)
    ensures |ms| > 0 ==> CardAt(ms, 0).badge.text == "\U{1F947} Best Match"
    ensures forall i :: 3 <= i < |ms| ==> CardAt(ms, i).badge.text == "#" + NatToDecimal(i + 1) + " Match"
    ensures forall i, j :: 0 <= i < j < |ms| ==> CardAt(ms, i).badge.text != CardAt(ms, j).badge.text
  {
    if |ms| > 0 {
      CardBadgeAt(ms, 0);
    }
    forall i | 3 <= i < |ms|
      ensures CardAt(ms, i).badge.text == "#" + NatToDecimal(i + 1) + " Match"
    {
      CardBadgeAt(ms, i);
    }
    forall i, j | 0 <= i < j < |ms|
      ensures CardAt(ms, i).badge.text != CardAt(ms, j).badge.text
    {
      CardBadgeAt(ms, i);
      CardBadgeAt(ms, j);
      RankBadgeTextInjective(i + 1, j + 1);
    }
  }

  /** A card names each criterion as both charts do, and in the same order. */
  lemma CardLabelsMatchCharts(m: Match)
    ensures forall k :: 0 <= k < |Criteria| ==>
      && Breakdown(m)[k].caption == ChartOrder[k]
      && AvgCriteriaData([m])[k].criteria == ChartOrder[k]
      && CriteriaVariationData([m])[k].criteria == ChartOrder[k]
  {
  }

  /** Starting a conversation on card `i` raises the toast for that match's pass key. */
  lemma StartConversationOnCard(ms: seq<Match>, i: nat)
    requires i < |ms|
    ensures StartConversation(MatchCards(ms)[i].entry, HandleMessage) == HandleMessage(ms[i].chatroomPasskey)
    ensures PasskeyOf(StartConversation(MatchCards(ms)[i].entry, HandleMessage).description)
      == Some(ms[i].chatroomPasskey)
  {
    PasskeyRoundTrip(ms[i].chatroomPasskey);
  }

  /** The fixed result set is sorted by descending score; the page shows 5 matches, best 88. */
  lemma MockMatchesSummary()
    ensures SortedDescending(MockMatches)
    ensures TotalMatches(MockMatches) == 5
    ensures BestMatch(MockMatches) == Some(88)
  {
  }

  /** The average of 88, 85, 82, 79 and 76 is 82. */
  lemma MockAverageMatch()
    ensures AverageMatch(MockMatches) == 82
  {
    var xs := Scores(MockMatches);
    assert xs == [88, 85, 82, 79, 76];
    assert Sum(xs) == 410 by {
      assert Sum(xs[4..]) == 76;
      assert Sum(xs[3..]) == 79 + Sum(xs[4..]);
      assert Sum(xs[2..]) == 82 + Sum(xs[3..]);
      assert Sum(xs[1..]) == 85 + Sum(xs[2..]);
    }
    RoundedMeanUnique(AverageMatch(MockMatches), 82, 410, 5);
  }

  /** Cleanliness scores 92, 88, 85, 80 and 75 give minimum 75, maximum 92 and average 84. */
  lemma MockCleanliness()
    ensures CriteriaVariationData(MockMatches)[0] == VariationRow("Cleanliness", 75, 92, 84)
  {
    MockCleanlinessRow();
    FirstVariationRow(MockMatches);
  }

  lemma MockCleanlinessRow()
    ensures VariationOf(MockMatches, Cleanliness, "Cleanliness") == VariationRow("Cleanliness", 75, 92, 84)
  {
    var xs := Column(MockMatches, Cleanliness);
    assert xs == [92, 88, 85, 80, 75];
    assert Sum(xs) == 420 by {
      assert Sum(xs[4..]) == 75;
      assert Sum(xs[3..]) == 80 + Sum(xs[4..]);
      assert Sum(xs[2..]) == 85 + Sum(xs[3..]);
      assert Sum(xs[1..]) == 88 + Sum(xs[2..]);
    }
    assert Minimum(xs) == 75 by {
      assert Minimum(xs[3..]) == 75;
      assert Minimum(xs[2..]) == 75;
      assert Minimum(xs[1..]) == 75;
    }
    assert Maximum(xs) == 92 by {
      assert Maximum(xs[3..]) == 80;
      assert Maximum(xs[2..]) == 85;
      assert Maximum(xs[1..]) == 88;
    }
    var avg := CriterionAverage(MockMatches, Cleanliness);
    RoundedMeanUnique(avg, 84, 420, 5);
  }

  lemma FirstVariationRow(ms: seq<Match>)
    requires |ms| > 0
    ensures CriteriaVariationData(ms)[0] == VariationOf(ms, Cleanliness, "Cleanliness")
  {
  }

  /** No id of the fixed result set contains `#`, so the chart has no labels. */
  lemma MockLabelsAbsent()
    ensures forall i :: 0 <= i < |MockMatches| ==> MatchScoreData(MockMatches)[i].name == None
  {
    forall i | 0 <= i < |MockMatches|
      ensures MatchScoreData(MockMatches)[i].name == None
    {
      var id := MockMatches[i].anonId;
      assert forall j :: 0 <= j < |id| ==> id[j] == '_' || 'A' <= id[j] <= 'Z' || '0' <= id[j] <= '9';
    }
  }
}
