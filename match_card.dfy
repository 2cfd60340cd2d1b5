/**
 * The logic inside one match card: the colour tier of a score (written twice
 * in the card, once as `getScoreColor` and once inline for the bar), the rank
 * badge, the criteria breakdown and the "Start Conversation" action.
 */
module MatchCard {

  import opened Text
  import opened MatchData

  /** The three colour tiers a score falls into, lowest first. */
  datatype Tier = Muted | Accent | Success

  /** The position of a tier in the order Muted < Accent < Success. */
  function Level(t: Tier): nat
  {
    match t
    case Muted => 0
    case Accent => 1
    case Success => 2
  }

  /** The colour name shared by a tier's text and bar classes. */
  function ColorName(t: Tier): string
  {
    match t
    case Success => "success"
    case Accent => "accent"
    case Muted => "muted-foreground"
  }

  /** The tier of a score: 80 and above, 60 up to 80, and below 60. */
  function ScoreTier(score: int): (t: Tier)
    ensures t == Success <==> 80 <= score
    ensures t == Accent <==> 60 <= score < 80
    ensures t == Muted <==> score < 60
  {
    if score >= 80 then Success else if score >= 60 then Accent else Muted
  }

  /** `getScoreColor`: the text class of a score. */
  function GetScoreColor(score: int): (cls: string)
    ensures cls == "text-" + ColorName(ScoreTier(score))
  {
    if score >= 80 then "text-success"
    else if score >= 60 then "text-accent"
    else "text-muted-foreground"
  }

  /** The inline bar class of a criterion score. */
  function BarColor(score: int): (cls: string)
    ensures cls == "bg-" + ColorName(ScoreTier(score))
  {
    if score >= 80 then "bg-success" else if score >= 60 then "bg-accent" else "bg-muted-foreground"
  }

  /** A higher score never lands in a lower tier. */
  lemma ScoreTierMonotone(a: int, b: int)
    requires a <= b
    ensures Level(ScoreTier(a)) <= Level(ScoreTier(b))
  {
  }

  /** The text and the bar of a score always show the same colour. */
  lemma BarMatchesText(score: int)
    ensures BarColor(score)[3..] == GetScoreColor(score)[5..]
  {
  }

  datatype BadgeVariant = Default | Secondary | Outline

  datatype Badge = Badge(text: string, variant: BadgeVariant)

  /** The `badges` table of the first three ranks. */
  const Badges: map<int, Badge> := map[
    1 := Badge("\U{1F947} Best Match", Default),
    2 := Badge("\U{1F948} Great Match", Secondary),
    3 := Badge("\U{1F949} Good Match", Outline)]

  /**
   * The badge table has entries for ranks 1, 2 and 3 only, and none of its
   * texts starts with `#`, so no table entry looks like a fallback text.
   */
  lemma BadgeTable()
    ensures Badges.Keys == {1, 2, 3}
    ensures forall rank :: rank in Badges ==> |Badges[rank].text| > 0 && Badges[rank].text[0] != '#'
  {
  }

  /** The fallback text `#${rank} Match`: the rank's decimal text between `#` and ` Match`. */
  function RankText(rank: int): (t: string)
    ensures |t| > 7 && t[0] == '#' && t[|t| - 6..] == " Match"
    ensures t[1..|t| - 6] == IntToDecimal(rank)
    ensures ParseInt(t[1..|t| - 6]) == rank
  {
    ParseIntToDecimal(rank);
    "#" + IntToDecimal(rank) + " Match"
  }

  /** `getRankBadge`: the table entry for ranks 1 to 3, the numbered fallback for every other rank. */
  function GetRankBadge(rank: int): (b: Badge)
    ensures rank == 1 ==> b == Badge("\U{1F947} Best Match", Default)
    ensures rank == 2 ==> b == Badge("\U{1F948} Great Match", Secondary)
    ensures rank == 3 ==> b == Badge("\U{1F949} Good Match", Outline)
    ensures !(1 <= rank <= 3) ==>
      && b.variant == Outline
      && b.text == "#" + IntToDecimal(rank) + " Match"
      && |b.text| > 7 && b.text[0] == '#' && b.text[|b.text| - 6..] == " Match"
      && ParseInt(b.text[1..|b.text| - 6]) == rank
  {
    if rank in Badges then Badges[rank]
    else
      var b := Badge(RankText(rank), Outline);
      assert b.text[1..|b.text| - 6] == IntToDecimal(rank);
      ParseIntToDecimal(rank);
      b
  }

  /** Different ranks never get the same badge text. */
  lemma RankBadgeTextInjective(a: int, b: int)
    requires a != b
    ensures GetRankBadge(a).text != GetRankBadge(b).text
  {
    var ta, tb := GetRankBadge(a).text, GetRankBadge(b).text;
    if !(1 <= a <= 3) && !(1 <= b <= 3) {
      assert ParseInt(ta[1..|ta| - 6]) != ParseInt(tb[1..|tb| - 6]);
    } else if !(1 <= a <= 3) && 1 <= b <= 3 {
      assert ta[0] != tb[0];
    } else if 1 <= a <= 3 && !(1 <= b <= 3) {
      assert ta[0] != tb[0];
    }
  }

  /** `criteriaIcons`. */
  function Icon(c: Criterion): string
  {
    match c
    case Cleanliness => "\U{1F9FC}"
    case SleepSchedule => "\U{1F319}"
    case SocialHabits => "\U{1F5E3}\U{FE0F}"
    case Lifestyle => "\U{1F9D8}"
    case Food => "\U{1F37D}\U{FE0F}"
  }

  /** `criteriaLabels`. */
  function CardLabel(c: Criterion): string
  {
    match c
    case Cleanliness => "Cleanliness"
    case SleepSchedule => "Sleep"
    case SocialHabits => "Social"
    case Lifestyle => "Lifestyle"
    case Food => "Food"
  }

  /** Distinct criteria get distinct icons and distinct labels on a card. */
  lemma CriterionTablesInjective(c: Criterion, d: Criterion)
    requires c != d
    ensures Icon(c) != Icon(d)
    ensures CardLabel(c) != CardLabel(d)
  {
  }

  /**
   * `Object.entries(match.criteria_scores)`: one entry per criterion, in key
   * order, pairing the criterion with the match's score for it.
   */
  function Entries(m: Match): (entries: seq<(Criterion, int)>)
    ensures |entries| == |Criteria|
    ensures forall k :: 0 <= k < |entries| ==> entries[k] == (Criteria[k], Score(Criteria[k], m))
  {
    var s := m.criteriaScores;
    [ (Cleanliness, s.cleanliness),
      (SleepSchedule, s.sleepSchedule),
      (SocialHabits, s.socialHabits),
      (Lifestyle, s.lifestyle),
      (Food, s.food) ]
  }

  /** One row of the criteria breakdown. */
  datatype BreakdownRow = BreakdownRow(
    criterion: Criterion,
    icon: string,
    caption: string,
    score: int,
    barClass: string,
    textClass: string)

  function RowOf(entry: (Criterion, int)): BreakdownRow
  {
    var (c, score) := entry;
    BreakdownRow(c, Icon(c), CardLabel(c), score, BarColor(score), GetScoreColor(score))
  }

  /**
   * The criteria breakdown: one row per criterion in key order, each showing
   * that criterion's icon, label and score, its bar and its text in the
   * score's tier.
   */
  function Breakdown(m: Match): (rows: seq<BreakdownRow>)
    ensures |rows| == |Criteria|
    ensures forall k :: 0 <= k < |rows| ==>
      && rows[k].criterion == Criteria[k]
      && rows[k].score == Score(Criteria[k], m)
      && rows[k].caption == CardLabel(Criteria[k])
      && rows[k].icon == Icon(Criteria[k])
      && rows[k].barClass == "bg-" + ColorName(ScoreTier(rows[k].score))
      && rows[k].textClass == "text-" + ColorName(ScoreTier(rows[k].score))
  {
    var entries := Entries(m);
    seq(|entries|, k requires 0 <= k < |entries| => RowOf(entries[k]))
  }

  /** The onClick handler of the action button: the handler receives the match's pass key and nothing else. */
  function StartConversation<R>(m: Match, onMessage: string -> R): (r: R)
    ensures r == onMessage(m.chatroomPasskey)
  {
    onMessage(m.chatroomPasskey)
  }

  /** What one card shows that is computed rather than copied. */
  datatype CardView = CardView(
    badge: Badge,
    overallScore: int,
    overallClass: string,
    rows: seq<BreakdownRow>)

  /** The computed parts of `<MatchCard match={m} rank={rank} />`. */
  function Card(m: Match, rank: int): (view: CardView)
    ensures view.badge == GetRankBadge(rank)
    ensures view.rows == Breakdown(m)
    ensures view.overallScore == m.matchScore
    ensures view.overallClass == "text-" + ColorName(ScoreTier(m.matchScore))
    ensures |view.rows| == |Criteria|
    ensures forall k :: 0 <= k < |view.rows| ==> view.rows[k].score == Score(Criteria[k], m)
  {
    CardView(GetRankBadge(rank), m.matchScore, GetScoreColor(m.matchScore), Breakdown(m))
  }
}
