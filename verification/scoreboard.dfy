/**
 * The accountability dashboard of components/AdminScoreboard.tsx: one
 * standing row per party member computed from the party's cards and logs,
 * and the CSV report text built from those rows.
 */
module AdminScoreboard {
  import opened Types
  import opened Text
  import opened Seqs

  /** The id that is always shown at the top tier. */
  const MasterRootId: string := "dev-master-root"

  /** One row of `stats` (the floating-point `ratio` column is not modelled). */
  datatype Standing = Standing(
    id: string,
    name: string,
    posted: bool,
    engagementsDone: nat,
    targetCount: nat,
    points: int,
    tier: Tier,
    isDefaulter: bool)

  // The filter callbacks of the `stats` computation, named so that each one
  // is the same value wherever it is used.

  function Owns(memberId: string): Card -> bool {
    (c: Card) => c.userId == memberId
  }

  function OwnedByOthers(memberId: string): Card -> bool {
    (c: Card) => c.userId != memberId
  }

  function ViewedBy(memberId: string): EngagementLog -> bool {
    (l: EngagementLog) => l.viewerId == memberId
  }

  function DoneBy(memberId: string): EngagementLog -> bool {
    (l: EngagementLog) => l.viewerId == memberId && l.status == Done
  }

  /** `l.pointsEarned || 0`. */
  function PointsOf(l: EngagementLog): int {
    match l.pointsEarned
    case Some(p) => p
    case None => 0
  }

  /** The dashboard tier: the master root id is always top tier, everybody else by completed engagements. */
  function StandingTier(memberId: string, done: nat): (t: Tier)
    ensures memberId == MasterRootId ==> t == Platinum
    ensures memberId != MasterRootId ==>
      (t == Platinum <==> done > 25) && (t == Gold <==> 10 < done <= 25) && (t == Silver <==> done <= 10)
  {
    if memberId == MasterRootId then Platinum
    else if done > 25 then Platinum
    else if done > 10 then Gold
    else Silver
  }

  /** The order of the tiers. */
  function TierRank(t: Tier): nat {
    match t
    case Silver => 0
    case Gold => 1
    case Platinum => 2
  }

  /** The standing of one member. */
  function MemberStanding(member: User, cards: seq<Card>, logs: seq<EngagementLog>): (s: Standing)
    ensures s.id == member.id && s.name == member.name
    ensures s.posted <==> exists i :: 0 <= i < |cards| && cards[i].userId == member.id
    ensures s.posted <==> s.targetCount < |cards|
    ensures s.engagementsDone <= |logs| && s.targetCount <= |cards|
    ensures s.tier == StandingTier(member.id, s.engagementsDone)
    ensures s.isDefaulter <==> 0 < s.targetCount && s.engagementsDone < s.targetCount
    ensures logs == [] ==> s.engagementsDone == 0 && s.points == 0
    ensures cards == [] ==> s.targetCount == 0 && !s.posted
  {
    var memberCards := Filter(cards, Owns(member.id));
    var done := |Filter(logs, DoneBy(member.id))|;
    var targetCount := |Filter(cards, OwnedByOthers(member.id))|;
    var points := Sum(Filter(logs, ViewedBy(member.id)), PointsOf);
    FilterComplement(cards, Owns(member.id), OwnedByOthers(member.id));
    assert memberCards != [] ==> memberCards[0] in cards && memberCards[0].userId == member.id;
    Standing(member.id, member.name, |memberCards| > 0, done, targetCount, points,
             StandingTier(member.id, done), targetCount > 0 && done < targetCount)
  }

  /** `stats`: one row per member, in member order. */
  function Stats(members: seq<User>, cards: seq<Card>, logs: seq<EngagementLog>): (rows: seq<Standing>)
    ensures |rows| == |members|
    ensures forall i :: 0 <= i < |rows| ==> rows[i].id == members[i].id && rows[i].name == members[i].name
    ensures forall i :: 0 <= i < |rows| ==> rows[i] == MemberStanding(members[i], cards, logs)
  {
    seq(|members|, i requires 0 <= i < |members| => MemberStanding(members[i], cards, logs))
  }

  /** More completed engagements never lower a member's tier. */
  lemma TierMonotone(memberId: string, d1: nat, d2: nat)
    requires d1 <= d2
    ensures TierRank(StandingTier(memberId, d1)) <= TierRank(StandingTier(memberId, d2))
  {
  }

  /** Nobody is a defaulter while there is nothing to engage with, and a member who engaged with every target is not one. */
  lemma DefaulterNeedsTargets(member: User, cards: seq<Card>, logs: seq<EngagementLog>)
    ensures MemberStanding(member, cards, logs).targetCount == 0 ==> !MemberStanding(member, cards, logs).isDefaulter
    ensures MemberStanding(member, cards, logs).engagementsDone >= MemberStanding(member, cards, logs).targetCount ==>
      !MemberStanding(member, cards, logs).isDefaulter
  {
  }

  /** Points are non-negative when every recorded award is. */
  lemma {:induction false} PointsNonNegative(member: User, cards: seq<Card>, logs: seq<EngagementLog>)
    requires forall i :: 0 <= i < |logs| ==> PointsOf(logs[i]) >= 0
    ensures MemberStanding(member, cards, logs).points >= 0
  {
    var mine := Filter(logs, ViewedBy(member.id));
    forall i | 0 <= i < |mine| ensures PointsOf(mine[i]) >= 0 {
      assert mine[i] in logs;
    }
    SumNonNegative(mine, PointsOf);
  }

  /**
   * One more log: `engagementsDone` rises by one exactly for a DONE log of
   * the member, and `points` by the log's award for any log of the member,
   * DONE or not; the card-derived columns stay.
   */
  lemma {:induction false} StandingAfterLog(member: User, cards: seq<Card>, logs: seq<EngagementLog>, l: EngagementLog)
    ensures MemberStanding(member, cards, logs + [l]).engagementsDone ==
      MemberStanding(member, cards, logs).engagementsDone + (if l.viewerId == member.id && l.status == Done then 1 else 0)
    ensures MemberStanding(member, cards, logs + [l]).points ==
      MemberStanding(member, cards, logs).points + (if l.viewerId == member.id then PointsOf(l) else 0)
    ensures MemberStanding(member, cards, logs + [l]).targetCount == MemberStanding(member, cards, logs).targetCount
    ensures MemberStanding(member, cards, logs + [l]).posted == MemberStanding(member, cards, logs).posted
  {
    FilterConcat(logs, [l], DoneBy(member.id));
    FilterConcat(logs, [l], ViewedBy(member.id));
    SumConcat(Filter(logs, ViewedBy(member.id)), Filter([l], ViewedBy(member.id)), PointsOf);
  }

  /**
   * One more card: `targetCount` rises by one exactly for a card of another
   * member, and `posted` turns on for a card of the member; the log-derived
   * columns stay.
   */
  lemma {:induction false} StandingAfterCard(member: User, cards: seq<Card>, logs: seq<EngagementLog>, c: Card)
    ensures MemberStanding(member, cards + [c], logs).targetCount ==
      MemberStanding(member, cards, logs).targetCount + (if c.userId != member.id then 1 else 0)
    ensures MemberStanding(member, cards + [c], logs).posted <==>
      MemberStanding(member, cards, logs).posted || c.userId == member.id
    ensures MemberStanding(member, cards + [c], logs).engagementsDone == MemberStanding(member, cards, logs).engagementsDone
    ensures MemberStanding(member, cards + [c], logs).points == MemberStanding(member, cards, logs).points
  {
    FilterConcat(cards, [c], OwnedByOthers(member.id));
    FilterConcat(cards, [c], Owns(member.id));
  }

  /** A standing depends only on which cards and logs there are, not on the order they were fetched in. */
  lemma OrderIndependent(member: User, cards: seq<Card>, cards': seq<Card>, logs: seq<EngagementLog>, logs': seq<EngagementLog>)
    requires multiset(cards) == multiset(cards') && multiset(logs) == multiset(logs')
    ensures MemberStanding(member, cards, logs) == MemberStanding(member, cards', logs')
  {
    FilterPermutation(cards, cards', Owns(member.id));
    FilterPermutation(cards, cards', OwnedByOthers(member.id));
    FilterPermutation(logs, logs', DoneBy(member.id));
    FilterPermutation(logs, logs', ViewedBy(member.id));
    SumPermutation(Filter(logs, ViewedBy(member.id)), Filter(logs', ViewedBy(member.id)), PointsOf);
  }

  // ---------------------------------------------------------------------------
  // The CSV report
  // ---------------------------------------------------------------------------

  const CsvHeader: seq<string> := ["Member", "Posted", "Engagement Score", "Points", "Tier", "Status"]

  /** The `score` column: `${engagementsDone}/${targetCount}`. */
  function Score(s: Standing): string {
    NatToString(s.engagementsDone) + ['/'] + NatToString(s.targetCount)
  }

  /** The score column reads back as the two counts it was written from. */
  lemma ScoreReadsBack(s: Standing)
    ensures |Split(Score(s), '/')| == 2
    ensures AllDigits(Split(Score(s), '/')[0]) && ParseNat(Split(Score(s), '/')[0]) == s.engagementsDone
    ensures AllDigits(Split(Score(s), '/')[1]) && ParseNat(Split(Score(s), '/')[1]) == s.targetCount
  {
    var done := NatToString(s.engagementsDone);
    var target := NatToString(s.targetCount);
    DigitsExclude(done, '/');
    DigitsExclude(target, '/');
    assert Join([done, target], '/') == Score(s);
    SplitJoin([done, target], '/');
    ParseNatToString(s.engagementsDone);
    ParseNatToString(s.targetCount);
  }

  /** The six fields of one report line. */
  function CsvFields(s: Standing): (fields: seq<string>)
    ensures |fields| == |CsvHeader|
    ensures fields[0] == s.name
    ensures fields[1] == (if s.posted then "YES" else "NO")
    ensures fields[2] == Score(s) && fields[3] == IntToString(s.points) && fields[4] == TierName(s.tier)
    ensures fields[5] == (if s.isDefaulter then "DEFAULTER" else "COMPLIANT")
  {
    [s.name, if s.posted then "YES" else "NO", Score(s), IntToString(s.points), TierName(s.tier),
     if s.isDefaulter then "DEFAULTER" else "COMPLIANT"]
  }

  /** The lines of the report: the header, then one line per row, fields joined by commas. */
  function CsvLines(stats: seq<Standing>): (lines: seq<string>)
    ensures |lines| == |stats| + 1
    ensures lines[0] == Join(CsvHeader, ',')
    ensures forall i :: 0 <= i < |stats| ==> lines[i + 1] == Join(CsvFields(stats[i]), ',')
  {
    [Join(CsvHeader, ',')] + seq(|stats|, i requires 0 <= i < |stats| => Join(CsvFields(stats[i]), ','))
  }

  /** `csvContent`: the lines joined by newlines. */
  function CsvContent(stats: seq<Standing>): string {
    Join(CsvLines(stats), '\n')
  }

  /** Apart from the member name, no field of a row holds a comma or a newline. */
  lemma FieldsExclude(s: Standing, c: char)
    requires c == ',' || c == '\n'
    requires c !in s.name
    ensures forall i :: 0 <= i < |CsvFields(s)| ==> c !in CsvFields(s)[i]
  {
    var done := NatToString(s.engagementsDone);
    var target := NatToString(s.targetCount);
    DigitsExclude(done, c);
    DigitsExclude(target, c);
    var p := IntToString(s.points);
    if s.points >= 0 {
      DigitsExclude(p, c);
    } else {
      DigitsExclude(p[1..], c);
      assert p == [p[0]] + p[1..];
    }
    assert c !in TierName(s.tier);
  }

  /** A line of the report holds no newline when no member name does. */
  lemma LinesExcludeNewline(stats: seq<Standing>)
    requires forall i :: 0 <= i < |stats| ==> '\n' !in stats[i].name
    ensures forall i :: 0 <= i < |CsvLines(stats)| ==> '\n' !in CsvLines(stats)[i]
  {
    var lines := CsvLines(stats);
    forall i | 0 <= i < |lines| ensures '\n' !in lines[i] {
      if i == 0 {
        JoinExcludes(CsvHeader, ',', '\n');
      } else {
        FieldsExclude(stats[i - 1], '\n');
        JoinExcludes(CsvFields(stats[i - 1]), ',', '\n');
      }
    }
  }

  /** A row line splits at its commas back into its six fields when the member name holds no comma. */
  lemma RowReadsBack(s: Standing)
    requires ',' !in s.name
    ensures Split(Join(CsvFields(s), ','), ',') == CsvFields(s)
  {
    FieldsExclude(s, ',');
    SplitJoin(CsvFields(s), ',');
  }

  /**
   * When no member name holds a comma or a newline, the report reads back:
   * splitting at newlines gives the header and one line per row, and
   * splitting each line at commas gives its fields.
   */
  lemma CsvReadsBack(stats: seq<Standing>)
    requires forall i :: 0 <= i < |stats| ==> ',' !in stats[i].name && '\n' !in stats[i].name
    ensures |Split(CsvContent(stats), '\n')| == |stats| + 1
    ensures Split(Split(CsvContent(stats), '\n')[0], ',') == CsvHeader
    ensures forall i :: 0 <= i < |stats| ==> Split(Split(CsvContent(stats), '\n')[i + 1], ',') == CsvFields(stats[i])
  {
    ContentSplitsIntoLines(stats);
    HeaderReadsBack();
    forall i | 0 <= i < |stats| ensures Split(CsvLines(stats)[i + 1], ',') == CsvFields(stats[i]) {
      RowReadsBack(stats[i]);
    }
  }

  /** The report splits at its newlines into its lines when no member name holds a newline. */
  lemma ContentSplitsIntoLines(stats: seq<Standing>)
    requires forall i :: 0 <= i < |stats| ==> '\n' !in stats[i].name
    ensures Split(CsvContent(stats), '\n') == CsvLines(stats)
  {
    LinesExcludeNewline(stats);
    SplitJoin(CsvLines(stats), '\n');
  }

  /** The header line splits at its commas back into the six column titles. */
  lemma HeaderReadsBack()
    ensures Split(Join(CsvHeader, ','), ',') == CsvHeader
  {
    SplitJoin(CsvHeader, ',');
  }
}
