/** The leaderboard: every user ranked by total score with the current user included
    exactly once, the tab filters, rank badges, score bars and specialty labels. */
module Leaderboard {
  import opened Types
  import opened Text

  predicate NonIncreasing(xs: seq<UserProfile>) {
    forall i, j :: 0 <= i < j < |xs| ==> xs[i].totalScore >= xs[j].totalScore
  }

  /** Places `u` after the users scoring more than it, ahead of the rest. */
  function Insert(u: UserProfile, sorted: seq<UserProfile>): (r: seq<UserProfile>)
    requires NonIncreasing(sorted)
    ensures NonIncreasing(r)
    ensures multiset(r) == multiset(sorted) + multiset{u}
    ensures |r| == |sorted| + 1
    ensures r[0] == u || (sorted != [] && r[0] == sorted[0])
    decreases |sorted|
  {
    if sorted == [] || sorted[0].totalScore <= u.totalScore then [u] + sorted
    else
      var rest := Insert(u, sorted[1..]);
      assert sorted == [sorted[0]] + sorted[1..];
      assert rest[0].totalScore <= sorted[0].totalScore;
      [sorted[0]] + rest
  }

  /** `sort((a, b) => b.totalScore - a.totalScore)`: highest score first, ties in their
      original order. */
  function SortByScore(xs: seq<UserProfile>): (r: seq<UserProfile>)
    ensures NonIncreasing(r)
    ensures multiset(r) == multiset(xs)
    ensures |r| == |xs|
    decreases |xs|
  {
    if xs == [] then []
    else
      assert xs == [xs[0]] + xs[1..];
      Insert(xs[0], SortByScore(xs[1..]))
  }

  /** The mock users other than the current user, then the current user, ranked. */
  function AllUsers(mocks: seq<UserProfile>, me: UserProfile): seq<UserProfile> {
    SortByScore(Others(mocks, me.id) + [me])
  }

  /** Two positions holding the same value make it occur twice in the multiset. */
  lemma {:induction false} TwoPositions(xs: seq<UserProfile>, i: int, j: int)
    requires 0 <= i < j < |xs| && xs[i] == xs[j]
    ensures multiset(xs)[xs[i]] >= 2
  {
    assert xs == xs[..i] + [xs[i]] + xs[i + 1..j] + [xs[j]] + xs[j + 1..];
  }

  /** The ranked list is sorted by score and is a permutation of the other users plus
      the current user. */
  lemma AllUsersRanked(mocks: seq<UserProfile>, me: UserProfile)
    ensures var all := AllUsers(mocks, me);
      && NonIncreasing(all)
      && multiset(all) == multiset(Others(mocks, me.id)) + multiset{me}
      && me in all
  {
    var others := Others(mocks, me.id);
    assert multiset(others + [me]) == multiset(others) + multiset{me};
    assert me in multiset(AllUsers(mocks, me));
  }

  /** The current user's id appears in the ranked list exactly once. */
  lemma AllUsersMeOnce(mocks: seq<UserProfile>, me: UserProfile, i: int, j: int)
    requires var all := AllUsers(mocks, me);
      0 <= i < |all| && 0 <= j < |all| && all[i].id == me.id && all[j].id == me.id
    ensures i == j
  {
    var others := Others(mocks, me.id);
    var base := others + [me];
    var all := AllUsers(mocks, me);
    assert multiset(base) == multiset(others) + multiset{me};
    assert me !in others;
    assert all[i] in multiset(base) && all[j] in multiset(base);
    OnlyMeHasMyId(others, me, all[i]);
    OnlyMeHasMyId(others, me, all[j]);
    if i < j {
      TwoPositions(all, i, j);
    } else if j < i {
      TwoPositions(all, j, i);
    }
  }

  /** In the others-plus-me list, only the current user carries the current user's id. */
  lemma OnlyMeHasMyId(others: seq<UserProfile>, me: UserProfile, u: UserProfile)
    requires forall k :: 0 <= k < |others| ==> others[k].id != me.id
    requires u in multiset(others + [me]) && u.id == me.id
    ensures u == me
  {
    assert u in others + [me];
  }

  // ---- Tabs ----

  datatype BoardTab = GlobalTab | HospitalTab | ClassTab

  const HospitalInstitution := "inst-1"

  predicate InHospital(u: UserProfile, me: UserProfile) {
    u.institutionId == Some(HospitalInstitution) || u.id == me.id || u.role == Nurse
  }

  function FilteredUsers(all: seq<UserProfile>, me: UserProfile, tab: BoardTab): (r: seq<UserProfile>)
    ensures tab == GlobalTab ==> r == all
    ensures tab == HospitalTab ==>
      && IsSubsequence(r, all)
      && (forall i :: 0 <= i < |r| ==> InHospital(r[i], me))
      && (forall i :: 0 <= i < |all| && InHospital(all[i], me) ==> all[i] in r)
    ensures tab == ClassTab ==> |r| == (|all| + 1) / 2 && forall i :: 0 <= i < |r| ==> r[i] == all[2 * i]
  {
    match tab
    case GlobalTab => all
    case HospitalTab =>
      FilterIsSubsequence(all, (u: UserProfile) => InHospital(u, me));
      Filter(all, (u: UserProfile) => InHospital(u, me))
    case ClassTab => EvenIndexed(all)
  }

  /** The hospital tab always lists the current user. */
  lemma HospitalKeepsMe(mocks: seq<UserProfile>, me: UserProfile)
    ensures me in FilteredUsers(AllUsers(mocks, me), me, HospitalTab)
  {
    AllUsersRanked(mocks, me);
    var all := AllUsers(mocks, me);
    var k :| 0 <= k < |all| && all[k] == me;
  }

  // ---- Rows ----

  datatype RankBadge = Medal(place: int) | Numbered(caption: string)

  /** Medals for the top three, "#n" (one-based) below them. */
  function RankBadgeOf(rank: nat): (r: RankBadge)
    ensures r.Medal? <==> rank <= 2
    ensures r.Medal? ==> r.place == rank + 1
  {
    if rank <= 2 then Medal(rank + 1) else Numbered("#" + NatToString(rank + 1))
  }

  /** A numbered badge reads back as the one-based rank. */
  lemma RankLabelReadsBack(rank: nat)
    requires rank > 2
    ensures var b := RankBadgeOf(rank);
      b.Numbered? && |b.caption| >= 2 && b.caption[0] == '#' && ParseDigits(b.caption[1..]) == rank + 1
  {
    var digits := NatToString(rank + 1);
    assert RankBadgeOf(rank).caption[1..] == digits;
    ParseNatToString(rank + 1);
  }

  /** The score bar's width in percent: `Math.min(100, totalScore / 20000 * 100)`. */
  function BarWidth(totalScore: int): (r: real)
    ensures r <= 100.0
    ensures totalScore >= 0 ==> r >= 0.0
    ensures totalScore >= 20000 ==> r == 100.0
  {
    var w := (totalScore as real) / 20000.0 * 100.0;
    if 100.0 < w then 100.0 else w
  }

  /** The bar never passes 100%, fills at 20000 points, is empty at 0, and grows with the
      score. */
  lemma BarWidthBounds(score: int, higher: int)
    requires score <= higher
    ensures BarWidth(score) <= 100.0
    ensures score >= 0 ==> BarWidth(score) >= 0.0
    ensures score >= 20000 ==> BarWidth(score) == 100.0
    ensures score == 0 ==> BarWidth(score) == 0.0
    ensures BarWidth(score) <= BarWidth(higher)
  {
  }

  /** The specialty labels shown for a role. */
  function Specialties(role: Role): (r: seq<string>)
    ensures |r| == 2
  {
    match role
    case Doctor => ["Cardiology", "Internal Med"]
    case Nurse => ["Triage", "Emergency"]
    case Paramedic => ["Trauma", "Field Med"]
  }

  /** Every role gets its own pair of specialties; no label is shared between roles. */
  lemma SpecialtiesDistinct(a: Role, b: Role, x: string)
    requires a != b && x in Specialties(a)
    ensures x !in Specialties(b)
  {
  }
}
