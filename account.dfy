/**
 * The account page's derived figures: whether the player is an
 * administrator, the selected profile's statistics with their defaults, the
 * win rate, the hours played and the signed goal difference.
 */
module Account {
  import opened Text
  import opened Session
  import DataTransformers

  const AdminUsernames := ["admin", "juce", "reddwarf"]
  const SecondsPerHour := 3600

  /** `ADMIN_USERNAMES.includes(user.username.toLowerCase())` */
  predicate IsAdmin(username: string) {
    ToLower(username) in AdminUsernames
  }

  /** The check ignores letter case: "Admin" and "JUCE" are administrators. */
  lemma IsAdminIgnoresCase(username: string)
    ensures IsAdmin(ToUpper(username)) == IsAdmin(username)
    ensures IsAdmin(username) <==> ToLower(username) == "admin" || ToLower(username) == "juce" || ToLower(username) == "reddwarf"
  {
    ToLowerOfUpper(username);
  }

  const ZeroStats := ProfileStats(0, 0, 0, 0, 0, 0)
  const ZeroStreaks := Streaks(0, 0)

  /** `profiles[selectedProfileIndex]` when there are profiles; an index past the end reads as undefined. */
  function CurrentProfile(user: UserData, selected: nat): (p: Option<Profile>)
    ensures p.Some? ==> user.profiles.Some? && selected < |user.profiles.value| && p.value == user.profiles.value[selected]
    ensures user.profiles.None? || user.profiles.value == [] ==> p == None
  {
    var profiles := if user.profiles.Some? then user.profiles.value else [];
    if |profiles| > 0 && selected < |profiles| then Some(profiles[selected]) else None
  }

  function StatsOf(current: Option<Profile>): ProfileStats {
    if current.Some? && current.value.stats.Some? then current.value.stats.value else ZeroStats
  }

  function StreaksOf(current: Option<Profile>): Streaks {
    if current.Some? && current.value.streaks.Some? then current.value.streaks.value else ZeroStreaks
  }

  /** With no profiles every figure is zero. */
  lemma NoProfilesAllZero(user: UserData, selected: nat)
    requires user.profiles.None? || user.profiles.value == []
    ensures CurrentProfile(user, selected) == None
    ensures StatsOf(CurrentProfile(user, selected)) == ZeroStats && StreaksOf(CurrentProfile(user, selected)) == ZeroStreaks
    ensures WinRate(StatsOf(CurrentProfile(user, selected))) == 0
    ensures HoursPlayed(CurrentProfile(user, selected)) == 0
  {
  }

  /**
   * `Math.round(won / played * 100)`, 0 when nothing was played: the integer
   * nearest to the percentage, halves rounded up.
   */
  function WinRate(stats: ProfileStats): (r: int)
    ensures stats.played <= 0 ==> r == 0
    ensures stats.played > 0 ==>
      2 * stats.played * r - stats.played <= 200 * stats.won < 2 * stats.played * r + stats.played
  {
    if stats.played > 0 then (200 * stats.won + stats.played) / (2 * stats.played) else 0
  }

  /** A win count between zero and the matches played gives a rate between 0 and 100. */
  lemma WinRateBounds(stats: ProfileStats)
    requires 0 <= stats.won <= stats.played
    ensures 0 <= WinRate(stats) <= 100
    ensures stats.played > 0 && stats.won == stats.played ==> WinRate(stats) == 100
  {
    if stats.played > 0 {
      var r := WinRate(stats);
      var p := stats.played;
      if r < 0 {
        MulMonotone(2 * p, r, -1);
      }
      if r > 100 {
        MulMonotone(2 * p, 101, r);
      }
      if stats.won == p && r < 100 {
        MulMonotone(2 * p, r, 99);
      }
    }
  }

  lemma MulMonotone(k: int, a: int, b: int)
    requires k > 0 && a <= b
    ensures k * a <= k * b
  {
  }

  /** `Math.floor((seconds_played || 0) / 3600)` */
  function HoursPlayed(current: Option<Profile>): (h: int)
    ensures var seconds := if current.Some? && current.value.secondsPlayed.Some? then current.value.secondsPlayed.value else 0;
      SecondsPerHour * h <= seconds < SecondsPerHour * (h + 1)
  {
    var seconds := if current.Some? && current.value.secondsPlayed.Some? then current.value.secondsPlayed.value else 0;
    seconds / SecondsPerHour
  }

  /** The goal difference as displayed: a '+' in front only when it is strictly positive. */
  function GoalDifferenceLabel(stats: ProfileStats): (text: string)
    ensures text != []
    ensures text[0] == '+' <==> stats.goalsFor - stats.goalsAgainst > 0
    ensures text[0] == '-' <==> stats.goalsFor - stats.goalsAgainst < 0
  {
    var d := stats.goalsFor - stats.goalsAgainst;
    (if d > 0 then "+" else "") + IntString(d)
  }

  /** Reading the label back as a number gives the goal difference. */
  lemma GoalDifferenceLabelReadsBack(stats: ProfileStats)
    ensures DataTransformers.ParseInt(GoalDifferenceLabel(stats)) == Some(stats.goalsFor - stats.goalsAgainst)
  {
    var d := stats.goalsFor - stats.goalsAgainst;
    if d > 0 {
      assert GoalDifferenceLabel(stats) == "+" + DecimalString(d);
      DataTransformers.ParseIntPlus(d);
    } else {
      assert GoalDifferenceLabel(stats) == IntString(d);
      DataTransformers.ParseIntIntString(d);
    }
  }
}
