/**
 * The match-history page: the winner of each recorded match, the summary
 * counts (matches, distinct players, goals) and the outcome of loading the
 * history.
 */
module MatchHistory {
  import opened Text

  const HistoryError := "Error al cargar el historial de partidos"

  datatype MatchRecord = MatchRecord(
    id: int, homePlayer: string, awayPlayer: string, scoreHome: int, scoreAway: int,
    playedOn: string, homeTeamId: int, awayTeamId: int)

  datatype Winner = Home | Away | Draw

  function GetWinner(m: MatchRecord): (w: Winner)
    ensures w == Home <==> m.scoreHome > m.scoreAway
    ensures w == Away <==> m.scoreAway > m.scoreHome
    ensures w == Draw <==> m.scoreHome == m.scoreAway
  {
    if m.scoreHome > m.scoreAway then Home
    else if m.scoreAway > m.scoreHome then Away
    else Draw
  }

  /** Swapping the sides swaps the winner. */
  lemma GetWinnerSwap(m: MatchRecord)
    ensures var s := m.(homePlayer := m.awayPlayer, awayPlayer := m.homePlayer, scoreHome := m.scoreAway, scoreAway := m.scoreHome);
      GetWinner(s) == match GetWinner(m) { case Home => Away case Away => Home case Draw => Draw }
  {
  }

  /** The names in the home and away columns, as a set. */
  function PlayerNames(ms: seq<MatchRecord>): (names: set<string>)
    ensures forall p :: p in names <==> exists i :: 0 <= i < |ms| && (ms[i].homePlayer == p || ms[i].awayPlayer == p)
  {
    if ms == [] then {}
    else
      var rest := PlayerNames(ms[1..]);
      assert forall i :: 1 <= i < |ms| ==> ms[i] == ms[1..][i - 1];
      {ms[0].homePlayer, ms[0].awayPlayer} + rest
  }

  /** `new Set([...homes, ...aways]).size` */
  function UniquePlayerCount(ms: seq<MatchRecord>): nat {
    |PlayerNames(ms)|
  }

  /** Each match brings at most two new names. */
  lemma {:induction false} UniquePlayerCountBound(ms: seq<MatchRecord>)
    ensures UniquePlayerCount(ms) <= 2 * |ms|
    ensures ms != [] ==> UniquePlayerCount(ms) >= 1
  {
    if ms != [] {
      UniquePlayerCountBound(ms[1..]);
      var pair := {ms[0].homePlayer, ms[0].awayPlayer};
      UnionSize(pair, PlayerNames(ms[1..]));
      assert ms[0].homePlayer in PlayerNames(ms);
    }
  }

  lemma UnionSize(a: set<string>, b: set<string>)
    ensures |a + b| <= |a| + |b|
  {
    assert |a + b| == |a| + |b| - |a * b|;
  }

  /** A player on both sides of every match is one name. */
  lemma SelfMatchesOneName(ms: seq<MatchRecord>, p: string)
    requires ms != [] && forall i :: 0 <= i < |ms| ==> ms[i].homePlayer == p && ms[i].awayPlayer == p
    ensures UniquePlayerCount(ms) == 1
  {
    assert PlayerNames(ms) == {p};
  }

  /** `matches.reduce((sum, m) => sum + m.scoreHome + m.scoreAway, 0)` */
  function TotalGoals(ms: seq<MatchRecord>): int {
    if ms == [] then 0 else TotalGoals(ms[..|ms| - 1]) + ms[|ms| - 1].scoreHome + ms[|ms| - 1].scoreAway
  }

  /** The total over two lists joined is the sum of their totals. */
  lemma {:induction false} TotalGoalsAppend(xs: seq<MatchRecord>, ys: seq<MatchRecord>)
    ensures TotalGoals(xs + ys) == TotalGoals(xs) + TotalGoals(ys)
    decreases |ys|
  {
    if ys == [] {
      assert xs + ys == xs;
    } else {
      var zs := xs + ys;
      assert zs[..|zs| - 1] == xs + ys[..|ys| - 1];
      assert zs[|zs| - 1] == ys[|ys| - 1];
      TotalGoalsAppend(xs, ys[..|ys| - 1]);
    }
  }

  /** Scores that are never negative give a total of at least any one match. */
  lemma {:induction false} TotalGoalsCoversEach(ms: seq<MatchRecord>, i: nat)
    requires forall j :: 0 <= j < |ms| ==> ms[j].scoreHome >= 0 && ms[j].scoreAway >= 0
    requires i < |ms|
    ensures TotalGoals(ms) >= ms[i].scoreHome + ms[i].scoreAway >= 0
    decreases |ms|
  {
    var front := ms[..|ms| - 1];
    TotalGoalsNonNegative(front);
    if i < |ms| - 1 {
      assert front[i] == ms[i];
      TotalGoalsCoversEach(front, i);
    }
  }

  lemma {:induction false} TotalGoalsNonNegative(ms: seq<MatchRecord>)
    requires forall j :: 0 <= j < |ms| ==> ms[j].scoreHome >= 0 && ms[j].scoreAway >= 0
    ensures TotalGoals(ms) >= 0
    decreases |ms|
  {
    if ms != [] {
      TotalGoalsNonNegative(ms[..|ms| - 1]);
    }
  }

  /** The summary the page shows. */
  datatype Summary = Summary(totalMatches: nat, uniquePlayers: nat, totalGoals: int)

  function Summarize(ms: seq<MatchRecord>): Summary {
    Summary(|ms|, UniquePlayerCount(ms), TotalGoals(ms))
  }

  datatype HistoryState = HistoryState(matches: seq<MatchRecord>, loading: bool, error: Option<string>)

  const InitialHistory := HistoryState([], true, None)

  /**
   * The history request's outcome: `None` when the request failed, otherwise
   * the `matches` field of the answer, which may be missing.
   */
  function FetchDone(s: HistoryState, response: Option<Option<seq<MatchRecord>>>): (r: HistoryState)
    ensures !r.loading
    ensures response.None? ==> r.error == Some(HistoryError) && r.matches == s.matches
    ensures response.Some? ==> r.error == s.error && r.matches == (if response.value.Some? then response.value.value else [])
  {
    match response
    case None => s.(error := Some(HistoryError), loading := false)
    case Some(field) => s.(matches := if field.Some? then field.value else [], loading := false)
  }

  /** An answer without `matches` shows an empty history with all counts zero. */
  lemma MissingMatchesIsEmpty(s: HistoryState)
    ensures Summarize(FetchDone(s, Some(None)).matches) == Summary(0, 0, 0)
  {
  }
}
