/**
 * The leaderboard page: the integer win rate, the rank marks, and the rows
 * built by pairing the returned addresses with the returned stats index by
 * index, in the order the contract returned them.
 */
module Leaderboard {
  import opened Wrappers
  import opened Text

  /** One user's counters as the contract reports them (all `uint256`, in wei for the amounts). */
  datatype UserStats = UserStats(totalBattles: nat, wins: nat, losses: nat, totalStaked: nat, totalWinnings: nat)

  /**
   * `calculateWinRate`: 0 without battles, otherwise the percentage of wins
   * rounded down (`bigint` division); at most 100 when wins <= total.
   */
  function WinRate(wins: nat, total: nat): (r: nat)
    ensures total == 0 ==> r == 0
    ensures total > 0 ==> r * total <= wins * 100 < (r + 1) * total
    ensures wins <= total ==> r <= 100
  {
    if total == 0 then 0
    else
      var r := (wins * 100) / total;
      FloorDivBounds(wins * 100, total);
      RateAtMostHundred(r, wins, total);
      r
  }

  lemma FloorDivBounds(n: nat, d: nat)
    requires d > 0
    ensures (n / d) * d <= n < (n / d + 1) * d
  {
  }

  lemma RateAtMostHundred(r: nat, wins: nat, total: nat)
    requires total > 0 && r * total <= wins * 100
    ensures wins <= total ==> r <= 100
  {
  }

  lemma MulMonotone(a: nat, b: nat, c: nat)
    requires a <= b
    ensures a * c <= b * c
  {
  }

  /** A user who won every battle has a win rate of exactly 100. */
  lemma AllWinsIsHundred(total: nat)
    requires total > 0
    ensures WinRate(total, total) == 100
  {
    var r := WinRate(total, total);
    if r < 100 {
      MulMonotone(r + 1, 100, total);
    }
  }

  /** More wins over the same number of battles never lowers the win rate. */
  lemma WinRateMonotone(w1: nat, w2: nat, total: nat)
    requires w1 <= w2
    ensures WinRate(w1, total) <= WinRate(w2, total)
  {
  }

  /** 1-based rank of the entry at an index. */
  function Rank(index: nat): nat {
    index + 1
  }

  /** What a row shows in its rank circle: the medals 🥇, 🥈, 🥉 for the top three, `#rank` below. */
  datatype RankMark = Gold | Silver | Bronze | Numbered(rank: nat)

  /** The mark of a rank: ranks 1, 2 and 3 get the gold, silver and bronze medals; the others their number. */
  function Mark(rank: nat): (m: RankMark)
    ensures m.Numbered? <==> rank > 3 || rank == 0
    ensures m.Numbered? ==> m.rank == rank
    ensures m == Gold <==> rank == 1
    ensures m == Silver <==> rank == 2
    ensures m == Bronze <==> rank == 3
  {
    if rank == 1 then Gold
    else if rank == 2 then Silver
    else if rank == 3 then Bronze
    else Numbered(rank)
  }

  /** The "Top n" badge, shown for the first three ranks only. */
  function TopBadge(rank: nat): (r: Option<nat>)
    ensures r.Some? <==> rank <= 3
    ensures r.Some? ==> r.value == rank
  {
    if rank <= 3 then Some(rank) else None
  }

  /** The values one leaderboard row shows. */
  datatype Row = Row(
    rank: nat,
    address: string,
    addressText: string,
    mark: RankMark,
    topBadge: Option<nat>,
    stats: UserStats,
    winRate: nat)

  /** The row at an index: its 1-based rank, the address and its short form, the marks of that rank, the stats and their win rate. */
  function MakeRow(index: nat, address: string, stats: UserStats): (row: Row)
    ensures row.rank == index + 1 && row.address == address
    ensures row.addressText == FormatAddress(address)
    ensures !row.mark.Numbered? <==> index < 3
    ensures row.topBadge.Some? <==> index < 3
    ensures row.topBadge.Some? ==> row.topBadge.value == index + 1
    ensures row.stats == stats
    ensures row.winRate == WinRate(stats.wins, stats.totalBattles)
    ensures stats.wins <= stats.totalBattles ==> row.winRate <= 100
  {
    var rank := Rank(index);
    Row(rank, address, FormatAddress(address), Mark(rank), TopBadge(rank),
        stats, WinRate(stats.wins, stats.totalBattles))
  }

  /**
   * `addresses.map((address, index) => ...)`: one row per address, in the
   * returned order, each with the stats at the same index.
   */
  function Rows(addresses: seq<string>, stats: seq<UserStats>): (rows: seq<Row>)
    requires |stats| >= |addresses|
    ensures |rows| == |addresses|
    ensures forall i :: 0 <= i < |rows| ==> rows[i] == MakeRow(i, addresses[i], stats[i])
  {
    seq(|addresses|, i requires 0 <= i < |addresses| => MakeRow(i, addresses[i], stats[i]))
  }

  /**
   * The rows keep the contract's order: ranks run 1, 2, 3, ... down the
   * list, exactly the first three rows carry a medal and a "Top n" badge,
   * and every row's numbers are its own stats.
   */
  lemma RowsInReturnedOrder(addresses: seq<string>, stats: seq<UserStats>)
    requires |stats| >= |addresses|
    ensures var rows := Rows(addresses, stats);
      && (forall i :: 0 <= i < |rows| ==> rows[i].rank == i + 1 && rows[i].address == addresses[i])
      && (forall i, j :: 0 <= i < j < |rows| ==> rows[i].rank < rows[j].rank)
      && (forall i :: 0 <= i < |rows| ==> (!rows[i].mark.Numbered? <==> i < 3))
      && (forall i :: 0 <= i < |rows| ==> (rows[i].topBadge.Some? <==> i < 3))
      && (forall i :: 0 <= i < |rows| ==>
            rows[i].stats == stats[i] && rows[i].winRate == WinRate(stats[i].wins, stats[i].totalBattles))
  {
  }

  /** How the `getLeaderboard` read ended, when it has: failed, or succeeded with its two arrays. */
  datatype ReadResult = ReadFailed | Success(addresses: Option<seq<string>>, stats: seq<UserStats>)

  /** What the page shows below its title. */
  datatype LeaderboardView =
    | Skeleton
    | Blank
    | EmptyState
    | Table(rows: seq<Row>)
    | RenderFault  // `stats[index]` is missing: reading its `wins` throws

  /**
   * The page body: skeletons while loading; nothing unless the read
   * succeeded; the "No Rankings Yet" card for an absent or empty address
   * list; otherwise the rows.
   */
  function View(isLoading: bool, data: Option<ReadResult>): (v: LeaderboardView)
    ensures v.Skeleton? <==> isLoading
    ensures v.Blank? <==> !isLoading && (data.None? || data.value.ReadFailed?)
    ensures v.EmptyState? <==>
      !isLoading && data.Some? && data.value.Success? && (data.value.addresses.None? || data.value.addresses.value == [])
    ensures v.Table? ==>
      && data.Some? && data.value.Success? && data.value.addresses.Some?
      && |v.rows| == |data.value.addresses.value| > 0
      && |data.value.stats| >= |v.rows|
      && v.rows == Rows(data.value.addresses.value, data.value.stats)
    ensures v.RenderFault? <==>
      && !isLoading && data.Some? && data.value.Success? && data.value.addresses.Some?
      && |data.value.stats| < |data.value.addresses.value|
      && data.value.addresses.value != []
  {
    if isLoading then Skeleton
    else if data.None? || data.value.ReadFailed? then Blank
    else
      var addresses := data.value.addresses;
      if addresses.None? || |addresses.value| == 0 then EmptyState
      else if |data.value.stats| < |addresses.value| then RenderFault
      else Table(Rows(addresses.value, data.value.stats))
  }
}
