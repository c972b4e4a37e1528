/**
 * The home page: the raw `getAllBattles` records normalised into battles,
 * the values each battle card shows, the quick stats, and which parts of
 * the page appear for a given loading / error / data state.
 */
module BattleList {
  import opened Wrappers
  import opened Text

  /** The contract's battle status; `Code` gives the enum's numeric value. */
  datatype BattleStatus = Open | Active | Resolved | Cancelled

  function Code(s: BattleStatus): (r: nat)
    ensures r <= 3
  {
    match s
    case Open => 0
    case Active => 1
    case Resolved => 2
    case Cancelled => 3
  }

  /** The status a numeric code stands for; codes above 3 stand for none. */
  function StatusOfCode(code: nat): (r: Option<BattleStatus>)
    ensures r.Some? <==> code <= 3
    ensures r.Some? ==> Code(r.value) == code
  {
    if code == 0 then Some(Open)
    else if code == 1 then Some(Active)
    else if code == 2 then Some(Resolved)
    else if code == 3 then Some(Cancelled)
    else None
  }

  /** Every status round-trips through its code, so distinct statuses have distinct codes. */
  lemma CodeRoundTrip(s: BattleStatus)
    ensures StatusOfCode(Code(s)) == Some(s)
  {
  }

  /**
   * A battle as the page holds it. `status` is the decoded `uint8`
   * unchanged: the `as BattleStatus` cast converts nothing.
   */
  datatype Battle = Battle(
    id: nat,
    prediction: string,
    description: string,
    stakeAmount: nat,
    challenger: string,
    opponent: string,
    endTime: nat,
    status: nat,
    winner: string,
    createdAt: nat,
    challengerSaysYes: bool)

  /** One decoded entry of `getAllBattles`: a record with its 11 named members, or a value whose members cannot be read. */
  datatype RawEntry =
    | Unreadable
    | RawRecord(
        id: nat,
        prediction: string,
        description: string,
        stakeAmount: nat,
        challenger: string,
        opponent: string,
        endTime: nat,
        status: nat,
        winner: string,
        createdAt: nat,
        challengerSaysYes: bool)

  /** What the read hook holds in `data`: nothing yet, a value that is not an array, or the array of entries. */
  datatype BattlesData = NoData | NotAList | Entries(entries: seq<RawEntry>)

  /** One entry of the `map`: each of the 11 members copied into the battle. */
  function ToBattle(e: RawEntry): (b: Battle)
    requires e.RawRecord?
    ensures b.id == e.id && b.prediction == e.prediction && b.description == e.description
    ensures b.stakeAmount == e.stakeAmount && b.challenger == e.challenger && b.opponent == e.opponent
    ensures b.endTime == e.endTime && b.status == e.status && b.winner == e.winner
    ensures b.createdAt == e.createdAt && b.challengerSaysYes == e.challengerSaysYes
  {
    Battle(e.id, e.prediction, e.description, e.stakeAmount, e.challenger, e.opponent,
           e.endTime, e.status, e.winner, e.createdAt, e.challengerSaysYes)
  }

  /** The record a battle was read from. */
  function ToRaw(b: Battle): (e: RawEntry)
    ensures e.RawRecord?
  {
    RawRecord(b.id, b.prediction, b.description, b.stakeAmount, b.challenger, b.opponent,
              b.endTime, b.status, b.winner, b.createdAt, b.challengerSaysYes)
  }

  /** Normalisation loses nothing: a record and its battle determine each other. */
  lemma ToBattleIsFieldCopy(e: RawEntry, b: Battle)
    ensures e.RawRecord? ==> ToRaw(ToBattle(e)) == e
    ensures ToBattle(ToRaw(b)) == b
  {
  }

  /** The `map` over the entries; `None` when reading an entry throws. */
  function NormalizeEntries(entries: seq<RawEntry>): (r: Option<seq<Battle>>)
    ensures r.Some? <==> forall i :: 0 <= i < |entries| ==> entries[i].RawRecord?
    ensures r.Some? ==> |r.value| == |entries|
    ensures r.Some? ==> forall i :: 0 <= i < |entries| ==> r.value[i] == ToBattle(entries[i])
  {
    if entries == [] then Some([])
    else if entries[0].Unreadable? then None
    else
      var rest := NormalizeEntries(entries[1..]);
      if rest.None? then
        assert exists j :: 0 <= j < |entries| && !entries[j].RawRecord? by {
          var i :| 0 <= i < |entries[1..]| && !entries[1..][i].RawRecord?;
          assert entries[i + 1] == entries[1..][i];
        }
        None
      else
        Some([ToBattle(entries[0])] + rest.value)
  }

  /**
   * The `battles` memo: no data gives no battles, and so does a value that
   * cannot be mapped (the error is caught); otherwise one battle per entry,
   * in the same order.
   */
  function Battles(data: BattlesData): (r: seq<Battle>)
    ensures data.NoData? || data.NotAList? ==> r == []
    ensures data.Entries? && (exists i :: 0 <= i < |data.entries| && data.entries[i].Unreadable?) ==> r == []
    ensures data.Entries? && (forall i :: 0 <= i < |data.entries| ==> data.entries[i].RawRecord?) ==>
      |r| == |data.entries| && forall i :: 0 <= i < |r| ==> r[i] == ToBattle(data.entries[i])
  {
    match data
    case NoData => []
    case NotAList => []
    case Entries(entries) =>
      var normalized := NormalizeEntries(entries);
      if normalized.Some? then normalized.value else []
  }

  /** The records of a list of battles as the contract returns them. */
  function RawEntries(bs: seq<Battle>): (r: seq<RawEntry>)
    ensures |r| == |bs|
    ensures forall i :: 0 <= i < |bs| ==> r[i] == ToRaw(bs[i])
  {
    if bs == [] then [] else [ToRaw(bs[0])] + RawEntries(bs[1..])
  }

  /** Reading back the records of any list of battles gives exactly that list. */
  lemma NormalizeRoundTrip(bs: seq<Battle>)
    ensures Battles(Entries(RawEntries(bs))) == bs
  {
    var entries := RawEntries(bs);
    assert forall i :: 0 <= i < |entries| ==> entries[i].RawRecord?;
    var r := Battles(Entries(entries));
    assert |r| == |bs|;
    forall i | 0 <= i < |bs| ensures r[i] == bs[i] {
      ToBattleIsFieldCopy(entries[i], bs[i]);
    }
  }

  // ---------------------------------------------------------------------
  // One battle card
  // ---------------------------------------------------------------------

  datatype Stance = Yes | No

  function StanceOf(saysYes: bool): Stance {
    if saysYes then Yes else No
  }

  /** The badge styles of `getStatusBadge`. */
  datatype BadgeVariant = Outline | Default | Green | Secondary

  datatype Badge = Badge(text: string, variant: BadgeVariant)

  function StatusName(s: BattleStatus): string {
    match s
    case Open => "Open"
    case Active => "Active"
    case Resolved => "Resolved"
    case Cancelled => "Cancelled"
  }

  /**
   * `getStatusBadge`: one badge per status, labelled with the status's name;
   * for a code outside the enum the `switch` falls through and no badge is shown.
   */
  function StatusBadge(code: nat): (r: Option<Badge>)
    ensures r.Some? <==> code <= 3
    ensures r.Some? ==> r.value.text == StatusName(StatusOfCode(code).value)
  {
    match StatusOfCode(code)
    case None => None
    case Some(Open) => Some(Badge("Open", Outline))
    case Some(Active) => Some(Badge("Active", Default))
    case Some(Resolved) => Some(Badge("Resolved", Green))
    case Some(Cancelled) => Some(Badge("Cancelled", Secondary))
  }

  /** Distinct statuses get distinct badges. */
  lemma StatusBadgesDistinct(c1: nat, c2: nat)
    requires c1 <= 3 && c2 <= 3 && c1 != c2
    ensures StatusBadge(c1) != StatusBadge(c2)
  {
  }

  /** `hasOpponent`: the opponent is not the zero address. */
  predicate HasOpponent(b: Battle): (r: bool)
    ensures !r ==> |b.opponent| == 42 && StartsWith(b.opponent, "0x")
  {
    ZeroAddressIsHex();
    b.opponent != ZeroAddress
  }

  /** The opponent panel: the "Waiting..." placeholder, or the opponent's short address and stance. */
  datatype OpponentPanel = Waiting | Shown(address: string, stance: Stance)

  /** The values one battle card shows. */
  datatype BattleCard = BattleCard(
    id: nat,
    title: string,
    description: string,
    badge: Option<Badge>,
    prizePoolWei: nat,
    challengerLabel: string,
    challengerStance: Stance,
    opponent: OpponentPanel,
    openToJoin: bool)

  /**
   * The card of one battle. The prize pool is both stakes, 2 x stakeAmount
   * wei. The opponent appears only when there is one and the battle is no
   * longer open, and then with the stance opposite to the challenger's.
   */
  function Card(b: Battle): (c: BattleCard)
    ensures c.id == b.id && c.title == b.prediction && c.description == b.description
    ensures c.badge == StatusBadge(b.status)
    ensures c.prizePoolWei == 2 * b.stakeAmount
    ensures c.challengerLabel == FormatAddress(b.challenger)
    ensures c.challengerStance == Yes <==> b.challengerSaysYes
    ensures c.opponent.Shown? <==> HasOpponent(b) && StatusOfCode(b.status) != Some(Open)
    ensures c.opponent.Shown? ==> c.opponent.address == FormatAddress(b.opponent)
    ensures c.opponent.Shown? ==> c.opponent.stance != c.challengerStance
    ensures c.openToJoin <==> StatusOfCode(b.status) == Some(Open)
  {
    var showOpponent := HasOpponent(b) && b.status != Code(Open);
    BattleCard(
      b.id,
      b.prediction,
      b.description,
      StatusBadge(b.status),
      b.stakeAmount * 2,
      FormatAddress(b.challenger),
      StanceOf(b.challengerSaysYes),
      if showOpponent then Shown(FormatAddress(b.opponent), StanceOf(!b.challengerSaysYes)) else Waiting,
      b.status == Code(Open))
  }

  /** The cards of the grid, one per battle, in order. */
  function Cards(bs: seq<Battle>): (r: seq<BattleCard>)
    ensures |r| == |bs|
    ensures forall i :: 0 <= i < |bs| ==> r[i] == Card(bs[i])
  {
    if bs == [] then [] else [Card(bs[0])] + Cards(bs[1..])
  }

  // ---------------------------------------------------------------------
  // Counts
  // ---------------------------------------------------------------------

  /** `battles.filter(b => b.status === BattleStatus.Active).length`. */
  function ActiveCount(bs: seq<Battle>): (r: nat)
    ensures r <= |bs|
  {
    if bs == [] then 0
    else (if bs[0].status == Code(Active) then 1 else 0) + ActiveCount(bs[1..])
  }

  /** The count over two lists joined is the sum of their counts. */
  lemma {:induction false} ActiveCountAppend(a: seq<Battle>, b: seq<Battle>)
    ensures ActiveCount(a + b) == ActiveCount(a) + ActiveCount(b)
  {
    if a == [] {
      assert a + b == b;
    } else {
      assert (a + b)[1..] == a[1..] + b;
      ActiveCountAppend(a[1..], b);
    }
  }

  /**
   * The active count never exceeds the total; it is the total exactly when
   * every battle is active, and zero exactly when none is.
   */
  lemma {:induction false} ActiveCountBounds(bs: seq<Battle>)
    ensures ActiveCount(bs) <= |bs|
    ensures ActiveCount(bs) == |bs| <==> forall i :: 0 <= i < |bs| ==> bs[i].status == Code(Active)
    ensures ActiveCount(bs) == 0 <==> forall i :: 0 <= i < |bs| ==> bs[i].status != Code(Active)
  {
    if bs != [] {
      ActiveCountBounds(bs[1..]);
      assert forall i :: 1 <= i < |bs| ==> bs[i] == bs[1..][i - 1];
    }
  }

  // ---------------------------------------------------------------------
  // The page
  // ---------------------------------------------------------------------

  /** The state the page renders from: both read hooks' loading flags and error messages, and the battles data. */
  datatype HomeInput = HomeInput(
    isLoadingCount: bool,
    isLoadingBattles: bool,
    countError: Option<string>,
    battlesError: Option<string>,
    data: BattlesData)

  datatype QuickStats = QuickStats(total: nat, active: nat)

  /** Which parts of the page appear, with what they show. */
  datatype HomeView = HomeView(
    skeleton: bool,
    errorCard: Option<string>,
    stats: Option<QuickStats>,
    grid: Option<seq<BattleCard>>,
    emptyState: bool)

  /** `countError || battlesError`: the count read's error wins. */
  function PageError(input: HomeInput): (r: Option<string>)
    ensures r.None? <==> input.countError.None? && input.battlesError.None?
  {
    if input.countError.Some? then input.countError else input.battlesError
  }

  const NoDataMarker: string := "returned no data"

  /** The error card shows the message unless it contains "returned no data". */
  function ErrorCard(error: Option<string>): (r: Option<string>)
    ensures r.Some? <==> error.Some? && !Contains(error.value, NoDataMarker)
    ensures r.Some? ==> r == error
  {
    if error.Some? && !Contains(error.value, NoDataMarker) then error else None
  }

  /**
   * The page. The quick stats appear whenever there are battles and never
   * count more active battles than there are battles. The grid shows one
   * card per battle in order, and it and the empty state appear only when
   * nothing is loading and there is no error at all: an error containing
   * "returned no data" hides the error card but also both lists.
   */
  function Home(input: HomeInput): (v: HomeView)
    ensures v.skeleton <==> input.isLoadingCount || input.isLoadingBattles
    ensures v.errorCard == ErrorCard(PageError(input))
    ensures v.stats.Some? <==> |Battles(input.data)| > 0
    ensures v.stats.Some? ==> v.stats.value.total == |Battles(input.data)| && v.stats.value.active <= v.stats.value.total
    ensures v.stats.Some? ==> v.stats.value.active == ActiveCount(Battles(input.data))
    ensures v.grid.Some? <==> !v.skeleton && PageError(input).None? && |Battles(input.data)| > 0
    ensures v.grid.Some? ==> v.grid.value == Cards(Battles(input.data))
    ensures v.emptyState <==> !v.skeleton && PageError(input).None? && |Battles(input.data)| == 0
  {
    var battles := Battles(input.data);
    var isLoading := input.isLoadingCount || input.isLoadingBattles;
    var error := PageError(input);
    ActiveCountBounds(battles);
    HomeView(
      isLoading,
      ErrorCard(error),
      if |battles| > 0 then Some(QuickStats(|battles|, ActiveCount(battles))) else None,
      if !isLoading && error.None? && |battles| > 0 then Some(Cards(battles)) else None,
      !isLoading && error.None? && |battles| == 0)
  }

  /**
   * A "returned no data" error leaves only the header: no error card, no
   * grid and no empty-state card.
   */
  lemma NoDataErrorShowsNothing(input: HomeInput, message: string)
    requires PageError(input) == Some(message)
    requires Contains(message, NoDataMarker)
    ensures Home(input).errorCard.None? && Home(input).grid.None? && !Home(input).emptyState
  {
  }

  /**
   * The message viem gives when a contract read returns empty data
   * ("The contract function "<name>" returned no data ("0x").") is such an error.
   */
  lemma ZeroDataMessageIsSuppressed(functionName: string)
    ensures var message := "The contract function \"" + functionName + "\" " + NoDataMarker + " (\"0x\").";
      Contains(message, NoDataMarker) && ErrorCard(Some(message)).None?
  {
    var head := "The contract function \"" + functionName + "\" ";
    var message := head + NoDataMarker + " (\"0x\").";
    assert message[|head|..|head| + |NoDataMarker|] == NoDataMarker;
    ContainsAt(message, NoDataMarker, |head|);
  }
}
