/**
 * The route bodies of the two servers over already parsed request bodies.
 * What the Riot API answers is given as functions (`Upstream`): every lookup
 * of the same arguments gives the same answer, and a rejected call is an
 * `Err` carrying the error message.
 *
 * `/api/account`, `/api/mastery/overall` and `/api/mastery` behave the same
 * in backend/server.js and server.js (they differ only in how the Riot call
 * itself retries, see `RiotHttp`). `/api/playtime/profile` differs and has one
 * method per server.
 */
module Routes {
  import opened Base
  import opened Tally
  import opened Sorting
  import opened MatchHistory
  import opened Playtime

  /** One entry of the `accounts` array; a missing or empty field is "". */
  datatype AccountRef = AccountRef(name: string, region: string)

  datatype RiotAccount = RiotAccount(puuid: string, gameName: string, tagLine: string)

  /** One element of the champion-mastery list. */
  datatype Mastery = Mastery(championId: int, championPoints: Option<int>, championLevel: int)

  datatype Upstream = Upstream(
    account: (string, string) -> Result<RiotAccount, string>,
    masteries: (string, string) -> Result<seq<Mastery>, string>,
    summonerLevel: (string, string) -> Result<Option<nat>, string>,
    matchPages: (string, string) -> (nat -> PageReply))

  const DefaultRegion: string := "euw1"
  const MalformedName: string := "Ungültiges Format (NAME#TAG erwartet)"
  const AccountsMissing: string := "accounts fehlt/leer"
  const ChampionMissing: string := "championId fehlt"

  /** `(acc.name || "").trim()`. */
  function FullName(acc: AccountRef): string
  {
    Trim(acc.name)
  }

  /** `(acc.region || "euw1").toLowerCase()`. */
  function RegionOf(acc: AccountRef): string
  {
    Lower(if acc.region == "" then DefaultRegion else acc.region)
  }

  /**
   * `const [name, tag] = full.split("#")` behind an `includes("#")` check:
   * the text before the first '#' and the text between the first and the
   * second '#'.
   */
  function SplitRiotId(full: string): (r: Option<(string, string)>)
    ensures r.Some? <==> '#' in full
    ensures r.Some? ==> '#' !in r.value.0 && '#' !in r.value.1
    ensures r.Some? ==> StartsWith(full, r.value.0 + "#" + r.value.1)
  {
    var k := IndexOf(full, '#');
    if k == |full| then None
    else
      var rest := full[k + 1..];
      var name, tag := full[..k], rest[..IndexOf(rest, '#')];
      assert (name + "#" + tag) == full[..k + 1 + |tag|];
      Some((name, tag))
  }

  /** A name and a tag without '#' come back apart. */
  lemma SplitJoin(name: string, tag: string)
    requires '#' !in name && '#' !in tag
    ensures SplitRiotId(name + "#" + tag) == Some((name, tag))
  {
    var full := name + "#" + tag;
    assert full[|name|] == '#';
    assert IndexOf(full, '#') == |name|;
    assert full[|name| + 1..] == tag;
    assert IndexOf(tag, '#') == |tag|;
    assert tag[..|tag|] == tag;
    assert full[..|name|] == name;
  }

  /** Extra '#'-separated parts are dropped. */
  lemma SplitDropsExtraParts(name: string, tag: string, extra: string)
    requires '#' !in name && '#' !in tag
    ensures SplitRiotId(name + "#" + tag + "#" + extra) == Some((name, tag))
  {
    var full := name + "#" + tag + "#" + extra;
    assert full[|name|] == '#';
    assert IndexOf(full, '#') == |name|;
    var rest := full[|name| + 1..];
    assert rest == tag + "#" + extra;
    assert rest[|tag|] == '#';
    assert IndexOf(rest, '#') == |tag|;
    assert rest[..|tag|] == tag;
    assert full[..|name|] == name;
  }

  // ---------------------------------------------------------------------
  // GET /api/account (backend/server.js)
  // ---------------------------------------------------------------------

  datatype AccountReply =
    | AccountBadRequest
    | AccountFound(gameName: string, tagLine: string, puuid: string, region: string)
    | AccountFailed(message: string)

  /** The handler: the region is echoed without lower-casing. */
  function LookupAccount(up: Upstream, name: string, region: string): (r: AccountReply)
    ensures r.AccountBadRequest? <==> '#' !in Trim(name)
    ensures r.AccountFound? ==> r.region == (if region == "" then DefaultRegion else region)
  {
    match SplitRiotId(Trim(name))
    case None => AccountBadRequest
    case Some(parts) =>
      match up.account(parts.0, parts.1)
      case Err(m) => AccountFailed(m)
      case Ok(a) => AccountFound(a.gameName, a.tagLine, a.puuid, if region == "" then DefaultRegion else region)
  }

  // ---------------------------------------------------------------------
  // POST /api/mastery/overall
  // ---------------------------------------------------------------------

  /** `m.championPoints || 0`. */
  function PointsOrZero(p: Option<int>): int
  {
    if p.Some? then p.value else 0
  }

  function MasteryPairs(ms: seq<Mastery>): (r: seq<(int, real)>)
    ensures |r| == |ms|
  {
    if ms == [] then [] else MasteryPairs(ms[..|ms| - 1]) + [(ms[|ms| - 1].championId, PointsOrZero(ms[|ms| - 1].championPoints) as real)]
  }

  /**
   * The mastery list of one account, or `None` when the account is skipped:
   * a name without '#', or a failed account or mastery lookup.
   */
  function MasteriesOf(up: Upstream, acc: AccountRef): Option<seq<Mastery>>
  {
    match SplitRiotId(FullName(acc))
    case None => None
    case Some(parts) =>
      match up.account(parts.0, parts.1)
      case Err(_) => None
      case Ok(a) =>
        match up.masteries(a.puuid, RegionOf(acc))
        case Err(_) => None
        case Ok(ms) => Some(ms)
  }

  /** The (championId, points) pairs one account adds; skipped accounts add none. */
  function Contribution(up: Upstream, acc: AccountRef): seq<(int, real)>
  {
    var ms := MasteriesOf(up, acc);
    if ms.Some? then MasteryPairs(ms.value) else []
  }

  function Contributions(up: Upstream, accs: seq<AccountRef>): seq<(int, real)>
  {
    if accs == [] then [] else Contributions(up, accs[..|accs| - 1]) + Contribution(up, accs[|accs| - 1])
  }

  /** The answer; each bucket is one `{ championId: key, totalPoints: total }` entry. */
  datatype OverallResponse = OverallBadRequest(error: string) | OverallOk(champions: seq<Bucket<int>>)

  /** What the route answers. */
  function OverallOf(up: Upstream, accounts: Option<seq<AccountRef>>): (r: OverallResponse)
    ensures r.OverallBadRequest? <==> accounts.None? || accounts.value == []
    ensures r.OverallOk? ==> forall i, j :: 0 <= i < j < |r.champions| ==> r.champions[i].total >= r.champions[j].total
  {
    if accounts.None? || accounts.value == [] then OverallBadRequest(AccountsMissing)
    else
      RankedSorted(Contributions(up, accounts.value));
      OverallOk(Ranked(Contributions(up, accounts.value)))
  }

  /** One more entry of the list is one more `Add` on the totals. */
  lemma AddMasteryStep(done: seq<(int, real)>, list: seq<Mastery>, j: nat)
    requires j < |list|
    ensures Accumulate(done + MasteryPairs(list[..j + 1])) ==
            Add(Accumulate(done + MasteryPairs(list[..j])), list[j].championId, PointsOrZero(list[j].championPoints) as real)
  {
    var pair := (list[j].championId, PointsOrZero(list[j].championPoints) as real);
    assert list[..j + 1][..j] == list[..j];
    assert done + MasteryPairs(list[..j + 1]) == (done + MasteryPairs(list[..j])) + [pair];
    TallyStep(done + MasteryPairs(list[..j]), pair);
  }

  /** The inner loop of the handler: one account's mastery entries into `totals`. */
  method AddMasteries(totals: seq<Bucket<int>>, list: seq<Mastery>, ghost done: seq<(int, real)>)
    returns (r: seq<Bucket<int>>)
    requires totals == Accumulate(done)
    ensures r == Accumulate(done + MasteryPairs(list))
  {
    r := totals;
    var j := 0;
    assert done + MasteryPairs(list[..0]) == done;
    while j < |list|
      invariant 0 <= j <= |list|
      invariant r == Accumulate(done + MasteryPairs(list[..j]))
    {
      var m := list[j];
      AddMasteryStep(done, list, j);
      r := Add(r, m.championId, PointsOrZero(m.championPoints) as real);
      j := j + 1;
    }
    assert list[..j] == list;
  }

  /** The handler's loop over the accounts, then the sort of the `totals` entries. */
  method MasteryOverall(up: Upstream, accounts: Option<seq<AccountRef>>) returns (resp: OverallResponse)
    ensures resp == OverallOf(up, accounts)
  {
    if accounts.None? || |accounts.value| == 0 {
      return OverallBadRequest(AccountsMissing);
    }
    var accs := accounts.value;
    var totals: seq<Bucket<int>> := [];
    var i := 0;
    while i < |accs|
      invariant 0 <= i <= |accs|
      invariant totals == Accumulate(Contributions(up, accs[..i]))
    {
      assert accs[..i + 1][..i] == accs[..i];
      ghost var done := Contributions(up, accs[..i]);
      ghost var added := Contribution(up, accs[i]);
      assert Contributions(up, accs[..i + 1]) == done + added;
      var ms := MasteriesOf(up, accs[i]);
      if ms.Some? {
        totals := AddMasteries(totals, ms.value, done);
      } else {
        assert done + added == done;
      }
      i := i + 1;
    }
    assert accs[..i] == accs;
    resp := OverallOk(Sort(totals, Descending(BucketTotal)));
  }

  /** A malformed name adds nothing, whatever the upstream answers. */
  lemma MalformedAccountSkipped(up: Upstream, acc: AccountRef)
    requires '#' !in FullName(acc)
    ensures Contribution(up, acc) == []
  {
  }

  // ---------------------------------------------------------------------
  // POST /api/mastery
  // ---------------------------------------------------------------------

  /** `ms[i]` has the requested id and no entry before it does. */
  predicate FirstWithId(ms: seq<Mastery>, i: int, target: Number)
  {
    0 <= i < |ms| && target == Num(ms[i].championId as real) &&
    forall j :: 0 <= j < i ==> target != Num(ms[j].championId as real)
  }

  /** `masteries.find(entry => Number(entry.championId) === champIdNum)`. */
  function FindMastery(ms: seq<Mastery>, target: Number): (r: Option<Mastery>)
    ensures r.Some? ==> exists i :: FirstWithId(ms, i, target) && ms[i] == r.value
    ensures r.None? ==> forall m :: m in ms ==> target != Num(m.championId as real)
  {
    if ms == [] then None
    else if target == Num(ms[0].championId as real) then
      assert FirstWithId(ms, 0, target);
      Some(ms[0])
    else
      FirstWithIdTail(ms, target);
      FindMastery(ms[1..], target)
  }

  /** Past a first entry with another id, the first entry with the id moves up by one place. */
  lemma FirstWithIdTail(ms: seq<Mastery>, target: Number)
    requires ms != [] && target != Num(ms[0].championId as real)
    ensures forall i :: FirstWithId(ms[1..], i, target) ==> FirstWithId(ms, i + 1, target) && ms[i + 1] == ms[1..][i]
  {
    forall i | FirstWithId(ms[1..], i, target) ensures FirstWithId(ms, i + 1, target) {
      forall j | 0 <= j < i + 1 ensures target != Num(ms[j].championId as real) {
        if j > 0 { assert ms[j] == ms[1..][j - 1]; }
      }
    }
  }

  datatype ChampionRow = ChampionRow(name: string, region: string, points: Option<int>, level: int, error: Option<string>)

  /** The row pushed for one account. */
  function ChampionRowOf(up: Upstream, acc: AccountRef, target: Number): ChampionRow
  {
    var full, region := FullName(acc), RegionOf(acc);
    match SplitRiotId(full)
    case None => ChampionRow(full, region, Some(0), 0, Some(MalformedName))
    case Some(parts) =>
      match up.account(parts.0, parts.1)
      case Err(m) => ChampionRow(full, region, Some(0), 0, Some(m))
      case Ok(a) =>
        match up.masteries(a.puuid, region)
        case Err(m) => ChampionRow(full, region, Some(0), 0, Some(m))
        case Ok(ms) =>
          match FindMastery(ms, target)
          case None => ChampionRow(a.gameName + "#" + a.tagLine, region, Some(0), 0, None)
          case Some(m) => ChampionRow(a.gameName + "#" + a.tagLine, region, m.championPoints, m.championLevel, None)
  }

  /** `results.reduce((sum, r) => sum + (r.points || 0), 0)`. */
  function SumPoints(rows: seq<ChampionRow>): int
  {
    if rows == [] then 0 else SumPoints(rows[..|rows| - 1]) + PointsOrZero(rows[|rows| - 1].points)
  }

  datatype SingleResponse =
    | SingleBadRequest(error: string)
    | SingleOk(championId: Json, championName: Option<Json>, totalPoints: int, accounts: seq<ChampionRow>)

  /** One row per account, in input order. */
  function ChampionRows(up: Upstream, accs: seq<AccountRef>, target: Number): seq<ChampionRow>
  {
    seq(|accs|, i requires 0 <= i < |accs| => ChampionRowOf(up, accs[i], target))
  }

  lemma ChampionRowsStep(up: Upstream, accs: seq<AccountRef>, target: Number, i: nat)
    requires i < |accs|
    ensures ChampionRows(up, accs[..i + 1], target) == ChampionRows(up, accs[..i], target) + [ChampionRowOf(up, accs[i], target)]
  {
  }

  /** What the route answers: the `championId` check comes first. */
  function SingleOf(up: Upstream, championId: Option<Json>, championName: Option<Json>,
                    accounts: Option<seq<AccountRef>>): (r: SingleResponse)
    ensures r.SingleBadRequest? <==> !Truthy(championId) || accounts.None? || accounts.value == []
    ensures r.SingleOk? ==> |r.accounts| == |accounts.value| && r.totalPoints == SumPoints(r.accounts)
  {
    if !Truthy(championId) then SingleBadRequest(ChampionMissing)
    else if accounts.None? || accounts.value == [] then SingleBadRequest(AccountsMissing)
    else
      var rows := ChampionRows(up, accounts.value, NumberOfJson(championId.value));
      SingleOk(championId.value, if Truthy(championName) then championName else None, SumPoints(rows), rows)
  }

  /** The handler's loop over the accounts, then the sum. */
  method MasterySingle(up: Upstream, championId: Option<Json>, championName: Option<Json>,
                       accounts: Option<seq<AccountRef>>) returns (resp: SingleResponse)
    ensures resp == SingleOf(up, championId, championName, accounts)
  {
    if !Truthy(championId) {
      return SingleBadRequest(ChampionMissing);
    }
    if accounts.None? || |accounts.value| == 0 {
      return SingleBadRequest(AccountsMissing);
    }
    var accs := accounts.value;
    var target := NumberOfJson(championId.value);
    var results: seq<ChampionRow> := [];
    var i := 0;
    while i < |accs|
      invariant 0 <= i <= |accs|
      invariant results == ChampionRows(up, accs[..i], target)
    {
      var row := ChampionRowOf(up, accs[i], target);
      assert ChampionRows(up, accs[..i + 1], target) == results + [row] by {
        ChampionRowsStep(up, accs, target, i);
      }
      results := results + [row];
      i := i + 1;
    }
    assert accs[..i] == accs;
    resp := SingleOk(championId.value, if Truthy(championName) then championName else None, SumPoints(results), results);
  }

  /**
   * One account's row: the region is echoed; a skipped account (malformed
   * name, failed lookup) carries its error and 0 points; otherwise the row
   * holds the first mastery entry whose id equals the requested one, or 0
   * points and level 0 when there is none.
   */
  lemma ChampionRowFacts(up: Upstream, acc: AccountRef, target: Number)
    ensures var row := ChampionRowOf(up, acc, target);
      && row.region == RegionOf(acc)
      && (row.error.None? <==> MasteriesOf(up, acc).Some?)
      && (row.error.Some? ==> row.name == FullName(acc) && row.points == Some(0) && row.level == 0)
      && ('#' !in FullName(acc) ==> row.error == Some(MalformedName))
      && (MasteriesOf(up, acc).Some? ==>
            var ms := MasteriesOf(up, acc).value;
            || (exists i :: FirstWithId(ms, i, target)
                  && row.points == ms[i].championPoints && row.level == ms[i].championLevel)
            || (row.points == Some(0) && row.level == 0
                  && forall m :: m in ms ==> target != Num(m.championId as real)))
  {
  }

  /** One row per account, in input order, and the total is the sum of the rows' points. */
  lemma SingleRows(up: Upstream, championId: Json, championName: Option<Json>, accs: seq<AccountRef>)
    requires Truthy(Some(championId)) && accs != []
    ensures var r := SingleOf(up, Some(championId), championName, Some(accs));
      && r.SingleOk?
      && |r.accounts| == |accs|
      && (forall i :: 0 <= i < |accs| ==> r.accounts[i] == ChampionRowOf(up, accs[i], NumberOfJson(championId)))
      && r.totalPoints == SumPoints(r.accounts)
  {
  }

  /** The total of a successful answer counts only the rows without an error. */
  lemma SingleTotalSkipsErrors(up: Upstream, championId: Json, championName: Option<Json>, accs: seq<AccountRef>)
    requires Truthy(Some(championId)) && accs != []
    ensures var r := SingleOf(up, Some(championId), championName, Some(accs));
      r.SingleOk? && r.totalPoints == SumPoints(Successful(r.accounts))
  {
    var target := NumberOfJson(championId);
    var rows := ChampionRows(up, accs, target);
    forall i | 0 <= i < |rows| && rows[i].error.Some? ensures PointsOrZero(rows[i].points) == 0 {
      ChampionRowFacts(up, accs[i], target);
    }
    SumSkipsErrorRows(rows);
  }

  /** A falsy `championId` is refused before the accounts are looked at. */
  lemma SingleValidation(up: Upstream, championId: Option<Json>, championName: Option<Json>,
                         accounts: Option<seq<AccountRef>>)
    ensures !Truthy(championId) ==> SingleOf(up, championId, championName, accounts) == SingleBadRequest(ChampionMissing)
    ensures Truthy(championId) && (accounts.None? || accounts.value == []) ==>
      SingleOf(up, championId, championName, accounts) == SingleBadRequest(AccountsMissing)
  {
  }

  /** The points of rows with an error drop out of the total. */
  lemma {:induction false} SumSkipsErrorRows(rows: seq<ChampionRow>)
    requires forall i :: 0 <= i < |rows| && rows[i].error.Some? ==> PointsOrZero(rows[i].points) == 0
    ensures SumPoints(rows) == SumPoints(Successful(rows))
  {
    if rows != [] {
      var init := rows[..|rows| - 1];
      SumSkipsErrorRows(init);
      var last := rows[|rows| - 1];
      assert rows == init + [last];
      SuccessfulSnoc(init, last);
      if last.error.None? {
        SumPointsSnoc(Successful(init), last);
      } else {
        assert Successful(init) + [] == Successful(init);
      }
    }
  }

  function Successful(rows: seq<ChampionRow>): seq<ChampionRow>
  {
    if rows == [] then []
    else Successful(rows[..|rows| - 1]) + (if rows[|rows| - 1].error.None? then [rows[|rows| - 1]] else [])
  }

  lemma SumPointsSnoc(rows: seq<ChampionRow>, r: ChampionRow)
    ensures SumPoints(rows + [r]) == SumPoints(rows) + PointsOrZero(r.points)
  {
    assert (rows + [r])[..|rows|] == rows;
  }

  lemma SuccessfulSnoc(rows: seq<ChampionRow>, r: ChampionRow)
    ensures Successful(rows + [r]) == Successful(rows) + (if r.error.None? then [r] else [])
  {
    assert (rows + [r])[..|rows|] == rows;
  }

  // ---------------------------------------------------------------------
  // POST /api/playtime/profile
  // ---------------------------------------------------------------------

  /**
   * One account of the playtime response. An error row has no level and no
   * hour figures in the response; here they are 0.
   */
  datatype PlayRow = PlayRow(name: string, region: string, totalGames: nat, estimatedHours: int,
                             source: Source, level: nat, hoursFromMatches: int, hoursFromLevel: int,
                             error: Option<string>)

  datatype PlaytimeResponse =
    | PlaytimeBadRequest(error: string)
    | PlaytimeOk(totalGames: int, totalHours: int, accounts: seq<PlayRow>)

  function ErrorRow(full: string, region: string, message: string): PlayRow
  {
    PlayRow(full, region, 0, 0, Error, 0, 0, 0, Some(message))
  }

  /** `summoner && summoner.summonerLevel ? summoner.summonerLevel : 0`. */
  function LevelOf(summoner: Option<nat>): nat
  {
    if summoner.Some? then summoner.value else 0
  }

  /** The row of backend/server.js: level and matches are fetched separately. */
  function BackendRow(up: Upstream, acc: AccountRef): (row: PlayRow)
    ensures row.error.Some? ==> row.source == Error && row.totalGames == 0 && row.estimatedHours == 0
    ensures row.error.None? ==> row.estimatedHours == Max(row.hoursFromMatches, row.hoursFromLevel)
  {
    var full, region := FullName(acc), RegionOf(acc);
    match SplitRiotId(full)
    case None => ErrorRow(full, region, MalformedName)
    case Some(parts) =>
      match up.account(parts.0, parts.1)
      case Err(m) => ErrorRow(full, region, m)
      case Ok(a) =>
        var summoner := up.summonerLevel(a.puuid, region);
        var level := if summoner.Ok? then LevelOf(summoner.value) else 0;
        var games := Paginate(up.matchPages(a.puuid, region), 0).total;
        var e := EstimateBackend(games, level, false, summoner.Err?);
        PlayRow(a.gameName + "#" + a.tagLine, region, games, e.hours, e.source, level,
                  e.hoursFromMatches, e.hoursFromLevel, None)
  }

  /** The row of server.js: a failed summoner lookup fails the whole account. */
  function LegacyRow(up: Upstream, acc: AccountRef): (row: PlayRow)
    ensures row.error.Some? ==> row.source == Error && row.totalGames == 0 && row.estimatedHours == 0
    ensures row.error.None? ==> row.estimatedHours == Max(row.hoursFromMatches, row.hoursFromLevel)
  {
    var full, region := FullName(acc), RegionOf(acc);
    match SplitRiotId(full)
    case None => ErrorRow(full, region, MalformedName)
    case Some(parts) =>
      match up.account(parts.0, parts.1)
      case Err(m) => ErrorRow(full, region, m)
      case Ok(a) =>
        match up.summonerLevel(a.puuid, region)
        case Err(m) => ErrorRow(full, region, m)
        case Ok(summoner) =>
          var level := LevelOf(summoner);
          var games := Paginate(up.matchPages(a.puuid, region), 0).total;
          var e := EstimateLegacy(games, level);
          PlayRow(a.gameName + "#" + a.tagLine, region, games, e.hours, e.source, level,
                  e.hoursFromMatches, e.hoursFromLevel, None)
  }

  function BackendRows(up: Upstream, accs: seq<AccountRef>): seq<PlayRow>
  {
    seq(|accs|, i requires 0 <= i < |accs| => BackendRow(up, accs[i]))
  }

  function LegacyRows(up: Upstream, accs: seq<AccountRef>): seq<PlayRow>
  {
    seq(|accs|, i requires 0 <= i < |accs| => LegacyRow(up, accs[i]))
  }

  /** One more account: its row is appended and its figures added to the totals. */
  lemma BackendLoopStep(up: Upstream, accs: seq<AccountRef>, i: nat, rows: seq<PlayRow>, row: PlayRow)
    requires i < |accs| && rows == BackendRows(up, accs[..i]) && row == BackendRow(up, accs[i])
    ensures BackendRows(up, accs[..i + 1]) == rows + [row]
    ensures SumGames(rows + [row]) == SumGames(rows) + row.totalGames
    ensures SumHours(rows + [row]) == SumHours(rows) + row.estimatedHours
  {
    var next := BackendRows(up, accs[..i + 1]);
    forall k | 0 <= k < i + 1 ensures next[k] == (rows + [row])[k] {
      assert accs[..i + 1][k] == accs[k];
    }
    TotalsAddRows(rows, row);
  }

  /** One more account: its row is appended and its figures added to the totals. */
  lemma LegacyLoopStep(up: Upstream, accs: seq<AccountRef>, i: nat, rows: seq<PlayRow>, row: PlayRow)
    requires i < |accs| && rows == LegacyRows(up, accs[..i]) && row == LegacyRow(up, accs[i])
    ensures LegacyRows(up, accs[..i + 1]) == rows + [row]
    ensures SumGames(rows + [row]) == SumGames(rows) + row.totalGames
    ensures SumHours(rows + [row]) == SumHours(rows) + row.estimatedHours
  {
    var next := LegacyRows(up, accs[..i + 1]);
    forall k | 0 <= k < i + 1 ensures next[k] == (rows + [row])[k] {
      assert accs[..i + 1][k] == accs[k];
    }
    TotalsAddRows(rows, row);
  }

  function SumGames(rows: seq<PlayRow>): int
  {
    if rows == [] then 0 else SumGames(rows[..|rows| - 1]) + rows[|rows| - 1].totalGames
  }

  function SumHours(rows: seq<PlayRow>): int
  {
    if rows == [] then 0 else SumHours(rows[..|rows| - 1]) + rows[|rows| - 1].estimatedHours
  }

  function PlaytimeOf(rows: seq<PlayRow>): PlaytimeResponse
  {
    PlaytimeOk(SumGames(rows), SumHours(rows), rows)
  }

  /** One iteration of the backend loop: the match count comes from the pagination loop. */
  method BackendRowFor(up: Upstream, acc: AccountRef) returns (row: PlayRow)
    ensures row == BackendRow(up, acc)
  {
    var full := Trim(acc.name);
    var region := RegionOf(acc);
    var split := SplitRiotId(full);
    if split.None? {
      return ErrorRow(full, region, MalformedName);
    }
    var account := up.account(split.value.0, split.value.1);
    if account.Err? {
      return ErrorRow(full, region, account.error);
    }
    var a := account.value;
    var level := 0;
    var hadLevelError := false;
    var summoner := up.summonerLevel(a.puuid, region);
    if summoner.Ok? {
      level := LevelOf(summoner.value);
    } else {
      hadLevelError := true;
    }
    var games, _ := CountMatches(up.matchPages(a.puuid, region));
    var e := EstimateBackend(games, level, false, hadLevelError);
    row := PlayRow(a.gameName + "#" + a.tagLine, region, games, e.hours, e.source, level,
                  e.hoursFromMatches, e.hoursFromLevel, None);
  }

  /** One iteration of the server.js loop. */
  method LegacyRowFor(up: Upstream, acc: AccountRef) returns (row: PlayRow)
    ensures row == LegacyRow(up, acc)
  {
    var full := Trim(acc.name);
    var region := RegionOf(acc);
    var split := SplitRiotId(full);
    if split.None? {
      return ErrorRow(full, region, MalformedName);
    }
    var account := up.account(split.value.0, split.value.1);
    if account.Err? {
      return ErrorRow(full, region, account.error);
    }
    var a := account.value;
    var games, _ := CountMatches(up.matchPages(a.puuid, region));
    var summoner := up.summonerLevel(a.puuid, region);
    if summoner.Err? {
      return ErrorRow(full, region, summoner.error);
    }
    var level := LevelOf(summoner.value);
    var e := EstimateLegacy(games, level);
    row := PlayRow(a.gameName + "#" + a.tagLine, region, games, e.hours, e.source, level,
                  e.hoursFromMatches, e.hoursFromLevel, None);
  }

  /** `/api/playtime/profile` of backend/server.js: rows in input order and running totals. */
  method PlaytimeBackend(up: Upstream, accounts: Option<seq<AccountRef>>) returns (resp: PlaytimeResponse)
    ensures accounts.None? || accounts.value == [] ==> resp == PlaytimeBadRequest(AccountsMissing)
    ensures accounts.Some? && accounts.value != [] ==> resp == PlaytimeOf(BackendRows(up, accounts.value))
  {
    if accounts.None? || |accounts.value| == 0 {
      return PlaytimeBadRequest(AccountsMissing);
    }
    var accs := accounts.value;
    var rows: seq<PlayRow> := [];
    var totalGames, totalHours := 0, 0;
    var i := 0;
    while i < |accs|
      invariant 0 <= i <= |accs|
      invariant rows == BackendRows(up, accs[..i])
      invariant totalGames == SumGames(rows) && totalHours == SumHours(rows)
    {
      var row := BackendRowFor(up, accs[i]);
      BackendLoopStep(up, accs, i, rows, row);
      rows := rows + [row];
      totalGames := totalGames + row.totalGames;
      totalHours := totalHours + row.estimatedHours;
      i := i + 1;
    }
    assert accs[..i] == accs;
    resp := PlaytimeOk(totalGames, totalHours, rows);
  }

  /** `/api/playtime/profile` of server.js. */
  method PlaytimeLegacy(up: Upstream, accounts: Option<seq<AccountRef>>) returns (resp: PlaytimeResponse)
    ensures accounts.None? || accounts.value == [] ==> resp == PlaytimeBadRequest(AccountsMissing)
    ensures accounts.Some? && accounts.value != [] ==> resp == PlaytimeOf(LegacyRows(up, accounts.value))
  {
    if accounts.None? || |accounts.value| == 0 {
      return PlaytimeBadRequest(AccountsMissing);
    }
    var accs := accounts.value;
    var rows: seq<PlayRow> := [];
    var totalGames, totalHours := 0, 0;
    var i := 0;
    while i < |accs|
      invariant 0 <= i <= |accs|
      invariant rows == LegacyRows(up, accs[..i])
      invariant totalGames == SumGames(rows) && totalHours == SumHours(rows)
    {
      var row := LegacyRowFor(up, accs[i]);
      LegacyLoopStep(up, accs, i, rows, row);
      rows := rows + [row];
      totalGames := totalGames + row.totalGames;
      totalHours := totalHours + row.estimatedHours;
      i := i + 1;
    }
    assert accs[..i] == accs;
    resp := PlaytimeOk(totalGames, totalHours, rows);
  }

  /**
   * A row labelled "error" carries no games and no hours, so it adds nothing
   * to the totals; malformed names always give such a row.
   */
  lemma ErrorRowsAddNothing(up: Upstream, acc: AccountRef)
    ensures BackendRow(up, acc).source == Error ==>
      BackendRow(up, acc).totalGames == 0 && BackendRow(up, acc).estimatedHours == 0
    ensures BackendRow(up, acc).error.Some? ==>
      BackendRow(up, acc).source == Error && BackendRow(up, acc).totalGames == 0 && BackendRow(up, acc).estimatedHours == 0
    ensures LegacyRow(up, acc).source == Error <==> LegacyRow(up, acc).error.Some?
    ensures LegacyRow(up, acc).source == Error ==>
      LegacyRow(up, acc).totalGames == 0 && LegacyRow(up, acc).estimatedHours == 0
    ensures '#' !in FullName(acc) ==>
      BackendRow(up, acc) == LegacyRow(up, acc) == ErrorRow(FullName(acc), RegionOf(acc), MalformedName)
  {
    BackendErrorRowEmpty(up, acc);
    LegacyErrorRowEmpty(up, acc);
  }

  lemma BackendErrorRowEmpty(up: Upstream, acc: AccountRef)
    ensures BackendRow(up, acc).source == Error ==>
      BackendRow(up, acc).totalGames == 0 && BackendRow(up, acc).estimatedHours == 0
  {
    var split := SplitRiotId(FullName(acc));
    if split.Some? && up.account(split.value.0, split.value.1).Ok? {
      var a := up.account(split.value.0, split.value.1).value;
      var summoner := up.summonerLevel(a.puuid, RegionOf(acc));
      var level := if summoner.Ok? then LevelOf(summoner.value) else 0;
      var games := Paginate(up.matchPages(a.puuid, RegionOf(acc)), 0).total;
      BackendErrorIsEmpty(games, level, false, summoner.Err?);
    }
  }

  lemma LegacyErrorRowEmpty(up: Upstream, acc: AccountRef)
    ensures LegacyRow(up, acc).source == Error <==> LegacyRow(up, acc).error.Some?
    ensures LegacyRow(up, acc).source == Error ==>
      LegacyRow(up, acc).totalGames == 0 && LegacyRow(up, acc).estimatedHours == 0
  {
    var split := SplitRiotId(FullName(acc));
    if split.Some? && up.account(split.value.0, split.value.1).Ok? {
      var a := up.account(split.value.0, split.value.1).value;
      var summoner := up.summonerLevel(a.puuid, RegionOf(acc));
      if summoner.Ok? {
        var games := Paginate(up.matchPages(a.puuid, RegionOf(acc)), 0).total;
        LegacySources(games, LevelOf(summoner.value));
      }
    }
  }

  /**
   * A failed level lookup: the backend still counts the account's matches,
   * server.js reports the account as failed.
   */
  lemma LevelFailureHandling(up: Upstream, acc: AccountRef, a: RiotAccount, message: string)
    requires SplitRiotId(FullName(acc)).Some?
    requires up.account(SplitRiotId(FullName(acc)).value.0, SplitRiotId(FullName(acc)).value.1) == Ok(a)
    requires up.summonerLevel(a.puuid, RegionOf(acc)) == Err(message)
    ensures LegacyRow(up, acc) == ErrorRow(FullName(acc), RegionOf(acc), message)
    ensures BackendRow(up, acc).error == None
    ensures BackendRow(up, acc).totalGames == Paginate(up.matchPages(a.puuid, RegionOf(acc)), 0).total
    ensures BackendRow(up, acc).level == 0
    ensures BackendRow(up, acc).source == (if BackendRow(up, acc).totalGames == 0 then Error else Matches)
  {
    var games := Paginate(up.matchPages(a.puuid, RegionOf(acc)), 0).total;
    BackendSources(games, 0, false, true);
  }

  /**
   * A counted account reports half an hour per match and 7.5 hours per level,
   * rounded, and its hours are the larger of the two figures.
   */
  lemma RowHours(up: Upstream, acc: AccountRef)
    ensures var row := BackendRow(up, acc); row.error.None? ==>
      && row.hoursFromMatches == (row.totalGames + 1) / 2
      && row.hoursFromLevel == (15 * row.level + 1) / 2
      && row.estimatedHours == Max(row.hoursFromMatches, row.hoursFromLevel)
    ensures var row := LegacyRow(up, acc); row.error.None? ==>
      && row.hoursFromMatches == (row.totalGames + 1) / 2
      && row.hoursFromLevel == (15 * row.level + 1) / 2
      && row.estimatedHours == Max(row.hoursFromMatches, row.hoursFromLevel)
  {
    var split := SplitRiotId(FullName(acc));
    if split.Some? && up.account(split.value.0, split.value.1).Ok? {
      var a := up.account(split.value.0, split.value.1).value;
      var summoner := up.summonerLevel(a.puuid, RegionOf(acc));
      var level := if summoner.Ok? then LevelOf(summoner.value) else 0;
      var games := Paginate(up.matchPages(a.puuid, RegionOf(acc)), 0).total;
      BackendHoursAreMax(games, level, false, summoner.Err?);
      LegacySources(games, level);
    }
  }

  /** The rows without an error. */
  function CountedRows(rows: seq<PlayRow>): seq<PlayRow>
  {
    if rows == [] then []
    else CountedRows(rows[..|rows| - 1]) + (if rows[|rows| - 1].error.None? then [rows[|rows| - 1]] else [])
  }

  /** When error rows carry nothing, the totals are the sums over the counted rows. */
  lemma {:induction false} TotalsOverCountedRows(rows: seq<PlayRow>)
    requires forall i :: 0 <= i < |rows| && rows[i].error.Some? ==> rows[i].totalGames == 0 && rows[i].estimatedHours == 0
    ensures SumGames(rows) == SumGames(CountedRows(rows))
    ensures SumHours(rows) == SumHours(CountedRows(rows))
  {
    if rows != [] {
      var init, last := rows[..|rows| - 1], rows[|rows| - 1];
      TotalsOverCountedRows(init);
      assert rows == init + [last];
      assert CountedRows(rows) == CountedRows(init) + (if last.error.None? then [last] else []);
      if last.error.None? {
        TotalsAddRows(CountedRows(init), last);
      } else {
        assert CountedRows(init) + [] == CountedRows(init);
      }
    }
  }

  /**
   * The totals of both playtime routes are the sums over the accounts that
   * did not fail: a failed account adds no games and no hours.
   */
  lemma PlaytimeTotalsSkipFailures(up: Upstream, accs: seq<AccountRef>)
    ensures var b := PlaytimeOf(BackendRows(up, accs));
      b.totalGames == SumGames(CountedRows(b.accounts)) && b.totalHours == SumHours(CountedRows(b.accounts))
    ensures var l := PlaytimeOf(LegacyRows(up, accs));
      l.totalGames == SumGames(CountedRows(l.accounts)) && l.totalHours == SumHours(CountedRows(l.accounts))
  {
    var b, l := BackendRows(up, accs), LegacyRows(up, accs);
    forall i | 0 <= i < |accs|
      ensures b[i].error.Some? ==> b[i].totalGames == 0 && b[i].estimatedHours == 0
      ensures l[i].error.Some? ==> l[i].totalGames == 0 && l[i].estimatedHours == 0
    {
      ErrorRowsAddNothing(up, accs[i]);
    }
    TotalsOverCountedRows(b);
    TotalsOverCountedRows(l);
  }

  /** The totals add up the rows. */
  lemma {:induction false} TotalsAddRows(rows: seq<PlayRow>, extra: PlayRow)
    ensures SumGames(rows + [extra]) == SumGames(rows) + extra.totalGames
    ensures SumHours(rows + [extra]) == SumHours(rows) + extra.estimatedHours
  {
    assert (rows + [extra])[..|rows|] == rows;
  }
}
