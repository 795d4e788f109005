/**
 * The older proxy of backend/server_old.js: `GET /api/account?name=&region=`
 * looks a summoner up by name, fetches its champion masteries and returns
 * them in the account-file shape, naming champions through a Data Dragon map
 * that is downloaded once and then kept. Upstream replies are parameters.
 */
module LegacyProxy {
  import opened Base

  /** An upstream reply: a parsed body, or a non-ok status with its text. */
  datatype Reply<T> = Good(body: T) | Bad(status: int, text: string)

  datatype Summoner = Summoner(id: string, name: string)
  datatype Mastery = Mastery(championId: int, championPoints: int)
  /** A `json.data` value of Data Dragon's `champion.json`. */
  datatype RawChampion = RawChampion(key: string, id: string)

  datatype ChampionEntry = ChampionEntry(name: string, masteryPoints: int)
  datatype AccountFile = AccountFile(id: string, name: string, lastUpdated: string, champions: seq<ChampionEntry>)

  datatype Response = Reply400(error: string) | Reply500(error: string) | Reply200(account: AccountFile)

  const DefaultRegion: string := "euw1"

  predicate IsRegionChar(c: char)
  {
    'a' <= c <= 'z' || '0' <= c <= '9'
  }

  /** `/^[a-z0-9]+$/.test(region)`. */
  predicate RegionPattern(region: string)
  {
    region != [] && forall i :: 0 <= i < |region| ==> IsRegionChar(region[i])
  }

  /** `(req.query.region || "euw1").toLowerCase()`. */
  function RegionOf(query: Option<string>): string
  {
    Lower(if query.None? || query.value == "" then DefaultRegion else query.value)
  }

  /** The checks before any upstream call: the name, then the region. */
  function Validate(name: Option<string>, region: Option<string>): (r: Result<(string, string), string>)
    ensures r == Err("name required") <==> name.None? || name.value == ""
    ensures r == Err("invalid region") <==> name.Some? && name.value != "" && !RegionPattern(RegionOf(region))
    ensures r.Ok? ==> r.value == (name.value, RegionOf(region)) && RegionPattern(r.value.1)
  {
    if name.None? || name.value == "" then Err("name required")
    else if !RegionPattern(RegionOf(region)) then Err("invalid region")
    else Ok((name.value, RegionOf(region)))
  }

  /** A missing region is "euw1", and the region is case-blind. */
  lemma RegionDefaultAndCase(region: string)
    ensures RegionOf(None) == "euw1" && RegionOf(Some("")) == "euw1"
    ensures RegionOf(Some(region)) == RegionOf(Some(Lower(region)))
  {
    var d := "euw1";
    forall i | 0 <= i < |d| ensures LowerChar(d[i]) == d[i] { }
    LowerIdempotent(d);
    assert Lower(d) == d by {
      assert forall i :: 0 <= i < |d| ==> Lower(d)[i] == LowerChar(d[i]) by {
        forall i | 0 <= i < |d| { LowerAt(d, i); }
      }
    }
    LowerIdempotent(region);
    if region == "" {
      assert Lower(region) == "";
    } else {
      assert |Lower(region)| == |region|;
    }
  }

  /** `summ.name.replace(/\s/g, "")`. */
  function NormalizedId(name: string): (id: string)
    ensures forall i :: 0 <= i < |id| ==> !IsSpace(id[i])
    ensures |id| <= |name|
  {
    Without(name, IsSpace)
  }

  /** A name without white space is its own id, so normalising twice changes nothing. */
  lemma NormalizedIdIdempotent(name: string)
    ensures NormalizedId(NormalizedId(name)) == NormalizedId(name)
    ensures (forall i :: 0 <= i < |name| ==> !IsSpace(name[i])) ==> NormalizedId(name) == name
  {
    WithoutIdentity(NormalizedId(name), IsSpace);
    if forall i :: 0 <= i < |name| ==> !IsSpace(name[i]) {
      WithoutIdentity(name, IsSpace);
    }
  }

  /** The champion map: `Number(ch.key)` to `ch.id`, a later entry replacing an earlier one. */
  function ChampionMap(data: seq<RawChampion>): (m: map<Number, string>)
    ensures forall k :: k in m <==> exists j :: 0 <= j < |data| && NumberOf(data[j].key) == k
  {
    if data == [] then map[]
    else
      var init := data[..|data| - 1];
      var last := data[|data| - 1];
      var m := ChampionMap(init);
      assert forall j :: 0 <= j < |init| ==> init[j] == data[j];
      m[NumberOf(last.key) := last.id]
  }

  /** A key maps to the id of the last entry carrying it. */
  lemma {:induction false} ChampionMapLastWins(data: seq<RawChampion>, j: nat)
    requires j < |data|
    requires forall k :: j < k < |data| ==> NumberOf(data[k].key) != NumberOf(data[j].key)
    ensures ChampionMap(data)[NumberOf(data[j].key)] == data[j].id
  {
    if j < |data| - 1 {
      var init := data[..|data| - 1];
      ChampionMapLastWins(init, j);
    }
  }

  /** The `forEach` filling the `Map`. */
  method BuildChampionMap(data: seq<RawChampion>) returns (m: map<Number, string>)
    ensures m == ChampionMap(data)
  {
    m := map[];
    var i := 0;
    while i < |data|
      invariant 0 <= i <= |data|
      invariant m == ChampionMap(data[..i])
    {
      assert data[..i + 1][..i] == data[..i];
      m := m[NumberOf(data[i].key) := data[i].id];
      i := i + 1;
    }
    assert data[..i] == data;
  }

  /** `champMap.get(m.championId) || String(m.championId)`. */
  function ChampionName(m: map<Number, string>, championId: int): (name: string)
    ensures name != []
    ensures Num(championId as real) in m && m[Num(championId as real)] != "" ==> name == m[Num(championId as real)]
    ensures Num(championId as real) !in m || m[Num(championId as real)] == "" ==> name == Decimal(championId)
  {
    var k := Num(championId as real);
    if k in m && m[k] != "" then m[k] else Decimal(championId)
  }

  /** The `masteryArray.map`: one entry per mastery, in order. */
  function Champions(masteries: seq<Mastery>, m: map<Number, string>): (cs: seq<ChampionEntry>)
    ensures |cs| == |masteries|
    ensures forall i :: 0 <= i < |cs| ==>
      cs[i] == ChampionEntry(ChampionName(m, masteries[i].championId), masteries[i].championPoints)
  {
    seq(|masteries|, i requires 0 <= i < |masteries| => ChampionEntry(ChampionName(m, masteries[i].championId), masteries[i].championPoints))
  }

  /** Every mastery keeps its points, and a champion the map does not name keeps its id as text. */
  lemma ChampionsKeepPoints(masteries: seq<Mastery>, m: map<Number, string>)
    ensures forall i :: 0 <= i < |masteries| ==>
      Champions(masteries, m)[i].masteryPoints == masteries[i].championPoints
    ensures m == map[] ==> forall i :: 0 <= i < |masteries| ==>
      NumberOf(Champions(masteries, m)[i].name) == Num(masteries[i].championId as real)
  {
    if m == map[] {
      forall i | 0 <= i < |masteries| ensures NumberOf(Champions(masteries, m)[i].name) == Num(masteries[i].championId as real) {
        NumberOfDecimal(masteries[i].championId);
      }
    }
  }

  /** The error text of a non-ok upstream reply. */
  function UpstreamError(what: string, status: int, text: string): string
  {
    "Fehler " + what + " " + Decimal(status) + " " + text
  }

  /** The module with its `championIdToNameCache` and the route. */
  class Proxy {
    var cache: Option<map<Number, string>>
    /** How often the Data Dragon files were fetched. */
    var downloads: nat

    constructor ()
      ensures cache == None && downloads == 0
    {
      cache := None;
      downloads := 0;
    }

    /** `loadChampionMap`: the cached map if there is one, else build it from `data` and keep it. */
    method LoadChampionMap(data: seq<RawChampion>) returns (m: map<Number, string>)
      modifies this
      ensures old(cache).Some? ==> m == old(cache).value && cache == old(cache) && downloads == old(downloads)
      ensures old(cache).None? ==> m == ChampionMap(data) && cache == Some(m) && downloads == old(downloads) + 1
    {
      if cache.Some? {
        return cache.value;
      }
      downloads := downloads + 1;
      m := BuildChampionMap(data);
      cache := Some(m);
    }

    /**
     * `GET /api/account`: 400 for a bad query before any upstream call, 500
     * for a non-ok upstream reply, otherwise the account file; the champion
     * map is loaded only once both lookups succeeded.
     */
    method Account(name: Option<string>, region: Option<string>,
                   summoner: Reply<Summoner>, masteries: Reply<seq<Mastery>>,
                   data: seq<RawChampion>, now: string) returns (r: Response)
      modifies this
      ensures Validate(name, region).Err? ==> r == Reply400(Validate(name, region).error)
      ensures Validate(name, region).Ok? && summoner.Bad? ==>
        r == Reply500(UpstreamError("Summoner lookup", summoner.status, summoner.text))
      ensures Validate(name, region).Ok? && summoner.Good? && masteries.Bad? ==>
        r == Reply500(UpstreamError("Champion-Mastery", masteries.status, masteries.text))
      ensures !(Validate(name, region).Ok? && summoner.Good? && masteries.Good?) ==>
        cache == old(cache) && downloads == old(downloads)
      ensures Validate(name, region).Ok? && summoner.Good? && masteries.Good? ==>
        var m := if old(cache).Some? then old(cache).value else ChampionMap(data);
        && cache == Some(m)
        && downloads == old(downloads) + (if old(cache).Some? then 0 else 1)
        && r == Reply200(AccountFile(NormalizedId(summoner.body.name), summoner.body.name, now,
                                     Champions(masteries.body, m)))
    {
      var v := Validate(name, region);
      if v.Err? {
        return Reply400(v.error);
      }
      if summoner.Bad? {
        return Reply500(UpstreamError("Summoner lookup", summoner.status, summoner.text));
      }
      if masteries.Bad? {
        return Reply500(UpstreamError("Champion-Mastery", masteries.status, masteries.text));
      }
      var m := LoadChampionMap(data);
      var s := summoner.body;
      r := Reply200(AccountFile(NormalizedId(s.name), s.name, now, Champions(masteries.body, m)));
    }
  }

  /** Once a request got through, later requests use the same map whatever Data Dragon serves. */
  method CachedAcrossRequests(p: Proxy, s: Summoner, ms: seq<Mastery>, data1: seq<RawChampion>, data2: seq<RawChampion>)
    returns (first: Response, second: Response)
    requires p.cache == None
    modifies p
    ensures first.Reply200? && second.Reply200?
    ensures first.account.champions == Champions(ms, ChampionMap(data1))
    ensures second.account.champions == Champions(ms, ChampionMap(data1))
  {
    first := p.Account(Some("a"), None, Good(s), Good(ms), data1, "t1");
    assert Validate(Some("a"), None).Ok? by { RegionDefaultAndCase(""); assert IsRegionChar('e') && IsRegionChar('1'); }
    second := p.Account(Some("a"), None, Good(s), Good(ms), data2, "t2");
  }
}
