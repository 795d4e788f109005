/**
 * The profile and account handling of frontend/public/script.js: named
 * profiles of saved accounts kept in `localStorage`, the current selection,
 * and the list edits behind the page's buttons. The list is kept ordered by
 * region and name after every addition.
 */
module FrontendScript {
  import opened Base
  import opened Sorting
  import opened Client

  /** `{ ...DEFAULT_PROFILES }`. */
  const Defaults: seq<Profile> := [Profile(DefaultProfile, DefaultAccounts)]

  // ---------------------------------------------------------------------
  // sortAccountsByRegionAndName
  // ---------------------------------------------------------------------

  const RegionOrder: seq<string> := ["euw1", "eun1", "na1", "kr", "jp1"]
  const FallbackRank: nat := 999

  /** `xs.indexOf(x)`, with `|xs|` for -1. */
  function IndexIn(xs: seq<string>, x: string): (n: nat)
    ensures n <= |xs| && (n < |xs| ==> xs[n] == x)
    ensures forall k :: 0 <= k < n ==> xs[k] != x
  {
    if xs == [] || xs[0] == x then 0 else 1 + IndexIn(xs[1..], x)
  }

  /** The position of a region in `regionOrder`, or 999 for any other region. */
  function RegionRank(region: string): (n: nat)
    ensures region in RegionOrder ==> n < |RegionOrder| && RegionOrder[n] == region
    ensures region !in RegionOrder ==> n == FallbackRank
  {
    var i := IndexIn(RegionOrder, region);
    assert region in RegionOrder ==> i < |RegionOrder| by {
      if region in RegionOrder {
        var k :| 0 <= k < |RegionOrder| && RegionOrder[k] == region;
      }
    }
    assert i < |RegionOrder| ==> RegionOrder[i] in RegionOrder;
    if i < |RegionOrder| then i else FallbackRank
  }

  /**
   * The comparator as an ordering: `a` may precede `b` when its region ranks
   * lower, or ranks the same and `nameLe` (the `de-CH` collation of
   * `localeCompare`) lets its name precede.
   */
  function ByRegionThenName(nameLe: (string, string) -> bool): (Account, Account) -> bool
  {
    (a: Account, b: Account) =>
      RegionRank(a.region) < RegionRank(b.region) ||
      (RegionRank(a.region) == RegionRank(b.region) && nameLe(a.name, b.name))
  }

  lemma ByRegionThenNameIsTotal(nameLe: (string, string) -> bool)
    requires TotalPreorder(nameLe)
    ensures TotalPreorder(ByRegionThenName(nameLe))
  {
    var le := ByRegionThenName(nameLe);
    forall a: Account, b: Account ensures le(a, b) || le(b, a) {
      if RegionRank(a.region) == RegionRank(b.region) {
        assert nameLe(a.name, b.name) || nameLe(b.name, a.name);
      }
    }
    forall a: Account, b: Account, c: Account | le(a, b) && le(b, c) ensures le(a, c) {
      if RegionRank(a.region) == RegionRank(b.region) == RegionRank(c.region) {
        assert nameLe(a.name, b.name) && nameLe(b.name, c.name);
      }
    }
  }

  /** `sortAccountsByRegionAndName`: a sorted copy. */
  function SortAccounts(list: seq<Account>, nameLe: (string, string) -> bool): (sorted: seq<Account>)
    ensures multiset(sorted) == multiset(list)
  {
    Sort(list, ByRegionThenName(nameLe))
  }

  /** The sorted list holds the same accounts, ordered by region rank and then by name. */
  lemma SortAccountsSpec(list: seq<Account>, nameLe: (string, string) -> bool)
    requires TotalPreorder(nameLe)
    ensures multiset(SortAccounts(list, nameLe)) == multiset(list)
    ensures forall i, j :: 0 <= i < j < |list| ==>
      RegionRank(SortAccounts(list, nameLe)[i].region) <= RegionRank(SortAccounts(list, nameLe)[j].region)
    ensures forall i, j ::
      (0 <= i < j < |list| && SortAccounts(list, nameLe)[i].region == SortAccounts(list, nameLe)[j].region) ==>
      nameLe(SortAccounts(list, nameLe)[i].name, SortAccounts(list, nameLe)[j].name)
  {
    ByRegionThenNameIsTotal(nameLe);
    SortSorted(list, ByRegionThenName(nameLe));
  }

  // ---------------------------------------------------------------------
  // Loading: ensureDefaultProfilesLoaded and the selection
  // ---------------------------------------------------------------------

  /** `ensureDefaultProfilesLoaded`: without a non-empty "Profil 1" every profile is replaced by the defaults. */
  function EnsureDefaults(ps: seq<Profile>): (r: seq<Profile>)
    ensures r == ps || r == Defaults
  {
    var first := AccountsOf(ps, DefaultProfile);
    if ps == [] || first.None? || first.value == [] then Defaults else ps
  }

  /** Profiles with a non-empty "Profil 1" are kept as they are; afterwards "Profil 1" always has accounts. */
  lemma EnsureDefaultsSpec(ps: seq<Profile>)
    ensures var first := AccountsOf(ps, DefaultProfile);
      first.Some? && first.value != [] ==> EnsureDefaults(ps) == ps
    ensures var first := AccountsOf(EnsureDefaults(ps), DefaultProfile);
      first.Some? && first.value != []
  {
    assert AccountsOf(Defaults, DefaultProfile) == Some(DefaultAccounts);
  }

  /** The profiles read at start-up: the stored ones, unless there are none. */
  function Initial(stored: Option<seq<Profile>>): seq<Profile>
  {
    if stored.None? || stored.value == [] then Defaults else stored.value
  }

  /** The saved profile if it is given and exists, else "Profil 1" if it exists, else the first profile or none. */
  function Selection(ps: seq<Profile>, saved: Option<string>): (current: Option<string>)
    ensures current.Some? ==> current.value in Names(ps)
  {
    if saved.Some? && saved.value != "" && AccountsOf(ps, saved.value).Some? then saved
    else if AccountsOf(ps, DefaultProfile).Some? then Some(DefaultProfile)
    else if ps != [] then Some(ps[0].name)
    else None
  }

  /** After loading, the saved selection wins when it names a profile; otherwise "Profil 1" is selected. */
  lemma LoadedSelection(stored: Option<seq<Profile>>, saved: Option<string>)
    ensures var ps := EnsureDefaults(Initial(stored));
      && (saved.Some? && saved.value != "" && saved.value in Names(ps) ==> Selection(ps, saved) == saved)
      && (!(saved.Some? && saved.value != "" && saved.value in Names(ps)) ==> Selection(ps, saved) == Some(DefaultProfile))
  {
    EnsureDefaultsSpec(Initial(stored));
  }

  // ---------------------------------------------------------------------
  // The page state
  // ---------------------------------------------------------------------

  /** What `addAccount` did. */
  datatype AddOutcome = NoProfile | BlankName | AlreadyListed | Added

  /** The profiles in memory, the selection, and the two `localStorage` entries. */
  class Page {
    var profiles: seq<Profile>
    var current: Option<string>
    var storedProfiles: Option<seq<Profile>>
    var storedSelection: Option<string>

    predicate Valid()
      reads this
    {
      DistinctNames(profiles) && (storedProfiles.Some? ==> DistinctNames(storedProfiles.value))
    }

    /** The page before `loadProfiles`, with what storage held (`None` when nothing usable was stored). */
    constructor (stored: Option<seq<Profile>>, saved: Option<string>)
      requires stored.Some? ==> DistinctNames(stored.value)
      ensures Valid()
      ensures profiles == [] && current == None && storedProfiles == stored && storedSelection == saved
    {
      profiles := [];
      current := None;
      storedProfiles := stored;
      storedSelection := saved;
    }

    /** `saveProfiles`: the selection is stored only when there is one. */
    method Save()
      requires Valid()
      modifies this
      ensures Valid()
      ensures profiles == old(profiles) && current == old(current) && storedProfiles == Some(profiles)
      ensures storedSelection == if current.Some? && current.value != "" then current else old(storedSelection)
    {
      storedProfiles := Some(profiles);
      if current.Some? && current.value != "" {
        storedSelection := current;
      }
    }

    /** `loadProfiles`. */
    method LoadProfiles()
      requires Valid()
      modifies this
      ensures Valid()
      ensures profiles == EnsureDefaults(Initial(old(storedProfiles)))
      ensures current == Selection(profiles, old(storedSelection))
      ensures storedProfiles == Some(profiles)
      ensures storedSelection == if current.Some? && current.value != "" then current else old(storedSelection)
    {
      profiles := EnsureDefaults(Initial(storedProfiles));
      current := Selection(profiles, storedSelection);
      Save();
    }

    method SwitchProfile(name: string)
      requires Valid()
      modifies this
      ensures Valid()
      ensures profiles == old(profiles) && current == Some(name) && storedProfiles == Some(profiles)
      ensures storedSelection == if name != "" then Some(name) else old(storedSelection)
    {
      current := Some(name);
      Save();
    }

    /**
     * `createProfile`: a blank or taken name (an inherited key counts as taken)
     * changes nothing; otherwise a new empty profile is added and selected.
     */
    method CreateProfile(input: string) returns (created: bool)
      requires Valid()
      modifies this
      ensures Valid()
      ensures created <==> Trim(input) != [] && !Taken(old(profiles), Trim(input))
      ensures !created ==> (profiles == old(profiles) && current == old(current) &&
        storedProfiles == old(storedProfiles) && storedSelection == old(storedSelection))
      ensures created ==> (profiles == old(profiles) + [Profile(Trim(input), [])] && current == Some(Trim(input)) &&
        storedProfiles == Some(profiles) && storedSelection == current)
    {
      var name := Trim(input);
      if name == [] || AccountsOf(profiles, name).Some? || name in InheritedKeys {
        return false;
      }
      AssignPlaces(profiles, name, []);
      AssignDistinct(profiles, name, []);
      profiles := Assign(profiles, name, []);
      current := Some(name);
      Save();
      created := true;
    }

    /**
     * `addAccount`: refused without a selection, for a blank name, and for an
     * account already in the list; otherwise the list gains the account and is
     * sorted by region and name.
     */
    method AddAccount(input: string, region: string, nameLe: (string, string) -> bool) returns (outcome: AddOutcome)
      requires Valid()
      modifies this
      ensures Valid()
      ensures var list := CurrentAccounts(old(profiles), old(current)); var name := Trim(input);
        outcome == (if old(current).None? || old(current).value == "" then NoProfile
                    else if name == [] then BlankName
                    else if Listed(list, name, region) then AlreadyListed
                    else Added)
      ensures outcome != Added ==> (profiles == old(profiles) && current == old(current) &&
        storedProfiles == old(storedProfiles) && storedSelection == old(storedSelection))
      ensures outcome == Added ==> (old(current).Some? && current == old(current) &&
        profiles == Assign(old(profiles), current.value,
          SortAccounts(CurrentAccounts(old(profiles), current) + [Account(Trim(input), region)], nameLe)) &&
        storedProfiles == Some(profiles) && storedSelection == current)
    {
      if current.None? || current.value == "" {
        return NoProfile;
      }
      var name := Trim(input);
      if name == [] {
        return BlankName;
      }
      var existing := CurrentAccounts(profiles, current);
      if Listed(existing, name, region) {
        return AlreadyListed;
      }
      var updated := SortAccounts(existing + [Account(name, region)], nameLe);
      AssignDistinct(profiles, current.value, updated);
      profiles := Assign(profiles, current.value, updated);
      Save();
      outcome := Added;
    }

    /** The delete button of row `index`. */
    method DeleteAccount(index: nat)
      requires Valid()
      modifies this
      ensures Valid()
      ensures profiles == Assign(old(profiles), KeyOf(current), RemoveAt(CurrentAccounts(old(profiles), current), index))
      ensures current == old(current) && storedProfiles == Some(profiles)
      ensures storedSelection == if current.Some? && current.value != "" then current else old(storedSelection)
    {
      var updated := RemoveAt(CurrentAccounts(profiles, current), index);
      AssignDistinct(profiles, KeyOf(current), updated);
      profiles := Assign(profiles, KeyOf(current), updated);
      Save();
    }

    /** `handleLoadDefaultAccounts`: "Profil 1" gets a copy of the default list and is selected. */
    method LoadDefaultAccounts()
      requires Valid()
      modifies this
      ensures Valid()
      ensures profiles == Assign(old(profiles), DefaultProfile, DefaultAccounts)
      ensures current == Some(DefaultProfile) && storedProfiles == Some(profiles) && storedSelection == current
    {
      AssignDistinct(profiles, DefaultProfile, DefaultAccounts);
      profiles := Assign(profiles, DefaultProfile, DefaultAccounts);
      current := Some(DefaultProfile);
      Save();
    }
  }

  /** An accepted account grows the list by exactly that account, and the list comes out ordered. */
  lemma AddedListSpec(existing: seq<Account>, acc: Account, nameLe: (string, string) -> bool)
    requires TotalPreorder(nameLe)
    ensures var r := SortAccounts(existing + [acc], nameLe);
      && |r| == |existing| + 1
      && multiset(r) == multiset(existing) + multiset{acc}
      && forall i, j :: 0 <= i < j < |r| ==> RegionRank(r[i].region) <= RegionRank(r[j].region)
  {
    SortAccountsSpec(existing + [acc], nameLe);
  }

  /** Deleting a row takes out exactly that account and keeps the others in order. */
  lemma DeleteSpec(list: seq<Account>, index: nat)
    requires index < |list|
    ensures RemoveAt(list, index) == list[..index] + list[index + 1..]
    ensures multiset(RemoveAt(list, index)) + multiset{list[index]} == multiset(list)
  {
    assert list == list[..index] + [list[index]] + list[index + 1..];
  }

  // ---------------------------------------------------------------------
  // The playtime reply as the page shows it
  // ---------------------------------------------------------------------

  /** `obj[key] = v`: the first member named `key` replaced, or a new member at the end. */
  function SetMember(members: seq<(string, Json)>, key: string, v: Json): (r: seq<(string, Json)>)
  {
    if members == [] then [(key, v)]
    else if members[0].0 == key then [(key, v)] + members[1..]
    else [members[0]] + SetMember(members[1..], key, v)
  }

  lemma {:induction false} SetMemberLookup(members: seq<(string, Json)>, key: string, v: Json, other: string)
    ensures Lookup(SetMember(members, key, v), key) == Some(v)
    ensures other != key ==> Lookup(SetMember(members, key, v), other) == Lookup(members, other)
  {
    if members != [] && members[0].0 != key {
      SetMemberLookup(members[1..], key, v, other);
    }
  }

  /** The fetch handler's step: an older reply's `totalMatches` is copied to `totalGames`. */
  function WithTotalGames(data: Json): (r: Json)
    requires data != JNull
    ensures r.JObj? <==> data.JObj?
    ensures Nullish(Field(Some(data), "totalGames")) && !Nullish(Field(Some(data), "totalMatches")) ==>
      Field(Some(r), "totalGames") == Field(Some(data), "totalMatches")
    ensures !(Nullish(Field(Some(data), "totalGames")) && !Nullish(Field(Some(data), "totalMatches"))) ==> r == data
    ensures forall k :: k != "totalGames" ==> Field(Some(r), k) == Field(Some(data), k)
  {
    if Nullish(Field(Some(data), "totalGames")) && !Nullish(Field(Some(data), "totalMatches")) then
      var r := JObj(SetMember(data.members, "totalGames", Field(Some(data), "totalMatches").value));
      assert forall k :: Field(Some(r), k) == Lookup(r.members, k);
      SetMemberLookup(data.members, "totalGames", Field(Some(data), "totalMatches").value, "totalGames");
      assert forall k :: k != "totalGames" ==> Field(Some(r), k) == Field(Some(data), k) by {
        forall k | k != "totalGames" ensures Field(Some(r), k) == Field(Some(data), k) {
          SetMemberLookup(data.members, "totalGames", Field(Some(data), "totalMatches").value, k);
        }
      }
      r
    else data
  }

  /** What the playtime panel shows for a reply body. */
  datatype PlaytimeView =
    | ReplyFailed      // a `null` body: reading `totalMatches` of it throws
    | NoData           // "Keine Daten."
    | PlaytimeTotals(hours: Json, games: Json)

  /** `x != null ? x : fallback`. */
  function OrElse(x: Option<Json>, fallback: Json): (r: Json)
    ensures !Nullish(x) ==> Some(r) == x
    ensures Nullish(x) ==> r == fallback
  {
    if Nullish(x) then fallback else x.value
  }

  predicate HasAccounts(data: Json)
  {
    var accs := Field(Some(data), "accounts");
    accs.Some? && accs.value.JArr? && accs.value.items != []
  }

  /** `renderPlaytimeResult`'s summary line: hours or 0, then games, else matches, else 0. */
  function Render(data: Json): (v: PlaytimeView)
    ensures v.NoData? <==> !Truthy(Some(data)) || !HasAccounts(data)
    ensures v.PlaytimeTotals? ==> v.hours == OrElse(Field(Some(data), "totalHours"), JNum(0.0))
    ensures v.PlaytimeTotals? ==> v.games == OrElse(Field(Some(data), "totalGames"), OrElse(Field(Some(data), "totalMatches"), JNum(0.0)))
  {
    if !Truthy(Some(data)) || !HasAccounts(data) then NoData
    else PlaytimeTotals(OrElse(Field(Some(data), "totalHours"), JNum(0.0)),
                        OrElse(Field(Some(data), "totalGames"), OrElse(Field(Some(data), "totalMatches"), JNum(0.0))))
  }

  /** The reply handler: copy the older field, then render. */
  function ShowPlaytime(data: Json): PlaytimeView
  {
    if data == JNull then ReplyFailed else Render(WithTotalGames(data))
  }

  /**
   * The copy in the handler changes nothing on screen: the summary already
   * falls back from `totalGames` to `totalMatches`.
   */
  lemma CopyIsRedundant(data: Json)
    requires data != JNull
    ensures ShowPlaytime(data) == Render(data)
  {
    var r := WithTotalGames(data);
    assert Truthy(Some(r)) == Truthy(Some(data)) by {
      if !(Nullish(Field(Some(data), "totalGames")) && !Nullish(Field(Some(data), "totalMatches"))) {
        assert r == data;
      }
    }
    assert Field(Some(r), "accounts") == Field(Some(data), "accounts");
    assert Field(Some(r), "totalHours") == Field(Some(data), "totalHours");
    assert Field(Some(r), "totalMatches") == Field(Some(data), "totalMatches");
  }

  /** A row's games and hours: the current field, else the older one if truthy, else 0. */
  function RowFigures(a: Json): (r: (Json, Json))
    ensures !Nullish(Field(Some(a), "totalGames")) ==> Some(r.0) == Field(Some(a), "totalGames")
    ensures Nullish(Field(Some(a), "totalGames")) ==>
      r.0 == if Truthy(Field(Some(a), "matches")) then Field(Some(a), "matches").value else JNum(0.0)
    ensures !Nullish(Field(Some(a), "estimatedHours")) ==> Some(r.1) == Field(Some(a), "estimatedHours")
    ensures Nullish(Field(Some(a), "estimatedHours")) ==>
      r.1 == if Truthy(Field(Some(a), "hours")) then Field(Some(a), "hours").value else JNum(0.0)
  {
    (OrElse(Field(Some(a), "totalGames"), if Truthy(Field(Some(a), "matches")) then Field(Some(a), "matches").value else JNum(0.0)),
     OrElse(Field(Some(a), "estimatedHours"), if Truthy(Field(Some(a), "hours")) then Field(Some(a), "hours").value else JNum(0.0)))
  }
}
