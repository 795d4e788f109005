/**
 * The profile and account handling of public/script.js: the same profiles
 * and storage as the other page script, but accounts are appended unsorted,
 * the region is normalised, and the default accounts are merged into the
 * current profile instead of replacing "Profil 1".
 *
 * After a start without usable stored profiles, "Profil 1" is the very
 * array of the default list (the object spread copies references), so an
 * account added to "Profil 1" is pushed onto the default list as well,
 * until "Profil 1" is given a new array by a merge or a deletion. The page
 * state carries that list and whether it is shared.
 */
module PublicScript {
  import opened Base
  import opened Client

  /** What `localStorage` held under the profiles key. */
  datatype Stored = Absent | Unparsable | Parsed(profiles: seq<Profile>)

  const DefaultRegion: string := "euw1"

  /** `(accountRegionSelect.value || "euw1").toLowerCase()`. */
  function RegionOf(input: string): string
  {
    Lower(if input == "" then DefaultRegion else input)
  }

  /** `a.name.toLowerCase() === def.name.toLowerCase() && a.region.toLowerCase() === def.region.toLowerCase()`. */
  predicate Covers(a: Account, d: Account)
  {
    Lower(a.name) == Lower(d.name) && Lower(a.region) == Lower(d.region)
  }

  predicate Covered(list: seq<Account>, d: Account)
  {
    exists a :: a in list && Covers(a, d)
  }

  /** The merged list: the existing accounts, then each default not yet covered, region lowercased. */
  function Merge(existing: seq<Account>, defaults: seq<Account>): (merged: seq<Account>)
    ensures existing <= merged && |merged| <= |existing| + |defaults|
  {
    if defaults == [] then existing
    else
      var m := Merge(existing, defaults[..|defaults| - 1]);
      var d := defaults[|defaults| - 1];
      if Covered(m, d) then m else m + [Account(d.name, Lower(d.region))]
  }

  /** Every default is covered by the merged list. */
  lemma {:induction false} MergeCovers(existing: seq<Account>, defaults: seq<Account>, d: Account)
    requires d in defaults
    ensures Covered(Merge(existing, defaults), d)
  {
    var init := defaults[..|defaults| - 1];
    var last := defaults[|defaults| - 1];
    var m := Merge(existing, init);
    if d == last {
      if !Covered(m, d) {
        var a := Account(d.name, Lower(d.region));
        LowerIdempotent(d.region);
        assert a in Merge(existing, defaults) && Covers(a, d);
      }
    } else {
      assert defaults == init + [last];
      MergeCovers(existing, init, d);
      var a :| a in m && Covers(a, d);
      assert a in Merge(existing, defaults);
    }
  }

  /** A list that already covers every default is left as it is. */
  lemma {:induction false} MergeCoveredNoop(list: seq<Account>, defaults: seq<Account>)
    requires forall d :: d in defaults ==> Covered(list, d)
    ensures Merge(list, defaults) == list
  {
    if defaults != [] {
      var init := defaults[..|defaults| - 1];
      assert forall d :: d in init ==> d in defaults;
      MergeCoveredNoop(list, init);
      assert defaults[|defaults| - 1] in defaults;
    }
  }

  /** Loading the defaults twice is the same as loading them once. */
  lemma MergeIdempotent(existing: seq<Account>, defaults: seq<Account>)
    ensures Merge(Merge(existing, defaults), defaults) == Merge(existing, defaults)
  {
    forall d | d in defaults ensures Covered(Merge(existing, defaults), d) {
      MergeCovers(existing, defaults, d);
    }
    MergeCoveredNoop(Merge(existing, defaults), defaults);
  }

  /** Only defaults not yet covered are added, each at most once. */
  lemma {:induction false} MergeAddsDefaults(existing: seq<Account>, defaults: seq<Account>, k: nat)
    requires |existing| <= k < |Merge(existing, defaults)|
    ensures exists d :: d in defaults && Merge(existing, defaults)[k] == Account(d.name, Lower(d.region)) && !Covered(existing, d)
  {
    var init := defaults[..|defaults| - 1];
    var last := defaults[|defaults| - 1];
    var m := Merge(existing, init);
    if k < |m| {
      MergeAddsDefaults(existing, init, k);
      var d :| d in init && m[k] == Account(d.name, Lower(d.region)) && !Covered(existing, d);
      assert d in defaults;
    } else {
      assert Merge(existing, defaults)[k] == Account(last.name, Lower(last.region));
      forall a | a in existing ensures !Covers(a, last) {
        assert a in m;
      }
    }
  }

  /**
   * Assigning a list keeps the names distinct, and the default profile keeps
   * sharing the default list unless it is the one assigned.
   */
  lemma AssignKeepsDefaults(ps: seq<Profile>, key: string, list: seq<Account>, defaults: seq<Account>, shared: bool)
    requires DistinctNames(ps) && (shared ==> AccountsOf(ps, DefaultProfile) == Some(defaults))
    ensures DistinctNames(Assign(ps, key, list))
    ensures shared && key != DefaultProfile ==> AccountsOf(Assign(ps, key, list), DefaultProfile) == Some(defaults)
  {
    AssignDistinct(ps, key, list);
    AssignSpec(ps, key, list, DefaultProfile);
  }

  /** Appending to the current list keeps the names distinct and the default list in step with "Profil 1". */
  lemma AppendKeepsDefaults(ps: seq<Profile>, key: string, acc: Account, defaults: seq<Account>, shared: bool)
    requires DistinctNames(ps) && (shared ==> AccountsOf(ps, DefaultProfile) == Some(defaults))
    ensures var list := CurrentAccounts(ps, Some(key)) + [acc];
      && DistinctNames(Assign(ps, key, list))
      && (shared ==> AccountsOf(Assign(ps, key, list), DefaultProfile) ==
                     Some(if key == DefaultProfile then defaults + [acc] else defaults))
  {
    var list := CurrentAccounts(ps, Some(key)) + [acc];
    AssignKeepsDefaults(ps, key, list, defaults, shared);
    AssignSpec(ps, key, list, DefaultProfile);
  }

  /** What `addAccount` did. */
  datatype AddOutcome = BlankName | AlreadyListed | Added

  /** The profiles in memory, the selection, the two `localStorage` entries, and the default list. */
  class Page {
    var profiles: seq<Profile>
    var current: Option<string>
    var storedProfiles: Stored
    var storedSelection: Option<string>
    /** The contents of `DEFAULT_PROFILES["Profil 1"]`. */
    var defaults: seq<Account>
    /** Whether `profiles["Profil 1"]` is that same array. */
    var shared: bool

    predicate Valid()
      reads this
    {
      && DistinctNames(profiles)
      && (storedProfiles.Parsed? ==> DistinctNames(storedProfiles.profiles))
      && (shared ==> AccountsOf(profiles, DefaultProfile) == Some(defaults))
    }

    /** The page before `loadProfiles`, with what storage held under the two keys. */
    constructor (stored: Stored, saved: Option<string>)
      requires stored.Parsed? ==> DistinctNames(stored.profiles)
      ensures Valid()
      ensures profiles == [] && current == None && storedProfiles == stored && storedSelection == saved
      ensures defaults == DefaultAccounts && !shared
    {
      profiles := [];
      current := None;
      storedProfiles := stored;
      storedSelection := saved;
      defaults := DefaultAccounts;
      shared := false;
    }

    /** `saveProfiles`. */
    method Save()
      requires Valid()
      modifies this
      ensures Valid()
      ensures profiles == old(profiles) && current == old(current) && defaults == old(defaults) && shared == old(shared)
      ensures storedProfiles == Parsed(profiles) && storedSelection == Some(KeyOf(current))
    {
      storedProfiles := Parsed(profiles);
      storedSelection := Some(KeyOf(current));
    }

    /**
     * `loadProfiles`: stored profiles are taken as they are; without them the
     * defaults are installed and stored. The saved selection is kept when it
     * names a profile, otherwise the first profile (or "Profil 1") is
     * selected and stored.
     */
    method LoadProfiles()
      requires Valid()
      modifies this
      ensures Valid()
      ensures old(storedProfiles).Parsed? ==> profiles == old(storedProfiles).profiles && !shared
      ensures !old(storedProfiles).Parsed? ==> profiles == [Profile(DefaultProfile, defaults)] && shared
      ensures defaults == old(defaults)
      ensures var saved := old(storedSelection);
        if saved.Some? && saved.value != "" && saved.value in Names(profiles) then
          current == saved && storedSelection == saved
        else
          current == Some(if profiles != [] && profiles[0].name != "" then profiles[0].name else DefaultProfile) &&
          storedSelection == current
      ensures storedProfiles == Parsed(profiles)
    {
      if storedProfiles.Parsed? {
        profiles := storedProfiles.profiles;
        shared := false;
      } else {
        profiles := [Profile(DefaultProfile, defaults)];
        shared := true;
        storedProfiles := Parsed(profiles);
      }
      var saved := storedSelection;
      if saved.Some? && saved.value != "" && AccountsOf(profiles, saved.value).Some? {
        current := saved;
      } else {
        current := Some(if profiles != [] && profiles[0].name != "" then profiles[0].name else DefaultProfile);
        storedSelection := current;
      }
    }

    method SwitchProfile(name: string)
      requires Valid()
      modifies this
      ensures Valid()
      ensures profiles == old(profiles) && current == Some(name) && defaults == old(defaults) && shared == old(shared)
      ensures storedProfiles == Parsed(profiles) && storedSelection == Some(name)
    {
      current := Some(name);
      Save();
    }

    /**
     * `createProfile`: a blank or taken name (an inherited key counts as taken)
     * changes nothing; otherwise a new empty profile is added and selected.
     */
    method CreateProfile(input: string) returns (created: bool)
      requires Valid()
      modifies this
      ensures Valid()
      ensures created <==> Trim(input) != [] && !Taken(old(profiles), Trim(input))
      ensures defaults == old(defaults) && shared == old(shared)
      ensures !created ==> (profiles == old(profiles) && current == old(current) &&
        storedProfiles == old(storedProfiles) && storedSelection == old(storedSelection))
      ensures created ==> (profiles == old(profiles) + [Profile(Trim(input), [])] && current == Some(Trim(input)) &&
        storedProfiles == Parsed(profiles) && storedSelection == current)
    {
      var name := Trim(input);
      if name == [] || AccountsOf(profiles, name).Some? || name in InheritedKeys {
        return false;
      }
      AssignPlaces(profiles, name, []);
      AssignDistinct(profiles, name, []);
      AssignSpec(profiles, name, [], DefaultProfile);
      profiles := Assign(profiles, name, []);
      current := Some(name);
      Save();
      created := true;
    }

    /**
     * `addAccount`: a blank name does nothing and a listed account (same
     * region, name equal ignoring case) only clears the input; otherwise the
     * account is pushed at the end of the current list, which is the default
     * list too while the two are shared.
     */
    method AddAccount(input: string, regionInput: string) returns (outcome: AddOutcome)
      requires Valid()
      modifies this
      ensures Valid()
      ensures var list := CurrentAccounts(old(profiles), old(current));
        outcome == (if Trim(input) == [] then BlankName
                    else if Listed(list, Trim(input), RegionOf(regionInput)) then AlreadyListed
                    else Added)
      ensures outcome != Added ==> (profiles == old(profiles) && current == old(current) && defaults == old(defaults) &&
        shared == old(shared) && storedProfiles == old(storedProfiles) && storedSelection == old(storedSelection))
      ensures outcome == Added ==> var acc := Account(Trim(input), RegionOf(regionInput));
        && profiles == Assign(old(profiles), KeyOf(current), CurrentAccounts(old(profiles), current) + [acc])
        && current == old(current) && shared == old(shared)
        && defaults == (if old(shared) && KeyOf(current) == DefaultProfile then old(defaults) + [acc] else old(defaults))
        && storedProfiles == Parsed(profiles) && storedSelection == Some(KeyOf(current))
    {
      var name := Trim(input);
      var region := RegionOf(regionInput);
      if name == [] {
        return BlankName;
      }
      var list := CurrentAccounts(profiles, current);
      if Listed(list, name, region) {
        return AlreadyListed;
      }
      var acc := Account(name, region);
      var key := KeyOf(current);
      AppendKeepsDefaults(profiles, key, acc, defaults, shared);
      profiles, defaults := Assign(profiles, key, list + [acc]),
                            if shared && key == DefaultProfile then defaults + [acc] else defaults;
      Save();
      outcome := Added;
    }

    /** The `forEach` of `loadDefaultAccountsForCurrentProfile` building `merged`. */
    static method MergeDefaults(existing: seq<Account>, defaults: seq<Account>) returns (merged: seq<Account>)
      ensures merged == Merge(existing, defaults)
    {
      merged := existing;
      var i := 0;
      while i < |defaults|
        invariant 0 <= i <= |defaults|
        invariant merged == Merge(existing, defaults[..i])
      {
        var d := defaults[i];
        assert defaults[..i + 1][..i] == defaults[..i];
        if !Covered(merged, d) {
          merged := merged + [Account(d.name, Lower(d.region))];
        }
        i := i + 1;
      }
      assert defaults[..i] == defaults;
    }

    /** `loadDefaultAccountsForCurrentProfile`: the current list gets the defaults it does not cover yet. */
    method LoadDefaultAccounts()
      requires Valid()
      modifies this
      ensures Valid()
      ensures old(defaults) == [] ==> (profiles == old(profiles) && current == old(current) && shared == old(shared) &&
        storedProfiles == old(storedProfiles) && storedSelection == old(storedSelection))
      ensures old(defaults) != [] ==>
        && profiles == Assign(old(profiles), KeyOf(current), Merge(CurrentAccounts(old(profiles), current), defaults))
        && current == old(current)
        && shared == (old(shared) && KeyOf(current) != DefaultProfile)
        && storedProfiles == Parsed(profiles) && storedSelection == Some(KeyOf(current))
      ensures defaults == old(defaults)
    {
      if defaults == [] {
        return;
      }
      var key := KeyOf(current);
      var merged := MergeDefaults(CurrentAccounts(profiles, current), defaults);
      AssignDistinct(profiles, key, merged);
      AssignSpec(profiles, key, merged, DefaultProfile);
      profiles := Assign(profiles, key, merged);
      if key == DefaultProfile {
        shared := false;
      }
      Save();
    }

    /** The delete button of row `index`: `filter` builds a new array. */
    method DeleteAccount(index: nat)
      requires Valid()
      modifies this
      ensures Valid()
      ensures profiles == Assign(old(profiles), KeyOf(current), RemoveAt(CurrentAccounts(old(profiles), current), index))
      ensures current == old(current) && defaults == old(defaults)
      ensures shared == (old(shared) && KeyOf(current) != DefaultProfile)
      ensures storedProfiles == Parsed(profiles) && storedSelection == Some(KeyOf(current))
    {
      var key := KeyOf(current);
      var updated := RemoveAt(CurrentAccounts(profiles, current), index);
      AssignKeepsDefaults(profiles, key, updated, defaults, shared);
      profiles := Assign(profiles, key, updated);
      if key == DefaultProfile {
        shared := false;
      }
      Save();
    }
  }
}
