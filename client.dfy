/**
 * The logic the two browser scripts (frontend/public/script.js and
 * public/script.js) share word for word: the saved accounts and the default
 * list, champion-name normalisation, the champion catalogue read from the
 * Data Dragon `champion.json`, the resolution of a typed champion name, the
 * suggestion list, and the account descriptors sent to the backend.
 */
module Client {
  import opened Base
  import opened Sorting
  import Routes

  /** One saved account: a Riot id `NAME#TAG` and a platform region. */
  datatype Account = Account(name: string, region: string)

  /** `DEFAULT_PROFILES["Profil 1"]`. */
  const DefaultAccounts: seq<Account> := [
    Account("Asphyx#SKT", "eun1"),
    Account("Last devotion#stk", "eun1"),
    Account("Life force666#euw", "euw1"),
    Account("Silence#bow", "euw1"),
    Account("God complex#dra", "euw1"),
    Account("Neuvilette#honor", "euw1"),
    Account("God complex#aprs", "euw1"),
    Account("Gianeentruan#1807", "euw1"),
    Account("Kurukuruboy#euw", "euw1"),
    Account("Silence#num2", "euw1"),
    Account("Noffeed#2881", "eun1"),
    Account("The dark rose#euwu", "euw1"),
    Account("Spaceglider#pew", "euw1"),
    Account("Emperor#ban", "euw1"),
    Account("Swogenthach#6501", "euw1"),
    Account("Life Force666#num2", "euw1"),
    Account("Nostalgia#1973", "euw1"),
    Account("Taszildelm#1049", "euw1"),
    Account("Teaprach#3789", "euw1"),
    Account("Spaceglider#aprs", "euw1"),
    Account("VoiceOfThePast#RNK1", "euw1"),
    Account("kelynali#6221", "euw1"),
    Account("Fluffyunicorn#4090", "euw1"),
    Account("Silence#joy", "euw1"),
    Account("Nice guy#yeet", "euw1"),
    Account("T1 gumasushi#euwe", "euw1"),
    Account("Crownedbydeath#skt", "eun1"),
    Account("Keaiqdar#5734", "eun1"),
    Account("ilovewaffles#yipii", "eun1"),
    Account("Healsorhandcuffs#skt", "eun1"),
    Account("Shield my heart#skt", "eun1"),
    Account("Free hugs#skt", "eun1"),
    Account("Tacos#skt", "eun1"),
    Account("Deep Sea#euwu", "eun1"),
    Account("Vaimgon#4340", "na1"),
    Account("Exodia#yrd", "eun1"),
    Account("Broken Heart#aprs", "eun1"),
    Account("Shawtyhunt3r#skt", "euw1")
  ]

  const DefaultProfile: string := "Profil 1"

  // ---------------------------------------------------------------------
  // normalizeChampionKey
  // ---------------------------------------------------------------------

  /** The characters of `/['\.\s]/g`. */
  predicate Stripped(c: char)
  {
    c == '\'' || c == '.' || IsSpace(c)
  }

  /** `s.toLowerCase().replace(/['\.\s]/g, "")`. */
  function NormalizeChampionKey(s: string): (k: string)
    ensures |k| <= |s|
    ensures forall i :: 0 <= i < |k| ==> !Stripped(k[i])
  {
    Without(Lower(s), Stripped)
  }

  lemma {:induction false} WithoutKeeps(s: string, drop: char -> bool, i: int)
    requires 0 <= i < |Without(s, drop)|
    ensures Without(s, drop)[i] in s
  {
    if s != [] {
      var head := if drop(s[0]) then [] else [s[0]];
      if i < |head| {
      } else {
        WithoutKeeps(s[1..], drop, i - |head|);
      }
    }
  }

  lemma {:induction false} WithoutConcat(a: string, b: string, drop: char -> bool)
    ensures Without(a + b, drop) == Without(a, drop) + Without(b, drop)
  {
    if a != [] {
      assert (a + b)[1..] == a[1..] + b;
      WithoutConcat(a[1..], b, drop);
    } else {
      assert a + b == b;
    }
  }

  lemma {:induction false} LowerFixed(s: string)
    requires forall i :: 0 <= i < |s| ==> !('A' <= s[i] <= 'Z')
    ensures Lower(s) == s
  {
    if s != [] {
      LowerFixed(s[1..]);
    }
  }

  /** A normalised key normalises to itself. */
  lemma NormalizeIdempotent(s: string)
    ensures NormalizeChampionKey(NormalizeChampionKey(s)) == NormalizeChampionKey(s)
  {
    var k := NormalizeChampionKey(s);
    forall i | 0 <= i < |k| ensures !('A' <= k[i] <= 'Z') {
      WithoutKeeps(Lower(s), Stripped, i);
      var j :| 0 <= j < |Lower(s)| && Lower(s)[j] == k[i];
      LowerAt(s, j);
    }
    LowerFixed(k);
    WithoutIdentity(k, Stripped);
  }

  /** Normalisation works character by character. */
  lemma NormalizeConcat(a: string, b: string)
    ensures NormalizeChampionKey(a + b) == NormalizeChampionKey(a) + NormalizeChampionKey(b)
  {
    LowerConcat(a, b);
    WithoutConcat(Lower(a), Lower(b), Stripped);
  }

  /** Letter case and the stripped characters anywhere in the name do not matter. */
  lemma NormalizeIgnores(a: string, c: char, b: string)
    requires Stripped(c) || ('A' <= c <= 'Z')
    ensures Stripped(c) ==> NormalizeChampionKey(a + [c] + b) == NormalizeChampionKey(a + b)
    ensures NormalizeChampionKey(a + [c] + b) == NormalizeChampionKey(a + [LowerChar(c)] + b)
  {
    NormalizeThree(a, [c], b);
    NormalizeThree(a, [LowerChar(c)], b);
    NormalizeOne(c);
    if Stripped(c) {
      NormalizeConcat(a, b);
    }
  }

  lemma NormalizeThree(a: string, m: string, b: string)
    ensures NormalizeChampionKey(a + m + b) == NormalizeChampionKey(a) + NormalizeChampionKey(m) + NormalizeChampionKey(b)
  {
    NormalizeConcat(a + m, b);
    NormalizeConcat(a, m);
  }

  lemma NormalizeOne(c: char)
    requires Stripped(c) || ('A' <= c <= 'Z')
    ensures NormalizeChampionKey([c]) == NormalizeChampionKey([LowerChar(c)])
    ensures Stripped(c) ==> NormalizeChampionKey([c]) == []
  {
    assert Lower([c]) == [LowerChar(c)];
    assert Lower([LowerChar(c)]) == [LowerChar(c)];
  }

  // ---------------------------------------------------------------------
  // loadChampionData
  // ---------------------------------------------------------------------

  /** An entry of the catalogue: `{ id: parseInt(c.key, 10), name: c.name, rawId: c.id }`. */
  datatype Champion = Champion(id: int, name: string, rawId: string)

  /** One value of `champsJson.data`, its `key` already read as a number. */
  datatype RawChampion = RawChampion(key: int, name: string, id: string)

  function EntryOf(c: RawChampion): Champion
  {
    Champion(c.key, c.name, c.id)
  }

  /** `championMap`: each entry under its normalised name and its normalised id; later entries win. */
  function KeyMap(data: seq<RawChampion>): map<string, Champion>
  {
    if data == [] then map[]
    else
      var c := data[|data| - 1];
      KeyMap(data[..|data| - 1])[NormalizeChampionKey(c.name) := EntryOf(c)][NormalizeChampionKey(c.id) := EntryOf(c)]
  }

  /** `championById`. */
  function IdMap(data: seq<RawChampion>): map<int, Champion>
  {
    if data == [] then map[] else IdMap(data[..|data| - 1])[data[|data| - 1].key := EntryOf(data[|data| - 1])]
  }

  /** `championList`. */
  function Entries(data: seq<RawChampion>): (list: seq<Champion>)
    ensures |list| == |data| && forall k :: 0 <= k < |data| ==> list[k] == EntryOf(data[k])
  {
    seq(|data|, k requires 0 <= k < |data| => EntryOf(data[k]))
  }

  /** The catalogue is keyed by exactly the normalised names and ids. */
  lemma {:induction false} KeyMapDomain(data: seq<RawChampion>, key: string)
    ensures key in KeyMap(data) <==>
      exists c :: c in data && (NormalizeChampionKey(c.name) == key || NormalizeChampionKey(c.id) == key)
  {
    if data != [] {
      var init := data[..|data| - 1];
      KeyMapDomain(init, key);
      assert data == init + [data[|data| - 1]];
    }
  }

  /** Every key leads to an entry of the list that carries it. */
  lemma {:induction false} KeyMapValue(data: seq<RawChampion>, key: string)
    requires key in KeyMap(data)
    ensures var e := KeyMap(data)[key];
      e in Entries(data) && (NormalizeChampionKey(e.name) == key || NormalizeChampionKey(e.rawId) == key)
  {
    var init := data[..|data| - 1];
    var c := data[|data| - 1];
    assert Entries(data)[|data| - 1] == EntryOf(c);
    if key != NormalizeChampionKey(c.name) && key != NormalizeChampionKey(c.id) {
      KeyMapValue(init, key);
      var e := KeyMap(init)[key];
      var k :| 0 <= k < |init| && Entries(init)[k] == e;
      assert Entries(data)[k] == e;
    }
  }

  /** `championById` holds each champion's entry under its numeric key. */
  lemma {:induction false} IdMapSpec(data: seq<RawChampion>, id: int)
    ensures id in IdMap(data) <==> exists c :: c in data && c.key == id
    ensures id in IdMap(data) ==> IdMap(data)[id].id == id && IdMap(data)[id] in Entries(data)
  {
    if data != [] {
      var init := data[..|data| - 1];
      IdMapSpec(init, id);
      assert data == init + [data[|data| - 1]];
      if id in IdMap(init) {
        var e := IdMap(init)[id];
        var k :| 0 <= k < |init| && Entries(init)[k] == e;
        assert Entries(data)[k] == e;
      }
      assert Entries(data)[|data| - 1] == EntryOf(data[|data| - 1]);
    }
  }

  lemma CatalogStep(data: seq<RawChampion>, i: nat)
    requires i < |data|
    ensures var c := data[i];
      && Entries(data[..i + 1]) == Entries(data[..i]) + [EntryOf(c)]
      && KeyMap(data[..i + 1]) == KeyMap(data[..i])[NormalizeChampionKey(c.name) := EntryOf(c)][NormalizeChampionKey(c.id) := EntryOf(c)]
      && IdMap(data[..i + 1]) == IdMap(data[..i])[c.key := EntryOf(c)]
  {
    assert data[..i + 1][..i] == data[..i];
  }

  /** The catalogue the scripts fill once, on first use. */
  class ChampionCatalog {
    var loaded: bool
    var byKey: map<string, Champion>
    var list: seq<Champion>
    var byId: map<int, Champion>

    constructor ()
      ensures !loaded && byKey == map[] && list == [] && byId == map[]
    {
      loaded := false;
      byKey := map[];
      list := [];
      byId := map[];
    }

    /** `loadChampionData`: `data` is the champion table the download returns. */
    method Load(data: seq<RawChampion>)
      modifies this
      ensures old(loaded) ==> loaded == old(loaded) && byKey == old(byKey) && list == old(list) && byId == old(byId)
      ensures !old(loaded) ==> loaded && list == Entries(data) && byKey == KeyMap(data) && byId == IdMap(data)
    {
      if loaded {
        return;
      }
      byKey, list, byId := map[], [], map[];
      var i := 0;
      while i < |data|
        invariant 0 <= i <= |data|
        invariant list == Entries(data[..i]) && byKey == KeyMap(data[..i]) && byId == IdMap(data[..i])
      {
        var c := data[i];
        var entry := Champion(c.key, c.name, c.id);
        CatalogStep(data, i);
        byKey := byKey[NormalizeChampionKey(c.name) := entry];
        byKey := byKey[NormalizeChampionKey(c.id) := entry];
        list := list + [entry];
        byId := byId[entry.id := entry];
        i := i + 1;
      }
      assert data[..i] == data;
      loaded := true;
    }
  }

  // ---------------------------------------------------------------------
  // resolveChampion and the suggestions
  // ---------------------------------------------------------------------

  const NoChampionGiven: string := "Champion eingeben."

  /**
   * What `championMap[norm]` yields when it is truthy: a catalogue entry, or a
   * member every object inherits from `Object.prototype`.
   */
  datatype MapHit = Entry(champion: Champion) | InheritedMember(key: string)

  /** `resolveChampion` over a loaded catalogue; the thrown error is `Err`. */
  function ResolveChampion(input: string, byKey: map<string, Champion>): (r: Result<MapHit, string>)
    ensures Trim(input) == [] ==> r == Err(NoChampionGiven)
    ensures r.Ok? <==> Trim(input) != [] && (NormalizeChampionKey(Trim(input)) in byKey || NormalizeChampionKey(Trim(input)) in InheritedKeys)
    ensures Trim(input) != [] && NormalizeChampionKey(Trim(input)) in byKey ==> r == Ok(Entry(byKey[NormalizeChampionKey(Trim(input))]))
    ensures r.Ok? && r.value.InheritedMember? ==> r.value.key !in byKey && r.value.key in {"constructor", "__proto__"}
    ensures r.Err? && Trim(input) != [] ==> r.error == "Champion '" + Trim(input) + "' nicht gefunden."
  {
    var raw := Trim(input);
    if raw == [] then Err(NoChampionGiven)
    else
      var norm := NormalizeChampionKey(raw);
      if norm in byKey then Ok(Entry(byKey[norm]))
      else if norm in InheritedKeys then
        ReachableInherited(raw);
        Ok(InheritedMember(norm))
      else Err("Champion '" + raw + "' nicht gefunden.")
  }

  predicate NoCapitals(s: string)
  {
    forall i :: 0 <= i < |s| ==> !('A' <= s[i] <= 'Z')
  }

  /** A normalised key is lower case. */
  lemma NormalizedNoCapitals(s: string)
    ensures NoCapitals(NormalizeChampionKey(s))
  {
    var k := NormalizeChampionKey(s);
    forall i | 0 <= i < |k| ensures !('A' <= k[i] <= 'Z') {
      WithoutKeeps(Lower(s), Stripped, i);
      var j :| 0 <= j < |Lower(s)| && Lower(s)[j] == k[i];
      LowerAt(s, j);
    }
  }

  /** Of the inherited members only the two with lower-case names can be reached by a normalised key. */
  lemma ReachableInherited(s: string)
    requires NormalizeChampionKey(s) in InheritedKeys
    ensures NormalizeChampionKey(s) in {"constructor", "__proto__"}
  {
    var k := NormalizeChampionKey(s);
    if k !in {"constructor", "__proto__"} {
      var i := if k == "hasOwnProperty" then 3 else if k == "valueOf" then 5
        else if k == "propertyIsEnumerable" || k in {"__defineGetter__", "__defineSetter__", "__lookupGetter__", "__lookupSetter__"} then 8
        else 2;
      assert 'A' <= k[i] <= 'Z';
      NormalizedNoCapitals(s);
      assert false;
    }
  }

  /** A text of lower-case letters and underscores is its own trimmed, normalised key. */
  lemma NormalizedPlain(s: string)
    requires forall i :: 0 <= i < |s| ==> 'a' <= s[i] <= 'z' || s[i] == '_'
    ensures Trim(s) == s && NormalizeChampionKey(s) == s
  {
    forall i | 0 <= i < |s| ensures Lower(s)[i] == s[i] {
      LowerAt(s, i);
    }
    assert Lower(s) == s;
    WithoutIdentity(s, Stripped);
    TrimNoSpace(s);
  }

  /** Both reachable members resolve when no champion takes their key. */
  lemma InheritedResolve(key: string, byKey: map<string, Champion>)
    requires key in {"constructor", "__proto__"} && key !in byKey
    ensures ResolveChampion(key, byKey) == Ok(InheritedMember(key))
  {
    NormalizedPlain(key);
    assert NormalizeChampionKey(Trim(key)) == key;
  }

  /** A name is found exactly when some champion's name or id normalises like it, and the entry found is such a champion. */
  lemma ResolveInCatalog(input: string, data: seq<RawChampion>)
    requires Trim(input) != []
    ensures var r := ResolveChampion(input, KeyMap(data)); var norm := NormalizeChampionKey(Trim(input));
      && ((exists c :: c in data && (NormalizeChampionKey(c.name) == norm || NormalizeChampionKey(c.id) == norm)) ==>
            r.Ok? && r.value.Entry? && r.value.champion in Entries(data)
            && (NormalizeChampionKey(r.value.champion.name) == norm || NormalizeChampionKey(r.value.champion.rawId) == norm))
      && (!(exists c :: c in data && (NormalizeChampionKey(c.name) == norm || NormalizeChampionKey(c.id) == norm)) ==>
            (r.Ok? <==> norm in {"constructor", "__proto__"}) && (r.Ok? ==> r == Ok(InheritedMember(norm))))
  {
    var norm := NormalizeChampionKey(Trim(input));
    KeyMapDomain(data, norm);
    if norm in KeyMap(data) {
      KeyMapValue(data, norm);
    }
  }

  /** The champions whose normalised name starts with `norm`, in list order. */
  function Matching(list: seq<Champion>, norm: string): (m: seq<Champion>)
    ensures |m| <= |list|
    ensures forall c :: c in m ==> c in list
  {
    if list == [] then []
    else Matching(list[..|list| - 1], norm) + (if StartsWith(NormalizeChampionKey(list[|list| - 1].name), norm) then [list[|list| - 1]] else [])
  }

  const MaxSuggestions: nat := 12

  /** The suggestions for the typed text (none for blank input). */
  function Suggestions(list: seq<Champion>, input: string): (s: seq<Champion>)
    ensures |s| <= MaxSuggestions
  {
    var raw := Trim(input);
    if raw == [] then []
    else
      var m := Matching(list, NormalizeChampionKey(raw));
      if |m| <= MaxSuggestions then m else m[..MaxSuggestions]
  }

  lemma {:induction false} MatchingSpec(list: seq<Champion>, norm: string)
    ensures forall c :: c in Matching(list, norm) <==> c in list && StartsWith(NormalizeChampionKey(c.name), norm)
  {
    if list != [] {
      MatchingSpec(list[..|list| - 1], norm);
      assert list == list[..|list| - 1] + [list[|list| - 1]];
    }
  }

  /** The matches keep the list order: matching distributes over concatenation. */
  lemma {:induction false} MatchingAppend(a: seq<Champion>, b: seq<Champion>, norm: string)
    ensures Matching(a + b, norm) == Matching(a, norm) + Matching(b, norm)
    decreases |b|
  {
    if b == [] {
      assert a + b == a;
    } else {
      MatchingAppend(a, b[..|b| - 1], norm);
      assert (a + b)[..|a + b| - 1] == a + b[..|b| - 1];
    }
  }

  /**
   * Every suggestion is a champion of the list whose normalised name starts
   * with the normalised input; they are the first such champions in list order,
   * and all of them when there are at most twelve.
   */
  lemma SuggestionsSpec(list: seq<Champion>, input: string)
    requires Trim(input) != []
    ensures var s := Suggestions(list, input); var m := Matching(list, NormalizeChampionKey(Trim(input)));
      && s <= m
      && |s| == (if |m| <= MaxSuggestions then |m| else MaxSuggestions)
      && (forall c :: c in s ==> c in list && StartsWith(NormalizeChampionKey(c.name), NormalizeChampionKey(Trim(input))))
      && (|m| <= MaxSuggestions ==> forall c :: c in list && StartsWith(NormalizeChampionKey(c.name), NormalizeChampionKey(Trim(input))) ==> c in s)
  {
    MatchingSpec(list, NormalizeChampionKey(Trim(input)));
  }

  // ---------------------------------------------------------------------
  // The account descriptors sent with each aggregation request
  // ---------------------------------------------------------------------

  /** The two fields of an `/api/account` answer the scripts read; "" stands for a missing or falsy one. */
  datatype AccountInfo = AccountInfo(gameName: string, tagLine: string)

  /** The descriptor of one account: the Riot id the lookup returned, else the saved name. */
  function Descriptor(a: Account, info: Option<AccountInfo>): (d: Account)
    ensures d.region == a.region
    ensures info.Some? && info.value.gameName != "" && info.value.tagLine != "" ==> d.name == info.value.gameName + "#" + info.value.tagLine
    ensures !(info.Some? && info.value.gameName != "" && info.value.tagLine != "") ==> d == a
  {
    if info.Some? && info.value.gameName != "" && info.value.tagLine != "" then
      Account(info.value.gameName + "#" + info.value.tagLine, a.region)
    else a
  }

  /** The backend splits a descriptor built from a lookup back into the name and tag returned. */
  lemma DescriptorSplits(a: Account, info: AccountInfo)
    requires info.gameName != "" && info.tagLine != ""
    requires '#' !in info.gameName && '#' !in info.tagLine
    ensures Routes.SplitRiotId(Descriptor(a, Some(info)).name) == Some((info.gameName, info.tagLine))
  {
    Routes.SplitJoin(info.gameName, info.tagLine);
  }

  /** The `for (const a of accounts)` loop; `lookup` stands for `fetchAccountInfo` (`None` for a failed lookup). */
  method Descriptors(accounts: seq<Account>, lookup: Account -> Option<AccountInfo>) returns (infos: seq<Account>)
    ensures |infos| == |accounts|
    ensures forall k :: 0 <= k < |accounts| ==> infos[k] == Descriptor(accounts[k], lookup(accounts[k]))
  {
    infos := [];
    var i := 0;
    while i < |accounts|
      invariant 0 <= i <= |accounts| && |infos| == i
      invariant forall k :: 0 <= k < i ==> infos[k] == Descriptor(accounts[k], lookup(accounts[k]))
    {
      var a := accounts[i];
      var info := lookup(a);
      if info.Some? && info.value.gameName != "" && info.value.tagLine != "" {
        infos := infos + [Account(info.value.gameName + "#" + info.value.tagLine, a.region)];
      } else {
        infos := infos + [Account(a.name, a.region)];
      }
      i := i + 1;
    }
  }

  // ---------------------------------------------------------------------
  // The `profiles` object: account lists by profile name
  // ---------------------------------------------------------------------

  /** One key of `profiles` and its account list; the keys keep their insertion order. */
  datatype Profile = Profile(name: string, accounts: seq<Account>)

  /** `Object.keys(profiles)`. */
  function Names(ps: seq<Profile>): (names: seq<string>)
    ensures |names| == |ps| && forall k :: 0 <= k < |ps| ==> names[k] == ps[k].name
  {
    seq(|ps|, k requires 0 <= k < |ps| => ps[k].name)
  }

  /** `profiles[name]`: the list, or `None` for a missing key. */
  function AccountsOf(ps: seq<Profile>, name: string): (r: Option<seq<Account>>)
    ensures r.Some? <==> name in Names(ps)
  {
    if ps == [] then None
    else if ps[0].name == name then Some(ps[0].accounts)
    else
      var r := AccountsOf(ps[1..], name);
      assert Names(ps) == [ps[0].name] + Names(ps[1..]);
      r
  }

  /**
   * The keys a plain object inherits from `Object.prototype`: `profiles[k]`
   * is truthy for them although no profile is named `k`.
   */
  const InheritedKeys: set<string> := {
    "constructor", "hasOwnProperty", "isPrototypeOf", "propertyIsEnumerable", "toLocaleString",
    "toString", "valueOf", "__proto__", "__defineGetter__", "__defineSetter__",
    "__lookupGetter__", "__lookupSetter__"
  }

  /** `if (profiles[name])`: an own profile, or a key every object inherits. */
  predicate Taken(ps: seq<Profile>, name: string)
  {
    name in Names(ps) || name in InheritedKeys
  }

  /** `profiles[name] = list`. */
  function Assign(ps: seq<Profile>, name: string, list: seq<Account>): (r: seq<Profile>)
    ensures |r| == |ps| || |r| == |ps| + 1
    ensures Profile(name, list) in r
  {
    if ps == [] then [Profile(name, list)]
    else if ps[0].name == name then [Profile(name, list)] + ps[1..]
    else [ps[0]] + Assign(ps[1..], name, list)
  }

  /** An existing key keeps its place, a new one goes last. */
  lemma {:induction false} AssignPlaces(ps: seq<Profile>, name: string, list: seq<Account>)
    ensures name in Names(ps) ==> Names(Assign(ps, name, list)) == Names(ps)
    ensures name !in Names(ps) ==> Assign(ps, name, list) == ps + [Profile(name, list)]
  {
    if ps != [] {
      var rest := Assign(ps[1..], name, list);
      NamesCons(ps[0], ps[1..]);
      assert ps == [ps[0]] + ps[1..];
      if ps[0].name == name {
        NamesCons(Profile(name, list), ps[1..]);
      } else {
        AssignPlaces(ps[1..], name, list);
        NamesCons(ps[0], rest);
        if name !in Names(ps) {
          assert [ps[0]] + (ps[1..] + [Profile(name, list)]) == ps + [Profile(name, list)];
        }
      }
    }
  }

  lemma NamesCons(p: Profile, ps: seq<Profile>)
    ensures Names([p] + ps) == [p.name] + Names(ps)
  {
  }

  /** After `profiles[name] = list`, that key holds the list and every other key what it held before. */
  lemma {:induction false} AssignSpec(ps: seq<Profile>, name: string, list: seq<Account>, other: string)
    ensures AccountsOf(Assign(ps, name, list), name) == Some(list)
    ensures other != name ==> AccountsOf(Assign(ps, name, list), other) == AccountsOf(ps, other)
  {
    if ps != [] && ps[0].name != name {
      AssignSpec(ps[1..], name, list, other);
    }
  }

  /** No profile name occurs twice (the keys of an object). */
  predicate DistinctNames(ps: seq<Profile>)
  {
    forall i, j :: 0 <= i < j < |ps| ==> ps[i].name != ps[j].name
  }

  lemma {:induction false} AssignDistinct(ps: seq<Profile>, name: string, list: seq<Account>)
    requires DistinctNames(ps)
    ensures DistinctNames(Assign(ps, name, list))
  {
    var r := Assign(ps, name, list);
    AssignPlaces(ps, name, list);
    if name in Names(ps) {
      assert forall i :: 0 <= i < |r| ==> r[i].name == Names(r)[i] == Names(ps)[i] == ps[i].name;
    } else {
      assert forall i :: 0 <= i < |ps| ==> ps[i].name == Names(ps)[i];
    }
  }

  /** `getAccounts()`: the current profile's list, or `[]`; a null selection is the key "null". */
  function CurrentAccounts(ps: seq<Profile>, current: Option<string>): seq<Account>
  {
    var r := AccountsOf(ps, KeyOf(current));
    if r.Some? then r.value else []
  }

  function KeyOf(current: Option<string>): string
  {
    if current.Some? then current.value else "null"
  }

  /** `getAccounts().filter((_, i) => i !== index)`. */
  function RemoveAt(list: seq<Account>, index: nat): (r: seq<Account>)
    ensures index < |list| ==> |r| == |list| - 1 && forall k :: 0 <= k < |r| ==> r[k] == (if k < index then list[k] else list[k + 1])
    ensures index >= |list| ==> r == list
  {
    if index < |list| then list[..index] + list[index + 1..] else list
  }

  /** `(a.name || "").toLowerCase() === name.toLowerCase()` together with an equal region. */
  predicate SameAccount(a: Account, name: string, region: string)
  {
    a.region == region && Lower(a.name) == Lower(name)
  }

  predicate Listed(list: seq<Account>, name: string, region: string)
  {
    exists a :: a in list && SameAccount(a, name, region)
  }

  // ---------------------------------------------------------------------
  // The rendered champion breakdown
  // ---------------------------------------------------------------------

  function RowPoints(r: Routes.ChampionRow): real
  {
    Routes.PointsOrZero(r.points) as real
  }

  /**
   * `(data.accounts || []).slice().sort((a, b) => (b.points || 0) - (a.points || 0))`:
   * the table shows the same rows, highest points first; the response itself
   * is left as it was.
   */
  function RenderedRows(rows: seq<Routes.ChampionRow>): (shown: seq<Routes.ChampionRow>)
    ensures multiset(shown) == multiset(rows)
    ensures forall i, j :: 0 <= i < j < |shown| ==> RowPoints(shown[i]) >= RowPoints(shown[j])
  {
    DescendingIsTotal(RowPoints);
    SortSorted(rows, Descending(RowPoints));
    Sort(rows, Descending(RowPoints))
  }
}
