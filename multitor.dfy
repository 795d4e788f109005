/**
 * multitor.js: a checker for the per-account JSON files in the data
 * directory. It picks the files to check, reads each one leniently, and
 * reports per file the champion count, the mastery total, the update stamp and
 * the problems found, then how many files were fine and how many were not.
 */
module Multitor {
  import opened Base

  // ---------------------------------------------------------------------
  // parseArgs
  // ---------------------------------------------------------------------

  /** `args`: the `--files` list and the `--dir` value (`None` for null and undefined alike). */
  datatype Options = Options(files: seq<string>, dir: Option<string>)

  predicate IsOption(t: string)
  {
    StartsWith(t, "--")
  }

  lemma OptionChars(t: string)
    ensures IsOption(t) <==> |t| >= 2 && t[0] == '-' && t[1] == '-'
  {
    if |t| >= 2 {
      assert t[..2] == [t[0], t[1]];
    }
  }

  /** How many tokens from the front are not options. */
  function FileRun(ts: seq<string>): (n: nat)
    ensures n <= |ts|
    ensures forall k :: 0 <= k < n ==> !IsOption(ts[k])
    ensures n < |ts| ==> IsOption(ts[n])
  {
    if ts == [] || IsOption(ts[0]) then 0 else 1 + FileRun(ts[1..])
  }

  lemma {:induction false} FileRunIs(ts: seq<string>, n: nat)
    requires n <= |ts|
    requires forall k :: 0 <= k < n ==> !IsOption(ts[k])
    requires n < |ts| ==> IsOption(ts[n])
    ensures FileRun(ts) == n
  {
    if n > 0 {
      FileRunIs(ts[1..], n - 1);
    }
  }

  /** The options read from `ts` onwards, starting from `o`. */
  function ParseFrom(ts: seq<string>, o: Options): Options
    decreases |ts|
  {
    if ts == [] then o
    else if ts[0] == "--files" then
      var n := FileRun(ts[1..]);
      ParseFrom(ts[1 + n..], o.(files := o.files + ts[1..1 + n]))
    else if ts[0] == "--dir" then
      if |ts| == 1 then o.(dir := None) else ParseFrom(ts[2..], o.(dir := Some(ts[1])))
    else ParseFrom(ts[1..], o)
  }

  const NoOptions := Options([], None)

  function Rest(argv: seq<string>): seq<string>
  {
    if |argv| >= 2 then argv[2..] else []
  }

  /** The index loop of `parseArgs` over `argv.slice(2)`. */
  method ParseArgs(argv: seq<string>) returns (o: Options)
    ensures o == ParseFrom(Rest(argv), NoOptions)
  {
    var rest := Rest(argv);
    o := NoOptions;
    var i := 0;
    while i < |rest|
      invariant 0 <= i <= |rest|
      invariant ParseFrom(rest[i..], o) == ParseFrom(rest, NoOptions)
      decreases |rest| - i
    {
      o, i := ParseToken(rest, i, o);
    }
    assert rest[i..] == [];
  }

  /**
   * One pass of the loop body, `i++` included; an index past the end (after
   * a trailing `--dir`) is reported as the end.
   */
  method ParseToken(rest: seq<string>, i: nat, o: Options) returns (o': Options, next: nat)
    requires i < |rest|
    ensures i < next <= |rest|
    ensures ParseFrom(rest[next..], o') == ParseFrom(rest[i..], o)
  {
    var a := rest[i];
    next := i;
    if a == "--files" {
      ParseFilesStep(rest, i, o);
      next := next + 1;
      o', next := CollectFiles(rest, next, o);
      next := next - 1;
    } else if a == "--dir" {
      ParseDirStep(rest, i, o);
      o' := o.(dir := if i + 1 < |rest| then Some(rest[i + 1]) else None);
      ParseDirLast(rest, o');
      next := next + 1;
    } else {
      ParseOtherStep(rest, i, o);
      o' := o;
    }
    next := next + 1;
    if next > |rest| {
      next := |rest|;
    }
  }

  /** The inner loop of `parseArgs`: file names up to the next option. */
  method CollectFiles(rest: seq<string>, start: nat, o: Options) returns (o': Options, i: nat)
    requires start <= |rest|
    ensures i == start + FileRun(rest[start..]) && i <= |rest|
    ensures o' == o.(files := o.files + rest[start..i])
  {
    o' := o;
    i := start;
    while i < |rest| && !IsOption(rest[i])
      invariant start <= i <= |rest|
      invariant o' == o.(files := o.files + rest[start..i])
      invariant forall k :: start <= k < i ==> !IsOption(rest[k])
    {
      o' := o'.(files := o'.files + [rest[i]]);
      i := i + 1;
    }
    FileRunIs(rest[start..], i - start);
  }

  lemma ParseFilesStep(rest: seq<string>, i: nat, o: Options)
    requires i < |rest| && rest[i] == "--files"
    ensures var n := FileRun(rest[i + 1..]);
      i + 1 + n <= |rest| &&
      ParseFrom(rest[i..], o) == ParseFrom(rest[i + 1 + n..], o.(files := o.files + rest[i + 1..i + 1 + n]))
  {
    var n := FileRun(rest[i + 1..]);
    assert rest[i..][1..] == rest[i + 1..];
    assert rest[i..][1 + n..] == rest[i + 1 + n..];
    assert rest[i..][1..1 + n] == rest[i + 1..i + 1 + n];
  }

  lemma ParseDirStep(rest: seq<string>, i: nat, o: Options)
    requires i < |rest| && rest[i] == "--dir"
    ensures i + 1 < |rest| ==> ParseFrom(rest[i..], o) == ParseFrom(rest[i + 2..], o.(dir := Some(rest[i + 1])))
    ensures i + 1 == |rest| ==> ParseFrom(rest[i..], o) == o.(dir := None)
  {
    if i + 1 < |rest| {
      assert rest[i..][2..] == rest[i + 2..];
    }
  }

  lemma ParseOtherStep(rest: seq<string>, i: nat, o: Options)
    requires i < |rest| && rest[i] != "--files" && rest[i] != "--dir"
    ensures ParseFrom(rest[i..], o) == ParseFrom(rest[i + 1..], o)
  {
    assert rest[i..][1..] == rest[i + 1..];
  }

  lemma ParseDirLast(rest: seq<string>, o: Options)
    ensures ParseFrom(rest[|rest|..], o) == o
  {
    assert rest[|rest|..] == [];
  }

  /** Tokens other than `--files` and `--dir` change nothing. */
  lemma {:induction false} OtherTokensIgnored(ts: seq<string>, o: Options)
    requires forall k :: 0 <= k < |ts| ==> ts[k] != "--files" && ts[k] != "--dir"
    ensures ParseFrom(ts, o) == o
  {
    if ts != [] {
      OtherTokensIgnored(ts[1..], o);
    }
  }

  /** `--files` takes the tokens up to the next option, then `--dir` its value. */
  lemma FilesThenDir()
    ensures ParseFrom(["--files", "a.json", "b.json", "--dir", "x"], NoOptions) == Options(["a.json", "b.json"], Some("x"))
  {
    OptionChars("a.json");
    OptionChars("b.json");
    OptionChars("--dir");
    var t: seq<string> := ["--files", "a.json", "b.json", "--dir", "x"];
    FileRunIs(t[1..], 2);
    assert t[1..3] == ["a.json", "b.json"];
    assert t[3..] == ["--dir", "x"];
    assert ParseFrom(t[3..][2..], Options(["a.json", "b.json"], Some("x"))) == Options(["a.json", "b.json"], Some("x"));
  }

  /** `--dir` takes the next token whatever it is. */
  lemma DirTakesAnyToken()
    ensures ParseFrom(["--dir", "--files", "a.json"], NoOptions) == Options([], Some("--files"))
  {
    var t: seq<string> := ["--dir", "--files", "a.json"];
    assert t[2..] == ["a.json"];
    assert ParseFrom(["a.json"][1..], Options([], Some("--files"))) == Options([], Some("--files"));
  }

  /** An unknown option ends a `--files` run and is skipped with the tokens after it; a later `--files` adds more. */
  lemma FilesAccumulate()
    ensures ParseFrom(["--files", "a.json", "--x", "b.json", "--files", "c.json"], NoOptions) == Options(["a.json", "c.json"], None)
  {
    OptionChars("a.json");
    OptionChars("--x");
    OptionChars("c.json");
    var t: seq<string> := ["--files", "a.json", "--x", "b.json", "--files", "c.json"];
    FileRunIs(t[1..], 1);
    assert t[1..2] == ["a.json"];
    var u := t[2..];
    assert u == ["--x", "b.json", "--files", "c.json"];
    assert u[1..] == ["b.json", "--files", "c.json"];
    assert u[1..][1..] == ["--files", "c.json"];
    var v := u[1..][1..];
    FileRunIs(v[1..], 1);
    assert v[1..2] == ["c.json"];
    assert v[2..] == [];
  }

  /** A trailing `--dir` sets the directory to nothing. */
  lemma TrailingDir()
    ensures ParseFrom(["--dir"], NoOptions) == Options([], None)
  {
  }

  /** Every collected file name is a token that is not an option, and the files come in token order. */
  lemma {:induction false} FilesAreNotOptions(ts: seq<string>, o: Options)
    requires forall k :: 0 <= k < |o.files| ==> !IsOption(o.files[k])
    ensures var r := ParseFrom(ts, o);
      && o.files <= r.files
      && forall k :: 0 <= k < |r.files| ==> !IsOption(r.files[k])
    decreases |ts|
  {
    if ts != [] {
      if ts[0] == "--files" {
        var n := FileRun(ts[1..]);
        FilesAreNotOptions(ts[1 + n..], o.(files := o.files + ts[1..1 + n]));
      } else if ts[0] == "--dir" {
        if |ts| > 1 {
          FilesAreNotOptions(ts[2..], o.(dir := Some(ts[1])));
        }
      } else {
        FilesAreNotOptions(ts[1..], o);
      }
    }
  }

  // ---------------------------------------------------------------------
  // cleanJsonString and readJsonSafe
  // ---------------------------------------------------------------------

  /** Leading characters U+0000 to U+001F removed. */
  function DropControls(s: string): (r: string)
    ensures |r| <= |s| && r == s[|s| - |r|..]
    ensures r == [] || r[0] > '\U{1F}'
  {
    if s != [] && s[0] <= '\U{1F}' then DropControls(s[1..]) else s
  }

  /** `cleanJsonString`. */
  function CleanJsonString(s: string): (r: string)
    ensures |r| <= |s|
    ensures r == [] || (!IsSpace(r[0]) && !IsSpace(r[|r| - 1]))
  {
    TrimEnds(DropControls(DropBom(s)));
    Trim(DropControls(DropBom(s)))
  }

  /** The cleaned text is a piece of the input with no white space at either end. */
  lemma CleanIsSlice(s: string)
    ensures exists i, j :: 0 <= i <= j <= |s| && CleanJsonString(s) == s[i..j]
    ensures var r := CleanJsonString(s); r == [] || (!IsSpace(r[0]) && !IsSpace(r[|r| - 1]))
  {
    var i, j := CleanBounds(s);
    TrimEnds(DropControls(DropBom(s)));
  }

  /** Where the cleaned text sits in the input. */
  lemma CleanBounds(s: string) returns (i: nat, j: nat)
    ensures i <= j <= |s| && CleanJsonString(s) == s[i..j]
  {
    var k := CleanedSuffix(s);
    i, j := TrimBoundsFrom(s, k);
  }

  /** Cleaning trims a suffix of the input. */
  lemma CleanedSuffix(s: string) returns (k: nat)
    ensures k <= |s| && CleanJsonString(s) == Trim(s[k..])
  {
    var a := DropBom(s);
    var b := DropControls(a);
    SuffixOfSuffix(s, a, b);
    k := |s| - |b|;
  }

  lemma SuffixOfSuffix(s: string, a: string, b: string)
    requires |a| <= |s| && a == s[|s| - |a|..]
    requires |b| <= |a| && b == a[|a| - |b|..]
    ensures b == s[|s| - |b|..]
  {
  }

  /** What `readJsonSafe` gives: never an exception, either the data or the error. */
  datatype ReadResult = ReadOk(data: Json) | ReadFailed(message: string)

  /**
   * `readJsonSafe`: `raw` is the file read (or its error), `parse` stands for
   * `JSON.parse` (or its error), applied to the cleaned text.
   */
  function ReadJsonSafe(raw: Result<string, string>, parse: string -> Result<Json, string>): (r: ReadResult)
    ensures r.ReadOk? <==> raw.Ok? && parse(CleanJsonString(raw.value)).Ok?
    ensures r.ReadOk? ==> r.data == parse(CleanJsonString(raw.value)).value
  {
    if raw.Err? then ReadFailed(raw.error)
    else
      match parse(CleanJsonString(raw.value))
      case Ok(data) => ReadOk(data)
      case Err(e) => ReadFailed(e)
  }

  // ---------------------------------------------------------------------
  // analyzeStructure
  // ---------------------------------------------------------------------

  const MissingList: string := "Champion-Liste fehlt (championSet/champions/data)."
  const MissingUpdated: string := "Feld 'updated' (oder lastUpdated) fehlt."
  const MissingPoints: string := "Gesamt-Mastery-Punkte fehlen/unklar."

  function ChampionSetOf(obj: Json): Option<Json>
  {
    var o := Some(obj);
    Coalesce(Field(o, "championSet"), Coalesce(Field(o, "champions"), Coalesce(Field(o, "data"), Field(o, "list"))))
  }

  function MasteryPointsOf(obj: Json): Option<Json>
  {
    var o := Some(obj);
    Coalesce(Field(o, "masteryPoints"), Coalesce(Field(o, "totalMastery"),
      Coalesce(Field(o, "points"), Field(Field(o, "stats"), "masteryPoints"))))
  }

  function UpdatedOf(obj: Json): Option<Json>
  {
    var o := Some(obj);
    Coalesce(Field(o, "updated"), Coalesce(Field(o, "lastUpdated"), Field(Field(o, "meta"), "updated")))
  }

  /**
   * The reading of `a ?? b ?? c ...`: the first candidate that is neither
   * missing nor null, or the last candidate when all of them are.
   */
  function FirstPresent(cands: seq<Option<Json>>): (r: Option<Json>)
    ensures Nullish(r) <==> forall k :: 0 <= k < |cands| ==> Nullish(cands[k])
    ensures !Nullish(r) ==> exists k :: 0 <= k < |cands| && r == cands[k] && forall m :: 0 <= m < k ==> Nullish(cands[m])
  {
    if cands == [] then None
    else if !Nullish(cands[0]) || |cands| == 1 then cands[0]
    else
      var r := FirstPresent(cands[1..]);
      assert forall k :: 1 <= k < |cands| ==> cands[k] == cands[1..][k - 1];
      r
  }

  /** The three fallback chains, each as the list of places it looks, in the order of the source. */
  lemma FallbackOrder(obj: Json)
    ensures var o := Some(obj);
      ChampionSetOf(obj) == FirstPresent([Field(o, "championSet"), Field(o, "champions"), Field(o, "data"), Field(o, "list")])
    ensures var o := Some(obj);
      MasteryPointsOf(obj) == FirstPresent([Field(o, "masteryPoints"), Field(o, "totalMastery"), Field(o, "points"), Field(Field(o, "stats"), "masteryPoints")])
    ensures var o := Some(obj);
      UpdatedOf(obj) == FirstPresent([Field(o, "updated"), Field(o, "lastUpdated"), Field(Field(o, "meta"), "updated")])
  {
    var o := Some(obj);
    FirstOfFour(Field(o, "championSet"), Field(o, "champions"), Field(o, "data"), Field(o, "list"));
    FirstOfFour(Field(o, "masteryPoints"), Field(o, "totalMastery"), Field(o, "points"), Field(Field(o, "stats"), "masteryPoints"));
    FirstOfThree(Field(o, "updated"), Field(o, "lastUpdated"), Field(Field(o, "meta"), "updated"));
  }

  lemma FirstOfTwo(a: Option<Json>, b: Option<Json>)
    ensures Coalesce(a, b) == FirstPresent([a, b])
  {
    assert [a, b][1..] == [b];
  }

  lemma FirstOfThree(a: Option<Json>, b: Option<Json>, c: Option<Json>)
    ensures Coalesce(a, Coalesce(b, c)) == FirstPresent([a, b, c])
  {
    assert [a, b, c][1..] == [b, c];
    FirstOfTwo(b, c);
  }

  lemma FirstOfFour(a: Option<Json>, b: Option<Json>, c: Option<Json>, d: Option<Json>)
    ensures Coalesce(a, Coalesce(b, Coalesce(c, d))) == FirstPresent([a, b, c, d])
  {
    assert [a, b, c, d][1..] == [b, c, d];
    FirstOfThree(b, c, d);
  }

  /** `Array.isArray(x) ? x.length : (x && typeof x === "object") ? Object.keys(x).length : null`. */
  function ChampionCount(champs: Option<Json>): (n: Option<nat>)
    ensures n.Some? <==> champs.Some? && (champs.value.JArr? || champs.value.JObj?)
  {
    if champs.Some? && champs.value.JArr? then Some(|champs.value.items|)
    else if champs.Some? && champs.value.JObj? then Some(|champs.value.members|)
    else None
  }

  /** `Object.values` of a truthy value that is not an array: an object's values, a string's characters, nothing else. */
  function ValuesOf(champs: Json): seq<Json>
  {
    match champs
    case JArr(items) => items
    case JObj(members) => seq(|members|, i requires 0 <= i < |members| => members[i].1)
    case JStr(s) => seq(|s|, i requires 0 <= i < |s| => JStr([s[i]]))
    case _ => []
  }

  /** One entry's contribution: its `points ?? masteryPoints` when that is a number, else 0. */
  function EntryPoints(c: Json): real
  {
    var p := Coalesce(Field(Some(c), "points"), Field(Some(c), "masteryPoints"));
    if p.Some? && p.value.JNum? then p.value.n else 0.0
  }

  /** The `reduce` over the entries. */
  function SumPoints(vals: seq<Json>): real
  {
    if vals == [] then 0.0 else SumPoints(vals[..|vals| - 1]) + EntryPoints(vals[|vals| - 1])
  }

  /** `masteryPoints ?? computedPoints ?? null`. */
  datatype Points = NoPoints | GivenPoints(value: Json) | ComputedPoints(sum: real)

  datatype Analysis = Analysis(championCount: Option<nat>, masteryPoints: Points, updated: Option<Json>, issues: seq<string>)

  /** The analysis of one parsed file. */
  function Analyze(obj: Json): (a: Analysis)
    ensures a.championCount == ChampionCount(ChampionSetOf(obj))
    ensures a.masteryPoints.NoPoints? <==> MissingPoints in a.issues
    ensures a.updated.Some? <==> MissingUpdated !in a.issues
  {
    var champs := ChampionSetOf(obj);
    var points := MasteryPointsOf(obj);
    var updated := UpdatedOf(obj);
    var computed: Option<real> := if Nullish(points) && Truthy(champs) then Some(SumPoints(ValuesOf(champs.value))) else None;
    var issues :=
      (if !Truthy(champs) then [MissingList] else [])
      + (if Nullish(updated) then [MissingUpdated] else [])
      + (if Nullish(points) && computed.None? then [MissingPoints] else []);
    var shown := if !Nullish(points) then GivenPoints(points.value) else if computed.Some? then ComputedPoints(computed.value) else NoPoints;
    Analysis(ChampionCount(champs), shown, if Nullish(updated) then None else updated, issues)
  }

  /** `analyzeStructure`, pushing the issues one at a time. */
  method AnalyzeStructure(obj: Json) returns (a: Analysis)
    ensures a == Analyze(obj)
  {
    var champs := ChampionSetOf(obj);
    var points := MasteryPointsOf(obj);
    var updated := UpdatedOf(obj);
    var count := ChampionCount(champs);
    var computed: Option<real> := None;
    if Nullish(points) && Truthy(champs) {
      computed := Some(SumPoints(ValuesOf(champs.value)));
    }
    var issues: seq<string> := [];
    if !Truthy(champs) {
      issues := issues + [MissingList];
    }
    if Nullish(updated) {
      issues := issues + [MissingUpdated];
    }
    if Nullish(points) && computed.None? {
      issues := issues + [MissingPoints];
    }
    var shown := if !Nullish(points) then GivenPoints(points.value) else if computed.Some? then ComputedPoints(computed.value) else NoPoints;
    a := Analysis(count, shown, if Nullish(updated) then None else updated, issues);
  }

  /**
   * Each of the three problems is listed exactly when its condition holds,
   * in this order; so there are at most three, and missing points are only
   * reported when the champion list is missing too.
   */
  lemma IssuesExact(obj: Json)
    ensures var a := Analyze(obj);
      && |a.issues| <= 3
      && (MissingList in a.issues <==> !Truthy(ChampionSetOf(obj)))
      && (MissingUpdated in a.issues <==> Nullish(UpdatedOf(obj)))
      && (MissingPoints in a.issues <==> Nullish(MasteryPointsOf(obj)) && !Truthy(ChampionSetOf(obj)))
      && (MissingPoints in a.issues ==> MissingList in a.issues)
      && (forall m :: m in a.issues ==> m in {MissingList, MissingUpdated, MissingPoints})
  {
    assert |MissingList| != |MissingUpdated| && |MissingList| != |MissingPoints| && |MissingUpdated| != |MissingPoints|;
  }

  /** Without an explicit total, a champion list's entries are summed (non-numbers as 0). */
  lemma PointsFallback(obj: Json)
    ensures var a := Analyze(obj);
      && (!Nullish(MasteryPointsOf(obj)) ==> a.masteryPoints == GivenPoints(MasteryPointsOf(obj).value))
      && (Nullish(MasteryPointsOf(obj)) && Truthy(ChampionSetOf(obj)) ==>
            a.masteryPoints == ComputedPoints(SumPoints(ValuesOf(ChampionSetOf(obj).value))))
      && (Nullish(MasteryPointsOf(obj)) && !Truthy(ChampionSetOf(obj)) ==> a.masteryPoints == NoPoints)
  {
  }

  /** Entries that carry no number add nothing to the computed total. */
  lemma {:induction false} SumPointsOfNumbers(vals: seq<Json>)
    requires forall k :: 0 <= k < |vals| ==> EntryPoints(vals[k]) == 0.0
    ensures SumPoints(vals) == 0.0
  {
    if vals != [] {
      SumPointsOfNumbers(vals[..|vals| - 1]);
    }
  }

  // ---------------------------------------------------------------------
  // Targets
  // ---------------------------------------------------------------------

  /** The script directory (`__dirname`); `DATA_DIR` lies beneath it. */
  const ScriptDir := "/app"
  const DataDir := "/app/data"
  const ExcludedFiles: set<string> := {"example.json", "template.json", "accounts.json", "status.json"}

  /** `path.join(dir, name)`, without the normalisation of `..` and duplicate separators. */
  function Join(dir: string, name: string): string
  {
    dir + "/" + name
  }

  predicate IsAbsolute(p: string)
  {
    StartsWith(p, "/")
  }

  /** A directory entry: its name and whether it is a plain file. */
  datatype Entry = Entry(name: string, isFile: bool)

  predicate Listed(e: Entry)
  {
    e.isFile && EndsWith(Lower(e.name), ".json") && e.name !in ExcludedFiles
  }

  /** `listJsonFiles`: files ending in ".json" in any letter case, minus the reserved names, in directory order. */
  function ListJsonFiles(dir: string, entries: seq<Entry>): (paths: seq<string>)
    ensures |paths| <= |entries|
    ensures forall p :: p in paths <==> exists e :: e in entries && Listed(e) && p == Join(dir, e.name)
  {
    if entries == [] then []
    else (if Listed(entries[0]) then [Join(dir, entries[0].name)] else []) + ListJsonFiles(dir, entries[1..])
  }

  /** The listing keeps directory order: it distributes over concatenated entry lists. */
  lemma {:induction false} ListJsonFilesAppend(dir: string, a: seq<Entry>, b: seq<Entry>)
    ensures ListJsonFiles(dir, a + b) == ListJsonFiles(dir, a) + ListJsonFiles(dir, b)
  {
    if a != [] {
      assert (a + b)[0] == a[0] && (a + b)[1..] == a[1..] + b;
      ListJsonFilesAppend(dir, a[1..], b);
    } else {
      assert a + b == b;
    }
  }

  /**
   * `resolveTargets`: `--files`, else the configured account names (the
   * `ACCOUNTS` list, empty as shipped), else the listing of `--dir` (or the
   * data directory).
   */
  function ResolveTargets(o: Options, accounts: seq<string>, listing: string -> seq<Entry>): (targets: seq<string>)
    ensures o.files != [] ==> |targets| == |o.files|
    ensures o.files != [] ==> forall k :: 0 <= k < |targets| ==>
      targets[k] == if IsAbsolute(o.files[k]) then o.files[k] else Join(ScriptDir, o.files[k])
    ensures o.files == [] && accounts != [] ==> |targets| == |accounts| && forall k :: 0 <= k < |targets| ==>
      targets[k] == Join(DataDir, accounts[k] + ".json")
  {
    if o.files != [] then
      seq(|o.files|, k requires 0 <= k < |o.files| => if IsAbsolute(o.files[k]) then o.files[k] else Join(ScriptDir, o.files[k]))
    else if accounts != [] then
      seq(|accounts|, k requires 0 <= k < |accounts| => Join(DataDir, accounts[k] + ".json"))
    else
      var dir := if o.dir.Some? && o.dir.value != "" then (if IsAbsolute(o.dir.value) then o.dir.value else Join(ScriptDir, o.dir.value)) else DataDir;
      ListJsonFiles(dir, listing(dir))
  }

  /** Without `--files`, the targets are the listed files of the chosen directory. */
  lemma TargetsFromListing(o: Options, listing: string -> seq<Entry>)
    requires o.files == []
    ensures o.dir.None? ==> ResolveTargets(o, [], listing) == ListJsonFiles(DataDir, listing(DataDir))
    ensures forall p :: p in ResolveTargets(o, [], listing) ==> EndsWith(Lower(p), ".json")
  {
    var dir := if o.dir.Some? && o.dir.value != "" then (if IsAbsolute(o.dir.value) then o.dir.value else Join(ScriptDir, o.dir.value)) else DataDir;
    forall p | p in ResolveTargets(o, [], listing) ensures EndsWith(Lower(p), ".json") {
      var e :| e in listing(dir) && Listed(e) && p == Join(dir, e.name);
      JoinKeepsJsonEnding(dir, e.name);
    }
  }

  lemma JoinKeepsJsonEnding(dir: string, name: string)
    requires EndsWith(Lower(name), ".json")
    ensures EndsWith(Lower(Join(dir, name)), ".json")
  {
    LowerConcat(dir + "/", name);
    var l := Lower(Join(dir, name));
    assert l == Lower(dir + "/") + Lower(name);
    assert l[|l| - 5..] == Lower(name)[|Lower(name)| - 5..];
  }

  // ---------------------------------------------------------------------
  // main
  // ---------------------------------------------------------------------

  /** The last path segment, with a ".json" ending taken off (`path.basename(p, ".json")`). */
  function Label(p: string): (l: string)
    ensures |l| <= |p|
    ensures '/' !in l
  {
    var name := LastSegment(DropTrailingSlashes(p));
    if EndsWith(name, ".json") && |name| > 5 then name[..|name| - 5] else name
  }

  /** `basename` ignores separators at the end of the path. */
  function DropTrailingSlashes(p: string): (r: string)
    ensures |r| <= |p| && r == p[..|r|]
    ensures r == [] || r[|r| - 1] != '/'
    ensures forall i :: |r| <= i < |p| ==> p[i] == '/'
  {
    if p != [] && p[|p| - 1] == '/' then DropTrailingSlashes(p[..|p| - 1]) else p
  }

  /** The text after the last '/'. */
  function LastSegment(p: string): (r: string)
    ensures |r| <= |p| && r == p[|p| - |r|..]
    ensures '/' !in r
    ensures |r| < |p| ==> p[|p| - |r| - 1] == '/'
  {
    if p == [] then []
    else if p[|p| - 1] == '/' then []
    else
      var r := LastSegment(p[..|p| - 1]);
      assert p[..|p| - 1][|p| - 1 - |r|..] + [p[|p| - 1]] == p[|p| - 1 - |r|..];
      r + [p[|p| - 1]]
  }

  /** A file joined to a directory is labelled by its own name, with or without trailing separators. */
  lemma LabelOfJoined(dir: string, name: string, slashes: nat)
    requires name != [] && '/' !in name
    ensures Label(dir + "/" + name + seq(slashes, _ => '/')) == Label(name)
  {
    var q := dir + "/" + name;
    var p := q + seq(slashes, _ => '/');
    assert q == p[..|q|];
    DropsTo(p, q);
    DropsTo(name, name);
    LastSegmentIs(q, name);
    LastSegmentIs(name, name);
  }

  /** `q` is `p` without its trailing separators when only separators follow `q` and `q` does not end in one. */
  lemma DropsTo(p: string, q: string)
    requires |q| <= |p| && q == p[..|q|] && q != [] && q[|q| - 1] != '/'
    requires forall i :: |q| <= i < |p| ==> p[i] == '/'
    ensures DropTrailingSlashes(p) == q
  {
  }

  /** A name without separators at the end of a path is its last segment. */
  lemma LastSegmentIs(p: string, name: string)
    requires name != [] && '/' !in name
    requires |name| <= |p| && p[|p| - |name|..] == name && (|name| < |p| ==> p[|p| - |name| - 1] == '/')
    ensures LastSegment(p) == name
  {
  }

  /** One printed line. */
  datatype FileRow = FileRow(idx: nat, name: string, ok: bool, analysis: Analysis)

  /** The row for the `i`-th target (counted from 0; printed from 1). */
  function RowFor(i: nat, path: string, read: ReadResult): (row: FileRow)
    ensures row.ok <==> read.ReadOk? && Analyze(read.data).issues == []
  {
    match read
    case ReadFailed(message) => FileRow(i + 1, Label(path), false, Analysis(None, NoPoints, None, ["Lesefehler: " + message]))
    case ReadOk(data) =>
      var a := Analyze(data);
      FileRow(i + 1, Label(path), a.issues == [], a)
  }

  function OkCount(rows: seq<FileRow>): (n: nat)
    ensures n <= |rows|
  {
    if rows == [] then 0 else OkCount(rows[..|rows| - 1]) + (if rows[|rows| - 1].ok then 1 else 0)
  }

  /** The outcome of a run: the rows and the exit code (2: no targets, 1: some file failed, 0: all fine). */
  datatype Summary = Summary(rows: seq<FileRow>, okCount: nat, errCount: nat, exitCode: nat)

  /** The loop of `main` over the targets; `read` stands for `readJsonSafe` of each path. */
  method CheckFiles(targets: seq<string>, read: string -> ReadResult) returns (s: Summary)
    ensures targets == [] ==> s == Summary([], 0, 0, 2)
    ensures targets != [] ==> |s.rows| == |targets|
    ensures targets != [] ==> forall k :: 0 <= k < |targets| ==> s.rows[k] == RowFor(k, targets[k], read(targets[k]))
    ensures s.okCount == OkCount(s.rows) && s.okCount + s.errCount == |targets|
    ensures targets != [] ==> (s.exitCode == 1 <==> s.errCount > 0) && (s.exitCode == 0 <==> s.errCount == 0)
  {
    if targets == [] {
      return Summary([], 0, 0, 2);
    }
    var rows: seq<FileRow> := [];
    var okCount, errCount := 0, 0;
    var i := 0;
    while i < |targets|
      invariant 0 <= i <= |targets|
      invariant |rows| == i
      invariant forall k {:trigger rows[k]} :: 0 <= k < i ==> rows[k] == RowFor(k, targets[k], read(targets[k]))
      invariant okCount == OkCount(rows) && okCount + errCount == i
    {
      var row := RowFor(i, targets[i], read(targets[i]));
      assert (rows + [row])[..i] == rows;
      rows := rows + [row];
      if row.ok {
        okCount := okCount + 1;
      } else {
        errCount := errCount + 1;
      }
      i := i + 1;
    }
    s := Summary(rows, okCount, errCount, if errCount > 0 then 1 else 0);
  }
}
