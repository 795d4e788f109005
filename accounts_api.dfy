/**
 * The `/api/accounts` route of app.js and of backend/app.js, which hold the
 * same computation: one row per account file of the data directory, read
 * leniently, and a summary of the rows.
 */
module AccountsApi {
  import opened Base

  /** `EXCLUDE`: names that are never account files. */
  const Excluded: set<string> := {"example.json", "template.json", "accounts.json", "status.json"}

  /** The filter of `listAccountFiles`: a ".json" ending in any letter case and not a reserved name. */
  predicate IsAccountFile(f: string)
  {
    EndsWith(Lower(f), ".json") && f !in Excluded
  }

  function Filter(names: seq<string>): (files: seq<string>)
    ensures |files| <= |names|
  {
    if names == [] then []
    else Filter(names[..|names| - 1]) + (if IsAccountFile(names[|names| - 1]) then [names[|names| - 1]] else [])
  }

  /** `listAccountFiles`: `listing` is the directory read, `None` when reading it failed. */
  function AccountFiles(listing: Option<seq<string>>): (files: seq<string>)
    ensures listing.None? ==> files == []
  {
    if listing.None? then [] else Filter(listing.value)
  }

  /** Exactly the account files of the listing are kept. */
  lemma {:induction false} FilterMembers(names: seq<string>)
    ensures forall f :: f in Filter(names) <==> f in names && IsAccountFile(f)
  {
    if names != [] {
      var init := names[..|names| - 1];
      FilterMembers(init);
      assert names == init + [names[|names| - 1]];
    }
  }

  /** Filtering keeps the directory order: it distributes over concatenation. */
  lemma {:induction false} FilterAppend(a: seq<string>, b: seq<string>)
    ensures Filter(a + b) == Filter(a) + Filter(b)
    decreases |b|
  {
    if b == [] {
      assert a + b == a;
    } else {
      var init := b[..|b| - 1];
      FilterAppend(a, init);
      assert (a + b)[..|a + b| - 1] == a + init;
    }
  }

  /** `path.basename(path.join(DATA_DIR, f), ".json")`: the name without a ".json" ending (in that letter case). */
  function AccountName(f: string): (name: string)
    ensures name == f || (EndsWith(f, ".json") && f == name + ".json" && name != [])
  {
    if EndsWith(f, ".json") && |f| > 5 then f[..|f| - 5] else f
  }

  /**
   * `safeReadJson(fp) || {}`: `raw` is the file read (or its failure) and
   * `parse` stands for `JSON.parse` (`None` when it throws). A falsy result
   * becomes the empty object too.
   */
  function DataOf(raw: Result<string, string>, parse: string -> Option<Json>): (data: Json)
    ensures data == JObj([]) || (raw.Ok? && parse(DropBom(raw.value)) == Some(data) && Truthy(Some(data)))
    ensures raw.Ok? && Truthy(parse(DropBom(raw.value))) ==> data == parse(DropBom(raw.value)).value
  {
    if raw.Err? then JObj([])
    else
      var p := parse(DropBom(raw.value));
      if Truthy(p) then p.value else JObj([])
  }

  /** One entry of `accounts`. */
  datatype AccountRow = AccountRow(name: string, champs: nat, points: Number, updated: Json)

  const NoUpdate: Json := JStr("-")

  /** The row of one file from its data. */
  function RowOf(f: string, data: Json): (row: AccountRow)
    ensures row.name == AccountName(f)
    ensures var cs := Field(Some(data), "championSet");
      (cs.Some? && cs.value.JArr? ==> row.champs == |cs.value.items|) &&
      (!(cs.Some? && cs.value.JArr?) ==> row.champs == 0)
    ensures !Truthy(Field(Some(data), "masteryPoints")) ==> row.points == Num(0.0)
    ensures Truthy(Field(Some(data), "masteryPoints")) ==> row.points == NumberOfJson(Field(Some(data), "masteryPoints").value)
    ensures Truthy(Field(Some(data), "updated")) ==> Some(row.updated) == Field(Some(data), "updated")
    ensures !Truthy(Field(Some(data), "updated")) ==> row.updated == NoUpdate
  {
    var cs := Field(Some(data), "championSet");
    var mp := Field(Some(data), "masteryPoints");
    var up := Field(Some(data), "updated");
    AccountRow(
      AccountName(f),
      if cs.Some? && cs.value.JArr? then |cs.value.items| else 0,
      if Truthy(mp) then NumberOfJson(mp.value) else Num(0.0),
      if Truthy(up) then up.value else NoUpdate)
  }

  /** A file that cannot be read or parsed counts as an empty account. */
  lemma UnreadableRow(f: string, raw: Result<string, string>, parse: string -> Option<Json>)
    requires raw.Err? || parse(DropBom(raw.value)).None?
    ensures RowOf(f, DataOf(raw, parse)) == AccountRow(AccountName(f), 0, Num(0.0), NoUpdate)
  {
  }

  /** `files.map(...)`: `read` gives each file's contents (or the failure). */
  function Rows(files: seq<string>, read: string -> Result<string, string>, parse: string -> Option<Json>): (rows: seq<AccountRow>)
    ensures |rows| == |files|
    ensures forall k :: 0 <= k < |files| ==> rows[k] == RowOf(files[k], DataOf(read(files[k]), parse))
  {
    seq(|files|, k requires 0 <= k < |files| => RowOf(files[k], DataOf(read(files[k]), parse)))
  }

  /** JavaScript `+` on numbers: NaN absorbs. */
  function Plus(a: Number, b: Number): (r: Number)
    ensures r.NaN? <==> a.NaN? || b.NaN?
  {
    if a.NaN? || b.NaN? then NaN else Num(a.value + b.value)
  }

  /** `accounts.reduce((s, a) => s + a.points, 0)`. */
  function TotalPoints(rows: seq<AccountRow>): (t: Number)
    ensures t.NaN? <==> exists k :: 0 <= k < |rows| && rows[k].points.NaN?
  {
    if rows == [] then Num(0.0)
    else
      var t := Plus(TotalPoints(rows[..|rows| - 1]), rows[|rows| - 1].points);
      assert forall k :: 0 <= k < |rows| - 1 ==> rows[..|rows| - 1][k] == rows[k];
      t
  }

  /** `accounts.reduce((s, a) => s + a.champs, 0)`. */
  function TotalChamps(rows: seq<AccountRow>): nat
  {
    if rows == [] then 0 else TotalChamps(rows[..|rows| - 1]) + rows[|rows| - 1].champs
  }

  datatype Summary = Summary(count: nat, totalPoints: Number, avgPoints: Number, totalChamps: nat)

  /** `Math.round(totalPoints / count)`, and 0 without accounts. */
  function Average(total: Number, count: nat): (avg: Number)
    ensures count == 0 ==> avg == Num(0.0)
    ensures count > 0 ==> (avg.NaN? <==> total.NaN?)
    ensures count > 0 && total.Num? ==>
      (avg.value.Floor as real == avg.value && avg.value - 0.5 <= total.value / count as real < avg.value + 0.5)
  {
    if count == 0 then Num(0.0)
    else if total.NaN? then NaN
    else Num(Round(total.value / count as real) as real)
  }

  /** The `summary` object. */
  function Summarize(rows: seq<AccountRow>): (s: Summary)
    ensures s.count == |rows|
    ensures rows == [] ==> s == Summary(0, Num(0.0), Num(0.0), 0)
  {
    var total := TotalPoints(rows);
    Summary(|rows|, total, Average(total, |rows|), TotalChamps(rows))
  }

  /** The response of `/api/accounts`. */
  datatype AccountsResponse = AccountsResponse(accounts: seq<AccountRow>, summary: Summary)

  function AccountsRoute(listing: Option<seq<string>>, read: string -> Result<string, string>, parse: string -> Option<Json>): (r: AccountsResponse)
    ensures |r.accounts| == |AccountFiles(listing)| == r.summary.count
    ensures listing.None? ==> r == AccountsResponse([], Summary(0, Num(0.0), Num(0.0), 0))
  {
    var rows := Rows(AccountFiles(listing), read, parse);
    AccountsResponse(rows, Summarize(rows))
  }

  /** The sums split over any division of the rows, so they do not depend on how the rows are grouped. */
  lemma {:induction false} TotalsAppend(a: seq<AccountRow>, b: seq<AccountRow>)
    ensures TotalChamps(a + b) == TotalChamps(a) + TotalChamps(b)
    ensures TotalPoints(a + b) == Plus(TotalPoints(a), TotalPoints(b))
    decreases |b|
  {
    if b == [] {
      assert a + b == a;
    } else {
      var init := b[..|b| - 1];
      TotalsAppend(a, init);
      assert (a + b)[..|a + b| - 1] == a + init;
    }
  }

  /** Every account's points are a number between `lo` and `hi`. */
  predicate PointsWithin(rows: seq<AccountRow>, lo: real, hi: real)
  {
    forall k :: 0 <= k < |rows| ==> rows[k].points.Num? && lo <= rows[k].points.value <= hi
  }

  lemma {:induction false} TotalBounds(rows: seq<AccountRow>, lo: real, hi: real)
    requires PointsWithin(rows, lo, hi)
    ensures TotalPoints(rows).Num?
    ensures lo * |rows| as real <= TotalPoints(rows).value <= hi * |rows| as real
  {
    if rows != [] {
      var init := rows[..|rows| - 1];
      assert PointsWithin(init, lo, hi) by {
        forall k | 0 <= k < |init| ensures init[k] == rows[k] { }
      }
      TotalBounds(init, lo, hi);
      assert lo * |rows| as real == lo * |init| as real + lo;
      assert hi * |rows| as real == hi * |init| as real + hi;
    }
  }

  lemma RoundMonotone(x: real, y: real)
    requires x <= y
    ensures Round(x) <= Round(y)
  {
  }

  lemma QuotientBounds(t: real, n: real, lo: real, hi: real)
    requires n > 0.0 && lo * n <= t <= hi * n
    ensures lo <= t / n <= hi
  {
    assert t / n - lo == (t - lo * n) / n;
    assert hi - t / n == (hi * n - t) / n;
  }

  lemma AverageOfBounded(t: real, count: nat, lo: real, hi: real)
    requires count > 0 && lo * count as real <= t <= hi * count as real
    ensures Average(Num(t), count).Num? && Round(lo) as real <= Average(Num(t), count).value <= Round(hi) as real
  {
    var n := count as real;
    QuotientBounds(t, n, lo, hi);
    RoundMonotone(lo, t / n);
    RoundMonotone(t / n, hi);
  }

  /** The average lies between the rounded least and greatest points. */
  lemma AverageBounds(rows: seq<AccountRow>, lo: real, hi: real)
    requires rows != [] && PointsWithin(rows, lo, hi)
    ensures var avg := Summarize(rows).avgPoints;
      avg.Num? && Round(lo) as real <= avg.value <= Round(hi) as real
  {
    var total := TotalPoints(rows);
    assert total.Num? && lo * |rows| as real <= total.value <= hi * |rows| as real by {
      TotalBounds(rows, lo, hi);
    }
    assert Summarize(rows).avgPoints == Average(Num(total.value), |rows|);
    AverageOfBounded(total.value, |rows|, lo, hi);
  }
}
