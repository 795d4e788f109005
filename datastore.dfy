/**
 * The mastery record store of datastore.js: a list of records kept in one
 * JSON file. Every change reads the whole list, edits it and writes it back.
 * `Store.file` is what the file holds; `Store.writes` counts the rewrites.
 */
module Datastore {
  import opened Base
  import opened Tally
  import opened Sorting

  /** One stored record. `mastery` is whatever the file holds for it. */
  datatype Record = Record(account: string, champion: string, mastery: Json, updatedAt: string)

  /** The state of the data file as `readAll` finds it. */
  datatype StoreFile =
    | Missing
    | Unparsable
    | NotAList(value: Json)
    | Records(list: seq<Record>)

  const InvalidRecord: string := "Record invalid: \"account\" und \"champion\" sind Pflichtfelder."

  /** `readAll`: every failure to read a list gives the empty list. */
  function ReadAll(f: StoreFile): (list: seq<Record>)
    ensures !f.Records? ==> list == []
  {
    if f.Records? then f.list else []
  }

  /**
   * `normalizeRecord`: trimmed account and champion, both required; a mastery
   * that is a non-negative number is rounded down, anything else becomes 0.
   * `now` is the time stamp `new Date().toISOString()` would give.
   */
  function NormalizeRecord(account: string, champion: string, mastery: Number, now: string): (r: Result<Record, string>)
    ensures r.Err? <==> Trim(account) == [] || Trim(champion) == []
    ensures r.Err? ==> r.error == InvalidRecord
    ensures r.Ok? ==> r.value.account == Trim(account) && r.value.champion == Trim(champion) && r.value.updatedAt == now
    ensures r.Ok? ==> r.value.mastery.JNum? && 0.0 <= r.value.mastery.n
    ensures r.Ok? ==> r.value.mastery.n == r.value.mastery.n.Floor as real
    ensures r.Ok? && mastery.Num? && mastery.value >= 0.0 ==>
      r.value.mastery.n <= mastery.value < r.value.mastery.n + 1.0
    ensures r.Ok? && !(mastery.Num? && mastery.value >= 0.0) ==> r.value.mastery == JNum(0.0)
  {
    var a, c := Trim(account), Trim(champion);
    var m: int := if mastery.Num? && mastery.value >= 0.0 then mastery.value.Floor else 0;
    if a == [] || c == [] then Err(InvalidRecord)
    else Ok(Record(a, c, JNum(m as real), now))
  }

  /** `keyOf`: account and champion joined by "::", lower-cased. */
  function KeyOf(r: Record): (k: string)
    ensures |k| == |r.account| + 2 + |r.champion|
    ensures Lower(k) == k
  {
    LowerIdempotent(r.account + "::" + r.champion);
    Lower(r.account + "::" + r.champion)
  }

  /** Keys ignore letter case. */
  lemma KeyIgnoresCase(r: Record)
    ensures KeyOf(r) == KeyOf(r.(account := Lower(r.account), champion := Lower(r.champion)))
  {
    var a, c := r.account, r.champion;
    assert Lower("::") == "::";
    LowerConcat(a + "::", c);
    LowerConcat(a, "::");
    LowerConcat(Lower(a) + "::", Lower(c));
    LowerConcat(Lower(a), "::");
    LowerIdempotent(a);
    LowerIdempotent(c);
  }

  /** The key is not injective: a colon can move between account and champion. */
  lemma KeyCollision()
    ensures KeyOf(Record("a", ":b", JNull, "")) == KeyOf(Record("a:", "b", JNull, ""))
  {
    assert "a" + "::" + ":b" == "a:" + "::" + "b";
  }

  /** Index of the first record with key `key`, or `|list|` (`findIndex` gives -1 there). */
  function FindKey(list: seq<Record>, key: string): (i: nat)
    ensures i <= |list|
    ensures i < |list| ==> KeyOf(list[i]) == key
    ensures forall j :: 0 <= j < i ==> KeyOf(list[j]) != key
  {
    if list == [] then 0 else if KeyOf(list[0]) == key then 0 else 1 + FindKey(list[1..], key)
  }

  /** The list `upsert` writes back. */
  function Upserted(list: seq<Record>, rec: Record): (r: seq<Record>)
    ensures |r| == |list| || |r| == |list| + 1
    ensures |r| == |list| + 1 <==> forall x :: x in list ==> KeyOf(x) != KeyOf(rec)
    ensures forall i :: 0 <= i < |list| && i != FindKey(list, KeyOf(rec)) ==> r[i] == list[i]
    ensures r[FindKey(list, KeyOf(rec))] == rec
  {
    var i := FindKey(list, KeyOf(rec));
    if i < |list| then list[i := rec] else list + [rec]
  }

  /** The records of `list` whose key differs from `key`, in order (`filter`). */
  function WithoutKey(list: seq<Record>, key: string): (r: seq<Record>)
    ensures |r| <= |list|
    ensures forall x :: x in r ==> x in list && KeyOf(x) != key
  {
    if list == [] then []
    else (if KeyOf(list[0]) == key then [] else [list[0]]) + WithoutKey(list[1..], key)
  }

  /** `String(x).toLowerCase() === a` on the account (no trimming). */
  predicate AccountIs(r: Record, account: string)
  {
    Lower(r.account) == Lower(account)
  }

  /** `get`: the first record matching account and champion without regard to case. */
  function Get(f: StoreFile, account: string, champion: string): (r: Option<Record>)
    ensures r.Some? ==> exists i :: FirstMatchAt(ReadAll(f), i, account, champion) && ReadAll(f)[i] == r.value
    ensures r.None? ==> forall x :: x in ReadAll(f) ==> !Matches(x, account, champion)
  {
    FirstMatch(ReadAll(f), account, champion)
  }

  /** The `find` predicate of `get`: account and champion equal without regard to case. */
  predicate Matches(x: Record, account: string, champion: string)
  {
    AccountIs(x, account) && Lower(x.champion) == Lower(champion)
  }

  /** `list[i]` matches and no record before it does. */
  predicate FirstMatchAt(list: seq<Record>, i: int, account: string, champion: string)
  {
    0 <= i < |list| && Matches(list[i], account, champion) &&
    forall j :: 0 <= j < i ==> !Matches(list[j], account, champion)
  }

  function FirstMatch(list: seq<Record>, account: string, champion: string): (r: Option<Record>)
    ensures r.Some? ==> exists i :: FirstMatchAt(list, i, account, champion) && list[i] == r.value
    ensures r.None? ==> forall x :: x in list ==> !Matches(x, account, champion)
  {
    if list == [] then None
    else if Matches(list[0], account, champion) then
      assert FirstMatchAt(list, 0, account, champion);
      Some(list[0])
    else
      FirstMatchTail(list, account, champion);
      FirstMatch(list[1..], account, champion)
  }

  /** Past a first record that does not match, the first match moves up by one place. */
  lemma FirstMatchTail(list: seq<Record>, account: string, champion: string)
    requires list != [] && !Matches(list[0], account, champion)
    ensures forall i :: FirstMatchAt(list[1..], i, account, champion) ==>
      FirstMatchAt(list, i + 1, account, champion) && list[i + 1] == list[1..][i]
  {
    forall i | FirstMatchAt(list[1..], i, account, champion)
      ensures FirstMatchAt(list, i + 1, account, champion)
    {
      forall j | 0 <= j < i + 1 ensures !Matches(list[j], account, champion) {
        if j > 0 { assert list[j] == list[1..][j - 1]; }
      }
    }
  }

  /** `listByAccount`: the records of one account, in file order. */
  function ListByAccount(f: StoreFile, account: string): (r: seq<Record>)
    ensures |r| <= |ReadAll(f)|
    ensures forall x :: x in r ==> x in ReadAll(f) && Lower(x.account) == Lower(account)
  {
    AccountFilter(ReadAll(f), account)
  }

  function AccountFilter(list: seq<Record>, account: string): (r: seq<Record>)
    ensures |r| <= |list|
    ensures forall x :: x in r ==> x in list && AccountIs(x, account)
  {
    if list == [] then []
    else (if AccountIs(list[0], account) then [list[0]] else []) + AccountFilter(list[1..], account)
  }

  /** A record is listed exactly when it is in the file and belongs to the account. */
  lemma {:induction false} ListByAccountMembers(list: seq<Record>, account: string, x: Record)
    ensures x in AccountFilter(list, account) <==> x in list && AccountIs(x, account)
  {
    if list != [] {
      ListByAccountMembers(list[1..], account, x);
      assert list == [list[0]] + list[1..];
    }
  }

  /** Filtering keeps the file order: the listing is a subsequence of the file. */
  lemma {:induction false} ListByAccountOrder(list: seq<Record>, account: string)
    ensures IsSubsequence(AccountFilter(list, account), list)
  {
    if list != [] {
      ListByAccountOrder(list[1..], account);
      SubsequenceCons(AccountFilter(list[1..], account), list[1..], list[0], AccountIs(list[0], account));
    }
  }

  /** `xs` is `ys` with some elements left out, order kept. */
  predicate IsSubsequence<T(==)>(xs: seq<T>, ys: seq<T>)
    decreases |ys|
  {
    if ys == [] then xs == []
    else (xs != [] && xs[0] == ys[0] && IsSubsequence(xs[1..], ys[1..])) || IsSubsequence(xs, ys[1..])
  }

  lemma SubsequenceCons<T>(xs: seq<T>, ys: seq<T>, y: T, keep: bool)
    requires IsSubsequence(xs, ys)
    ensures IsSubsequence((if keep then [y] else []) + xs, [y] + ys)
  {
    assert ([y] + ys)[1..] == ys;
    if keep {
      assert ([y] + xs)[1..] == xs;
    } else {
      assert [] + xs == xs;
    }
  }

  /** `Number(r.mastery) || 0`: the stored value as a number, NaN counting as 0. */
  function MasteryValue(j: Json): (v: real)
    ensures j.JNum? ==> v == j.n
    ensures NumberOfJson(j).NaN? ==> v == 0.0
  {
    var n := NumberOfJson(j);
    if n.Num? then n.value else 0.0
  }

  /** The (champion, mastery) pairs the loop of `totalsByChampion` adds up. */
  function MasteryPairs(list: seq<Record>): (pairs: seq<(string, real)>)
    ensures |pairs| == |list|
  {
    if list == [] then [] else MasteryPairs(list[..|list| - 1]) + [(list[|list| - 1].champion, MasteryValue(list[|list| - 1].mastery))]
  }

  lemma MasteryPairsStep(list: seq<Record>, i: nat)
    requires i < |list|
    ensures MasteryPairs(list[..i + 1]) == MasteryPairs(list[..i]) + [(list[i].champion, MasteryValue(list[i].mastery))]
  {
    assert list[..i + 1][..i] == list[..i];
  }

  /**
   * `totalsByChampion`: per-champion sums, largest first; each bucket is one
   * `{ champion: key, mastery: total }` entry.
   */
  function TotalsByChampion(f: StoreFile): (r: seq<Bucket<string>>)
    ensures forall i, j :: 0 <= i < j < |r| ==> r[i].total >= r[j].total
    ensures ReadAll(f) == [] ==> r == []
  {
    RankedSorted(MasteryPairs(ReadAll(f)));
    Ranked(MasteryPairs(ReadAll(f)))
  }

  /**
   * Each champion is listed once, with the sum over its records; champion names
   * are compared exactly; the list is sorted largest first and names exactly
   * the champions that have a record.
   */
  lemma TotalsByChampionSpec(f: StoreFile, champion: string)
    ensures var r := TotalsByChampion(f);
      && (forall i, j :: 0 <= i < j < |r| ==> r[i].total >= r[j].total && r[i].key != r[j].key)
      && (forall b :: b in r ==> b.total == SumFor(MasteryPairs(ReadAll(f)), b.key))
      && ((exists b :: b in r && b.key == champion) <==> exists x :: x in ReadAll(f) && x.champion == champion)
  {
    var pairs := MasteryPairs(ReadAll(f));
    var r := TotalsByChampion(f);
    RankedSorted(pairs);
    forall i, j | 0 <= i < j < |r| ensures r[i].key != r[j].key {
      RankedDistinct(pairs, i, j);
    }
    forall b | b in r ensures b.total == SumFor(pairs, b.key) {
      RankedTotals(pairs, b);
    }
    RankedKeys(pairs, champion);
    PairKeysOfRecords(ReadAll(f), champion);
  }

  lemma {:induction false} PairKeysOfRecords(list: seq<Record>, champion: string)
    ensures champion in PairKeys(MasteryPairs(list)) <==> exists x :: x in list && x.champion == champion
  {
    if list != [] {
      var init, last := list[..|list| - 1], list[|list| - 1];
      PairKeysOfRecords(init, champion);
      assert PairKeys(MasteryPairs(list)) == PairKeys(MasteryPairs(init)) + [last.champion];
      assert list == init + [last];
      if exists x :: x in list && x.champion == champion {
        var x :| x in list && x.champion == champion;
        if x != last {
          assert x in init;
        }
      }
    }
  }

  /** Upserting the same record twice is upserting it once. */
  lemma UpsertIdempotent(list: seq<Record>, rec: Record)
    ensures Upserted(Upserted(list, rec), rec) == Upserted(list, rec)
  {
    var key := KeyOf(rec);
    var i := FindKey(list, key);
    var once := Upserted(list, rec);
    assert once[i] == rec;
    assert forall j :: 0 <= j < i ==> once[j] == list[j];
    assert FindKey(once, key) == i;
  }

  /** `remove` drops exactly the records carrying the key. */
  lemma {:induction false} WithoutKeyExact(list: seq<Record>, key: string, x: Record)
    ensures x in WithoutKey(list, key) <==> x in list && KeyOf(x) != key
    ensures IsSubsequence(WithoutKey(list, key), list)
    ensures |WithoutKey(list, key)| == |list| <==> forall y :: y in list ==> KeyOf(y) != key
  {
    if list != [] {
      WithoutKeyExact(list[1..], key, x);
      assert list == [list[0]] + list[1..];
      SubsequenceCons(WithoutKey(list[1..], key), list[1..], list[0], KeyOf(list[0]) != key);
      if KeyOf(list[0]) == key {
        assert list[0] in list;
      }
    }
  }

  class Store {
    var file: StoreFile
    var writes: nat

    constructor (f: StoreFile)
      ensures file == f && writes == 0
    {
      file := f;
      writes := 0;
    }

    /** `writeAll`: the file now holds the list. */
    method WriteAll(list: seq<Record>)
      modifies this
      ensures file == Records(list) && writes == old(writes) + 1
    {
      file := Records(list);
      writes := writes + 1;
    }

    /** `upsert`: an invalid record is refused before the file is read. */
    method Upsert(account: string, champion: string, mastery: Number, now: string) returns (r: Result<Record, string>)
      modifies this
      ensures r == NormalizeRecord(account, champion, mastery, now)
      ensures r.Err? ==> file == old(file) && writes == old(writes)
      ensures r.Ok? ==> file == Records(Upserted(ReadAll(old(file)), r.value)) && writes == old(writes) + 1
    {
      r := NormalizeRecord(account, champion, mastery, now);
      if r.Err? {
        return;
      }
      var next := r.value;
      var list := ReadAll(file);
      var idx := FindKey(list, KeyOf(next));
      if idx < |list| {
        list := list[idx := next];
      } else {
        list := list + [next];
      }
      WriteAll(list);
    }

    /**
     * `remove`: the probe goes through `normalizeRecord`, so an empty account or
     * champion is an error; nothing is written when no record matched.
     */
    method Remove(account: string, champion: string, now: string) returns (r: Result<bool, string>)
      modifies this
      ensures r.Err? <==> NormalizeRecord(account, champion, Num(0.0), now).Err?
      ensures r.Err? ==> r.error == InvalidRecord
      ensures r != Ok(true) ==> file == old(file) && writes == old(writes)
      ensures r.Ok? ==>
        var key := KeyOf(NormalizeRecord(account, champion, Num(0.0), now).value);
        var next := WithoutKey(ReadAll(old(file)), key);
        && (r.value <==> |next| < |ReadAll(old(file))|)
        && (r.value ==> file == Records(next) && writes == old(writes) + 1)
    {
      var probe := NormalizeRecord(account, champion, Num(0.0), now);
      if probe.Err? {
        return Err(probe.error);
      }
      var list := ReadAll(file);
      var next := WithoutKey(list, KeyOf(probe.value));
      if |next| == |list| {
        return Ok(false);
      }
      WriteAll(next);
      r := Ok(true);
    }

    /** The loop of `totalsByChampion` over the records, then the sort. */
    method Totals() returns (r: seq<Bucket<string>>)
      ensures r == TotalsByChampion(file)
    {
      var list := ReadAll(file);
      var agg: seq<Bucket<string>> := [];
      var i := 0;
      while i < |list|
        invariant 0 <= i <= |list|
        invariant agg == Accumulate(MasteryPairs(list[..i]))
      {
        var rec := list[i];
        var pair := (rec.champion, MasteryValue(rec.mastery));
        assert Accumulate(MasteryPairs(list[..i + 1])) == Add(agg, pair.0, pair.1) by {
          MasteryPairsStep(list, i);
          TallyStep(MasteryPairs(list[..i]), pair);
        }
        agg := Add(agg, pair.0, pair.1);
        i := i + 1;
      }
      assert list[..i] == list;
      r := Sort(agg, Descending(BucketTotal));
    }
  }
}
