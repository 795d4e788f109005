/**
 * The command line of backend/cli.js: `--key=value` flags, a command word,
 * and one store operation per command. What the commands print is reduced to
 * the data they print (`Report`).
 */
module Cli {
  import opened Base
  import opened Tally
  import opened Datastore

  /** The flags given; `None` is a flag without `=` (its value is `undefined`). */
  type Args = map<string, Option<string>>

  predicate IsFlag(a: string)
  {
    StartsWith(a, "--")
  }

  /**
   * `const [k, v] = a.split('=')` with the leading `--` taken off `k`: the key
   * runs to the first `=`, the value from there to the next `=`.
   */
  function Flag(a: string): (kv: (string, Option<string>))
    requires IsFlag(a)
  {
    var i := IndexOf(a, '=');
    assert a[0] == '-' && a[1] == '-';
    if i == |a| then (a[2..], None)
    else
      var rest := a[i + 1..];
      (a[2..i], Some(rest[..IndexOf(rest, '=')]))
  }

  /** What `parseArgs` builds from the tokens: later flags overwrite earlier ones. */
  function ParsedArgs(tokens: seq<string>): Args
  {
    if tokens == [] then map[]
    else
      var args := ParsedArgs(tokens[..|tokens| - 1]);
      var a := tokens[|tokens| - 1];
      if IsFlag(a) then args[Flag(a).0 := Flag(a).1] else args
  }

  /** The loop of `parseArgs`. */
  method ParseArgs(tokens: seq<string>) returns (args: Args)
    ensures args == ParsedArgs(tokens)
  {
    args := map[];
    var i := 0;
    while i < |tokens|
      invariant 0 <= i <= |tokens|
      invariant args == ParsedArgs(tokens[..i])
    {
      var a := tokens[i];
      assert tokens[..i + 1][..i] == tokens[..i];
      if IsFlag(a) {
        var kv := Flag(a);
        args := args[kv.0 := kv.1];
      }
      i := i + 1;
    }
    assert tokens[..i] == tokens;
  }

  /** A flag `--key`, or `--key=value` followed by anything after a second `=`, reads back as written. */
  lemma FlagParts(key: string, value: string, dropped: string)
    requires '=' !in key && '=' !in value
    ensures Flag("--" + key) == (key, None)
    ensures Flag("--" + key + "=" + value) == (key, Some(value))
    ensures Flag("--" + key + "=" + value + "=" + dropped) == (key, Some(value))
  {
    var a := "--" + key;
    assert IsFlag(a) by { assert a[..2] == "--"; }
    IndexOfAbsent(a, '=');
    assert a[2..] == key;
    FlagWithValue(key, value, []);
    FlagWithValue(key, value, "=" + dropped);
    assert "--" + key + "=" + value + [] == "--" + key + "=" + value;
    assert "--" + key + "=" + value + ("=" + dropped) == "--" + key + "=" + value + "=" + dropped;
  }

  lemma FlagWithValue(key: string, value: string, tail: string)
    requires '=' !in key && '=' !in value
    requires tail == [] || tail[0] == '='
    ensures Flag("--" + key + "=" + value + tail) == (key, Some(value))
  {
    var a := "--" + key + "=" + value + tail;
    assert a[..2] == "--";
    var i := |key| + 2;
    assert a[i] == '=';
    assert forall j :: 0 <= j < i ==> a[j] != '=' by {
      forall j | 0 <= j < i ensures a[j] != '=' {
        if j >= 2 {
          assert a[j] == key[j - 2];
        }
      }
    }
    IndexOfIs(a, '=', i);
    assert a[2..i] == key;
    var rest := a[i + 1..];
    assert rest == value + tail;
    if tail == [] {
      IndexOfAbsent(rest, '=');
    } else {
      assert rest[|value|] == '=';
      IndexOfIs(rest, '=', |value|);
    }
    assert rest[..|value|] == value;
  }

  lemma IndexOfIs(s: string, c: char, i: nat)
    requires i < |s| && s[i] == c
    requires forall j :: 0 <= j < i ==> s[j] != c
    ensures IndexOf(s, c) == i
  {
  }

  lemma IndexOfAbsent(s: string, c: char)
    requires c !in s
    ensures IndexOf(s, c) == |s|
  {
  }

  /** The value of a key is that of the last flag naming it; a key is set only by some flag. */
  lemma {:induction false} LastFlagWins(tokens: seq<string>, key: string)
    ensures key in ParsedArgs(tokens) <==> exists j :: 0 <= j < |tokens| && IsFlag(tokens[j]) && Flag(tokens[j]).0 == key
    ensures forall j ::
      (0 <= j < |tokens| && IsFlag(tokens[j]) && Flag(tokens[j]).0 == key &&
       (forall m :: j < m < |tokens| && IsFlag(tokens[m]) ==> Flag(tokens[m]).0 != key)) ==>
        ParsedArgs(tokens)[key] == Flag(tokens[j]).1
  {
    if tokens != [] {
      var init := tokens[..|tokens| - 1];
      LastFlagWins(init, key);
      assert forall j :: 0 <= j < |init| ==> init[j] == tokens[j];
    }
  }

  /** Tokens that are not flags do not change the arguments. */
  lemma {:induction false} NonFlagsIgnored(a: string, b: string, rest: seq<string>)
    requires !IsFlag(a) && !IsFlag(b)
    ensures ParsedArgs([a] + rest) == ParsedArgs([b] + rest)
  {
    if rest == [] {
      assert ([a] + rest)[..0] == [] && ([b] + rest)[..0] == [];
    } else {
      NonFlagsIgnored(a, b, rest[..|rest| - 1]);
      assert ([a] + rest)[..|rest|] == [a] + rest[..|rest| - 1];
      assert ([b] + rest)[..|rest|] == [b] + rest[..|rest| - 1];
    }
  }

  /** The command word: the first token unless it is a flag; "" when there is none. */
  function Command(tokens: seq<string>): string
  {
    if tokens == [] || IsFlag(tokens[0]) then "" else tokens[0]
  }

  /** `args.k` is truthy: given with a non-empty value. */
  predicate Given(args: Args, k: string)
  {
    k in args && args[k].Some? && args[k].value != ""
  }

  /** What `main` does with the store. */
  datatype Action =
    | ShowHelp
    | ShowTotals
    | ListAccount(account: string)
    | GetRecord(account: string, champion: string)
    | SaveRecord(account: string, champion: string, mastery: Number)
    | RemoveRecord(account: string, champion: string)

  function ActionOf(tokens: seq<string>): (a: Action)
    ensures a.ListAccount? ==> Given(ParsedArgs(tokens), "account") && a.account == ParsedArgs(tokens)["account"].value
    ensures a.GetRecord? || a.RemoveRecord? || a.SaveRecord? ==> Given(ParsedArgs(tokens), "account") && Given(ParsedArgs(tokens), "champion")
    ensures a.SaveRecord? ==> "mastery" in ParsedArgs(tokens) && ParsedArgs(tokens)["mastery"].Some?
    ensures Command(tokens) !in {"totals", "list", "get", "add", "set", "remove"} ==> a == ShowHelp
    ensures Command(tokens) == "totals" ==> a == ShowTotals
    ensures Command(tokens) == "list" ==>
      a == if Given(ParsedArgs(tokens), "account") then ListAccount(ParsedArgs(tokens)["account"].value) else ShowHelp
    ensures Command(tokens) == "get" ==>
      a == if Given(ParsedArgs(tokens), "account") && Given(ParsedArgs(tokens), "champion")
           then GetRecord(ParsedArgs(tokens)["account"].value, ParsedArgs(tokens)["champion"].value) else ShowHelp
    ensures Command(tokens) == "remove" ==>
      a == if Given(ParsedArgs(tokens), "account") && Given(ParsedArgs(tokens), "champion")
           then RemoveRecord(ParsedArgs(tokens)["account"].value, ParsedArgs(tokens)["champion"].value) else ShowHelp
    ensures Command(tokens) in {"add", "set"} ==> a == SaveAction(ParsedArgs(tokens))
  {
    var args := ParsedArgs(tokens);
    match Command(tokens)
    case "totals" => ShowTotals
    case "list" => if Given(args, "account") then ListAccount(args["account"].value) else ShowHelp
    case "get" =>
      if Given(args, "account") && Given(args, "champion") then GetRecord(args["account"].value, args["champion"].value) else ShowHelp
    case "add" => SaveAction(args)
    case "set" => SaveAction(args)
    case "remove" =>
      if Given(args, "account") && Given(args, "champion") then RemoveRecord(args["account"].value, args["champion"].value) else ShowHelp
    case _ => ShowHelp
  }

  /** `add` and `set`: the mastery goes through `Number`. */
  function SaveAction(args: Args): (a: Action)
    ensures a.SaveRecord? <==> Given(args, "account") && Given(args, "champion") && "mastery" in args && args["mastery"].Some?
    ensures a.SaveRecord? ==>
      a.account == args["account"].value && a.champion == args["champion"].value && a.mastery == NumberOf(args["mastery"].value)
    ensures !a.SaveRecord? ==> a == ShowHelp
  {
    if Given(args, "account") && Given(args, "champion") && "mastery" in args && args["mastery"].Some? then
      SaveRecord(args["account"].value, args["champion"].value, NumberOf(args["mastery"].value))
    else ShowHelp
  }

  /** `add` and `set` are the same command. */
  lemma AddIsSet(rest: seq<string>)
    ensures ActionOf(["add"] + rest) == ActionOf(["set"] + rest)
  {
    assert "add"[..2][0] == 'a' && "set"[..2][0] == 's';
    NonFlagsIgnored("add", "set", rest);
  }

  /** What a command shows. */
  datatype Report =
    | HelpText
    | Totals(totals: seq<Bucket<string>>)
    | Listed(account: string, rows: seq<Record>)
    | Found(record: Option<Record>)
    | Saved(saved: Result<Record, string>)
    | Removed(removed: Result<bool, string>)

  /** `main`: one store operation chosen by the command; only `add`, `set` and `remove` may write. */
  method RunCommand(store: Store, tokens: seq<string>, now: string) returns (action: Action, out: Report)
    modifies store
    ensures action == ActionOf(tokens)
    ensures action.ShowHelp? ==> out == HelpText
    ensures action.ShowTotals? ==> out == Totals(TotalsByChampion(old(store.file)))
    ensures action.ListAccount? ==> out == Listed(action.account, ListByAccount(old(store.file), action.account))
    ensures action.GetRecord? ==> out == Found(Get(old(store.file), action.account, action.champion))
    ensures action.SaveRecord? ==> out == Saved(NormalizeRecord(action.account, action.champion, action.mastery, now))
    ensures action.SaveRecord? && out.saved.Ok? ==>
      store.file == Records(Upserted(ReadAll(old(store.file)), out.saved.value)) && store.writes == old(store.writes) + 1
    ensures action.RemoveRecord? ==>
      out.Removed? && (out.removed.Err? <==> NormalizeRecord(action.account, action.champion, Num(0.0), now).Err?)
    ensures action.RemoveRecord? && out.removed == Ok(true) ==>
      store.file == Records(WithoutKey(ReadAll(old(store.file)), KeyOf(NormalizeRecord(action.account, action.champion, Num(0.0), now).value)))
      && store.writes == old(store.writes) + 1
    ensures action.RemoveRecord? && out.removed.Ok? ==>
      var list := ReadAll(old(store.file));
      (out.removed.value <==> |WithoutKey(list, KeyOf(NormalizeRecord(action.account, action.champion, Num(0.0), now).value))| < |list|)
    ensures !out.Saved? && out != Removed(Ok(true)) ==> store.file == old(store.file) && store.writes == old(store.writes)
    ensures out.Saved? && out.saved.Err? ==> store.file == old(store.file) && store.writes == old(store.writes)
  {
    var args := ParseArgs(tokens);
    action := ActionOf(tokens);
    match action
    case ShowHelp => out := HelpText;
    case ShowTotals =>
      var t := store.Totals();
      out := Totals(t);
    case ListAccount(account) => out := Listed(account, ListByAccount(store.file, account));
    case GetRecord(account, champion) => out := Found(Get(store.file, account, champion));
    case SaveRecord(account, champion, mastery) =>
      var r := store.Upsert(account, champion, mastery, now);
      out := Saved(r);
    case RemoveRecord(account, champion) =>
      var r := store.Remove(account, champion, now);
      out := Removed(r);
  }
}
