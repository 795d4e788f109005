/**
 * Match-V5 lookups shared by both servers (backend/server.js and server.js
 * carry the same code): the platform-to-cluster table and the paginated
 * count of a player's match ids.
 */
module MatchHistory {
  import opened Base

  const EuropePlatforms: set<string> := {"euw1", "eun1", "tr1", "ru"}
  const AmericasPlatforms: set<string> := {"na1", "br1", "la1", "la2", "oc1"}
  const AsiaPlatforms: set<string> := {"kr", "jp1"}
  const SeaPlatforms: set<string> := {"sg2", "ph2", "vn2", "th2", "tw2"}

  /** `getMatchCluster`: the routing cluster of a platform; a missing region is "". */
  function Cluster(region: string): (c: string)
    ensures c in {"europe", "americas", "asia", "sea"}
  {
    var r := Lower(region);
    if r in EuropePlatforms then "europe"
    else if r in AmericasPlatforms then "americas"
    else if r in AsiaPlatforms then "asia"
    else if r in SeaPlatforms then "sea"
    else "europe"
  }

  /** The lookup ignores letter case. */
  lemma ClusterIgnoresCase(region: string)
    ensures Cluster(Lower(region)) == Cluster(region)
  {
    LowerIdempotent(region);
  }

  /** Each non-European cluster is chosen exactly for its own platforms; everything else is Europe. */
  lemma ClusterTable(region: string)
    ensures Cluster(region) == "americas" <==> Lower(region) in AmericasPlatforms
    ensures Cluster(region) == "asia" <==> Lower(region) in AsiaPlatforms
    ensures Cluster(region) == "sea" <==> Lower(region) in SeaPlatforms
    ensures Cluster(region) == "europe" <==>
      Lower(region) !in AmericasPlatforms + AsiaPlatforms + SeaPlatforms
  {
  }

  lemma ClusterExamples()
    ensures Cluster("EUW1") == "europe" && Cluster("na1") == "americas"
    ensures Cluster("KR") == "asia" && Cluster("vn2") == "sea"
    ensures Cluster("") == "europe" && Cluster("xx9") == "europe"
  {
    LowerUpperExamples();
    LowerLowerExamples();
  }

  lemma LowerUpperExamples()
    ensures Lower("EUW1") == "euw1" && Lower("KR") == "kr"
  {
    assert Lower("EUW1") == "euw1";
    assert Lower("KR") == "kr";
  }

  lemma LowerLowerExamples()
    ensures Lower("na1") == "na1" && Lower("vn2") == "vn2" && Lower("xx9") == "xx9"
  {
    assert Lower("na1") == "na1";
    assert Lower("vn2") == "vn2";
    assert Lower("xx9") == "xx9";
  }

  // ---------------------------------------------------------------------
  // Pagination
  // ---------------------------------------------------------------------

  const PageSize: nat := 100
  const MatchCap: nat := 2000

  /** What one `ids?start=…&count=100` request gave back. */
  datatype PageReply =
    | PageFailed(message: string)
    | NotAList
    | Ids(ids: seq<string>)

  /** The count so far and the `start` of every request made. */
  datatype Paging = Paging(total: nat, starts: seq<nat>)

  /** Number of ids a reply contributes (failures and non-lists none). */
  function PageLength(r: PageReply): nat
  {
    if r.Ids? then |r.ids| else 0
  }

  /**
   * `getMatchCountForPUUID` from the request with offset `start` on;
   * `fetch(s)` is the reply to the request with `start=s`.
   */
  function Paginate(fetch: nat -> PageReply, start: nat): (p: Paging)
    requires start < MatchCap
    ensures p.starts != [] && p.starts[0] == start
    decreases MatchCap - start
  {
    var reply := fetch(start);
    if !reply.Ids? || |reply.ids| == 0 then Paging(0, [start])
    else if |reply.ids| < PageSize || start + PageSize >= MatchCap then Paging(|reply.ids|, [start])
    else
      var rest := Paginate(fetch, start + PageSize);
      Paging(|reply.ids| + rest.total, [start] + rest.starts)
  }

  /** The loop of `getMatchCountForPUUID`. */
  method CountMatches(fetch: nat -> PageReply) returns (total: nat, starts: seq<nat>)
    ensures Paging(total, starts) == Paginate(fetch, 0)
  {
    var start: nat := 0;
    total := 0;
    starts := [];
    while true
      invariant start < MatchCap
      invariant Paginate(fetch, 0) ==
        Paging(total + Paginate(fetch, start).total, starts + Paginate(fetch, start).starts)
      decreases MatchCap - start
    {
      ghost var here := Paginate(fetch, start);
      ghost var before := starts;
      starts := starts + [start];
      var reply := fetch(start);
      if !reply.Ids? || |reply.ids| == 0 {
        assert here == Paging(0, [start]);
        break;
      }
      var ids := reply.ids;
      total := total + |ids|;
      if |ids| < PageSize || start + PageSize >= MatchCap {
        assert here == Paging(|ids|, [start]);
        break;
      }
      start := start + PageSize;
      ghost var rest := Paginate(fetch, start);
      assert here == Paging(|ids| + rest.total, [start - PageSize] + rest.starts);
      assert before + here.starts == starts + rest.starts;
    }
  }

  /** Request k asks for `start = 100 * k`. */
  lemma {:induction false} RequestOffsets(fetch: nat -> PageReply, start: nat, k: nat)
    requires start < MatchCap
    requires k < |Paginate(fetch, start).starts|
    ensures Paginate(fetch, start).starts[k] == start + PageSize * k
    decreases MatchCap - start
  {
    if k > 0 {
      RequestOffsets(fetch, start + PageSize, k - 1);
    }
  }

  /** From an offset that is a multiple of 100, at most one request per page left under the cap. */
  lemma {:induction false} RequestsBounded(fetch: nat -> PageReply, start: nat)
    requires start < MatchCap && start % PageSize == 0
    ensures |Paginate(fetch, start).starts| * PageSize <= MatchCap - start
    decreases MatchCap - start
  {
    var reply := fetch(start);
    if reply.Ids? && |reply.ids| >= PageSize && start + PageSize < MatchCap {
      RequestsBounded(fetch, start + PageSize);
    }
  }

  /** One player costs at most 20 requests. */
  lemma AtMostTwentyRequests(fetch: nat -> PageReply)
    ensures |Paginate(fetch, 0).starts| <= 20
  {
    RequestsBounded(fetch, 0);
  }

  /** Sum of the lengths of the replies to the given requests. */
  function FetchedLength(fetch: nat -> PageReply, starts: seq<nat>): nat
  {
    if starts == [] then 0 else PageLength(fetch(starts[0])) + FetchedLength(fetch, starts[1..])
  }

  /** The count is the sum of the lengths of the pages fetched. */
  lemma {:induction false} TotalIsFetchedLength(fetch: nat -> PageReply, start: nat)
    requires start < MatchCap
    ensures Paginate(fetch, start).total == FetchedLength(fetch, Paginate(fetch, start).starts)
    decreases MatchCap - start
  {
    var p := Paginate(fetch, start);
    var reply := fetch(start);
    if !reply.Ids? || |reply.ids| == 0 || |reply.ids| < PageSize || start + PageSize >= MatchCap {
      assert p.starts == [start];
      assert p.starts[1..] == [];
    } else {
      TotalIsFetchedLength(fetch, start + PageSize);
      assert p.starts[1..] == Paginate(fetch, start + PageSize).starts;
    }
  }

  /** With pages of at most 100 ids the count never exceeds 2000. */
  lemma {:induction false} TotalCapped(fetch: nat -> PageReply, start: nat)
    requires start < MatchCap && start % PageSize == 0
    requires forall s :: PageLength(fetch(s)) <= PageSize
    ensures Paginate(fetch, start).total <= MatchCap - start
    decreases MatchCap - start
  {
    var reply := fetch(start);
    assert PageLength(reply) <= PageSize;
    if reply.Ids? && |reply.ids| >= PageSize && start + PageSize < MatchCap {
      TotalCapped(fetch, start + PageSize);
    }
  }

  /** When every page is full, the count stops at the cap: 2000 matches in 20 requests. */
  lemma {:induction false} FullPagesReachCap(fetch: nat -> PageReply, start: nat)
    requires start < MatchCap && start % PageSize == 0
    requires forall s :: PageLength(fetch(s)) == PageSize
    ensures Paginate(fetch, start).total == MatchCap - start
    ensures |Paginate(fetch, start).starts| * PageSize == MatchCap - start
    decreases MatchCap - start
  {
    assert PageLength(fetch(start)) == PageSize;
    if start + PageSize < MatchCap {
      FullPagesReachCap(fetch, start + PageSize);
    }
  }

  /** A failed request ends the count and keeps what was counted before it. */
  lemma {:induction false} FailureKeepsPartialCount(fetch: nat -> PageReply, start: nat, k: nat)
    requires start + PageSize * k < MatchCap
    requires forall j :: 0 <= j < k ==> PageLength(fetch(start + PageSize * j)) == PageSize
    requires !fetch(start + PageSize * k).Ids?
    ensures Paginate(fetch, start).total == PageSize * k
    ensures |Paginate(fetch, start).starts| == k + 1
    decreases k
  {
    if k > 0 {
      assert PageLength(fetch(start + PageSize * 0)) == PageSize;
      forall j | 0 <= j < k - 1 ensures PageLength(fetch(start + PageSize + PageSize * j)) == PageSize {
        assert start + PageSize + PageSize * j == start + PageSize * (j + 1);
      }
      assert start + PageSize + PageSize * (k - 1) == start + PageSize * k;
      FailureKeepsPartialCount(fetch, start + PageSize, k - 1);
    }
  }

  /** Three pages of 100, 100 and 37 ids: 237 matches in three requests. */
  lemma ShortPageStops(fetch: nat -> PageReply)
    requires PageLength(fetch(0)) == 100 && PageLength(fetch(100)) == 100 && PageLength(fetch(200)) == 37
    ensures Paginate(fetch, 0) == Paging(237, [0, 100, 200])
  {
    assert Paginate(fetch, 200) == Paging(37, [200]);
    assert Paginate(fetch, 100) == Paging(137, [100, 200]);
  }
}
