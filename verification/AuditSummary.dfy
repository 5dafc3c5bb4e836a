/** The audit summary: failures clustered by signature, and the orchestrator's check of it. */
module AuditSummary {
  import opened Common
  import opened Grouping
  import opened Sorting
  import opened AuditRow
  import opened AuditReport
  import opened AuditContract
  import AuditAccepted

  /** What the log of a failure is reduced to; the reduction itself is a parameter. */
  datatype Signature = Signature(key: string, summary: string)

  type Signatures = Row -> Signature

  /** A cluster; its environment and rerun texts are not modelled. */
  datatype Cluster = Cluster(
    key: string, status: Status, signature: string, count: nat,
    paths: seq<string>, logPaths: seq<string>, newCount: nat, repeatedCount: nat)

  datatype Summary = Summary(
    runId: string, sourceRevision: string, fromReport: bool, inventoryTotal: nat,
    statusCounts: map<Status, nat>, requiredFailureCount: nat,
    failureTotal: nat, clusters: seq<Cluster>, timeoutTotal: nat, timeoutPaths: seq<string>,
    blockedTotal: nat, blockedPaths: seq<string>)

  function StatusName(status: Status): string
  {
    match status
    case PASS => "PASS"
    case FAIL => "FAIL"
    case TIMEOUT => "TIMEOUT"
    case BLOCKED => "BLOCKED"
    case SKIPPED => "SKIPPED"
  }

  /** The key of a failure's cluster: its status and its signature. */
  function ClusterKey(signatures: Signatures): Row -> string
  {
    (row: Row) => StatusName(row.status) + ":" + signatures(row).key
  }

  /** `resultIdentity`. */
  function Identity(signatures: Signatures, row: Row): (string, Status, string)
  {
    (row.path, row.status, signatures(row).key)
  }

  function RowPaths(rows: seq<Row>): seq<string> { Map((r: Row) => r.path, rows) }

  function LogPaths(rows: seq<Row>): seq<string>
  {
    if rows == [] then []
    else LogPaths(rows[..|rows| - 1]) + LogPath(rows[|rows| - 1])
  }

  function LogPath(row: Row): seq<string>
  {
    if row.logPath.Some? && row.logPath.value != "" then [row.logPath.value] else []
  }

  function Repeated(signatures: Signatures, baseline: set<(string, Status, string)>, rows: seq<Row>): nat
  {
    Count((r: Row) => Identity(signatures, r) in baseline, rows)
  }

  /** The cluster of a group of failures. */
  function ClusterOf(signatures: Signatures, baseline: set<(string, Status, string)>, key: string, rows: seq<Row>): Cluster
    requires rows != []
  {
    RepeatedBound(signatures, baseline, rows);
    Cluster(key, rows[0].status, signatures(rows[0]).summary, |rows|, RowPaths(rows), LogPaths(rows),
            |rows| - Repeated(signatures, baseline, rows), Repeated(signatures, baseline, rows))
  }

  lemma RepeatedBound(signatures: Signatures, baseline: set<(string, Status, string)>, rows: seq<Row>)
    ensures Repeated(signatures, baseline, rows) <= |rows|
  {
  }

  /** One failure joins its cluster: the body of the loop over the failures. */
  function Join(signatures: Signatures, baseline: set<(string, Status, string)>, cluster: Cluster, row: Row): Cluster
  {
    var repeated := Identity(signatures, row) in baseline;
    cluster.(count := cluster.count + 1, paths := cluster.paths + [row.path],
             logPaths := cluster.logPaths + LogPath(row),
             newCount := cluster.newCount + (if repeated then 0 else 1),
             repeatedCount := cluster.repeatedCount + (if repeated then 1 else 0))
  }

  function EmptyCluster(signatures: Signatures, key: string, row: Row): Cluster
  {
    Cluster(key, row.status, signatures(row).summary, 0, [], [], 0, 0)
  }

  lemma JoinOne(signatures: Signatures, baseline: set<(string, Status, string)>, key: string, rows: seq<Row>, row: Row)
    ensures ClusterOf(signatures, baseline, key, rows + [row]) ==
            Join(signatures, baseline,
                 if rows == [] then EmptyCluster(signatures, key, row) else ClusterOf(signatures, baseline, key, rows), row)
  {
    PathsOne(rows, row);
    RepeatedOne(signatures, baseline, rows, row);
    hide Identity, RowPaths, LogPaths, LogPath, Repeated;
    if rows == [] {
      NothingRepeated(signatures, baseline);
      assert RowPaths(rows) == [] && LogPaths(rows) == [] by { NoPaths(); }
      assert (rows + [row])[0] == row;
    } else {
      assert (rows + [row])[0] == rows[0];
    }
  }

  lemma NoPaths()
    ensures RowPaths([]) == [] && LogPaths([]) == []
  {
  }

  lemma PathsOne(rows: seq<Row>, row: Row)
    ensures RowPaths(rows + [row]) == RowPaths(rows) + [row.path]
    ensures LogPaths(rows + [row]) == LogPaths(rows) + LogPath(row)
  {
    assert (rows + [row])[..|rows|] == rows;
  }

  lemma RepeatedOne(signatures: Signatures, baseline: set<(string, Status, string)>, rows: seq<Row>, row: Row)
    ensures Repeated(signatures, baseline, rows + [row]) ==
            Repeated(signatures, baseline, rows) + (if Identity(signatures, row) in baseline then 1 else 0)
  {
    var all := rows + [row];
    assert all[..|rows|] == rows && all[..|rows| + 1] == all;
    CountOne((r: Row) => Identity(signatures, r) in baseline, all, |rows|);
  }

  lemma NothingRepeated(signatures: Signatures, baseline: set<(string, Status, string)>)
    ensures Repeated(signatures, baseline, []) == 0
  {
  }

  /** Not smaller first: more failures, then the signature's order. */
  function LargestFirst(o: Orders): (Cluster, Cluster) -> bool
  {
    (a: Cluster, b: Cluster) => a.count > b.count || (a.count == b.count && o.locale(a.signature, b.signature))
  }

  /** The clusters in the order in which they were found. */
  function Clusters(signatures: Signatures, baseline: set<(string, Status, string)>, keys: seq<string>, failures: seq<Row>): (cs: seq<Cluster>)
    requires forall key <- keys :: Group(ClusterKey(signatures), key, failures) != []
    ensures |cs| == |keys|
    ensures forall i :: 0 <= i < |keys| ==>
              cs[i] == ClusterOf(signatures, baseline, keys[i], Group(ClusterKey(signatures), keys[i], failures))
  {
    seq(|keys|, i requires 0 <= i < |keys| =>
      ClusterOf(signatures, baseline, keys[i], Group(ClusterKey(signatures), keys[i], failures)))
  }

  /** The loop that fills the map of clusters. */
  method ClusterFailures(signatures: Signatures, baseline: set<(string, Status, string)>, failures: seq<Row>)
    returns (order: seq<string>, clusters: map<string, Cluster>)
    ensures order == Unique(Map(ClusterKey(signatures), failures))
    ensures forall key :: key in clusters <==> key in order
    ensures forall key <- order ::
              var group := Group(ClusterKey(signatures), key, failures);
              group != [] && clusters[key] == ClusterOf(signatures, baseline, key, group)
  {
    var keyOf := ClusterKey(signatures);
    order, clusters := [], map[];
    NoKeys(failures, keyOf);
    hide Unique, Group, Map, ClusterOf, Join, EmptyCluster, ClusterKey;
    for i := 0 to |failures|
      invariant order == Unique(Map(keyOf, failures[..i]))
      invariant forall key :: key in clusters <==> key in order
      invariant forall key <- order ::
                  var group := Group(keyOf, key, failures[..i]);
                  group != [] && clusters[key] == ClusterOf(signatures, baseline, key, group)
    {
      var result := failures[i];
      var key := keyOf(result);
      KeysGrow(failures, i, keyOf);
      forall k
        ensures Group(keyOf, k, failures[..i + 1]) ==
                if key == k then Group(keyOf, k, failures[..i]) + [result] else Group(keyOf, k, failures[..i])
      {
        GroupGrows(failures, i, keyOf, k);
      }
      ghost var mine := Group(keyOf, key, failures[..i]);
      assert key in order <==> mine != [];
      JoinOne(signatures, baseline, key, Group(keyOf, key, failures[..i]), result);
      var cluster := if key in clusters then clusters[key] else EmptyCluster(signatures, key, result);
      if key !in clusters { order := order + [key]; }
      clusters := clusters[key := Join(signatures, baseline, cluster, result)];
    }
    assert failures[..|failures|] == failures;
  }

  lemma KeysHaveGroups(keyOf: Row -> string, failures: seq<Row>)
    ensures forall key <- Unique(Map(keyOf, failures)) :: Group(keyOf, key, failures) != []
  {
    UniqueOf(Map(keyOf, failures));
    forall key | key in Unique(Map(keyOf, failures)) ensures Group(keyOf, key, failures) != [] {
      var i :| 0 <= i < |failures| && Map(keyOf, failures)[i] == key;
      assert failures[i] in Group(keyOf, key, failures);
    }
  }

  function FailureClusters(o: Orders, signatures: Signatures, baseline: set<(string, Status, string)>, failures: seq<Row>): seq<Cluster>
  {
    KeysHaveGroups(ClusterKey(signatures), failures);
    Sort(LargestFirst(o), Clusters(signatures, baseline, Unique(Map(ClusterKey(signatures), failures)), failures))
  }

  function Summarized(o: Orders, signatures: Signatures, baseline: set<(string, Status, string)>, report: Report): Summary
  {
    var results := report.results;
    Summary(report.runId, report.sourceRevision, true, report.total, StatusCounts(results),
            |Filter(SummaryFailure, results)|,
            |Filter(Failure, results)|, FailureClusters(o, signatures, baseline, Filter(Failure, results)),
            |Filter(IsTimeout, results)|, PathsOf(results, IsTimeout),
            |Filter(IsBlocked, results)|, PathsOf(results, IsBlocked))
  }

  /** `summarizeAudit` of a final report. */
  method Summarize(o: Orders, signatures: Signatures, baseline: set<(string, Status, string)>, report: Report) returns (s: Summary)
    ensures s == Summarized(o, signatures, baseline, report)
  {
    hide ClusterOf, Unique, Group, Sort, Filter, StatusCounts;
    var results := report.results;
    var statusCounts := CountStatuses(results);
    var failures := Filter(Failure, results);
    var order, clusters := ClusterFailures(signatures, baseline, failures);
    KeysHaveGroups(ClusterKey(signatures), failures);
    var found := seq(|order|, i requires 0 <= i < |order| => clusters[order[i]]);
    assert found == Clusters(signatures, baseline, order, failures);
    s := Summary(report.runId, report.sourceRevision, true, report.total, statusCounts,
                 |Filter(SummaryFailure, results)|, |failures|, Sort(LargestFirst(o), found),
                 |Filter(IsTimeout, results)|, PathsOf(results, IsTimeout),
                 |Filter(IsBlocked, results)|, PathsOf(results, IsBlocked));
  }

  // ---- the contract ----

  function AllPaths(clusters: seq<Cluster>): seq<string>
  {
    if clusters == [] then [] else clusters[0].paths + AllPaths(clusters[1..])
  }

  function TotalCount(clusters: seq<Cluster>): nat
  {
    if clusters == [] then 0 else clusters[0].count + TotalCount(clusters[1..])
  }

  /** `validateSummaryContract` does not throw. */
  predicate SummaryOk(o: Orders, s: Summary, c: Contract)
  {
    && s.runId == RUN_ID && s.sourceRevision == c.sourceRevision && s.fromReport
    && s.inventoryTotal == c.expectedSuiteCount
    && (forall status <- STATUSES ::
          status in s.statusCounts && status in c.statusCounts && s.statusCounts[status] == c.statusCounts[status])
    && s.requiredFailureCount == c.summaryRequiredFailureCount
    && s.failureTotal == c.failureTotal && s.timeoutTotal == c.timeoutTotal && s.blockedTotal == c.blockedTotal
    && (forall cluster <- s.clusters :: cluster.count > 0 && |cluster.paths| == cluster.count)
    && TotalCount(s.clusters) == c.failureTotal
    && Sort(o.code, AllPaths(s.clusters)) == c.failurePaths
    && Sort(o.code, s.timeoutPaths) == c.timeoutPaths
    && Sort(o.code, s.blockedPaths) == c.blockedPaths
  }

  // ---- the clusters are a partition of the failures ----

  function GroupedRows(keyOf: Row -> string, keys: seq<string>, rows: seq<Row>): seq<Row>
  {
    if keys == [] then [] else Group(keyOf, keys[0], rows) + GroupedRows(keyOf, keys[1..], rows)
  }

  /** Each row is in the group of its key and in no other. */
  lemma {:induction false} GroupedCount(keyOf: Row -> string, keys: seq<string>, rows: seq<Row>, row: Row)
    requires Distinct(keys)
    ensures multiset(GroupedRows(keyOf, keys, rows))[row] == if keyOf(row) in keys then multiset(rows)[row] else 0
  {
    if keys != [] {
      GroupCount(keyOf, keys[0], rows, row);
      assert forall i :: 0 <= i < |keys| - 1 ==> keys[1..][i] == keys[i + 1] != keys[0];
      assert keys == [keys[0]] + keys[1..];
      hide Group;
      GroupedCount(keyOf, keys[1..], rows, row);
    }
  }

  lemma GroupedAll(keyOf: Row -> string, rows: seq<Row>)
    ensures multiset(GroupedRows(keyOf, Unique(Map(keyOf, rows)), rows)) == multiset(rows)
  {
    var keys := Unique(Map(keyOf, rows));
    UniqueOf(Map(keyOf, rows));
    forall row ensures multiset(GroupedRows(keyOf, keys, rows))[row] == multiset(rows)[row] {
      GroupedCount(keyOf, keys, rows, row);
      if row in rows {
        var i :| 0 <= i < |rows| && rows[i] == row;
        assert Map(keyOf, rows)[i] == keyOf(row);
      }
    }
  }

  /** The first cluster and the clusters of the other keys. */
  lemma ClustersStep(
      signatures: Signatures, baseline: set<(string, Status, string)>, keys: seq<string>, failures: seq<Row>)
    requires keys != [] && forall key <- keys :: Group(ClusterKey(signatures), key, failures) != []
    ensures forall key <- keys[1..] :: Group(ClusterKey(signatures), key, failures) != []
    ensures var cs := Clusters(signatures, baseline, keys, failures);
            var group := Group(ClusterKey(signatures), keys[0], failures);
            && cs == [cs[0]] + Clusters(signatures, baseline, keys[1..], failures)
            && cs[0].paths == RowPaths(group) && cs[0].count == |group| > 0
  {
    hide Group, Repeated, LogPaths, ClusterKey, Clusters, RowPaths;
    assert keys[0] in keys;
    assert Clusters(signatures, baseline, keys, failures)[1..] == Clusters(signatures, baseline, keys[1..], failures);
  }

  /** The clusters hold the paths of the grouped rows, in that order. */
  lemma {:induction false} ClusterPaths(
      signatures: Signatures, baseline: set<(string, Status, string)>, keys: seq<string>, failures: seq<Row>)
    requires forall key <- keys :: Group(ClusterKey(signatures), key, failures) != []
    ensures var cs := Clusters(signatures, baseline, keys, failures);
            var rows := GroupedRows(ClusterKey(signatures), keys, failures);
            && AllPaths(cs) == RowPaths(rows) && TotalCount(cs) == |rows|
            && forall cluster <- cs :: cluster.count > 0 && |cluster.paths| == cluster.count
  {
    if keys != [] {
      ClustersStep(signatures, baseline, keys, failures);
      ClusterPaths(signatures, baseline, keys[1..], failures);
      hide Group, ClusterKey, Clusters, RowPaths;
      PathsConcat(Group(ClusterKey(signatures), keys[0], failures), GroupedRows(ClusterKey(signatures), keys[1..], failures));
    }
  }

  lemma PathsConcat(a: seq<Row>, b: seq<Row>)
    ensures RowPaths(a + b) == RowPaths(a) + RowPaths(b) && |RowPaths(a)| == |a|
  {
  }

  lemma {:induction false} InsertPaths(leq: (Cluster, Cluster) -> bool, x: Cluster, cs: seq<Cluster>)
    ensures multiset(AllPaths(Insert(leq, x, cs))) == multiset(x.paths) + multiset(AllPaths(cs))
    ensures TotalCount(Insert(leq, x, cs)) == x.count + TotalCount(cs)
  {
    if cs == [] || leq(x, cs[0]) {
      assert ([x] + cs)[1..] == cs;
    } else {
      var rest := Insert(leq, x, cs[1..]);
      InsertPaths(leq, x, cs[1..]);
      assert ([cs[0]] + rest)[1..] == rest;
    }
  }

  lemma {:induction false} SortPaths(leq: (Cluster, Cluster) -> bool, cs: seq<Cluster>)
    ensures multiset(AllPaths(Sort(leq, cs))) == multiset(AllPaths(cs))
    ensures TotalCount(Sort(leq, cs)) == TotalCount(cs)
  {
    if cs != [] {
      SortPaths(leq, cs[1..]);
      InsertPaths(leq, cs[0], Sort(leq, cs[1..]));
    }
  }

  /** For any signatures the clusters hold every failure exactly once, and nothing else. */
  lemma ClustersPartition(o: Orders, signatures: Signatures, baseline: set<(string, Status, string)>, failures: seq<Row>)
    ensures var cs := FailureClusters(o, signatures, baseline, failures);
            && multiset(AllPaths(cs)) == multiset(RowPaths(failures)) && TotalCount(cs) == |failures|
            && forall cluster <- cs :: cluster.count > 0 && |cluster.paths| == cluster.count
  {
    var keyOf := ClusterKey(signatures);
    var keys := Unique(Map(keyOf, failures));
    KeysHaveGroups(keyOf, failures);
    var found := Clusters(signatures, baseline, keys, failures);
    var rows := GroupedRows(keyOf, keys, failures);
    GroupedAll(keyOf, failures);
    ClusterPaths(signatures, baseline, keys, failures);
    MapMultiset((r: Row) => r.path, rows, failures);
    SortPaths(LargestFirst(o), found);
    SortMultiset(LargestFirst(o), found);
    assert |rows| == |multiset(rows)| == |multiset(failures)| == |failures|;
    hide Clusters, Sort, Group, GroupedRows, AllPaths, TotalCount, Unique;
  }

  // ---- what a cluster says ----

  lemma NameEnds(status: Status, key: string)
    ensures var s, n := StatusName(status) + ":" + key, |StatusName(status)|;
            && n < |s| && s[n] == ':' && (forall i :: 0 <= i < n ==> s[i] != ':')
            && s[..n] == StatusName(status) && s[n + 1..] == key
  {
    var s, n := StatusName(status) + ":" + key, |StatusName(status)|;
    assert s[..n] == StatusName(status) && s[n + 1..] == key;
    NoColon(status);
    forall i | 0 <= i < n ensures s[i] != ':' { assert s[i] == StatusName(status)[i]; }
  }

  lemma NoColon(status: Status)
    ensures ':' !in StatusName(status)
  {
  }

  lemma NamesDiffer(a: Status, b: Status)
    requires StatusName(a) == StatusName(b)
    ensures a == b
  {
    assert StatusName(a)[0] == StatusName(b)[0];
  }

  /** Two failures share a key exactly if they share status and signature: no status name contains the separator. */
  lemma KeyExactly(signatures: Signatures, a: Row, b: Row)
    ensures ClusterKey(signatures)(a) == ClusterKey(signatures)(b) <==>
            a.status == b.status && signatures(a).key == signatures(b).key
  {
    var s, t := ClusterKey(signatures)(a), ClusterKey(signatures)(b);
    NameEnds(a.status, signatures(a).key);
    NameEnds(b.status, signatures(b).key);
    var m, n := |StatusName(a.status)|, |StatusName(b.status)|;
    hide StatusName;
    if s == t {
      assert m == n;
      NamesDiffer(a.status, b.status);
    }
  }

  predicate HasLog(row: Row) { row.logPath.Some? && row.logPath.value != "" }

  function LogOf(row: Row): string { if row.logPath.Some? then row.logPath.value else "" }

  lemma {:induction false} LogsOf(rows: seq<Row>)
    ensures LogPaths(rows) == Map(LogOf, Filter(HasLog, rows))
  {
    if rows != [] {
      var front, last := rows[..|rows| - 1], rows[|rows| - 1];
      assert rows == front + [last];
      LogsOf(front);
      FilterAppend(HasLog, front, [last]);
      var kept := Filter(HasLog, front);
      assert Map(LogOf, kept + [last]) == Map(LogOf, kept) + [LogOf(last)];
      assert kept + [] == kept;
    }
  }

  /** The failures like this one. */
  function Alike(signatures: Signatures, row: Row, failures: seq<Row>): seq<Row>
  {
    Filter((r: Row) => r.status == row.status && signatures(r).key == signatures(row).key, failures)
  }

  /** The cluster shows the failures like one of them: number, paths and logs in order, new ones and ones of the baseline. */
  ghost predicate Shows(
      signatures: Signatures, baseline: set<(string, Status, string)>, failures: seq<Row>, cluster: Cluster, row: Row)
  {
    var rows := Alike(signatures, row, failures);
    && rows != [] && row == rows[0]
    && cluster.status == row.status && cluster.signature == signatures(row).summary
    && cluster.count == |rows| && cluster.paths == Map((r: Row) => r.path, rows)
    && cluster.logPaths == Map(LogOf, Filter(HasLog, rows))
    && cluster.repeatedCount == |Filter((r: Row) => (r.path, r.status, signatures(r).key) in baseline, rows)|
    && cluster.newCount == |Filter((r: Row) => (r.path, r.status, signatures(r).key) !in baseline, rows)|
  }

  lemma {:induction false} FilterSplits<A>(p: A -> bool, q: A -> bool, s: seq<A>)
    requires forall x <- s :: q(x) == !p(x)
    ensures |Filter(p, s)| + |Filter(q, s)| == |s|
  {
    if s != [] { FilterSplits(p, q, s[1..]); }
  }

  lemma GroupIsAlike(signatures: Signatures, key: string, failures: seq<Row>)
    requires Group(ClusterKey(signatures), key, failures) != []
    ensures var group := Group(ClusterKey(signatures), key, failures);
            group == Alike(signatures, group[0], failures)
  {
    var keyOf := ClusterKey(signatures);
    var group := Group(keyOf, key, failures);
    assert group[0] in group && keyOf(group[0]) == key;
    forall r | r in failures
      ensures (keyOf(r) == key) == (r.status == group[0].status && signatures(r).key == signatures(group[0]).key)
    {
      KeyExactly(signatures, r, group[0]);
    }
    hide ClusterKey;
    GroupIs(keyOf, key, failures, (r: Row) => r.status == group[0].status && signatures(r).key == signatures(group[0]).key);
  }

  lemma ClusterShows(
      signatures: Signatures, baseline: set<(string, Status, string)>, key: string, failures: seq<Row>)
    requires Group(ClusterKey(signatures), key, failures) != []
    ensures var group := Group(ClusterKey(signatures), key, failures);
            Shows(signatures, baseline, failures, ClusterOf(signatures, baseline, key, group), group[0])
  {
    var group := Group(ClusterKey(signatures), key, failures);
    GroupIsAlike(signatures, key, failures);
    LogsOf(group);
    var known := (r: Row) => (r.path, r.status, signatures(r).key) in baseline;
    FilterSame((r: Row) => Identity(signatures, r) in baseline, known, group);
    FilterSplits(known, (r: Row) => (r.path, r.status, signatures(r).key) !in baseline, group);
    hide Group, Alike, LogPaths, HasLog;
  }

  /** Every cluster of a summary shows the failures of one status and signature, and the clusters come largest first. */
  lemma ClustersMean(o: Orders, signatures: Signatures, baseline: set<(string, Status, string)>, failures: seq<Row>)
    requires Preorder(o.locale)
    ensures var cs := FailureClusters(o, signatures, baseline, failures);
            && (forall cluster <- cs :: exists row <- failures :: Shows(signatures, baseline, failures, cluster, row))
            && (forall i, j :: 0 <= i < j < |cs| ==>
                  cs[i].count > cs[j].count || (cs[i].count == cs[j].count && o.locale(cs[i].signature, cs[j].signature)))
  {
    var keyOf := ClusterKey(signatures);
    var keys := Unique(Map(keyOf, failures));
    KeysHaveGroups(keyOf, failures);
    var found := Clusters(signatures, baseline, keys, failures);
    LargestFirstOrders(o);
    SortSorted(LargestFirst(o), found);
    SortMultiset(LargestFirst(o), found);
    hide Clusters, Sort, Group, Unique, Shows, ClusterOf, Map;
    forall cluster | cluster in FailureClusters(o, signatures, baseline, failures)
      ensures exists row <- failures :: Shows(signatures, baseline, failures, cluster, row)
    {
      var i :| 0 <= i < |found| && found[i] == cluster;
      ClusterShows(signatures, baseline, keys[i], failures);
      GroupFirst(keyOf, keys[i], failures);
    }
  }

  lemma GroupFirst(keyOf: Row -> string, key: string, failures: seq<Row>)
    requires Group(keyOf, key, failures) != []
    ensures Group(keyOf, key, failures)[0] in failures
  {
    assert Group(keyOf, key, failures)[0] in Group(keyOf, key, failures);
  }

  lemma LargestFirstOrders(o: Orders)
    requires Preorder(o.locale)
    ensures Preorder(LargestFirst(o))
  {
    var order := LargestFirst(o);
    forall a, b, c
      ensures (order(a, b) || order(b, a)) && (order(a, b) && order(b, c) ==> order(a, c))
    {
      assert o.locale(a.signature, b.signature) || o.locale(b.signature, a.signature);
      assert o.locale(a.signature, b.signature) && o.locale(b.signature, c.signature) ==> o.locale(a.signature, c.signature);
    }
  }

  /** The figures of a summary, in terms of the rows of the report. */
  lemma SummaryMeans(o: Orders, signatures: Signatures, baseline: set<(string, Status, string)>, report: Report)
    ensures var s, results := Summarized(o, signatures, baseline, report), report.results;
            && s.runId == report.runId && s.sourceRevision == report.sourceRevision && s.fromReport
            && s.inventoryTotal == report.total
            && (forall status: Status ::
                  status in s.statusCounts && s.statusCounts[status] == |Filter((r: Row) => r.status == status, results)|)
            && s.requiredFailureCount ==
               |Filter((r: Row) => r.required && (r.status == FAIL || r.status == TIMEOUT || r.status == SKIPPED), results)|
            && s.failureTotal == |Filter((r: Row) => r.status == FAIL || r.status == TIMEOUT, results)|
            && s.clusters == FailureClusters(o, signatures, baseline,
                                             Filter((r: Row) => r.status == FAIL || r.status == TIMEOUT, results))
            && s.timeoutTotal == |s.timeoutPaths| && s.blockedTotal == |s.blockedPaths|
            && s.timeoutPaths == Map((r: Row) => r.path, Filter((r: Row) => r.status == TIMEOUT, results))
            && s.blockedPaths == Map((r: Row) => r.path, Filter((r: Row) => r.status == BLOCKED, results))
  {
    var results := report.results;
    EveryStatus();
    FilterSame(SummaryFailure, (r: Row) => r.required && (r.status == FAIL || r.status == TIMEOUT || r.status == SKIPPED), results);
    FilterSame(Failure, (r: Row) => r.status == FAIL || r.status == TIMEOUT, results);
    FilterSame(IsTimeout, (r: Row) => r.status == TIMEOUT, results);
    FilterSame(IsBlocked, (r: Row) => r.status == BLOCKED, results);
    hide Filter, SummaryFailure, Failure, IsTimeout, IsBlocked, FailureClusters;
  }

  // ---- the summary of an accepted report is accepted ----

  lemma {:induction false} FailuresCounted(results: seq<Row>)
    ensures |Filter(Failure, results)| == StatusCount(results, FAIL) + StatusCount(results, TIMEOUT)
  {
    if results != [] { FailuresCounted(results[1..]); }
  }

  lemma StatusesCounted(results: seq<Row>)
    ensures |Filter(IsTimeout, results)| == StatusCount(results, TIMEOUT)
    ensures |Filter(IsBlocked, results)| == StatusCount(results, BLOCKED)
  {
    FilterSame(IsTimeout, (r: Row) => r.status == TIMEOUT, results);
    FilterSame(IsBlocked, (r: Row) => r.status == BLOCKED, results);
  }

  /** The summary of a report that the audit contract accepts passes the summary contract, for any signature function. */
  lemma SummaryAgrees(
      o: Orders, d: Digests, policy: Policy, registry: seq<Suite>, inventory: Inventory, report: Report,
      revision: string, runnerExitCode: int, logs: map<string, LogFile>,
      signatures: Signatures, baseline: set<(string, Status, string)>)
    requires TotalOrder(o.code)
    requires AuditOk(o, d, policy, registry, inventory, report, revision, runnerExitCode, logs)
    ensures SummaryOk(o, Summarized(o, signatures, baseline, report), ContractOf(o, report, |Expected(registry)|))
  {
    hide *;
    HeaderFacts(o, d, policy, registry, inventory, report, revision, runnerExitCode, logs);
    FailuresCounted(report.results);
    StatusesCounted(report.results);
    ClustersMatch(o, signatures, baseline, report.results);
    SummaryFrom(o, signatures, baseline, report, |Expected(registry)|);
  }

  lemma ClustersMatch(o: Orders, signatures: Signatures, baseline: set<(string, Status, string)>, results: seq<Row>)
    requires TotalOrder(o.code)
    ensures var cs := FailureClusters(o, signatures, baseline, Filter(Failure, results));
            && Sort(o.code, AllPaths(cs)) == Sort(o.code, PathsOf(results, Failure))
            && TotalCount(cs) == |Filter(Failure, results)|
            && forall cluster <- cs :: cluster.count > 0 && |cluster.paths| == cluster.count
  {
    var failures := Filter(Failure, results);
    ClustersPartition(o, signatures, baseline, failures);
    assert RowPaths(failures) == PathsOf(results, Failure);
    hide FailureClusters, Sort, Filter, AllPaths, TotalCount, PathsOf, RowPaths;
    SortCanonical(o.code, AllPaths(FailureClusters(o, signatures, baseline, failures)), RowPaths(failures));
  }

  lemma SummaryFrom(
      o: Orders, signatures: Signatures, baseline: set<(string, Status, string)>, report: Report, expected: nat)
    requires report.runId == RUN_ID && report.total == expected
    requires |Filter(Failure, report.results)| == StatusCount(report.results, FAIL) + StatusCount(report.results, TIMEOUT)
    requires |Filter(IsTimeout, report.results)| == StatusCount(report.results, TIMEOUT)
    requires |Filter(IsBlocked, report.results)| == StatusCount(report.results, BLOCKED)
    requires var cs := FailureClusters(o, signatures, baseline, Filter(Failure, report.results));
             && Sort(o.code, AllPaths(cs)) == Sort(o.code, PathsOf(report.results, Failure))
             && TotalCount(cs) == |Filter(Failure, report.results)|
             && forall cluster <- cs :: cluster.count > 0 && |cluster.paths| == cluster.count
    ensures SummaryOk(o, Summarized(o, signatures, baseline, report), ContractOf(o, report, expected))
  {
    hide FailureClusters, Sort, Filter, AllPaths, TotalCount, PathsOf, StatusCount, StatusCounts;
    EveryStatus();
    AllCounted(report.results);
  }

  lemma AllCounted(results: seq<Row>)
    ensures forall status <- STATUSES :: status in StatusCounts(results)
  {
  }

  lemma HeaderFacts(
      o: Orders, d: Digests, policy: Policy, registry: seq<Suite>, inventory: Inventory, report: Report,
      revision: string, runnerExitCode: int, logs: map<string, LogFile>)
    requires AuditOk(o, d, policy, registry, inventory, report, revision, runnerExitCode, logs)
    ensures report.runId == RUN_ID && report.total == |Expected(registry)|
  {
    hide Reviewed, ResultsOk, TotalsOk, Expected, ExpectedListed, SameMembers;
  }

  /** What the orchestrator may conclude from a summary that it accepted beside an accepted report: it tells of exactly its failures. */
  lemma AcceptedSummaryMeans(o: Orders, s: Summary, report: Report, expected: nat)
    requires TotalOrder(o.code) && SummaryOk(o, s, ContractOf(o, report, expected))
    ensures s.runId == RUN_ID && s.sourceRevision == report.sourceRevision && s.fromReport && s.inventoryTotal == expected
    ensures forall status: Status ::
              status in s.statusCounts && s.statusCounts[status] == |Filter((r: Row) => r.status == status, report.results)|
    ensures s.requiredFailureCount ==
            |Filter((r: Row) => r.required && (r.status == FAIL || r.status == TIMEOUT || r.status == SKIPPED), report.results)|
    ensures var failing := Filter((r: Row) => r.status == FAIL || r.status == TIMEOUT, report.results);
            && s.failureTotal == |failing| == TotalCount(s.clusters)
            && multiset(AllPaths(s.clusters)) == multiset(Map((r: Row) => r.path, failing))
            && forall cluster <- s.clusters :: cluster.count == |cluster.paths| > 0
    ensures var timedOut := Filter((r: Row) => r.status == TIMEOUT, report.results);
            s.timeoutTotal == |timedOut| && multiset(s.timeoutPaths) == multiset(Map((r: Row) => r.path, timedOut))
    ensures var blocked := Filter((r: Row) => r.status == BLOCKED, report.results);
            s.blockedTotal == |blocked| && multiset(s.blockedPaths) == multiset(Map((r: Row) => r.path, blocked))
  {
    var c := ContractOf(o, report, expected);
    AuditAccepted.ContractMeans(o, report, expected);
    EveryStatus();
    hide ContractOf, Filter, Sort, AllPaths, TotalCount, TotalOrder;
    SortMultiset(o.code, AllPaths(s.clusters));
    SortMultiset(o.code, s.timeoutPaths);
    SortMultiset(o.code, s.blockedPaths);
  }
}
