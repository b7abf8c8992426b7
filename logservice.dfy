/**
 * The OTLP logs ingestion handler: it looks up one configured attribute at
 * every level of a batch, collects the distinct values found, and adds 1 to
 * the aggregator for each of them, or to "unknown" when none was found.
 */
module LogService {
  import opened Wrappers
  import opened Otlp
  import opened Aggregator

  /** The reserved key counted when a batch has no match at all. */
  const UNKNOWN: string := "unknown"

  /** An entry that the lookup of `name` accepts: the key matches and a value is set. */
  predicate IsMatch(kv: KeyValue, name: string)
  {
    kv.key == name && kv.value.Some?
  }

  /** Entry `i` is accepted and no earlier entry is. */
  predicate IsFirstMatch(attrs: seq<KeyValue>, name: string, i: int)
  {
    0 <= i < |attrs| && IsMatch(attrs[i], name) &&
    forall j :: 0 <= j < i ==> !IsMatch(attrs[j], name)
  }

  /** The string value of the first entry keyed `name` whose value is set;
      `None` stands for Go's ("", false). */
  function FindAttribute(attrs: seq<KeyValue>, name: string): Option<string>
  {
    if attrs == [] then None
    else if IsMatch(attrs[0], name) then Some(GetStringValue(attrs[0].value.value))
    else FindAttribute(attrs[1..], name)
  }

  /** The lookup fails exactly when no entry is accepted. */
  lemma {:induction false} FindAttributeNone(attrs: seq<KeyValue>, name: string)
    ensures FindAttribute(attrs, name).None? <==> forall i :: 0 <= i < |attrs| ==> !IsMatch(attrs[i], name)
  {
    if attrs != [] && !IsMatch(attrs[0], name) {
      FindAttributeNone(attrs[1..], name);
      assert forall i :: 1 <= i < |attrs| ==> attrs[i] == attrs[1..][i - 1];
    }
  }

  /** The lookup yields the value of the first accepted entry. */
  lemma {:induction false} FindAttributeFirstMatch(attrs: seq<KeyValue>, name: string, i: int)
    requires IsFirstMatch(attrs, name, i)
    ensures FindAttribute(attrs, name) == Some(GetStringValue(attrs[i].value.value))
  {
    if i > 0 {
      assert !IsMatch(attrs[0], name);
      assert IsFirstMatch(attrs[1..], name, i - 1);
      FindAttributeFirstMatch(attrs[1..], name, i - 1);
    }
  }

  /** A first accepted entry whose value is not a string yields "" with ok = true. */
  lemma FindAttributeNonString(attrs: seq<KeyValue>, name: string, i: int)
    requires IsFirstMatch(attrs, name, i) && attrs[i].value.value.Other?
    ensures FindAttribute(attrs, name) == Some("")
  {
    FindAttributeFirstMatch(attrs, name, i);
  }

  /** Entries after an accepted one are never consulted. */
  lemma {:induction false} FindAttributeIgnoresLater(attrs: seq<KeyValue>, later: seq<KeyValue>, name: string)
    requires FindAttribute(attrs, name).Some?
    ensures FindAttribute(attrs + later, name) == FindAttribute(attrs, name)
  {
    if !IsMatch(attrs[0], name) {
      assert (attrs + later)[1..] == attrs[1..] + later;
      FindAttributeIgnoresLater(attrs[1..], later, name);
    }
  }

  /** The values one attribute list contributes to the `found` set. */
  function AttrMatch(attrs: seq<KeyValue>, name: string): set<string>
  {
    match FindAttribute(attrs, name)
    case Some(v) => {v}
    case None => {}
  }

  /** What the resource contributes: nothing when the resource is absent. */
  function ResourceAttrMatch(rl: ResourceLogs, name: string): set<string>
  {
    match rl.resource
    case Some(res) => AttrMatch(res.attributes, name)
    case None => {}
  }

  /** What the scope contributes: nothing when the scope is absent. */
  function ScopeAttrMatch(sl: ScopeLogs, name: string): set<string>
  {
    match sl.scope
    case Some(scope) => AttrMatch(scope.attributes, name)
    case None => {}
  }

  function RecordsMatches(records: seq<LogRecord>, name: string): set<string>
  {
    if records == [] then {}
    else RecordsMatches(records[..|records| - 1], name) + AttrMatch(records[|records| - 1].attributes, name)
  }

  function ScopeMatches(sl: ScopeLogs, name: string): set<string>
  {
    ScopeAttrMatch(sl, name) + RecordsMatches(sl.logRecords, name)
  }

  function ScopesMatches(sls: seq<ScopeLogs>, name: string): set<string>
  {
    if sls == [] then {}
    else ScopesMatches(sls[..|sls| - 1], name) + ScopeMatches(sls[|sls| - 1], name)
  }

  function ResourceMatches(rl: ResourceLogs, name: string): set<string>
  {
    ResourceAttrMatch(rl, name) + ScopesMatches(rl.scopeLogs, name)
  }

  /** The `found` set of a batch, built level by level as the walk does. */
  function BatchMatches(rls: seq<ResourceLogs>, name: string): set<string>
  {
    if rls == [] then {}
    else BatchMatches(rls[..|rls| - 1], name) + ResourceMatches(rls[|rls| - 1], name)
  }

  /** A place in a batch where an attribute list is looked up. */
  datatype Location =
    | AtResource(i: int)
    | AtScope(i: int, j: int)
    | AtRecord(i: int, j: int, k: int)

  /** The lookup at `loc` exists and yields `v`. Resource and scope attributes
      are looked up only when the resource or scope is present. */
  ghost predicate MatchedAt(rls: seq<ResourceLogs>, name: string, v: string, loc: Location)
  {
    match loc
    case AtResource(i) =>
      0 <= i < |rls| && rls[i].resource.Some? &&
      FindAttribute(rls[i].resource.value.attributes, name) == Some(v)
    case AtScope(i, j) =>
      0 <= i < |rls| && 0 <= j < |rls[i].scopeLogs| && rls[i].scopeLogs[j].scope.Some? &&
      FindAttribute(rls[i].scopeLogs[j].scope.value.attributes, name) == Some(v)
    case AtRecord(i, j, k) =>
      0 <= i < |rls| && 0 <= j < |rls[i].scopeLogs| && 0 <= k < |rls[i].scopeLogs[j].logRecords| &&
      FindAttribute(rls[i].scopeLogs[j].logRecords[k].attributes, name) == Some(v)
  }

  lemma {:induction false} RecordsMatchesSpec(records: seq<LogRecord>, name: string, v: string)
    ensures v in RecordsMatches(records, name) <==>
      exists k :: 0 <= k < |records| && FindAttribute(records[k].attributes, name) == Some(v)
    decreases |records|
  {
    if records != [] {
      var n := |records| - 1;
      RecordsMatchesSpec(records[..n], name, v);
      if v in RecordsMatches(records[..n], name) {
        var k :| 0 <= k < n && FindAttribute(records[..n][k].attributes, name) == Some(v);
        assert records[k] == records[..n][k];
      }
      if k :| 0 <= k < |records| && FindAttribute(records[k].attributes, name) == Some(v) {
        if k < n { assert records[..n][k] == records[k]; }
      }
    }
  }

  lemma {:induction false} ScopesMatchesSpec(sls: seq<ScopeLogs>, name: string, v: string)
    ensures v in ScopesMatches(sls, name) <==> exists j :: 0 <= j < |sls| && v in ScopeMatches(sls[j], name)
    decreases |sls|
  {
    if sls != [] {
      var n := |sls| - 1;
      ScopesMatchesSpec(sls[..n], name, v);
      if v in ScopesMatches(sls[..n], name) {
        var j :| 0 <= j < n && v in ScopeMatches(sls[..n][j], name);
        assert sls[j] == sls[..n][j];
      }
      if j :| 0 <= j < |sls| && v in ScopeMatches(sls[j], name) {
        if j < n { assert sls[..n][j] == sls[j]; }
      }
    }
  }

  /** Membership in the value set of one resource, by location inside it. */
  lemma ResourceMatchesSpec(rls: seq<ResourceLogs>, i: int, name: string, v: string)
    requires 0 <= i < |rls|
    ensures v in ResourceMatches(rls[i], name) <==>
      MatchedAt(rls, name, v, AtResource(i)) ||
      (exists j :: MatchedAt(rls, name, v, AtScope(i, j))) ||
      (exists j, k :: MatchedAt(rls, name, v, AtRecord(i, j, k)))
  {
    var sls := rls[i].scopeLogs;
    ScopesMatchesSpec(sls, name, v);
    if v in ScopesMatches(sls, name) {
      var j :| 0 <= j < |sls| && v in ScopeMatches(sls[j], name);
      RecordsMatchesSpec(sls[j].logRecords, name, v);
      if v in ScopeAttrMatch(sls[j], name) {
        assert MatchedAt(rls, name, v, AtScope(i, j));
      } else {
        var k :| 0 <= k < |sls[j].logRecords| && FindAttribute(sls[j].logRecords[k].attributes, name) == Some(v);
        assert MatchedAt(rls, name, v, AtRecord(i, j, k));
      }
    }
    if j :| MatchedAt(rls, name, v, AtScope(i, j)) {
      assert v in ScopeMatches(sls[j], name);
    }
    if j, k :| MatchedAt(rls, name, v, AtRecord(i, j, k)) {
      RecordsMatchesSpec(sls[j].logRecords, name, v);
      assert v in ScopeMatches(sls[j], name);
    }
  }

  /** A value is in the `found` set of a batch exactly when the lookup yields it
      at some location of the batch: the resource (when present), a scope (when
      present) or a log record. */
  lemma {:induction false} BatchMatchesSpec(rls: seq<ResourceLogs>, name: string, v: string)
    ensures v in BatchMatches(rls, name) <==> exists loc :: MatchedAt(rls, name, v, loc)
    decreases |rls|
  {
    if rls == [] {
      assert forall loc :: !MatchedAt(rls, name, v, loc);
    } else {
      var n := |rls| - 1;
      var prefix := rls[..n];
      BatchMatchesSpec(prefix, name, v);
      ResourceMatchesSpec(rls, n, name, v);
      // Locations in the prefix are locations of the batch with the same lookup.
      forall loc | MatchedAt(prefix, name, v, loc) ensures MatchedAt(rls, name, v, loc) {
        assert prefix[loc.i] == rls[loc.i];
      }
      if loc :| MatchedAt(rls, name, v, loc) {
        if loc.i < n {
          assert prefix[loc.i] == rls[loc.i];
          assert MatchedAt(prefix, name, v, loc);
        } else {
          match loc
          case AtResource(_) =>
          case AtScope(_, j) =>
          case AtRecord(_, j, k) =>
        }
      }
    }
  }

  /** Concatenating batches unites their value sets. */
  lemma {:induction false} BatchMatchesAppend(a: seq<ResourceLogs>, b: seq<ResourceLogs>, name: string)
    ensures BatchMatches(a + b, name) == BatchMatches(a, name) + BatchMatches(b, name)
    decreases |b|
  {
    if b == [] {
      assert a + b == a;
    } else {
      var n := |b| - 1;
      assert (a + b)[..|a + b| - 1] == a + b[..n];
      assert (a + b)[|a + b| - 1] == b[n];
      BatchMatchesAppend(a, b[..n], name);
    }
  }

  /** The counter map after adding 1 to every value of `found`, in any order. */
  function AddOnes(m: map<string, Int64>, found: set<string>): map<string, Int64>
  {
    map k | k in m.Keys + found :: if k in found then WrapInt64(Count(m, k) + 1) else Count(m, k)
  }

  lemma AddOnesNone(m: map<string, Int64>)
    ensures AddOnes(m, {}) == m
  {
  }

  /** The effect of one Export on the counter map, given its `found` set. */
  function ExportEffect(m: map<string, Int64>, found: set<string>): map<string, Int64>
  {
    if found == {} then Added(m, UNKNOWN, 1) else AddOnes(m, found)
  }

  /** Export adds exactly 1 to each distinct found value, adds 1 to "unknown"
      exactly when nothing was found, and changes no other key. */
  lemma ExportEffectCounts(m: map<string, Int64>, found: set<string>, key: string)
    ensures key in found ==> Count(ExportEffect(m, found), key) == WrapInt64(Count(m, key) + 1)
    ensures found == {} && key == UNKNOWN ==> Count(ExportEffect(m, found), key) == WrapInt64(Count(m, key) + 1)
    ensures key !in found && !(found == {} && key == UNKNOWN) ==> Count(ExportEffect(m, found), key) == Count(m, key)
    ensures ExportEffect(m, found).Keys == m.Keys + (if found == {} then {UNKNOWN} else found)
  {
  }

  /** Repeating the resource logs of a batch counts nothing twice. */
  lemma RepeatedBatchSameEffect(m: map<string, Int64>, rls: seq<ResourceLogs>, name: string)
    ensures ExportEffect(m, BatchMatches(rls + rls, name)) == ExportEffect(m, BatchMatches(rls, name))
  {
    BatchMatchesAppend(rls, rls, name);
  }

  /** The walk over a batch: every resource in order. Go's map[string]struct{}
      used as a set is `found`. */
  method CollectBatch(rls: seq<ResourceLogs>, name: string) returns (found: set<string>)
    ensures found == BatchMatches(rls, name)
  {
    found := {};
    var i := 0;
    while i < |rls|
      invariant 0 <= i <= |rls|
      invariant found == BatchMatches(rls[..i], name)
    {
      found := CollectResourceLogs(found, rls[i], name);
      assert rls[..i + 1][..i] == rls[..i];
      i := i + 1;
    }
    assert rls[..i] == rls;
  }

  /** The walk over one resource: its own attributes when the resource is
      present, then each of its scopes. */
  method CollectResourceLogs(found: set<string>, resourceLogs: ResourceLogs, name: string) returns (found': set<string>)
    ensures found' == found + ResourceMatches(resourceLogs, name)
  {
    found' := found;
    if resourceLogs.resource.Some? {
      var attr := FindAttribute(resourceLogs.resource.value.attributes, name);
      if attr.Some? {
        found' := found' + {attr.value};
      }
    }
    var sls := resourceLogs.scopeLogs;
    var j := 0;
    while j < |sls|
      invariant 0 <= j <= |sls|
      invariant found' == found + ResourceAttrMatch(resourceLogs, name) + ScopesMatches(sls[..j], name)
    {
      found' := CollectScopeLogs(found', sls[j], name);
      assert sls[..j + 1][..j] == sls[..j];
      j := j + 1;
    }
    assert sls[..j] == sls;
  }

  /** The walk over one scope: its own attributes when the scope is present,
      then every log record's attributes. */
  method CollectScopeLogs(found: set<string>, scopeLogs: ScopeLogs, name: string) returns (found': set<string>)
    ensures found' == found + ScopeMatches(scopeLogs, name)
  {
    found' := found;
    if scopeLogs.scope.Some? {
      var attr := FindAttribute(scopeLogs.scope.value.attributes, name);
      if attr.Some? {
        found' := found' + {attr.value};
      }
    }
    var records := scopeLogs.logRecords;
    var k := 0;
    while k < |records|
      invariant 0 <= k <= |records|
      invariant found' == found + ScopeAttrMatch(scopeLogs, name) + RecordsMatches(records[..k], name)
    {
      var attr := FindAttribute(records[k].attributes, name);
      if attr.Some? {
        found' := found' + {attr.value};
      }
      assert records[..k + 1][..k] == records[..k];
      k := k + 1;
    }
    assert records[..k] == records;
  }

  /** The counting phase: 1 for each distinct value found, in whatever order
      the set is enumerated, or 1 for "unknown" when nothing was found. */
  method AddFound(agg: CounterAggregator, found: set<string>)
    modifies agg
    ensures agg.values == ExportEffect(old(agg.values), found)
  {
    ghost var start := agg.values;
    var pending := found;
    while pending != {}
      invariant pending <= found
      invariant agg.values.Keys == start.Keys + (found - pending)
      invariant forall k :: k in agg.values ==>
        agg.values[k] == if k in found - pending then WrapInt64(Count(start, k) + 1) else start[k]
      decreases pending
    {
      var key :| key in pending;
      agg.AddToKey(key, 1);
      pending := pending - {key};
    }
    assert agg.values == AddOnes(start, found);

    if |found| == 0 {
      AddOnesNone(start);
      agg.AddToKey(UNKNOWN, 1);
    }
  }

  /** The ingestion handler: counts the configured attribute's values in `agg`. */
  class LogsServiceServer {
    const agg: CounterAggregator
    const attributeName: string

    constructor (agg: CounterAggregator, attributeName: string)
      ensures this.agg == agg && this.attributeName == attributeName
    {
      this.agg := agg;
      this.attributeName := attributeName;
    }

    /** Handles one batch; it always succeeds with an empty response. */
    method Export(req: ExportLogsServiceRequest) returns (resp: ExportLogsServiceResponse, err: Option<string>)
      modifies agg
      ensures agg.values == ExportEffect(old(agg.values), BatchMatches(req.resourceLogs, attributeName))
      ensures resp == ExportLogsServiceResponse && err == None
    {
      var found := CollectBatch(req.resourceLogs, attributeName);

      AddFound(agg, found);
      resp := ExportLogsServiceResponse;
      err := None;
    }
  }

  /** A batch of one resource, one scope and one log record, as the handler's
      tests build it. */
  function OneRecordRequest(resourceAttrs: seq<KeyValue>, scopeAttrs: seq<KeyValue>, logAttrs: seq<KeyValue>): ExportLogsServiceRequest
  {
    ExportLogsServiceRequest([
      ResourceLogs(Some(Resource(resourceAttrs)), [
        ScopeLogs(Some(InstrumentationScope(scopeAttrs)), [LogRecord(logAttrs)])])])
  }

  function StrAttr(key: string, value: string): KeyValue
  {
    KeyValue(key, Some(Str(value)))
  }

  /** The same key at the three levels counts each of the three values once. */
  method ExportHierarchyScenario() returns (counts: map<string, Int64>)
    ensures counts == map["bar" := 1, "baz" := 1, "qux" := 1]
  {
    var agg := new CounterAggregator();
    var srv := new LogsServiceServer(agg, "foo");
    var req := OneRecordRequest([StrAttr("foo", "bar")], [StrAttr("foo", "baz")], [StrAttr("foo", "qux")]);
    var rl := req.resourceLogs[0];
    assert ResourceMatches(rl, "foo") == {"bar", "baz", "qux"} by {
      assert ScopesMatches(rl.scopeLogs, "foo") == ScopeMatches(rl.scopeLogs[0], "foo");
      assert RecordsMatches(rl.scopeLogs[0].logRecords, "foo") == {"qux"};
    }
    assert BatchMatches(req.resourceLogs, "foo") == {"bar", "baz", "qux"};
    var _, _ := srv.Export(req);
    counts := agg.SnapshotAndReset();
  }

  /** A batch without the key counts one "unknown" (not an empty map). */
  method ExportNoMatchScenario() returns (counts: map<string, Int64>)
    ensures counts == map[UNKNOWN := 1]
    ensures counts != map[]
  {
    var agg := new CounterAggregator();
    var srv := new LogsServiceServer(agg, "foo");
    var req := OneRecordRequest([StrAttr("other", "value")], [], []);
    var rl := req.resourceLogs[0];
    assert ResourceMatches(rl, "foo") == {} by {
      assert ScopesMatches(rl.scopeLogs, "foo") == ScopeMatches(rl.scopeLogs[0], "foo");
      assert RecordsMatches(rl.scopeLogs[0].logRecords, "foo") == {};
    }
    assert BatchMatches(req.resourceLogs, "foo") == {};
    var _, _ := srv.Export(req);
    counts := agg.SnapshotAndReset();
  }
}
