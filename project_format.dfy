/**
 * `ProjectManager._rest_to_v1_response_format` (snyk/managers.py): the
 * rewriting of a REST project resource into the record shape of the v1 API.
 * Every nested read is a `.get` with a default, so a missing key never fails;
 * only a path that runs into something other than a dict does.
 */
module ProjectFormat {
  import opened Errors
  import opened Json

  /** What `j.get(key, default)` gives when `j` is a dict. */
  function Field(j: Json, key: string, default: Json): Json {
    if j.Object? && HasKey(j.members, key) then Lookup(j.members, key).value else default
  }

  /** What `j.get(key, {})` gives when `j` is a dict. */
  function Under(j: Json, key: string): Json {
    Field(j, key, EmptyObject)
  }

  /** `j.get(key, {})`. */
  function Sub(j: Json, key: string): (r: Result<Json>)
    ensures r.Ok? <==> j.Object?
    ensures r.Ok? ==> r.value == Under(j, key)
  {
    PyGet(j, key, EmptyObject)
  }

  /** The recurring-test settings under the project's attributes, or an empty dict along a missing key. */
  function RecurringTestsOf(p: Json): Json {
    Under(Under(Under(p, "attributes"), "settings"), "recurring_tests")
  }

  /** The data of the relationship `name`, or an empty dict along a missing key. */
  function RelationData(p: Json, name: string): Json {
    Under(Under(Under(p, "relationships"), name), "data")
  }

  /** The integration data under the target's meta, or an empty dict along a missing key. */
  function IntegrationDataOf(p: Json): Json {
    Under(Under(RelationData(p, "target"), "meta"), "integration_data")
  }

  /** The dicts the rewrite reads its fields from. */
  datatype Paths = Paths(
    attributes: Json,
    recurringTests: Json,
    issueCounts: Json,
    targetAttributes: Json,
    integrationData: Json,
    importerData: Json,
    ownerData: Json)

  /** All reads are from dicts. */
  predicate AllDicts(w: Paths) {
    w.attributes.Object? && w.recurringTests.Object? && w.issueCounts.Object?
    && w.targetAttributes.Object? && w.integrationData.Object?
    && w.importerData.Object? && w.ownerData.Object?
  }

  /** The attributes of the project and the recurring-test settings read under them. */
  function AttributesPart(p: Json): (r: Result<(Json, Json)>)
    ensures r.Ok? <==> ShapedAttributes(p)
    ensures r.Ok? ==> r.value.0.Object? && r.value.1.Object?
    ensures r.Ok? ==> r.value.0 == Under(p, "attributes") && r.value.1 == RecurringTestsOf(p)
  {
    var attributes :- Sub(p, "attributes");
    var settings :- Sub(attributes, "settings");
    var recurringTests :- Sub(settings, "recurring_tests");
    // the frequency is read from the recurring tests, so they must be a dict too
    if !recurringTests.Object? then Err(TypeError) else Ok((attributes, recurringTests))
  }

  /** The latest issue counts under the project's meta, or an empty dict along a missing key. */
  function CountsPart(p: Json): (r: Result<Json>)
    requires p.Object?
    ensures r.Ok? <==> ShapedCounts(p)
    ensures r.Ok? ==> r.value.Object? && r.value == Under(Under(p, "meta"), "latest_issue_counts")
  {
    var meta := Under(p, "meta");
    var issueCounts :- Sub(meta, "latest_issue_counts");
    if !issueCounts.Object? then Err(TypeError) else Ok(issueCounts)
  }

  /** The reads through `relationships.target.data`. */
  function TargetPart(p: Json): (r: Result<(Json, Json)>)
    requires p.Object?
    ensures r.Ok? <==> ShapedTarget(p)
    ensures r.Ok? ==> r.value.0.Object? && r.value.1.Object?
    ensures r.Ok? ==> r.value.0 == Under(RelationData(p, "target"), "attributes") && r.value.1 == IntegrationDataOf(p)
  {
    var relationships := Under(p, "relationships");
    var target :- Sub(relationships, "target");
    var targetData :- Sub(target, "data");
    var targetAttributes :- Sub(targetData, "attributes");
    var targetMeta := Under(targetData, "meta");
    var integrationData :- Sub(targetMeta, "integration_data");
    if !(targetAttributes.Object? && integrationData.Object?) then Err(TypeError)
    else Ok((targetAttributes, integrationData))
  }

  /** The reads through `relationships.importer.data` and `relationships.owner.data`. */
  function UsersPart(p: Json): (r: Result<(Json, Json)>)
    requires ShapedTarget(p)
    ensures r.Ok? <==> ShapedUsers(p)
    ensures r.Ok? ==> r.value.0.Object? && r.value.1.Object?
    ensures r.Ok? ==> r.value.0 == RelationData(p, "importer") && r.value.1 == RelationData(p, "owner")
  {
    var relationships := Under(p, "relationships");
    var importer := Under(relationships, "importer");
    var importerData :- Sub(importer, "data");
    var owner := Under(relationships, "owner");
    var ownerData :- Sub(owner, "data");
    if !(importerData.Object? && ownerData.Object?) then Err(TypeError)
    else Ok((importerData, ownerData))
  }

  /**
   * The `.get(..., {})` chains of the rewrite; each one applied to something
   * other than a dict raises AttributeError.
   */
  function Walk(p: Json): (r: Result<Paths>)
    ensures r.Ok? ==> AllDicts(r.value)
    ensures r.Ok? <==> Shaped(p)
    ensures r.Ok? ==> r.value.attributes == Under(p, "attributes")
    ensures r.Ok? ==> r.value.issueCounts == Under(Under(p, "meta"), "latest_issue_counts")
    ensures r.Ok? ==> r.value.recurringTests == RecurringTestsOf(p)
    ensures r.Ok? ==> r.value.targetAttributes == Under(RelationData(p, "target"), "attributes")
    ensures r.Ok? ==> r.value.integrationData == IntegrationDataOf(p)
    ensures r.Ok? ==> r.value.importerData == RelationData(p, "importer") && r.value.ownerData == RelationData(p, "owner")
  {
    var (attributes, recurringTests) :- AttributesPart(p);
    var issueCounts :- CountsPart(p);
    var (targetAttributes, integrationData) :- TargetPart(p);
    var (importerData, ownerData) :- UsersPart(p);
    Ok(Paths(attributes, recurringTests, issueCounts, targetAttributes, integrationData, importerData, ownerData))
  }

  /** The keys of every rewritten project, in order. */
  const V1Keys: seq<string> := [
    "name", "id", "created", "origin", "type", "readOnly", "testFrequency",
    "lastTestedDate", "isMonitored", "issueCountsBySeverity", "targetReference",
    "branch", "remoteRepoUrl", "imageCluster", "_tags", "importingUserId",
    "owningUserId"]

  /** The severities counted under "issueCountsBySeverity". */
  const Severities: seq<string> := ["low", "medium", "high", "critical"]

  /** The dict literal `{keys[0]: values[0], ...}`. */
  function Zip(keys: seq<string>, values: seq<Json>): (r: seq<Entry>)
    requires |keys| == |values|
    ensures |r| == |keys|
    ensures forall i :: 0 <= i < |r| ==> r[i] == Entry(keys[i], values[i])
  {
    seq(|keys|, i requires 0 <= i < |keys| => Entry(keys[i], values[i]))
  }

  /** A dict from each severity to its count, 0 when the counts lack it. */
  function SeverityCounts(counts: Json): Json {
    Object(Zip(Severities, seq(|Severities|, i requires 0 <= i < |Severities| => Field(counts, Severities[i], Int(0)))))
  }

  /** The values of the v1 record, in the order of V1Keys. */
  function V1Values(p: Json, w: Paths): (r: seq<Json>)
    ensures |r| == |V1Keys|
  {
    var a := w.attributes;
    var counts := w.issueCounts;
    [ Field(a, "name", Null),
      Field(p, "id", Null),
      Field(a, "created", Null),
      Field(a, "origin", Null),
      Field(a, "type", Null),
      Field(a, "read_only", Null),
      Field(w.recurringTests, "frequency", Null),
      Field(counts, "updated_at", Null),
      Bool(PyEq(Field(a, "status", Null), Str("active"))),
      SeverityCounts(counts),
      Field(a, "target_reference", Null),
      Field(a, "target_reference", Null),
      Field(w.targetAttributes, "url", Null),
      Field(w.integrationData, "cluster", Null),
      Field(a, "tags", Array([])),
      Field(w.importerData, "id", Null),
      Field(w.ownerData, "id", Null) ]
  }

  /** `_rest_to_v1_response_format(project)`. */
  function V1Format(p: Json): (r: Result<Json>)
    ensures r.Ok? ==> r.value.Object?
  {
    var w :- Walk(p);
    Ok(Object(Zip(V1Keys, V1Values(p, w))))
  }

  /** The project, its attributes, their settings and the recurring tests are dicts where present. */
  predicate ShapedAttributes(p: Json) {
    var attributes := Under(p, "attributes");
    var settings := Under(attributes, "settings");
    p.Object? && attributes.Object? && settings.Object? && Under(settings, "recurring_tests").Object?
  }

  /** The project's meta and its issue counts are dicts where present. */
  predicate ShapedCounts(p: Json) {
    var meta := Under(p, "meta");
    meta.Object? && Under(meta, "latest_issue_counts").Object?
  }

  /** The target relationship and what is read under it are dicts where present. */
  predicate ShapedTarget(p: Json) {
    var relationships := Under(p, "relationships");
    var target := Under(relationships, "target");
    var targetData := Under(target, "data");
    var targetMeta := Under(targetData, "meta");
    relationships.Object? && target.Object? && targetData.Object?
    && Under(targetData, "attributes").Object? && targetMeta.Object?
    && Under(targetMeta, "integration_data").Object?
  }

  /** The importer and owner relationships are dicts where present. */
  predicate ShapedUsers(p: Json) {
    var relationships := Under(p, "relationships");
    var importer := Under(relationships, "importer");
    var owner := Under(relationships, "owner");
    importer.Object? && Under(importer, "data").Object?
    && owner.Object? && Under(owner, "data").Object?
  }

  /** Every dict the rewrite reads through is a dict where present. */
  predicate Shaped(p: Json) {
    ShapedAttributes(p) && ShapedCounts(p) && ShapedTarget(p) && ShapedUsers(p)
  }

  /** The rewrite fails exactly when a path runs into a present value that is not a dict. */
  lemma V1FormatTotal(p: Json)
    ensures V1Format(p).Ok? <==> Shaped(p)
  {
  }

  /** `x == "active"` holds exactly for the string "active". */
  lemma PyEqActive(v: Json)
    ensures PyEq(v, Str("active")) <==> v == Str("active")
  {
  }

  /** No key of the v1 record is repeated. */
  lemma V1KeysDistinct()
    ensures forall i, j :: 0 <= i < j < |V1Keys| ==> V1Keys[i] != V1Keys[j]
  {
  }

  /** The rewritten project has the fixed v1 keys, in order. */
  lemma V1FormatKeys(p: Json)
    requires V1Format(p).Ok?
    ensures V1Format(p).value.Object?
    ensures Keys(V1Format(p).value.members) == V1Keys
  {
    var m := V1Format(p).value.members;
    KeysIndexed(m);
    assert Keys(m) == V1Keys;
  }

  /** In a dict literal with distinct keys, each key holds its own value. */
  lemma ZipLookup(keys: seq<string>, values: seq<Json>, i: nat)
    requires |keys| == |values| && i < |keys|
    requires forall j, k :: 0 <= j < k < |keys| ==> keys[j] != keys[k]
    ensures Lookup(Zip(keys, values), keys[i]) == Some(values[i])
  {
    LookupAt(Zip(keys, values), keys[i], i);
  }

  /** The rewritten project is the v1 record of the dicts its walk reached. */
  lemma V1FormatRecord(p: Json)
    requires V1Format(p).Ok?
    ensures V1Format(p).value == Object(Zip(V1Keys, V1Values(p, Walk(p).value)))
  {
  }

  /** The name and id of the v1 record: the attribute and the project's own, or null. */
  lemma RecordIds(p: Json, w: Paths)
    ensures var m := Zip(V1Keys, V1Values(p, w));
      Lookup(m, "name") == Some(Field(w.attributes, "name", Null))
      && Lookup(m, "id") == Some(Field(p, "id", Null))
  {
    V1Lookup(p, w, 0);
    V1Lookup(p, w, 1);
  }

  /** `isMonitored` holds exactly when the status is "active". */
  lemma RecordMonitored(p: Json, w: Paths)
    ensures Lookup(Zip(V1Keys, V1Values(p, w)), "isMonitored")
         == Some(Bool(Field(w.attributes, "status", Null) == Str("active")))
  {
    PyEqActive(Field(w.attributes, "status", Null));
    V1Lookup(p, w, 8);
  }

  /** `branch` and `targetReference` are both the target reference; `_tags` defaults to []. */
  lemma RecordReference(p: Json, w: Paths)
    ensures var m := Zip(V1Keys, V1Values(p, w));
      Lookup(m, "targetReference") == Some(Field(w.attributes, "target_reference", Null))
      && Lookup(m, "branch") == Lookup(m, "targetReference")
      && Lookup(m, "_tags") == Some(Field(w.attributes, "tags", Array([])))
  {
    V1Lookup(p, w, 10);
    V1Lookup(p, w, 11);
    V1Lookup(p, w, 14);
  }

  /**
   * The fields of the rewritten project: `isMonitored` holds exactly when the
   * status is "active", `branch` and `targetReference` are both the target
   * reference, `_tags` defaults to [] and the name and id to null.
   */
  lemma V1FormatFields(p: Json)
    requires V1Format(p).Ok?
    ensures V1Format(p).value.Object?
    ensures var m := V1Format(p).value.members;
      var a := Under(p, "attributes");
      Lookup(m, "name") == Some(Field(a, "name", Null))
      && Lookup(m, "id") == Some(Field(p, "id", Null))
      && Lookup(m, "isMonitored") == Some(Bool(Field(a, "status", Null) == Str("active")))
      && Lookup(m, "targetReference") == Some(Field(a, "target_reference", Null))
      && Lookup(m, "branch") == Lookup(m, "targetReference")
      && Lookup(m, "_tags") == Some(Field(a, "tags", Array([])))
  {
    var w := Walk(p).value;
    V1FormatRecord(p);
    RecordIds(p, w);
    RecordMonitored(p, w);
    RecordReference(p, w);
  }

  /** Each severity count is the project's own count, or 0 when the project has none. */
  lemma V1FormatCounts(p: Json, i: nat)
    requires V1Format(p).Ok? && i < |Severities|
    ensures V1Format(p).value.Object?
    ensures var counts := Under(Under(p, "meta"), "latest_issue_counts");
      var bySeverity := Lookup(V1Format(p).value.members, "issueCountsBySeverity");
      bySeverity.Some? && bySeverity.value.Object?
      && Lookup(bySeverity.value.members, Severities[i]) == Some(Field(counts, Severities[i], Int(0)))
  {
    var w := Walk(p).value;
    V1FormatRecord(p);
    RecordCounts(p, w, i);
  }

  /** The attributes copied as they are, each null when absent. */
  lemma RecordAttributes(p: Json, w: Paths)
    ensures var m := Zip(V1Keys, V1Values(p, w));
      Lookup(m, "created") == Some(Field(w.attributes, "created", Null))
      && Lookup(m, "origin") == Some(Field(w.attributes, "origin", Null))
      && Lookup(m, "type") == Some(Field(w.attributes, "type", Null))
      && Lookup(m, "readOnly") == Some(Field(w.attributes, "read_only", Null))
  {
    V1Lookup(p, w, 2);
    V1Lookup(p, w, 3);
    V1Lookup(p, w, 4);
    V1Lookup(p, w, 5);
  }

  /** The test frequency and the date of the latest counts, each null when absent. */
  lemma RecordTests(p: Json, w: Paths)
    ensures var m := Zip(V1Keys, V1Values(p, w));
      Lookup(m, "testFrequency") == Some(Field(w.recurringTests, "frequency", Null))
      && Lookup(m, "lastTestedDate") == Some(Field(w.issueCounts, "updated_at", Null))
  {
    V1Lookup(p, w, 6);
    V1Lookup(p, w, 7);
  }

  /** The values read through the relationships, each null when absent. */
  lemma RecordRelations(p: Json, w: Paths)
    ensures var m := Zip(V1Keys, V1Values(p, w));
      Lookup(m, "remoteRepoUrl") == Some(Field(w.targetAttributes, "url", Null))
      && Lookup(m, "imageCluster") == Some(Field(w.integrationData, "cluster", Null))
      && Lookup(m, "importingUserId") == Some(Field(w.importerData, "id", Null))
      && Lookup(m, "owningUserId") == Some(Field(w.ownerData, "id", Null))
  {
    V1Lookup(p, w, 12);
    V1Lookup(p, w, 13);
    V1Lookup(p, w, 15);
    V1Lookup(p, w, 16);
  }

  /**
   * The attribute fields of the rewritten project, each null when the project
   * lacks it: created, origin, type, readOnly (from read_only), the test
   * frequency of the recurring tests and the date of the latest issue counts.
   */
  lemma V1FormatAttributes(p: Json)
    requires V1Format(p).Ok?
    ensures V1Format(p).value.Object?
    ensures var m := V1Format(p).value.members;
      var a := Under(p, "attributes");
      Lookup(m, "created") == Some(Field(a, "created", Null))
      && Lookup(m, "origin") == Some(Field(a, "origin", Null))
      && Lookup(m, "type") == Some(Field(a, "type", Null))
      && Lookup(m, "readOnly") == Some(Field(a, "read_only", Null))
      && Lookup(m, "testFrequency") == Some(Field(RecurringTestsOf(p), "frequency", Null))
      && Lookup(m, "lastTestedDate") == Some(Field(Under(Under(p, "meta"), "latest_issue_counts"), "updated_at", Null))
  {
    var w := Walk(p).value;
    V1FormatRecord(p);
    RecordAttributes(p, w);
    RecordTests(p, w);
  }

  /**
   * The relationship fields of the rewritten project, each null when the
   * project lacks it: the target's url and cluster, and the ids of the
   * importing and the owning user.
   */
  lemma V1FormatRelations(p: Json)
    requires V1Format(p).Ok?
    ensures V1Format(p).value.Object?
    ensures var m := V1Format(p).value.members;
      Lookup(m, "remoteRepoUrl") == Some(Field(Under(RelationData(p, "target"), "attributes"), "url", Null))
      && Lookup(m, "imageCluster") == Some(Field(IntegrationDataOf(p), "cluster", Null))
      && Lookup(m, "importingUserId") == Some(Field(RelationData(p, "importer"), "id", Null))
      && Lookup(m, "owningUserId") == Some(Field(RelationData(p, "owner"), "id", Null))
  {
    var w := Walk(p).value;
    V1FormatRecord(p);
    RecordRelations(p, w);
  }

  /** The severity counts of the v1 record. */
  lemma RecordCounts(p: Json, w: Paths, i: nat)
    requires i < |Severities|
    ensures var bySeverity := Lookup(Zip(V1Keys, V1Values(p, w)), "issueCountsBySeverity");
      bySeverity.Some? && bySeverity.value.Object?
      && Lookup(bySeverity.value.members, Severities[i]) == Some(Field(w.issueCounts, Severities[i], Int(0)))
  {
    V1Lookup(p, w, 9);
    SeverityLookup(w.issueCounts, i);
  }

  /** Each key of the v1 record holds its own value. */
  lemma V1Lookup(p: Json, w: Paths, i: nat)
    requires i < |V1Keys|
    ensures Lookup(Zip(V1Keys, V1Values(p, w)), V1Keys[i]) == Some(V1Values(p, w)[i])
  {
    V1KeysDistinct();
    ZipLookup(V1Keys, V1Values(p, w), i);
  }

  /** Each severity is found under its own name. */
  lemma SeverityLookup(counts: Json, i: nat)
    requires i < |Severities|
    ensures SeverityCounts(counts).Object?
    ensures Lookup(SeverityCounts(counts).members, Severities[i]) == Some(Field(counts, Severities[i], Int(0)))
  {
    var values := seq(|Severities|, j requires 0 <= j < |Severities| => Field(counts, Severities[j], Int(0)));
    ZipLookup(Severities, values, i);
  }

  /** A dict literal with distinct keys holds no key twice. */
  lemma {:induction false} ZipDict(keys: seq<string>, values: seq<Json>)
    requires |keys| == |values|
    requires forall j, k :: 0 <= j < k < |keys| ==> keys[j] != keys[k]
    ensures DictLike(Zip(keys, values))
  {
    if keys != [] {
      var tail := Zip(keys[1..], values[1..]);
      assert Zip(keys, values)[1..] == tail;
      ZipDict(keys[1..], values[1..]);
      KeysIndexed(tail);
      assert Keys(tail) == keys[1..];
    }
  }

  /** The rewritten project is a dict with no repeated key. */
  lemma V1FormatDict(p: Json)
    requires V1Format(p).Ok?
    ensures V1Format(p).value.Object? && DictLike(V1Format(p).value.members)
  {
    V1FormatRecord(p);
    V1KeysDistinct();
    ZipDict(V1Keys, V1Values(p, Walk(p).value));
  }

  /** The rewritten project carries no "attributes", "organization" or "totalDependencies" key. */
  lemma V1FormatLacks(p: Json)
    requires V1Format(p).Ok?
    ensures V1Format(p).value.Object?
    ensures var m := V1Format(p).value.members;
      !HasKey(m, "attributes") && !HasKey(m, "organization") && !HasKey(m, "totalDependencies")
  {
    V1FormatKeys(p);
    V1KeysLack();
  }

  lemma V1KeysLack()
    ensures "attributes" !in V1Keys && "organization" !in V1Keys && "totalDependencies" !in V1Keys
  {
  }
}
