/** The `products` and `inquiries` record shapes and the acceptance rules of their
    insert schemas (shared/schema.ts). The insert schemas are derived from the table
    definitions: every `notNull` text column without a default is a required string,
    a nullable text column may be absent or null, `createdAt` has a default and may
    be omitted, and `id` is not part of the shape at all. */
module Schema {
  import opened Wrappers

  /** A creation timestamp; the model treats it as an opaque value. */
  type Timestamp = int

  datatype Product = Product(
    id: int,
    name: string,
    description: string,
    price: string,
    category: string,
    imageUrl: string,
    createdAt: Timestamp)

  datatype Inquiry = Inquiry(
    id: int,
    name: string,
    email: string,
    message: string,
    serviceOfInterest: Option<string>,
    createdAt: Timestamp)

  /** What `insertProductSchema` yields: the row without `id`, `createdAt` optional. */
  datatype InsertProduct = InsertProduct(
    name: string,
    description: string,
    price: string,
    category: string,
    imageUrl: string,
    createdAt: Option<Timestamp>)

  /** What `insertInquirySchema` yields. */
  datatype InsertInquiry = InsertInquiry(
    name: string,
    email: string,
    message: string,
    serviceOfInterest: Option<string>,
    createdAt: Option<Timestamp>)

  /** The row the database stores for an insert: the server assigns `id`, and
      `createdAt` defaults to the time of the insert. */
  function StoredProduct(id: int, input: InsertProduct, now: Timestamp): Product {
    Product(id, input.name, input.description, input.price, input.category, input.imageUrl,
            input.createdAt.GetOr(now))
  }

  function StoredInquiry(id: int, input: InsertInquiry, now: Timestamp): Inquiry {
    Inquiry(id, input.name, input.email, input.message, input.serviceOfInterest,
            input.createdAt.GetOr(now))
  }

  /** The insert input a stored row corresponds to (its own `createdAt` made explicit). */
  function ProductInput(p: Product): InsertProduct {
    InsertProduct(p.name, p.description, p.price, p.category, p.imageUrl, Some(p.createdAt))
  }

  function InquiryInput(q: Inquiry): InsertInquiry {
    InsertInquiry(q.name, q.email, q.message, q.serviceOfInterest, Some(q.createdAt))
  }

  /** A stored product is its insert input plus the assigned id and timestamp: every
      submitted field is preserved, and the row determines the input back. */
  lemma StoredProductPreservesInput(id: int, input: InsertProduct, now: Timestamp)
    ensures StoredProduct(id, input, now).id == id
    ensures ProductInput(StoredProduct(id, input, now))
         == input.(createdAt := Some(input.createdAt.GetOr(now)))
    ensures input.createdAt.None? ==> StoredProduct(id, input, now).createdAt == now
  {
  }

  lemma StoredInquiryPreservesInput(id: int, input: InsertInquiry, now: Timestamp)
    ensures StoredInquiry(id, input, now).id == id
    ensures InquiryInput(StoredInquiry(id, input, now))
         == input.(createdAt := Some(input.createdAt.GetOr(now)))
    ensures input.createdAt.None? ==> StoredInquiry(id, input, now).createdAt == now
  {
  }

  // ---------------------------------------------------------------------------
  // Request bodies and validation issues
  // ---------------------------------------------------------------------------

  /** A parsed JSON request body (numbers restricted to integers). */
  datatype Json =
    | JNull
    | JBool(b: bool)
    | JNumber(n: int)
    | JString(s: string)
    | JArray(items: seq<Json>)
    | JObject(fields: map<string, Json>)

  /** The type name a validation message reports for a received value. */
  function TypeName(v: Json): string {
    match v
    case JNull => "null"
    case JBool(_) => "boolean"
    case JNumber(_) => "number"
    case JString(_) => "string"
    case JArray(_) => "array"
    case JObject(_) => "object"
  }

  /** One validation issue: the path of the offending value and a message. Numeric
      path segments are held as their decimal text. */
  datatype Issue = Issue(path: seq<string>, message: string)

  datatype FieldKind =
    | RequiredString   // `text(...).notNull()` without a default
    | NullableString   // `text(...)`: may be absent, null or a string
    | OptionalDate     // `timestamp(...).defaultNow().notNull()`: may be absent

  datatype FieldRule = FieldRule(key: string, kind: FieldKind)

  /** The insert shapes, in column order (`id` omitted). Validation checks the keys
      in this order, so the order decides which issue comes first. */
  const ProductRules: seq<FieldRule> := [
    FieldRule("name", RequiredString),
    FieldRule("description", RequiredString),
    FieldRule("price", RequiredString),
    FieldRule("category", RequiredString),
    FieldRule("imageUrl", RequiredString),
    FieldRule("createdAt", OptionalDate)
  ]

  const InquiryRules: seq<FieldRule> := [
    FieldRule("name", RequiredString),
    FieldRule("email", RequiredString),
    FieldRule("message", RequiredString),
    FieldRule("serviceOfInterest", NullableString),
    FieldRule("createdAt", OptionalDate)
  ]

  /** Whether the object's value under `rule.key` is acceptable. A JSON body cannot
      carry a date value, so a present `createdAt` is never acceptable. */
  predicate RuleHolds(fields: map<string, Json>, rule: FieldRule) {
    match rule.kind
    case RequiredString => rule.key in fields && fields[rule.key].JString?
    case NullableString =>
      rule.key !in fields || fields[rule.key].JNull? || fields[rule.key].JString?
    case OptionalDate => rule.key !in fields
  }

  /** The issue a single field raises, if any. */
  function RuleIssue(fields: map<string, Json>, rule: FieldRule): (r: Option<Issue>)
    ensures r.None? <==> RuleHolds(fields, rule)
    ensures r.Some? ==> r.value.path == [rule.key]
  {
    if rule.key !in fields then
      if rule.kind == RequiredString then Some(Issue([rule.key], "Required")) else None
    else
      var v := fields[rule.key];
      match rule.kind
      case RequiredString =>
        if v.JString? then None
        else Some(Issue([rule.key], "Expected string, received " + TypeName(v)))
      case NullableString =>
        if v.JString? || v.JNull? then None
        else Some(Issue([rule.key], "Expected string, received " + TypeName(v)))
      case OptionalDate =>
        Some(Issue([rule.key], "Expected date, received " + TypeName(v)))
  }

  /** All issues of an object body, one per failing rule, in rule order. */
  function FieldIssues(fields: map<string, Json>, rules: seq<FieldRule>): (r: seq<Issue>)
    ensures |r| <= |rules|
    ensures r == [] <==> forall i :: 0 <= i < |rules| ==> RuleHolds(fields, rules[i])
  {
    if rules == [] then []
    else
      var rest := FieldIssues(fields, rules[1..]);
      match RuleIssue(fields, rules[0])
      case Some(issue) => [issue] + rest
      case None =>
        assert forall k :: 1 <= k < |rules| ==> rules[k] == rules[1..][k - 1];
        rest
  }

  /** The positions, from `from` on, of the rules the object fails, in increasing
      order (characterised by `FailingPositionsExact`). */
  function FailingPositions(fields: map<string, Json>, rules: seq<FieldRule>, from: nat): seq<nat>
    decreases |rules| - from
  {
    if from >= |rules| then []
    else
      var rest := FailingPositions(fields, rules, from + 1);
      if RuleHolds(fields, rules[from]) then rest else [from] + rest
  }

  /** Every listed position is a failing rule at or after `from`, the positions
      increase, and no failing position is missed. */
  lemma {:induction false} FailingPositionsExact(fields: map<string, Json>, rules: seq<FieldRule>,
                                                 from: nat)
    ensures var idx := FailingPositions(fields, rules, from);
      && (forall i :: 0 <= i < |idx| ==> from <= idx[i] < |rules| && !RuleHolds(fields, rules[idx[i]]))
      && (forall i, j :: 0 <= i < j < |idx| ==> idx[i] < idx[j])
      && (forall k :: from <= k < |rules| && !RuleHolds(fields, rules[k]) ==> k in idx)
    decreases |rules| - from
  {
    if from < |rules| {
      FailingPositionsExact(fields, rules, from + 1);
      var idx := FailingPositions(fields, rules, from);
      var rest := FailingPositions(fields, rules, from + 1);
      if RuleHolds(fields, rules[from]) {
        assert idx == rest;
      } else {
        assert idx == [from] + rest;
        assert forall i :: 0 < i < |idx| ==> idx[i] == rest[i - 1];
      }
    }
  }

  /** The issues raised by the rules from `from` on are, one for one, the issues of
      the failing positions from `from` on. */
  lemma {:induction false} IssuesAtFailingPositions(fields: map<string, Json>, rules: seq<FieldRule>,
                                                    from: nat)
    requires from <= |rules|
    ensures var idx := FailingPositions(fields, rules, from);
      && |FieldIssues(fields, rules[from..])| == |idx|
      && forall i :: 0 <= i < |idx| ==>
           idx[i] < |rules| && Some(FieldIssues(fields, rules[from..])[i]) == RuleIssue(fields, rules[idx[i]])
    decreases |rules| - from
  {
    if from < |rules| {
      IssuesAtFailingPositions(fields, rules, from + 1);
      var s := rules[from..];
      assert s[0] == rules[from] && s[1..] == rules[from + 1..];
      var rest := FieldIssues(fields, s[1..]);
      var r := FieldIssues(fields, s);
      var idx := FailingPositions(fields, rules, from);
      var idxRest := FailingPositions(fields, rules, from + 1);
      if RuleHolds(fields, rules[from]) {
        assert r == rest && idx == idxRest;
      } else {
        assert r == [RuleIssue(fields, rules[from]).value] + rest;
        assert idx == [from] + idxRest;
        forall i | 0 < i < |idx|
          ensures idx[i] < |rules| && Some(r[i]) == RuleIssue(fields, rules[idx[i]])
        {
          assert r[i] == rest[i - 1] && idx[i] == idxRest[i - 1];
        }
      }
    }
  }

  /** The issue list has one issue per failing rule and no other, in rule order: its
      i-th issue is the one raised by the i-th failing rule. */
  lemma IssuesAreFailingRulesInOrder(fields: map<string, Json>, rules: seq<FieldRule>)
    ensures var idx := FailingPositions(fields, rules, 0);
      && |FieldIssues(fields, rules)| == |idx|
      && forall i :: 0 <= i < |idx| ==>
           idx[i] < |rules| && Some(FieldIssues(fields, rules)[i]) == RuleIssue(fields, rules[idx[i]])
  {
    IssuesAtFailingPositions(fields, rules, 0);
    assert rules[0..] == rules;
  }

  /** `issue` is the issue raised by the rule at position `k`. */
  predicate RaisedBy(fields: map<string, Json>, rules: seq<FieldRule>, k: int, issue: Issue) {
    0 <= k < |rules| && RuleIssue(fields, rules[k]) == Some(issue)
  }

  /** `issue` is raised by some rule. */
  ghost predicate RaisedBySome(fields: map<string, Json>, rules: seq<FieldRule>, issue: Issue) {
    exists k :: RaisedBy(fields, rules, k, issue)
  }

  /** `issue` is raised by the first rule that fails. */
  ghost predicate RaisedByFirstFailing(fields: map<string, Json>, rules: seq<FieldRule>, issue: Issue) {
    exists k :: RaisedBy(fields, rules, k, issue) && forall j :: 0 <= j < k ==> RuleHolds(fields, rules[j])
  }

  /** Every issue comes from a failing rule, and the first issue is the one of the
      first failing rule in shape order. */
  lemma {:induction false} IssuesFollowRuleOrder(fields: map<string, Json>, rules: seq<FieldRule>)
    ensures forall i :: 0 <= i < |FieldIssues(fields, rules)| ==>
      RaisedBySome(fields, rules, FieldIssues(fields, rules)[i])
    ensures FieldIssues(fields, rules) != [] ==>
      RaisedByFirstFailing(fields, rules, FieldIssues(fields, rules)[0])
  {
    if rules != [] {
      IssuesFollowRuleOrder(fields, rules[1..]);
      var r := FieldIssues(fields, rules);
      var rest := FieldIssues(fields, rules[1..]);
      forall i | 0 <= i < |r| ensures RaisedBySome(fields, rules, r[i]) {
        if RuleIssue(fields, rules[0]).Some? {
          assert r == [RuleIssue(fields, rules[0]).value] + rest;
          if i == 0 {
            assert RaisedBy(fields, rules, 0, r[i]);
          } else {
            assert RaisedBySome(fields, rules[1..], rest[i - 1]);
            var k :| RaisedBy(fields, rules[1..], k, rest[i - 1]);
            assert RaisedBy(fields, rules, k + 1, r[i]);
          }
        } else {
          assert r == rest;
          assert RaisedBySome(fields, rules[1..], rest[i]);
          var k :| RaisedBy(fields, rules[1..], k, rest[i]);
          assert RaisedBy(fields, rules, k + 1, r[i]);
        }
      }
      if r != [] && RuleIssue(fields, rules[0]).None? {
        assert r == rest;
        var k :| RaisedBy(fields, rules[1..], k, rest[0])
          && forall j :: 0 <= j < k ==> RuleHolds(fields, rules[1..][j]);
        assert RaisedBy(fields, rules, k + 1, r[0]);
        forall j | 0 <= j < k + 1 ensures RuleHolds(fields, rules[j]) {
          if j > 0 { assert rules[j] == rules[1..][j - 1]; }
        }
      } else if r != [] {
        assert RaisedBy(fields, rules, 0, r[0]);
      }
    }
  }

  /** All issues of a body: a body that is not an object raises one issue at the
      empty path. */
  function BodyIssues(body: Json, rules: seq<FieldRule>): (r: seq<Issue>)
    ensures !body.JObject? ==> |r| == 1 && r[0].path == []
  {
    if body.JObject? then FieldIssues(body.fields, rules)
    else [Issue([], "Expected object, received " + TypeName(body))]
  }

  predicate HasString(fields: map<string, Json>, key: string) {
    key in fields && fields[key].JString?
  }

  /** Which product insert bodies are accepted: the five text fields are present
      strings (possibly empty, and `category` free text) and no `createdAt` is sent. */
  predicate AcceptsInsertProduct(body: Json) {
    && body.JObject?
    && HasString(body.fields, "name")
    && HasString(body.fields, "description")
    && HasString(body.fields, "price")
    && HasString(body.fields, "category")
    && HasString(body.fields, "imageUrl")
    && "createdAt" !in body.fields
  }

  /** Which inquiry insert bodies are accepted: `name`, `email` and `message` are
      present strings (the email's format is not checked), `serviceOfInterest` is
      absent, null or a string, and no `createdAt` is sent. */
  predicate AcceptsInsertInquiry(body: Json) {
    && body.JObject?
    && HasString(body.fields, "name")
    && HasString(body.fields, "email")
    && HasString(body.fields, "message")
    && ("serviceOfInterest" !in body.fields
        || body.fields["serviceOfInterest"].JNull?
        || body.fields["serviceOfInterest"].JString?)
    && "createdAt" !in body.fields
  }

  /** The field-by-field issue collection rejects exactly what the acceptance
      predicate rejects. */
  lemma ProductIssuesIffRejected(body: Json)
    ensures BodyIssues(body, ProductRules) == [] <==> AcceptsInsertProduct(body)
  {
    if body.JObject? {
      var f := body.fields;
      if AcceptsInsertProduct(body) {
        forall i | 0 <= i < |ProductRules| ensures RuleHolds(f, ProductRules[i]) {
        }
      } else {
        assert !RuleHolds(f, ProductRules[0]) || !RuleHolds(f, ProductRules[1])
            || !RuleHolds(f, ProductRules[2]) || !RuleHolds(f, ProductRules[3])
            || !RuleHolds(f, ProductRules[4]) || !RuleHolds(f, ProductRules[5]);
      }
    }
  }

  lemma InquiryIssuesIffRejected(body: Json)
    ensures BodyIssues(body, InquiryRules) == [] <==> AcceptsInsertInquiry(body)
  {
    if body.JObject? {
      var f := body.fields;
      if AcceptsInsertInquiry(body) {
        forall i | 0 <= i < |InquiryRules| ensures RuleHolds(f, InquiryRules[i]) {
        }
      } else {
        assert !RuleHolds(f, InquiryRules[0]) || !RuleHolds(f, InquiryRules[1])
            || !RuleHolds(f, InquiryRules[2]) || !RuleHolds(f, InquiryRules[3])
            || !RuleHolds(f, InquiryRules[4]);
      }
    }
  }

  /** `insertProductSchema.parse`: the validated input, or every issue in order. */
  function ParseInsertProduct(body: Json): (r: Result<InsertProduct, seq<Issue>>)
    ensures r.Success? <==> AcceptsInsertProduct(body)
    ensures r.Failure? ==> r.error == BodyIssues(body, ProductRules) && r.error != []
  {
    ProductIssuesIffRejected(body);
    if AcceptsInsertProduct(body) then
      var f := body.fields;
      Success(InsertProduct(f["name"].s, f["description"].s, f["price"].s,
                            f["category"].s, f["imageUrl"].s, None))
    else
      Failure(BodyIssues(body, ProductRules))
  }

  /** `insertInquirySchema.parse`; an absent and a null `serviceOfInterest` both
      become `None`. */
  function ParseInsertInquiry(body: Json): (r: Result<InsertInquiry, seq<Issue>>)
    ensures r.Success? <==> AcceptsInsertInquiry(body)
    ensures r.Failure? ==> r.error == BodyIssues(body, InquiryRules) && r.error != []
  {
    InquiryIssuesIffRejected(body);
    if AcceptsInsertInquiry(body) then
      var f := body.fields;
      var service :=
        if "serviceOfInterest" in f && f["serviceOfInterest"].JString?
        then Some(f["serviceOfInterest"].s) else None;
      Success(InsertInquiry(f["name"].s, f["email"].s, f["message"].s, service, None))
    else
      Failure(BodyIssues(body, InquiryRules))
  }

  /** The JSON body a client sends for an insert input (a date is not expressible in
      JSON, so `createdAt` is not sent; an absent `serviceOfInterest` is omitted). */
  function ProductBody(input: InsertProduct): Json {
    JObject(map[
      "name" := JString(input.name),
      "description" := JString(input.description),
      "price" := JString(input.price),
      "category" := JString(input.category),
      "imageUrl" := JString(input.imageUrl)])
  }

  function InquiryBody(input: InsertInquiry): Json {
    var required := map[
      "name" := JString(input.name),
      "email" := JString(input.email),
      "message" := JString(input.message)];
    match input.serviceOfInterest
    case None => JObject(required)
    case Some(s) => JObject(required["serviceOfInterest" := JString(s)])
  }

  /** Every input without a `createdAt` survives being sent and validated: all its
      fields, whatever strings they hold, come back unchanged. */
  lemma ProductBodyRoundTrip(input: InsertProduct)
    requires input.createdAt.None?
    ensures ParseInsertProduct(ProductBody(input)) == Success(input)
  {
    var f := ProductBody(input).fields;
    assert "createdAt" !in f by {
      assert f.Keys == {"name", "description", "price", "category", "imageUrl"};
    }
  }

  lemma InquiryBodyRoundTrip(input: InsertInquiry)
    requires input.createdAt.None?
    ensures ParseInsertInquiry(InquiryBody(input)) == Success(input)
  {
    var f := InquiryBody(input).fields;
    assert "createdAt" !in f by {
      assert f.Keys <= {"name", "email", "message", "serviceOfInterest"};
    }
  }

  /** A key that is no column of the shape (for one, `id`) is stripped: adding it to
      the body changes neither the issues nor the parsed input. */
  lemma {:induction false} UnknownKeyIgnoredByRules(fields: map<string, Json>, rules: seq<FieldRule>,
                                                    k: string, v: Json)
    requires forall i :: 0 <= i < |rules| ==> rules[i].key != k
    ensures FieldIssues(fields[k := v], rules) == FieldIssues(fields, rules)
  {
    if rules != [] {
      UnknownKeyIgnoredByRules(fields, rules[1..], k, v);
      assert RuleIssue(fields[k := v], rules[0]) == RuleIssue(fields, rules[0]);
    }
  }

  lemma UnknownKeyIgnoredByInquiry(fields: map<string, Json>, k: string, v: Json)
    requires k != "name" && k != "email" && k != "message" && k != "serviceOfInterest"
    requires k != "createdAt"
    ensures ParseInsertInquiry(JObject(fields[k := v])) == ParseInsertInquiry(JObject(fields))
  {
    forall i | 0 <= i < |InquiryRules| ensures InquiryRules[i].key != k {
    }
    UnknownKeyIgnoredByRules(fields, InquiryRules, k, v);
  }

  lemma UnknownKeyIgnoredByProduct(fields: map<string, Json>, k: string, v: Json)
    requires k != "name" && k != "description" && k != "price" && k != "category"
    requires k != "imageUrl" && k != "createdAt"
    ensures ParseInsertProduct(JObject(fields[k := v])) == ParseInsertProduct(JObject(fields))
  {
    forall i | 0 <= i < |ProductRules| ensures ProductRules[i].key != k {
    }
    UnknownKeyIgnoredByRules(fields, ProductRules, k, v);
  }

  /** `id` is not part of either insert shape: a client-sent id is ignored. */
  lemma ClientIdIgnored(fields: map<string, Json>, v: Json)
    ensures ParseInsertInquiry(JObject(fields["id" := v])) == ParseInsertInquiry(JObject(fields))
    ensures ParseInsertProduct(JObject(fields["id" := v])) == ParseInsertProduct(JObject(fields))
  {
    UnknownKeyIgnoredByInquiry(fields, "id", v);
    UnknownKeyIgnoredByProduct(fields, "id", v);
  }

  // ---------------------------------------------------------------------------
  // Issue paths as reported fields
  // ---------------------------------------------------------------------------

  /** `path.join(".")`. */
  function JoinPath(path: seq<string>): string {
    if |path| == 0 then ""
    else if |path| == 1 then path[0]
    else path[0] + "." + JoinPath(path[1..])
  }

  /** Splits a reported field back into its segments at every '.'. */
  function SplitPath(s: string): (r: seq<string>)
    ensures |r| >= 1
  {
    if s == [] then [""]
    else
      var rest := SplitPath(s[1..]);
      if s[0] == '.' then [""] + rest else [[s[0]] + rest[0]] + rest[1..]
  }

  lemma {:induction false} SplitSegment(a: string, t: string)
    requires '.' !in a
    ensures SplitPath(a) == [a]
    ensures SplitPath(a + "." + t) == [a] + SplitPath(t)
  {
    if a == [] {
      assert ("" + "." + t)[1..] == t;
    } else {
      SplitSegment(a[1..], t);
      assert (a + "." + t)[1..] == a[1..] + "." + t;
      assert [a[0]] + a[1..] == a;
    }
  }

  /** A non-empty path whose segments hold no '.' is recovered from its joined
      field, so the reported field identifies the offending value. */
  lemma {:induction false} SplitJoinPath(path: seq<string>)
    requires |path| >= 1
    requires forall i :: 0 <= i < |path| ==> '.' !in path[i]
    ensures SplitPath(JoinPath(path)) == path
  {
    if |path| == 1 {
      SplitSegment(path[0], "");
    } else {
      SplitJoinPath(path[1..]);
      SplitSegment(path[0], JoinPath(path[1..]));
      assert [path[0]] + path[1..] == path;
    }
  }

  // ---------------------------------------------------------------------------
  // The cases the schema tests state
  // ---------------------------------------------------------------------------

  /** A product with every field is accepted, and a category outside the five
      listed in the column comment ("test") is accepted too. */
  lemma ProductSchemaAcceptsComplete(category: string)
    ensures ParseInsertProduct(JObject(map[
      "name" := JString("Test Product"), "description" := JString("Test Description"),
      "price" := JString("$100"), "category" := JString(category),
      "imageUrl" := JString("https://example.com/image.jpg")])).Success?
  {
    ProductBodyRoundTrip(InsertProduct("Test Product", "Test Description", "$100", category,
                                       "https://example.com/image.jpg", None));
  }

  /** A product with only a name is rejected; the first issue reports the missing
      `description`. */
  lemma ProductSchemaRejectsMissing()
    ensures var r := ParseInsertProduct(JObject(map["name" := JString("Test Product")]));
      r.Failure? && r.error[0] == Issue(["description"], "Required")
  {
    var f := map["name" := JString("Test Product")];
    assert "description" !in f;
    assert RuleHolds(f, ProductRules[0]);
    assert FieldIssues(f, ProductRules[1..]) == [Issue(["description"], "Required")] + FieldIssues(f, ProductRules[2..]);
    assert FieldIssues(f, ProductRules) == FieldIssues(f, ProductRules[1..]);
  }

  /** An inquiry with or without `serviceOfInterest`, and one whose email is not an
      email address, are all accepted. */
  lemma InquirySchemaCases()
    ensures ParseInsertInquiry(JObject(map[
      "name" := JString("John Doe"), "email" := JString("john@example.com"),
      "message" := JString("I need help with my computer")]
      ["serviceOfInterest" := JString("Computer Repair")])).Success?
    ensures ParseInsertInquiry(JObject(map[
      "name" := JString("John Doe"), "email" := JString("john@example.com"),
      "message" := JString("I need help")]))
      == Success(InsertInquiry("John Doe", "john@example.com", "I need help", None, None))
    ensures ParseInsertInquiry(JObject(map[
      "name" := JString("John Doe"), "email" := JString("not-an-email"),
      "message" := JString("I need help")])).Success?
  {
    InquiryBodyRoundTrip(InsertInquiry("John Doe", "john@example.com",
      "I need help with my computer", Some("Computer Repair"), None));
    InquiryBodyRoundTrip(InsertInquiry("John Doe", "john@example.com", "I need help", None, None));
    InquiryBodyRoundTrip(InsertInquiry("John Doe", "not-an-email", "I need help", None, None));
  }
}
