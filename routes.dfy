/** The three API routes and the start-up seeding of server/routes.ts, over the
    abstract store. The read-only handlers are functions of the current products; the
    inquiry handler and `seedDatabase` change the store and are methods, each proved
    against a function of the state before. */
module Routes {
  import opened Wrappers
  import opened Schema
  import opened Storage

  /** The JSON bodies the routes send. */
  datatype RouteBody =
    | ProductList(products: seq<Product>)
    | OneProduct(product: Product)
    | Message(message: string)
    | FieldFailure(message: string, field: string)
    | CreatedInquiry(inquiry: Inquiry)

  datatype Reply = Reply(status: int, body: RouteBody)

  /** A handler either answers, or lets an error that is not a validation error
      escape to the framework. */
  datatype HandlerOutcome = Answered(reply: Reply) | Rethrown

  /** GET /api/products: every product, in store order. */
  function ListProductsReply(products: seq<Product>): (r: Reply)
    ensures r.status == 200 && r.body.ProductList?
    ensures r.body.products == products
  {
    Reply(200, ProductList(products))
  }

  /** GET /api/products/:id, with `id` the result of `Number(req.params.id)` when
      that is an integer and `None` when it is not (such an id matches no row). */
  function GetProductReply(products: seq<Product>, id: Option<int>): (r: Reply)
    ensures r.status == 404 <==> id.None? || FindProduct(products, id.value).None?
    ensures r.status == 404 ==> r.body == Message("Product not found")
    ensures r.status != 404 ==>
      && r.status == 200
      && r.body.OneProduct?
      && r.body.product in products
      && r.body.product.id == id.value
  {
    match id
    case None => Reply(404, Message("Product not found"))
    case Some(n) =>
      match FindProduct(products, n)
      case None => Reply(404, Message("Product not found"))
      case Some(p) => Reply(200, OneProduct(p))
  }

  /** On a valid store an id never issued answers 404, and the id of any stored
      product answers 200 with exactly that product. */
  lemma GetProductByIssuedId(t: Tables, id: int)
    requires ValidTables(t)
    ensures (id < 1 || id >= t.nextProductId) ==>
      GetProductReply(t.products, Some(id)) == Reply(404, Message("Product not found"))
    ensures forall p :: p in t.products && p.id == id ==>
      GetProductReply(t.products, Some(id)) == Reply(200, OneProduct(p))
  {
    LookupMatchesIssuedIds(t, id);
    forall p | p in t.products && p.id == id
      ensures GetProductReply(t.products, Some(id)) == Reply(200, OneProduct(p))
    {
      var i :| 0 <= i < |t.products| && t.products[i] == p;
    }
  }

  /** After `createProduct` the list ends with the new row, the new id answers 200
      with it, and every earlier id answers as before. */
  lemma CreatedProductListedAndFound(t: Tables, input: InsertProduct, now: Timestamp, id: int)
    requires ValidTables(t)
    ensures var t' := AddProduct(t, input, now);
      var p := StoredProduct(t.nextProductId, input, now);
      && ListProductsReply(t'.products).body.products == t.products + [p]
      && GetProductReply(t'.products, Some(t.nextProductId)) == Reply(200, OneProduct(p))
      && (id != t.nextProductId ==>
            GetProductReply(t'.products, Some(id)) == GetProductReply(t.products, Some(id)))
  {
    AddProductLookup(t, input, now, t.nextProductId);
    AddProductLookup(t, input, now, id);
  }

  /** The 400 reply for a failed validation: the first issue's message and its path
      joined by ".". */
  function FirstIssueReply(issues: seq<Issue>): (r: Reply)
    requires issues != []
    ensures r.status == 400 && r.body.FieldFailure?
    ensures r.body.message == issues[0].message
    ensures r.body.field == JoinPath(issues[0].path)
    // the field gives the path back when the path is non-empty and free of dots
    ensures (issues[0].path != [] && forall i :: 0 <= i < |issues[0].path| ==> '.' !in issues[0].path[i])
      ==> SplitPath(r.body.field) == issues[0].path
  {
    var path := issues[0].path;
    var reply := Reply(400, FieldFailure(issues[0].message, JoinPath(path)));
    if path != [] && forall i :: 0 <= i < |path| ==> '.' !in path[i] then
      SplitJoinPath(path);
      reply
    else
      reply
  }

  /** POST /api/inquiries as a function of the tables before: the tables after and
      the outcome. `storageFails` says whether the store's insert throws. */
  function CreateInquiryRun(t: Tables, body: Json, now: Timestamp, storageFails: bool)
    : (Tables, HandlerOutcome)
  {
    match ParseInsertInquiry(body)
    case Failure(issues) => (t, Answered(FirstIssueReply(issues)))
    case Success(input) =>
      if storageFails then (t, Rethrown)
      else
        var t' := AddInquiry(t, input, now);
        (t', Answered(Reply(201, CreatedInquiry(StoredInquiry(t.nextInquiryId, input, now)))))
  }

  /** A body that fails validation answers 400 with the issue of the first failing
      field in shape order (the field name itself; "" for a body that is not an
      object), and leaves the store unchanged. */
  lemma InvalidInquiryRejected(t: Tables, body: Json, now: Timestamp, storageFails: bool)
    requires !AcceptsInsertInquiry(body)
    ensures var (t', out) := CreateInquiryRun(t, body, now, storageFails);
      && t' == t
      && out.Answered?
      && out.reply.status == 400
      && out.reply.body.FieldFailure?
      && (!body.JObject? ==> out.reply.body.field == "")
      && (body.JObject? ==>
            RaisedByFirstFailing(body.fields, InquiryRules,
                                 Issue([out.reply.body.field], out.reply.body.message)))
  {
    InquiryIssuesIffRejected(body);
    var issues := BodyIssues(body, InquiryRules);
    if body.JObject? {
      IssuesFollowRuleOrder(body.fields, InquiryRules);
      var k :| RaisedBy(body.fields, InquiryRules, k, issues[0])
        && forall j :: 0 <= j < k ==> RuleHolds(body.fields, InquiryRules[j]);
      assert issues[0].path == [InquiryRules[k].key];
      assert Issue([JoinPath(issues[0].path)], issues[0].message) == issues[0];
    }
  }

  /** A valid body answers 201 with a new inquiry appended to the store: its id is
      fresh, and the submitted name, email, message and service are kept. */
  lemma ValidInquiryCreated(t: Tables, body: Json, now: Timestamp)
    requires ValidTables(t) && AcceptsInsertInquiry(body)
    ensures var (t', out) := CreateInquiryRun(t, body, now, false);
      && ValidTables(t')
      && out.Answered? && out.reply.status == 201 && out.reply.body.CreatedInquiry?
      && t'.inquiries == t.inquiries + [out.reply.body.inquiry]
      && t'.products == t.products
      && (forall q :: q in t.inquiries ==> q.id != out.reply.body.inquiry.id)
      && out.reply.body.inquiry.name == body.fields["name"].s
      && out.reply.body.inquiry.email == body.fields["email"].s
      && out.reply.body.inquiry.message == body.fields["message"].s
      && out.reply.body.inquiry.serviceOfInterest ==
           (if "serviceOfInterest" in body.fields && body.fields["serviceOfInterest"].JString?
            then Some(body.fields["serviceOfInterest"].s) else None)
  {
    var input := ParseInsertInquiry(body).value;
    AddInquirySound(t, input, now);
  }

  /** Posting the same valid body twice stores two inquiries with distinct ids: there
      is no deduplication. */
  lemma RepeatedPostsEachStored(t: Tables, body: Json, now1: Timestamp, now2: Timestamp)
    requires ValidTables(t) && AcceptsInsertInquiry(body)
    ensures var (t1, out1) := CreateInquiryRun(t, body, now1, false);
      var (t2, out2) := CreateInquiryRun(t1, body, now2, false);
      && |t2.inquiries| == |t.inquiries| + 2
      && out1.Answered? && out2.Answered?
      && out1.reply.body.CreatedInquiry? && out2.reply.body.CreatedInquiry?
      && out1.reply.body.inquiry.id != out2.reply.body.inquiry.id
  {
    ValidInquiryCreated(t, body, now1);
  }

  /** A failure of the store is not turned into a 400: it escapes, and nothing is
      stored. */
  lemma StorageFailureRethrown(t: Tables, body: Json, now: Timestamp)
    requires AcceptsInsertInquiry(body)
    ensures CreateInquiryRun(t, body, now, true) == (t, Rethrown)
  {
  }

  /** GET /api/products on the store. The handler has no `try`: when the store's read
      fails (`readFails`), the error escapes to the framework. */
  method HandleListProducts(store: Store, readFails: bool) returns (out: HandlerOutcome)
    ensures readFails ==> out == Rethrown
    ensures !readFails ==> out == Answered(ListProductsReply(store.products))
  {
    if readFails {
      return Rethrown;
    }
    var products := store.GetProducts();
    out := Answered(Reply(200, ProductList(products)));
  }

  /** GET /api/products/:id on the store. The lookup is made for every id, a
      non-numeric one included, so a failing read escapes whatever the id. */
  method HandleGetProduct(store: Store, id: Option<int>, readFails: bool) returns (out: HandlerOutcome)
    ensures readFails ==> out == Rethrown
    ensures !readFails ==> out == Answered(GetProductReply(store.products, id))
  {
    if readFails {
      return Rethrown;
    }
    if id.None? {
      return Answered(Reply(404, Message("Product not found")));
    }
    var product := store.GetProduct(id.value);
    if product.None? {
      return Answered(Reply(404, Message("Product not found")));
    }
    out := Answered(Reply(200, OneProduct(product.value)));
  }

  /** POST /api/inquiries on the store. */
  method HandleCreateInquiry(store: Store, body: Json, now: Timestamp, storageFails: bool)
    returns (out: HandlerOutcome)
    requires store.Valid()
    modifies store
    ensures store.Valid()
    ensures (store.State(), out) == CreateInquiryRun(old(store.State()), body, now, storageFails)
  {
    var parsed := ParseInsertInquiry(body);
    if parsed.Failure? {
      return Answered(FirstIssueReply(parsed.error));
    }
    if storageFails {
      return Rethrown;
    }
    var inquiry := store.CreateInquiry(parsed.value, now);
    out := Answered(Reply(201, CreatedInquiry(inquiry)));
  }

  // ---------------------------------------------------------------------------
  // seedDatabase
  // ---------------------------------------------------------------------------

  /** The five catalog entries `seedDatabase` creates, in order. */
  const RouteSeeds: seq<InsertProduct> := [
    InsertProduct(
      "Computer Repair & Diagnostics",
      "Comprehensive hardware and software troubleshooting for desktops and laptops. We fix crashes, slow performance, and hardware failures.",
      "Starts at $50",
      "service",
      "https://images.unsplash.com/photo-1597872252721-240bcdd23f96?auto=format&fit=crop&q=80",
      None),
    InsertProduct(
      "Custom Website Development",
      "Professional, responsive websites tailored to your business needs. From landing pages to full e-commerce solutions.",
      "Contact for Quote",
      "software",
      "https://images.unsplash.com/photo-1547658719-da2b51169166?auto=format&fit=crop&q=80",
      None),
    InsertProduct(
      "Mobile App Development",
      "Native and cross-platform mobile applications for iOS and Android. Bring your app idea to life.",
      "Contact for Quote",
      "software",
      "https://images.unsplash.com/photo-1512941937669-90a1b58e7e9c?auto=format&fit=crop&q=80",
      None),
    InsertProduct(
      "SaaS Platform Subscription",
      "Access our suite of productivity tools designed to streamline your business operations.",
      "$29/month",
      "saas",
      "https://images.unsplash.com/photo-1460925895917-afdab827c52f?auto=format&fit=crop&q=80",
      None),
    InsertProduct(
      "IT Maintenance Package",
      "Ongoing support and maintenance for your business infrastructure. Includes regular updates and security checks.",
      "$199/month",
      "maintenance",
      "https://images.unsplash.com/photo-1550751827-4bd374c3f58b?auto=format&fit=crop&q=80",
      None)
  ]

  /** A seeding run on an empty table that fails at insert k stops there. */
  lemma SeedRunStopsAt(t: Tables, seeds: seq<InsertProduct>, now: Timestamp, fault: Option<Fault>, k: nat)
    requires t.products == [] && k < |seeds| && fault == Some(InsertFails(k))
    ensures SeedRun(t, seeds, now, fault) == (InsertAll(t, seeds[..k], now), Threw)
  {
  }

  /** A seeding run on an empty table whose inserts all succeed stores every seed. */
  lemma SeedRunFinishes(t: Tables, seeds: seq<InsertProduct>, now: Timestamp, fault: Option<Fault>)
    requires t.products == [] && fault != Some(ReadFails)
    requires forall k: nat :: k < |seeds| ==> fault != Some(InsertFails(k))
    ensures SeedRun(t, seeds, now, fault) == (InsertAll(t, seeds, now), Completed)
  {
    if fault.Some? {
      assert fault == Some(InsertFails(fault.value.index));
    }
  }

  /** One `createProduct` call of `seedDatabase` on a store that was empty at `start`:
      the seed at position k, unless the store fails on it, which ends the run. */
  method CreateSeed(store: Store, seeds: seq<InsertProduct>, k: nat, now: Timestamp,
                    fault: Option<Fault>, ghost start: Tables)
    returns (failed: bool)
    requires k < |seeds| && start.products == []
    requires store.Valid()
    requires store.State() == InsertAll(start, seeds[..k], now)
    modifies store
    ensures store.Valid()
    ensures failed == (fault == Some(InsertFails(k)))
    ensures failed ==> (store.State(), Threw) == SeedRun(start, seeds, now, fault)
    ensures !failed ==> store.State() == InsertAll(start, seeds[..k + 1], now)
  {
    failed := fault == Some(InsertFails(k));
    if failed {
      SeedRunStopsAt(start, seeds, now, fault, k);
    } else {
      var _ := store.CreateProduct(seeds[k], now);
      InsertAllSnoc(start, seeds[..k], seeds[k], now);
      assert seeds[..k + 1] == seeds[..k] + [seeds[k]];
    }
  }

  /** The five `createProduct` calls of `seedDatabase` on an empty store, one after
      the other; a failure ends the run early. */
  method CreateFive(store: Store, seeds: seq<InsertProduct>, now: Timestamp, fault: Option<Fault>)
    returns (out: RunOutcome)
    requires |seeds| == 5 && fault != Some(ReadFails)
    requires store.Valid() && store.products == []
    modifies store
    ensures store.Valid()
    ensures (store.State(), out) == SeedRun(old(store.State()), seeds, now, fault)
  {
    ghost var start := store.State();
    assert seeds[..0] == [];
    var failed := CreateSeed(store, seeds, 0, now, fault, start);
    if failed { return Threw; }
    failed := CreateSeed(store, seeds, 1, now, fault, start);
    if failed { return Threw; }
    failed := CreateSeed(store, seeds, 2, now, fault, start);
    if failed { return Threw; }
    failed := CreateSeed(store, seeds, 3, now, fault, start);
    if failed { return Threw; }
    failed := CreateSeed(store, seeds, 4, now, fault, start);
    if failed { return Threw; }
    assert seeds[..5] == seeds;
    SeedRunFinishes(start, seeds, now, fault);
    out := Completed;
  }

  /** The body of `seedDatabase` for a list of five seeds: read the products, and
      create the seeds only when there are none. */
  method SeedFive(store: Store, seeds: seq<InsertProduct>, now: Timestamp, fault: Option<Fault>)
    returns (out: RunOutcome)
    requires |seeds| == 5
    requires store.Valid()
    modifies store
    ensures store.Valid()
    ensures (store.State(), out) == SeedRun(old(store.State()), seeds, now, fault)
  {
    if fault == Some(ReadFails) {
      return Threw;
    }
    var existing := store.GetProducts();
    if |existing| != 0 {
      return Completed;
    }
    out := CreateFive(store, seeds, now, fault);
  }

  /** `seedDatabase`: the run over the five catalog entries above (the caller logs a
      failure). */
  method SeedDatabase(store: Store, now: Timestamp, fault: Option<Fault>) returns (out: RunOutcome)
    requires store.Valid()
    modifies store
    ensures store.Valid()
    ensures (store.State(), out) == SeedRun(old(store.State()), RouteSeeds, now, fault)
  {
    out := SeedFive(store, RouteSeeds, now, fault);
  }

  /** On an empty store `seedDatabase` leaves exactly the five seeds, in order and
      field for field, and running it again changes nothing. */
  lemma SeedDatabaseOnEmpty(t: Tables, now: Timestamp, now2: Timestamp, fault2: Option<Fault>)
    requires ValidTables(t) && t.products == []
    ensures var (t1, out) := SeedRun(t, RouteSeeds, now, None);
      && out == Completed
      && |t1.products| == 5
      && (forall i :: 0 <= i < 5 ==> ProductInput(t1.products[i]) == RouteSeeds[i].(createdAt := Some(now)))
      && SeedRun(t1, RouteSeeds, now2, fault2).0 == t1
  {
    SeedEmptyStoresSeeds(t, RouteSeeds, now);
    SeedIdempotent(t, RouteSeeds, now, None, now2, fault2);
  }
}
