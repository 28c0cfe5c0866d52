/** An abstract in-memory stand-in for the storage layer the routes and the seed
    script use (server/storage.ts is not part of this model): the `products` and
    `inquiries` tables as sequences in insertion order, each with a serial id counter.
    The store is a class whose methods update it in place; every method is specified
    by a function on the `Tables` value, and the lemmas are about those functions. */
module Storage {
  import opened Wrappers
  import opened Schema

  /** The content of both tables and the next id each serial column will issue. */
  datatype Tables = Tables(
    products: seq<Product>,
    inquiries: seq<Inquiry>,
    nextProductId: int,
    nextInquiryId: int)

  /** Ids were issued by the serial counter: positive, below the next id, and
      increasing in insertion order (so no two rows share an id). */
  predicate ProductIdsIssued(ps: seq<Product>, next: int) {
    && (forall i :: 0 <= i < |ps| ==> 1 <= ps[i].id < next)
    && (forall i, j :: 0 <= i < j < |ps| ==> ps[i].id < ps[j].id)
  }

  predicate InquiryIdsIssued(qs: seq<Inquiry>, next: int) {
    && (forall i :: 0 <= i < |qs| ==> 1 <= qs[i].id < next)
    && (forall i, j :: 0 <= i < j < |qs| ==> qs[i].id < qs[j].id)
  }

  predicate ValidTables(t: Tables) {
    && t.nextProductId >= 1
    && t.nextInquiryId >= 1
    && ProductIdsIssued(t.products, t.nextProductId)
    && InquiryIdsIssued(t.inquiries, t.nextInquiryId)
  }

  /** Freshly created tables: empty, both counters at 1. */
  const EmptyTables: Tables := Tables([], [], 1, 1)

  /** `createProduct`: append the stored row under the next id. */
  function AddProduct(t: Tables, input: InsertProduct, now: Timestamp): Tables {
    t.(products := t.products + [StoredProduct(t.nextProductId, input, now)],
       nextProductId := t.nextProductId + 1)
  }

  /** `createInquiry`: append the stored row under the next id. */
  function AddInquiry(t: Tables, input: InsertInquiry, now: Timestamp): Tables {
    t.(inquiries := t.inquiries + [StoredInquiry(t.nextInquiryId, input, now)],
       nextInquiryId := t.nextInquiryId + 1)
  }

  /** `getProduct(id)`: the product with that id, or absent. */
  function FindProduct(ps: seq<Product>, id: int): (r: Option<Product>)
    ensures r.Some? ==> r.value in ps && r.value.id == id
    ensures r.None? <==> forall p :: p in ps ==> p.id != id
  {
    if ps == [] then None
    else if ps[0].id == id then Some(ps[0])
    else
      assert forall p :: p in ps ==> p == ps[0] || p in ps[1..];
      FindProduct(ps[1..], id)
  }

  /** Inserting a product keeps the tables valid, issues an id no earlier product
      has, and leaves the earlier rows and the inquiries alone. */
  lemma AddProductSound(t: Tables, input: InsertProduct, now: Timestamp)
    requires ValidTables(t)
    ensures var t' := AddProduct(t, input, now);
      && ValidTables(t')
      && t'.products == t.products + [StoredProduct(t.nextProductId, input, now)]
      && t'.inquiries == t.inquiries
      && (forall p :: p in t.products ==> p.id != t.nextProductId)
  {
  }

  /** After an insert the new id finds the new row, and every other id finds what it
      found before. */
  lemma AddProductLookup(t: Tables, input: InsertProduct, now: Timestamp, id: int)
    requires ValidTables(t)
    ensures var t' := AddProduct(t, input, now);
      FindProduct(t'.products, id) ==
        if id == t.nextProductId then Some(StoredProduct(t.nextProductId, input, now))
        else FindProduct(t.products, id)
  {
    FindAppend(t.products, StoredProduct(t.nextProductId, input, now), id);
  }

  /** Looking up in a list with one more row at the end: the old rows win. */
  lemma {:induction false} FindAppend(ps: seq<Product>, p: Product, id: int)
    ensures FindProduct(ps + [p], id) ==
      if FindProduct(ps, id).Some? then FindProduct(ps, id)
      else if p.id == id then Some(p) else None
  {
    if ps != [] {
      assert (ps + [p])[1..] == ps[1..] + [p];
      FindAppend(ps[1..], p, id);
    }
  }

  /** Inserting an inquiry keeps the tables valid, issues an id no earlier inquiry
      has, and leaves the products alone. */
  lemma AddInquirySound(t: Tables, input: InsertInquiry, now: Timestamp)
    requires ValidTables(t)
    ensures var t' := AddInquiry(t, input, now);
      && ValidTables(t')
      && t'.inquiries == t.inquiries + [StoredInquiry(t.nextInquiryId, input, now)]
      && t'.products == t.products
      && (forall q :: q in t.inquiries ==> q.id != t.nextInquiryId)
  {
  }

  /** An id the counter never issued is absent; an issued id finds its own row. */
  lemma {:induction false} LookupMatchesIssuedIds(t: Tables, id: int)
    requires ValidTables(t)
    ensures (id < 1 || id >= t.nextProductId) ==> FindProduct(t.products, id).None?
    ensures forall i :: 0 <= i < |t.products| && t.products[i].id == id ==>
      FindProduct(t.products, id) == Some(t.products[i])
  {
    forall i | 0 <= i < |t.products| && t.products[i].id == id
      ensures FindProduct(t.products, id) == Some(t.products[i])
    {
      FindUnique(t.products, t.nextProductId, i);
    }
  }

  lemma {:induction false} FindUnique(ps: seq<Product>, next: int, i: int)
    requires ProductIdsIssued(ps, next)
    requires 0 <= i < |ps|
    ensures FindProduct(ps, ps[i].id) == Some(ps[i])
  {
    if i > 0 {
      assert ps[0].id < ps[i].id;
      FindUnique(ps[1..], next, i - 1);
    }
  }

  // ---------------------------------------------------------------------------
  // Seeding
  // ---------------------------------------------------------------------------

  /** A failure of the storage layer during a seeding run: the read of the existing
      products fails, or the insert at position `index` does. */
  datatype Fault = ReadFails | InsertFails(index: nat)

  /** A run either returns normally or throws to its caller. */
  datatype RunOutcome = Completed | Threw

  /** Inserting the inputs one at a time, in order. */
  function InsertAll(t: Tables, inputs: seq<InsertProduct>, now: Timestamp): Tables
    decreases |inputs|
  {
    if inputs == [] then t
    else InsertAll(AddProduct(t, inputs[0], now), inputs[1..], now)
  }

  /** The rows a run of inserts stores: consecutive ids from `first`. */
  function StoredRows(inputs: seq<InsertProduct>, first: int, now: Timestamp): seq<Product> {
    seq(|inputs|, i requires 0 <= i < |inputs| => StoredProduct(first + i, inputs[i], now))
  }

  lemma {:induction false} InsertAllSnoc(t: Tables, inputs: seq<InsertProduct>, x: InsertProduct,
                                         now: Timestamp)
    ensures InsertAll(t, inputs + [x], now) == AddProduct(InsertAll(t, inputs, now), x, now)
    decreases |inputs|
  {
    if inputs != [] {
      assert (inputs + [x])[1..] == inputs[1..] + [x];
      InsertAllSnoc(AddProduct(t, inputs[0], now), inputs[1..], x, now);
    }
  }

  /** Inserting a list appends exactly its stored rows, with consecutive fresh ids,
      and keeps the tables valid. */
  lemma {:induction false} InsertAllAppends(t: Tables, inputs: seq<InsertProduct>, now: Timestamp)
    requires ValidTables(t)
    ensures var t' := InsertAll(t, inputs, now);
      && ValidTables(t')
      && t'.products == t.products + StoredRows(inputs, t.nextProductId, now)
      && t'.nextProductId == t.nextProductId + |inputs|
      && t'.inquiries == t.inquiries
      && t'.nextInquiryId == t.nextInquiryId
    decreases |inputs|
  {
    if inputs != [] {
      var t1 := AddProduct(t, inputs[0], now);
      AddProductSound(t, inputs[0], now);
      InsertAllAppends(t1, inputs[1..], now);
      assert StoredRows(inputs, t.nextProductId, now)
          == [StoredProduct(t.nextProductId, inputs[0], now)]
             + StoredRows(inputs[1..], t1.nextProductId, now);
    }
  }

  /** A seeding run (both `seedDatabase` and `initializeDatabase`): read the products;
      if there are any, stop; otherwise insert the seeds in order, stopping at the
      first failing insert. Rows inserted before a failure stay. */
  function SeedRun(t: Tables, seeds: seq<InsertProduct>, now: Timestamp, fault: Option<Fault>)
    : (Tables, RunOutcome)
  {
    if fault == Some(ReadFails) then (t, Threw)
    else if |t.products| > 0 then (t, Completed)
    else if fault.Some? && fault.value.index < |seeds| then
      (InsertAll(t, seeds[..fault.value.index], now), Threw)
    else (InsertAll(t, seeds, now), Completed)
  }

  /** On an empty table a run without failure stores exactly the seeds, in order,
      field for field, under consecutive fresh ids. */
  lemma SeedEmptyStoresSeeds(t: Tables, seeds: seq<InsertProduct>, now: Timestamp)
    requires ValidTables(t) && t.products == []
    ensures var (t', out) := SeedRun(t, seeds, now, None);
      && out == Completed
      && ValidTables(t')
      && |t'.products| == |seeds|
      && (forall i :: 0 <= i < |seeds| ==>
            t'.products[i] == StoredProduct(t.nextProductId + i, seeds[i], now))
      && t'.inquiries == t.inquiries
  {
    InsertAllAppends(t, seeds, now);
  }

  /** On a non-empty table a run changes nothing. */
  lemma SeedNonEmptyNoop(t: Tables, seeds: seq<InsertProduct>, now: Timestamp, fault: Option<Fault>)
    requires |t.products| > 0
    ensures SeedRun(t, seeds, now, fault).0 == t
  {
  }

  /** A second run after a completed first run changes nothing, whatever happens in it. */
  lemma SeedIdempotent(t: Tables, seeds: seq<InsertProduct>, now: Timestamp, fault: Option<Fault>,
                       now2: Timestamp, fault2: Option<Fault>)
    requires ValidTables(t)
    requires SeedRun(t, seeds, now, fault).1 == Completed
    ensures var t1 := SeedRun(t, seeds, now, fault).0;
      SeedRun(t1, seeds, now2, fault2).0 == t1
  {
    if |t.products| == 0 {
      InsertAllAppends(t, seeds, now);
      if seeds == [] {
        // nothing was inserted, and a second run has nothing to insert either
        assert InsertAll(t, seeds, now) == t && InsertAll(t, seeds, now2) == t;
        var t1 := SeedRun(t, seeds, now, fault).0;
        assert t1 == t;
        if fault2.Some? && fault2.value.InsertFails? {
          assert fault2.value.index >= |seeds|;
        }
        assert SeedRun(t1, seeds, now2, fault2).0 == t;
      }
    }
  }

  /** A run that fails after k > 0 inserts leaves exactly the first k seeds, and no
      later run adds the rest: the table stays partially seeded. */
  lemma SeedPartialFailureSticks(t: Tables, seeds: seq<InsertProduct>, now: Timestamp, k: nat,
                                 now2: Timestamp, fault2: Option<Fault>)
    requires ValidTables(t) && t.products == [] && 0 < k < |seeds|
    ensures var (t1, out) := SeedRun(t, seeds, now, Some(InsertFails(k)));
      && out == Threw
      && t1.products == StoredRows(seeds[..k], t.nextProductId, now)
      && SeedRun(t1, seeds, now2, fault2).0 == t1
  {
    InsertAllAppends(t, seeds[..k], now);
  }

  // ---------------------------------------------------------------------------
  // The store object
  // ---------------------------------------------------------------------------

  class Store {
    var products: seq<Product>
    var inquiries: seq<Inquiry>
    var nextProductId: int
    var nextInquiryId: int

    function State(): Tables
      reads this
    {
      Tables(products, inquiries, nextProductId, nextInquiryId)
    }

    predicate Valid()
      reads this
    {
      ValidTables(State())
    }

    constructor ()
      ensures Valid() && State() == EmptyTables
    {
      products, inquiries := [], [];
      nextProductId, nextInquiryId := 1, 1;
    }

    /** `getProducts()`: all rows in insertion order. */
    method GetProducts() returns (ps: seq<Product>)
      ensures ps == products
    {
      ps := products;
    }

    /** `getProduct(id)`. */
    method GetProduct(id: int) returns (p: Option<Product>)
      ensures p == FindProduct(products, id)
    {
      p := FindProduct(products, id);
    }

    /** `createProduct(input)`: the stored row, with the next id. */
    method CreateProduct(input: InsertProduct, now: Timestamp) returns (p: Product)
      requires Valid()
      modifies this
      ensures Valid()
      ensures State() == AddProduct(old(State()), input, now)
      ensures p == StoredProduct(old(nextProductId), input, now)
    {
      AddProductSound(State(), input, now);
      p := StoredProduct(nextProductId, input, now);
      products := products + [p];
      nextProductId := nextProductId + 1;
    }

    /** `createInquiry(input)`: the stored row, with the next id. */
    method CreateInquiry(input: InsertInquiry, now: Timestamp) returns (q: Inquiry)
      requires Valid()
      modifies this
      ensures Valid()
      ensures State() == AddInquiry(old(State()), input, now)
      ensures q == StoredInquiry(old(nextInquiryId), input, now)
    {
      AddInquirySound(State(), input, now);
      q := StoredInquiry(nextInquiryId, input, now);
      inquiries := inquiries + [q];
      nextInquiryId := nextInquiryId + 1;
    }
  }
}
