/** The deployment seeding script (server/seed.ts): `initializeDatabase` reads the
    products table and, when it is empty, inserts the seed products one at a time in
    array order. Its log lines are not modelled; a failure of the store at any step is
    passed in as `fault` and ends the run with `Threw`, as the rethrow does. */
module Seed {
  import opened Wrappers
  import opened Schema
  import opened Storage
  import Routes
  import Catalog

  /** `seedProducts`, in array order. */
  const SeedProducts: seq<InsertProduct> := [
    InsertProduct(
      "Computer Repair & Diagnostics",
      "Comprehensive hardware and software troubleshooting for desktops and laptops. We fix crashes, slow performance, and hardware failures.",
      "Starts at $50",
      "service",
      "https://images.unsplash.com/photo-1597872252721-240bcdd23f96?auto=format&fit=crop&q=80",
      None),
    InsertProduct(
      "Custom Website Development",
      "Professional, responsive websites tailored to your business needs. From landing pages to full e-commerce solutions.",
      "Contact for Quote",
      "software",
      "https://images.unsplash.com/photo-1547658719-da2b51169166?auto=format&fit=crop&q=80",
      None),
    InsertProduct(
      "Mobile App Development",
      "Native and cross-platform mobile applications for iOS and Android. Bring your app idea to life.",
      "Contact for Quote",
      "software",
      "https://images.unsplash.com/photo-1512941937669-90a1b58e7e9c?auto=format&fit=crop&q=80",
      None),
    InsertProduct(
      "SaaS Platform Subscription",
      "Access our suite of productivity tools designed to streamline your business operations.",
      "$29/month",
      "saas",
      "https://images.unsplash.com/photo-1460925895917-afdab827c52f?auto=format&fit=crop&q=80",
      None),
    InsertProduct(
      "IT Maintenance Package",
      "Ongoing support and maintenance for your business infrastructure. Includes regular updates and security checks.",
      "$199/month",
      "maintenance",
      "https://images.unsplash.com/photo-1550751827-4bd374c3f58b?auto=format&fit=crop&q=80",
      None)
  ]

  /** The `for` loop of `initializeDatabase` over any seed list: insert each element
      in order, stopping at the first insert the store fails. */
  method InsertEach(store: Store, seeds: seq<InsertProduct>, now: Timestamp, fault: Option<Fault>)
    returns (out: RunOutcome)
    requires store.Valid()
    requires store.products == []
    requires fault != Some(ReadFails)
    modifies store
    ensures store.Valid()
    ensures (store.State(), out) == SeedRun(old(store.State()), seeds, now, fault)
  {
    ghost var start := store.State();
    var i := 0;
    while i < |seeds|
      invariant 0 <= i <= |seeds|
      invariant store.Valid()
      invariant store.State() == InsertAll(start, seeds[..i], now)
      invariant forall k: nat :: k < i ==> fault != Some(InsertFails(k))
    {
      if fault == Some(InsertFails(i)) {
        return Threw;
      }
      var _ := store.CreateProduct(seeds[i], now);
      InsertAllSnoc(start, seeds[..i], seeds[i], now);
      assert seeds[..i + 1] == seeds[..i] + [seeds[i]];
      i := i + 1;
    }
    assert seeds[..i] == seeds;
    if fault.Some? {
      assert fault == Some(InsertFails(fault.value.index));
    }
    out := Completed;
  }

  /** `initializeDatabase`: return early on a non-empty table, otherwise insert the
      seed products in order. */
  method InitializeDatabase(store: Store, now: Timestamp, fault: Option<Fault>) returns (out: RunOutcome)
    requires store.Valid()
    modifies store
    ensures store.Valid()
    ensures (store.State(), out) == SeedRun(old(store.State()), SeedProducts, now, fault)
  {
    if fault == Some(ReadFails) {
      return Threw;
    }
    var existing := store.GetProducts();
    if |existing| > 0 {
      return Completed;
    }
    out := InsertEach(store, SeedProducts, now, fault);
  }

  /** The script seeds exactly what the server's start-up seeding does, field for field
      and in the same order, so the two leave the same store behind. */
  lemma SeedListsAgree(t: Tables, now: Timestamp, fault: Option<Fault>)
    ensures SeedProducts == Routes.RouteSeeds
    ensures SeedRun(t, SeedProducts, now, fault) == SeedRun(t, Routes.RouteSeeds, now, fault)
  {
  }

  /** Every seed product lies in one of the page's category buttons other than "all",
      so each is reachable by a category filter. */
  lemma SeedCategoriesAreListed()
    ensures forall i :: 0 <= i < |SeedProducts| ==>
      SeedProducts[i].category in Catalog.Categories[1..]
  {
  }

  /** A run without failure on an empty table leaves exactly the five seeds, with fresh
      consecutive ids and the run's timestamp, and a second run changes nothing. */
  lemma InitializeOnEmpty(t: Tables, now: Timestamp, now2: Timestamp, fault2: Option<Fault>)
    requires ValidTables(t) && t.products == []
    ensures var (t1, out) := SeedRun(t, SeedProducts, now, None);
      && out == Completed
      && |t1.products| == 5
      && (forall i :: 0 <= i < 5 ==>
            t1.products[i].id == t.nextProductId + i
            && ProductInput(t1.products[i]) == SeedProducts[i].(createdAt := Some(now)))
      && SeedRun(t1, SeedProducts, now2, fault2).0 == t1
  {
    SeedEmptyStoresSeeds(t, SeedProducts, now);
    SeedIdempotent(t, SeedProducts, now, None, now2, fault2);
  }
}
