/**
 * Two walks through the store as callers use it, proved from the store
 * methods' contracts.
 */
module Scenarios {
  import opened Wrappers
  import opened Tenancy
  import opened Storage

  /** Tenant ACME logs one payment; reading the payments log gives back exactly that record. */
  method PaymentsLogOfAcme()
  {
    var store := new LocalStore(Some("ACME"), map[]);
    var k := CollectionKey(ActiveOrg(store.orgSetting), Payments);
    assert k == "ACME_payments_log";
    var payment: Record := map["amount" := Number(500), "reference" := Text("R1")];
    var r := store.Push(k, payment);
    assert r == Ok(payment);
    assert Read(store.entries, k) == Array([payment]);
  }

  /** Tenant DEMO with no users: seeding twice leaves the hr, finance and teacher accounts once. */
  method SeedingDemoTwice(t1: nat, t2: nat, t3: nat, u1: nat, u2: nat, u3: nat)
  {
    var store := new LocalStore(Some("DEMO"), map[]);
    store.SeedUsers(t1, t2, t3);
    store.SeedUsers(u1, u2, u3);
    var k := CollectionKey("DEMO", Users);
    SeedIdempotent(map[], k, t1, t2, t3, u1, u2, u3);
    SeedWritesThreeUsers(map[], k, t1, t2, t3);
    var users := Read(store.entries, k).items;
    assert |users| == 3;
    assert users[0]["role"] == Text("hr") && users[1]["role"] == Text("finance") && users[2]["role"] == Text("teacher");
  }
}
