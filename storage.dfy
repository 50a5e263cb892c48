/**
 * The tenant-scoped key-value store (portal-api.js, lines 25-42).
 *
 * `localStorage` holds text.  The model keeps, for each key, what `read`
 * and `seedUsers` can observe of that text: whether it is empty, whether
 * `JSON.parse` rejects it, and otherwise the parsed value, abstracted to
 * "falsy", "an array of records" or "some other truthy value".
 */
module Storage {
  import opened Wrappers
  import opened Tenancy
  import opened Identifiers

  /** A field of a record: the JSON scalars the portal stores. */
  datatype Field = Text(text: string) | Number(n: int) | Flag(b: bool)

  /** A record is an object with no schema enforced by the store. */
  type Record = map<string, Field>

  /** A parsed JSON value, as far as `read` and `push` tell values apart. */
  datatype Value =
    | Falsy                        // null, false, 0 or ""
    | Array(items: seq<Record>)    // any array, the empty one included, is truthy
    | OtherTruthy                  // an object, a non-zero number, a non-empty string, true

  /** The text stored under a key, seen through `getItem` and `JSON.parse`. */
  datatype Stored =
    | Blank                        // the empty string: falsy, and `JSON.parse` throws
    | Malformed                    // non-empty text that `JSON.parse` rejects
    | Serialized(value: Value)     // non-empty text that parses to `value`

  /** Every entry of `localStorage` except `active_org`; a missing key is `getItem` returning null. */
  type Entries = map<string, Stored>

  /**
   * `read(k)`: `safeParse(getItem(k)) || []`.  The stored value whenever it
   * parses to something truthy, and the empty collection otherwise.
   */
  function Read(m: Entries, k: string): (r: Value)
    ensures !r.Falsy?
    ensures r == Array([]) || (k in m && m[k] == Serialized(r))
    ensures k in m && m[k].Serialized? && !m[k].value.Falsy? ==> r == m[k].value
  {
    if k in m && m[k].Serialized? && !m[k].value.Falsy? then m[k].value else Array([])
  }

  /** Missing, empty, unparseable and falsy entries all read as the empty collection. */
  lemma ReadDegrades(m: Entries, k: string)
    requires k !in m || m[k] in {Blank, Malformed, Serialized(Falsy)}
    ensures Read(m, k) == Array([])
  {
  }

  /** What `save(k, v)` then `read(k)` gives: `v` itself unless `v` is falsy. */
  lemma ReadAfterSave(m: Entries, k: string, v: Value)
    ensures Read(m[k := Serialized(v)], k) == if v.Falsy? then Array([]) else v
  {
  }

  /** Writing one key leaves what every other key reads unchanged. */
  lemma SaveLeavesOtherKeys(m: Entries, k: string, other: string, v: Value)
    requires other != k
    ensures Read(m[k := Serialized(v)], other) == Read(m, other)
  {
  }

  /**
   * Namespace isolation: writing collection `c1` of tenant `org1` is not
   * visible through collection `c2` of tenant `org2`, unless both are the same.
   */
  lemma TenantIsolation(m: Entries, org1: string, c1: Collection, org2: string, c2: Collection, v: Value)
    requires org1 != org2 || c1 != c2
    ensures Read(m[CollectionKey(org1, c1) := Serialized(v)], CollectionKey(org2, c2)) == Read(m, CollectionKey(org2, c2))
  {
    if CollectionKey(org1, c1) == CollectionKey(org2, c2) {
      CollectionKeysInjective(org1, c1, org2, c2);
    }
  }

  /** `arr.push(obj)` on a parsed value that is not an array throws a TypeError. */
  datatype PushError = NotAnArray

  /** One seeded account; the password is the demo's plaintext. */
  function UserRecord(id: string, email: string, name: string, role: string, password: string): Record
  {
    map["id" := Text(id), "email" := Text(email), "name" := Text(name), "role" := Text(role), "password" := Text(password)]
  }

  /** The three accounts `seedUsers` writes; `t1`, `t2`, `t3` are the clock readings of its three `uid('u')` calls. */
  function DefaultUsers(t1: nat, t2: nat, t3: nat): (users: seq<Record>)
    ensures |users| == 3
    ensures forall u :: u in users ==> u.Keys == {"id", "email", "name", "role", "password"}
    ensures users[0]["role"] == Text("hr") && users[1]["role"] == Text("finance") && users[2]["role"] == Text("teacher")
    ensures users[0]["id"] == Text(Uid(t1, "u")) && users[1]["id"] == Text(Uid(t2, "u")) && users[2]["id"] == Text(Uid(t3, "u"))
  {
    [ UserRecord(Uid(t1, "u"), "hr@flawless.local", "HR Admin", "hr", "hrpass"),
      UserRecord(Uid(t2, "u"), "finance@flawless.local", "Finance", "finance", "finpass"),
      UserRecord(Uid(t3, "u"), "teacher@flawless.local", "Teacher", "teacher", "teachpass") ]
  }

  /**
   * The entries after `seedUsers` with users key `k`: written only when
   * `getItem(k)` is null or empty, so that afterwards it never is.
   */
  function Seeded(m: Entries, k: string, t1: nat, t2: nat, t3: nat): (r: Entries)
    ensures r.Keys == m.Keys + {k}
    ensures r[k] != Blank
    ensures k in m && m[k] != Blank ==> r[k] == m[k]
  {
    if k in m && m[k] != Blank then m else m[k := Serialized(Array(DefaultUsers(t1, t2, t3)))]
  }

  /** A users entry holding any non-empty text, `"[]"` and unparseable text included, is left alone. */
  lemma SeedKeepsPresentUsers(m: Entries, k: string, t1: nat, t2: nat, t3: nat)
    requires k in m && m[k] != Blank
    ensures Seeded(m, k, t1, t2, t3) == m
  {
  }

  /** On a missing or empty users entry, seeding writes exactly the hr, finance and teacher accounts, in that order. */
  lemma SeedWritesThreeUsers(m: Entries, k: string, t1: nat, t2: nat, t3: nat)
    requires k !in m || m[k] == Blank
    ensures Read(Seeded(m, k, t1, t2, t3), k).Array?
    ensures var users := Read(Seeded(m, k, t1, t2, t3), k).items;
      && |users| == 3
      && users[0]["role"] == Text("hr")
      && users[1]["role"] == Text("finance")
      && users[2]["role"] == Text("teacher")
      && users[0]["id"] == Text(Uid(t1, "u"))
      && users[1]["id"] == Text(Uid(t2, "u"))
      && users[2]["id"] == Text(Uid(t3, "u"))
  {
  }

  /** Seeding touches no key but the users key. */
  lemma SeedLeavesOtherKeys(m: Entries, k: string, other: string, t1: nat, t2: nat, t3: nat)
    requires other != k
    ensures other in Seeded(m, k, t1, t2, t3) <==> other in m
    ensures other in m ==> Seeded(m, k, t1, t2, t3)[other] == m[other]
  {
  }

  /** Seeding twice, at any clock readings, is seeding once. */
  lemma SeedIdempotent(m: Entries, k: string, t1: nat, t2: nat, t3: nat, u1: nat, u2: nat, u3: nat)
    ensures Seeded(Seeded(m, k, t1, t2, t3), k, u1, u2, u3) == Seeded(m, k, t1, t2, t3)
  {
  }

  /** Two seeded accounts share an id exactly when their clock readings are equal. */
  lemma SeededIdsCollideOnEqualClock(t1: nat, t2: nat, t3: nat)
    ensures DefaultUsers(t1, t2, t3)[0]["id"] == DefaultUsers(t1, t2, t3)[1]["id"] <==> t1 == t2
    ensures DefaultUsers(t1, t2, t3)[1]["id"] == DefaultUsers(t1, t2, t3)[2]["id"] <==> t2 == t3
  {
    UidInjective(t1, t2, "u");
    UidInjective(t2, t3, "u");
  }

  /**
   * The browser's `localStorage` as the portal uses it: the raw `active_org`
   * setting, and every other entry.
   */
  class LocalStore {
    var orgSetting: Option<string>
    var entries: Entries

    /** The `active_org` entry is raw text, kept apart from the JSON entries. */
    ghost predicate Valid()
      reads this
    {
      OrgSettingKey !in entries
    }

    constructor (orgSetting: Option<string>, entries: Entries)
      requires OrgSettingKey !in entries
      ensures Valid()
      ensures this.orgSetting == orgSetting && this.entries == entries
    {
      this.orgSetting := orgSetting;
      this.entries := entries;
    }

    /** `save(k, v)`: replaces the entry under `k` with the serialisation of `v`. */
    method Save(k: string, v: Value)
      requires Valid() && k != OrgSettingKey
      modifies this`entries
      ensures Valid()
      ensures entries == old(entries)[k := Serialized(v)]
    {
      entries := entries[k := Serialized(v)];
    }

    /**
     * `push(k, obj)`: reads the collection, appends `obj`, writes it back and
     * returns `obj`; a truthy non-array value makes `arr.push` throw before
     * anything is written.
     */
    method Push(k: string, obj: Record) returns (r: Result<Record, PushError>)
      requires Valid() && k != OrgSettingKey
      modifies this`entries
      ensures Valid()
      ensures old(Read(entries, k)).Array? ==>
        && r == Ok(obj)
        && entries == old(entries)[k := Serialized(Array(old(Read(entries, k)).items + [obj]))]
      ensures old(Read(entries, k)).OtherTruthy? ==> r == Err(NotAnArray) && entries == old(entries)
    {
      var arr := Read(entries, k);
      if !arr.Array? {
        return Err(NotAnArray);
      }
      Save(k, Array(arr.items + [obj]));
      r := Ok(obj);
    }

    /** `seedUsers()`: seeds the active tenant's users collection unless its entry holds non-empty text. */
    method SeedUsers(t1: nat, t2: nat, t3: nat)
      requires Valid()
      modifies this`entries
      ensures Valid()
      ensures entries == Seeded(old(entries), CollectionKey(ActiveOrg(orgSetting), Users), t1, t2, t3)
    {
      var k := CollectionKey(ActiveOrg(orgSetting), Users);
      if k in entries && entries[k] != Blank {
        return;
      }
      Save(k, Array(DefaultUsers(t1, t2, t3)));
    }
  }

  /** After a successful `push`, reading the key gives the old collection with `obj` at the end. */
  lemma ReadAfterPush(m: Entries, k: string, obj: Record)
    requires Read(m, k).Array?
    ensures Read(m[k := Serialized(Array(Read(m, k).items + [obj]))], k) == Array(Read(m, k).items + [obj])
  {
  }
}
