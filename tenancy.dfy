/**
 * Tenant namespacing of storage keys (portal-api.js, lines 6-23).
 *
 * Every collection lives under a key made of the active organisation, an
 * underscore and a fixed suffix.  The active organisation is the raw text of
 * the `active_org` entry, or `FLAWLESS` when that entry is missing or empty.
 */
module Tenancy {
  import opened Wrappers

  const DefaultOrg: string := "FLAWLESS"

  /** The storage entry that holds the active organisation. */
  const OrgSettingKey: string := "active_org"

  /** `activeOrg()`: `getItem('active_org') || DEFAULT_ORG`; `null` and `""` are falsy. */
  function ActiveOrg(setting: Option<string>): (org: string)
    ensures org != ""
    ensures setting == None || setting == Some("") ==> org == DefaultOrg
    ensures setting.Some? && setting.value != "" ==> org == setting.value
  {
    match setting
    case Some(text) => if text != "" then text else DefaultOrg
    case None => DefaultOrg
  }

  /** `key(k)`: the template literal `${activeOrg()}_${k}`; it splits back into its organisation and suffix. */
  function Key(org: string, suffix: string): (k: string)
    ensures |k| == |org| + 1 + |suffix|
    ensures k[..|org|] == org && k[|org|] == '_' && k[|org| + 1..] == suffix
  {
    org + "_" + suffix
  }

  /** The eleven logical collections named in `KEYS`. */
  datatype Collection =
    | Pending
    | Approved
    | Accounts
    | Payments
    | Messages
    | Audit
    | TeachAtt
    | Timetable
    | Notes
    | Users
    | SalarySheets

  /** The fixed suffix each `KEYS` entry passes to `key`: a non-empty lower-case snake-case word. */
  function Suffix(c: Collection): (s: string)
    ensures s != [] && s[0] != '_'
    ensures forall i :: 0 <= i < |s| ==> 'a' <= s[i] <= 'z' || s[i] == '_'
  {
    match c
    case Pending => "payroll_pending"
    case Approved => "payroll_approved"
    case Accounts => "payment_accounts"
    case Payments => "payments_log"
    case Messages => "messages"
    case Audit => "audit"
    case TeachAtt => "teacher_attendance"
    case Timetable => "teacher_timetable"
    case Notes => "teacher_notes"
    case Users => "users"
    case SalarySheets => "salary_sheets"
  }

  /**
   * `KEYS.<C>()` under the active organisation `org`: the tenant prefix, then
   * the collection's suffix, and never the entry that holds the active organisation.
   */
  function CollectionKey(org: string, c: Collection): (k: string)
    ensures |k| > |org| + 1
    ensures k[..|org| + 1] == org + "_"
    ensures k[|org| + 1..] == Suffix(c)
    ensures k != OrgSettingKey
  {
    Key(org, Suffix(c))
  }

  /** Two keys with suffixes of the same length are equal only when both parts are. */
  lemma {:induction false} KeySplitsUniquely(org1: string, s1: string, org2: string, s2: string)
    requires |s1| == |s2|
    requires Key(org1, s1) == Key(org2, s2)
    ensures org1 == org2 && s1 == s2
  {
  }

  /** For one suffix, two different organisations never share a key. */
  lemma OrgsGetDistinctKeys(org1: string, org2: string, suffix: string)
    requires org1 != org2
    ensures Key(org1, suffix) != Key(org2, suffix)
  {
    if Key(org1, suffix) == Key(org2, suffix) {
      KeySplitsUniquely(org1, suffix, org2, suffix);
    }
  }

  /** The eleven suffixes are pairwise distinct. */
  lemma SuffixesDistinct(c1: Collection, c2: Collection)
    requires c1 != c2
    ensures Suffix(c1) != Suffix(c2)
  {
  }

  /** `s` ends with an underscore followed by all of `t`. */
  predicate EndsWithSegment(s: string, t: string)
  {
    |t| < |s| && s[|s| - |t| - 1] == '_' && s[|s| - |t|..] == t
  }

  /** No suffix ends with `_` followed by another suffix. */
  lemma SuffixesNotNested(c1: Collection, c2: Collection)
    ensures !EndsWithSegment(Suffix(c1), Suffix(c2))
  {
  }

  /**
   * When two keys are equal but the first organisation is shorter, the first
   * suffix ends with an underscore and the whole second suffix.
   */
  lemma {:induction false} ShorterOrgNestsSuffix(org1: string, s1: string, org2: string, s2: string)
    requires Key(org1, s1) == Key(org2, s2)
    requires |org1| < |org2|
    ensures EndsWithSegment(s1, s2)
  {
    var k := Key(org1, s1);
    assert s1[|s1| - |s2| - 1] == k[|k| - |s2| - 1];
    assert s1[|s1| - |s2|..] == k[|k| - |s2|..];
  }

  /**
   * Keys of named collections never collide, whatever the organisations:
   * equal keys mean the same organisation and the same collection.
   */
  lemma {:induction false} CollectionKeysInjective(org1: string, c1: Collection, org2: string, c2: Collection)
    requires CollectionKey(org1, c1) == CollectionKey(org2, c2)
    ensures org1 == org2 && c1 == c2
  {
    if |org1| < |org2| {
      ShorterOrgNestsSuffix(org1, Suffix(c1), org2, Suffix(c2));
      SuffixesNotNested(c1, c2);
    } else if |org2| < |org1| {
      ShorterOrgNestsSuffix(org2, Suffix(c2), org1, Suffix(c1));
      SuffixesNotNested(c2, c1);
    } else {
      if c1 != c2 {
        SuffixesDistinct(c1, c2);
      }
    }
  }
}
