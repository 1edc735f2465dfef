/**
 * The per-platform "last notified milestone" cursor, kept in a key-value
 * store under `milestone:last:` followed by the lower-cased platform name.
 * The setter overwrites unconditionally (no monotonicity, no TTL, no audit
 * log); read errors read as null and a failing listing as an empty record.
 */
module MilestoneStorage {
  import opened Wrappers
  import opened Text

  const KeyPrefix: string := "milestone:last:"

  function CursorKey(platform: string): string {
    KeyPrefix + Lower(platform)
  }

  /** The cursor a store holds for `platform` (null when never set). */
  function Lookup(kv: map<string, int>, platform: string): Option<int> {
    var key := CursorKey(platform);
    if key in kv then Some(kv[key]) else None
  }

  lemma PrefixInjective(a: string, b: string)
    ensures KeyPrefix + a == KeyPrefix + b ==> a == b
  {
    if KeyPrefix + a == KeyPrefix + b {
      assert a == (KeyPrefix + a)[|KeyPrefix|..];
      assert b == (KeyPrefix + b)[|KeyPrefix|..];
    }
  }

  /**
   * After setting `p` to `v`, every name equal to `p` up to case reads `v`
   * (whatever was stored before, so a smaller value replaces a larger one),
   * and every other platform reads what it read before.
   */
  lemma SetThenLookup(kv: map<string, int>, p: string, v: int, q: string)
    ensures Lower(p) == Lower(q) ==> Lookup(kv[CursorKey(p) := v], q) == Some(v)
    ensures Lower(p) != Lower(q) ==> Lookup(kv[CursorKey(p) := v], q) == Lookup(kv, q)
  {
    PrefixInjective(Lower(p), Lower(q));
  }

  /** Removing the prefix from a key that carries it, as `key.replace(prefix, '')` does. */
  lemma StripPrefix(key: string)
    requires StartsWith(key, KeyPrefix)
    ensures ReplaceFirst(key, KeyPrefix, "") == key[|KeyPrefix|..]
    ensures KeyPrefix + key[|KeyPrefix|..] == key
  {
    assert OccursAt(key, KeyPrefix, 0);
  }

  class CursorStore {
    /** The store's integer values by key (other namespaces included). */
    var kv: map<string, int>

    constructor (initial: map<string, int>)
      ensures kv == initial
    {
      kv := initial;
    }

    /** `getLastNotifiedMilestone`; `readFails` stands for a store error, which reads as null. */
    method GetLastNotifiedMilestone(platform: string, readFails: bool) returns (r: Option<int>)
      ensures readFails ==> r.None?
      ensures !readFails ==> r == Lookup(kv, platform)
    {
      if readFails {
        return None;
      }
      var key := CursorKey(platform);
      r := if key in kv then Some(kv[key]) else None;
    }

    /** `setLastNotifiedMilestone`; a failing write is logged and changes nothing. */
    method SetLastNotifiedMilestone(platform: string, value: int, writeFails: bool)
      modifies this
      ensures kv == if writeFails then old(kv) else old(kv)[CursorKey(platform) := value]
    {
      if !writeFails {
        kv := kv[CursorKey(platform) := value];
      }
    }

    /**
     * `getAllLastMilestones`: every key under the prefix, with the prefix
     * stripped, mapped to its value; any error gives the empty record.
     */
    method GetAllLastMilestones(fails: bool) returns (r: map<string, int>)
      ensures fails ==> r == map[]
      ensures !fails ==> forall p :: p in r <==> KeyPrefix + p in kv
      ensures !fails ==> forall p :: p in r ==> r[p] == kv[KeyPrefix + p]
    {
      r := map[];
      if fails {
        return;
      }
      var keys := set k | k in kv && StartsWith(k, KeyPrefix);
      var rest := keys;
      while rest != {}
        invariant rest <= keys
        invariant forall p :: p in r <==> KeyPrefix + p in keys && KeyPrefix + p !in rest
        invariant forall p :: p in r ==> r[p] == kv[KeyPrefix + p]
        decreases rest
      {
        var key :| key in rest;
        StripPrefix(key);
        var platform := ReplaceFirst(key, KeyPrefix, "");
        forall p ensures KeyPrefix + p == key <==> p == platform {
          PrefixInjective(p, platform);
        }
        r := r[platform := kv[key]];
        rest := rest - {key};
      }
      forall p | KeyPrefix + p in kv ensures KeyPrefix + p in keys {
        assert (KeyPrefix + p)[..|KeyPrefix|] == KeyPrefix;
      }
    }
  }
}
