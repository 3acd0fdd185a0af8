/** The in-memory revocation cache shared by the logout operation and the
    authentication stage: a map from token to the second its entry expires,
    read against an explicit clock. */
module Cache {

  /** An entry is visible while the clock has not passed its expiry. */
  predicate Found(entries: map<string, int>, key: string, now: int)
  {
    key in entries && now <= entries[key]
  }

  class RevocationCache {
    var entries: map<string, int>

    constructor()
      ensures entries == map[]
    {
      entries := map[];
    }

    /** Store `key` for `ttl` seconds from `now`; other entries are untouched. */
    method Set(key: string, ttl: int, now: int)
      modifies this
      ensures entries == old(entries)[key := now + ttl]
    {
      entries := entries[key := now + ttl];
    }

    /** Look `key` up at time `now`. */
    method Get(key: string, now: int) returns (found: bool)
      ensures found <==> key in entries && now <= entries[key]
    {
      found := key in entries && now <= entries[key];
    }
  }

  /** After storing a key for a positive time it is found from the moment of
      storing until the moment it expires, and never after that. */
  lemma {:induction false} StoredKeyLifetime(entries: map<string, int>, key: string, ttl: int, now: int, later: int)
    requires now <= later
    ensures Found(entries[key := now + ttl], key, later) <==> later <= now + ttl
  {
  }
}
