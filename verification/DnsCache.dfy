/** The resolver's cache: its keys and its entries. */
module DnsCache {
  import opened Bytes
  import opened Texts
  import opened VpnPolicy
  import opened DnsMessage

  const Bar: byte := 124
  const Second: int := 1_000_000_000

  // ----- the key -----------------------------------------------------------------------------

  function CacheKey(host: Text, policy: Policy, ifIndex: U32): Text {
    host + [Bar] + PolicyText(policy) + [Bar] + Decimal(ifIndex)
  }

  /** Two questions share a cache key only if they are the same, bars in the host included. */
  lemma CacheKeyInjective(h1: Text, p1: Policy, i1: U32, h2: Text, p2: Policy, i2: U32)
    requires CacheKey(h1, p1, i1) == CacheKey(h2, p2, i2)
    ensures h1 == h2 && p1 == p2 && i1 == i2
  {
    LastSeparator(Bar, h1 + [Bar] + PolicyText(p1), Decimal(i1), h2 + [Bar] + PolicyText(p2), Decimal(i2));
    LastSeparator(Bar, h1, PolicyText(p1), h2, PolicyText(p2));
    PolicyTextInjective(p1, p2);
    DecimalInjective(i1, i2);
  }

  function ClampTtl(ttl: U32): (r: U32)
    ensures 10 <= r <= 600 && (10 <= ttl <= 600 ==> r == ttl)
  {
    if ttl < 10 then 10 else if ttl > 600 then 600 else ttl
  }

  // ----- the entries -------------------------------------------------------------------------

  /** `expireAt` is in nanoseconds of the steady clock. */
  datatype Entry = Entry(addrs: seq<Addr>, expireAt: int)

  type Cache = map<Text, Entry>

  predicate Hit(cache: Cache, key: Text, now: int) {
    key in cache && now < cache[key].expireAt
  }

  /** An expired entry is erased when it is met. */
  function AfterLookup(cache: Cache, key: Text, now: int): Cache {
    if Hit(cache, key, now) then cache else cache - {key}
  }

  function ExpiryOf(ttl: U32, now: int): int {
    now + ClampTtl(ttl) * Second
  }

  function AfterStore(cache: Cache, key: Text, addrs: seq<Addr>, ttl: U32, now: int): Cache {
    cache[key := Entry(addrs, ExpiryOf(ttl, now))]
  }

  /** A lookup erases the entry it has met if that has expired, and touches no other. */
  lemma LookupErases(cache: Cache, key: Text, now: int, other: Text)
    ensures var after := AfterLookup(cache, key, now);
            && (key in after <==> key in cache && now < cache[key].expireAt)
            && (other != key || key in after ==>
                  (other in after <==> other in cache) && (other in after ==> after[other] == cache[other]))
  {
  }
}
