/** The price cache: its key, what the key determines, and the prices it returns. */
module PriceCache {
  import opened Wrappers

  // ----- the key -----

  /** Every slash doubled. */
  function Escape(s: string): string {
    if s == "" then "" else (if s[0] == '/' then "//" else [s[0]]) + Escape(s[1..])
  }

  function CacheKey(id: string, currency: string): string {
    Escape(id) + "/" + Escape(currency)
  }

  predicate LeadingSlash(s: string) {
    s != "" && s[0] == '/'
  }

  /** Undo `Escape`; a lone slash cannot come from it. */
  function Unescape(s: string): Option<string> {
    if s == "" then Some("")
    else if s[0] != '/' then
      var rest := Unescape(s[1..]);
      if rest.Some? then Some([s[0]] + rest.value) else None
    else if |s| >= 2 && s[1] == '/' then
      var rest := Unescape(s[2..]);
      if rest.Some? then Some("/" + rest.value) else None
    else None
  }

  /** Read a key up to the first lone slash: the id before it, and what follows it. */
  function Split(s: string): Option<(string, string)> {
    if s == "" then None
    else if s[0] != '/' then
      var rest := Split(s[1..]);
      if rest.Some? then Some(([s[0]] + rest.value.0, rest.value.1)) else None
    else if |s| >= 2 && s[1] == '/' then
      var rest := Split(s[2..]);
      if rest.Some? then Some(("/" + rest.value.0, rest.value.1)) else None
    else Some(("", s[1..]))
  }

  lemma {:induction false} UnescapeEscape(s: string)
    ensures Unescape(Escape(s)) == Some(s)
  {
    if s != "" {
      UnescapeEscape(s[1..]);
      assert s == [s[0]] + s[1..];
      if s[0] == '/' {
        assert Escape(s)[2..] == Escape(s[1..]);
      } else {
        assert Escape(s)[1..] == Escape(s[1..]);
      }
    }
  }

  lemma {:induction false} SplitEscaped(id: string, rest: string)
    requires !LeadingSlash(rest)
    ensures Split(Escape(id) + "/" + rest) == Some((id, rest))
  {
    var key := Escape(id) + "/" + rest;
    if id == "" {
      assert key == "/" + rest && key[1..] == rest;
    } else {
      SplitEscaped(id[1..], rest);
      assert id == [id[0]] + id[1..];
      if id[0] == '/' {
        assert key[2..] == Escape(id[1..]) + "/" + rest;
      } else {
        assert key[1..] == Escape(id[1..]) + "/" + rest;
      }
    }
  }

  lemma EscapeLeads(s: string)
    ensures LeadingSlash(Escape(s)) <==> LeadingSlash(s)
  {
  }

  /** The pair with the currency's leading slashes moved to the end of the id. */
  function Canonical(id: string, currency: string): (string, string)
    decreases |currency|
  {
    if LeadingSlash(currency) then Canonical(id + "/", currency[1..]) else (id, currency)
  }

  lemma {:induction false} EscapeAppend(a: string, b: string)
    ensures Escape(a + b) == Escape(a) + Escape(b)
  {
    if a == "" {
      assert a + b == b;
    } else {
      var h := if a[0] == '/' then "//" else [a[0]];
      calc {
        Escape(a + b);
      ==  { assert (a + b)[0] == a[0] && (a + b)[1..] == a[1..] + b; }
        h + Escape(a[1..] + b);
      ==  { EscapeAppend(a[1..], b); }
        h + (Escape(a[1..]) + Escape(b));
      ==
        (h + Escape(a[1..])) + Escape(b);
      ==
        Escape(a) + Escape(b);
      }
    }
  }

  lemma EscapeSlash()
    ensures Escape("/") == "//"
  {
    assert "/"[1..] == "";
  }

  lemma Regroup(e: string, r: string)
    ensures e + "/" + ("//" + r) == e + "//" + "/" + r
  {
    assert "/" + "//" == "//" + "/";
    assert e + "/" + ("//" + r) == e + ("/" + "//") + r;
    assert e + "//" + "/" + r == e + ("//" + "/") + r;
  }

  lemma SlashMoves(id: string, currency: string)
    requires LeadingSlash(currency)
    ensures CacheKey(id, currency) == CacheKey(id + "/", currency[1..])
  {
    var e, r := Escape(id), Escape(currency[1..]);
    assert Escape(currency) == "//" + r;
    hide Escape;
    EscapeAppend(id, "/");
    EscapeSlash();
    Regroup(e, r);
  }

  lemma {:induction false} CanonicalKey(id: string, currency: string)
    ensures var c := Canonical(id, currency);
            !LeadingSlash(c.1) && CacheKey(id, currency) == CacheKey(c.0, c.1)
    decreases |currency|
  {
    if LeadingSlash(currency) {
      SlashMoves(id, currency);
      CanonicalKey(id + "/", currency[1..]);
    }
  }

  /** A key read back gives its pair, if the currency does not start with a slash. */
  lemma KeyRoundTrip(id: string, currency: string)
    requires !LeadingSlash(currency)
    ensures Split(CacheKey(id, currency)) == Some((id, Escape(currency))) && Unescape(Escape(currency)) == Some(currency)
  {
    EscapeLeads(currency);
    SplitEscaped(id, Escape(currency));
    UnescapeEscape(currency);
  }

  /** Exactly which pairs share a key: those that differ only in how many of the slashes
      between id and currency belong to which. */
  lemma SameKeyIff(id1: string, currency1: string, id2: string, currency2: string)
    ensures CacheKey(id1, currency1) == CacheKey(id2, currency2)
       <==> Canonical(id1, currency1) == Canonical(id2, currency2)
  {
    hide CacheKey, Canonical;
    CanonicalKey(id1, currency1);
    CanonicalKey(id2, currency2);
    var c1, c2 := Canonical(id1, currency1), Canonical(id2, currency2);
    KeyRoundTrip(c1.0, c1.1);
    KeyRoundTrip(c2.0, c2.1);
  }

  /** So the key is injective on currencies that do not start with a slash. */
  lemma KeyIsInjective(id1: string, currency1: string, id2: string, currency2: string)
    requires !LeadingSlash(currency1) && !LeadingSlash(currency2)
    ensures CacheKey(id1, currency1) == CacheKey(id2, currency2) <==> id1 == id2 && currency1 == currency2
  {
    SameKeyIff(id1, currency1, id2, currency2);
  }

  lemma KeysCanCollide()
    ensures CacheKey("x/", "y") == CacheKey("x", "/y")
  {
    SlashMoves("x", "/y");
    assert "/y"[1..] == "y" && "x" + "/" == "x/";
  }

  // ----- the cache -----

  datatype PriceResponse = PriceResponse(price: real, lastUpdated: Time)

  /** An answer of the client behind the cache, and when it was stamped. */
  datatype Quote = Quote(id: string, currency: string, response: PriceResponse)

  class CachedPriceClient {
    var cache: map<string, PriceResponse>
    const cacheRefreshInterval: nat
    ghost var quotes: set<Quote>      // everything the client behind the cache ever answered

    constructor (cacheRefreshInterval: nat)
      ensures Valid() && this.cacheRefreshInterval == cacheRefreshInterval && quotes == {}
    {
      cache, this.cacheRefreshInterval, quotes := map[], cacheRefreshInterval, {};
    }

    /** Every cached price was quoted for a pair with that key. */
    ghost predicate Valid()
      reads this
    {
      forall k :: k in cache ==> exists q :: q in quotes && CacheKey(q.id, q.currency) == k && q.response == cache[k]
    }

    /** The part of a call under the read lock. */
    method Lookup(id: string, currency: string, now: Time) returns (r: Option<PriceResponse>)
      requires Valid()
      ensures r.None? <==> CacheKey(id, currency) !in cache
                           || now - cache[CacheKey(id, currency)].lastUpdated > cacheRefreshInterval
      ensures r.Some? ==> now - r.value.lastUpdated <= cacheRefreshInterval && r.value == cache[CacheKey(id, currency)]
      ensures r.Some? ==> exists q :: q in quotes && q.response == r.value
                                      && Canonical(q.id, q.currency) == Canonical(id, currency)
    {
      hide CacheKey, Canonical;
      var key := CacheKey(id, currency);
      if key !in cache || now - cache[key].lastUpdated > cacheRefreshInterval { return None; }
      ghost var q :| q in quotes && CacheKey(q.id, q.currency) == key && q.response == cache[key];
      SameKeyIff(q.id, q.currency, id, currency);
      return Some(cache[key]);
    }

    /** The part of a call under the write lock. */
    method Store(id: string, currency: string, response: PriceResponse)
      requires Valid()
      modifies this
      ensures Valid() && cache == old(cache)[CacheKey(id, currency) := response]
      ensures quotes == old(quotes) + {Quote(id, currency, response)}
    {
      hide CacheKey;
      cache := cache[CacheKey(id, currency) := response];
      quotes := quotes + {Quote(id, currency, response)};
    }

    /** A price in the cache that is recent enough. */
    predicate Hit(id: string, currency: string, now: Time)
      reads this
    {
      var key := CacheKey(id, currency);
      key in cache && now - cache[key].lastUpdated <= cacheRefreshInterval
    }

    /** No currency that was ever quoted starts with a slash. */
    ghost predicate Plain()
      reads this
    {
      forall q :: q in quotes ==> !LeadingSlash(q.currency)
    }

    /** A hit returns the cached price and changes nothing.  A miss returns what the client
        behind answers, and only its answer is quoted and stored.  So without leading slashes
        every price is one that client gave for this same id and currency: now, or no longer
        ago than the refresh interval. */
    method GetSimplePrice(id: string, currency: string, now: Time, answer: Answer<real>, stamp: Time)
      returns (r: Answer<real>)
      requires Valid()
      modifies this
      ensures Valid()
      ensures old(Hit(id, currency, now)) ==>
                r == Got(old(cache)[CacheKey(id, currency)].price) && cache == old(cache) && quotes == old(quotes)
      ensures !old(Hit(id, currency, now)) ==> r == answer
      ensures !old(Hit(id, currency, now)) && answer.NoAnswer? ==> cache == old(cache) && quotes == old(quotes)
      ensures !old(Hit(id, currency, now)) && answer.Got? ==>
                var response := PriceResponse(answer.value, stamp);
                && cache == old(cache)[CacheKey(id, currency) := response]
                && quotes == old(quotes) + {Quote(id, currency, response)}
      ensures r.Got? && !LeadingSlash(currency) && old(Plain()) ==>
                exists q :: q in quotes && q.id == id && q.currency == currency && q.response.price == r.value
                            && if old(Hit(id, currency, now))
                               then q in old(quotes) && now - q.response.lastUpdated <= cacheRefreshInterval
                               else r == answer && q.response.lastUpdated == stamp
    {
      hide CacheKey, Canonical;
      var cached := Lookup(id, currency, now);
      if cached.Some? {
        ghost var q :| q in quotes && q.response == cached.value && Canonical(q.id, q.currency) == Canonical(id, currency);
        if !LeadingSlash(currency) && Plain() { QuoteIsForThePair(q, id, currency); }
        return Got(cached.value.price);
      }
      if answer.NoAnswer? { return NoAnswer; }
      Store(id, currency, PriceResponse(answer.value, stamp));
      assert Quote(id, currency, PriceResponse(answer.value, stamp)) in quotes;
      return answer;
    }
  }

  /** Without leading slashes a quote with the same key is a quote for the same pair. */
  lemma QuoteIsForThePair(q: Quote, id: string, currency: string)
    requires !LeadingSlash(q.currency) && !LeadingSlash(currency)
    ensures Canonical(q.id, q.currency) == Canonical(id, currency) <==> q.id == id && q.currency == currency
  {
  }
}
