/** The URL shortener: a table of codes and URLs, unique in both, among other writers. */
module ShortURLs {
  import opened Wrappers

  const MAX_CODE_GENERATION_ATTEMPTS: nat := 5
  // The width of the id column.
  const MAX_CODE_LENGTH: nat := 10

  type Pair = (string, string)

  datatype ShortURLError = NotUnique | TooLong | NotFound | Exhausted

  // No two codes have the same URL; that a code has one URL is what a map says.
  ghost predicate UniqueUrls(urls: map<string, string>) {
    forall c, d :: c in urls && d in urls && urls[c] == urls[d] ==> c == d
  }

  predicate Extends(m: map<string, string>, m': map<string, string>) {
    forall c :: c in m ==> c in m' && m'[c] == m[c]
  }

  predicate HasUrl(urls: map<string, string>, url: string) {
    exists c :: c in urls && urls[c] == url
  }

  // Another transaction's inserts, in order, each as far as the constraints let it.
  function AfterInserts(urls: map<string, string>, inserts: seq<Pair>): map<string, string> {
    if inserts == [] then urls
    else
      var m := AfterInserts(urls, inserts[..|inserts| - 1]);
      var (code, url) := inserts[|inserts| - 1];
      if code in m || HasUrl(m, url) || |code| > MAX_CODE_LENGTH then m else m[code := url]
  }

  lemma {:induction false} InsertsKeepUnique(urls: map<string, string>, inserts: seq<Pair>)
    requires UniqueUrls(urls)
    ensures UniqueUrls(AfterInserts(urls, inserts)) && Extends(urls, AfterInserts(urls, inserts))
  {
    if inserts != [] {
      InsertsKeepUnique(urls, inserts[..|inserts| - 1]);
    }
  }

  /** A code, once resolved, resolves to the same URL for ever, and a URL, once it has a code, has it for ever. */
  lemma PairsNeverChange(urls: map<string, string>, later: map<string, string>, c: string, d: string)
    requires UniqueUrls(later) && Extends(urls, later) && c in urls
    ensures d in later ==> (d == c <==> later[d] == urls[c])
  {
  }

  class URLShortenerModel {
    var urls: map<string, string>

    constructor ()
      ensures urls == map[]
    {
      urls := map[];
    }

    method GetOriginalURL(shortCode: string) returns (r: Result<string, ShortURLError>)
      ensures r.Ok? <==> shortCode in urls
      ensures r.Ok? ==> r.value == urls[shortCode]
    {
      if shortCode !in urls {
        return Err(NotFound);
      }
      return Ok(urls[shortCode]);
    }

    method FindCode(url: string) returns (code: Option<string>)
      ensures code.Some? ==> code.value in urls && urls[code.value] == url
      ensures code.None? ==> !HasUrl(urls, url)
    {
      if c :| c in urls && urls[c] == url {
        return Some(c);
      }
      return None;
    }

    method Insert(code: string, url: string) returns (o: Outcome<ShortURLError>)
      modifies this
      ensures o.Done? <==> code !in old(urls) && !HasUrl(old(urls), url) && |code| <= MAX_CODE_LENGTH
      ensures o.Failed? ==> (o.error == TooLong <==> |code| > MAX_CODE_LENGTH) && (o.error == NotUnique <==> |code| <= MAX_CODE_LENGTH)
      ensures urls == if o.Done? then old(urls)[code := url] else old(urls)
    {
      if |code| > MAX_CODE_LENGTH {
        return Failed(TooLong);
      }
      if code in urls || exists c :: c in urls && urls[c] == url {
        return Failed(NotUnique);
      }
      urls := urls[code := url];
      return Done;
    }

    // Other transactions commit their inserts.
    method OthersInsert(inserts: seq<Pair>)
      modifies this
      ensures urls == AfterInserts(old(urls), inserts)
    {
      assert inserts[..0] == [];
      for i := 0 to |inserts|
        invariant urls == AfterInserts(old(urls), inserts[..i])
      {
        assert inserts[..i + 1][..i] == inserts[..i];
        var (code, url) := inserts[i];
        if !(code in urls || HasUrl(urls, url) || |code| > MAX_CODE_LENGTH) {
          urls := urls[code := url];
        }
      }
      assert inserts[..|inserts|] == inserts;
    }

    // One attempt: the URL's own code, or the generated one; others may write in between.
    method Attempt(url: string, generated: string, meanwhile: seq<Pair>) returns (r: Result<string, ShortURLError>)
      requires UniqueUrls(urls)
      modifies this
      ensures UniqueUrls(urls) && Extends(old(urls), urls)
      ensures r.Ok? ==> r.value in urls && urls[r.value] == url
      ensures HasUrl(old(urls), url) ==> r.Ok? && urls == old(urls)
      ensures meanwhile == [] && !HasUrl(old(urls), url) ==>
                && (r.Ok? <==> generated !in old(urls) && |generated| <= MAX_CODE_LENGTH)
                && (r.Ok? ==> r.value == generated)
                && urls == if r.Ok? then old(urls)[generated := url] else old(urls)
      ensures r.Err? ==> r.error == if |generated| > MAX_CODE_LENGTH then TooLong else NotUnique
    {
      var code := FindCode(url);
      if code.Some? {
        return Ok(code.value);
      }
      OthersInsert(meanwhile);
      InsertsKeepUnique(old(urls), meanwhile);
      var inserted := Insert(generated, url);
      if inserted.Failed? {
        return Err(inserted.error);
      }
      return Ok(generated);
    }

    // The first generated code that is not taken.
    predicate FirstFree(urls: map<string, string>, codes: seq<string>, k: int) {
      0 <= k < |codes| && codes[k] !in urls && forall j :: 0 <= j < k ==> codes[j] in urls && |codes[j]| <= MAX_CODE_LENGTH
    }

    /**
     `codes` is whatever the generator returns, `before` and `during` what others insert before and
     during each attempt.  Whatever they are: the table stays unique both ways, no pair changes, and a
     code that is returned resolves to the URL.  Undisturbed, it succeeds exactly when the URL has a
     code or one of the generated codes is free and fits.
     */
    method GetOrCreateShortCode(url: string, codes: seq<string>, before: seq<seq<Pair>>, during: seq<seq<Pair>>)
      returns (r: Result<string, ShortURLError>)
      requires UniqueUrls(urls)
      requires |codes| == |before| == |during| == 5
      modifies this
      ensures UniqueUrls(urls) && Extends(old(urls), urls)
      ensures r.Ok? ==> r.value in urls && urls[r.value] == url
      ensures HasUrl(old(urls), url) ==> r.Ok? && r.value in old(urls)
      ensures (forall k :: 0 <= k < |codes| ==> before[k] == [] && during[k] == []) && !HasUrl(old(urls), url) ==>
                && (r.Ok? <==> exists k :: FirstFree(old(urls), codes, k) && |codes[k]| <= 10)
                && urls == if r.Ok? then old(urls)[r.value := url] else old(urls)
      ensures r.Err? && r.error == Exhausted ==> forall k :: 0 <= k < |codes| ==> |codes[k]| <= MAX_CODE_LENGTH
    {
      ghost var start := urls;
      ghost var quiet := forall k :: 0 <= k < |codes| ==> before[k] == [] && during[k] == [];
      for attempts := 0 to MAX_CODE_GENERATION_ATTEMPTS
        invariant UniqueUrls(urls) && Extends(start, urls)
        invariant HasUrl(start, url) ==> attempts == 0
        invariant quiet ==> urls == start && forall j :: 0 <= j < attempts ==> codes[j] in start
        invariant forall j :: 0 <= j < attempts ==> |codes[j]| <= MAX_CODE_LENGTH
      {
        hide UniqueUrls, HasUrl, Extends;
        r := AttemptAmongOthers(url, codes[attempts], before[attempts], during[attempts], start);
        if r.Ok? {
          assert quiet && !HasUrl(start, url) ==> FirstFree(start, codes, attempts);
          return;
        }
        if r.error != NotUnique {
          forall k | FirstFree(start, codes, k) && quiet
            ensures |codes[k]| > MAX_CODE_LENGTH
          {
            assert k >= attempts;
          }
          return;
        }
      }
      return Err(Exhausted);
    }

    // One attempt after whatever others have done since the call started.
    method AttemptAmongOthers(url: string, generated: string, before: seq<Pair>, during: seq<Pair>, ghost start: map<string, string>)
      returns (r: Result<string, ShortURLError>)
      requires UniqueUrls(urls) && Extends(start, urls)
      modifies this
      ensures UniqueUrls(urls) && Extends(start, urls)
      ensures r.Ok? ==> r.value in urls && urls[r.value] == url
      ensures HasUrl(start, url) ==> r.Ok? && r.value in start
      ensures before == [] && during == [] && !HasUrl(start, url) && old(urls) == start ==>
                && (r.Ok? <==> generated !in start && |generated| <= MAX_CODE_LENGTH)
                && urls == if r.Ok? then start[r.value := url] else start
      ensures r.Err? ==> r.error == if |generated| > MAX_CODE_LENGTH then TooLong else NotUnique
      ensures before == [] && during == [] && !HasUrl(start, url) && old(urls) == start && r.Ok? ==> r.value == generated
    {
      ghost var now := urls;
      OthersInsert(before);
      InsertsKeepUnique(now, before);
      HasUrlStays(start, urls, url);
      r := Attempt(url, generated, during);
      if r.Ok? && HasUrl(start, url) {
        PairKept(start, urls, url, r.value);
      }
    }
  }

  lemma HasUrlStays(m: map<string, string>, m': map<string, string>, url: string)
    requires Extends(m, m')
    ensures HasUrl(m, url) ==> HasUrl(m', url)
  {
    if c :| c in m && m[c] == url {
      assert m'[c] == url;
    }
  }

  lemma PairKept(m: map<string, string>, m': map<string, string>, url: string, code: string)
    requires Extends(m, m') && UniqueUrls(m') && code in m' && m'[code] == url && HasUrl(m, url)
    ensures code in m
  {
    var c :| c in m && m[c] == url;
    assert m'[c] == m'[code];
  }
}
