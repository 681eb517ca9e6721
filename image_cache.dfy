/**
 * The two-tier image cache of image_utils.py: the in-memory IMAGE_CACHE
 * (URL -> bytes), the disk cache (path -> bytes, the path derived from an
 * MD5 of the URL) and the network behind them. The hash, the HTTP GET and
 * the image decoder are inputs; every network request is logged so that
 * "no network call" can be stated.
 */
module ImageCache {
  import opened Wrappers

  type Bytes = seq<bv8>

  datatype Response = Response(statusCode: int, content: Bytes)

  /** A decoded image, resized when a size was asked for. */
  datatype Image = Image(data: Bytes, size: Option<(int, int)>)

  /** The three tiers, plus the log of URLs requested from the network. */
  datatype Store = Store(memory: map<string, Bytes>, disk: map<string, Bytes>, requests: seq<string>)

  const CacheDir: string := "src/cache/images"

  /** `get_cache_path(url)`: the hex digest of the URL inside the images directory, with a ".png" suffix. */
  function CachePath(md5: string -> string, url: string): string {
    CacheDir + "/" + md5(url) + ".png"
  }

  /** Two URLs share a disk entry exactly when their digests agree. */
  lemma CachePathInjective(md5: string -> string, a: string, b: string)
    ensures CachePath(md5, a) == CachePath(md5, b) <==> md5(a) == md5(b)
  {
    var pre := CacheDir + "/";
    if CachePath(md5, a) == CachePath(md5, b) {
      var pa, pb := CachePath(md5, a), CachePath(md5, b);
      assert |md5(a)| == |md5(b)| by {
        assert |pa| == |pre| + |md5(a)| + 4 && |pb| == |pre| + |md5(b)| + 4;
      }
      assert md5(a) == pa[|pre|..|pre| + |md5(a)|];
      assert md5(b) == pb[|pre|..|pre| + |md5(b)|];
    }
  }

  /** The bytes of one `fetch_image` lookup and the store after it. */
  datatype Lookup = Lookup(data: Option<Bytes>, store: Store)

  /**
   * The tier lookup of `fetch_image`: memory first; then the disk, whose
   * bytes are copied into memory; then one network request, whose bytes on
   * status 200 are written to disk and memory. Any other status gives no
   * bytes and changes neither tier.
   */
  function LookupBytes(s: Store, url: string, md5: string -> string, get: string -> Response): Lookup {
    if url in s.memory then Lookup(Some(s.memory[url]), s)
    else
      var path := CachePath(md5, url);
      if path in s.disk then Lookup(Some(s.disk[path]), s.(memory := s.memory[url := s.disk[path]]))
      else
        var response := get(url);
        var s' := s.(requests := s.requests + [url]);
        if response.statusCode == 200 then
          Lookup(Some(response.content), s'.(memory := s.memory[url := response.content],
                                              disk := s.disk[path := response.content]))
        else Lookup(None, s')
  }

  /** A memory hit returns the memory bytes and touches nothing. */
  lemma MemoryHit(s: Store, url: string, md5: string -> string, get: string -> Response)
    requires url in s.memory
    ensures LookupBytes(s, url, md5, get) == Lookup(Some(s.memory[url]), s)
  {
  }

  /** A disk hit returns the disk bytes, copies them into memory and makes no request. */
  lemma DiskHit(s: Store, url: string, md5: string -> string, get: string -> Response)
    requires url !in s.memory && CachePath(md5, url) in s.disk
    ensures var l := LookupBytes(s, url, md5, get);
            var bytes := s.disk[CachePath(md5, url)];
            && l.data == Some(bytes)
            && l.store.memory == s.memory[url := bytes]
            && l.store.disk == s.disk && l.store.requests == s.requests
  {
  }

  /** A miss in both tiers makes exactly one request; a 200 writes through to both tiers, anything else to neither. */
  lemma NetworkFetch(s: Store, url: string, md5: string -> string, get: string -> Response)
    requires url !in s.memory && CachePath(md5, url) !in s.disk
    ensures var l := LookupBytes(s, url, md5, get);
            var response := get(url);
            && l.store.requests == s.requests + [url]
            && (response.statusCode == 200 ==>
                  && l.data == Some(response.content)
                  && l.store.memory == s.memory[url := response.content]
                  && l.store.disk == s.disk[CachePath(md5, url) := response.content])
            && (response.statusCode != 200 ==> l.data == None && l.store.memory == s.memory && l.store.disk == s.disk)
  {
  }

  /**
   * After any lookup that produced bytes, the URL is in memory with those
   * bytes, so looking it up again is a memory hit that makes no request;
   * and a lookup never forgets a cached entry.
   */
  lemma SecondLookupHitsMemory(s: Store, url: string, md5: string -> string, get: string -> Response)
    ensures var l := LookupBytes(s, url, md5, get);
            && (l.data.Some? <==> url in l.store.memory)
            && (l.data.Some? ==> l.store.memory[url] == l.data.value)
            && (l.data.Some? ==> LookupBytes(l.store, url, md5, get) == Lookup(l.data, l.store))
            && s.memory.Keys <= l.store.memory.Keys && s.disk.Keys <= l.store.disk.Keys
            && (forall u :: u in s.memory ==> l.store.memory[u] == s.memory[u])
            && (forall p :: p in s.disk ==> l.store.disk[p] == s.disk[p])
  {
  }

  /** `Image.open` and the optional resize: None when the bytes do not decode. */
  function Decode(bytes: Bytes, size: Option<(int, int)>, decodes: Bytes -> bool): Option<Image> {
    if decodes(bytes) then Some(Image(bytes, size)) else None
  }

  /** What `load_images_batch` has built after some of its URLs. */
  datatype Batch = Batch(store: Store, loaded: map<string, Option<Image>>, hits: nat, misses: nat)

  /** The batch as a value: each URL fetched in turn, its result stored under it, then counted by its memory presence. */
  function BatchOf(
    s: Store, urls: seq<string>, size: Option<(int, int)>,
    md5: string -> string, get: string -> Response, decodes: Bytes -> bool): Batch
  {
    if urls == [] then Batch(s, map[], 0, 0)
    else
      var n := |urls| - 1;
      var b := BatchOf(s, urls[..n], size, md5, get, decodes);
      var l := LookupBytes(b.store, urls[n], md5, get);
      var image := if l.data.Some? then Decode(l.data.value, size, decodes) else None;
      var inMemory := urls[n] in l.store.memory;
      Batch(l.store, b.loaded[urls[n] := image],
            b.hits + (if inMemory then 1 else 0), b.misses + (if inMemory then 0 else 1))
  }

  /** How many URLs of the batch got bytes, from any tier. */
  function Obtained(
    s: Store, urls: seq<string>, md5: string -> string, get: string -> Response, decodes: Bytes -> bool): nat
  {
    if urls == [] then 0
    else
      var n := |urls| - 1;
      var b := BatchOf(s, urls[..n], None, md5, get, decodes);
      Obtained(s, urls[..n], md5, get, decodes) + (if LookupBytes(b.store, urls[n], md5, get).data.Some? then 1 else 0)
  }

  /** The store a batch leaves does not depend on the size asked for. */
  lemma {:induction false} BatchStoreIgnoresSize(
    s: Store, urls: seq<string>, size: Option<(int, int)>,
    md5: string -> string, get: string -> Response, decodes: Bytes -> bool)
    ensures BatchOf(s, urls, size, md5, get, decodes).store == BatchOf(s, urls, None, md5, get, decodes).store
    ensures BatchOf(s, urls, size, md5, get, decodes).hits == BatchOf(s, urls, None, md5, get, decodes).hits
  {
    if urls != [] {
      BatchStoreIgnoresSize(s, urls[..|urls| - 1], size, md5, get, decodes);
    }
  }

  /** After a lookup the URL is in memory exactly when the lookup produced bytes. */
  lemma LookupPresence(s: Store, url: string, md5: string -> string, get: string -> Response)
    ensures LookupBytes(s, url, md5, get).data.Some? <==> url in LookupBytes(s, url, md5, get).store.memory
  {
  }

  /** Every URL of the batch gets an entry, and no other key does. */
  lemma {:induction false} BatchKeys(
    s: Store, urls: seq<string>, size: Option<(int, int)>,
    md5: string -> string, get: string -> Response, decodes: Bytes -> bool)
    ensures BatchOf(s, urls, size, md5, get, decodes).loaded.Keys == set u | u in urls
  {
    if urls != [] {
      var n := |urls| - 1;
      BatchKeys(s, urls[..n], size, md5, get, decodes);
      assert urls == urls[..n] + [urls[n]];
    }
  }

  /**
   * Hits and misses together count every URL, and because the presence
   * test comes after the fetch, a "hit" is any URL whose bytes were
   * obtained, from memory, disk or network alike.
   */
  lemma {:induction false} BatchCounts(
    s: Store, urls: seq<string>, size: Option<(int, int)>,
    md5: string -> string, get: string -> Response, decodes: Bytes -> bool)
    ensures var b := BatchOf(s, urls, size, md5, get, decodes);
            b.hits + b.misses == |urls| && b.hits == Obtained(s, urls, md5, get, decodes)
  {
    if urls != [] {
      var n := |urls| - 1;
      BatchCounts(s, urls[..n], size, md5, get, decodes);
      BatchStoreIgnoresSize(s, urls[..n], size, md5, get, decodes);
      LookupPresence(BatchOf(s, urls[..n], size, md5, get, decodes).store, urls[n], md5, get);
    }
  }

  class ImageStore {
    /** IMAGE_CACHE. */
    var memory: map<string, Bytes>
    /** The files of the images cache directory. */
    var disk: map<string, Bytes>
    /** Every URL requested from the network, in order. */
    var requests: seq<string>
    const md5: string -> string

    function Contents(): Store
      reads this
    {
      Store(memory, disk, requests)
    }

    constructor(md5: string -> string, disk: map<string, Bytes>)
      ensures Contents() == Store(map[], disk, []) && this.md5 == md5
    {
      this.md5 := md5;
      memory := map[];
      this.disk := disk;
      requests := [];
    }

    /** `fetch_image(url, size)`, with the HTTP GET and the decoder as inputs. */
    method FetchImage(url: string, size: Option<(int, int)>, get: string -> Response, decodes: Bytes -> bool)
      returns (image: Option<Image>)
      modifies this
      ensures var l := LookupBytes(old(Contents()), url, md5, get);
              && Contents() == l.store
              && image == if l.data.Some? then Decode(l.data.value, size, decodes) else None
    {
      var data: Bytes;
      if url in memory {
        data := memory[url];
      } else {
        var path := CachePath(md5, url);
        if path in disk {
          data := disk[path];
        } else {
          var response := get(url);
          requests := requests + [url];
          if response.statusCode == 200 {
            data := response.content;
            disk := disk[path := data];
          } else {
            return None;
          }
        }
        memory := memory[url := data];
      }
      image := Decode(data, size, decodes);
    }

    /**
     * `load_images_batch(urls, size)`: the loaded images by URL. The source
     * only prints its hit and miss counts when debugging; the model returns
     * them as outputs in place of that print.
     */
    method LoadImagesBatch(urls: seq<string>, size: Option<(int, int)>, get: string -> Response, decodes: Bytes -> bool)
      returns (loaded: map<string, Option<Image>>, hits: nat, misses: nat)
      modifies this
      ensures Batch(Contents(), loaded, hits, misses) == BatchOf(old(Contents()), urls, size, md5, get, decodes)
    {
      ghost var s := Contents();
      loaded, hits, misses := map[], 0, 0;
      var i := 0;
      while i < |urls|
        invariant 0 <= i <= |urls|
        invariant Batch(Contents(), loaded, hits, misses) == BatchOf(s, urls[..i], size, md5, get, decodes)
      {
        var url := urls[i];
        assert urls[..i + 1][..i] == urls[..i];
        var image := FetchImage(url, size, get, decodes);
        loaded := loaded[url := image];
        if url in memory {
          hits := hits + 1;
        } else {
          misses := misses + 1;
        }
        i := i + 1;
      }
      assert urls[..|urls|] == urls;
    }
  }
}
