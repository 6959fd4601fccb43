/**
 From the listed chunk files to the bytes a client downloads: object-store keys, the key list kept in
 model_metadata, and the three URL lists that are made from it.
 */
module ChunkUrls {
  import opened Wrappers
  import opened Bytes
  import C = Chunks

  /** The object store, by key. */
  type Store = map<string, File>

  function KeyFor(prefix: string, name: string): string {
    prefix + "/" + name
  }

  lemma SameNameForKey(prefix: string, a: string, b: string)
    requires KeyFor(prefix, a) == KeyFor(prefix, b)
    ensures a == b
  {
    assert a == KeyFor(prefix, a)[|prefix| + 1..] && b == KeyFor(prefix, b)[|prefix| + 1..];
  }

  // ---- URLs ----

  /** STORAGE_PROVIDER and CDN_BASE_URL, which the worker and the API share. */
  datatype Settings = Settings(local: bool, cdnBase: string)

  function StripSlashes(s: string): string {
    if s != "" && s[|s| - 1] == '/' then StripSlashes(s[..|s| - 1]) else s
  }

  function UrlBase(settings: Settings): string {
    if settings.local then "/files/" else StripSlashes(settings.cdnBase) + "/"
  }

  /** `build_cdn_url`, the same on both sides. */
  function CdnUrl(settings: Settings, key: string): string {
    UrlBase(settings) + key
  }

  function Slashes(n: nat): string {
    seq(n, _ => '/')
  }

  lemma {:induction false} SlashesStripped(base: string, n: nat)
    requires base == "" || base[|base| - 1] != '/'
    ensures StripSlashes(base + Slashes(n)) == base
  {
    if n == 0 {
      assert base + Slashes(0) == base;
    } else {
      SlashesStripped(base, n - 1);
      var s := base + Slashes(n);
      assert s[..|s| - 1] == base + Slashes(n - 1) && s[|s| - 1] == '/';
    }
  }

  /** Where an object is found: under /files, or under the CDN's address, however many slashes that ends in. */
  lemma UrlIs(base: string, n: nat, key: string)
    requires base == "" || base[|base| - 1] != '/'
    ensures CdnUrl(Settings(true, base), key) == "/files/" + key
    ensures CdnUrl(Settings(false, base + Slashes(n)), key) == base + "/" + key
  {
    SlashesStripped(base, n);
  }

  function CdnUrls(settings: Settings, keys: seq<string>): (urls: seq<string>)
    ensures |urls| == |keys| && forall i | 0 <= i < |keys| :: urls[i] == CdnUrl(settings, keys[i])
  {
    seq(|keys|, i requires 0 <= i < |keys| => CdnUrl(settings, keys[i]))
  }

  /** The two entries of model_metadata.properties that list keys. */
  datatype Properties = Properties(processedKeys: Option<seq<string>>, xktChunks: Option<seq<string>>)

  function NonEmpty(keys: Option<seq<string>>): Option<seq<string>> {
    if keys.Some? && keys.value != [] then keys else None
  }

  /** `get_chunks` */
  function ApiUrls(settings: Settings, metadata: Option<Properties>, prefix: Option<string>): seq<string> {
    if metadata.Some? && NonEmpty(metadata.value.processedKeys).Some? then
      CdnUrls(settings, metadata.value.processedKeys.value)
    else if metadata.Some? && NonEmpty(metadata.value.xktChunks).Some? then
      CdnUrls(settings, metadata.value.xktChunks.value)
    else if prefix.None? || prefix.value == "" then []
    else [CdnUrl(settings, prefix.value)]
  }

  /** The chunk URLs of a public share link. */
  function ShareUrls(settings: Settings, metadata: Option<Properties>): seq<string> {
    if metadata.None? then []
    else if NonEmpty(metadata.value.xktChunks).Some? then CdnUrls(settings, metadata.value.xktChunks.value)
    else if NonEmpty(metadata.value.processedKeys).Some? then CdnUrls(settings, metadata.value.processedKeys.value)
    else []
  }

  /** What a converter writes: the IFC task one entry, the mesh tasks the other. */
  function Written(ifc: bool, keys: seq<string>): Properties {
    if ifc then Properties(None, Some(keys)) else Properties(Some(keys), None)
  }

  lemma CdnUrlInjective(settings: Settings, a: string, b: string)
    requires CdnUrl(settings, a) == CdnUrl(settings, b)
    ensures a == b
  {
    var n := |UrlBase(settings)|;
    assert a == CdnUrl(settings, a)[n..] && b == CdnUrl(settings, b)[n..];
  }

  lemma CdnUrlsInjective(settings: Settings, a: seq<string>, b: seq<string>)
    requires CdnUrls(settings, a) == CdnUrls(settings, b)
    ensures a == b
  {
    var urls := CdnUrls(settings, a);
    assert |a| == |b|;
    forall i | 0 <= i < |a| ensures a[i] == b[i] {
      assert urls[i] == CdnUrl(settings, a[i]) && urls[i] == CdnUrl(settings, b[i]);
      CdnUrlInjective(settings, a[i], b[i]);
    }
  }

  /**
   For a finished model the MODEL_READY list, the chunks endpoint and the share link agree if and only if at least
   one chunk was uploaded: with none, the chunks endpoint falls back to the bare prefix.
   */
  lemma UrlListsAgree(settings: Settings, ifc: bool, keys: seq<string>, prefix: string)
    requires prefix != ""
    ensures ShareUrls(settings, Some(Written(ifc, keys))) == CdnUrls(settings, keys)
    ensures ApiUrls(settings, Some(Written(ifc, keys)), Some(prefix)) == CdnUrls(settings, keys) <==> keys != []
  {
    assert keys == [] ==> CdnUrls(settings, keys) == [];
  }

  /** The endpoint and the share link agree on any stored metadata exactly when this holds. */
  lemma EndpointsAgree(settings: Settings, metadata: Option<Properties>, prefix: Option<string>)
    ensures ApiUrls(settings, metadata, prefix) == ShareUrls(settings, metadata) <==>
            var p := if metadata.Some? then NonEmpty(metadata.value.processedKeys) else None;
            var x := if metadata.Some? then NonEmpty(metadata.value.xktChunks) else None;
            if p.Some? && x.Some? then p == x
            else p.Some? || x.Some? || prefix.None? || prefix.value == ""
  {
    if metadata.Some? && NonEmpty(metadata.value.processedKeys).Some? && NonEmpty(metadata.value.xktChunks).Some? {
      var p, x := metadata.value.processedKeys.value, metadata.value.xktChunks.value;
      if CdnUrls(settings, p) == CdnUrls(settings, x) { CdnUrlsInjective(settings, p, x); }
    }
  }

  // ---- what the client gets ----

  /** The bytes behind the URLs, in order; a URL that names no object gives None. */
  function Download(settings: Settings, store: Store, urls: seq<string>): Option<File> {
    if urls == [] then Some([])
    else
      var rest := Download(settings, store, urls[1..]);
      var n := |UrlBase(settings)|;
      if rest.Some? && |urls[0]| >= n && urls[0][..n] == UrlBase(settings) && urls[0][n..] in store
      then Some(store[urls[0][n..]] + rest.value) else None
  }

  lemma {:induction false} DownloadReads(settings: Settings, store: Store, files: C.Files, keys: seq<string>,
                                         names: seq<string>)
    requires |keys| == |names| && forall i | 0 <= i < |names| ::
               names[i] in files && keys[i] in store && store[keys[i]] == files[names[i]]
    ensures Download(settings, store, CdnUrls(settings, keys)) == Some(C.ReadBack(files, names))
  {
    if keys == [] {
      assert C.ReadBack(files, names) == [];
    } else {
      DownloadReads(settings, store, files, keys[1..], names[1..]);
      var urls := CdnUrls(settings, keys);
      assert urls[1..] == CdnUrls(settings, keys[1..]);
      var n := |UrlBase(settings)|;
      assert urls[0] == UrlBase(settings) + keys[0];
      assert urls[0][..n] == UrlBase(settings) && urls[0][n..] == keys[0];
      C.ReadBackAppend(files, names[..1], names[1..]);
      assert names == names[..1] + names[1..];
      assert C.ReadBack(files, names[..1]) == files[names[0]] by {
        assert seq(1, i requires 0 <= i < 1 => files[names[..1][i]]) == [files[names[0]]];
        assert Concat([files[names[0]]]) == files[names[0]] + Concat([files[names[0]]][1..]);
      }
    }
  }
}
