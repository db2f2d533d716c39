/** helpers/bundler.js: `generateBundle`, which builds an entry file with
    the bundler, writes every generated chunk under `./temp`, stores it in
    the artifact cache under its file name, and returns the first chunk's
    code. The bundler is a parameter: the output it produces for an entry. */
module Bundler {
  import opened Base
  import opened Strings
  import opened FileSystem
  import opened Cache

  datatype ChunkInfo = ChunkInfo(fileName: string, code: string)

  /** An item of the bundler's output: a code chunk or an emitted asset. */
  datatype OutputItem = ChunkItem(chunk: ChunkInfo) | AssetItem(fileName: string, source: seq<Byte>)

  /** What the bundler gives for an entry: its output, or the error it throws. */
  datatype BuildResult = Built(output: seq<OutputItem>) | BuildFailed(message: string)

  /** `output.filter(item => item.type === 'chunk')`. */
  function Chunks(output: seq<OutputItem>): (cs: seq<ChunkInfo>)
    ensures |cs| <= |output|
    ensures forall c :: c in cs <==> ChunkItem(c) in output
    ensures output != [] && output[0].ChunkItem? ==> cs != [] && cs[0] == output[0].chunk
  {
    if output == [] then []
    else (if output[0].ChunkItem? then [output[0].chunk] else []) + Chunks(output[1..])
  }

  /** Filtering distributes over concatenation, so the chunks keep the
      order and the multiplicity they have in the output. */
  lemma {:induction false} ChunksAppend(a: seq<OutputItem>, b: seq<OutputItem>)
    ensures Chunks(a + b) == Chunks(a) + Chunks(b)
    decreases |a|
  {
    if a == [] {
      assert a + b == b;
    } else {
      assert (a + b)[0] == a[0];
      assert (a + b)[1..] == a[1..] + b;
      ChunksAppend(a[1..], b);
    }
  }

  /** A single chunk is kept, a single asset is dropped. */
  lemma ChunksOfItem(c: ChunkInfo, name: string, source: seq<Byte>)
    ensures Chunks([ChunkItem(c)]) == [c]
    ensures Chunks([AssetItem(name, source)]) == []
  {
  }

  /** The first chunk of the output, after any leading assets, is the
      first chunk the filter gives. */
  lemma {:induction false} ChunksSkipAssets(assets: seq<OutputItem>, c: ChunkInfo, rest: seq<OutputItem>)
    requires forall i :: 0 <= i < |assets| ==> assets[i].AssetItem?
    ensures Chunks(assets + [ChunkItem(c)] + rest) == [c] + Chunks(rest)
  {
    var head := assets + [ChunkItem(c)];
    ChunksAppend(head, rest);
    ChunksAppend(assets, [ChunkItem(c)]);
    NoChunks(assets);
    ChunksOfItem(c, "", []);
    assert Chunks(head) == [c];
  }

  lemma {:induction false} NoChunks(assets: seq<OutputItem>)
    requires forall i :: 0 <= i < |assets| ==> assets[i].AssetItem?
    ensures Chunks(assets) == []
    decreases |assets|
  {
    if assets != [] {
      NoChunks(assets[1..]);
    }
  }

  function TempPath(name: string): string
  {
    "./temp/" + name
  }

  /** The cache after storing `cs` one after the other. */
  function StoreChunks(cache: map<string, Body>, cs: seq<ChunkInfo>): map<string, Body>
  {
    if cs == [] then cache
    else StoreChunks(cache, cs[..|cs| - 1])[cs[|cs| - 1].fileName := Text(cs[|cs| - 1].code)]
  }

  /** The files after writing `cs` one after the other under `./temp`. */
  function WriteChunks(files: map<string, seq<Byte>>, cs: seq<ChunkInfo>, encode: string -> seq<Byte>): map<string, seq<Byte>>
  {
    if cs == [] then files
    else WriteChunks(files, cs[..|cs| - 1], encode)[TempPath(cs[|cs| - 1].fileName) := encode(cs[|cs| - 1].code)]
  }

  /** The code of the last chunk in `cs` named `k`: the one whose write
      wins. */
  function LastCode(cs: seq<ChunkInfo>, k: string): (r: Option<string>)
    ensures r.Some? <==> exists i :: 0 <= i < |cs| && cs[i].fileName == k
    ensures r.Some? ==> exists i :: 0 <= i < |cs| && cs[i] == ChunkInfo(k, r.value)
  {
    if cs == [] then None
    else if cs[|cs| - 1].fileName == k then Some(cs[|cs| - 1].code)
    else
      var r := LastCode(cs[..|cs| - 1], k);
      assert forall i :: 0 <= i < |cs| - 1 ==> cs[..|cs| - 1][i] == cs[i];
      r
  }

  /** How many chunks are written before the first write that throws. */
  function WrittenPrefix(cs: seq<ChunkInfo>, d: DiskState): (n: nat)
    ensures n <= |cs|
    ensures forall i :: 0 <= i < n ==> CanWrite(d, TempPath(cs[i].fileName))
    ensures n < |cs| ==> !CanWrite(d, TempPath(cs[n].fileName))
  {
    if cs == [] || !CanWrite(d, TempPath(cs[0].fileName)) then 0
    else 1 + WrittenPrefix(cs[1..], d)
  }

  /** The outcome of a call: what it returns or throws, and the cache and
      the disk it leaves behind. */
  datatype Outcome = Outcome(result: Result<string>, cache: map<string, Body>, disk: DiskState)

  /** The disk once `./temp` exists. */
  function WithTemp(d: DiskState): DiskState
  {
    if Exists(d, "./temp") then d else d.(dirs := d.dirs + {"./temp"})
  }

  /** `generateBundle(entry)`, with `build` the bundler and `encode` the
      UTF-8 encoding `writeFileSync` applies to a string. */
  function BundleOf(entry: string, build: string -> BuildResult, encode: string -> seq<Byte>,
                    cache: map<string, Body>, d: DiskState): (r: Outcome)
    ensures !Exists(d, entry) ==> r == Outcome(Err("File not found: " + entry), cache, d)
    ensures Exists(d, entry) && build(entry).BuildFailed? ==> r == Outcome(Err(build(entry).message), cache, d)
    ensures Exists(d, entry) && build(entry).Built? && Chunks(build(entry).output) == []
      ==> r.result == Err("No chunk output generated for " + entry) && r.cache == cache
    ensures r.result.Ok? ==>
      build(entry).Built? && Chunks(build(entry).output) != [] && r.result.value == Chunks(build(entry).output)[0].code
  {
    if !Exists(d, entry) then Outcome(Err("File not found: " + entry), cache, d)
    else match build(entry)
      case BuildFailed(m) => Outcome(Err(m), cache, d)
      case Built(output) =>
        var d1 := WithTemp(d);
        var cs := Chunks(output);
        if cs == [] then Outcome(Err("No chunk output generated for " + entry), cache, d1)
        else
          var n := WrittenPrefix(cs, d1);
          var written := d1.(files := WriteChunks(d1.files, cs[..n], encode));
          var stored := StoreChunks(cache, cs[..n]);
          if n == |cs| then Outcome(Ok(cs[0].code), stored, written)
          else Outcome(Err(WriteError(d1, TempPath(cs[n].fileName))), stored, written)
  }

  lemma {:induction false} StoreChunksLookup(cache: map<string, Body>, cs: seq<ChunkInfo>, k: string)
    ensures LastCode(cs, k).Some? ==> k in StoreChunks(cache, cs) && StoreChunks(cache, cs)[k] == Text(LastCode(cs, k).value)
    ensures LastCode(cs, k).None? ==>
      (k in StoreChunks(cache, cs) <==> k in cache) && (k in cache ==> StoreChunks(cache, cs)[k] == cache[k])
    decreases |cs|
  {
    if cs != [] {
      StoreChunksLookup(cache, cs[..|cs| - 1], k);
    }
  }

  lemma {:induction false} WriteChunksLookup(files: map<string, seq<Byte>>, cs: seq<ChunkInfo>, encode: string -> seq<Byte>, k: string)
    ensures LastCode(cs, k).Some? ==>
      TempPath(k) in WriteChunks(files, cs, encode) && WriteChunks(files, cs, encode)[TempPath(k)] == encode(LastCode(cs, k).value)
    decreases |cs|
  {
    if cs != [] {
      WriteChunksLookup(files, cs[..|cs| - 1], encode, k);
      var last := cs[|cs| - 1].fileName;
      if last != k {
        TempPathInjective(last, k);
      }
    }
  }

  lemma TempPathInjective(a: string, b: string)
    ensures TempPath(a) == TempPath(b) ==> a == b
  {
    if TempPath(a) == TempPath(b) {
      assert a == TempPath(a)[7..];
    }
  }

  /** After a successful call, every chunk's code is cached under its file
      name (the last chunk of a name wins), and every other key, the names
      of assets included, keeps its value. */
  lemma BundleStoresEveryChunk(entry: string, build: string -> BuildResult, encode: string -> seq<Byte>,
                               cache: map<string, Body>, d: DiskState, k: string)
    requires BundleOf(entry, build, encode, cache, d).result.Ok?
    ensures var r := BundleOf(entry, build, encode, cache, d);
      var cs := Chunks(build(entry).output);
      && (LastCode(cs, k).Some? ==> k in r.cache && r.cache[k] == Text(LastCode(cs, k).value))
      && (LastCode(cs, k).None? ==> (k in r.cache <==> k in cache) && (k in cache ==> r.cache[k] == cache[k]))
  {
    var cs := Chunks(build(entry).output);
    var n := WrittenPrefix(cs, WithTemp(d));
    assert cs[..n] == cs;
    StoreChunksLookup(cache, cs, k);
  }

  /** Whatever the outcome, a key that names no chunk keeps its value, and
      a key that is cached anew names a chunk that was written to `./temp`
      first, with the same code. */
  lemma BundleCachesOnlyWrittenChunks(entry: string, build: string -> BuildResult, encode: string -> seq<Byte>,
                                      cache: map<string, Body>, d: DiskState, k: string)
    ensures var r := BundleOf(entry, build, encode, cache, d);
      && ((build(entry).BuildFailed? || LastCode(Chunks(build(entry).output), k).None?)
          ==> (k in r.cache <==> k in cache) && (k in cache ==> r.cache[k] == cache[k]))
      && (k in r.cache && (k !in cache || r.cache[k] != cache[k])
          ==> r.cache[k].Text? && TempPath(k) in r.disk.files && r.disk.files[TempPath(k)] == encode(r.cache[k].text))
  {
    if Exists(d, entry) && build(entry).Built? {
      var cs := Chunks(build(entry).output);
      if cs != [] {
        var d1 := WithTemp(d);
        var n := WrittenPrefix(cs, d1);
        StoreChunksLookup(cache, cs[..n], k);
        WriteChunksLookup(d1.files, cs[..n], encode, k);
      }
    }
  }

  /** A write that throws ends the call with its error: the chunks before
      it are written and cached, the one that failed and those after it are
      not. */
  lemma BundleWriteFailure(entry: string, build: string -> BuildResult, encode: string -> seq<Byte>,
                           cache: map<string, Body>, d: DiskState, k: string)
    requires Exists(d, entry) && build(entry).Built? && Chunks(build(entry).output) != []
    requires WrittenPrefix(Chunks(build(entry).output), WithTemp(d)) < |Chunks(build(entry).output)|
    ensures var r := BundleOf(entry, build, encode, cache, d);
      var cs := Chunks(build(entry).output);
      var n := WrittenPrefix(cs, WithTemp(d));
      && r.result == Err(WriteError(WithTemp(d), TempPath(cs[n].fileName)))
      && (LastCode(cs[..n], k).Some? ==> k in r.cache && r.cache[k] == Text(LastCode(cs[..n], k).value))
      && (LastCode(cs[..n], k).None? ==> (k in r.cache <==> k in cache) && (k in cache ==> r.cache[k] == cache[k]))
  {
    var cs := Chunks(build(entry).output);
    StoreChunksLookup(cache, cs[..WrittenPrefix(cs, WithTemp(d))], k);
  }

  /** The cache is never consulted: what a call returns and writes to disk
      does not depend on the cache's contents, so every call runs the
      bundler again. */
  lemma BundleIgnoresCache(entry: string, build: string -> BuildResult, encode: string -> seq<Byte>,
                           c1: map<string, Body>, c2: map<string, Body>, d: DiskState)
    ensures BundleOf(entry, build, encode, c1, d).result == BundleOf(entry, build, encode, c2, d).result
    ensures BundleOf(entry, build, encode, c1, d).disk == BundleOf(entry, build, encode, c2, d).disk
  {
  }

  /** The loop of `generateBundle`: writes each chunk to `./temp` and then
      caches it, until a write throws; `error` is what it throws. */
  method WriteAndStore(chunks: seq<ChunkInfo>, encode: string -> seq<Byte>, app: ApplicationCache, disk: Disk)
    returns (error: Option<string>)
    modifies app`cache, disk`files
    ensures var n := WrittenPrefix(chunks, old(disk.State()));
      && app.cache == StoreChunks(old(app.cache), chunks[..n])
      && disk.files == WriteChunks(old(disk.files), chunks[..n], encode)
      && (n == |chunks| ==> error.None?)
      && (n < |chunks| ==> error == Some(WriteError(old(disk.State()), TempPath(chunks[n].fileName))))
  {
    ghost var d1 := disk.State();
    ghost var c0 := app.cache;
    ghost var n := WrittenPrefix(chunks, d1);
    var i := 0;
    while i < |chunks|
      invariant 0 <= i <= n
      invariant disk.dirs == d1.dirs
      invariant disk.files == WriteChunks(d1.files, chunks[..i], encode)
      invariant app.cache == StoreChunks(c0, chunks[..i])
    {
      var path := "./temp/" + chunks[i].fileName;
      error := disk.WriteFileSync(path, encode(chunks[i].code));
      if error.Some? {
        return;
      }
      assert chunks[..i + 1][..i] == chunks[..i];
      app.cache := app.cache[chunks[i].fileName := Text(chunks[i].code)];
      i := i + 1;
    }
    assert chunks[..i] == chunks;
    error := None;
  }

  /** `generateBundle(entry)` on the application cache and the disk. */
  method GenerateBundle(entry: string, build: string -> BuildResult, encode: string -> seq<Byte>,
                        app: ApplicationCache, disk: Disk) returns (result: Result<string>)
    modifies app`cache, disk
    ensures Outcome(result, app.cache, disk.State()) == BundleOf(entry, build, encode, old(app.cache), old(disk.State()))
  {
    var found := disk.ExistsSync(entry);
    if !found {
      return Err("File not found: " + entry);
    }
    var built := build(entry);
    if built.BuildFailed? {
      return Err(built.message);
    }
    var hasTemp := disk.ExistsSync("./temp");
    if !hasTemp {
      disk.MkdirSync("./temp");
    }
    var chunks := Chunks(built.output);
    if |chunks| == 0 {
      return Err("No chunk output generated for " + entry);
    }
    var error := WriteAndStore(chunks, encode, app, disk);
    if error.Some? {
      return Err(error.value);
    }
    return Ok(chunks[0].code);
  }
}
