/**
 * `optstore::retrieve::run`: parse the day, load or start the partition's manifest, fetch
 * the pages, and for every chunk write a part file, check that its ticks decode, and
 * append the part to the manifest; the manifest is stored once all chunks are in.
 *
 * The directory tree under `--out` is given as its part files and manifests and the new
 * tree is returned. The upstream answers, the xxh3 hash of the symbol and the size of
 * each compressed part are parameters; progress reporting is left out.
 */
module StoreRun {
  import opened Wrappers
  import opened Text
  import opened Numbers
  import opened StoreSchema
  import opened StoreTypes
  import opened StoreUtil
  import opened StoreCache
  import opened StoreFetch
  import opened StoreNormalize
  import opened StoreRetrieve

  /** The only source the command knows how to fetch from. */
  const DERIBIT: string := "deribit"

  /** `RetrieveCommand`: the command-line arguments of `optstore retrieve`. */
  datatype RetrieveCommand = RetrieveCommand(
    source: string,
    symbol: string,
    day: string,
    out: Path,
    resume: bool,
    maxPages: U32,
    rate: U32,
    kind: RetrieveKind)

  /** What `run` settles before it fetches: the spec, the manifest it extends, the options. */
  datatype RunPlan = RunPlan(spec: RetrieveSpec, base: ManifestData, options: RetrieveOptions)

  /** What a successful run leaves behind: the options used, the stored manifest, the totals. */
  datatype RunReport = RunReport(options: RetrieveOptions, manifest: ManifestData, totalRows: nat, totalBytes: nat)

  /** The value of `CacheManifest::new`. */
  function NewManifest(source: string, spec: RetrieveSpec): ManifestData {
    ManifestData(MANIFEST_VERSION, source, spec.symbol, spec.dayYmd, [], None)
  }

  /** The stored manifest of the partition, if there is one. */
  function StoredManifest(root: Path, manifests: map<Path, ManifestData>, spec: RetrieveSpec): Option<ManifestData> {
    var path := ManifestPath(root, spec);
    if path in manifests then Some(manifests[path]) else None
  }

  /**
   * The first steps of `run`: the day must parse and name a date; with `--resume` the
   * stored manifest (if any) is extended and its resume token starts the fetch, without
   * it a new manifest is started from the first page; a page limit of 0 means none.
   */
  function Plan(cmd: RetrieveCommand, manifests: map<Path, ManifestData>): (r: Result<RunPlan, RunError>)
    ensures r.Ok? <==> ParseDay(cmd.day).Ok? && DayBoundsMs(ParseDay(cmd.day).value).Ok?
    ensures ParseDay(cmd.day).Err? ==> r == Err(InvalidDay(cmd.day))
    ensures ParseDay(cmd.day).Ok? && DayBoundsMs(ParseDay(cmd.day).value).Err? ==>
      r == Err(InvalidDayCode(ParseDay(cmd.day).value))
    ensures r.Ok? ==> r.value.spec == RetrieveSpec(cmd.symbol, ParseDay(cmd.day).value, cmd.kind)
    ensures r.Ok? ==>
      (r.value.options.startMs, r.value.options.endMs) == DayBoundsMs(r.value.spec.dayYmd).value
    ensures r.Ok? && !cmd.resume ==>
      r.value.base == NewManifest(cmd.source, r.value.spec) && r.value.options.resumeFrom == None
    ensures r.Ok? && cmd.resume ==> r.value.options.resumeFrom == r.value.base.resumeToken
    ensures r.Ok? ==> (r.value.options.maxPages.None? <==> cmd.maxPages == 0)
    ensures r.Ok? && cmd.maxPages > 0 ==> r.value.options.maxPages == Some(cmd.maxPages)
  {
    match ParseDay(cmd.day)
    case Err(e) => Err(e)
    case Ok(day) =>
      var spec := RetrieveSpec(cmd.symbol, day, cmd.kind);
      var stored := StoredManifest(cmd.out, manifests, spec);
      var base := if cmd.resume && stored.Some? then stored.value else NewManifest(cmd.source, spec);
      match DayBoundsMs(day)
      case Err(e) => Err(e)
      case Ok((startMs, endMs)) =>
        var options := RetrieveOptions(
          if cmd.resume then base.resumeToken else None,
          if cmd.maxPages > 0 then Some(cmd.maxPages) else None,
          startMs,
          endMs);
        Ok(RunPlan(spec, base, options))
  }

  /**
   * Resuming picks up what was stored: with `--resume`, a stored manifest is the one
   * extended and its resume token is where the fetch starts.
   */
  lemma ResumeFromStored(cmd: RetrieveCommand, manifests: map<Path, ManifestData>, spec: RetrieveSpec,
                         stored: ManifestData)
    requires cmd.resume && Plan(cmd, manifests).Ok? && spec == Plan(cmd, manifests).value.spec
    ensures var plan := Plan(cmd, manifests[ManifestPath(cmd.out, spec) := stored]).value;
      plan.base == stored && plan.options.resumeFrom == stored.resumeToken
  {
  }

  // ---------------------------------------------------------------- parts

  /** The manifest entry of a chunk written as part `part`. */
  function PartFor(part: nat, chunk: RawChunk, compressedSize: seq<Byte> -> nat): CacheManifestPart {
    CacheManifestPart(part, chunk.startNs, chunk.endNs, compressedSize(chunk.data), NewlineCount(chunk.data), chunk.resume)
  }

  /** The entries of chunks written as parts `first`, `first + 1`, ... */
  function PartsFor(first: nat, chunks: seq<RawChunk>, compressedSize: seq<Byte> -> nat): (parts: seq<CacheManifestPart>)
    ensures |parts| == |chunks|
  {
    if |chunks| == 0 then []
    else PartsFor(first, chunks[..|chunks| - 1], compressedSize) + [PartFor(first + |chunks| - 1, chunks[|chunks| - 1], compressedSize)]
  }

  /** Entry `i` is the entry of chunk `i` written as part `first + i`. */
  lemma {:induction false} PartsForEach(first: nat, chunks: seq<RawChunk>, compressedSize: seq<Byte> -> nat, i: nat)
    requires i < |chunks|
    ensures PartsFor(first, chunks, compressedSize)[i] == PartFor(first + i, chunks[i], compressedSize)
  {
    if i < |chunks| - 1 {
      PartsForEach(first, chunks[..|chunks| - 1], compressedSize, i);
    }
  }

  /** The manifest after the chunks are appended to it as parts, numbered on from its own. */
  function Extended(base: ManifestData, chunks: seq<RawChunk>, compressedSize: seq<Byte> -> nat): ManifestData {
    base.(parts := base.parts + PartsFor(|base.parts|, chunks, compressedSize),
          resumeToken := if |chunks| > 0 then chunks[|chunks| - 1].resume else base.resumeToken)
  }

  /**
   * The part files after the chunks are written as parts `first`, `first + 1`, ... of
   * the partition of `spec` under `root`.
   */
  function WrittenFiles(files: map<Path, seq<Byte>>, root: Path, spec: RetrieveSpec, first: nat,
                        chunks: seq<RawChunk>): map<Path, seq<Byte>> {
    if |chunks| == 0 then files
    else
      WrittenFiles(files, root, spec, first, chunks[..|chunks| - 1])
        [PartPath(root, spec, first + |chunks| - 1) := chunks[|chunks| - 1].data]
  }

  /** The rows of a list of parts. */
  function SumRows(parts: seq<CacheManifestPart>): nat {
    if |parts| == 0 then 0 else SumRows(parts[..|parts| - 1]) + parts[|parts| - 1].rows
  }

  /** The compressed bytes of a list of parts. */
  function SumBytes(parts: seq<CacheManifestPart>): nat {
    if |parts| == 0 then 0 else SumBytes(parts[..|parts| - 1]) + parts[|parts| - 1].bytes
  }

  lemma SumsSnoc(parts: seq<CacheManifestPart>, p: CacheManifestPart)
    ensures SumRows(parts + [p]) == SumRows(parts) + p.rows
    ensures SumBytes(parts + [p]) == SumBytes(parts) + p.bytes
  {
    assert (parts + [p])[..|parts|] == parts;
  }

  /** Appending one more chunk appends one more entry and moves the resume token to it. */
  lemma ExtendedStep(base: ManifestData, chunks: seq<RawChunk>, i: nat, compressedSize: seq<Byte> -> nat)
    requires i < |chunks|
    ensures Extended(base, chunks[..i + 1], compressedSize) ==
      Extended(base, chunks[..i], compressedSize).(
        parts := Extended(base, chunks[..i], compressedSize).parts + [PartFor(|base.parts| + i, chunks[i], compressedSize)],
        resumeToken := chunks[i].resume)
  {
    assert chunks[..i + 1][..i] == chunks[..i];
  }

  lemma ExtendedLength(base: ManifestData, chunks: seq<RawChunk>, compressedSize: seq<Byte> -> nat)
    ensures |Extended(base, chunks, compressedSize).parts| == |base.parts| + |chunks|
  {
  }

  /** Writing one more chunk writes one more part file. */
  lemma WrittenStep(files: map<Path, seq<Byte>>, root: Path, spec: RetrieveSpec, first: nat, chunks: seq<RawChunk>, i: nat)
    requires i < |chunks|
    ensures WrittenFiles(files, root, spec, first, chunks[..i + 1]) ==
      WrittenFiles(files, root, spec, first, chunks[..i])[PartPath(root, spec, first + i) := chunks[i].data]
  {
    var c := chunks[..i + 1];
    assert c[..|c| - 1] == chunks[..i];
  }

  // ---------------------------------------------------------------- the chunk loop

  /** The pages of all the chunks decode, so their ticks can be taken. */
  predicate AllDecode(chunks: seq<RawChunk>) {
    |chunks| == 0 || (AllDecode(chunks[..|chunks| - 1]) && DecodeTrades(chunks[|chunks| - 1]).Ok?)
  }

  lemma AllDecodeStep(chunks: seq<RawChunk>, i: nat)
    requires i < |chunks| && AllDecode(chunks[..i]) && DecodeTrades(chunks[i]).Ok?
    ensures AllDecode(chunks[..i + 1])
  {
    assert chunks[..i + 1][..i] == chunks[..i];
  }

  /** A list with a chunk that does not decode is not a list that all decode. */
  lemma {:induction false} DecodeFailureBreaksAll(chunks: seq<RawChunk>, j: nat)
    requires j < |chunks| && DecodeTrades(chunks[j]).Err?
    ensures !AllDecode(chunks)
  {
    if j < |chunks| - 1 {
      assert chunks[..|chunks| - 1][j] == chunks[j];
      DecodeFailureBreaksAll(chunks[..|chunks| - 1], j);
    }
  }

  /** Every chunk of a list that all decode decodes. */
  lemma {:induction false} AllDecodeEach(chunks: seq<RawChunk>, j: nat)
    requires AllDecode(chunks) && j < |chunks|
    ensures DecodeTrades(chunks[j]).Ok?
  {
    if j < |chunks| - 1 {
      AllDecodeEach(chunks[..|chunks| - 1], j);
    }
  }

  /**
   * One turn of the chunk loop, for chunk `i`: the chunk is written as the part after
   * the manifest's last, its ticks are decoded and de-duplicated against `seen`, and
   * only if they decode is its entry appended to the manifest. The files and the
   * manifest move from those of the chunks before `i` to those of the chunks up to and
   * including `i`, except that a chunk that does not decode leaves the manifest.
   */
  method WritePart(cache: CacheManager, manifest: CacheManifest, spec: RetrieveSpec, chunks: seq<RawChunk>, i: nat,
                   normalizer: DeribitNormalizer, seen: set<TickKey>, startNs: U64, endNs: U64,
                   compressedSize: seq<Byte> -> nat, ghost files0: map<Path, seq<Byte>>, ghost data0: ManifestData)
    returns (entry: CacheManifestPart, failure: Option<DecodeError>, seenAfter: set<TickKey>)
    requires i < |chunks|
    requires cache.partFiles == WrittenFiles(files0, cache.root, spec, |data0.parts|, chunks[..i])
    requires manifest.Data() == Extended(data0, chunks[..i], compressedSize)
    modifies cache, manifest
    ensures entry == PartFor(|data0.parts| + i, chunks[i], compressedSize)
    ensures cache.partFiles == WrittenFiles(files0, cache.root, spec, |data0.parts|, chunks[..i + 1])
    ensures cache.manifests == old(cache.manifests)
    ensures failure.Some? <==> DecodeTrades(chunks[i]).Err?
    ensures failure.Some? ==> failure.value == DecodeTrades(chunks[i]).error && unchanged(manifest)
    ensures failure.None? ==> manifest.parts == old(manifest.parts) + [entry]
    ensures failure.None? ==> manifest.Data() == Extended(data0, chunks[..i + 1], compressedSize)
  {
    var chunk := chunks[i];
    WrittenStep(files0, cache.root, spec, |data0.parts|, chunks, i);
    ExtendedStep(data0, chunks, i, compressedSize);
    ExtendedLength(data0, chunks[..i], compressedSize);
    var partIndex := |manifest.parts|;
    var result := cache.WriteChunk(spec, partIndex, chunk, compressedSize);
    entry := CacheManifestPart(partIndex, chunk.startNs, chunk.endNs, result.bytesWritten, result.rows, chunk.resume);
    var summary;
    summary, seenAfter := NormalizeAndDedup(normalizer, chunk, seen, startNs, endNs);
    if summary.Err? {
      return entry, Some(summary.error), seenAfter;
    }
    manifest.AppendPart(entry);
    failure := None;
  }

  /**
   * The loop over the fetched chunks: chunk `i` is written as part `first + i`, its
   * ticks are decoded and de-duplicated, and its entry is appended to the manifest. A
   * chunk whose ticks do not decode stops the loop after its part file is written and
   * before its entry is appended; `appended` counts the entries appended.
   */
  method WriteParts(cache: CacheManager, manifest: CacheManifest, spec: RetrieveSpec, chunks: seq<RawChunk>,
                    normalizer: DeribitNormalizer, startNs: U64, endNs: U64, compressedSize: seq<Byte> -> nat)
    returns (appended: nat, failure: Option<DecodeError>, totalRows: nat, totalBytes: nat)
    modifies cache, manifest
    ensures appended <= |chunks|
    ensures AllDecode(chunks[..appended])
    ensures failure.None? ==> appended == |chunks|
    ensures failure.None? ==>
      cache.partFiles == WrittenFiles(old(cache.partFiles), cache.root, spec, |old(manifest.parts)|, chunks)
    ensures failure.Some? ==>
      appended < |chunks| && DecodeTrades(chunks[appended]) == Err(failure.value)
      && cache.partFiles == WrittenFiles(old(cache.partFiles), cache.root, spec, |old(manifest.parts)|, chunks[..appended + 1])
    ensures cache.manifests == old(cache.manifests)
    ensures manifest.Data() == Extended(old(manifest.Data()), chunks[..appended], compressedSize)
    ensures totalRows == SumRows(manifest.parts) && totalBytes == SumBytes(manifest.parts)
  {
    ghost var files0 := cache.partFiles;
    ghost var data0 := manifest.Data();
    totalRows, totalBytes := SumRows(manifest.parts), SumBytes(manifest.parts);
    var seen: set<TickKey> := {};
    var i := 0;
    while i < |chunks|
      invariant 0 <= i <= |chunks|
      invariant AllDecode(chunks[..i])
      invariant cache.partFiles == WrittenFiles(files0, cache.root, spec, |data0.parts|, chunks[..i])
      invariant cache.manifests == old(cache.manifests)
      invariant manifest.Data() == Extended(data0, chunks[..i], compressedSize)
      invariant totalRows == SumRows(manifest.parts) && totalBytes == SumBytes(manifest.parts)
    {
      ghost var parts := manifest.parts;
      var entry, failed;
      entry, failed, seen := WritePart(cache, manifest, spec, chunks, i, normalizer, seen, startNs, endNs,
                                       compressedSize, files0, data0);
      if failed.Some? {
        return i, failed, totalRows, totalBytes;
      }
      AllDecodeStep(chunks, i);
      SumsSnoc(parts, entry);
      totalRows := totalRows + entry.rows;
      totalBytes := totalBytes + entry.bytes;
      i := i + 1;
    }
    assert chunks[..i] == chunks;
    return i, None, totalRows, totalBytes;
  }

  // ---------------------------------------------------------------- run

  /**
   * `run`. A day that does not parse or names no date changes nothing; a failed fetch
   * changes nothing; an unknown source fetches nothing and stores the manifest as it
   * was. Otherwise the fetched chunks are written as the parts after the manifest's
   * own, and on success the manifest extended with them is stored, with totals over
   * all its parts. A chunk whose ticks do not decode ends the run with its part file
   * written and the stored manifest left as it was.
   */
  method Run(cmd: RetrieveCommand, files: map<Path, seq<Byte>>, manifests: map<Path, ManifestData>,
             symbolHash: U64, instrumentCheck: HttpResponse, pages: seq<HttpResponse>,
             compressedSize: seq<Byte> -> nat)
    returns (r: Result<RunReport, RunError>, fetched: seq<RawChunk>,
             filesAfter: map<Path, seq<Byte>>, manifestsAfter: map<Path, ManifestData>)
    ensures Plan(cmd, manifests).Err? ==>
      r == Err(Plan(cmd, manifests).error) && fetched == [] && filesAfter == files && manifestsAfter == manifests
    ensures r.Err? && r.error.FetchFailed? ==> fetched == [] && filesAfter == files && manifestsAfter == manifests
    ensures Plan(cmd, manifests).Ok? && cmd.source != DERIBIT ==> fetched == []
    ensures Plan(cmd, manifests).Ok? && cmd.source == DERIBIT && !(r.Err? && r.error.FetchFailed?) ==>
      var plan := Plan(cmd, manifests).value;
      PagesFetched(plan.spec.symbol, plan.options, pages, fetched)
    ensures r.Ok? ==>
      var plan := Plan(cmd, manifests).value;
      && r.value.options == plan.options
      && r.value.manifest == Extended(plan.base, fetched, compressedSize)
      && filesAfter == WrittenFiles(files, cmd.out, plan.spec, |plan.base.parts|, fetched)
      && manifestsAfter == manifests[ManifestPath(cmd.out, plan.spec) := r.value.manifest]
      && r.value.totalRows == SumRows(r.value.manifest.parts)
      && r.value.totalBytes == SumBytes(r.value.manifest.parts)
    ensures r.Err? ==> Plan(cmd, manifests).Err? || r.error.FetchFailed? || r.error.NormalizeFailed?
    ensures r.Err? && r.error.FetchFailed? ==>
      && Plan(cmd, manifests).Ok? && cmd.source == DERIBIT
      && FetchFailure(Plan(cmd, manifests).value.spec, Plan(cmd, manifests).value.options, instrumentCheck, pages, r.error.fetchError)
    ensures Plan(cmd, manifests).Ok? && cmd.source == DERIBIT && Plan(cmd, manifests).value.spec.kind == Quotes ==>
      r == Err(FetchFailed(QuotesNotImplemented))
    ensures Plan(cmd, manifests).Ok? && cmd.source == DERIBIT ==>
      var spec := Plan(cmd, manifests).value.spec;
      spec.kind != Quotes && EnsureInstrument(spec.symbol, instrumentCheck).Err? ==>
        r == Err(FetchFailed(EnsureInstrument(spec.symbol, instrumentCheck).error))
    ensures Plan(cmd, manifests).Ok? && !(r.Err? && r.error.FetchFailed?) ==> (r.Ok? <==> AllDecode(fetched))
    ensures Plan(cmd, manifests).Ok? && cmd.source != DERIBIT ==> r.Ok?
    ensures r.Err? && r.error.NormalizeFailed? ==>
      var plan := Plan(cmd, manifests).value;
      && manifestsAfter == manifests
      && (exists k :: 0 <= k < |fetched|
            && AllDecode(fetched[..k])
            && DecodeTrades(fetched[k]) == Err(r.error.decodeError)
            && filesAfter == WrittenFiles(files, cmd.out, plan.spec, |plan.base.parts|, fetched[..k + 1]))
  {
    var planned := Plan(cmd, manifests);
    if planned.Err? {
      return Err(planned.error), [], files, manifests;
    }
    var spec := planned.value.spec;
    var options := planned.value.options;
    var cache := new CacheManager(cmd.out, files, manifests);
    var stored := cache.LoadManifest(spec);
    var manifest: CacheManifest;
    if cmd.resume && stored.Some? {
      manifest := new CacheManifest.Loaded(stored.value);
    } else {
      manifest := new CacheManifest(cmd.source, spec);
    }
    assert manifest.Data() == planned.value.base;
    if cmd.source == DERIBIT {
      var got, requested := Fetch(spec, options, instrumentCheck, pages);
      if got.Err? {
        return Err(FetchFailed(got.error)), [], files, manifests;
      }
      fetched := got.value;
    } else {
      fetched := [];
    }
    var normalizer := DeribitNormalizer(InstrumentIdFromHash(symbolHash));
    r := WriteAndStore(cache, manifest, spec, options, fetched, normalizer, compressedSize);
    filesAfter, manifestsAfter := cache.partFiles, cache.manifests;
  }

  /**
   * The end of `run` once the chunks are fetched: they are written as the parts after
   * the manifest's own and, if all their ticks decode, the extended manifest is stored
   * and the totals over all its parts reported.
   */
  method WriteAndStore(cache: CacheManager, manifest: CacheManifest, spec: RetrieveSpec, options: RetrieveOptions,
                       fetched: seq<RawChunk>, normalizer: DeribitNormalizer, compressedSize: seq<Byte> -> nat)
    returns (r: Result<RunReport, RunError>)
    modifies cache, manifest
    ensures r.Ok? ==>
      && r.value.options == options
      && r.value.manifest == Extended(old(manifest.Data()), fetched, compressedSize)
      && cache.partFiles == WrittenFiles(old(cache.partFiles), cache.root, spec, |old(manifest.parts)|, fetched)
      && cache.manifests == old(cache.manifests)[ManifestPath(cache.root, spec) := r.value.manifest]
      && r.value.totalRows == SumRows(r.value.manifest.parts)
      && r.value.totalBytes == SumBytes(r.value.manifest.parts)
    ensures r.Ok? <==> AllDecode(fetched)
    ensures r.Err? ==>
      && r.error.NormalizeFailed?
      && cache.manifests == old(cache.manifests)
      && (exists k :: 0 <= k < |fetched|
            && AllDecode(fetched[..k])
            && DecodeTrades(fetched[k]) == Err(r.error.decodeError)
            && cache.partFiles == WrittenFiles(old(cache.partFiles), cache.root, spec, |old(manifest.parts)|, fetched[..k + 1]))
  {
    var appended, failure, totalRows, totalBytes :=
      WriteParts(cache, manifest, spec, fetched, normalizer, MsToNs(options.startMs), MsToNs(options.endMs), compressedSize);
    if failure.Some? {
      DecodeFailureBreaksAll(fetched, appended);
      return Err(NormalizeFailed(failure.value));
    }
    assert fetched[..appended] == fetched;
    cache.StoreManifest(spec, manifest.Data());
    r := Ok(RunReport(options, manifest.Data(), totalRows, totalBytes));
  }

  // ---------------------------------------------------------------- properties

  /** Parts numbered 0, 1, 2, ... */
  predicate Numbered(parts: seq<CacheManifestPart>) {
    forall i :: 0 <= i < |parts| ==> parts[i].part == i
  }

  /** Runs keep the parts of a manifest numbered by their position. */
  lemma ExtendedKeepsNumbering(base: ManifestData, chunks: seq<RawChunk>, compressedSize: seq<Byte> -> nat)
    requires Numbered(base.parts)
    ensures Numbered(Extended(base, chunks, compressedSize).parts)
  {
    var parts := Extended(base, chunks, compressedSize).parts;
    forall i | 0 <= i < |parts|
      ensures parts[i].part == i
    {
      if i >= |base.parts| {
        assert parts[i] == PartsFor(|base.parts|, chunks, compressedSize)[i - |base.parts|];
        PartsForEach(|base.parts|, chunks, compressedSize, i - |base.parts|);
      }
    }
  }

  /** Every written part holds its chunk's bytes. */
  lemma {:induction false} WrittenFileHoldsChunk(files: map<Path, seq<Byte>>, root: Path, spec: RetrieveSpec, first: nat,
                                                 chunks: seq<RawChunk>, i: nat)
    requires i < |chunks|
    ensures PartPath(root, spec, first + i) in WrittenFiles(files, root, spec, first, chunks)
    ensures WrittenFiles(files, root, spec, first, chunks)[PartPath(root, spec, first + i)] == chunks[i].data
  {
    var last := |chunks| - 1;
    if i < last {
      WrittenFileHoldsChunk(files, root, spec, first, chunks[..last], i);
      assert chunks[..last][i] == chunks[i];
      WrittenLastKeepsPart(files, root, spec, first, chunks, i);
    }
  }

  /** Writing the last chunk leaves the parts of the earlier chunks as they were. */
  lemma WrittenLastKeepsPart(files: map<Path, seq<Byte>>, root: Path, spec: RetrieveSpec, first: nat,
                             chunks: seq<RawChunk>, i: nat)
    requires i < |chunks| - 1
    ensures var before := WrittenFiles(files, root, spec, first, chunks[..|chunks| - 1]);
      var path := PartPath(root, spec, first + i);
      && (path in WrittenFiles(files, root, spec, first, chunks) <==> path in before)
      && (path in before ==> WrittenFiles(files, root, spec, first, chunks)[path] == before[path])
  {
    PartPathsApart(root, spec, first + i, first + |chunks| - 1);
  }

  /** Files that are not among the written parts are left as they were. */
  lemma {:induction false} WrittenFilesKeepOthers(files: map<Path, seq<Byte>>, root: Path, spec: RetrieveSpec, first: nat,
                                                  chunks: seq<RawChunk>, path: Path)
    requires forall p :: first <= p < first + |chunks| ==> path != PartPath(root, spec, p)
    ensures path in WrittenFiles(files, root, spec, first, chunks) <==> path in files
    ensures path in files ==> WrittenFiles(files, root, spec, first, chunks)[path] == files[path]
  {
    if |chunks| > 0 {
      assert path != PartPath(root, spec, first + |chunks| - 1);
      WrittenFilesKeepOthers(files, root, spec, first, chunks[..|chunks| - 1], path);
    }
  }

  /** The bytes of all the chunks, in order. */
  function AllData(chunks: seq<RawChunk>): seq<Byte> {
    if |chunks| == 0 then [] else AllData(chunks[..|chunks| - 1]) + chunks[|chunks| - 1].data
  }

  /** The rows recorded for the parts of a run are the newlines of everything fetched. */
  lemma {:induction false} RowsOfParts(first: nat, chunks: seq<RawChunk>, compressedSize: seq<Byte> -> nat)
    ensures SumRows(PartsFor(first, chunks, compressedSize)) == NewlineCount(AllData(chunks))
  {
    if |chunks| > 0 {
      var init := chunks[..|chunks| - 1];
      RowsOfParts(first, init, compressedSize);
      SumsSnoc(PartsFor(first, init, compressedSize), PartFor(first + |init|, chunks[|init|], compressedSize));
      NewlineCountAppend(AllData(init), chunks[|init|].data);
    }
  }

  /** The totals of an extended manifest add the new parts to the old ones. */
  lemma {:induction false} SumsAppend(a: seq<CacheManifestPart>, b: seq<CacheManifestPart>)
    ensures SumRows(a + b) == SumRows(a) + SumRows(b)
    ensures SumBytes(a + b) == SumBytes(a) + SumBytes(b)
  {
    if |b| == 0 {
      assert a + b == a;
    } else {
      SumsAppend(a, b[..|b| - 1]);
      assert a + b == (a + b[..|b| - 1]) + [b[|b| - 1]];
      SumsSnoc(a + b[..|b| - 1], b[|b| - 1]);
      SumsSnoc(b[..|b| - 1], b[|b| - 1]);
    }
  }
}
