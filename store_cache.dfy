/**
 * The on-disk cache of `optstore retrieve`: the manifest of a (symbol, day) partition,
 * the partition directory layout, the part file names, and the manager that writes part
 * files and stores and loads manifests.
 *
 * The directory tree under the cache root is the manager's state: the part files by path
 * (holding the bytes they decompress to) and the manifests by path (holding the value
 * they deserialise to). zstd, serde_json and file-system failures are left out.
 */
module StoreCache {
  import opened Wrappers
  import opened Text
  import opened Numbers
  import opened StoreSchema
  import opened StoreTypes
  import opened StoreUtil

  const MANIFEST_VERSION: U32 := 1
  const MANIFEST_FILE: string := "manifest.json"
  const PART_PREFIX: string := "part-"
  const PART_SUFFIX: string := ".jsonl.zst"

  /** `CacheManifestPart`: one written part and the span and resume token of its chunk. */
  datatype CacheManifestPart = CacheManifestPart(
    part: nat,
    startNs: U64,
    endNs: U64,
    bytes: nat,
    rows: nat,
    resumeToken: Option<string>)

  /** The value of a `CacheManifest`, as `manifest.json` holds it. */
  datatype ManifestData = ManifestData(
    version: U32,
    source: string,
    symbol: string,
    dayYmd: U32,
    parts: seq<CacheManifestPart>,
    resumeToken: Option<string>)

  /** `CacheManifest`: the parts written so far for one partition and where to resume. */
  class CacheManifest {
    var version: U32
    var source: string
    var symbol: string
    var dayYmd: U32
    var parts: seq<CacheManifestPart>
    var resumeToken: Option<string>

    function Data(): ManifestData
      reads this
    {
      ManifestData(version, source, symbol, dayYmd, parts, resumeToken)
    }

    /** `CacheManifest::new`: version 1, the spec's symbol and day, no parts, no token. */
    constructor (source: string, spec: RetrieveSpec)
      ensures Data() == ManifestData(MANIFEST_VERSION, source, spec.symbol, spec.dayYmd, [], None)
    {
      version := MANIFEST_VERSION;
      this.source := source;
      symbol := spec.symbol;
      dayYmd := spec.dayYmd;
      parts := [];
      resumeToken := None;
    }

    /** A manifest read back from `manifest.json`. */
    constructor Loaded(data: ManifestData)
      ensures Data() == data
    {
      version := data.version;
      source := data.source;
      symbol := data.symbol;
      dayYmd := data.dayYmd;
      parts := data.parts;
      resumeToken := data.resumeToken;
    }

    /**
     * `append_part`: the entry becomes the last part, the earlier parts stay as they
     * were, and the resume token becomes the entry's token (`None` included).
     */
    method AppendPart(entry: CacheManifestPart)
      modifies this
      ensures parts == old(parts) + [entry]
      ensures resumeToken == entry.resumeToken
      ensures version == old(version) && source == old(source)
      ensures symbol == old(symbol) && dayYmd == old(dayYmd)
    {
      resumeToken := entry.resumeToken;
      parts := parts + [entry];
    }
  }

  // ---------------------------------------------------------------- layout

  /** `format!("{:08}", day_ymd)`: the day number, zero padded to at least 8 digits. */
  function DayText(dayYmd: U32): string {
    PadZeros(NatToString(dayYmd), 8)
  }

  /** The padded day is at least 8 digits that read back as the day; 8 for days below 10^8. */
  lemma DayTextDigits(dayYmd: U32)
    ensures var s := DayText(dayYmd);
      |s| >= 8 && AllDigits(s) && ParseDigits(s) == dayYmd && (dayYmd < Pow10(8) ==> |s| == 8)
  {
    PadZerosValue(dayYmd, 8);
    ShortDayText(dayYmd);
  }

  lemma ShortDayText(dayYmd: nat)
    ensures dayYmd < Pow10(8) ==> |NatToString(dayYmd)| <= 8
  {
    if dayYmd < Pow10(8) {
      NatToStringLength(dayYmd, 8);
    }
  }

  /** An 8-digit string read as YYYY, MM and DD. */
  lemma ParseThreeFields(s: string)
    requires AllDigits(s)
    ensures |s| == 8 ==>
      ParseDigits(s[..4]) * 10000 + ParseDigits(s[4..6]) * 100 + ParseDigits(s[6..8]) == ParseDigits(s)
  {
    if |s| != 8 {
      return;
    }
    assert Pow10(2) == 100;
    assert Pow10(4) == 10000;
    assert s[4..] == s[4..6] + s[6..8];
    ParseDigitsAppend(s[4..6], s[6..8]);
    assert s == s[..4] + s[4..];
    ParseDigitsAppend(s[..4], s[4..]);
  }

  /**
   * `partition_dir`: root/symbol/YYYY/MM/DD, cut from the first 8 characters of the
   * padded day. For a day below 10^8 the three parts spell the day number back.
   */
  function PartitionDir(root: Path, spec: RetrieveSpec): Path {
    var date := DayText(spec.dayYmd);
    DayTextDigits(spec.dayYmd);
    root + [spec.symbol, date[0..4], date[4..6], date[6..8]]
  }

  /** The partition directory sits under the root, named by the symbol and the day's digits. */
  lemma PartitionDirLayout(root: Path, spec: RetrieveSpec)
    ensures var p := PartitionDir(root, spec);
      && |p| == |root| + 4 && p[..|root|] == root && p[|root|] == spec.symbol
      && |p[|root| + 1]| == 4 && |p[|root| + 2]| == 2 && |p[|root| + 3]| == 2
      && AllDigits(p[|root| + 1]) && AllDigits(p[|root| + 2]) && AllDigits(p[|root| + 3])
      && (spec.dayYmd < Pow10(8) ==>
        ParseDigits(p[|root| + 1]) * 10000 + ParseDigits(p[|root| + 2]) * 100 + ParseDigits(p[|root| + 3])
        == spec.dayYmd)
  {
    var date := DayText(spec.dayYmd);
    DayTextDigits(spec.dayYmd);
    ParseThreeFields(date);
  }

  /** Two partitions of days below 10^8 share a directory only for the same symbol and day. */
  lemma PartitionDirInjective(root: Path, a: RetrieveSpec, b: RetrieveSpec)
    requires a.dayYmd < Pow10(8) && b.dayYmd < Pow10(8)
    requires PartitionDir(root, a) == PartitionDir(root, b)
    ensures a.symbol == b.symbol && a.dayYmd == b.dayYmd
  {
    PartitionDirLayout(root, a);
    PartitionDirLayout(root, b);
  }

  /** `manifest_path`: the partition directory joined with "manifest.json". */
  function ManifestPath(root: Path, spec: RetrieveSpec): Path {
    PartitionDir(root, spec) + [MANIFEST_FILE]
  }

  /** `format!("part-{part:04}.jsonl.zst")`. */
  function PartFileName(part: nat): string {
    PART_PREFIX + PadZeros(NatToString(part), 4) + PART_SUFFIX
  }

  /** A part file name is "part-", at least four digits spelling the part, ".jsonl.zst". */
  lemma PartFileNameLayout(part: nat)
    ensures var name := PartFileName(part);
      && |name| >= |PART_PREFIX| + 4 + |PART_SUFFIX|
      && name[..|PART_PREFIX|] == PART_PREFIX
      && name[|name| - |PART_SUFFIX|..] == PART_SUFFIX
      && AllDigits(name[|PART_PREFIX|..|name| - |PART_SUFFIX|])
      && ParseDigits(name[|PART_PREFIX|..|name| - |PART_SUFFIX|]) == part
  {
    var digits := PadZeros(NatToString(part), 4);
    PadZerosValue(part, 4);
    var name := PART_PREFIX + digits + PART_SUFFIX;
    assert name[..|PART_PREFIX|] == PART_PREFIX;
    assert name[|PART_PREFIX|..|name| - |PART_SUFFIX|] == digits;
    assert name[|name| - |PART_SUFFIX|..] == PART_SUFFIX;
  }

  /** Distinct part numbers get distinct file names. */
  lemma PartFileNameInjective(a: nat, b: nat)
    requires PartFileName(a) == PartFileName(b)
    ensures a == b
  {
    PartNumberOfFileName(a);
    PartNumberOfFileName(b);
  }

  /** The number a part file name spells between its prefix and its suffix. */
  function PartNumberOf(name: string): nat {
    if |name| >= |PART_PREFIX| + |PART_SUFFIX| && AllDigits(name[|PART_PREFIX|..|name| - |PART_SUFFIX|])
    then ParseDigits(name[|PART_PREFIX|..|name| - |PART_SUFFIX|])
    else 0
  }

  /** A part file name reads back as its part number. */
  lemma PartNumberOfFileName(part: nat)
    ensures PartNumberOf(PartFileName(part)) == part
  {
    PartFileNameLayout(part);
  }

  /** The path of part `part` in the partition of `spec`. */
  function PartPath(root: Path, spec: RetrieveSpec, part: nat): Path {
    PartitionDir(root, spec) + [PartFileName(part)]
  }

  /**
   * Part files and the manifest share the partition directory but never a name, so
   * writing a part never replaces the manifest, and parts of different numbers never
   * replace each other.
   */
  lemma PartPathsApart(root: Path, spec: RetrieveSpec, a: nat, b: nat)
    ensures PartPath(root, spec, a) != ManifestPath(root, spec)
    ensures PartPath(root, spec, a) == PartPath(root, spec, b) <==> a == b
  {
    var pa := PartPath(root, spec, a);
    PartFileNameLayout(a);
    if pa == PartPath(root, spec, b) {
      assert pa[|pa| - 1] == PartFileName(b);
      PartFileNameInjective(a, b);
    }
  }

  // ---------------------------------------------------------------- row counting

  const NEWLINE: Byte := 10

  /** `bytecount::count(data, b'\n')`. */
  function NewlineCount(data: seq<Byte>): (n: nat)
    ensures n <= |data|
    ensures n == 0 <==> NEWLINE !in data
  {
    if |data| == 0 then 0
    else NewlineCount(data[..|data| - 1]) + (if data[|data| - 1] == NEWLINE then 1 else 0)
  }

  /** Rows add up over concatenated data. */
  lemma {:induction false} NewlineCountAppend(a: seq<Byte>, b: seq<Byte>)
    ensures NewlineCount(a + b) == NewlineCount(a) + NewlineCount(b)
  {
    if |b| > 0 {
      assert (a + b)[..|a + b| - 1] == a + b[..|b| - 1];
      NewlineCountAppend(a, b[..|b| - 1]);
    } else {
      assert a + b == a;
    }
  }

  /** `CacheWriteResult`. */
  datatype CacheWriteResult = CacheWriteResult(path: Path, bytesWritten: nat, rows: nat)

  /** `CacheManager`: the cache root and the files under it. */
  class CacheManager {
    const root: Path
    /** The part files by path, holding the chunk bytes they decompress to. */
    var partFiles: map<Path, seq<Byte>>
    /** The manifests by path, holding the value they deserialise to. */
    var manifests: map<Path, ManifestData>

    /** A manager over the directory tree as it is on disk. */
    constructor (root: Path, partFiles: map<Path, seq<Byte>>, manifests: map<Path, ManifestData>)
      ensures this.root == root && this.partFiles == partFiles && this.manifests == manifests
    {
      this.root := root;
      this.partFiles := partFiles;
      this.manifests := manifests;
    }

    /**
     * `write_chunk`: the chunk bytes go to the part's file in the partition directory
     * (replacing any file of that name); `rows` counts the newline bytes of the chunk and
     * `bytes` is the size of the compressed file, `compressedSize` of the data.
     */
    method WriteChunk(spec: RetrieveSpec, part: nat, chunk: RawChunk, compressedSize: seq<Byte> -> nat)
      returns (result: CacheWriteResult)
      modifies this
      ensures result == CacheWriteResult(PartPath(root, spec, part), compressedSize(chunk.data), NewlineCount(chunk.data))
      ensures partFiles == old(partFiles)[result.path := chunk.data]
      ensures manifests == old(manifests)
    {
      var path := PartPath(root, spec, part);
      partFiles := partFiles[path := chunk.data];
      result := CacheWriteResult(path, compressedSize(chunk.data), NewlineCount(chunk.data));
    }

    /** `load_manifest`: the manifest stored for the partition, if there is one. */
    function LoadManifest(spec: RetrieveSpec): (m: Option<ManifestData>)
      reads this
      ensures m.Some? <==> ManifestPath(root, spec) in manifests
      ensures m.Some? ==> m.value == manifests[ManifestPath(root, spec)]
    {
      var path := ManifestPath(root, spec);
      if path in manifests then Some(manifests[path]) else None
    }

    /**
     * `store_manifest`: the manifest replaces the partition's `manifest.json`, so loading
     * it back gives the same parts and resume token; no other file changes.
     */
    method StoreManifest(spec: RetrieveSpec, manifest: ManifestData)
      modifies this
      ensures manifests == old(manifests)[ManifestPath(root, spec) := manifest]
      ensures partFiles == old(partFiles)
      ensures LoadManifest(spec) == Some(manifest)
    {
      manifests := manifests[ManifestPath(root, spec) := manifest];
    }
  }
}
