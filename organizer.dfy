/** The asset organizer: per-file deduplication, categorization, collision-free placement
    and manifest bookkeeping, and the batch driver that runs it over an input directory. */
module Organizer {
  import opened Wrappers
  import opened Strings
  import opened Paths
  import opened Ordering
  import opened Categorizer

  newtype byte = x: int | 0 <= x < 256

  /** The contents of a file. */
  type Bytes = seq<byte>

  /** `{"width": w, "height": h}` as read from a raster image. */
  datatype Dimensions = Dimensions(width: int, height: int)

  /** One manifest entry, keyed in the manifest by its path relative to the output directory. */
  datatype AssetRecord = AssetRecord(
    originalName: string,
    contentHash: string,
    sizeBytes: nat,
    mimeType: string,
    category: string,
    uploadedAt: string,
    dimensions: Option<Dimensions>)

  /** The manifest document: schema version, time of the last save, and the assets. */
  datatype Manifest = Manifest(version: string, generatedAt: Option<string>, assets: map<string, AssetRecord>)

  /** The schema version of a manifest created from nothing. */
  const SchemaVersion: string := "1.0"

  /** `load_manifest`: the document on disk when there is one, otherwise a fresh empty one. */
  function LoadManifest(onDisk: Option<Manifest>): (m: Manifest)
    ensures onDisk.None? ==> m.version == SchemaVersion && m.generatedAt.None? && m.assets == map[]
    ensures onDisk.Some? ==> m == onDisk.value
  {
    match onDisk
    case Some(document) => document
    case None => Manifest(SchemaVersion, None, map[])
  }

  /** Names the organizer never touches: hidden files and the two placeholders. The test is
      case-sensitive, and `.gitkeep` is already a hidden name. */
  function IsSystemFile(name: string): (r: bool)
    ensures r <==> (|name| > 0 && name[0] == '.') || name == "README.md"
  {
    StartsWith(name, ".") || name in ["README.md", ".gitkeep"]
  }

  /** The algorithm-tagged fingerprint stored in the manifest. */
  function HashTag(hexDigest: string): string {
    "sha256:" + hexDigest
  }

  /** Different digests give different fingerprints. */
  lemma HashTagInjective(a: string, b: string)
    requires a != b
    ensures HashTag(a) != HashTag(b)
  {
    assert HashTag(a)[7..] == a && HashTag(b)[7..] == b;
  }

  /** Some manifest entry carries the fingerprint `h`. */
  ghost predicate HasContentHash(assets: map<string, AssetRecord>, h: string) {
    exists p :: p in assets && assets[p].contentHash == h
  }

  /** No two manifest entries carry the same fingerprint. */
  ghost predicate HashesUnique(assets: map<string, AssetRecord>) {
    forall p, q :: p in assets && q in assets && p != q ==> assets[p].contentHash != assets[q].contentHash
  }

  /** Recording a fingerprint no entry has keeps the fingerprints unique, even when the
      entry replaces a stale one at the same path. */
  lemma InsertKeepsHashesUnique(assets: map<string, AssetRecord>, rel: string, info: AssetRecord)
    requires HashesUnique(assets) && !HasContentHash(assets, info.contentHash)
    ensures HashesUnique(assets[rel := info])
  {
    var updated := assets[rel := info];
    forall p, q | p in updated && q in updated && p != q
      ensures updated[p].contentHash != updated[q].contentHash
    {
      if p != rel && q != rel {
        assert updated[p] == assets[p] && updated[q] == assets[q];
      }
    }
  }

  /** `stem_k + suffix`, always built from the original name. */
  function NumberedName(name: string, k: nat): string {
    Stem(name) + "_" + Decimal(k) + Suffix(name)
  }

  /** The k-th relative path tried for `name`: `category/name` first, then the numbered names. */
  function Candidate(category: string, name: string, k: nat): string {
    category + "/" + (if k == 0 then name else NumberedName(name, k))
  }

  /** Equal strings with equal surroundings are equal. */
  lemma ConcatCancel(a: string, x: string, y: string, b: string)
    requires a + x + b == a + y + b
    ensures x == y
  {
    assert |x| == |y|;
    assert x == (a + x + b)[|a|..|a| + |x|];
    assert y == (a + y + b)[|a|..|a| + |y|];
  }

  /** Distinct counters give distinct numbered names, and none of them is the name itself. */
  lemma NumberedNameInjective(name: string, j: nat, k: nat)
    ensures j != k ==> NumberedName(name, j) != NumberedName(name, k)
    ensures NumberedName(name, k) != name
  {
    var stem, dj, dk, suffix := Stem(name), Decimal(j), Decimal(k), Suffix(name);
    assert |NumberedName(name, k)| == |stem| + 1 + |dk| + |suffix|;
    if j != k && NumberedName(name, j) == NumberedName(name, k) {
      assert NumberedName(name, j) == (stem + "_") + dj + suffix;
      assert NumberedName(name, k) == (stem + "_") + dk + suffix;
      ConcatCancel(stem + "_", dj, dk, suffix);
      DecimalInjective(j, k);
    }
  }

  /** The collision loop never tries the same path twice. */
  lemma CandidateInjective(category: string, name: string, j: nat, k: nat)
    requires j != k
    ensures Candidate(category, name, j) != Candidate(category, name, k)
  {
    var x := if j == 0 then name else NumberedName(name, j);
    var y := if k == 0 then name else NumberedName(name, k);
    NumberedNameInjective(name, j, k);
    NumberedNameInjective(name, k, j);
    assert x != y;
    if Candidate(category, name, j) == Candidate(category, name, k) {
      ConcatCancel(category + "/", x, y, "");
    }
  }

  /** The paths the collision loop has tried before its k-th attempt. */
  ghost function Tried(category: string, name: string, k: nat): set<string> {
    set j: nat | j < k :: Candidate(category, name, j)
  }

  /** No attempt from the k-th on repeats an earlier one. */
  lemma NotYetTried(category: string, name: string, k: nat, m: nat)
    requires k <= m
    ensures Candidate(category, name, m) !in Tried(category, name, k)
  {
    forall j: nat | j < k ensures Candidate(category, name, j) != Candidate(category, name, m) {
      CandidateInjective(category, name, j, m);
    }
  }

  /** A taken k-th path joins the tried ones, and fewer untried taken paths are left. */
  lemma TriedGrows(category: string, name: string, existing: set<string>, k: nat)
    requires Tried(category, name, k) <= existing
    requires Candidate(category, name, k) in existing
    ensures Tried(category, name, k + 1) <= existing
    ensures existing - Tried(category, name, k + 1) < existing - Tried(category, name, k)
  {
    NotYetTried(category, name, k, k);
    var before, after := Tried(category, name, k), Tried(category, name, k + 1);
    var c := Candidate(category, name, k);
    forall x | x in after ensures x in before || x == c {
      var j: nat :| j < k + 1 && x == Candidate(category, name, j);
      if j < k {
        assert x in before;
      }
    }
    forall x | x in before ensures x in after {
      var j: nat :| j < k && x == Candidate(category, name, j);
    }
    assert c in after;
    assert c in existing - before && c !in existing - after;
  }

  /** `k` is where the collision loop stops: its path is free and every earlier one is taken. */
  ghost predicate FirstFree(category: string, name: string, existing: set<string>, k: nat) {
    && Candidate(category, name, k) !in existing
    && forall j :: 0 <= j < k ==> Candidate(category, name, j) in existing
  }

  /** `rel` is the destination the collision loop resolves `name` to. */
  ghost predicate ResolvesTo(category: string, name: string, existing: set<string>, rel: string) {
    exists k: nat :: rel == Candidate(category, name, k) && FirstFree(category, name, existing, k)
  }

  /** When every earlier attempt was taken and the k-th is free, the loop resolves to it. */
  lemma StopsAtFirstFree(category: string, name: string, existing: set<string>, k: nat)
    requires Tried(category, name, k) <= existing
    requires Candidate(category, name, k) !in existing
    ensures ResolvesTo(category, name, existing, Candidate(category, name, k))
  {
    assert forall j: nat :: j < k ==> Candidate(category, name, j) in Tried(category, name, k);
    assert FirstFree(category, name, existing, k);
  }

  /** The resolved destination is determined by the category, the name and the existing paths. */
  lemma ResolutionUnique(category: string, name: string, existing: set<string>, r1: string, r2: string)
    requires ResolvesTo(category, name, existing, r1) && ResolvesTo(category, name, existing, r2)
    ensures r1 == r2
  {
    var k1: nat :| r1 == Candidate(category, name, k1) && FirstFree(category, name, existing, k1);
    var k2: nat :| r2 == Candidate(category, name, k2) && FirstFree(category, name, existing, k2);
  }

  /** Where the collision loop stops when it starts at attempt `k` with the earlier
      attempts taken. */
  ghost function StopIndex(category: string, name: string, existing: set<string>, k: nat): (r: nat)
    requires Tried(category, name, k) <= existing
    ensures ResolvesTo(category, name, existing, Candidate(category, name, r))
    decreases existing - Tried(category, name, k)
  {
    if Candidate(category, name, k) !in existing then
      StopsAtFirstFree(category, name, existing, k);
      k
    else
      TriedGrows(category, name, existing, k);
      StopIndex(category, name, existing, k + 1)
  }

  /** The destination of `name` in `category` when `existing` are the paths of the output
      tree: every finite tree leaves some numbered name free. */
  ghost function Destination(category: string, name: string, existing: set<string>): (rel: string)
    ensures ResolvesTo(category, name, existing, rel)
  {
    assert Tried(category, name, 0) == {};
    Candidate(category, name, StopIndex(category, name, existing, 0))
  }

  /** A free `category/name` is used as it is. */
  lemma FreeNameKept(category: string, name: string, existing: set<string>, rel: string)
    requires category + "/" + name !in existing
    requires ResolvesTo(category, name, existing, rel)
    ensures rel == category + "/" + name
  {
    assert FirstFree(category, name, existing, 0);
    ResolutionUnique(category, name, existing, rel, Candidate(category, name, 0));
  }

  /** The resolved destination is free and lies in the category's directory. */
  lemma ResolutionInCategory(category: string, name: string, existing: set<string>, rel: string)
    requires ResolvesTo(category, name, existing, rel)
    ensures rel !in existing
    ensures StartsWith(rel, category + "/")
  {
    var k: nat :| rel == Candidate(category, name, k) && FirstFree(category, name, existing, k);
    assert rel[..|category + "/"|] == category + "/";
  }

  /** Placing a file at a path that is not yet one of the `files` keeps every existing file
      and every manifest entry recorded at an existing file. */
  lemma PlacementKeepsOthers(assets: map<string, AssetRecord>, files: map<string, Bytes>,
                             rel: string, info: AssetRecord, content: Bytes)
    requires rel !in files
    ensures forall p :: p in files ==> p in files[rel := content]
    ensures forall p :: p in files && p in assets ==>
              p in assets[rel := info] && assets[rel := info][p] == assets[p]
    ensures assets.Keys <= files.Keys ==>
              assets[rel := info].Keys <= files[rel := content].Keys && rel !in assets
  {
  }

  /** The first two numbered names of `logo.png`. */
  lemma LogoNumberedNames()
    ensures NumberedName("logo.png", 1) == "logo_1.png" && NumberedName("logo.png", 2) == "logo_2.png"
  {
    LastIndexOfAt("logo.png", '.', 4);
    assert Stem("logo.png") == "logo" && Suffix("logo.png") == ".png";
    assert Decimal(1) == "1" && Decimal(2) == "2";
  }

  /** With the plain name and the first numbered name taken, the loop goes on to the
      second numbered name. */
  lemma SecondNumberAfterTwoTaken(category: string, name: string)
    ensures ResolvesTo(category, name, {Candidate(category, name, 0), Candidate(category, name, 1)},
                       Candidate(category, name, 2))
  {
    var existing := {Candidate(category, name, 0), Candidate(category, name, 1)};
    CandidateInjective(category, name, 2, 0);
    CandidateInjective(category, name, 2, 1);
    forall x | x in Tried(category, name, 2) ensures x in existing {
      var j: nat :| j < 2 && x == Candidate(category, name, j);
      assert j == 0 || j == 1;
    }
    StopsAtFirstFree(category, name, existing, 2);
  }

  /** Numbered names restart from the original stem: with `logo.png` and `logo_1.png`
      taken, the next logo goes to `logo_2.png`, not `logo_1_1.png`. */
  lemma LogoCollisions()
    ensures ResolvesTo("brand", "logo.png", {"brand" + "/" + "logo.png", "brand" + "/" + "logo_1.png"},
                       "brand" + "/" + "logo_2.png")
  {
    LogoNumberedNames();
    SecondNumberAfterTwoTaken("brand", "logo.png");
  }

  /** `get_mime_type`: the guess, or the generic binary type when there is none. */
  function MimeOr(guess: Option<string>): (r: string)
    ensures guess.Some? && guess.value != "" ==> r == guess.value
    ensures guess.None? || guess.value == "" ==> r == "application/octet-stream"
  {
    if guess.Some? && guess.value != "" then guess.value else "application/octet-stream"
  }

  /** The per-file status line: the file, and where it went (or would go), if anywhere. */
  datatype FileOutcome = FileOutcome(name: string, destination: Option<string>)

  /** One line of the required-assets checklist. */
  datatype RequiredStatus = RequiredStatus(name: string, purpose: string, found: bool)

  /** What a run reports: nothing when the input directory has no files, otherwise
      the per-file lines, the counters, whether the manifest was saved, and the checklist. */
  datatype RunOutcome =
    | NoFiles
    | Summary(log: seq<FileOutcome>, organized: nat, skipped: nat, saved: bool, required: seq<RequiredStatus>)

  /** The assets a complete site needs, with their purpose. */
  const RequiredAssets: seq<(string, string)> := [("afromations_flag_pick.gif", "Hero section background media")]

  /** The checklist: a required asset is found when its name occurs in some manifest path. */
  function RequiredReport(assets: map<string, AssetRecord>): (r: seq<RequiredStatus>)
    ensures |r| == |RequiredAssets|
    ensures forall i :: 0 <= i < |r| ==>
              && r[i].name == RequiredAssets[i].0
              && r[i].purpose == RequiredAssets[i].1
              && (r[i].found <==> exists p :: p in assets && IsSubstring(p, RequiredAssets[i].0))
  {
    seq(|RequiredAssets|, i requires 0 <= i < |RequiredAssets| =>
      RequiredStatus(RequiredAssets[i].0, RequiredAssets[i].1,
                     exists p :: p in assets && Contains(p, RequiredAssets[i].0)))
  }

  /** No two organized files of a log share a destination. */
  ghost predicate DistinctDestinations(log: seq<FileOutcome>) {
    forall j, k :: 0 <= j < k < |log| && log[j].destination.Some? && log[k].destination.Some? ==>
      log[j].destination.value != log[k].destination.value
  }

  /** Every file the log says was organized sits at its destination in `files` and is
      recorded there in `assets` under its original name. */
  ghost predicate Recorded(log: seq<FileOutcome>, assets: map<string, AssetRecord>, files: map<string, Bytes>) {
    forall j :: 0 <= j < |log| && log[j].destination.Some? ==>
      && log[j].destination.value in assets
      && log[j].destination.value in files
      && assets[log[j].destination.value].originalName == log[j].name
  }

  /** One more status line keeps the log recorded and its destinations distinct, when the
      step kept every recorded file in place and sent its own file to a fresh path. */
  lemma LogExtended(log: seq<FileOutcome>, entry: FileOutcome,
                    assets0: map<string, AssetRecord>, files0: map<string, Bytes>,
                    assets1: map<string, AssetRecord>, files1: map<string, Bytes>)
    requires Recorded(log, assets0, files0) && DistinctDestinations(log)
    requires forall p :: p in files0 && p in assets0 ==> p in files1 && p in assets1 && assets1[p] == assets0[p]
    requires entry.destination.Some? ==>
               && entry.destination.value !in files0
               && entry.destination.value in assets1 && entry.destination.value in files1
               && assets1[entry.destination.value].originalName == entry.name
    ensures Recorded(log + [entry], assets1, files1) && DistinctDestinations(log + [entry])
  {
    var extended := log + [entry];
    forall j | 0 <= j < |log| && log[j].destination.Some?
      ensures extended[j] == log[j] && log[j].destination.value in files0
    {
    }
  }

  /** The file names of a log, in order. */
  function Names(log: seq<FileOutcome>): (r: seq<string>)
    ensures |r| == |log| && forall i :: 0 <= i < |log| ==> r[i] == log[i].name
  {
    seq(|log|, i requires 0 <= i < |log| => log[i].name)
  }

  /** The number of files a run organized, from its status lines: none exactly when every
      line is a skip, all of them exactly when no line is. */
  function CountOrganized(log: seq<FileOutcome>): (n: nat)
    ensures n <= |log|
    ensures n == 0 <==> forall i :: 0 <= i < |log| ==> log[i].destination.None?
    ensures n == |log| <==> forall i :: 0 <= i < |log| ==> log[i].destination.Some?
  {
    if |log| == 0 then 0
    else CountOrganized(log[..|log| - 1]) + (if log[|log| - 1].destination.Some? then 1 else 0)
  }


  /** What an organizer step reads and writes: the input directory, the output tree and
      the manifest in memory. */
  datatype Store = Store(incoming: map<string, Bytes>, outputFiles: map<string, Bytes>, manifest: Manifest)

  /** Names to organize: none twice, and all of them in the input directory. */
  ghost predicate Listed(st: Store, files: seq<string>) {
    Distinct(files) && forall j :: 0 <= j < |files| ==> files[j] in st.incoming
  }

  /** The input directory, the output tree and the manifest of one organizer process.
      File contents are byte sequences; the output tree is keyed by path relative to the
      output directory. The fingerprint, the MIME guesser and the image decoder are
      deterministic functions the organizer is given. */
  class AssetOrganizer {
    var incoming: map<string, Bytes>
    var outputFiles: map<string, Bytes>
    var manifestFile: Option<Manifest>
    var manifest: Manifest
    const digest: Bytes -> string
    const guessMime: string -> Option<string>
    const imageSize: Bytes -> Option<Dimensions>

    /** The start of `main`: the directories as found, and the manifest loaded from disk. */
    constructor (incoming: map<string, Bytes>, outputFiles: map<string, Bytes>, manifestFile: Option<Manifest>,
                 digest: Bytes -> string, guessMime: string -> Option<string>, imageSize: Bytes -> Option<Dimensions>)
      ensures this.incoming == incoming && this.outputFiles == outputFiles && this.manifestFile == manifestFile
      ensures this.manifest == LoadManifest(manifestFile)
      ensures this.digest == digest && this.guessMime == guessMime && this.imageSize == imageSize
    {
      this.incoming := incoming;
      this.outputFiles := outputFiles;
      this.manifestFile := manifestFile;
      this.manifest := LoadManifest(manifestFile);
      this.digest := digest;
      this.guessMime := guessMime;
      this.imageSize := imageSize;
    }

    /** The state as a value. */
    function State(): Store
      reads this
    {
      Store(incoming, outputFiles, manifest)
    }

    /** The record written for `name`, moved with `content` to `rel` at time `now`: its
        name, fingerprint, size, category and time, a MIME type that is never empty, and the
        dimensions when the bytes decode as an image. */
    function MakeRecord(name: string, content: Bytes, rel: string, category: string, now: string): (r: AssetRecord)
      ensures r.originalName == name && r.category == category && r.uploadedAt == now
      ensures r.contentHash == HashTag(digest(content)) && r.sizeBytes == |content|
      ensures r.mimeType != ""
      ensures r.dimensions == imageSize(content)
    {
      AssetRecord(name, HashTag(digest(content)), |content|, MimeOr(guessMime(rel)), category, now, imageSize(content))
    }

    /** What `organize_asset` does to a state: the destination it reports (`None` when it
        skips the file) and the state it leaves. */
    ghost function Organize(st: Store, name: string, dryRun: bool, now: string): (r: (Option<string>, Store))
      requires name in st.incoming
      ensures forall f :: f in st.incoming && f != name ==> f in r.1.incoming && r.1.incoming[f] == st.incoming[f]
      ensures r.0.None? || dryRun ==> r.1 == st
    {
      var content := st.incoming[name];
      if IsSystemFile(name) || HasContentHash(st.manifest.assets, HashTag(digest(content))) then (None, st)
      else
        var category := GetCategory(name);
        var rel := Destination(category, name, st.outputFiles.Keys);
        if dryRun then (Some(rel), st)
        else
          var info := MakeRecord(name, content, rel, category, now);
          (Some(rel), Store(st.incoming - {name}, st.outputFiles[rel := content],
                            st.manifest.(assets := st.manifest.assets[rel := info])))
    }

    /** A step skips exactly the system files and the files whose fingerprint the manifest
        already holds; any other file gets the first free path of its category. */
    lemma OrganizeDecides(st: Store, name: string, dryRun: bool, now: string)
      requires name in st.incoming
      ensures var d := Organize(st, name, dryRun, now).0;
        && (d.None? <==> IsSystemFile(name) || HasContentHash(st.manifest.assets, HashTag(digest(st.incoming[name]))))
        && (d.Some? ==> && ResolvesTo(GetCategory(name), name, st.outputFiles.Keys, d.value)
                        && d.value !in st.outputFiles
                        && StartsWith(d.value, GetCategory(name) + "/"))
    {
      var d := Organize(st, name, dryRun, now).0;
      if d.Some? {
        ResolutionInCategory(GetCategory(name), name, st.outputFiles.Keys, d.value);
      }
    }

    /** A step keeps every file of the output tree, every manifest entry recorded at one of
        them, the document's version and save time, unique fingerprints, and a manifest that
        lists only files of the tree. */
    lemma OrganizeKeeps(st: Store, name: string, dryRun: bool, now: string)
      requires name in st.incoming
      ensures var st1 := Organize(st, name, dryRun, now).1;
        && st1.manifest.version == st.manifest.version && st1.manifest.generatedAt == st.manifest.generatedAt
        && (forall p :: p in st.outputFiles ==> p in st1.outputFiles && st1.outputFiles[p] == st.outputFiles[p])
        && (forall p :: p in st.outputFiles && p in st.manifest.assets ==>
              p in st1.manifest.assets && st1.manifest.assets[p] == st.manifest.assets[p])
        && (HashesUnique(st.manifest.assets) ==> HashesUnique(st1.manifest.assets))
        && (st.manifest.assets.Keys <= st.outputFiles.Keys ==> st1.manifest.assets.Keys <= st1.outputFiles.Keys)
    {
      var d := Organize(st, name, dryRun, now).0;
      if d.Some? && !dryRun {
        var category := GetCategory(name);
        ResolutionInCategory(category, name, st.outputFiles.Keys, d.value);
        var info := MakeRecord(name, st.incoming[name], d.value, category, now);
        if HashesUnique(st.manifest.assets) {
          InsertKeepsHashesUnique(st.manifest.assets, d.value, info);
        }
        PlacementKeepsOthers(st.manifest.assets, st.outputFiles, d.value, info, st.incoming[name]);
      }
    }

    /** Outside a dry run, a step that organizes a file moves its bytes to the destination
        and records it there; whether it organizes the file or skips it as a duplicate, the
        manifest afterwards holds the file's fingerprint. */
    lemma OrganizeRecords(st: Store, name: string, now: string)
      requires name in st.incoming
      ensures var r := Organize(st, name, false, now); var d, st1 := r.0, r.1;
        && (d.Some? ==>
              && name !in st1.incoming
              && d.value in st1.outputFiles && st1.outputFiles[d.value] == st.incoming[name]
              && d.value in st1.manifest.assets
              && st1.manifest.assets[d.value] == MakeRecord(name, st.incoming[name], d.value, GetCategory(name), now))
        && (!IsSystemFile(name) ==> HasContentHash(st1.manifest.assets, HashTag(digest(st.incoming[name]))))
    {
      var r := Organize(st, name, false, now);
      if r.0.Some? {
        var d, st1 := r.0, r.1;
        assert st1.manifest.assets[d.value].contentHash == HashTag(digest(st.incoming[name]));
      }
    }

    /** With a manifest that lists only files of the output tree, a step forgets no
        fingerprint. */
    lemma OrganizeKeepsFingerprints(st: Store, name: string, now: string)
      requires name in st.incoming && st.manifest.assets.Keys <= st.outputFiles.Keys
      ensures forall h :: HasContentHash(st.manifest.assets, h) ==>
                HasContentHash(Organize(st, name, false, now).1.manifest.assets, h)
    {
      var st1 := Organize(st, name, false, now).1;
      OrganizeKeeps(st, name, false, now);
      forall h | HasContentHash(st.manifest.assets, h) ensures HasContentHash(st1.manifest.assets, h) {
        var p :| p in st.manifest.assets && st.manifest.assets[p].contentHash == h;
        assert p in st1.manifest.assets && st1.manifest.assets[p] == st.manifest.assets[p];
      }
    }

    /** A file that is not a system file, carries a new fingerprint and finds its plain
        `category/name` free goes there under its own name. */
    lemma FreshFileKeepsName(st: Store, name: string, dryRun: bool, now: string)
      requires name in st.incoming && !IsSystemFile(name)
      requires !HasContentHash(st.manifest.assets, HashTag(digest(st.incoming[name])))
      requires GetCategory(name) + "/" + name !in st.outputFiles
      ensures Organize(st, name, dryRun, now).0 == Some(GetCategory(name) + "/" + name)
    {
      OrganizeDecides(st, name, dryRun, now);
      FreeNameKept(GetCategory(name), name, st.outputFiles.Keys, Organize(st, name, dryRun, now).0.value);
    }

    /** Deduplication goes by content alone: once one copy has been through a step outside a
        dry run, a copy under any other name is skipped. */
    lemma SameContentSkipped(st: Store, a: string, b: string, now: string)
      requires a in st.incoming && b in st.incoming && a != b
      requires st.incoming[a] == st.incoming[b] && !IsSystemFile(a)
      ensures var st1 := Organize(st, a, false, now).1;
              b in st1.incoming && Organize(st1, b, false, now).0.None?
    {
      OrganizeRecords(st, a, now);
      OrganizeDecides(Organize(st, a, false, now).1, b, false, now);
    }

    /** Step `k` of a run over `files`: the file is still in the input directory, and line
        `k` of the log and the state after the step are what the step gives in the state
        before. */
    ghost predicate StepAt(files: seq<string>, log: seq<FileOutcome>, states: seq<Store>, k: nat, dryRun: bool, now: string)
      requires k < |files| && k < |log| && k + 1 < |states|
    {
      && files[k] in states[k].incoming
      && log[k] == FileOutcome(files[k], Organize(states[k], files[k], dryRun, now).0)
      && states[k + 1] == Organize(states[k], files[k], dryRun, now).1
    }

    /** `states` runs the first `n` steps of the loop of `main` over `files`, with status lines
        `log`: one state before each step and one after the last, each step as `StepAt` says. */
    ghost predicate Trace(files: seq<string>, n: nat, log: seq<FileOutcome>, states: seq<Store>, dryRun: bool, now: string) {
      && n <= |files| && |log| == n && |states| == n + 1
      && forall k :: 0 <= k < n ==> StepAt(files, log, states, k, dryRun, now)
    }

    /** One more step extends a trace. */
    lemma TraceExtend(files: seq<string>, n: nat, log: seq<FileOutcome>, states: seq<Store>,
                      dryRun: bool, now: string, entry: FileOutcome, st1: Store)
      requires Trace(files, n, log, states, dryRun, now) && n < |files| && files[n] in states[n].incoming
      requires entry == FileOutcome(files[n], Organize(states[n], files[n], dryRun, now).0)
      requires st1 == Organize(states[n], files[n], dryRun, now).1
      ensures Trace(files, n + 1, log + [entry], states + [st1], dryRun, now)
    {
      var log1, states1 := log + [entry], states + [st1];
      forall k | 0 <= k < n + 1
        ensures StepAt(files, log1, states1, k, dryRun, now)
      {
        assert states1[k] == states[k];
        if k < n {
          StepAtFrame(files, log, states, log1, states1, k, dryRun, now);
        }
      }
    }

    /** A step outside a dry run keeps a log recorded and its destinations distinct. */
    lemma StepRecorded(st: Store, name: string, log: seq<FileOutcome>, now: string)
      requires name in st.incoming
      requires Recorded(log, st.manifest.assets, st.outputFiles) && DistinctDestinations(log)
      ensures var r := Organize(st, name, false, now); var st1 := r.1;
        Recorded(log + [FileOutcome(name, r.0)], st1.manifest.assets, st1.outputFiles)
        && DistinctDestinations(log + [FileOutcome(name, r.0)])
    {
      var r := Organize(st, name, false, now);
      OrganizeDecides(st, name, false, now);
      OrganizeKeeps(st, name, false, now);
      OrganizeRecords(st, name, now);
      LogExtended(log, FileOutcome(name, r.0), st.manifest.assets, st.outputFiles,
                  r.1.manifest.assets, r.1.outputFiles);
    }

    /** A step holds in any log and any states that agree with it at that step. */
    lemma StepAtFrame(files: seq<string>, log: seq<FileOutcome>, states: seq<Store>,
                      log1: seq<FileOutcome>, states1: seq<Store>, k: nat, dryRun: bool, now: string)
      requires k < |files| && k < |log| && k + 1 < |states| && k < |log1| && k + 1 < |states1|
      requires StepAt(files, log, states, k, dryRun, now)
      requires log1[k] == log[k] && states1[k] == states[k] && states1[k + 1] == states[k + 1]
      ensures StepAt(files, log1, states1, k, dryRun, now)
    {
    }

    /** A step names its own file, and skipping it changes nothing. */
    lemma StepLine(files: seq<string>, n: nat, log: seq<FileOutcome>, states: seq<Store>, k: nat, dryRun: bool, now: string)
      requires Trace(files, n, log, states, dryRun, now) && k < n
      ensures log[k].name == files[k] && files[k] in states[k].incoming
      ensures log[k].destination.None? || dryRun ==> states[k + 1] == states[k]
    {
      assert StepAt(files, log, states, k, dryRun, now);
    }

    /** A step keeps what `OrganizeKeeps` says, from the state before it to the state after. */
    lemma StepKeeps(files: seq<string>, n: nat, log: seq<FileOutcome>, states: seq<Store>, k: nat, dryRun: bool, now: string)
      requires Trace(files, n, log, states, dryRun, now) && k < n
      ensures var st, st1 := states[k], states[k + 1];
        && st1.manifest.version == st.manifest.version && st1.manifest.generatedAt == st.manifest.generatedAt
        && (forall p :: p in st.outputFiles ==> p in st1.outputFiles && st1.outputFiles[p] == st.outputFiles[p])
        && (forall p :: p in st.outputFiles && p in st.manifest.assets ==>
              p in st1.manifest.assets && st1.manifest.assets[p] == st.manifest.assets[p])
        && (HashesUnique(st.manifest.assets) ==> HashesUnique(st1.manifest.assets))
        && (st.manifest.assets.Keys <= st.outputFiles.Keys ==> st1.manifest.assets.Keys <= st1.outputFiles.Keys)
    {
      assert StepAt(files, log, states, k, dryRun, now);
      OrganizeKeeps(states[k], files[k], dryRun, now);
    }

    /** A step leaves every other input file where it is, with its bytes. */
    lemma StepUntouched(files: seq<string>, n: nat, log: seq<FileOutcome>, states: seq<Store>, k: nat, dryRun: bool, now: string,
                        f: string)
      requires Trace(files, n, log, states, dryRun, now) && k < n
      requires f in states[k].incoming && f != files[k]
      ensures f in states[k + 1].incoming && states[k + 1].incoming[f] == states[k].incoming[f]
    {
      assert StepAt(files, log, states, k, dryRun, now);
    }

    /** A step outside a dry run keeps the log up to it recorded, with distinct destinations. */
    lemma StepRecordedAt(files: seq<string>, n: nat, log: seq<FileOutcome>, states: seq<Store>, k: nat, now: string)
      requires Trace(files, n, log, states, false, now) && k < n
      requires Recorded(log[..k], states[k].manifest.assets, states[k].outputFiles) && DistinctDestinations(log[..k])
      ensures Recorded(log[..k + 1], states[k + 1].manifest.assets, states[k + 1].outputFiles)
      ensures DistinctDestinations(log[..k + 1])
    {
      assert StepAt(files, log, states, k, false, now);
      StepRecorded(states[k], files[k], log[..k], now);
      assert log[..k + 1] == log[..k] + [log[k]];
    }

    /** A step outside a dry run, with a manifest that lists only files of the output tree,
        forgets no fingerprint and leaves the fingerprint of its own file recorded unless it
        is a system file. */
    lemma StepFingerprints(files: seq<string>, n: nat, log: seq<FileOutcome>, states: seq<Store>, k: nat, now: string)
      requires Trace(files, n, log, states, false, now) && k < n
      requires states[k].manifest.assets.Keys <= states[k].outputFiles.Keys
      ensures forall h :: HasContentHash(states[k].manifest.assets, h) ==> HasContentHash(states[k + 1].manifest.assets, h)
      ensures files[k] in states[k].incoming && (!IsSystemFile(files[k]) ==>
                HasContentHash(states[k + 1].manifest.assets, HashTag(digest(states[k].incoming[files[k]]))))
    {
      assert StepAt(files, log, states, k, false, now);
      OrganizeKeepsFingerprints(states[k], files[k], now);
      OrganizeRecords(states[k], files[k], now);
    }

    /** The same step from the same state gives the same line and the same next state. */
    lemma StepDetermined(files: seq<string>, n: nat, log1: seq<FileOutcome>, states1: seq<Store>,
                         log2: seq<FileOutcome>, states2: seq<Store>, k: nat, dryRun: bool, now: string)
      requires Trace(files, n, log1, states1, dryRun, now) && Trace(files, n, log2, states2, dryRun, now) && k < n
      requires states1[k] == states2[k]
      ensures log1[k] == log2[k] && states1[k + 1] == states2[k + 1]
    {
      assert StepAt(files, log1, states1, k, dryRun, now) && StepAt(files, log2, states2, k, dryRun, now);
    }

    /** A step's line is empty exactly for a system file or a fingerprint the manifest holds
        before the step; otherwise it is the first free path of the file's category in the
        tree before the step. */
    lemma StepDecides(files: seq<string>, n: nat, log: seq<FileOutcome>, states: seq<Store>, k: nat, dryRun: bool, now: string)
      requires Trace(files, n, log, states, dryRun, now) && k < n
      ensures files[k] in states[k].incoming && log[k].name == files[k]
      ensures log[k].destination.None? <==>
                IsSystemFile(files[k]) || HasContentHash(states[k].manifest.assets, HashTag(digest(states[k].incoming[files[k]])))
      ensures log[k].destination.Some? ==>
                ResolvesTo(GetCategory(files[k]), files[k], states[k].outputFiles.Keys, log[k].destination.value)
    {
      assert StepAt(files, log, states, k, dryRun, now);
      OrganizeDecides(states[k], files[k], dryRun, now);
    }

    /** Every line of a run says what its step did: nothing exactly for a system file or for
        bytes whose fingerprint the manifest holds when the step comes, and otherwise the
        first free path of the file's category in the tree at that moment. */
    lemma TraceLines(files: seq<string>, n: nat, log: seq<FileOutcome>, states: seq<Store>, dryRun: bool, now: string)
      requires Trace(files, n, log, states, dryRun, now) && Listed(states[0], files)
      ensures forall i :: 0 <= i < n ==>
                && log[i].name == files[i]
                && (log[i].destination.None? <==>
                      IsSystemFile(files[i]) || HasContentHash(states[i].manifest.assets, HashTag(digest(states[0].incoming[files[i]]))))
                && (log[i].destination.Some? ==>
                      ResolvesTo(GetCategory(files[i]), files[i], states[i].outputFiles.Keys, log[i].destination.value))
    {
      forall i | 0 <= i < n
        ensures && log[i].name == files[i]
                && (log[i].destination.None? <==>
                      IsSystemFile(files[i]) || HasContentHash(states[i].manifest.assets, HashTag(digest(states[0].incoming[files[i]]))))
                && (log[i].destination.Some? ==>
                      ResolvesTo(GetCategory(files[i]), files[i], states[i].outputFiles.Keys, log[i].destination.value))
      {
        StepDecides(files, n, log, states, i, dryRun, now);
        TraceReaches(files, n, log, states, dryRun, now, i);
      }
    }

    /** The lines and the states of a run are determined by the files and the first state. */
    lemma {:induction false} TraceDetermined(files: seq<string>, n: nat, dryRun: bool, now: string,
                                             log1: seq<FileOutcome>, states1: seq<Store>,
                                             log2: seq<FileOutcome>, states2: seq<Store>, m: nat)
      requires Trace(files, n, log1, states1, dryRun, now) && Trace(files, n, log2, states2, dryRun, now)
      requires states1[0] == states2[0] && m <= n
      ensures states1[m] == states2[m]
      ensures forall k :: 0 <= k < m ==> log1[k] == log2[k]
      decreases m
    {
      if m > 0 {
        TraceDetermined(files, n, dryRun, now, log1, states1, log2, states2, m - 1);
        StepDetermined(files, n, log1, states1, log2, states2, m - 1, dryRun, now);
      }
    }

    /** A dry run changes nothing. */
    lemma {:induction false} TraceDryRun(files: seq<string>, n: nat, log: seq<FileOutcome>, states: seq<Store>,
                                         now: string, m: nat)
      requires Trace(files, n, log, states, true, now) && m <= n
      ensures states[m] == states[0]
      decreases m
    {
      if m > 0 {
        TraceDryRun(files, n, log, states, now, m - 1);
        StepLine(files, n, log, states, m - 1, true, now);
      }
    }

    /** The batch keeps what each step keeps. */
    lemma {:induction false} TraceKeeps(files: seq<string>, n: nat, log: seq<FileOutcome>, states: seq<Store>,
                                        dryRun: bool, now: string, m: nat)
      requires Trace(files, n, log, states, dryRun, now) && m <= n
      ensures var st, st1 := states[0], states[m];
        && st1.manifest.version == st.manifest.version && st1.manifest.generatedAt == st.manifest.generatedAt
        && (forall p :: p in st.outputFiles ==> p in st1.outputFiles && st1.outputFiles[p] == st.outputFiles[p])
        && (forall p :: p in st.outputFiles && p in st.manifest.assets ==>
              p in st1.manifest.assets && st1.manifest.assets[p] == st.manifest.assets[p])
        && (HashesUnique(st.manifest.assets) ==> HashesUnique(st1.manifest.assets))
        && (st.manifest.assets.Keys <= st.outputFiles.Keys ==> st1.manifest.assets.Keys <= st1.outputFiles.Keys)
      decreases m
    {
      if m > 0 {
        TraceKeeps(files, n, log, states, dryRun, now, m - 1);
        StepKeeps(files, n, log, states, m - 1, dryRun, now);
      }
    }

    /** An input file that no step from `a` to `m` organizes keeps its bytes over those steps. */
    lemma {:induction false} TraceUntouched(files: seq<string>, n: nat, log: seq<FileOutcome>, states: seq<Store>,
                                            dryRun: bool, now: string, a: nat, m: nat, f: string)
      requires Trace(files, n, log, states, dryRun, now) && a <= m <= n
      requires f in states[a].incoming && forall k :: a <= k < m ==> files[k] != f
      ensures f in states[m].incoming && states[m].incoming[f] == states[a].incoming[f]
      decreases m
    {
      if m > a {
        TraceUntouched(files, n, log, states, dryRun, now, a, m - 1, f);
        StepUntouched(files, n, log, states, m - 1, dryRun, now, f);
      }
    }

    /** Each listed file still has its original bytes when its step comes. */
    lemma TraceReaches(files: seq<string>, n: nat, log: seq<FileOutcome>, states: seq<Store>,
                       dryRun: bool, now: string, i: nat)
      requires Trace(files, n, log, states, dryRun, now) && Listed(states[0], files) && i < n
      ensures files[i] in states[i].incoming && states[i].incoming[files[i]] == states[0].incoming[files[i]]
    {
      TraceUntouched(files, n, log, states, dryRun, now, 0, i, files[i]);
    }

    /** A skipped file stays in the input directory with its bytes. */
    lemma TraceSkippedStay(files: seq<string>, n: nat, log: seq<FileOutcome>, states: seq<Store>,
                           dryRun: bool, now: string)
      requires Trace(files, n, log, states, dryRun, now) && Listed(states[0], files)
      ensures forall i :: 0 <= i < n && log[i].destination.None? ==>
                files[i] in states[n].incoming && states[n].incoming[files[i]] == states[0].incoming[files[i]]
    {
      forall i | 0 <= i < n && log[i].destination.None?
        ensures files[i] in states[n].incoming && states[n].incoming[files[i]] == states[0].incoming[files[i]]
      {
        TraceReaches(files, n, log, states, dryRun, now, i);
        StepLine(files, n, log, states, i, dryRun, now);
        TraceUntouched(files, n, log, states, dryRun, now, i + 1, n, files[i]);
      }
    }

    /** Outside a dry run, every file the log says was organized is at its destination and
        recorded there under its name, and no two share a destination. */
    lemma {:induction false} TraceRecorded(files: seq<string>, n: nat, log: seq<FileOutcome>, states: seq<Store>,
                                           now: string, m: nat)
      requires Trace(files, n, log, states, false, now) && m <= n
      ensures Recorded(log[..m], states[m].manifest.assets, states[m].outputFiles) && DistinctDestinations(log[..m])
      decreases m
    {
      if m > 0 {
        TraceRecorded(files, n, log, states, now, m - 1);
        StepRecordedAt(files, n, log, states, m - 1, now);
      }
    }

    /** Outside a dry run, and with a manifest that lists only files of the output tree,
        every file of the batch that is not a system file ends with its fingerprint in the
        manifest: organized now, or a duplicate of a recorded file that stays recorded. */
    lemma {:induction false} TraceFingerprints(files: seq<string>, n: nat, log: seq<FileOutcome>, states: seq<Store>,
                                               now: string, m: nat)
      requires Trace(files, n, log, states, false, now) && Listed(states[0], files) && m <= n
      requires states[0].manifest.assets.Keys <= states[0].outputFiles.Keys
      ensures forall i :: 0 <= i < m && !IsSystemFile(files[i]) ==>
                HasContentHash(states[m].manifest.assets, HashTag(digest(states[0].incoming[files[i]])))
      decreases m
    {
      if m > 0 {
        TraceFingerprints(files, n, log, states, now, m - 1);
        TraceKeeps(files, n, log, states, false, now, m - 1);
        StepFingerprints(files, n, log, states, m - 1, now);
        TraceReaches(files, n, log, states, false, now, m - 1);
      }
    }

    /** The duplicate scan: some manifest path whose entry carries fingerprint `h`, if any. */
    method FindDuplicate(h: string) returns (matched: Option<string>)
      ensures matched.None? <==> !HasContentHash(manifest.assets, h)
      ensures matched.Some? ==> matched.value in manifest.assets && manifest.assets[matched.value].contentHash == h
    {
      var paths := manifest.assets.Keys;
      while paths != {}
        invariant paths <= manifest.assets.Keys
        invariant forall p :: p in manifest.assets && p !in paths ==> manifest.assets[p].contentHash != h
        decreases paths
      {
        var p :| p in paths;
        if manifest.assets[p].contentHash == h {
          return Some(p);
        }
        paths := paths - {p};
      }
      return None;
    }

    /** The collision loop: the first of `category/name`, `category/stem_1.suffix`, ...
        that is not a file of the output tree. */
    method ResolveDestination(category: string, name: string) returns (rel: string)
      ensures ResolvesTo(category, name, outputFiles.Keys, rel)
    {
      var existing := outputFiles.Keys;
      // `k` numbers the path being tried; the source's `counter` is always k + 1.
      var k: nat := 0;
      while Candidate(category, name, k) in existing
        invariant Tried(category, name, k) <= existing
        decreases existing - Tried(category, name, k)
      {
        TriedGrows(category, name, existing, k);
        k := k + 1;
      }
      rel := Candidate(category, name, k);
      StopsAtFirstFree(category, name, existing, k);
    }

    /** `organize_asset`: skip system files and duplicates; otherwise resolve the destination
        and, unless this is a dry run, move the file there and record it in the manifest. */
    method OrganizeAsset(name: string, dryRun: bool, now: string) returns (result: Option<string>)
      requires name in incoming
      modifies this
      ensures (result, State()) == Organize(old(State()), name, dryRun, now)
      ensures manifestFile == old(manifestFile)
      ensures IsSystemFile(name) ==> result.None? && unchanged(this)
      ensures (!IsSystemFile(name) && HasContentHash(old(manifest.assets), HashTag(digest(old(incoming[name])))))
                ==> result.None? && unchanged(this)
      ensures (!IsSystemFile(name) && !HasContentHash(old(manifest.assets), HashTag(digest(old(incoming[name])))))
                ==> result.Some? && ResolvesTo(GetCategory(name), name, old(outputFiles.Keys), result.value)
      ensures dryRun ==> unchanged(this)
      ensures !dryRun && result.Some? ==>
                && incoming == old(incoming) - {name}
                && outputFiles == old(outputFiles)[result.value := old(incoming[name])]
                && manifest == old(manifest).(assets := old(manifest.assets)[result.value :=
                     MakeRecord(name, old(incoming[name]), result.value, GetCategory(name), now)])
      ensures result.Some? ==> result.value !in old(outputFiles)
      ensures !dryRun && result.Some? ==>
                && result.value in manifest.assets && result.value in outputFiles
                && manifest.assets[result.value].originalName == name
                && manifest.assets[result.value].contentHash == HashTag(digest(old(incoming[name])))
                && manifest.assets[result.value].category == GetCategory(name)
      ensures forall f :: f in old(incoming) && f != name ==> f in incoming && incoming[f] == old(incoming[f])
      ensures forall p :: p in old(outputFiles) ==> p in outputFiles && outputFiles[p] == old(outputFiles[p])
      ensures forall p :: p in old(outputFiles) && p in old(manifest.assets) ==>
                p in manifest.assets && manifest.assets[p] == old(manifest.assets[p])
      ensures HashesUnique(old(manifest.assets)) ==> HashesUnique(manifest.assets)
      ensures old(manifest.assets.Keys) <= old(outputFiles.Keys) ==>
                && manifest.assets.Keys <= outputFiles.Keys
                && (!dryRun && result.Some? ==> result.value !in old(manifest.assets))
    {
      ghost var st0 := State();
      if IsSystemFile(name) {
        result := None;
      } else {
        var contentHash := HashTag(digest(incoming[name]));
        var duplicateOf := FindDuplicate(contentHash);
        if duplicateOf.Some? {
          result := None;
        } else {
          var category := GetCategory(name);
          var rel := ResolveDestination(category, name);
          ResolutionUnique(category, name, outputFiles.Keys, rel, Destination(category, name, outputFiles.Keys));
          if !dryRun {
            Commit(name, rel, category, now);
          }
          result := Some(rel);
        }
      }
      assert (result, State()) == Organize(st0, name, dryRun, now);
      OrganizeDecides(st0, name, dryRun, now);
      OrganizeKeeps(st0, name, dryRun, now);
      if !dryRun {
        OrganizeRecords(st0, name, now);
      }
    }

    /** The commit step: move the file from the input directory to `rel` and record it there. */
    method Commit(name: string, rel: string, category: string, now: string)
      requires name in incoming
      modifies this
      ensures incoming == old(incoming) - {name}
      ensures outputFiles == old(outputFiles)[rel := old(incoming[name])]
      ensures manifestFile == old(manifestFile)
      ensures manifest == old(manifest).(assets := old(manifest.assets)[rel :=
                MakeRecord(name, old(incoming[name]), rel, category, now)])
    {
      var content := incoming[name];
      incoming := incoming - {name};
      outputFiles := outputFiles[rel := content];
      var info := MakeRecord(name, content, rel, category, now);
      manifest := manifest.(assets := manifest.assets[rel := info]);
    }

    /** One step of the loop of `main`: organize `name` and make its status line, which
        says where the file went, or nothing for a system file or a duplicate of a recorded
        fingerprint. */
    method OrganizeNext(name: string, dryRun: bool, now: string) returns (entry: FileOutcome)
      requires name in incoming
      modifies this
      ensures entry == FileOutcome(name, Organize(old(State()), name, dryRun, now).0)
      ensures State() == Organize(old(State()), name, dryRun, now).1
      ensures manifestFile == old(manifestFile)
      ensures dryRun ==> unchanged(this)
      ensures entry.destination.None? <==>
                IsSystemFile(name) || HasContentHash(old(manifest.assets), HashTag(digest(old(incoming[name]))))
      ensures entry.destination.Some? ==>
                ResolvesTo(GetCategory(name), name, old(outputFiles.Keys), entry.destination.value)
      ensures forall f :: f in old(incoming) && f != name ==> f in incoming && incoming[f] == old(incoming[f])
    {
      var result := OrganizeAsset(name, dryRun, now);
      entry := FileOutcome(name, result);
    }

    /** The loop of `main`: organize `files` one after the other, logging each outcome;
        `states` holds the state before each step and after the last. */
    method OrganizeAll(files: seq<string>, dryRun: bool, now: string)
      returns (log: seq<FileOutcome>, organized: nat, skipped: nat, ghost states: seq<Store>)
      requires Listed(State(), files)
      modifies this
      ensures Trace(files, |files|, log, states, dryRun, now)
      ensures states[0] == old(State()) && states[|files|] == State()
      ensures Names(log) == files
      ensures organized == CountOrganized(log) && organized + skipped == |files|
      ensures manifestFile == old(manifestFile)
      ensures dryRun ==> unchanged(this)
    {
      organized, skipped := 0, 0;
      log := [];
      states := [State()];
      var i := 0;
      while i < |files|
        invariant 0 <= i <= |files| && Distinct(files)
        invariant Trace(files, i, log, states, dryRun, now)
        invariant states[0] == old(State()) && states[i] == State()
        invariant forall j :: i <= j < |files| ==> files[j] in incoming
        invariant organized == CountOrganized(log) && organized + skipped == i
        invariant manifestFile == old(manifestFile)
        invariant dryRun ==> unchanged(this)
      {
        var entry := OrganizeNext(files[i], dryRun, now);
        TraceExtend(files, i, log, states, dryRun, now, entry, State());
        assert (log + [entry])[..i] == log;
        log := log + [entry];
        states := states + [State()];
        if entry.destination.Some? {
          organized := organized + 1;
        } else {
          skipped := skipped + 1;
        }
        i := i + 1;
      }
      forall k | 0 <= k < |files| ensures log[k].name == files[k] {
        StepLine(files, |files|, log, states, k, dryRun, now);
      }
    }

    /** `main` after argument parsing and the manifest load: organize every input file in
        sorted order, count the outcomes, save when something was organized outside a dry
        run, and check the required assets. `states` holds the state before each step. */
    method Run(dryRun: bool, now: string) returns (outcome: RunOutcome, ghost states: seq<Store>)
      requires manifest == LoadManifest(manifestFile)
      modifies this
      ensures outcome.NoFiles? <==> |old(incoming)| == 0
      ensures outcome.NoFiles? ==> unchanged(this)
      ensures outcome.Summary? ==>
                && |outcome.log| == |old(incoming)|
                && (forall x :: x in old(incoming) <==> x in Names(outcome.log))
                && StrictlySorted(Names(outcome.log))
                && Listed(old(State()), Names(outcome.log))
                && outcome.organized == CountOrganized(outcome.log)
                && outcome.organized + outcome.skipped == |old(incoming)|
                && (outcome.saved <==> !dryRun && outcome.organized > 0)
                && outcome.required == RequiredReport(manifest.assets)
      ensures outcome.Summary? ==>
                && Trace(Names(outcome.log), |outcome.log|, outcome.log, states, dryRun, now)
                && states[0] == old(State())
                && var st := states[|outcome.log|];
                   && incoming == st.incoming && outputFiles == st.outputFiles
                   && manifest == if outcome.saved then st.manifest.(generatedAt := Some(now)) else st.manifest
      ensures manifestFile == if outcome.Summary? && outcome.saved then Some(manifest) else old(manifestFile)
      ensures dryRun ==> unchanged(this)
      ensures outcome.Summary? ==>
                && (forall p :: p in old(outputFiles) ==> p in outputFiles && outputFiles[p] == old(outputFiles[p]))
                && (forall p :: p in old(outputFiles) && p in old(manifest.assets) ==>
                      p in manifest.assets && manifest.assets[p] == old(manifest.assets[p]))
                && (HashesUnique(old(manifest.assets)) ==> HashesUnique(manifest.assets))
                && (forall i :: 0 <= i < |outcome.log| && outcome.log[i].destination.None? ==>
                      outcome.log[i].name in incoming && incoming[outcome.log[i].name] == old(incoming[outcome.log[i].name]))
      ensures outcome.Summary? && !dryRun ==>
                && Recorded(outcome.log, manifest.assets, outputFiles) && DistinctDestinations(outcome.log)
                && (old(manifest.assets.Keys) <= old(outputFiles.Keys) ==>
                      forall f :: f in old(incoming) && !IsSystemFile(f) ==>
                        HasContentHash(manifest.assets, HashTag(digest(old(incoming[f])))))
    {
      ghost var st0 := State();
      var files := SortNames(incoming.Keys);
      if |files| == 0 {
        return NoFiles, [State()];
      }
      SortedDistinct(files);
      outcome, states := OrganizeBatch(files, dryRun, now);
      RunKeeps(st0, State(), outcome.log, states, dryRun, now);
      if !dryRun {
        RunRecords(st0, State(), outcome.log, states, now);
      }
    }

    /** The part of `main` that follows the sort: organize `files`, save the manifest when
        something was organized outside a dry run, and report. */
    method OrganizeBatch(files: seq<string>, dryRun: bool, now: string) returns (outcome: RunOutcome, ghost states: seq<Store>)
      requires Listed(State(), files)
      modifies this
      ensures outcome.Summary? && Names(outcome.log) == files
      ensures outcome.organized == CountOrganized(outcome.log) && outcome.organized + outcome.skipped == |files|
      ensures outcome.saved <==> !dryRun && outcome.organized > 0
      ensures outcome.required == RequiredReport(manifest.assets)
      ensures Trace(files, |files|, outcome.log, states, dryRun, now) && states[0] == old(State())
      ensures var st := states[|files|];
        && incoming == st.incoming && outputFiles == st.outputFiles
        && manifest == if outcome.saved then st.manifest.(generatedAt := Some(now)) else st.manifest
      ensures manifestFile == if outcome.saved then Some(manifest) else old(manifestFile)
      ensures dryRun ==> unchanged(this)
    {
      var log, organized, skipped;
      log, organized, skipped, states := OrganizeAll(files, dryRun, now);
      var saved := !dryRun && organized > 0;
      if saved {
        manifest := manifest.(generatedAt := Some(now));
        manifestFile := Some(manifest);
      }
      outcome := Summary(log, organized, skipped, saved, RequiredReport(manifest.assets));
    }

    /** What a run keeps: the output tree and the entries recorded at its files, unique
        fingerprints, and every skipped file in the input directory with its bytes. */
    lemma RunKeeps(st0: Store, st: Store, log: seq<FileOutcome>, states: seq<Store>, dryRun: bool, now: string)
      requires Trace(Names(log), |log|, log, states, dryRun, now) && Listed(st0, Names(log)) && states[0] == st0
      requires st.outputFiles == states[|log|].outputFiles && st.incoming == states[|log|].incoming
      requires st.manifest.assets == states[|log|].manifest.assets
      ensures forall p :: p in st0.outputFiles ==> p in st.outputFiles && st.outputFiles[p] == st0.outputFiles[p]
      ensures forall p :: p in st0.outputFiles && p in st0.manifest.assets ==>
                p in st.manifest.assets && st.manifest.assets[p] == st0.manifest.assets[p]
      ensures HashesUnique(st0.manifest.assets) ==> HashesUnique(st.manifest.assets)
      ensures forall i :: 0 <= i < |log| && log[i].destination.None? ==>
                log[i].name in st.incoming && st.incoming[log[i].name] == st0.incoming[log[i].name]
    {
      TraceKeeps(Names(log), |log|, log, states, dryRun, now, |log|);
      TraceSkippedStay(Names(log), |log|, log, states, dryRun, now);
    }

    /** What a run outside a dry run records: every organized file at its own destination,
        under its name; and, with a manifest that lists only files of the output tree,
        the fingerprint of every input file that is not a system file. */
    lemma RunRecords(st0: Store, st: Store, log: seq<FileOutcome>, states: seq<Store>, now: string)
      requires Trace(Names(log), |log|, log, states, false, now) && Listed(st0, Names(log)) && states[0] == st0
      requires st.outputFiles == states[|log|].outputFiles && st.manifest.assets == states[|log|].manifest.assets
      requires forall f :: f in st0.incoming ==> f in Names(log)
      ensures Recorded(log, st.manifest.assets, st.outputFiles) && DistinctDestinations(log)
      ensures st0.manifest.assets.Keys <= st0.outputFiles.Keys ==>
                forall f :: f in st0.incoming && !IsSystemFile(f) ==>
                  HasContentHash(st.manifest.assets, HashTag(digest(st0.incoming[f])))
    {
      var files, n := Names(log), |log|;
      TraceRecorded(files, n, log, states, now, n);
      assert log[..n] == log;
      if st0.manifest.assets.Keys <= st0.outputFiles.Keys {
        TraceFingerprints(files, n, log, states, now, n);
        forall f | f in st0.incoming && !IsSystemFile(f)
          ensures HasContentHash(st.manifest.assets, HashTag(digest(st0.incoming[f])))
        {
          var i :| 0 <= i < n && files[i] == f;
        }
      }
    }

    /** The first file organized into an empty output tree with an empty manifest becomes
        the only file of the tree and the only fingerprint of the manifest. */
    lemma FirstIntoEmpty(st: Store, name: string, now: string)
      requires name in st.incoming && !IsSystemFile(name)
      requires st.outputFiles == map[] && st.manifest.assets == map[]
      ensures var r := Organize(st, name, false, now); var rel := GetCategory(name) + "/" + name;
        && r.0 == Some(rel)
        && r.1.outputFiles.Keys == {rel}
        && (forall h :: HasContentHash(r.1.manifest.assets, h) ==> h == HashTag(digest(st.incoming[name])))
    {
      FreshFileKeepsName(st, name, false, now);
      var r := Organize(st, name, false, now);
      assert r.1.manifest.assets.Keys == {GetCategory(name) + "/" + name};
    }

    /** A file, a copy of it under another name, and a third file with other bytes, organized
        one after the other outside a dry run into an empty output tree with an empty manifest
        (`clip.mp4`, `clip_copy.mp4` and `logo.png`, say): the first goes to its category
        under its own name, the copy is skipped as a duplicate, and the third goes to its
        category under its own name. */
    lemma CopyScenario(st: Store, a: string, b: string, c: string, now: string)
      requires a in st.incoming && b in st.incoming && c in st.incoming && a != b && b != c && a != c
      requires st.outputFiles == map[] && st.manifest.assets == map[]
      requires !IsSystemFile(a) && !IsSystemFile(c)
      requires st.incoming[b] == st.incoming[a] && digest(st.incoming[c]) != digest(st.incoming[a])
      requires GetCategory(c) + "/" + c != GetCategory(a) + "/" + a
      ensures var r0 := Organize(st, a, false, now);
              var r1 := Organize(r0.1, b, false, now);
              var r2 := Organize(r1.1, c, false, now);
        && r0.0 == Some(GetCategory(a) + "/" + a)
        && r1.0.None?
        && r2.0 == Some(GetCategory(c) + "/" + c)
    {
      var r0 := Organize(st, a, false, now);
      FirstIntoEmpty(st, a, now);
      SameContentSkipped(st, a, b, now);
      var s1 := Organize(r0.1, b, false, now).1;
      assert s1 == r0.1;
      HashTagInjective(digest(st.incoming[c]), digest(st.incoming[a]));
      FreshFileKeepsName(s1, c, false, now);
    }

  }
}
