/** The XML file loader's schema assembly (BuildSchema) and its table of module query
    paths. The file system is an input: for every module type, the entries that the
    recursive directory iterator yields under that type's model directory, each with
    the bytes an ifstream reads from it. */
module XmlFileLoading {
  import opened Strings

  // ---------------------------------------------------------------------------
  // Reference extraction, with the size_t arithmetic of the source

  /** 2^64: size_t arithmetic is modulo this. */
  const SizeModulus: int := 0x1_0000_0000_0000_0000
  /** std::string::npos == SIZE_MAX */
  const Npos: int := SizeModulus - 1

  const DefineTag: string := "<define name=\""

  /** A std::string: its size is always below npos. */
  type CppString = s: string | |s| < Npos

  /** Addition and subtraction of size_t values, wrapping modulo 2^64. */
  function SizeAdd(a: nat, b: nat): (r: nat)
    requires a < SizeModulus && b < SizeModulus
    ensures r < SizeModulus && r == (a + b) % SizeModulus
  {
    if a + b >= SizeModulus then a + b - SizeModulus else a + b
  }

  function SizeSub(a: nat, b: nat): (r: nat)
    requires a < SizeModulus && b < SizeModulus
    ensures r < SizeModulus && r == (a - b) % SizeModulus
  {
    if a >= b then a - b else a - b + SizeModulus
  }

  /** std::string::find returning a size_t: the index, or npos. */
  function FindPos(s: string, pat: string, from: nat): (r: nat)
    requires |s| < Npos
    ensures Find(s, pat, from).Some? ==> r == Find(s, pat, from).value && r <= |s|
    ensures Find(s, pat, from).None? ==> r == Npos
  {
    match Find(s, pat, from)
    case Some(i) => i
    case None => Npos
  }

  datatype RefResult = Ref(name: string) | OutOfRange

  /** std::string::substr(pos, len): throws out_of_range when pos > size(). */
  function Substr(s: string, pos: nat, len: nat): (r: RefResult)
    ensures r.OutOfRange? <==> pos > |s|
    ensures r.Ref? ==> |r.name| == (if pos + len >= |s| then |s| - pos else len)
    ensures r.Ref? ==> r.name == s[pos..pos + |r.name|]
  {
    if pos > |s| then OutOfRange
    else if pos + len >= |s| then Ref(s[pos..])
    else Ref(s[pos..pos + len])
  }

  /** The name after the first `<define name="`: start is one past the tag, the name
      ends at the first quote found from start + 1. Without a tag, npos + 14 wraps to
      13, so the text from offset 13 is taken instead (or out_of_range is thrown for
      a text shorter than 13). */
  function ExtractRef(data: string): (r: RefResult)
    requires |data| < Npos
    ensures r.OutOfRange? <==> |data| < 13
  {
    var start := SizeAdd(FindPos(data, DefineTag, 0), |DefineTag|);
    var end := FindPos(data, "\"", SizeAdd(start, 1));
    Substr(data, start, SizeSub(end, start))
  }

  /** When X is non-empty and quote-free, `<define name="X"` at the first tag yields X. */
  lemma ExtractDefinedName(data: string, i: nat, x: string)
    requires |data| < Npos
    requires OccursAt(data, DefineTag, i) && forall k :: 0 <= k < i ==> !OccursAt(data, DefineTag, k)
    requires x != [] && '"' !in x
    requires OccursAt(data, x + "\"", i + |DefineTag|)
    ensures ExtractRef(data) == Ref(x)
  {
    var start := i + |DefineTag|;
    FindIsFirst(data, DefineTag, 0);
    assert Find(data, DefineTag, 0) == Some(i);
    assert SizeAdd(FindPos(data, DefineTag, 0), |DefineTag|) == start;
    QuoteEndsName(data, start, x);
    assert SizeAdd(start, 1) == start + 1;
    assert SizeSub(start + |x|, start) == |x|;
  }

  /** After a non-empty, quote-free name followed by a quote, the first quote
      searched from one past the name's start ends the name. */
  lemma QuoteEndsName(data: string, start: nat, x: string)
    requires x != [] && '"' !in x
    requires OccursAt(data, x + "\"", start)
    ensures Find(data, "\"", start + 1) == Some(start + |x|)
    ensures data[start..start + |x|] == x
  {
    var q := start + |x|;
    assert data[start..q + 1] == x + "\"";
    assert OccursAt(data, "\"", q) by {
      assert data[q] == (x + "\"")[|x|];
      assert data[q..q + 1] == [data[q]];
    }
    forall k | start + 1 <= k < q ensures !OccursAt(data, "\"", k) {
      assert data[k] == (x + "\"")[k - start];
      assert data[k..k + 1] == [data[k]];
    }
    FindIsFirst(data, "\"", start + 1);
    assert data[start..q] == data[start..q + 1][..|x|] == (x + "\"")[..|x|] == x;
  }

  /** Without any `<define name="`, the text from offset 13 up to the next quote
      after offset 14 is taken, and a text shorter than 13 throws out_of_range. */
  lemma ExtractWithoutTag(data: string)
    requires |data| < Npos
    requires forall k :: !OccursAt(data, DefineTag, k)
    ensures |data| < 13 ==> ExtractRef(data) == OutOfRange
    ensures |data| >= 13 ==>
      ExtractRef(data) == (match Find(data, "\"", 14)
        case Some(e) => Ref(data[13..e])
        case None => Ref(data[13..]))
  {
    FindIsFirst(data, DefineTag, 0);
    assert FindPos(data, DefineTag, 0) == Npos;
    assert SizeAdd(Npos, |DefineTag|) == 13;
  }

  // ---------------------------------------------------------------------------
  // File names

  /** The index of the last `c` in `s`. */
  function LastIndexOf(s: string, c: char): (r: Option<nat>)
    ensures r.Some? ==> r.value < |s| && s[r.value] == c && forall k :: r.value < k < |s| ==> s[k] != c
    ensures r.None? ==> c !in s
  {
    if s == [] then None
    else if s[|s| - 1] == c then Some(|s| - 1)
    else LastIndexOf(s[..|s| - 1], c)
  }

  /** path::filename(): the component after the last '/'. */
  function Filename(path: string): string
  {
    match LastIndexOf(path, '/')
    case None => path
    case Some(i) => path[i + 1..]
  }

  /** path::extension(): the file name from its last '.', empty for "." and ".." and
      for names without a dot. */
  function Extension(path: string): string
  {
    var name := Filename(path);
    if name == "." || name == ".." then ""
    else match LastIndexOf(name, '.')
      case None => ""
      case Some(i) => name[i..]
  }

  predicate IsRng(path: string)
  {
    Extension(path) == ".rng"
  }

  /** A path counts as a schema exactly when its file name ends in ".rng". */
  lemma IsRngIffNameEndsInRng(path: string)
    ensures IsRng(path) <==> (|Filename(path)| >= 4 && Filename(path)[|Filename(path)| - 4..] == ".rng")
  {
    var name := Filename(path);
    if |name| >= 4 && name[|name| - 4..] == ".rng" {
      assert name[|name| - 4] == '.';
      var k := |name| - 4;
      assert forall j :: k < j < |name| ==> name[j] != '.' by {
        forall j | k < j < |name| ensures name[j] != '.' {
          assert name[j] == ".rng"[j - k];
        }
      }
      match LastIndexOf(name, '.')
      case None =>
      case Some(i) =>
        assert i == k;
    }
    if IsRng(path) {
      var i := LastIndexOf(name, '.').value;
      assert name[i..] == ".rng";
    }
  }

  // ---------------------------------------------------------------------------
  // Scanning one type's directory

  /** A directory entry: its path and the text read from it. */
  datatype SchemaFile = SchemaFile(path: string, text: CppString)

  /** What the scan of one directory contributed: include lines, the refs block (a
      newline followed by ref lines), and whether a thrown exception ended it early. */
  datatype Scan = Scan(includes: string, refs: string, aborted: bool)

  function IncludeLine(path: string): string
  {
    "<include href='" + path + "'/>\n"
  }

  function RefLine(name: string): string
  {
    "<ref name='" + name + "'/>\n"
  }

  /** What one entry contributes: nothing, or (for a .rng path) an include line and
      the outcome of extracting its name. */
  datatype Entry = Other | RngEntry(path: string, ref: RefResult)

  function Classify(f: SchemaFile): (e: Entry)
    ensures e.RngEntry? <==> IsRng(f.path)
    ensures e.RngEntry? ==> e.path == f.path && e.ref == ExtractRef(f.text)
  {
    if IsRng(f.path) then RngEntry(f.path, ExtractRef(f.text)) else Other
  }

  function Entries(files: seq<SchemaFile>): (es: seq<Entry>)
    ensures |es| == |files|
  {
    seq(|files|, i requires 0 <= i < |files| => Classify(files[i]))
  }

  lemma EntriesPrefix(files: seq<SchemaFile>, k: nat)
    requires k <= |files|
    ensures Entries(files[..k]) == Entries(files)[..k]
  {
  }

  /** The scan over classified entries in listing order: each .rng entry adds an
      include line, then a ref line for its extracted name; an out_of_range ends the
      scan (the catch is outside the loop) after the include line was written. */
  function Step(prev: Scan, e: Entry): Scan
  {
    if prev.aborted || e.Other? then prev
    else match e.ref
      case OutOfRange => Scan(prev.includes + IncludeLine(e.path), prev.refs, true)
      case Ref(n) => Scan(prev.includes + IncludeLine(e.path), prev.refs + RefLine(n), false)
  }

  function Fold(es: seq<Entry>): Scan
  {
    if es == [] then Scan("", "\n", false) else Step(Fold(es[..|es| - 1]), es[|es| - 1])
  }

  lemma FoldSnoc(es: seq<Entry>, j: nat)
    requires j < |es|
    ensures Fold(es[..j + 1]) == Step(Fold(es[..j]), es[j])
  {
    assert es[..j + 1][..j] == es[..j];
  }

  function ScanFiles(files: seq<SchemaFile>): Scan
  {
    Fold(Entries(files))
  }

  /** The scan of a non-empty listing is its last entry's step after the rest. */
  lemma ScanFilesSnoc(files: seq<SchemaFile>)
    requires files != []
    ensures ScanFiles(files) == Step(ScanFiles(files[..|files| - 1]), Classify(files[|files| - 1]))
  {
    EntriesPrefix(files, |files| - 1);
  }

  /** Once the scan has been aborted, later entries change nothing. */
  lemma {:induction false} AbortedFoldStays(es: seq<Entry>, k: nat)
    requires k <= |es| && Fold(es[..k]).aborted
    ensures Fold(es) == Fold(es[..k])
    decreases |es| - k
  {
    if k == |es| {
      assert es[..k] == es;
    } else {
      var n := |es|;
      if k < n - 1 {
        assert es[..n - 1][..k] == es[..k];
        AbortedFoldStays(es[..n - 1], k);
      }
      assert Fold(es[..n - 1]) == Fold(es[..k]);
    }
  }

  lemma AbortedScanStays(files: seq<SchemaFile>, k: nat)
    requires k <= |files| && ScanFiles(files[..k]).aborted
    ensures ScanFiles(files) == ScanFiles(files[..k])
  {
    EntriesPrefix(files, k);
    AbortedFoldStays(Entries(files), k);
  }

  /** Only entries with the .rng extension contribute anything. */
  function RngFiles(files: seq<SchemaFile>): (r: seq<SchemaFile>)
    ensures forall f :: f in r <==> f in files && IsRng(f.path)
  {
    if files == [] then []
    else
      var init := RngFiles(files[..|files| - 1]);
      var f := files[|files| - 1];
      assert files == files[..|files| - 1] + [f];
      if IsRng(f.path) then init + [f] else init
  }

  /** Only entries with the .rng extension contribute anything. */
  lemma {:induction false} OnlyRngFilesContribute(files: seq<SchemaFile>)
    ensures ScanFiles(files) == ScanFiles(RngFiles(files))
  {
    if files != [] {
      var init := files[..|files| - 1];
      var f := files[|files| - 1];
      OnlyRngFilesContribute(init);
      ScanFilesSnoc(files);
      if IsRng(f.path) {
        var r := RngFiles(init) + [f];
        assert r[..|r| - 1] == RngFiles(init);
        ScanFilesSnoc(r);
      }
    }
  }

  /** Include lines of a sequence of entries, one per entry. */
  function IncludeLines(files: seq<SchemaFile>): string
  {
    if files == [] then "" else IncludeLines(files[..|files| - 1]) + IncludeLine(files[|files| - 1].path)
  }

  /** Every extraction succeeds. */
  predicate AllRefsExtract(files: seq<SchemaFile>)
  {
    forall f :: f in files && IsRng(f.path) ==> ExtractRef(f.text).Ref?
  }

  /** When every .rng entry yields a name, the scan is not aborted and its includes
      are one include line per .rng entry, in listing order. */
  lemma {:induction false} ScanIncludesEveryRng(files: seq<SchemaFile>)
    requires AllRefsExtract(files)
    ensures !ScanFiles(files).aborted
    ensures ScanFiles(files).includes == IncludeLines(RngFiles(files))
  {
    if files != [] {
      var init := files[..|files| - 1];
      var f := files[|files| - 1];
      assert forall g :: g in init ==> g in files;
      ScanIncludesEveryRng(init);
      ScanFilesSnoc(files);
      if IsRng(f.path) {
        var r := RngFiles(init) + [f];
        assert r[..|r| - 1] == RngFiles(init);
      }
    }
  }

  /** The ref lines of a sequence of entries, one per entry whose name was extracted. */
  function RefLines(files: seq<SchemaFile>): string
  {
    if files == [] then ""
    else
      var init := RefLines(files[..|files| - 1]);
      match ExtractRef(files[|files| - 1].text)
      case Ref(n) => init + RefLine(n)
      case OutOfRange => init
  }

  /** When every .rng entry yields a name, the refs block is a newline followed by
      one ref line per .rng entry, in listing order. */
  lemma {:induction false} ScanRefsEveryRng(files: seq<SchemaFile>)
    requires AllRefsExtract(files)
    ensures ScanFiles(files).refs == "\n" + RefLines(RngFiles(files))
  {
    if files == [] {
      assert Entries(files) == [];
    } else {
      var init := files[..|files| - 1];
      var f := files[|files| - 1];
      assert forall g :: g in init ==> g in files;
      ScanIncludesEveryRng(init);
      ScanRefsEveryRng(init);
      ScanFilesSnoc(files);
      RngFilesSnoc(files);
      if IsRng(f.path) {
        assert f in files;
        var n := ExtractRef(f.text).name;
        RefLinesSnoc(RngFiles(init), f, n);
        Reassociate("\n", RefLines(RngFiles(init)), RefLine(n));
      }
    }
  }

  lemma RngFilesSnoc(files: seq<SchemaFile>)
    requires files != []
    ensures var f := files[|files| - 1];
      RngFiles(files) == if IsRng(f.path) then RngFiles(files[..|files| - 1]) + [f] else RngFiles(files[..|files| - 1])
  {
  }

  lemma RefLinesSnoc(xs: seq<SchemaFile>, f: SchemaFile, n: string)
    requires ExtractRef(f.text) == Ref(n)
    ensures RefLines(xs + [f]) == RefLines(xs) + RefLine(n)
  {
    assert (xs + [f])[..|xs|] == xs;
  }

  lemma Reassociate(a: string, b: string, c: string)
    ensures (a + b) + c == a + (b + c)
  {
  }

  // ---------------------------------------------------------------------------
  // BuildSchema

  /** The entries of a type's model directory; a directory that cannot be opened
      throws at once and contributes as an empty listing. */
  function FilesOf(listing: map<string, seq<SchemaFile>>, t: string): seq<SchemaFile>
  {
    if t in listing then listing[t] else []
  }

  function Placeholder(t: string): string
  {
    "@" + t + "_REFS@"
  }

  const IncludesPlaceholder: string := "@RNG_INCLUDES@"

  /** The refs block for a type: a newline, then one ref line per extracted name. */
  function RefsBlock(listing: map<string, seq<SchemaFile>>, t: string): string
  {
    ScanFiles(FilesOf(listing, t)).refs
  }

  /** The master text after each type, in order, replaced its placeholder. */
  function ApplyRefs(master: string, types: seq<string>, listing: map<string, seq<SchemaFile>>): string
  {
    if types == [] then master
    else
      var t := types[|types| - 1];
      ReplaceFirst(ApplyRefs(master, types[..|types| - 1], listing), Placeholder(t), RefsBlock(listing, t))
  }

  /** The include lines of all types, in type order. */
  function AllIncludes(types: seq<string>, listing: map<string, seq<SchemaFile>>): string
  {
    if types == [] then ""
    else AllIncludes(types[..|types| - 1], listing) + ScanFiles(FilesOf(listing, types[|types| - 1])).includes
  }

  /** The assembled schema. */
  function Schema(master: string, types: seq<string>, listing: map<string, seq<SchemaFile>>): string
  {
    ReplaceFirst(ApplyRefs(master, types, listing), IncludesPlaceholder, AllIncludes(types, listing))
  }

  /** The inner loop of BuildSchema over one type's directory entries: the include
      lines it appends and the refs block it builds. The loop is left at the first
      out_of_range, as the exception leaves it for the catch. */
  method ScanDirectory(files: seq<SchemaFile>) returns (added: string, refs: string)
    ensures added == ScanFiles(files).includes
    ensures refs == ScanFiles(files).refs
  {
    ghost var es := Entries(files);
    ghost var scan := Scan("", "\n", false);
    added := "";
    refs := "\n";
    var aborted := false;
    var j := 0;
    while j < |files| && !aborted
      invariant 0 <= j <= |files|
      invariant scan == Fold(es[..j])
      invariant added == scan.includes && refs == scan.refs && aborted == scan.aborted
    {
      FoldSnoc(es, j);
      var e := Classify(files[j]);
      assert es[j] == e;
      if e.RngEntry? {
        added := added + IncludeLine(e.path);
        match e.ref
        case OutOfRange =>
          aborted := true;
        case Ref(name) =>
          refs := refs + RefLine(name);
      }
      scan := Step(scan, e);
      j := j + 1;
    }
    if aborted {
      AbortedFoldStays(es, j);
    } else {
      assert es[..j] == es;
    }
  }

  /** BuildSchema(): `mainSchema` is the text of the main schema file, `types` the
      dynamic module types (a std::set, so in ascending order). */
  method BuildSchema(mainSchema: string, types: seq<string>, listing: map<string, seq<SchemaFile>>)
    returns (schema: string)
    requires StrictlyAscending(types)
    ensures schema == Schema(mainSchema, types, listing)
  {
    var master := mainSchema;
    var includes := "";
    var t := 0;
    while t < |types|
      invariant 0 <= t <= |types|
      invariant master == ApplyRefs(mainSchema, types[..t], listing)
      invariant includes == AllIncludes(types[..t], listing)
    {
      var added, refs := ScanDirectory(FilesOf(listing, types[t]));
      includes := includes + added;
      master := ReplaceFirst(master, Placeholder(types[t]), refs);
      assert types[..t + 1][..t] == types[..t];
      t := t + 1;
    }
    assert types[..t] == types;
    schema := ReplaceFirst(master, IncludesPlaceholder, includes);
  }

  /** A type whose directory is missing gets just a newline for its refs and adds
      no include line. */
  lemma MissingDirectory(listing: map<string, seq<SchemaFile>>, t: string)
    requires t !in listing
    ensures RefsBlock(listing, t) == "\n"
    ensures ScanFiles(FilesOf(listing, t)).includes == ""
  {
  }

  // ---------------------------------------------------------------------------
  // Module query paths

  /** The query path of each module type. */
  const ModulePathTable: map<string, string> := map[
    "Market" := "/*/market",
    "Converter" := "/*/converter",
    "Region" := "/*/region",
    "Inst" := "/*/region/institution",
    "Facility" := "/*/facility"]

  /** The five operator[] assignments overwrite exactly the table's keys. */
  lemma FiveAssignments(m: map<string, string>)
    ensures m["Market" := "/*/market"]["Converter" := "/*/converter"]["Region" := "/*/region"]
      ["Inst" := "/*/region/institution"]["Facility" := "/*/facility"] == m + ModulePathTable
  {
  }

  class XmlFileLoader {
    var file: string
    var modulePaths: map<string, string>

    /** XMLFileLoader(ctx, load_filename): keeps the file name and fills the table. */
    constructor (loadFilename: string)
      ensures file == loadFilename && modulePaths == ModulePathTable
    {
      file := loadFilename;
      modulePaths := map[];
      new;
      InitializeModulePaths();
    }

    /** initialize_module_paths(): five operator[] assignments, each overwriting. */
    method InitializeModulePaths()
      modifies this`modulePaths
      ensures modulePaths == old(modulePaths) + ModulePathTable
    {
      ghost var before := modulePaths;
      modulePaths := modulePaths["Market" := "/*/market"];
      modulePaths := modulePaths["Converter" := "/*/converter"];
      modulePaths := modulePaths["Region" := "/*/region"];
      modulePaths := modulePaths["Inst" := "/*/region/institution"];
      modulePaths := modulePaths["Facility" := "/*/facility"];
      FiveAssignments(before);
    }

    /** load_dynamic_modules(module_types): for each type in ascending order, calls
        load_modules_of_type(type, module_paths_[type]); the calls are returned.
        operator[] inserts the empty path for a type missing from the table. */
    method LoadDynamicModules(moduleTypes: seq<string>) returns (calls: seq<(string, string)>)
      requires StrictlyAscending(moduleTypes)
      modifies this`modulePaths
      ensures forall t :: t in modulePaths <==> t in old(modulePaths) || t in moduleTypes
      ensures forall t :: t in old(modulePaths) ==> modulePaths[t] == old(modulePaths)[t]
      ensures forall t :: t in modulePaths && t !in old(modulePaths) ==> modulePaths[t] == ""
      ensures |calls| == |moduleTypes|
      ensures forall k :: 0 <= k < |calls| ==> calls[k] == (moduleTypes[k], modulePaths[moduleTypes[k]])
    {
      calls := [];
      var i := 0;
      while i < |moduleTypes|
        invariant 0 <= i <= |moduleTypes|
        invariant forall t :: t in modulePaths <==> t in old(modulePaths) || t in moduleTypes[..i]
        invariant forall t :: t in old(modulePaths) ==> modulePaths[t] == old(modulePaths)[t]
        invariant forall t :: t in modulePaths && t !in old(modulePaths) ==> modulePaths[t] == ""
        invariant |calls| == i
        invariant forall k :: 0 <= k < i ==> calls[k] == (moduleTypes[k], modulePaths[moduleTypes[k]])
      {
        var t := moduleTypes[i];
        assert moduleTypes[..i + 1] == moduleTypes[..i] + [t];
        if t !in modulePaths {
          modulePaths := modulePaths[t := ""];
        }
        calls := calls + [(t, modulePaths[t])];
        i := i + 1;
      }
      assert moduleTypes[..i] == moduleTypes;
    }
  }

  /** A fresh loader knows exactly the five module types. */
  method FreshLoaderTable(name: string) returns (loader: XmlFileLoader)
    ensures loader.modulePaths.Keys == {"Market", "Converter", "Region", "Inst", "Facility"}
    ensures loader.modulePaths["Inst"] == "/*/region/institution"
  {
    loader := new XmlFileLoader(name);
  }

  /** Loading a type absent from the table adds it with the empty query path. */
  method UnknownTypeGetsEmptyPath(name: string, t: string) returns (loader: XmlFileLoader, calls: seq<(string, string)>)
    requires t !in ModulePathTable
    ensures calls == [(t, "")]
    ensures loader.modulePaths == ModulePathTable[t := ""]
  {
    loader := new XmlFileLoader(name);
    calls := loader.LoadDynamicModules([t]);
    assert loader.modulePaths.Keys == ModulePathTable.Keys + {t};
  }
}
