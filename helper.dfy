/** The decoder of fixed-size TDX records (helper/tdx.go) and the stream
    operators of the helper package that the core composes, with every
    stream modelled as a finite sequence. */
module Helper {
  import opened Base

  // ---------------------------------------------------------------------
  // Path extension (filepath.Ext)
  // ---------------------------------------------------------------------

  /** The suffix of `path` from the last '.' of its final element on, or ""
      when the final element has no '.'. */
  function Ext(path: string): (e: string)
    decreases |path|
    ensures |e| <= |path| && e == path[|path| - |e|..]
    ensures e != [] ==> e[0] == '.'
    ensures forall k :: 1 <= k < |e| ==> e[k] != '.' && e[k] != Separator
    ensures e == [] ==> forall k :: 0 <= k < |path| && path[k] == '.' ==> Separator in path[k + 1..]
  {
    if path == [] || path[|path| - 1] == Separator then []
    else if path[|path| - 1] == '.' then ['.']
    else
      var e := Ext(path[..|path| - 1]);
      if e == [] then [] else e + [path[|path| - 1]]
  }

  /** Joining a directory in front of a plain file name does not change the
      file name's extension. */
  lemma {:induction false} ExtOfJoin(dir: string, file: string)
    requires Separator !in file
    ensures Ext(Join(dir, file)) == Ext(file)
    decreases |file|
  {
    var path := Join(dir, file);
    if file == [] {
      assert path[|path| - 1] == Separator;
    } else {
      var init := file[..|file| - 1];
      var last := file[|file| - 1];
      assert file == init + [last];
      assert Separator !in init;
      ExtOfJoin(dir, init);
      assert path == Join(dir, init) + [last];
      assert path[..|path| - 1] == Join(dir, init);
    }
  }

  // ---------------------------------------------------------------------
  // Fixed-record decoding (helper/tdx.go)
  // ---------------------------------------------------------------------

  /** Every record of a TDX file takes this many bytes. */
  const RecordSize: nat := 32

  /** The three record layouts: `dayBar`, `fiveBar` and `lcnBar`. */
  datatype Layout = DayBar | FiveBar | LcnBar

  /** One decoded record: the layout that reads it and its 32 raw bytes.
      The field layouts themselves are not part of this model. */
  datatype Record = Record(layout: Layout, raw: seq<bv8>)

  /** The layout an extension selects; `None` for an unsupported one. */
  function FormatOf(ext: string): Option<Layout> {
    if ext == ".day" then Some(DayBar)
    else if ext == ".5" then Some(FiveBar)
    else if ext == ".lc5" || ext == ".lc1" then Some(LcnBar)
    else None
  }

  /** Number of whole records in the file: the trailing partial record is
      never attempted. */
  function RecordCount(f: File): nat {
    |f.content| / RecordSize
  }

  /** Number of records read before the loop stops: all of them, or those
      before the first failing read. */
  function ReadLimit(f: File): (n: nat)
    ensures n <= RecordCount(f)
  {
    match f.readErrorAt
    case None => RecordCount(f)
    case Some(k) => if k < RecordCount(f) then k else RecordCount(f)
  }

  /** The `i`-th record of the file, read at byte offset `32 * i`. */
  function RecordAt(f: File, layout: Layout, i: nat): (r: Record)
    requires i < RecordCount(f)
    ensures |r.raw| == RecordSize
  {
    Record(layout, f.content[RecordSize * i .. RecordSize * i + RecordSize])
  }

  /** The first `n` records in file order, in the layout `ext` selects. */
  function Records(ext: string, f: File, n: nat): seq<Record>
    requires n <= RecordCount(f)
  {
    match FormatOf(ext)
    case None => []
    case Some(layout) => seq(n, i requires 0 <= i < n => RecordAt(f, layout, i))
  }

  /** What `ReadFromFile` emits for a file whose extension is `ext`. */
  function Decode(ext: string, f: File): seq<Record> {
    if !f.statOk then [] else Records(ext, f, ReadLimit(f))
  }

  /** What `ReadFromTdxFile` returns for `path`: the open error, or the
      records of the file decoded by the extension of `path`. */
  function ReadFile(disk: Disk, path: string): Result<seq<Record>, Error> {
    if path !in disk.files then Err(OpenFailed(path))
    else Ok(Decode(Ext(path), disk.files[path]))
  }

  /** The reader. It remembers the extension of the last file it opened. */
  class Tdx {
    var ext: string

    /** `NewTdx` */
    constructor ()
      ensures ext == ""
    {
      ext := "";
    }

    /** Opens `filePath`, captures its extension, and decodes it. */
    method Read(disk: Disk, filePath: string) returns (r: Result<seq<Record>, Error>)
      modifies this
      ensures ext == if filePath in disk.files then Ext(filePath) else old(ext)
      ensures r == ReadFile(disk, filePath)
    {
      if filePath !in disk.files {
        return Err(OpenFailed(filePath));
      }
      var file := disk.files[filePath];
      ext := Ext(filePath);
      var rows := ReadFromFile(file);
      r := Ok(rows);
    }

    /** Reads `size / 32` records one after another from the start of the
        file; an unsupported extension or a failed read ends the stream. */
    method ReadFromFile(file: File) returns (rows: seq<Record>)
      ensures rows == Decode(ext, file)
    {
      rows := [];
      if !file.statOk {
        return;
      }
      var count := |file.content| / RecordSize;
      var pos := 0;
      var i := 0;
      while i < count
        invariant 0 <= i <= ReadLimit(file)
        invariant pos == RecordSize * i
        invariant rows == Records(ext, file, i)
        decreases count - i
      {
        var layout;
        match FormatOf(ext) {
          case None => return;
          case Some(l) => layout := l;
        }
        if file.readErrorAt == Some(i) {
          return;
        }
        var bar := Record(layout, file.content[pos .. pos + RecordSize]);
        assert bar == RecordAt(file, layout, i);
        rows := rows + [bar];
        pos := pos + RecordSize;
        i := i + 1;
      }
    }
  }

  /** `ReadFromTdxFile`: a fresh reader reads `fileName`. */
  method ReadFromTdxFile(disk: Disk, fileName: string) returns (r: Result<seq<Record>, Error>)
    ensures r == ReadFile(disk, fileName)
  {
    var c := new Tdx();
    r := c.Read(disk, fileName);
  }

  /** A file of `k` whole records plus fewer than 32 trailing bytes yields
      exactly `k` records, in file order. */
  lemma DecodeCount(ext: string, f: File, k: nat, layout: Layout)
    requires f.statOk && f.readErrorAt == None
    requires FormatOf(ext) == Some(layout)
    requires RecordSize * k <= |f.content| < RecordSize * k + RecordSize
    ensures |Decode(ext, f)| == k
    ensures forall i :: 0 <= i < k ==>
      Decode(ext, f)[i] == Record(layout, f.content[RecordSize * i .. RecordSize * (i + 1)])
  {
    assert RecordCount(f) == k;
  }

  /** Bytes after the last whole record are ignored. */
  lemma TrailingBytesIgnored(ext: string, f: File, tail: seq<bv8>)
    requires |f.content| % RecordSize == 0 && |tail| < RecordSize
    ensures Decode(ext, f.(content := f.content + tail)) == Decode(ext, f)
  {
    var g := f.(content := f.content + tail);
    assert RecordCount(g) == RecordCount(f);
    if f.statOk && FormatOf(ext).Some? {
      var n := ReadLimit(f);
      forall i | 0 <= i < n
        ensures RecordAt(g, FormatOf(ext).value, i) == RecordAt(f, FormatOf(ext).value, i)
      {
        assert RecordSize * i + RecordSize <= |f.content|;
        assert g.content[RecordSize * i .. RecordSize * i + RecordSize]
            == f.content[RecordSize * i .. RecordSize * i + RecordSize];
      }
    }
  }

  /** Exactly the four extensions are supported, and `.lc5` and `.lc1`
      share one layout. */
  lemma SupportedExtensions(ext: string)
    ensures FormatOf(ext).Some? <==> ext in [".day", ".5", ".lc5", ".lc1"]
    ensures FormatOf(".lc5") == FormatOf(".lc1") == Some(LcnBar)
    ensures FormatOf(".day") == Some(DayBar) && FormatOf(".5") == Some(FiveBar)
  {
  }

  /** Any other extension yields no record, whatever the file holds. */
  lemma UnsupportedYieldsNothing(ext: string, f: File)
    requires FormatOf(ext) == None
    ensures Decode(ext, f) == []
  {
  }

  /** A failed read keeps exactly the records emitted before it; a failed
      `Stat` emits nothing. */
  lemma ReadErrorTruncates(ext: string, f: File, k: nat)
    ensures var clean := Decode(ext, f.(readErrorAt := None));
      Decode(ext, f.(readErrorAt := Some(k))) == if k < |clean| then clean[..k] else clean
    ensures Decode(ext, f.(statOk := false)) == []
  {
  }

  // ---------------------------------------------------------------------
  // Stream operators (helper.Filter, helper.Last)
  // ---------------------------------------------------------------------

  /** `helper.Filter`: the elements that satisfy `keep`, in order. */
  function Filter<T(==)>(s: seq<T>, keep: T -> bool): (r: seq<T>)
    ensures |r| <= |s|
    ensures forall k :: 0 <= k < |r| ==> keep(r[k]) && r[k] in s
    ensures forall x :: x in s && keep(x) ==> x in r
  {
    if s == [] then []
    else if keep(s[0]) then [s[0]] + Filter(s[1..], keep)
    else Filter(s[1..], keep)
  }

  /** Filtering keeps relative order: it distributes over concatenation. */
  lemma {:induction false} FilterConcat<T>(a: seq<T>, b: seq<T>, keep: T -> bool)
    ensures Filter(a + b, keep) == Filter(a, keep) + Filter(b, keep)
  {
    if a == [] {
      assert a + b == b;
    } else {
      assert (a + b)[0] == a[0];
      assert (a + b)[1..] == a[1..] + b;
      FilterConcat(a[1..], b, keep);
    }
  }

  /** A filter every element passes is the identity. */
  lemma {:induction false} FilterKeepsAll<T>(s: seq<T>, keep: T -> bool)
    requires forall k :: 0 <= k < |s| ==> keep(s[k])
    ensures Filter(s, keep) == s
  {
    if s != [] {
      FilterKeepsAll(s[1..], keep);
    }
  }

  /** `helper.Last`: the final `n` elements once the stream is exhausted,
      or all of them when there are fewer. */
  function Last<T>(s: seq<T>, n: nat): (r: seq<T>)
    ensures |r| == if |s| < n then |s| else n
    ensures r == s[|s| - |r|..]
  {
    if |s| <= n then s else s[|s| - n..]
  }
}
