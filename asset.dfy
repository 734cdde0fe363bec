/** The file-backed asset repository (asset/tdx_file_repository.go): asset
    names come from a directory listing, and an asset's snapshots from the
    TDX file the name resolves to. */
module Asset {
  import opened Base
  import opened Helper

  /** The values a decoded bar's accessors return: `Time()`, `Open()`,
      `High()`, `Low()`, `Close()` and `Volume()`, already widened to
      `float64`. How each layout computes them is not part of this model. */
  datatype Bar = Bar(time: Time, open: real, high: real, low: real, close: real, volume: real)

  /** `asset.Snapshot` */
  datatype Snapshot = Snapshot(date: Time, open: real, high: real, low: real, close: real, volume: real)

  /** The snapshot carries every accessor value of the bar. */
  predicate CopiedFrom(s: Snapshot, b: Bar) {
    s.date == b.time && s.open == b.open && s.high == b.high &&
    s.low == b.low && s.close == b.close && s.volume == b.volume
  }

  function ToSnapshot(b: Bar): (s: Snapshot)
    ensures CopiedFrom(s, b)
  {
    Snapshot(b.time, b.open, b.high, b.low, b.close, b.volume)
  }

  /** `strings.HasSuffix` */
  predicate HasSuffix(s: string, suffix: string) {
    |suffix| <= |s| && s[|s| - |suffix|..] == suffix
  }

  /** `strings.TrimSuffix` */
  function TrimSuffix(s: string, suffix: string): string {
    if HasSuffix(s, suffix) then s[..|s| - |suffix|] else s
  }

  /** The asset names a listing holds: the names ending in `ext`, in listing
      order, each without that suffix. */
  function AssetNames(files: seq<string>, ext: string): (names: seq<string>)
    decreases |files|
    ensures |names| <= |files|
  {
    if files == [] then []
    else
      var rest, name := files[..|files| - 1], files[|files| - 1];
      AssetNames(rest, ext) + if HasSuffix(name, ext) then [TrimSuffix(name, ext)] else []
  }

  /** Every asset name, with `ext` put back, is a listed file name. */
  lemma {:induction false} AssetNamesSound(files: seq<string>, ext: string)
    ensures forall k :: 0 <= k < |AssetNames(files, ext)| ==> AssetNames(files, ext)[k] + ext in files
    decreases |files|
  {
    if files != [] {
      var rest, name := files[..|files| - 1], files[|files| - 1];
      AssetNamesSound(rest, ext);
      var names := AssetNames(rest, ext);
      forall k | 0 <= k < |AssetNames(files, ext)| ensures AssetNames(files, ext)[k] + ext in files {
        if k < |names| {
          assert AssetNames(files, ext)[k] == names[k];
          var j :| 0 <= j < |rest| && rest[j] == names[k] + ext;
          assert files[j] == rest[j];
        } else {
          assert HasSuffix(name, ext);
          assert AssetNames(files, ext)[k] == TrimSuffix(name, ext);
          assert TrimSuffix(name, ext) + ext == name;
        }
      }
    }
  }

  /** Every listed name that ends in `ext` appears, stripped, among the
      asset names. */
  lemma {:induction false} AssetNamesComplete(files: seq<string>, ext: string, n: string)
    requires n in files && HasSuffix(n, ext)
    ensures TrimSuffix(n, ext) in AssetNames(files, ext)
    decreases |files|
  {
    var rest := files[..|files| - 1];
    if files[|files| - 1] != n {
      var j :| 0 <= j < |files| && files[j] == n;
      assert rest[j] == n;
      AssetNamesComplete(rest, ext, n);
    }
  }

  /** The listing is processed in order: the names of a concatenation are
      the names of its parts, concatenated. */
  lemma {:induction false} AssetNamesConcat(a: seq<string>, b: seq<string>, ext: string)
    ensures AssetNames(a + b, ext) == AssetNames(a, ext) + AssetNames(b, ext)
    decreases |b|
  {
    if b == [] {
      assert a + b == a;
    } else {
      var init := b[..|b| - 1];
      assert (a + b)[..|a + b| - 1] == a + init;
      assert (a + b)[|a + b| - 1] == b[|b| - 1];
      AssetNamesConcat(a, init, ext);
    }
  }

  /** With an empty extension every listed name is an asset name, unchanged. */
  lemma {:induction false} AssetNamesWithoutSuffix(files: seq<string>)
    ensures AssetNames(files, "") == files
    decreases |files|
  {
    if files != [] {
      var rest, name := files[..|files| - 1], files[|files| - 1];
      AssetNamesWithoutSuffix(rest);
      assert name[..|name|] == name;
      assert AssetNames(files, "") == AssetNames(rest, "") + [name];
      assert rest + [name] == files;
    }
  }

  /** Keeps the snapshots dated `date` or later. */
  function Since(date: Time): Snapshot -> bool {
    (s: Snapshot) => s.date.NotBefore(date)
  }

  /** `TdxFileRepository`: the base directory and the file extension. */
  datatype Repository = Repository(base: string, ext: string) {

    /** `getTdxFileName`: where the file of asset `name` lives. */
    function FileName(name: string): string {
      Join(base, name + ext)
    }

    /** Lists the base directory and keeps the names ending in `ext`,
        stripped of it, in listing order. */
    method Assets(disk: Disk) returns (r: Result<seq<string>, Error>)
      ensures base !in disk.dirs ==> r == Err(ReadDirFailed(base))
      ensures base in disk.dirs ==> r == Ok(AssetNames(disk.dirs[base], ext))
    {
      if base !in disk.dirs {
        return Err(ReadDirFailed(base));
      }
      var files := disk.dirs[base];
      var assets := [];
      var suffix := ext;
      for i := 0 to |files|
        invariant assets == AssetNames(files[..i], suffix)
      {
        var name := files[i];
        assert files[..i + 1][..i] == files[..i];
        if HasSuffix(name, suffix) {
          assets := assets + [TrimSuffix(name, suffix)];
        }
      }
      assert files[..|files|] == files;
      return Ok(assets);
    }

    /** The snapshots of asset `name`: one per decoded bar, in file order,
        or the error opening its file. */
    function Get(disk: Disk, layout: Record -> Bar, name: string): (r: Result<seq<Snapshot>, Error>)
      ensures ReadFile(disk, FileName(name)).Err? ==> r == Err(ReadFile(disk, FileName(name)).error)
      ensures ReadFile(disk, FileName(name)).Ok? ==>
        var bars := ReadFile(disk, FileName(name)).value;
        r.Ok? && |r.value| == |bars| &&
        forall i :: 0 <= i < |bars| ==> CopiedFrom(r.value[i], layout(bars[i]))
    {
      match ReadFile(disk, FileName(name))
      case Err(e) => Err(e)
      case Ok(bars) => Ok(seq(|bars|, i requires 0 <= i < |bars| => ToSnapshot(layout(bars[i]))))
    }

    /** The snapshots of `Get` dated `date` or later, in their order. */
    function GetSince(disk: Disk, layout: Record -> Bar, name: string, date: Time): (r: Result<seq<Snapshot>, Error>)
      ensures Get(disk, layout, name).Err? ==> r == Err(Get(disk, layout, name).error)
      ensures Get(disk, layout, name).Ok? ==>
        var all := Get(disk, layout, name).value;
        r.Ok? &&
        (forall k :: 0 <= k < |r.value| ==> r.value[k].date.NotBefore(date) && r.value[k] in all) &&
        (forall s :: s in all && s.date.NotBefore(date) ==> s in r.value)
    {
      match Get(disk, layout, name)
      case Err(e) => Err(e)
      case Ok(snapshots) => Ok(Filter(snapshots, Since(date)))
    }

    /** The date of the final snapshot of `Get`; `EmptyAsset` when there is
        none. */
    function LastDate(disk: Disk, layout: Record -> Bar, name: string): (r: Result<Time, Error>)
      ensures Get(disk, layout, name).Err? ==> r == Err(Get(disk, layout, name).error)
      ensures Get(disk, layout, name) == Ok([]) ==> r == Err(EmptyAsset)
      ensures Get(disk, layout, name).Ok? && Get(disk, layout, name).value != [] ==>
        var all := Get(disk, layout, name).value;
        r == Ok(all[|all| - 1].date)
    {
      match Get(disk, layout, name)
      case Err(e) => Err(e)
      case Ok(snapshots) =>
        var last := Last(snapshots, 1);
        if |last| == 0 then Err(EmptyAsset) else Ok(last[0].date)
    }

    /** Appending is not supported: the result is always that error. */
    function Append(name: string, snapshots: seq<Snapshot>): (err: Option<Error>)
      ensures err == Some(Unsupported)
    {
      Some(Unsupported)
    }
  }

  /** `NewTdxFileRepository`: keeps `base` and drops `ext`. */
  function NewTdxFileRepository(base: string, ext: string): (r: Repository)
    ensures r.base == base && r.ext == ""
  {
    Repository(base, "")
  }

  /** A listed name ending in the repository's extension resolves, through
      its stripped asset name, back to its own file in the base directory. */
  lemma ListedNameRoundTrip(repo: Repository, n: string)
    requires HasSuffix(n, repo.ext)
    ensures repo.FileName(TrimSuffix(n, repo.ext)) == Join(repo.base, n)
  {
    assert TrimSuffix(n, repo.ext) + repo.ext == n;
  }

  /** A repository built by `NewTdxFileRepository` lists every file of its
      base directory unchanged, and reading a listed asset decodes that file
      by the file name's own extension. */
  lemma NewRepositoryReadsListedFiles(base: string, ext: string, disk: Disk, n: string)
    requires Separator !in n
    ensures var repo := NewTdxFileRepository(base, ext);
      && (base in disk.dirs ==> AssetNames(disk.dirs[base], repo.ext) == disk.dirs[base])
      && repo.FileName(n) == Join(base, n)
      && ReadFile(disk, repo.FileName(n)) ==
           if Join(base, n) in disk.files then Ok(Decode(Ext(n), disk.files[Join(base, n)]))
           else Err(OpenFailed(Join(base, n)))
  {
    var repo := NewTdxFileRepository(base, ext);
    if base in disk.dirs {
      AssetNamesWithoutSuffix(disk.dirs[base]);
    }
    assert n + "" == n;
    ExtOfJoin(base, n);
  }

  /** When every snapshot is dated `date` or later, `GetSince` is `Get`. */
  lemma GetSinceAllLater(repo: Repository, disk: Disk, layout: Record -> Bar, name: string, date: Time)
    requires repo.Get(disk, layout, name).Ok?
    requires var all := repo.Get(disk, layout, name).value;
      forall k :: 0 <= k < |all| ==> all[k].date.NotBefore(date)
    ensures repo.GetSince(disk, layout, name, date) == repo.Get(disk, layout, name)
  {
    FilterKeepsAll(repo.Get(disk, layout, name).value, Since(date));
  }

  /** `GetSince` keeps relative order: the kept snapshots of a prefix come
      before those of the rest. */
  lemma GetSinceKeepsOrder(repo: Repository, disk: Disk, layout: Record -> Bar, name: string, date: Time, cut: nat)
    requires repo.Get(disk, layout, name).Ok?
    requires cut <= |repo.Get(disk, layout, name).value|
    ensures var all := repo.Get(disk, layout, name).value;
      repo.GetSince(disk, layout, name, date) ==
        Ok(Filter(all[..cut], Since(date)) + Filter(all[cut..], Since(date)))
  {
    var all := repo.Get(disk, layout, name).value;
    assert all[..cut] + all[cut..] == all;
    FilterConcat(all[..cut], all[cut..], Since(date));
  }
}
