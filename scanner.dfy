/**
 * The directory scanner: one level of a directory is listed, directories and
 * non-executable files are dropped, and each remaining file is paired with
 * the place its metadata lives (a `.yaml` sidecar next to it, or the file
 * itself). Non-fatal problems go to a per-scanner error log.
 *
 * The filesystem is an input. What `read_dir` yields is a `Listing`; what
 * `exists` followed by `fs::metadata` says about a sidecar is given by a
 * status oracle `Path -> SidecarStatus`.
 */
module Scanner {
  import opened Wrappers
  import opened Paths

  /** An operating-system error, known here only by its description. */
  datatype OsError = OsError(description: string)

  /** Where a tool's metadata is to be found. */
  datatype MetadataSource =
    | Embedded(path: Path)   // inside the executable itself
    | Sidecar(path: Path)    // in a separate `.yaml` file next to it

  /** One tool found by a scan. */
  datatype DiscoveredTool = DiscoveredTool(executablePath: Path, metadataSource: MetadataSource)

  /** The errors a scan produces. */
  datatype ScanError =
    | IoError(cause: OsError)
    | PermissionDenied(path: Path)

  /** One item yielded while iterating a directory listing. */
  datatype Entry =
    | UnreadableEntry(cause: OsError)
    | File(path: Path, isDir: bool, isExecutable: bool)

  /** The outcome of listing a directory. */
  datatype Listing =
    | ListFailed(cause: OsError)
    | Listed(entries: seq<Entry>)

  /**
   * What the two filesystem calls on a candidate sidecar path report:
   * `Path::exists` first, then `fs::metadata`. Since `exists` is itself
   * `fs::metadata(p).is_ok()`, a sidecar that is there but cannot be stat'ed
   * is `Absent`. `Inaccessible` arises only when the second `fs::metadata`
   * fails after `exists` succeeded: the file, or a directory on its path
   * (its search permission, say), changed in between, or the second call
   * failed transiently (an I/O error on a network filesystem, say).
   */
  datatype SidecarStatus =
    | Absent        // `exists` is false: no such path, or its metadata cannot be read
    | Accessible    // `exists` is true and the following `fs::metadata` succeeds
    | Inaccessible  // `exists` is true but the following `fs::metadata` fails

  /** The status given the outcomes of `exists` and of the `fs::metadata` call after it. */
  function ObservedStatus(existsOk: bool, metadataOk: bool): SidecarStatus
  {
    if !existsOk then Absent else if metadataOk then Accessible else Inaccessible
  }

  /**
   * The statuses seen when `fs::metadata` gives the same answer on both
   * calls: nothing on the sidecar's path changes during the scan and no call
   * fails transiently. `statable(p)` is whether `fs::metadata(p)` succeeds,
   * and both calls see it.
   */
  function UnchangingSidecars(statable: Path -> bool): Path -> SidecarStatus
  {
    p => ObservedStatus(statable(p), statable(p))
  }

  /** The sidecar candidate of an executable: its path with extension `yaml`. */
  function SidecarPath(executable: Path): Path
  {
    WithExtension(executable, "yaml")
  }

  /** The metadata source chosen for `executable` given its sidecar's status. */
  function ResolveSource(executable: Path, status: SidecarStatus): (m: MetadataSource)
    ensures m.Sidecar? <==> status == Accessible
    ensures m.Embedded? ==> m.path == executable
    ensures m.Sidecar? ==> m.path == SidecarPath(executable)
  {
    match status
    case Accessible => Sidecar(SidecarPath(executable))
    case Inaccessible => Embedded(executable)
    case Absent => Embedded(executable)
  }

  /** The errors logged while resolving the metadata source of `executable`. */
  function SidecarErrors(executable: Path, status: SidecarStatus): (errs: seq<ScanError>)
    ensures |errs| <= 1
    ensures errs != [] <==> status == Inaccessible
    ensures errs != [] ==> errs[0] == PermissionDenied(SidecarPath(executable))
  {
    if status == Inaccessible then [PermissionDenied(SidecarPath(executable))] else []
  }

  /** The tool a scan reports for the executable at `path`. */
  function ToolFor(path: Path, sidecar: Path -> SidecarStatus): DiscoveredTool
  {
    DiscoveredTool(path, ResolveSource(path, sidecar(SidecarPath(path))))
  }

  /** An entry that becomes a tool: readable, not a directory, executable. */
  predicate Accepted(e: Entry)
  {
    e.File? && !e.isDir && e.isExecutable
  }

  /** The tools one entry contributes. */
  function EntryTools(e: Entry, sidecar: Path -> SidecarStatus): seq<DiscoveredTool>
  {
    if Accepted(e) then [ToolFor(e.path, sidecar)] else []
  }

  /** The errors one entry contributes to the log. */
  function EntryErrors(e: Entry, sidecar: Path -> SidecarStatus): seq<ScanError>
  {
    match e
    case UnreadableEntry(cause) => [IoError(cause)]
    case File(path, _, _) =>
      if Accepted(e) then SidecarErrors(path, sidecar(SidecarPath(path))) else []
  }

  /** The tools a successful scan of `entries` returns, in listing order. */
  function Discover(entries: seq<Entry>, sidecar: Path -> SidecarStatus): seq<DiscoveredTool>
  {
    if entries == [] then []
    else Discover(entries[..|entries| - 1], sidecar) + EntryTools(entries[|entries| - 1], sidecar)
  }

  /** The errors a successful scan of `entries` appends to the log, in order. */
  function ScanLog(entries: seq<Entry>, sidecar: Path -> SidecarStatus): seq<ScanError>
  {
    if entries == [] then []
    else ScanLog(entries[..|entries| - 1], sidecar) + EntryErrors(entries[|entries| - 1], sidecar)
  }

  /** Number of accepted entries. */
  function CountAccepted(entries: seq<Entry>): nat
  {
    if entries == [] then 0
    else CountAccepted(entries[..|entries| - 1]) + (if Accepted(entries[|entries| - 1]) then 1 else 0)
  }

  /** Number of entries that could not be read. */
  function CountUnreadable(entries: seq<Entry>): nat
  {
    if entries == [] then 0
    else CountUnreadable(entries[..|entries| - 1]) + (if entries[|entries| - 1].UnreadableEntry? then 1 else 0)
  }

  /** Number of accepted entries whose sidecar `exists` but whose following `fs::metadata` fails. */
  function CountInaccessibleSidecars(entries: seq<Entry>, sidecar: Path -> SidecarStatus): nat
  {
    if entries == [] then 0
    else
      var e := entries[|entries| - 1];
      CountInaccessibleSidecars(entries[..|entries| - 1], sidecar)
        + (if Accepted(e) && sidecar(SidecarPath(e.path)) == Inaccessible then 1 else 0)
  }

  /** A scan returns one tool per accepted entry. */
  lemma {:induction false} DiscoverLength(entries: seq<Entry>, sidecar: Path -> SidecarStatus)
    ensures |Discover(entries, sidecar)| == CountAccepted(entries)
  {
    if entries != [] {
      DiscoverLength(entries[..|entries| - 1], sidecar);
    }
  }

  /**
   * The accepted entry at index `k` appears in the result at the position
   * given by the number of accepted entries before it: the result keeps
   * listing order and carries that entry's own path.
   */
  lemma {:induction false} DiscoverPosition(entries: seq<Entry>, sidecar: Path -> SidecarStatus, k: nat)
    requires k < |entries| && Accepted(entries[k])
    ensures CountAccepted(entries[..k]) < |Discover(entries, sidecar)|
    ensures Discover(entries, sidecar)[CountAccepted(entries[..k])] == ToolFor(entries[k].path, sidecar)
  {
    var init := entries[..|entries| - 1];
    DiscoverLength(init, sidecar);
    if k == |entries| - 1 {
      assert entries[..k] == init;
    } else {
      assert entries[..k] == init[..k];
      DiscoverPosition(init, sidecar, k);
    }
  }

  /** Every tool a scan returns comes from an accepted entry, with that entry's path. */
  lemma {:induction false} DiscoverSound(entries: seq<Entry>, sidecar: Path -> SidecarStatus, t: DiscoveredTool)
    requires t in Discover(entries, sidecar)
    ensures exists k :: 0 <= k < |entries| && Accepted(entries[k]) && t == ToolFor(entries[k].path, sidecar)
  {
    var init := entries[..|entries| - 1];
    if t in Discover(init, sidecar) {
      DiscoverSound(init, sidecar, t);
      var k :| 0 <= k < |init| && Accepted(init[k]) && t == ToolFor(init[k].path, sidecar);
      assert entries[k] == init[k];
    } else {
      assert t in EntryTools(entries[|entries| - 1], sidecar);
    }
  }

  /**
   * A directory, or a file whose executable check fails, is never reported,
   * provided no other entry of the listing has the same path (a directory
   * listing names each child once).
   */
  lemma ExcludedNeverDiscovered(entries: seq<Entry>, sidecar: Path -> SidecarStatus, k: nat)
    requires k < |entries| && entries[k].File? && (entries[k].isDir || !entries[k].isExecutable)
    requires forall j :: 0 <= j < |entries| && j != k && entries[j].File? ==> entries[j].path != entries[k].path
    ensures forall t :: t in Discover(entries, sidecar) ==> t.executablePath != entries[k].path
  {
    forall t | t in Discover(entries, sidecar)
      ensures t.executablePath != entries[k].path
    {
      DiscoverSound(entries, sidecar, t);
    }
  }

  /**
   * The log grows by one error per unreadable entry and one per accepted
   * entry whose sidecar is `Inaccessible`.
   */
  lemma {:induction false} ScanLogLength(entries: seq<Entry>, sidecar: Path -> SidecarStatus)
    ensures |ScanLog(entries, sidecar)| == CountUnreadable(entries) + CountInaccessibleSidecars(entries, sidecar)
  {
    if entries != [] {
      ScanLogLength(entries[..|entries| - 1], sidecar);
    }
  }

  /**
   * `err` is the error entry `e` gives rise to: the cause of an unreadable
   * entry, or a `PermissionDenied` naming the sidecar of an accepted entry
   * whose sidecar is `Inaccessible`.
   */
  predicate Explains(e: Entry, sidecar: Path -> SidecarStatus, err: ScanError)
  {
    (e.UnreadableEntry? && err == IoError(e.cause)) ||
    (Accepted(e) && sidecar(SidecarPath(e.path)) == Inaccessible && err == PermissionDenied(SidecarPath(e.path)))
  }

  /**
   * Every logged error is either the cause of an unreadable entry or a
   * `PermissionDenied` naming the sidecar of an accepted entry whose sidecar
   * is `Inaccessible`.
   */
  lemma {:induction false} ScanLogSound(entries: seq<Entry>, sidecar: Path -> SidecarStatus, err: ScanError)
    requires err in ScanLog(entries, sidecar)
    ensures exists k :: 0 <= k < |entries| && Explains(entries[k], sidecar, err)
  {
    var init := entries[..|entries| - 1];
    if err in ScanLog(init, sidecar) {
      ScanLogSound(init, sidecar, err);
      var k :| 0 <= k < |init| && Explains(init[k], sidecar, err);
      assert entries[k] == init[k];
    } else {
      assert err in EntryErrors(entries[|entries| - 1], sidecar);
    }
  }

  /**
   * When `fs::metadata` gives the same answer on both calls (nothing on the
   * sidecar's path changes and no call fails transiently), no
   * `PermissionDenied` is ever logged: `exists` already fails for a sidecar
   * whose metadata cannot be read, so the `fs::metadata` call after it never
   * fails. Every logged error is then the cause of an unreadable entry.
   */
  lemma {:induction false} UnchangingFilesystemNeverDenies(entries: seq<Entry>, statable: Path -> bool)
    ensures CountInaccessibleSidecars(entries, UnchangingSidecars(statable)) == 0
    ensures forall err :: err in ScanLog(entries, UnchangingSidecars(statable)) ==> err.IoError?
  {
    if entries != [] {
      UnchangingFilesystemNeverDenies(entries[..|entries| - 1], statable);
      var e := entries[|entries| - 1];
      if e.File? {
        var sidecarPath := SidecarPath(e.path);
        assert UnchangingSidecars(statable)(sidecarPath) == ObservedStatus(statable(sidecarPath), statable(sidecarPath));
      }
    }
  }

  /** Scanning a concatenated listing gives the concatenated tools. */
  lemma {:induction false} DiscoverAppend(a: seq<Entry>, b: seq<Entry>, sidecar: Path -> SidecarStatus)
    ensures Discover(a + b, sidecar) == Discover(a, sidecar) + Discover(b, sidecar)
  {
    if b == [] {
      assert a + b == a;
    } else {
      var b', e := b[..|b| - 1], b[|b| - 1];
      assert (a + b)[..|a + b| - 1] == a + b' && (a + b)[|a + b| - 1] == e;
      assert Discover(b, sidecar) == Discover(b', sidecar) + EntryTools(e, sidecar);
      calc {
        Discover(a + b, sidecar);
        Discover(a + b', sidecar) + EntryTools(e, sidecar);
        { DiscoverAppend(a, b', sidecar); }
        Discover(a, sidecar) + Discover(b', sidecar) + EntryTools(e, sidecar);
        Discover(a, sidecar) + Discover(b, sidecar);
      }
    }
  }

  /** Scanning a concatenated listing logs the concatenated errors. */
  lemma {:induction false} ScanLogAppend(a: seq<Entry>, b: seq<Entry>, sidecar: Path -> SidecarStatus)
    ensures ScanLog(a + b, sidecar) == ScanLog(a, sidecar) + ScanLog(b, sidecar)
  {
    if b == [] {
      assert a + b == a;
    } else {
      var b', e := b[..|b| - 1], b[|b| - 1];
      assert (a + b)[..|a + b| - 1] == a + b' && (a + b)[|a + b| - 1] == e;
      assert ScanLog(b, sidecar) == ScanLog(b', sidecar) + EntryErrors(e, sidecar);
      calc {
        ScanLog(a + b, sidecar);
        ScanLog(a + b', sidecar) + EntryErrors(e, sidecar);
        { ScanLogAppend(a, b', sidecar); }
        ScanLog(a, sidecar) + ScanLog(b', sidecar) + EntryErrors(e, sidecar);
        ScanLog(a, sidecar) + ScanLog(b, sidecar);
      }
    }
  }

  /**
   * Each entry is handled on its own: wherever it stands in the listing, it
   * adds its own tools and errors between those of the entries before it and
   * those of the entries after it.
   */
  lemma EntryInContext(before: seq<Entry>, e: Entry, after: seq<Entry>, sidecar: Path -> SidecarStatus)
    ensures Discover(before + [e] + after, sidecar)
         == Discover(before, sidecar) + EntryTools(e, sidecar) + Discover(after, sidecar)
    ensures ScanLog(before + [e] + after, sidecar)
         == ScanLog(before, sidecar) + EntryErrors(e, sidecar) + ScanLog(after, sidecar)
  {
    var single := [e];
    assert Discover(single, sidecar) == EntryTools(e, sidecar) by { assert single[..0] == []; }
    assert ScanLog(single, sidecar) == EntryErrors(e, sidecar) by { assert single[..0] == []; }
    DiscoverAppend(before, single, sidecar);
    DiscoverAppend(before + single, after, sidecar);
    ScanLogAppend(before, single, sidecar);
    ScanLogAppend(before + single, after, sidecar);
  }

  /**
   * An entry that cannot be read is skipped: it adds exactly its own
   * `IoError` to the log, and the entries after it are still scanned.
   */
  lemma UnreadableEntrySkipped(before: seq<Entry>, cause: OsError, after: seq<Entry>, sidecar: Path -> SidecarStatus)
    ensures Discover(before + [UnreadableEntry(cause)] + after, sidecar)
         == Discover(before, sidecar) + Discover(after, sidecar)
    ensures ScanLog(before + [UnreadableEntry(cause)] + after, sidecar)
         == ScanLog(before, sidecar) + [IoError(cause)] + ScanLog(after, sidecar)
  {
    EntryInContext(before, UnreadableEntry(cause), after, sidecar);
    assert Discover(before, sidecar) + [] == Discover(before, sidecar);
  }

  /**
   * A directory or a non-executable file is skipped wherever it stands: it
   * adds no tool and no error, and the entries after it are still scanned.
   */
  lemma ExcludedEntrySkipped(before: seq<Entry>, e: Entry, after: seq<Entry>, sidecar: Path -> SidecarStatus)
    requires e.File? && (e.isDir || !e.isExecutable)
    ensures Discover(before + [e] + after, sidecar) == Discover(before, sidecar) + Discover(after, sidecar)
    ensures ScanLog(before + [e] + after, sidecar) == ScanLog(before, sidecar) + ScanLog(after, sidecar)
  {
    EntryInContext(before, e, after, sidecar);
    assert Discover(before, sidecar) + [] == Discover(before, sidecar);
    assert ScanLog(before, sidecar) + [] == ScanLog(before, sidecar);
  }

  /** A listing of directories and non-executable files yields no tool and no error. */
  lemma {:induction false} NothingToDiscover(entries: seq<Entry>, sidecar: Path -> SidecarStatus)
    requires forall k :: 0 <= k < |entries| ==> entries[k].File? && (entries[k].isDir || !entries[k].isExecutable)
    ensures Discover(entries, sidecar) == [] && ScanLog(entries, sidecar) == []
  {
    if entries != [] {
      NothingToDiscover(entries[..|entries| - 1], sidecar);
    }
  }

  /**
   * An executable whose sidecar is `Inaccessible` is still reported, with
   * embedded metadata, and its `PermissionDenied` is logged at its own
   * position in the listing.
   */
  lemma InaccessibleSidecarLogged(before: seq<Entry>, path: Path, after: seq<Entry>, sidecar: Path -> SidecarStatus)
    requires sidecar(SidecarPath(path)) == Inaccessible
    ensures Discover(before + [File(path, false, true)] + after, sidecar)
         == Discover(before, sidecar) + [DiscoveredTool(path, Embedded(path))] + Discover(after, sidecar)
    ensures ScanLog(before + [File(path, false, true)] + after, sidecar)
         == ScanLog(before, sidecar) + [PermissionDenied(SidecarPath(path))] + ScanLog(after, sidecar)
  {
    EntryInContext(before, File(path, false, true), after, sidecar);
  }

  /** A `Sidecar` source always names a path whose extension is `yaml`. */
  lemma SidecarIsYaml(executable: Path, status: SidecarStatus)
    requires HasFileName(executable)
    requires ResolveSource(executable, status).Sidecar?
    ensures Extension(ResolveSource(executable, status).path) == Some("yaml")
    ensures FileStem(ResolveSource(executable, status).path) == FileStem(executable)
  {
    WithExtensionSetsExtension(executable, "yaml");
  }

  /** A name without a dot keeps all of it: the sidecar of `name` is `name.yaml`. */
  lemma SidecarOfPlainName(dir: string, name: string)
    requires name != "" && '.' !in name
    ensures SidecarPath(Path(dir, name)) == Path(dir, name + ".yaml")
  {
  }

  /**
   * The last extension is replaced: the sidecar of `stem.ext` is
   * `stem.yaml`, whatever dots `stem` itself holds.
   */
  lemma SidecarReplacesExtension(dir: string, stem: string, ext: string)
    requires stem != "" && '.' !in ext && stem + "." + ext != ".."
    ensures SidecarPath(Path(dir, stem + "." + ext)) == Path(dir, stem + ".yaml")
  {
    LastDotOfSuffixFree(stem, ext);
    assert (stem + "." + ext)[..|stem|] == stem;
  }

  /** A leading dot starts no extension: the sidecar of `.name` is `.name.yaml`. */
  lemma SidecarOfHiddenName(dir: string, name: string)
    requires name != "" && '.' !in name
    ensures SidecarPath(Path(dir, "." + name)) == Path(dir, "." + name + ".yaml")
  {
    LastDotOfSuffixFree("", name);
    assert "" + "." + name == "." + name;
  }

  /**
   * The directory every scanner test sets up, in creation order:
   * `test_script` (executable) with its sidecar `test_script.yaml` (not
   * executable), `standalone_tool` (executable, no sidecar),
   * `windows_tool.exe` and `readme.txt` (neither executable) and the
   * directory `subdir`.
   */
  function TestListing(dir: string): seq<Entry>
  {
    [File(Path(dir, "test_script"), false, true), File(Path(dir, "test_script.yaml"), false, false),
     File(Path(dir, "standalone_tool"), false, true), File(Path(dir, "windows_tool.exe"), false, false),
     File(Path(dir, "readme.txt"), false, false), File(Path(dir, "subdir"), true, true)]
  }

  /** The paths whose metadata can be read once that directory is set up. */
  function TestFiles(dir: string): Path -> bool
  {
    (p: Path) => p.dir == dir && (p.name == "test_script" || p.name == "test_script.yaml" || p.name == "standalone_tool"
                                || p.name == "windows_tool.exe" || p.name == "readme.txt" || p.name == "subdir")
  }

  /** The sidecar statuses of that directory when `fs::metadata` gives the same answer on both calls. */
  function TestSidecars(dir: string): Path -> SidecarStatus
  {
    UnchangingSidecars(TestFiles(dir))
  }

  /** In the test directory, `test_script` is a tool with its sidecar and logs nothing. */
  lemma TestScriptEntry(dir: string)
    ensures var script := Path(dir, "test_script");
      EntryTools(File(script, false, true), TestSidecars(dir)) == [DiscoveredTool(script, Sidecar(Path(dir, "test_script.yaml")))]
      && EntryErrors(File(script, false, true), TestSidecars(dir)) == []
  {
    var yaml := Path(dir, "test_script.yaml");
    assert SidecarPath(Path(dir, "test_script")) == yaml by { LastDotAbsent("test_script"); }
    assert TestSidecars(dir)(yaml) == ObservedStatus(TestFiles(dir)(yaml), TestFiles(dir)(yaml)) == Accessible;
  }

  /** In the test directory, `standalone_tool` is a tool with embedded metadata and logs nothing. */
  lemma StandaloneToolEntry(dir: string)
    ensures var standalone := Path(dir, "standalone_tool");
      EntryTools(File(standalone, false, true), TestSidecars(dir)) == [DiscoveredTool(standalone, Embedded(standalone))]
      && EntryErrors(File(standalone, false, true), TestSidecars(dir)) == []
  {
    var yaml := Path(dir, "standalone_tool.yaml");
    assert SidecarPath(Path(dir, "standalone_tool")) == yaml by { LastDotAbsent("standalone_tool"); }
    assert TestSidecars(dir)(yaml) == ObservedStatus(TestFiles(dir)(yaml), TestFiles(dir)(yaml)) == Absent;
  }

  /**
   * The first three entries of the test directory: `test_script`, its
   * sidecar and `standalone_tool` give the two tools and no error.
   */
  lemma TestDirectoryTools(dir: string)
    ensures var script, standalone := Path(dir, "test_script"), Path(dir, "standalone_tool");
      var entries := [File(script, false, true), File(Path(dir, "test_script.yaml"), false, false), File(standalone, false, true)];
      Discover(entries, TestSidecars(dir))
        == [DiscoveredTool(script, Sidecar(Path(dir, "test_script.yaml"))), DiscoveredTool(standalone, Embedded(standalone))]
      && ScanLog(entries, TestSidecars(dir)) == []
  {
    var sidecar := TestSidecars(dir);
    var script, yaml, standalone := Path(dir, "test_script"), Path(dir, "test_script.yaml"), Path(dir, "standalone_tool");
    var e0, e1, e2 := File(script, false, true), File(yaml, false, false), File(standalone, false, true);
    var p1, p2, p3 := [e0], [e0, e1], [e0, e1, e2];
    assert p1[..0] == [] && p2[..1] == p1 && p3[..2] == p2;
    TestScriptEntry(dir);
    StandaloneToolEntry(dir);
    assert Discover(p1, sidecar) == [DiscoveredTool(script, Sidecar(yaml))] && ScanLog(p1, sidecar) == [];
    assert Discover(p2, sidecar) == Discover(p1, sidecar) && ScanLog(p2, sidecar) == [];
  }

  /**
   * Scanning the test directory finds exactly two tools: `test_script` with
   * its sidecar and `standalone_tool` with embedded metadata. The sidecar
   * itself is not reported, and nothing is logged.
   */
  lemma TestDirectory(dir: string)
    ensures Discover(TestListing(dir), TestSidecars(dir))
         == [DiscoveredTool(Path(dir, "test_script"), Sidecar(Path(dir, "test_script.yaml"))),
             DiscoveredTool(Path(dir, "standalone_tool"), Embedded(Path(dir, "standalone_tool")))]
    ensures ScanLog(TestListing(dir), TestSidecars(dir)) == []
  {
    var head := [File(Path(dir, "test_script"), false, true), File(Path(dir, "test_script.yaml"), false, false),
                 File(Path(dir, "standalone_tool"), false, true)];
    var tail := [File(Path(dir, "windows_tool.exe"), false, false), File(Path(dir, "readme.txt"), false, false),
                 File(Path(dir, "subdir"), true, true)];
    assert head + tail == TestListing(dir);
    TestDirectoryTools(dir);
    NothingToDiscover(tail, TestSidecars(dir));
    DiscoverAppend(head, tail, TestSidecars(dir));
    ScanLogAppend(head, tail, TestSidecars(dir));
  }

  /**
   * The scanner: its one piece of state is the log of non-fatal errors,
   * which scans append to and which callers may drain or inspect.
   */
  class DirectoryScanner {
    var errors: seq<ScanError>

    /** A scanner with an empty error log. */
    constructor ()
      ensures errors == []
    {
      errors := [];
    }

    /** The `Default` implementation: the same as the constructor. */
    static method Default() returns (s: DirectoryScanner)
      ensures fresh(s) && s.errors == []
    {
      s := new DirectoryScanner();
    }

    /**
     * Scans one directory level. A listing that fails is a fatal error and
     * leaves the log alone; otherwise every entry is visited in order.
     */
    method ScanDirectory(listing: Listing, sidecar: Path -> SidecarStatus)
      returns (r: Result<seq<DiscoveredTool>, ScanError>)
      modifies this
      ensures listing.ListFailed? ==> r == Err(IoError(listing.cause)) && errors == old(errors)
      ensures listing.Listed? ==> r == Ok(Discover(listing.entries, sidecar))
      ensures listing.Listed? ==> errors == old(errors) + ScanLog(listing.entries, sidecar)
    {
      if listing.ListFailed? {
        return Err(IoError(listing.cause));
      }
      var entries := listing.entries;
      var discovered: seq<DiscoveredTool> := [];
      for i := 0 to |entries|
        invariant discovered == Discover(entries[..i], sidecar)
        invariant errors == old(errors) + ScanLog(entries[..i], sidecar)
      {
        var entry := entries[i];
        assert entries[..i + 1][..i] == entries[..i];
        assert Discover(entries[..i + 1], sidecar) == discovered + EntryTools(entry, sidecar);
        assert ScanLog(entries[..i + 1], sidecar) == ScanLog(entries[..i], sidecar) + EntryErrors(entry, sidecar);
        if entry.UnreadableEntry? {
          errors := errors + [IoError(entry.cause)];
          continue;
        }
        if entry.isDir {
          continue;
        }
        var tool := CheckExecutable(entry.path, entry.isExecutable, sidecar);
        if tool.Some? {
          discovered := discovered + [tool.value];
        }
      }
      assert entries[..|entries|] == entries;
      return Ok(discovered);
    }

    /**
     * A file whose executable check (`executable`) fails yields nothing;
     * otherwise it yields a tool with its metadata source resolved.
     */
    method CheckExecutable(path: Path, executable: bool, sidecar: Path -> SidecarStatus)
      returns (tool: Option<DiscoveredTool>)
      modifies this
      ensures tool == if executable then Some(ToolFor(path, sidecar)) else None
      ensures errors == old(errors) + if executable then SidecarErrors(path, sidecar(SidecarPath(path))) else []
    {
      if !executable {
        return None;
      }
      var source := FindMetadataSource(path, sidecar);
      return Some(DiscoveredTool(path, source));
    }

    /**
     * Looks for the `.yaml` sidecar of `executable`. When `exists` reports it
     * but the following `fs::metadata` fails, `PermissionDenied` is logged
     * and the executable itself is used.
     */
    method FindMetadataSource(executable: Path, sidecar: Path -> SidecarStatus)
      returns (source: MetadataSource)
      modifies this
      ensures source == ResolveSource(executable, sidecar(SidecarPath(executable)))
      ensures errors == old(errors) + SidecarErrors(executable, sidecar(SidecarPath(executable)))
    {
      var sidecarPath := SidecarPath(executable);
      var status := sidecar(sidecarPath);
      if status != Absent {
        if status == Accessible {
          source := Sidecar(sidecarPath);
        } else {
          errors := errors + [PermissionDenied(sidecarPath)];
          source := Embedded(executable);
        }
      } else {
        source := Embedded(executable);
      }
    }

    /** Hands the whole log to the caller and leaves it empty. */
    method TakeErrors() returns (taken: seq<ScanError>)
      modifies this
      ensures taken == old(errors) && errors == []
    {
      taken := errors;
      errors := [];
    }

    /** Looks at the log without changing it. */
    method Errors() returns (current: seq<ScanError>)
      ensures current == errors
    {
      current := errors;
    }
  }

  /**
   * The error-log lifecycle on a fresh scanner: the log starts empty, a scan
   * fills it with exactly that scan's errors, `Errors` reports it without
   * draining it, and `TakeErrors` returns all of it and leaves it empty.
   */
  method ErrorLifecycle(listing: Listing, sidecar: Path -> SidecarStatus)
    returns (initial: seq<ScanError>, peeked: seq<ScanError>, taken: seq<ScanError>, remaining: seq<ScanError>)
    ensures initial == [] && remaining == []
    ensures taken == peeked
    ensures taken == if listing.Listed? then ScanLog(listing.entries, sidecar) else []
  {
    var scanner := new DirectoryScanner();
    initial := scanner.Errors();
    var _ := scanner.ScanDirectory(listing, sidecar);
    peeked := scanner.Errors();
    taken := scanner.TakeErrors();
    remaining := scanner.Errors();
  }

  /** `new` and `Default` both give a scanner with an empty log. */
  method NewAndDefaultAgree() returns (fromNew: seq<ScanError>, fromDefault: seq<ScanError>)
    ensures fromNew == [] && fromDefault == []
  {
    var s1 := new DirectoryScanner();
    var s2 := DirectoryScanner.Default();
    fromNew := s1.Errors();
    fromDefault := s2.Errors();
  }
}
