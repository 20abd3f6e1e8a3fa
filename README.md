# mcp-serve tool discovery, modelled in Dafny

mcp-serve finds tools in a directory. A tool is any executable file. For each
tool, mcp-serve decides where the tool's metadata lives. This project models
two parts of that:

- **The directory scanner** (`src/scanner.rs`), modelled in `scanner.dfy`.
  `DirectoryScanner` is a class with one field, the error log `errors`.
  `ScanDirectory` lists one directory level. It skips entries that cannot be
  read, directories and non-executable files. Each remaining file becomes a
  `DiscoveredTool`, and its metadata source is resolved to `Sidecar` (an
  accessible `.yaml` file next to it) or `Embedded` (the file itself).
  Non-fatal problems are appended to the log. Callers drain the log with
  `TakeErrors` or read it with `Errors`. A scan's result and the log's growth
  are proved equal to two specification functions, `Discover` and `ScanLog`.
  Lemmas then state what those functions promise: one tool per accepted
  entry, in listing order; nothing else is reported; one error per unreadable
  entry and one per accepted executable whose sidecar `exists` reports and
  whose following `fs::metadata` fails. Two executables can share one sidecar
  path (`tool` and `tool.sh` both look for `tool.yaml`), and such a sidecar is
  then logged once for each of them.
- **Tool definitions** (`src/tool_discovery.rs`), modelled in
  `tool_discovery.dfy`. This is the `ToolDefinition` record and its builders,
  the default `JsonSchema`, and the lower-case wire names of
  `JsonSchemaType`. All of it is pure.
- **Paths** (`paths.dfy`) models the part of Rust's `std::path` that the
  scanner relies on: the stem/extension split of a file name and
  `Path::with_extension`. `wrappers.dfy` holds `Option` and `Result`.

The filesystem is an input to the model:

- `read_dir` becomes a `Listing`. It either fails with an `OsError`, or it
  yields a sequence of `Entry` values.
- Each `Entry` is either unreadable, or a `File` with its path, an `isDir`
  flag and an `isExecutable` flag. The flags stand for `Path::is_dir` and
  faccess's `executable()`.
- The pair `Path::exists` and `fs::metadata` on a sidecar path becomes an
  oracle `Path -> SidecarStatus`. `Absent` means `exists` returned false.
  `Accessible` means `exists` returned true and the following `fs::metadata`
  succeeded. `Inaccessible` means `exists` returned true and the following
  `fs::metadata` failed. Rust's `exists` is itself `fs::metadata(p).is_ok()`,
  so `Inaccessible` needs the second `fs::metadata` to fail after `exists`
  succeeded. That happens when the file, or a directory on its path, changed
  in between (search permission revoked, say), or when the second call failed
  transiently (an I/O error on a network filesystem, say).
  `UnchangingSidecars` builds the oracle for the case where `fs::metadata`
  gives the same answer on both calls, from which paths can be stat'ed.

A path is modelled as `Path(dir, name)`: a directory plus one final
component. Every path a directory listing yields has this shape.

The executable test is the single permission check at src/scanner.rs:153.
This code has no extension-based fallback (no list of `.exe`, `.sh` and so
on), so the model has none either.

## Model

| member | source | states |
|---|---|---|
| Scanner.DirectoryScanner.constructor | src/scanner.rs:69-71 | a new scanner's error log is empty |
| Scanner.DirectoryScanner.Default | src/scanner.rs:209-213 | `Default` gives a fresh scanner with an empty log, like `new` |
| Scanner.DirectoryScanner.ScanDirectory | src/scanner.rs:112-144 | a failed listing returns `Err(IoError(cause))` and leaves the log unchanged; a successful one returns `Ok(Discover(entries))` and appends exactly `ScanLog(entries)` to the log, keeping the earlier errors |
| Scanner.DirectoryScanner.CheckExecutable | src/scanner.rs:150-163 | a non-executable file yields `None` and logs nothing; an executable yields the tool for its own path, with its resolved source and that resolution's errors |
| Scanner.DirectoryScanner.FindMetadataSource | src/scanner.rs:169-188 | the source is `ResolveSource` of the sidecar's status; the log grows by exactly one `PermissionDenied` when `exists` succeeds and the following `metadata` fails, and by nothing otherwise |
| Scanner.DirectoryScanner.TakeErrors | src/scanner.rs:199-201 | returns the whole log and leaves it empty |
| Scanner.DirectoryScanner.Errors | src/scanner.rs:204-206 | returns the log and changes nothing |
| Scanner.ResolveSource | src/scanner.rs:171-187 | `Sidecar` exactly when `exists` and the following `metadata` both succeed, and then it names the `.yaml` sibling; otherwise `Embedded` with the executable's own path |
| Scanner.SidecarErrors | src/scanner.rs:173-183 | at most one error, present exactly when `exists` succeeds and the following `metadata` fails, and it is `PermissionDenied` naming the sidecar path |
| Scanner.UnchangingFilesystemNeverDenies | src/scanner.rs:173-187 | when `fs::metadata` gives the same answer on both calls, no sidecar is `Inaccessible` and every logged error is an `IoError`: a sidecar that cannot be stat'ed is silently treated as absent |
| Scanner.DiscoverLength | src/scanner.rs:121-143 | a successful scan returns one tool per readable, non-directory, executable entry |
| Scanner.DiscoverPosition | src/scanner.rs:121-143 | the accepted entry at index k is the tool at position "number of accepted entries before k", with that entry's path and resolved source, so listing order is kept |
| Scanner.DiscoverSound | src/scanner.rs:130-140 | every returned tool comes from an accepted entry and carries that entry's path |
| Scanner.ExcludedNeverDiscovered | src/scanner.rs:398-435 | a directory or a non-executable file is never reported, given that the listing names each path once |
| Scanner.DiscoverAppend | src/scanner.rs:121-141 | scanning a listing in two parts gives the two results concatenated |
| Scanner.ScanLogAppend | src/scanner.rs:121-141 | scanning a listing in two parts logs the two logs concatenated |
| Scanner.EntryInContext | src/scanner.rs:121-141 | wherever an entry stands in the listing, its tools and errors come between those of the entries before it and those of the entries after it |
| Scanner.UnreadableEntrySkipped | src/scanner.rs:122-127 | an unreadable entry contributes no tool and exactly its own `IoError`, and the entries after it are still scanned |
| Scanner.ExcludedEntrySkipped | src/scanner.rs:130-140 | a directory or a non-executable file, wherever it stands, contributes no tool and no error, and the entries after it are still scanned |
| Scanner.NothingToDiscover | src/scanner.rs:130-140 | a listing of only directories and non-executable files yields no tool and no error |
| Scanner.InaccessibleSidecarLogged | src/scanner.rs:177-182 | an executable whose sidecar is `Inaccessible` is still reported, with embedded metadata, and its `PermissionDenied` is logged at its own position in the listing |
| Scanner.ScanLogLength | src/scanner.rs:121-141 | the log grows by the number of unreadable entries plus the number of accepted entries whose sidecar is `Inaccessible` |
| Scanner.ScanLogSound | src/scanner.rs:121-141 | every logged error is an unreadable entry's `IoError` or the `PermissionDenied` of an accepted entry whose sidecar is `Inaccessible` |
| Scanner.SidecarIsYaml | src/scanner.rs:309-319 | a `Sidecar` source always names a path with extension `yaml` and the executable's stem |
| Scanner.SidecarOfPlainName | src/scanner.rs:171 | a name without a dot, such as `test_script`, gets the sidecar `name.yaml` |
| Scanner.SidecarReplacesExtension | src/scanner.rs:171 | a name `stem.ext`, such as `tool.sh`, gets the sidecar `stem.yaml`: only the last extension is replaced |
| Scanner.SidecarOfHiddenName | src/scanner.rs:171 | a name whose only dot leads it, such as `.hidden`, gets the sidecar `.hidden.yaml` |
| Scanner.TestDirectory | src/scanner.rs:223-286 | the directory the unit tests set up, listed in creation order (`test_script` and its `test_script.yaml`, `standalone_tool`, `windows_tool.exe`, `readme.txt`, `subdir`) yields exactly `test_script` with its sidecar and `standalone_tool` with embedded metadata, and no errors; the sidecar file itself is not reported |
| Scanner.ErrorLifecycle | src/scanner.rs:456-476 | on a fresh scanner the log starts empty; after a scan, peeking and taking give the same errors (the scan's `ScanLog`); after taking, the log is empty |
| Scanner.NewAndDefaultAgree | src/scanner.rs:531-538 | `new` and `default` both start with no errors |
| Paths.WithExtensionSetsExtension | src/scanner.rs:171 | `with_extension(e)`, for a dot-free non-empty `e`, gives a path whose extension is `e` and whose stem is unchanged |
| ToolDiscovery.DefaultSchema | src/tool_discovery.rs:104-160 | every keyword of the default schema is absent |
| ToolDiscovery.NewDefinition | src/tool_discovery.rs:206-219 | name, description and input schema are stored as given; title, output schema and annotations are absent |
| ToolDiscovery.WithTitle | src/tool_discovery.rs:233-236 | the title becomes `Some(title)` and no other field changes |
| ToolDiscovery.WithOutputSchema | src/tool_discovery.rs:256-259 | the output schema becomes `Some(schema)` and no other field changes |
| ToolDiscovery.WithAnnotations | src/tool_discovery.rs:277-280 | the annotations become `Some(map)` and no other field changes |
| ToolDiscovery.SettersCommute | src/tool_discovery.rs:233-280 | setters of different fields can be applied in either order |
| ToolDiscovery.SettersLastWins | src/tool_discovery.rs:233-280 | applying a setter twice keeps only the second value |
| ToolDiscovery.TypeNameTable | src/tool_discovery.rs:165-182 | each variant's wire name is its identifier lower-cased: `object`, `array`, `string`, `number`, `integer`, `boolean` and `null` |
| ToolDiscovery.ParseTypeNameExact | src/tool_discovery.rs:165-182 | a name reads back as a variant exactly when it is that variant's wire name |
| ToolDiscovery.TypeNameInjective | src/tool_discovery.rs:165-182 | different variants have different wire names |

## Left out

- The sidecar status is a function of the path, so every lookup of that path in one scan gets the same answer. A filesystem that changes during a scan could answer two lookups of a shared sidecar differently, for example `Sidecar` for `tool` and `Embedded` with `PermissionDenied` for `tool.sh`. The model does not capture that run.
- Scanner.TestDirectory: it covers one listing order, the order the files are created in. `read_dir`'s order is platform-defined.
- Real filesystem calls (`fs::read_dir`, `is_dir`, `exists`, `fs::metadata`, faccess's `executable`). They are operating-system I/O, so they are inputs: a `Listing` and its `Entry` flags, and the sidecar status oracle.
- Scanner.ExcludedNeverDiscovered: this needs the listing's paths to be distinct. A directory listing names each child once, but the model does not derive that. `ExcludedEntrySkipped` states the same exclusion per entry without that assumption.
- The model takes the outcomes of `exists` and of the following `fs::metadata` as given. It does not derive that `Inaccessible` needs the second `fs::metadata` to fail after `exists` succeeded, because the file or a directory on its path changed in between or the call failed transiently. `UnchangingFilesystemNeverDenies` shows the consequence: a sidecar that exists but cannot be stat'ed is treated as absent without any log entry. That goes against the comment at src/scanner.rs:178 and the error-handling description at src/scanner.rs:76-83.
- A path's file name `.` is not modelled as Rust does it. Rust folds it into the parent component, and a listing never yields it.
- Platform-dependent executable detection, for example on Windows. The code makes one permission check and has no extension list.
- YAML serialisation and deserialisation through serde_yaml_ng: the round trip, the `type` field in YAML text, and the malformed-document error. That is a foreign library. `ParseTypeName` stands only for serde's reading of the `type` keyword.
- `serde_yaml_ng::Value` (annotations, `enum`, `default`) and the `f64` keywords `minimum` and `maximum`. They are opaque types.
- `HashMap` becomes a Dafny `map`. Iteration order is not modelled, and the code does not depend on it.
- The `Display` texts of `ScanError`.
- The `definitions` module, with `from_yaml`, `to_mcp_tool`, the template-carrying `input` and `output` blocks, and the protocol-facing tool shape. It is not part of this model: src/lib.rs:6-7 declares `definitions`, but its source is not among the modelled files. src/tool_discovery.rs is an older form of the record that the crate no longer compiles.
- src/main.rs (command-line handling), src/lib.rs (module declarations), src/tool_discovery/mod.rs (documentation only), and tests/integration_test.rs, which depends on an on-disk example directory.
- Concurrency. The scanner is single-threaded and `&mut self` rules out sharing it.
