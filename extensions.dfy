/** The static extension registry: a process-wide list of statically linked
    extension libraries that stands in for the dynamic loader.  A library
    reference produced by the engine (`$libdir/vector`, `/any/path/vector.so`)
    is normalised to a bare library name, looked up newest-first, and its
    function is then found in a sentinel-terminated table. */
module Extensions {
  import opened Common

  /** Identity of a compiled C function (a function pointer). */
  type FnPtr = nat

  /** One `{funcname, funcptr}` row of a function table or of the parallel
      `pg_finfo_` table; `funcname == None` is the `{NULL, NULL}` sentinel. */
  datatype TableEntry = TableEntry(funcname: Option<string>, ptr: FnPtr)

  /** A file whose bytes are compiled into the binary. */
  datatype EmbeddedFile = EmbeddedFile(filename: string, data: seq<bv8>, len: nat)

  const LibdirPrefix: string := "$libdir/"
  const FInfoPrefix: string := "pg_finfo_"
  /** The shared-object suffixes that normalisation removes. */
  const SharedSuffixes: seq<string> := [".so", ".dll", ".dylib"]
  const StaticLibHandleMagic: bv32 := 0xDEADBEEF

  // ---------------------------------------------------------------------
  // Library name normalisation
  // ---------------------------------------------------------------------

  /** `strrchr`: the position of the last occurrence of `c` in `s`. */
  function LastIndexOf(s: string, c: char): (r: Option<nat>)
    ensures r.Some? ==> r.value < |s| && s[r.value] == c && c !in s[r.value + 1..]
    ensures r.None? ==> c !in s
  {
    if |s| == 0 then None
    else if s[|s| - 1] == c then Some(|s| - 1)
    else
      var r := LastIndexOf(s[..|s| - 1], c);
      assert s == s[..|s| - 1] + [s[|s| - 1]];
      r
  }

  /** The contract of LastIndexOf pins down its result. */
  lemma LastIndexOfUnique(s: string, c: char, i: nat)
    requires i < |s| && s[i] == c && c !in s[i + 1..]
    ensures LastIndexOf(s, c) == Some(i)
  {
    assert s[i] in s;
    var k := LastIndexOf(s, c).value;
    assert forall j :: k < j < |s| ==> s[j] == s[k + 1..][j - k - 1];
    assert forall j :: i < j < |s| ==> s[j] == s[i + 1..][j - i - 1];
  }

  /** The last `/` of `a + "/" + b` lies in `b` when `b` has one, and is the
      separator itself otherwise. */
  lemma LastSlashAfterSeparator(a: string, b: string)
    ensures LastIndexOf(a + "/" + b, '/') ==
      match LastIndexOf(b, '/')
      case Some(k) => Some(|a| + 1 + k)
      case None => Some(|a|)
  {
    var s := a + "/" + b;
    match LastIndexOf(b, '/')
    case Some(k) =>
      assert s[|a| + 1 + k] == b[k];
      assert s[|a| + 1 + k + 1..] == b[k + 1..];
      LastIndexOfUnique(s, '/', |a| + 1 + k);
    case None =>
      assert s[|a| + 1..] == b;
      LastIndexOfUnique(s, '/', |a|);
  }

  /** Drop a leading `$libdir/` once, as `strncmp(name, "$libdir/", 8)` does. */
  function StripLibdir(name: string): (r: string)
    ensures StartsWith(name, LibdirPrefix) ==> name == LibdirPrefix + r
    ensures !StartsWith(name, LibdirPrefix) ==> r == name
  {
    if StartsWith(name, LibdirPrefix) then name[|LibdirPrefix|..] else name
  }

  /** `last_dir_separator`: the text after the last `/`, or all of it. */
  function Basename(name: string): (r: string)
    ensures '/' !in r
    ensures name == r || (|r| < |name| && name[|name| - |r| - 1] == '/' && name[|name| - |r|..] == r)
  {
    match LastIndexOf(name, '/')
    case Some(i) => name[i + 1..]
    case None => name
  }

  /** Cut the text from the last `.` when it is exactly a shared-object
      suffix; any other suffix is kept. */
  function StripSharedSuffix(base: string): (r: string)
    ensures |r| <= |base| && r == base[..|r|]
  {
    match LastIndexOf(base, '.')
    case Some(i) => if base[i..] in SharedSuffixes then base[..i] else base
    case None => base
  }

  /** `normalize_library_name`: the base name with any `$libdir/` and
      directory gone, so never a path. */
  function Normalize(name: string): (r: string)
    ensures '/' !in r
  {
    var b := Basename(StripLibdir(name));
    var r := StripSharedSuffix(b);
    assert forall k :: 0 <= k < |r| ==> r[k] == b[k];
    r
  }

  /** A directory prefix never survives in the base name. */
  lemma BasenameAfterSeparator(a: string, b: string)
    ensures Basename(a + "/" + b) == Basename(b)
  {
    LastSlashAfterSeparator(a, b);
    var s := a + "/" + b;
    match LastIndexOf(b, '/')
    case Some(k) => assert s[|a| + 1 + k + 1..] == b[k + 1..];
    case None => assert s[|a| + 1..] == b;
  }

  /** Stripping `$libdir/` cannot change the base name: the prefix ends in a
      separator, so the basename step would drop it anyway. */
  lemma {:induction false} LibdirPrefixIrrelevant(name: string)
    ensures Basename(StripLibdir(name)) == Basename(name)
  {
    if StartsWith(name, LibdirPrefix) {
      var rest := name[|LibdirPrefix|..];
      assert name == "$libdir" + "/" + rest;
      BasenameAfterSeparator("$libdir", rest);
    }
  }

  lemma SharedSuffixShape(ext: string)
    requires ext in SharedSuffixes
    ensures |ext| > 1 && ext[0] == '.' && '.' !in ext[1..] && '/' !in ext
  {
  }

  /** Exactly one recognised suffix is removed, whatever dots `n` holds. */
  lemma StripOneSharedSuffix(n: string, ext: string)
    requires ext in SharedSuffixes
    ensures StripSharedSuffix(n + ext) == n
  {
    var s := n + ext;
    assert s[|n|] == '.';
    assert '.' !in s[|n| + 1..] by {
      assert s[|n| + 1..] == ext[1..];
    }
    LastIndexOfUnique(s, '.', |n|);
    assert s[|n|..] == ext;
    assert s[..|n|] == n;
  }

  /** A name without dots is kept as it is. */
  lemma StripKeepsDotless(n: string)
    requires '.' !in n
    ensures StripSharedSuffix(n) == n
  {
  }

  /** The reference forms the engine produces all normalise to the bare
      library name: `n`, `$libdir/n`, `dir/n.so` (or `.dll`, `.dylib`). */
  lemma NormalizeBareName(n: string)
    requires '/' !in n && '.' !in n
    ensures Normalize(n) == n
  {
    LibdirPrefixIrrelevant(n);
    StripKeepsDotless(n);
  }

  lemma NormalizeLibdirName(n: string)
    requires '/' !in n && '.' !in n
    ensures Normalize(LibdirPrefix + n) == n
  {
    LibdirPrefixIrrelevant(LibdirPrefix + n);
    assert LibdirPrefix + n == "$libdir" + "/" + n;
    BasenameAfterSeparator("$libdir", n);
    StripKeepsDotless(n);
  }

  lemma NormalizeSharedObjectPath(n: string, dir: string, ext: string)
    requires '/' !in n
    requires ext in SharedSuffixes
    ensures Normalize(dir + "/" + n + ext) == n
  {
    var b := n + ext;
    var p := dir + "/" + b;
    assert dir + "/" + n + ext == p;
    SharedSuffixShape(ext);
    assert '/' !in b;
    LibdirPrefixIrrelevant(p);
    BasenameAfterSeparator(dir, b);
    assert Basename(b) == b;
    StripOneSharedSuffix(n, ext);
  }

  /** The name ends in `.so`, `.dll` or `.dylib`. */
  predicate EndsWithSharedSuffix(b: string) {
    exists ext :: ext in SharedSuffixes && |ext| <= |b| && b[|b| - |ext|..] == ext
  }

  /** Stripping changes a name exactly when it ends in a shared-object
      suffix, and then only cuts that suffix off. */
  lemma StripSharedSuffixExactly(b: string)
    ensures StripSharedSuffix(b) != b <==> EndsWithSharedSuffix(b)
    ensures StripSharedSuffix(b) != b ==>
      exists ext :: ext in SharedSuffixes && b == StripSharedSuffix(b) + ext
  {
    if StripSharedSuffix(b) != b {
      StrippedHadSuffix(b);
    }
    if EndsWithSharedSuffix(b) {
      SuffixGetsStripped(b);
    }
  }

  lemma StrippedHadSuffix(b: string)
    requires StripSharedSuffix(b) != b
    ensures exists ext :: ext in SharedSuffixes && |ext| <= |b| && b[|b| - |ext|..] == ext && b == b[..|b| - |ext|] + ext
    ensures b == StripSharedSuffix(b) + b[|StripSharedSuffix(b)|..]
  {
    var i := LastIndexOf(b, '.').value;
    var ext := b[i..];
    assert b[|b| - |ext|..] == ext;
    assert b == b[..i] + ext;
  }

  lemma SuffixGetsStripped(b: string)
    requires EndsWithSharedSuffix(b)
    ensures StripSharedSuffix(b) != b
  {
    var ext :| ext in SharedSuffixes && |ext| <= |b| && b[|b| - |ext|..] == ext;
    var n := b[..|b| - |ext|];
    assert b == n + ext;
    StripOneSharedSuffix(n, ext);
    SharedSuffixShape(ext);
  }

  /** Any other single-dot suffix is kept: `vector.so.1`, `vector.sox`. */
  lemma StripKeepsOtherSuffix(n: string, ext: string)
    requires |ext| > 0 && ext[0] == '.' && '.' !in ext[1..] && ext !in SharedSuffixes
    ensures StripSharedSuffix(n + ext) == n + ext
  {
    var s := n + ext;
    assert s[|n|] == '.';
    assert s[|n| + 1..] == ext[1..];
    LastIndexOfUnique(s, '.', |n|);
    assert s[|n|..] == ext;
  }

  /** A library path whose last suffix is not a shared-object suffix
      normalises to its whole base name. */
  lemma NormalizeKeepsOtherSuffix(n: string, dir: string, ext: string)
    requires '/' !in n && '/' !in ext
    requires |ext| > 0 && ext[0] == '.' && '.' !in ext[1..] && ext !in SharedSuffixes
    ensures Normalize(dir + "/" + n + ext) == n + ext
  {
    var b := n + ext;
    var p := dir + "/" + b;
    assert dir + "/" + n + ext == p;
    assert '/' !in b;
    LibdirPrefixIrrelevant(p);
    BasenameAfterSeparator(dir, b);
    assert Basename(b) == b;
    StripKeepsOtherSuffix(n, ext);
  }

  /** Only the last suffix goes: `x.so.so` keeps one `.so`. */
  lemma NormalizeStripsOnlyOneSuffix(n: string)
    requires '/' !in n
    ensures Normalize(n + ".so" + ".so") == n + ".so"
  {
    var p := n + ".so" + ".so";
    assert '/' !in p;
    LibdirPrefixIrrelevant(p);
    assert Basename(p) == p;
    assert p == (n + ".so") + ".so";
    StripOneSharedSuffix(n + ".so", ".so");
  }

  // ---------------------------------------------------------------------
  // Function tables
  // ---------------------------------------------------------------------

  /** Index of the `{NULL, NULL}` sentinel (the table's end when absent). */
  function SentinelIndex(t: seq<TableEntry>): (k: nat)
    ensures k <= |t|
    ensures k < |t| ==> t[k].funcname.None?
    ensures forall j :: 0 <= j < k ==> t[j].funcname.Some?
  {
    if |t| == 0 || t[0].funcname.None? then 0 else 1 + SentinelIndex(t[1..])
  }

  /** The `for (f = table; f->funcname != NULL; f++)` scan: the first entry
      before the sentinel whose name equals `name`. */
  function ScanTable(t: seq<TableEntry>, name: string): (r: Option<nat>)
    ensures r.Some? ==> r.value < SentinelIndex(t) && t[r.value].funcname == Some(name)
    ensures r.Some? ==> forall j :: 0 <= j < r.value ==> t[j].funcname != Some(name)
    ensures r.None? ==> forall j :: 0 <= j < SentinelIndex(t) ==> t[j].funcname != Some(name)
  {
    if |t| == 0 || t[0].funcname.None? then None
    else if t[0].funcname == Some(name) then Some(0)
    else
      match ScanTable(t[1..], name)
      case Some(i) => Some(i + 1)
      case None => None
  }

  /** Entries after the sentinel are never seen. */
  lemma {:induction false} ScanStopsAtSentinel(t: seq<TableEntry>, rest: seq<TableEntry>, name: string)
    requires SentinelIndex(t) < |t|
    ensures ScanTable(t + rest, name) == ScanTable(t, name)
  {
    if t[0].funcname.Some? {
      assert (t + rest)[1..] == t[1..] + rest;
      ScanStopsAtSentinel(t[1..], rest, name);
    }
  }

  /** A table pointer that may be NULL, searched by name. */
  function TableLookup(table: Option<seq<TableEntry>>, name: string): (r: Option<FnPtr>)
    ensures r.Some? <==> table.Some? && exists j :: 0 <= j < SentinelIndex(table.value) && table.value[j].funcname == Some(name)
  {
    match table
    case None => None
    case Some(t) =>
      match ScanTable(t, name)
      case Some(i) => Some(t[i].ptr)
      case None => None
  }

  // ---------------------------------------------------------------------
  // Registered libraries
  // ---------------------------------------------------------------------

  /** A `StaticExtensionLib` node.  Everything but `init_called` is fixed at
      registration. */
  class Library {
    const library: string
    const initFunc: Option<FnPtr>
    const functions: Option<seq<TableEntry>>
    const finfoFunctions: Option<seq<TableEntry>>
    const controlFile: Option<EmbeddedFile>
    const scriptFile: Option<EmbeddedFile>
    var initCalled: bool
    /** How many times the library's `_PG_init` has been invoked. */
    ghost var initRuns: nat

    ghost predicate Valid()
      reads this
    {
      initRuns == (if initCalled then 1 else 0) && (initCalled ==> initFunc.Some?)
    }

    constructor (library: string, initFunc: Option<FnPtr>,
                 functions: Option<seq<TableEntry>>, finfoFunctions: Option<seq<TableEntry>>,
                 controlFile: Option<EmbeddedFile>, scriptFile: Option<EmbeddedFile>)
      ensures Valid() && !initCalled
      ensures this.library == library && this.initFunc == initFunc
      ensures this.functions == functions && this.finfoFunctions == finfoFunctions
      ensures this.controlFile == controlFile && this.scriptFile == scriptFile
    {
      this.library := library;
      this.initFunc := initFunc;
      this.functions := functions;
      this.finfoFunctions := finfoFunctions;
      this.controlFile := controlFile;
      this.scriptFile := scriptFile;
      initCalled := false;
      initRuns := 0;
    }

    /** `call_static_pg_init_once`: run a non-NULL init function the first
        time only. */
    method CallInitOnce() returns (ran: bool)
      requires Valid()
      modifies this
      ensures Valid()
      ensures ran == (initFunc.Some? && !old(initCalled))
      ensures initCalled == (old(initCalled) || ran)
      ensures initRuns == old(initRuns) + (if ran then 1 else 0) && initRuns <= 1
    {
      ran := false;
      if initFunc.Some? && !initCalled {
        initRuns := initRuns + 1;
        initCalled := true;
        ran := true;
      }
    }
  }

  /** The first library (newest first) whose name equals `name`. */
  function FindLibrary(libs: seq<Library>, name: string): (r: Option<nat>)
    ensures r.Some? ==> r.value < |libs| && libs[r.value].library == name
    ensures r.Some? ==> forall j :: 0 <= j < r.value ==> libs[j].library != name
    ensures r.None? ==> forall j :: 0 <= j < |libs| ==> libs[j].library != name
  {
    if |libs| == 0 then None
    else if libs[0].library == name then Some(0)
    else
      match FindLibrary(libs[1..], name)
      case Some(i) => Some(i + 1)
      case None => None
  }

  /** The library FindLibrary selects, or NULL. */
  function LibraryNamed(libs: seq<Library>, name: string): Library? {
    match FindLibrary(libs, name)
    case Some(i) => libs[i]
    case None => null
  }

  lemma LibraryNamedIsRegistered(libs: seq<Library>, name: string)
    ensures LibraryNamed(libs, name) != null ==> LibraryNamed(libs, name) in libs
  {
  }

  /** The walk down the list for one normalised name. */
  method ScanLibraries(libs: seq<Library>, name: string) returns (lib: Library?)
    ensures lib == LibraryNamed(libs, name)
  {
    var k := 0;
    while k < |libs|
      invariant 0 <= k <= |libs|
      invariant forall j :: 0 <= j < k ==> libs[j].library != name
    {
      if libs[k].library == name {
        FindLibraryFirst(libs, name, k);
        return libs[k];
      }
      k := k + 1;
    }
    assert FindLibrary(libs, name).None?;
    return null;
  }

  /** On a name collision the library registered last wins. */
  lemma NewestRegistrationWins(lib: Library, older: seq<Library>, reference: string)
    requires lib.library == Normalize(reference)
    ensures FindLibrary([lib] + older, Normalize(reference)) == Some(0)
  {
  }

  /** The contract of FindLibrary pins down its result. */
  lemma FindLibraryFirst(libs: seq<Library>, name: string, k: nat)
    requires k < |libs| && libs[k].library == name
    requires forall j :: 0 <= j < k ==> libs[j].library != name
    ensures FindLibrary(libs, name) == Some(k)
  {
  }

  /** A registration under another name leaves every lookup where it was,
      shifted by the new head. */
  lemma {:induction false} RegistrationKeepsOtherLookups(lib: Library, older: seq<Library>, name: string)
    requires lib.library != name
    ensures FindLibrary([lib] + older, name) ==
      match FindLibrary(older, name)
      case Some(i) => Some(i + 1)
      case None => None
  {
    assert ([lib] + older)[1..] == older;
  }

  /** A `StaticLibHandle`: the value `pg_load_external_function` stores in
      `*filehandle`. */
  datatype Handle = Handle(magic: bv32, lib: Library)

  datatype LoadError =
    | UndefinedFile(filename: string)
    | UndefinedFunction(funcname: string, library: string)
    | OutOfMemory

  /** What `pg_load_external_function` does: it raises an ERROR, or returns
      a (possibly NULL) function pointer and the handle it stored in
      `*filehandle` (None when it stored nothing). */
  datatype LoadResult =
    | Raised(error: LoadError)
    | Returned(fn: Option<FnPtr>, handle: Option<Handle>)

  /** `pg_lookup_external_function`: resolve by handle.  `pg_finfo_` names
      are searched in the finfo table only, all others in the function
      table only; a NULL handle or a bad magic number gives NULL. */
  function LookupExternalFunction(handle: Option<Handle>, funcname: string): (r: Option<FnPtr>)
    ensures r.Some? ==> handle.Some? && handle.value.magic == StaticLibHandleMagic
    ensures handle.Some? && handle.value.magic == StaticLibHandleMagic ==>
      var table := if StartsWith(funcname, FInfoPrefix) then handle.value.lib.finfoFunctions
                   else handle.value.lib.functions;
      (r.Some? <==> table.Some? && exists j :: 0 <= j < SentinelIndex(table.value) && table.value[j].funcname == Some(funcname))
  {
    match handle
    case None => None
    case Some(h) =>
      if h.magic != StaticLibHandleMagic then None
      else if StartsWith(funcname, FInfoPrefix) then TableLookup(h.lib.finfoFunctions, funcname)
      else TableLookup(h.lib.functions, funcname)
  }

  /** The registry: `registered_libraries`, newest first. */
  class Registry {
    var libraries: seq<Library>

    ghost predicate Valid()
      reads this, libraries
    {
      forall l :: l in libraries ==> l.Valid()
    }

    constructor ()
      ensures Valid() && libraries == []
    {
      libraries := [];
    }

    /** `register_static_extension`: push a new library at the head.  A
        failed allocation raises an ERROR (`lib == null`) and registers
        nothing. */
    method Register(library: string, initFunc: Option<FnPtr>,
                    functions: Option<seq<TableEntry>>, finfoFunctions: Option<seq<TableEntry>>,
                    controlFile: Option<EmbeddedFile>, scriptFile: Option<EmbeddedFile>,
                    allocOk: bool) returns (lib: Library?)
      requires Valid()
      modifies this
      ensures Valid()
      ensures !allocOk ==> lib == null && libraries == old(libraries)
      ensures allocOk ==> lib != null && fresh(lib) && libraries == [lib] + old(libraries)
      ensures allocOk ==> !lib.initCalled && lib.library == library && lib.initFunc == initFunc
      ensures allocOk ==> lib.functions == functions && lib.finfoFunctions == finfoFunctions
      ensures allocOk ==> lib.controlFile == controlFile && lib.scriptFile == scriptFile
    {
      if !allocOk {
        lib := null;
        return;
      }
      lib := new Library(library, initFunc, functions, finfoFunctions, controlFile, scriptFile);
      libraries := [lib] + libraries;
    }

    /** `lookup_static_library`: normalise, then walk the list. */
    method LookupStaticLibrary(filename: string) returns (lib: Library?)
      ensures lib == LibraryNamed(libraries, Normalize(filename))
    {
      var normalized := Normalize(filename);
      lib := ScanLibraries(libraries, normalized);
    }

    /** `pg_load_external_function`. */
    method LoadExternalFunction(filename: string, funcname: string, signalNotFound: bool,
                                hasFilehandle: bool, handleAllocOk: bool) returns (r: LoadResult)
      requires Valid()
      modifies libraries
      ensures Valid() && libraries == old(libraries)
      ensures LibraryNamed(libraries, Normalize(filename)) == null ==>
                r == Raised(UndefinedFile(filename)) &&
                forall l :: l in libraries ==> l.initCalled == old(l.initCalled)
      ensures LibraryNamed(libraries, Normalize(filename)) != null ==>
                var lib := LibraryNamed(libraries, Normalize(filename));
                && lib.initCalled == (old(lib.initCalled) || lib.initFunc.Some?)
                && lib.initRuns <= 1
                && (forall l :: l in libraries && l != lib ==> l.initCalled == old(l.initCalled))
                && r == match TableLookup(lib.functions, funcname)
                        case None =>
                          if signalNotFound then Raised(UndefinedFunction(funcname, lib.library))
                          else Returned(None, None)
                        case Some(p) =>
                          if !hasFilehandle then Returned(Some(p), None)
                          else if handleAllocOk then Returned(Some(p), Some(Handle(StaticLibHandleMagic, lib)))
                          else Raised(OutOfMemory)
    {
      var lib := LookupStaticLibrary(filename);
      if lib == null {
        return Raised(UndefinedFile(filename));
      }
      LibraryNamedIsRegistered(libraries, Normalize(filename));
      InitFound(lib);
      r := FunctionFromLibrary(lib, funcname, signalNotFound, hasFilehandle, handleAllocOk);
    }

    /** A registered library's init, run once; the other libraries keep
        their state. */
    method InitFound(lib: Library)
      requires Valid() && lib in libraries
      modifies lib
      ensures Valid()
      ensures lib.initCalled == (old(lib.initCalled) || lib.initFunc.Some?) && lib.initRuns <= 1
      ensures forall l :: l in libraries && l != lib ==> l.initCalled == old(l.initCalled)
    {
      var _ := lib.CallInitOnce();
    }
  }

  /** The rest of `pg_load_external_function` once the library is found and
      initialised: the symbol, then the optional handle. */
  method FunctionFromLibrary(lib: Library, funcname: string, signalNotFound: bool,
                             hasFilehandle: bool, handleAllocOk: bool) returns (r: LoadResult)
    ensures r == match TableLookup(lib.functions, funcname)
                 case None =>
                   if signalNotFound then Raised(UndefinedFunction(funcname, lib.library))
                   else Returned(None, None)
                 case Some(p) =>
                   if !hasFilehandle then Returned(Some(p), None)
                   else if handleAllocOk then Returned(Some(p), Some(Handle(StaticLibHandleMagic, lib)))
                   else Raised(OutOfMemory)
  {
    var func := LookupFunctionInLibrary(lib, funcname);
    if func.None? {
      if signalNotFound {
        return Raised(UndefinedFunction(funcname, lib.library));
      }
      return Returned(None, None);
    }
    if hasFilehandle {
      if !handleAllocOk {
        return Raised(OutOfMemory);
      }
      return Returned(func, Some(Handle(StaticLibHandleMagic, lib)));
    }
    return Returned(func, None);
  }

  /** `lookup_function_in_library`: NULL for a NULL library or table,
      otherwise the first matching entry before the sentinel. */
  method LookupFunctionInLibrary(lib: Library?, funcname: string) returns (r: Option<FnPtr>)
    ensures lib == null ==> r == None
    ensures lib != null ==> r == TableLookup(lib.functions, funcname)
  {
    if lib == null || lib.functions.None? {
      return None;
    }
    var t := lib.functions.value;
    var k := 0;
    while k < |t| && t[k].funcname.Some?
      invariant 0 <= k <= SentinelIndex(t)
      invariant forall j :: 0 <= j < k ==> t[j].funcname != Some(funcname)
    {
      if t[k].funcname.value == funcname {
        return Some(t[k].ptr);
      }
      k := k + 1;
    }
    return None;
  }
}
