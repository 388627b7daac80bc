/** Embedded-file lookup: a path the engine wants to open is matched by
    suffix against the control and script files of every registered static
    library (newest first, control before script), and only then against
    the compiled-in timezone file. */
module EmbeddedFiles {
  import opened Common
  import opened Extensions

  /** The name of the single compiled-in timezone file. */
  const TimezoneFileName: string := "Default"

  /** The timezone file; its bytes are generated at build time, so they are
      a parameter here. */
  function TimezoneFile(tzData: seq<bv8>): (f: EmbeddedFile)
    ensures f.filename == TimezoneFileName && f.data == tzData && f.len == |tzData|
  {
    EmbeddedFile(TimezoneFileName, tzData, |tzData|)
  }

  /** `path_ends_with`: a suffix longer than the path never matches;
      otherwise the path's last `|suffix|` characters must equal it. */
  function PathEndsWith(path: string, suffix: string): (r: bool)
    ensures r ==> |suffix| <= |path| && path == path[..|path| - |suffix|] + suffix
  {
    if |suffix| > |path| then false
    else path[|path| - |suffix|..] == suffix
  }

  /** Any path ending in `suffix` matches it, and only such paths do. */
  lemma PathEndsWithAppended(prefix: string, suffix: string)
    ensures PathEndsWith(prefix + suffix, suffix)
  {
    assert (prefix + suffix)[|prefix|..] == suffix;
  }

  /** The empty file name matches every path. */
  lemma EmptySuffixMatches(path: string)
    ensures PathEndsWith(path, "")
  {
    assert path[|path|..] == "";
  }

  /** A match against a longer file name implies a match against every
      suffix of it, so `x.control` shadows nothing that `control` would
      not. */
  lemma PathEndsWithTransitive(path: string, name: string, tail: string)
    requires PathEndsWith(path, name) && PathEndsWith(name, tail)
    ensures PathEndsWith(path, tail)
  {
    var p := path[..|path| - |name|];
    var n := name[..|name| - |tail|];
    assert path == (p + n) + tail;
    PathEndsWithAppended(p + n, tail);
  }

  /** A non-NULL file whose name the path ends with. */
  predicate Matches(f: Option<EmbeddedFile>, path: string) {
    f.Some? && PathEndsWith(path, f.value.filename)
  }

  /** The registry part of `lookup_embedded_file`: the first library whose
      control file, else whose script file, matches. */
  function LookupInLibraries(libs: seq<Library>, path: string): (r: Option<EmbeddedFile>)
    ensures r.Some? ==> Matches(r, path)
    ensures r.Some? ==> exists i :: 0 <= i < |libs| && (r == libs[i].controlFile || r == libs[i].scriptFile)
    ensures r.None? <==>
      forall i :: 0 <= i < |libs| ==> !Matches(libs[i].controlFile, path) && !Matches(libs[i].scriptFile, path)
  {
    if |libs| == 0 then None
    else if Matches(libs[0].controlFile, path) then libs[0].controlFile
    else if Matches(libs[0].scriptFile, path) then libs[0].scriptFile
    else
      var r := LookupInLibraries(libs[1..], path);
      assert forall i :: 1 <= i < |libs| ==> libs[i] == libs[1..][i - 1];
      r
  }

  /** `lookup_embedded_file`: the registry first, the timezone file last. */
  function LookupEmbeddedFile(libs: seq<Library>, tzData: seq<bv8>, path: string): (r: Option<EmbeddedFile>)
    ensures r.Some? ==> PathEndsWith(path, r.value.filename)
    ensures r.None? <==>
      !PathEndsWith(path, TimezoneFileName) &&
      forall i :: 0 <= i < |libs| ==> !Matches(libs[i].controlFile, path) && !Matches(libs[i].scriptFile, path)
  {
    match LookupInLibraries(libs, path)
    case Some(f) => Some(f)
    case None =>
      if PathEndsWith(path, TimezoneFileName) then Some(TimezoneFile(tzData)) else None
  }

  // ---------------------------------------------------------------------
  // An independent reading: the first match in one flat priority list
  // ---------------------------------------------------------------------

  /** All candidates in the order they are tried: per library its control
      file then its script file. */
  function Candidates(libs: seq<Library>): (cs: seq<Option<EmbeddedFile>>)
    ensures |cs| == 2 * |libs|
  {
    if |libs| == 0 then []
    else [libs[0].controlFile, libs[0].scriptFile] + Candidates(libs[1..])
  }

  /** The first matching candidate. */
  function FirstMatch(cs: seq<Option<EmbeddedFile>>, path: string): (r: Option<EmbeddedFile>)
    ensures r.Some? ==> Matches(r, path) && r in cs
    ensures r.None? ==> forall i :: 0 <= i < |cs| ==> !Matches(cs[i], path)
  {
    if |cs| == 0 then None
    else if Matches(cs[0], path) then cs[0]
    else
      var r := FirstMatch(cs[1..], path);
      assert forall i :: 1 <= i < |cs| ==> cs[i] == cs[1..][i - 1];
      r
  }

  /** The first match in a concatenation comes from the left part when it
      has one. */
  lemma {:induction false} FirstMatchAppend(a: seq<Option<EmbeddedFile>>, b: seq<Option<EmbeddedFile>>, path: string)
    ensures FirstMatch(a + b, path) ==
      if FirstMatch(a, path).Some? then FirstMatch(a, path) else FirstMatch(b, path)
  {
    if |a| == 0 {
      assert a + b == b;
    } else {
      assert (a + b)[0] == a[0];
      assert (a + b)[1..] == a[1..] + b;
      FirstMatchAppend(a[1..], b, path);
    }
  }

  lemma {:induction false} LookupInLibrariesIsFirstMatch(libs: seq<Library>, path: string)
    ensures LookupInLibraries(libs, path) == FirstMatch(Candidates(libs), path)
  {
    if |libs| > 0 {
      var head: seq<Option<EmbeddedFile>> := [libs[0].controlFile, libs[0].scriptFile];
      FirstMatchAppend(head, Candidates(libs[1..]), path);
      assert head[1..] == [libs[0].scriptFile];
      assert head[1..][1..] == [];
      LookupInLibrariesIsFirstMatch(libs[1..], path);
    }
  }

  /** The lookup is the first match in the flat list of every library
      file, newest library first and control before script, followed by
      the timezone file: any library file beats the timezone file. */
  lemma LookupIsPriorityOrder(libs: seq<Library>, tzData: seq<bv8>, path: string)
    ensures LookupEmbeddedFile(libs, tzData, path) ==
      FirstMatch(Candidates(libs) + [Some(TimezoneFile(tzData))], path)
  {
    var tz: seq<Option<EmbeddedFile>> := [Some(TimezoneFile(tzData))];
    LookupInLibrariesIsFirstMatch(libs, path);
    FirstMatchAppend(Candidates(libs), tz, path);
    assert tz[1..] == [];
  }

  /** Within one library the control file is tried before the script file,
      even when both names match. */
  lemma ControlBeforeScript(lib: Library, older: seq<Library>, tzData: seq<bv8>, path: string)
    requires Matches(lib.controlFile, path)
    ensures LookupEmbeddedFile([lib] + older, tzData, path) == lib.controlFile
  {
  }

  /** A newer library's matching file hides an older library's. */
  lemma {:induction false} NewerLibraryShadows(lib: Library, older: seq<Library>, tzData: seq<bv8>, path: string)
    requires Matches(lib.controlFile, path) || Matches(lib.scriptFile, path)
    ensures LookupEmbeddedFile([lib] + older, tzData, path) ==
      if Matches(lib.controlFile, path) then lib.controlFile else lib.scriptFile
  {
    assert ([lib] + older)[0] == lib;
  }

  /** `lookup_embedded_file` as the loop it is: walk the registry, then try
      the timezone file. */
  method FindEmbeddedFile(reg: Registry, tzData: seq<bv8>, path: string) returns (r: Option<EmbeddedFile>)
    ensures r == LookupEmbeddedFile(reg.libraries, tzData, path)
  {
    var libs := reg.libraries;
    var k := 0;
    while k < |libs|
      invariant 0 <= k <= |libs|
      invariant LookupInLibraries(libs, path) == LookupInLibraries(libs[k..], path)
    {
      if Matches(libs[k].controlFile, path) {
        return libs[k].controlFile;
      }
      if Matches(libs[k].scriptFile, path) {
        return libs[k].scriptFile;
      }
      assert libs[k..][1..] == libs[k + 1..];
      k := k + 1;
    }
    if PathEndsWith(path, TimezoneFileName) {
      return Some(TimezoneFile(tzData));
    }
    return None;
  }

  /** `has_embedded_file`: some library file, or the timezone file,
      matches the path. */
  function HasEmbeddedFile(libs: seq<Library>, tzData: seq<bv8>, path: string): (r: bool)
    ensures r <==>
      PathEndsWith(path, TimezoneFileName) ||
      exists i :: 0 <= i < |libs| && (Matches(libs[i].controlFile, path) || Matches(libs[i].scriptFile, path))
  {
    LookupEmbeddedFile(libs, tzData, path).Some?
  }

  /** `get_embedded_file_data`: the file's bytes, and the new value of
      `*length` (None when the caller passed NULL).  A miss returns NULL and
      leaves `*length` as it was. */
  function GetEmbeddedFileData(libs: seq<Library>, tzData: seq<bv8>, path: string, length: Option<int>)
    : (r: (Option<seq<bv8>>, Option<int>))
    ensures r.0.None? <==> !HasEmbeddedFile(libs, tzData, path)
    ensures r.0.None? ==> r.1 == length
    ensures r.0.Some? ==> exists f: EmbeddedFile ::
      LookupEmbeddedFile(libs, tzData, path) == Some(f) && r.0 == Some(f.data) &&
      r.1 == (if length.Some? then Some(f.len) else None)
  {
    match LookupEmbeddedFile(libs, tzData, path)
    case None => (None, length)
    case Some(f) => (Some(f.data), if length.Some? then Some(f.len) else None)
  }
}
