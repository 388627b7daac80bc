/** The in-process initdb: the entry checks and defaults, the fixed plan
    of subdirectories, the BKI token substitution, the option list handed
    to `createdb`, the post-bootstrap script loop and the creation of the
    two template databases.  File I/O, `fork`/`waitpid` and the engine are
    outcome parameters. */
module Initdb {
  import opened Common

  // ---------------------------------------------------------------------
  // Entry checks and defaults
  // ---------------------------------------------------------------------

  /** The settings initdb runs with once its arguments are accepted. */
  datatype Settings = Settings(dataDir: string, username: string, encoding: string, locale: string)

  datatype Start =
    | Refused            // a required argument is NULL: -1
    | AlreadyInitialized // `<data_dir>/PG_VERSION` exists: 0, nothing created
    | Proceed(settings: Settings)

  /** `pg_embedded_initdb_main` before it creates anything.  The version
      file is probed only once both required arguments are present. */
  function StartInitdb(dataDir: Option<string>, username: Option<string>, encoding: Option<string>,
                       locale: Option<string>, versionFileExists: bool): (s: Start)
    ensures s.Refused? <==> dataDir.None? || username.None?
    ensures s.AlreadyInitialized? <==> dataDir.Some? && username.Some? && versionFileExists
    ensures s.Proceed? ==>
      s.settings.dataDir == dataDir.value && s.settings.username == username.value &&
      s.settings.encoding == encoding.GetOr("UTF8") && s.settings.locale == locale.GetOr("C")
  {
    if dataDir.None? || username.None? then Refused
    else if versionFileExists then AlreadyInitialized
    else Proceed(Settings(dataDir.value, username.value,
                          if encoding.Some? then encoding.value else "UTF8",
                          if locale.Some? then locale.value else "C"))
  }

  // ---------------------------------------------------------------------
  // The directory plan
  // ---------------------------------------------------------------------

  /** An entry of the `subdirs` table, split at its slash: `parent` is ""
      for a directory directly under the data directory. */
  datatype Subdir = Subdir(parent: string, name: string)

  /** The entry as the table spells it, relative to the data directory. */
  function Path(d: Subdir): string {
    if d.parent == "" then d.name else d.parent + "/" + d.name
  }

  function Top(name: string): Subdir { Subdir("", name) }

  /** The `subdirs` table, in order. */
  const Subdirs: seq<Subdir> := [
    Top("global"), Subdir("pg_wal", "archive_status"), Top("pg_commit_ts"), Top("pg_dynshmem"),
    Top("pg_notify"), Top("pg_serial"), Top("pg_snapshots"), Top("pg_subtrans"), Top("pg_twophase"),
    Top("pg_multixact"), Subdir("pg_multixact", "members"), Subdir("pg_multixact", "offsets"),
    Top("base"), Subdir("base", "1"), Top("pg_replslot"), Top("pg_tblspc"), Top("pg_stat"),
    Top("pg_stat_tmp"), Top("pg_xact"), Top("pg_logical"), Subdir("pg_logical", "snapshots"),
    Subdir("pg_logical", "mappings")]

  /** Every `mkdir` under the data directory, in order: `pg_wal` first
      (`create_xlog_symlink`), then the table (`create_subdirectories`). */
  const DirPlan: seq<Subdir> := [Top("pg_wal")] + Subdirs

  function Paths(ds: seq<Subdir>): (ps: seq<string>)
    ensures |ps| == |ds|
  {
    if |ds| == 0 then [] else [Path(ds[0])] + Paths(ds[1..])
  }

  /** Each entry below another has its parent ready: one of `made`, or
      an earlier top-level entry of the plan. */
  predicate ParentsReady(plan: seq<Subdir>, made: seq<string>) {
    forall i :: 0 <= i < |plan| && plan[i].parent != "" ==>
      plan[i].parent in made || Top(plan[i].parent) in plan[..i]
  }

  /** Every parent in the plan is created before its children. */
  lemma DirPlanParentsFirst()
    ensures ParentsReady(DirPlan, [])
  {
    var p := DirPlan;
    forall i | 0 <= i < |p| && p[i].parent != ""
      ensures Top(p[i].parent) in p[..i]
    {
      // `pg_wal`, `pg_multixact`, `base` and `pg_logical` sit at 0, 10, 13 and 20.
      var j := if i == 2 then 0 else if i < 13 then 10 else if i < 20 then 13 else 20;
      assert p[..i][j] == Top(p[i].parent);
    }
  }

  datatype MkdirError = NoParent | AlreadyExists | IoError

  /** `mkdir` of one entry, given the directories that already exist:
      ENOENT without the parent, EEXIST for an existing directory, and any
      other failure as the oracle says. */
  function Mkdir(d: Subdir, existing: set<string>, made: seq<string>, ioErrors: set<string>): (r: Option<MkdirError>)
    ensures r == Some(NoParent) ==> d.parent != "" && d.parent !in made
  {
    if d.parent != "" && d.parent !in existing && d.parent !in made then Some(NoParent)
    else if Path(d) in existing || Path(d) in made then Some(AlreadyExists)
    else if Path(d) in ioErrors then Some(IoError)
    else None
  }

  /** The directories created and, when one `mkdir` fails, which one and
      why: initdb then exits with status 1. */
  datatype DirsRun = DirsRun(created: seq<string>, failure: Option<(string, MkdirError)>)

  /** The plan run from `made` on: stop at the first failing `mkdir`. */
  function RunPlan(plan: seq<Subdir>, existing: set<string>, ioErrors: set<string>, made: seq<string>): (r: DirsRun)
    ensures r.failure.None? ==> r.created == made + Paths(plan)
    ensures made <= r.created && |r.created| <= |made| + |plan|
    decreases |plan|
  {
    if |plan| == 0 then DirsRun(made, None)
    else match Mkdir(plan[0], existing, made, ioErrors)
      case Some(e) => DirsRun(made, Some((Path(plan[0]), e)))
      case None =>
        var made' := made + [Path(plan[0])];
        var r := RunPlan(plan[1..], existing, ioErrors, made');
        r
  }

  /** With parents ready, no `mkdir` of the plan fails for a missing
      parent, whatever already exists and whatever other errors occur. */
  lemma {:induction false} ReadyPlanHasParents(plan: seq<Subdir>, existing: set<string>, ioErrors: set<string>,
                                               made: seq<string>)
    requires ParentsReady(plan, made)
    ensures var r := RunPlan(plan, existing, ioErrors, made);
      r.failure.None? || r.failure.value.1 != NoParent
    decreases |plan|
  {
    if |plan| > 0 && Mkdir(plan[0], existing, made, ioErrors).None? {
      var made' := made + [Path(plan[0])];
      forall i | 0 <= i < |plan[1..]| && plan[1..][i].parent != ""
        ensures plan[1..][i].parent in made' || Top(plan[1..][i].parent) in plan[1..][..i]
      {
        var p := plan[i + 1].parent;
        if p !in made {
          var k :| 0 <= k < i + 1 && plan[..i + 1][k] == Top(p);
          if k == 0 {
            assert made'[|made|] == p;
          } else {
            assert plan[1..][..i][k - 1] == Top(p);
          }
        }
      }
      ReadyPlanHasParents(plan[1..], existing, ioErrors, made');
    } else if |plan| > 0 {
      assert plan[..0] == [];
    }
  }

  /** The directory creation of initdb never fails for want of a parent. */
  lemma DirPlanNeverLacksParent(existing: set<string>, ioErrors: set<string>)
    ensures var r := RunPlan(DirPlan, existing, ioErrors, []);
      r.failure.None? || r.failure.value.1 != NoParent
  {
    DirPlanParentsFirst();
    ReadyPlanHasParents(DirPlan, existing, ioErrors, []);
  }

  /** `create_xlog_symlink` and `create_subdirectories`: `pg_wal`, then
      the table in order; the first failing `mkdir` ends initdb with
      `exit(1)`.  `existing` holds the directories already present under
      the data directory. */
  method CreateSubdirectories(existing: set<string>, ioErrors: set<string>)
    returns (created: seq<string>, failure: Option<(string, MkdirError)>)
    ensures DirsRun(created, failure) == RunPlan(DirPlan, existing, ioErrors, [])
  {
    created := [];
    var e := Mkdir(Top("pg_wal"), existing, created, ioErrors);
    if e.Some? {
      return created, Some(("pg_wal", e.value));
    }
    created := created + ["pg_wal"];
    assert DirPlan[1..] == Subdirs;
    var i := 0;
    while i < |Subdirs|
      invariant 0 <= i <= |Subdirs|
      invariant RunPlan(DirPlan, existing, ioErrors, []) == RunPlan(Subdirs[i..], existing, ioErrors, created)
    {
      e := Mkdir(Subdirs[i], existing, created, ioErrors);
      if e.Some? {
        return created, Some((Path(Subdirs[i]), e.value));
      }
      created := created + [Path(Subdirs[i])];
      assert Subdirs[i..][1..] == Subdirs[i + 1..];
      i := i + 1;
    }
    failure := None;
  }

  // ---------------------------------------------------------------------
  // BKI token substitution
  // ---------------------------------------------------------------------

  /** What the substitution writes for each token: the compile-time
      `NAMEDATALEN` and pointer size, the user name, the encoding id
      `pg_char_to_encoding` gives for the encoding, and the locale. */
  datatype BkiValues = BkiValues(nameDataLen: int, pointerSize: int, username: string, encodingId: int, locale: string)

  /** The token the scanner recognises at the start of `rest`, in the
      order it tests them, with its length and its replacement. */
  function TokenAt(rest: string, v: BkiValues): (r: Option<(nat, string)>)
    ensures r.Some? ==> 0 < r.value.0 <= |rest|
  {
    if StartsWith(rest, "NAMEDATALEN") then Some((11, IntToDecimal(v.nameDataLen)))
    else if StartsWith(rest, "SIZEOF_POINTER") then Some((14, IntToDecimal(v.pointerSize)))
    else if StartsWith(rest, "ALIGNOF_POINTER") then Some((15, if v.pointerSize == 4 then "i" else "d"))
    else if StartsWith(rest, "POSTGRES") then Some((8, v.username))
    else if StartsWith(rest, "ENCODING") then Some((8, IntToDecimal(v.encodingId)))
    else if StartsWith(rest, "LC_COLLATE") then Some((10, v.locale))
    else if StartsWith(rest, "LC_CTYPE") then Some((8, v.locale))
    else if StartsWith(rest, "DATLOCALE") then Some((9, "_null_"))
    else if StartsWith(rest, "ICU_RULES") then Some((9, "_null_"))
    else if StartsWith(rest, "LOCALE_PROVIDER") then Some((15, "c"))
    else None
  }

  /** One line after substitution, left to right: a recognised token is
      replaced and skipped, anything else copied one character at a
      time.  Replacements are never scanned again. */
  function Substitute(line: string, v: BkiValues): (r: string)
    ensures |line| > 0 && TokenAt(line, v).None? ==> |r| > 0 && r[0] == line[0]
    decreases |line|
  {
    if |line| == 0 then ""
    else match TokenAt(line, v)
      case Some((n, text)) => text + Substitute(line[n..], v)
      case None => [line[0]] + Substitute(line[1..], v)
  }

  /** The scanner's `while (*in)` loop over one line. */
  method SubstituteLine(line: string, v: BkiValues) returns (out: string)
    ensures out == Substitute(line, v)
  {
    out := "";
    var i := 0;
    while i < |line|
      invariant 0 <= i <= |line|
      invariant out + Substitute(line[i..], v) == Substitute(line, v)
      decreases |line| - i
    {
      var piece, n := NextPiece(line, i, v);
      AppendAssociates(out, piece, Substitute(line[i + n..], v));
      out := out + piece;
      i := i + n;
    }
  }

  /** One turn of the scanner at position `i`: a recognised token's
      replacement, or the character itself, and how far to advance. */
  method NextPiece(line: string, i: nat, v: BkiValues) returns (piece: string, n: nat)
    requires i < |line|
    ensures 0 < n <= |line| - i
    ensures Substitute(line[i..], v) == piece + Substitute(line[i + n..], v)
  {
    var t := TokenAt(line[i..], v);
    if t.Some? {
      assert line[i..][t.value.0..] == line[i + t.value.0..];
      piece, n := t.value.1, t.value.0;
    } else {
      assert line[i..][1..] == line[i + 1..];
      piece, n := [line[i]], 1;
    }
  }

  /** The BKI file copied line by line with substitution. */
  method SubstituteFile(lines: seq<string>, v: BkiValues) returns (out: seq<string>)
    ensures |out| == |lines|
    ensures forall k :: 0 <= k < |lines| ==> out[k] == Substitute(lines[k], v)
  {
    out := [];
    for k := 0 to |lines|
      invariant |out| == k
      invariant forall j :: 0 <= j < k ==> out[j] == Substitute(lines[j], v)
    {
      var line := SubstituteLine(lines[k], v);
      out := out + [line];
    }
  }

  /** No token anywhere in `line`. */
  predicate TokenFree(line: string, v: BkiValues) {
    forall i :: 0 <= i < |line| ==> TokenAt(line[i..], v).None?
  }

  /** A line without tokens is copied unchanged. */
  lemma {:induction false} TokenFreeLineUnchanged(line: string, v: BkiValues)
    requires TokenFree(line, v)
    ensures Substitute(line, v) == line
    decreases |line|
  {
    if |line| > 0 {
      assert line[0..] == line;
      assert TokenFree(line[1..], v) by {
        forall i | 0 <= i < |line[1..]|
          ensures TokenAt(line[1..][i..], v).None?
        {
          assert line[1..][i..] == line[i + 1..];
        }
      }
      TokenFreeLineUnchanged(line[1..], v);
    }
  }

  /** The user name replaces `POSTGRES` and is not scanned again, even
      when it spells a token itself. */
  lemma UsernameNotRescanned(rest: string, v: BkiValues)
    ensures Substitute("POSTGRES" + rest, v) == v.username + Substitute(rest, v)
  {
    var line := "POSTGRES" + rest;
    assert line[0] == 'P';
    assert !StartsWith(line, "NAMEDATALEN") && !StartsWith(line, "SIZEOF_POINTER") && !StartsWith(line, "ALIGNOF_POINTER");
    assert line[..8] == "POSTGRES";
    assert line[8..] == rest;
  }

  /** The scanner's replacement table, in the order it tests the tokens. */
  function TokenTable(v: BkiValues): seq<(string, string)> {
    [("NAMEDATALEN", IntToDecimal(v.nameDataLen)), ("SIZEOF_POINTER", IntToDecimal(v.pointerSize)),
     ("ALIGNOF_POINTER", if v.pointerSize == 4 then "i" else "d"), ("POSTGRES", v.username),
     ("ENCODING", IntToDecimal(v.encodingId)), ("LC_COLLATE", v.locale), ("LC_CTYPE", v.locale),
     ("DATLOCALE", "_null_"), ("ICU_RULES", "_null_"), ("LOCALE_PROVIDER", "c")]
  }

  /** Every token of the table is replaced by its text, and the scan goes
      on after the token: the replacement is never scanned again. */
  lemma TokenReplaced(j: nat, rest: string, v: BkiValues)
    requires j < |TokenTable(v)|
    ensures Substitute(TokenTable(v)[j].0 + rest, v) == TokenTable(v)[j].1 + Substitute(rest, v)
  {
    var tok := TokenTable(v)[j].0;
    var line := tok + rest;
    assert line[..|tok|] == tok;
    assert line[|tok|..] == rest;
    assert forall k :: 0 <= k < |tok| ==> line[k] == tok[k];
    if j == 0 {
    } else if j == 1 {
      DiffersAt(line, "NAMEDATALEN", 0);
    } else if j == 2 {
      DiffersAt(line, "NAMEDATALEN", 0);
      DiffersAt(line, "SIZEOF_POINTER", 0);
    } else if j == 3 {
      DiffersAt(line, "NAMEDATALEN", 0);
      DiffersAt(line, "SIZEOF_POINTER", 0);
      DiffersAt(line, "ALIGNOF_POINTER", 0);
    } else if j == 4 {
      DiffersAt(line, "NAMEDATALEN", 0);
      DiffersAt(line, "SIZEOF_POINTER", 0);
      DiffersAt(line, "ALIGNOF_POINTER", 0);
      DiffersAt(line, "POSTGRES", 0);
    } else if j == 5 {
      DiffersAt(line, "NAMEDATALEN", 0);
      DiffersAt(line, "SIZEOF_POINTER", 0);
      DiffersAt(line, "ALIGNOF_POINTER", 0);
      DiffersAt(line, "POSTGRES", 0);
      DiffersAt(line, "ENCODING", 0);
    } else if j == 6 {
      DiffersAt(line, "NAMEDATALEN", 0);
      DiffersAt(line, "SIZEOF_POINTER", 0);
      DiffersAt(line, "ALIGNOF_POINTER", 0);
      DiffersAt(line, "POSTGRES", 0);
      DiffersAt(line, "ENCODING", 0);
      DiffersAt(line, "LC_COLLATE", 4);
    } else if j == 7 {
      DiffersAt(line, "NAMEDATALEN", 0);
      DiffersAt(line, "SIZEOF_POINTER", 0);
      DiffersAt(line, "ALIGNOF_POINTER", 0);
      DiffersAt(line, "POSTGRES", 0);
      DiffersAt(line, "ENCODING", 0);
      DiffersAt(line, "LC_COLLATE", 0);
      DiffersAt(line, "LC_CTYPE", 0);
    } else if j == 8 {
      DiffersAt(line, "NAMEDATALEN", 0);
      DiffersAt(line, "SIZEOF_POINTER", 0);
      DiffersAt(line, "ALIGNOF_POINTER", 0);
      DiffersAt(line, "POSTGRES", 0);
      DiffersAt(line, "ENCODING", 0);
      DiffersAt(line, "LC_COLLATE", 0);
      DiffersAt(line, "LC_CTYPE", 0);
      DiffersAt(line, "DATLOCALE", 0);
    } else if j == 9 {
      DiffersAt(line, "NAMEDATALEN", 0);
      DiffersAt(line, "SIZEOF_POINTER", 0);
      DiffersAt(line, "ALIGNOF_POINTER", 0);
      DiffersAt(line, "POSTGRES", 0);
      DiffersAt(line, "ENCODING", 0);
      DiffersAt(line, "LC_COLLATE", 1);
      DiffersAt(line, "LC_CTYPE", 1);
      DiffersAt(line, "DATLOCALE", 0);
      DiffersAt(line, "ICU_RULES", 0);
    }
    assert TokenAt(line, v) == Some((|tok|, TokenTable(v)[j].1));
  }

  lemma DiffersAt(line: string, t: string, k: nat)
    requires k < |t| && k < |line| && line[k] != t[k]
    ensures !StartsWith(line, t)
  {
    if |t| <= |line| {
      assert line[..|t|][k] == line[k];
    }
  }

  /** `ALIGNOF_POINTER` becomes `i` for 4-byte pointers and `d` otherwise. */
  lemma AlignmentLetter(rest: string, v: BkiValues)
    ensures Substitute("ALIGNOF_POINTER" + rest, v) == (if v.pointerSize == 4 then "i" else "d") + Substitute(rest, v)
  {
    var line := "ALIGNOF_POINTER" + rest;
    assert line[0] == 'A';
    assert !StartsWith(line, "NAMEDATALEN") && !StartsWith(line, "SIZEOF_POINTER");
    assert line[..15] == "ALIGNOF_POINTER";
    assert line[15..] == rest;
  }

  // ---------------------------------------------------------------------
  // create_database_direct
  // ---------------------------------------------------------------------

  datatype OptionValue = StringValue(s: string) | BooleanValue(b: bool) | IntegerValue(i: int)

  /** A `DefElem` of the `CreatedbStmt` option list. */
  datatype DefElem = DefElem(name: string, arg: OptionValue)

  type Oid = nat
  const InvalidOid: Oid := 0

  /** The option list, in the order it is built: owner, template, locale
      provider, both locale categories, then `is_template` only for a
      template, `allow_connections` only when connections are refused,
      the connection limit, the oid only when valid, and the strategy.
      No encoding is given: it comes from template1. */
  function CreatedbOptions(owner: string, locale: string, dbOid: Oid, isTemplate: bool, allowConnections: bool)
    : (opts: seq<DefElem>)
    ensures |opts| == 7 + (if isTemplate then 1 else 0) + (if allowConnections then 0 else 1) +
                          (if dbOid != InvalidOid then 1 else 0)
    ensures opts[..5] == [DefElem("owner", StringValue(owner)), DefElem("template", StringValue("template1")),
                          DefElem("locale_provider", StringValue("libc")), DefElem("lc_collate", StringValue(locale)),
                          DefElem("lc_ctype", StringValue(locale))]
    ensures opts[|opts| - 1] == DefElem("strategy", StringValue("file_copy"))
  {
    [DefElem("owner", StringValue(owner)), DefElem("template", StringValue("template1")),
     DefElem("locale_provider", StringValue("libc")), DefElem("lc_collate", StringValue(locale)),
     DefElem("lc_ctype", StringValue(locale))] +
    (if isTemplate then [DefElem("is_template", BooleanValue(true))] else []) +
    (if !allowConnections then [DefElem("allow_connections", BooleanValue(false))] else []) +
    [DefElem("connection_limit", IntegerValue(-1))] +
    (if dbOid != InvalidOid then [DefElem("oid", IntegerValue(dbOid))] else []) +
    [DefElem("strategy", StringValue("file_copy"))]
  }
  /** `is_template`, `allow_connections = false` and `oid` are in the list
      exactly when their conditions hold. */
  lemma CreatedbOptionFlags(owner: string, locale: string, dbOid: Oid, isTemplate: bool, allowConnections: bool)
    ensures var opts := CreatedbOptions(owner, locale, dbOid, isTemplate, allowConnections);
      (DefElem("is_template", BooleanValue(true)) in opts <==> isTemplate) &&
      (DefElem("allow_connections", BooleanValue(false)) in opts <==> !allowConnections) &&
      (DefElem("oid", IntegerValue(dbOid)) in opts <==> dbOid != InvalidOid)
  {
    TemplateFlag(owner, locale, dbOid, isTemplate, allowConnections);
    ConnectionsFlag(owner, locale, dbOid, isTemplate, allowConnections);
    OidFlag(owner, locale, dbOid, isTemplate, allowConnections);
  }

  lemma TemplateFlag(owner: string, locale: string, dbOid: Oid, isTemplate: bool, allowConnections: bool)
    ensures DefElem("is_template", BooleanValue(true)) in CreatedbOptions(owner, locale, dbOid, isTemplate, allowConnections)
      <==> isTemplate
  {
  }

  lemma ConnectionsFlag(owner: string, locale: string, dbOid: Oid, isTemplate: bool, allowConnections: bool)
    ensures DefElem("allow_connections", BooleanValue(false)) in CreatedbOptions(owner, locale, dbOid, isTemplate, allowConnections)
      <==> !allowConnections
  {
  }

  lemma OidFlag(owner: string, locale: string, dbOid: Oid, isTemplate: bool, allowConnections: bool)
    ensures DefElem("oid", IntegerValue(dbOid)) in CreatedbOptions(owner, locale, dbOid, isTemplate, allowConnections)
      <==> dbOid != InvalidOid
  {
  }




  /** The engine calls of `create_database_direct`. */
  datatype DbCall =
    | StartTransaction | Createdb(dbname: string, options: seq<DefElem>) | CommitTransaction
    | AbortTransaction | ExecSql(sql: string)

  /** Which call raises: `createdb` or the commit. */
  datatype CreatedbStep = AtCreatedb | AtCommit

  datatype CreatedbRun = CreatedbRun(calls: seq<DbCall>, rc: int)

  /** The comment statement run after a successful commit. */
  function CommentSql(dbname: string, comment: string): (sql: string)
    ensures StartsWith(sql, "COMMENT ON DATABASE " + dbname + " IS '")
    ensures |sql| >= 2 && sql[|sql| - 2..] == "';"
  {
    "COMMENT ON DATABASE " + dbname + " IS '" + comment + "';"
  }

  /** `create_database_direct`: a transaction around `createdb`; an
      error aborts it and gives -1; after the commit the comment is set
      through `pg_embedded_exec`, whose outcome is ignored.  As in the
      session log, a call that raised is not recorded. */
  function CreateDatabaseDirect(owner: string, locale: string, dbname: string, dbOid: Oid, isTemplate: bool,
                                allowConnections: bool, comment: Option<string>, fault: Option<CreatedbStep>)
    : (r: CreatedbRun)
    ensures |r.calls| >= 2 && r.calls[0] == StartTransaction
    ensures Createdb(dbname, CreatedbOptions(owner, locale, dbOid, isTemplate, allowConnections)) in r.calls <==>
            fault != Some(AtCreatedb)
    ensures fault != Some(AtCreatedb) ==>
            |r.calls| >= 3 && r.calls[1] == Createdb(dbname, CreatedbOptions(owner, locale, dbOid, isTemplate, allowConnections))
    ensures r.rc == 0 <==> fault.None?
    ensures r.rc != 0 ==> r.rc == -1 && r.calls[|r.calls| - 1] == AbortTransaction
    ensures r.rc == 0 ==> r.calls[2] == CommitTransaction && AbortTransaction !in r.calls
    ensures ExecSql(CommentSql(dbname, comment.GetOr(""))) in r.calls <==> r.rc == 0 && comment.Some?
  {
    var create := Createdb(dbname, CreatedbOptions(owner, locale, dbOid, isTemplate, allowConnections));
    match fault
    case Some(AtCreatedb) => CreatedbRun([StartTransaction, AbortTransaction], -1)
    case Some(AtCommit) => CreatedbRun([StartTransaction, create, AbortTransaction], -1)
    case None =>
      CreatedbRun([StartTransaction, create, CommitTransaction] +
                  (if comment.Some? then [ExecSql(CommentSql(dbname, comment.value))] else []), 0)
  }

  /** `template0`: oid 4, a template that refuses connections. */
  lemma Template0Options(owner: string, locale: string)
    ensures CreatedbOptions(owner, locale, 4, true, false) ==
      [DefElem("owner", StringValue(owner)), DefElem("template", StringValue("template1")),
       DefElem("locale_provider", StringValue("libc")), DefElem("lc_collate", StringValue(locale)),
       DefElem("lc_ctype", StringValue(locale)), DefElem("is_template", BooleanValue(true)),
       DefElem("allow_connections", BooleanValue(false)), DefElem("connection_limit", IntegerValue(-1)),
       DefElem("oid", IntegerValue(4)), DefElem("strategy", StringValue("file_copy"))]
  {
  }

  /** `postgres`: oid 5, not a template, connections allowed. */
  lemma PostgresOptions(owner: string, locale: string)
    ensures CreatedbOptions(owner, locale, 5, false, true) ==
      [DefElem("owner", StringValue(owner)), DefElem("template", StringValue("template1")),
       DefElem("locale_provider", StringValue("libc")), DefElem("lc_collate", StringValue(locale)),
       DefElem("lc_ctype", StringValue(locale)), DefElem("connection_limit", IntegerValue(-1)),
       DefElem("oid", IntegerValue(5)), DefElem("strategy", StringValue("file_copy"))]
  {
  }

  // ---------------------------------------------------------------------
  // Post-bootstrap scripts
  // ---------------------------------------------------------------------

  /** What happens to one SQL script: it cannot be opened, its buffer
      cannot be allocated, or it is run and `pg_embedded_exec` returns NULL
      (None) or a result with a status. */
  datatype ScriptOutcome = NotOpened | NoBuffer | Executed(status: Option<int>)

  predicate Fatal(s: ScriptOutcome) {
    s.NoBuffer? || s == Executed(None)
  }

  /** -1 at the first fatal script, 0 when there is none. */
  function ScriptsRc(outcomes: seq<ScriptOutcome>): (rc: int)
    ensures rc == 0 || rc == -1
  {
    if |outcomes| == 0 then 0
    else if Fatal(outcomes[0]) then -1
    else ScriptsRc(outcomes[1..])
  }

  /** The script draws a warning and the loop goes on: it cannot be
      opened, or its result has a negative status. */
  predicate Warns(s: ScriptOutcome) {
    s == NotOpened || (s.Executed? && s.status.Some? && s.status.value < 0)
  }

  /** The loop over the SQL files.  `warned` lists, in order, the scripts
      that drew a warning before the loop ended. */
  method RunScripts(outcomes: seq<ScriptOutcome>) returns (rc: int, warned: seq<nat>)
    ensures rc == ScriptsRc(outcomes)
    ensures rc == -1 <==> exists k :: 0 <= k < |outcomes| && Fatal(outcomes[k])
    ensures forall j :: 0 <= j < |warned| ==> warned[j] < |outcomes| && Warns(outcomes[warned[j]])
    ensures forall k :: 0 <= k < |outcomes| && (forall m :: 0 <= m <= k ==> !Fatal(outcomes[m])) ==>
      (k in warned <==> Warns(outcomes[k]))
  {
    warned := [];
    var i := 0;
    while i < |outcomes|
      invariant 0 <= i <= |outcomes|
      invariant ScriptsRc(outcomes) == ScriptsRc(outcomes[i..])
      invariant forall k :: 0 <= k < i ==> !Fatal(outcomes[k])
      invariant forall j :: 0 <= j < |warned| ==> warned[j] < i && Warns(outcomes[warned[j]])
      invariant forall k :: 0 <= k < i ==> (k in warned <==> Warns(outcomes[k]))
    {
      assert outcomes[i..][1..] == outcomes[i + 1..];
      match outcomes[i] {
        case NotOpened =>
          warned := warned + [i];
        case NoBuffer =>
          return -1, warned;
        case Executed(status) =>
          if status.None? {
            return -1, warned;
          }
          if status.value < 0 {
            warned := warned + [i];
          }
      }
      i := i + 1;
    }
    rc := 0;
  }

  // ---------------------------------------------------------------------
  // pg_embedded_initdb_main
  // ---------------------------------------------------------------------

  /** The outcomes of the file system, the bootstrap child and the
      embedded sessions during one initdb. */
  datatype InitdbOracle = InitdbOracle(
    versionFileExists: bool,
    dataDirMkdirError: bool,       // mkdir of the data directory fails other than with EEXIST
    existing: set<string>,         // subdirectories already present
    ioErrors: set<string>,         // subdirectories whose mkdir fails with an I/O error
    filesWritten: bool,            // both PG_VERSION files and postgresql.conf
    nameDataLen: int, pointerSize: int, encodingId: int,
    bkiOpened: bool,               // the BKI source and its substituted copy both open
    bootstrapOk: bool,             // fork and waitpid succeed, the child exits 0
    cwdOk: bool,                   // getcwd before the scripts
    systemInitOk: bool,            // pg_embedded_init_with_system_mods returns 0
    scripts: seq<ScriptOutcome>,
    callerCwd: string,             // the directory shutdown restored: the caller's
    absPathOk: bool,               // the directory calls for a relative data directory succeed
    reinitOk: bool,                // pg_embedded_init returns 0
    template0Fault: Option<CreatedbStep>,
    postgresFault: Option<CreatedbStep>)

  /** The process either returns from initdb or is ended by `exit`. */
  datatype InitdbEnd = Returned(rc: int) | Exited(status: int)

  /** One initdb: how it ends, the subdirectories it created, the values
      the BKI file was substituted with, whether the scripts ran, the
      data directory the second session was started on, the database
      creations, and whether an embedded session was left open. */
  datatype InitdbRun = InitdbRun(
    end: InitdbEnd, dirsCreated: seq<string>, bki: Option<BkiValues>, scriptsRan: bool,
    reinitDir: Option<string>, databases: seq<CreatedbRun>, sessionLeftOpen: bool)

  function RelativePath(dataDir: string): bool {
    |dataDir| == 0 || dataDir[0] != '/'
  }

  /** `path` without its last component and the '/' before it. */
  function DropLastComponent(path: string): (r: string)
    ensures path == "" || |r| < |path|
    ensures |r| <= |path| && r == path[..|r|]
  {
    if |path| == 0 then ""
    else if path[|path| - 1] == '/' then path[..|path| - 1]
    else DropLastComponent(path[..|path| - 1])
  }

  lemma {:induction false} DropLastComponentOf(parent: string, name: string)
    requires '/' !in name
    ensures DropLastComponent(parent + "/" + name) == parent
  {
    var path := parent + "/" + name;
    if |name| == 0 {
      assert path[..|path| - 1] == parent;
    } else {
      assert path[|path| - 1] == name[|name| - 1];
      assert path[..|path| - 1] == parent + "/" + name[..|name| - 1];
      DropLastComponentOf(parent, name[..|name| - 1]);
    }
  }

  /** What `chdir("..")` followed by `getcwd` gives in the absolute
      directory `cwd`: its parent, or "/" at the top. */
  function ParentDir(cwd: string): (p: string)
    ensures p != ""
    ensures p == "/" || (|p| < |cwd| && StartsWith(cwd, p))
  {
    var p := DropLastComponent(cwd);
    if p == "" then "/" else p
  }

  /** The absolute data directory for the second session as the code
      builds it: a relative data directory is appended to the parent of
      the current directory, on the belief that the current directory is
      still the data directory.  `pg_embedded_shutdown` has restored the
      caller's directory by then. */
  function AbsDataDirAsWritten(cwd: string, dataDir: string): (r: string)
    ensures !RelativePath(dataDir) ==> r == dataDir
    ensures RelativePath(dataDir) ==> |dataDir| < |r| && r[|r| - |dataDir|..] == dataDir
    ensures !RelativePath(cwd) ==> !RelativePath(r)
  {
    if RelativePath(dataDir) then ParentDir(cwd) + "/" + dataDir else dataDir
  }

  /** The absolute data directory the second session is meant to get: a
      relative data directory is resolved against the caller's directory,
      as it was for the first session. */
  function AbsDataDir(cwd: string, dataDir: string): (r: string)
    ensures !RelativePath(dataDir) ==> r == dataDir
    ensures RelativePath(dataDir) ==> r == cwd + "/" + dataDir
  {
    if RelativePath(dataDir) then cwd + "/" + dataDir else dataDir
  }

  /** From any directory `cwd` below the top, the code as written names a
      different directory than the one the first session used: the
      data directory moves up next to `cwd`. */
  lemma AbsDataDirAsWrittenMisses(parent: string, name: string, dataDir: string)
    requires name != "" && '/' !in name && RelativePath(dataDir)
    ensures AbsDataDirAsWritten(parent + "/" + name, dataDir) ==
            (if parent == "" then "/" else parent) + "/" + dataDir
    ensures AbsDataDirAsWritten(parent + "/" + name, dataDir) != AbsDataDir(parent + "/" + name, dataDir)
  {
    DropLastComponentOf(parent, name);
  }

  /** The corrected directory is absolute whenever the caller's directory
      is, so it keeps naming the same place after `pg_embedded_init`
      changes into the data directory: a relative data directory under
      the caller's directory, an absolute one unchanged. */
  lemma AbsDataDirIsAbsolute(cwd: string, dataDir: string)
    requires !RelativePath(cwd)
    ensures !RelativePath(AbsDataDir(cwd, dataDir))
    ensures StartsWith(AbsDataDir(cwd, dataDir), if RelativePath(dataDir) then cwd + "/" else dataDir)
  {
    var r := AbsDataDir(cwd, dataDir);
    if RelativePath(dataDir) {
      assert r[..|cwd + "/"|] == cwd + "/";
    }
  }

  /** `pg_embedded_initdb_main`, stage by stage, creating the
      subdirectories of `plan` (in the source, always `DirPlan`). */
  function InitdbMain(plan: seq<Subdir>, dataDir: Option<string>, username: Option<string>,
                      encoding: Option<string>, locale: Option<string>, o: InitdbOracle): (r: InitdbRun)
    ensures r.end == Returned(0) || r.end == Returned(-1) || r.end == Exited(1)
    ensures r.sessionLeftOpen ==> r.end == Returned(-1) && r.scriptsRan && r.databases == []
    ensures r.databases != [] ==> r.scriptsRan && r.reinitDir.Some? && !r.sessionLeftOpen
    ensures r.end.Exited? ==> !r.scriptsRan
  {
    match StartInitdb(dataDir, username, encoding, locale, o.versionFileExists)
    case Refused => InitdbRun(Returned(-1), [], None, false, None, [], false)
    case AlreadyInitialized => InitdbRun(Returned(0), [], None, false, None, [], false)
    case Proceed(st) =>
      if o.dataDirMkdirError then InitdbRun(Exited(1), [], None, false, None, [], false)
      else
        var dirs := RunPlan(plan, o.existing, o.ioErrors, []);
        if dirs.failure.Some? then InitdbRun(Exited(1), dirs.created, None, false, None, [], false)
        else if !o.filesWritten then InitdbRun(Exited(1), dirs.created, None, false, None, [], false)
        else if !o.bkiOpened then InitdbRun(Exited(1), dirs.created, None, false, None, [], false)
        else
          var bki := BkiValues(o.nameDataLen, o.pointerSize, st.username, o.encodingId, st.locale);
          if !o.bootstrapOk then InitdbRun(Exited(1), dirs.created, Some(bki), false, None, [], false)
          else if !o.cwdOk || !o.systemInitOk then InitdbRun(Returned(-1), dirs.created, Some(bki), false, None, [], false)
          else if ScriptsRc(o.scripts) != 0 then InitdbRun(Returned(-1), dirs.created, Some(bki), true, None, [], true)
          else if RelativePath(st.dataDir) && !o.absPathOk then
            InitdbRun(Returned(-1), dirs.created, Some(bki), true, None, [], false)
          else
            var abs := Some(AbsDataDir(o.callerCwd, st.dataDir));
            if !o.reinitOk then InitdbRun(Returned(-1), dirs.created, Some(bki), true, abs, [], false)
            else
              var t0 := CreateDatabaseDirect(st.username, st.locale, "template0", 4, true, false,
                                             Some("unmodifiable empty database"), o.template0Fault);
              if t0.rc != 0 then InitdbRun(Returned(-1), dirs.created, Some(bki), true, abs, [t0], false)
              else
                var pg := CreateDatabaseDirect(st.username, st.locale, "postgres", 5, false, true,
                                               Some("default administrative connection database"), o.postgresFault);
                InitdbRun(Returned(if pg.rc != 0 then -1 else 0), dirs.created, Some(bki), true, abs, [t0, pg], false)
  }

  /** An initialised data directory is left alone: 0 and nothing created. */
  lemma AlreadyInitializedCreatesNothing(plan: seq<Subdir>, dataDir: string, username: string, encoding: Option<string>,
                                         locale: Option<string>, o: InitdbOracle)
    requires o.versionFileExists
    ensures var r := InitdbMain(plan, Some(dataDir), Some(username), encoding, locale, o);
      r.end == Returned(0) && r.dirsCreated == [] && r.databases == [] && !r.scriptsRan
  {
  }

  /** initdb returns 0 having created anything only when every stage
      succeeded: the whole directory plan, the bootstrap with the user's
      name and the locale (or their defaults), every script without a
      fatal outcome, then template0 and postgres in that order. */
  lemma SuccessfulInitdb(plan: seq<Subdir>, dataDir: Option<string>, username: Option<string>, encoding: Option<string>,
                         locale: Option<string>, o: InitdbOracle)
    requires !o.versionFileExists
    ensures var r := InitdbMain(plan, dataDir, username, encoding, locale, o);
      r.end == Returned(0) <==>
        dataDir.Some? && username.Some? && !o.dataDirMkdirError &&
        RunPlan(plan, o.existing, o.ioErrors, []).failure.None? && o.filesWritten && o.bkiOpened &&
        o.bootstrapOk && o.cwdOk && o.systemInitOk && ScriptsRc(o.scripts) == 0 &&
        (RelativePath(dataDir.value) ==> o.absPathOk) && o.reinitOk &&
        o.template0Fault.None? && o.postgresFault.None?
    ensures var r := InitdbMain(plan, dataDir, username, encoding, locale, o);
      r.end == Returned(0) ==>
        r.dirsCreated == Paths(plan) &&
        r.bki == Some(BkiValues(o.nameDataLen, o.pointerSize, username.value, o.encodingId, locale.GetOr("C"))) &&
        r.reinitDir == Some(AbsDataDir(o.callerCwd, dataDir.value)) &&
        |r.databases| == 2 &&
        r.databases[0].calls[1] == Createdb("template0", CreatedbOptions(username.value, locale.GetOr("C"), 4, true, false)) &&
        r.databases[1].calls[1] == Createdb("postgres", CreatedbOptions(username.value, locale.GetOr("C"), 5, false, true))
  {
    var r := InitdbMain(plan, dataDir, username, encoding, locale, o);
    if r.end == Returned(0) {
      assert dataDir.Some? && username.Some?;
      assert RunPlan(plan, o.existing, o.ioErrors, []).failure.None?;
      assert [] + Paths(plan) == Paths(plan);
    }
  }

  /** The BKI values are recorded only once both BKI files opened, and
      the second session is started only after the scripts ran, on the
      data directory resolved against the caller's directory. */
  lemma BkiAndReinitStages(plan: seq<Subdir>, dataDir: Option<string>, username: Option<string>, encoding: Option<string>,
                           locale: Option<string>, o: InitdbOracle)
    ensures var r := InitdbMain(plan, dataDir, username, encoding, locale, o);
      (r.bki.Some? ==> o.filesWritten && o.bkiOpened) &&
      (r.reinitDir.Some? ==> r.scriptsRan && dataDir.Some? && r.reinitDir.value == AbsDataDir(o.callerCwd, dataDir.value))
  {
  }

  /** postgres is created only after template0 was. */
  lemma Template0First(plan: seq<Subdir>, dataDir: Option<string>, username: Option<string>, encoding: Option<string>,
                       locale: Option<string>, o: InitdbOracle)
    ensures var r := InitdbMain(plan, dataDir, username, encoding, locale, o);
      |r.databases| <= 2 && (|r.databases| == 2 ==> r.databases[0].rc == 0)
  {
  }

  /** A fatal script ends initdb with -1 and leaves the embedded session
      with system table modifications initialised: no shutdown is called
      on that path. */
  lemma FatalScriptLeavesSessionOpen(plan: seq<Subdir>, dataDir: string, username: string, encoding: Option<string>,
                                     locale: Option<string>, o: InitdbOracle)
    requires !o.versionFileExists && !o.dataDirMkdirError
    requires RunPlan(plan, o.existing, o.ioErrors, []).failure.None? && o.filesWritten && o.bkiOpened && o.bootstrapOk
    requires o.cwdOk && o.systemInitOk
    requires exists k :: 0 <= k < |o.scripts| && Fatal(o.scripts[k])
    ensures var r := InitdbMain(plan, Some(dataDir), Some(username), encoding, locale, o);
      r.end == Returned(-1) && r.sessionLeftOpen && r.databases == []
  {
    ScriptsRcFatal(o.scripts);
  }

  /** The script loop fails exactly when some script is fatal. */
  lemma {:induction false} ScriptsRcFatal(outcomes: seq<ScriptOutcome>)
    ensures ScriptsRc(outcomes) == -1 <==> exists k :: 0 <= k < |outcomes| && Fatal(outcomes[k])
  {
    if |outcomes| > 0 {
      ScriptsRcFatal(outcomes[1..]);
      if !Fatal(outcomes[0]) && exists k :: 0 <= k < |outcomes| && Fatal(outcomes[k]) {
        var k :| 0 <= k < |outcomes| && Fatal(outcomes[k]);
        assert outcomes[1..][k - 1] == outcomes[k];
      }
    }
  }
}
