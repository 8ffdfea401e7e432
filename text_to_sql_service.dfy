/**
 * The SQL-mode knowledge store's loader: the CSV becomes one SQLite table
 * named after the file, with column names made safe for SQL.
 */
module TextToSqlService {
  import opened Wrappers
  import opened Text
  import opened Tabular

  const SqliteScheme: string := "sqlite:///"

  /** `col.replace(' ', '_').replace('/', '_').replace('(', '').replace(')', '')`. */
  function SanitizeColumn(col: string): string {
    RemoveChar(RemoveChar(ReplaceChar(ReplaceChar(col, ' ', '_'), '/', '_'), '('), ')')
  }

  function SanitizedColumns(columns: seq<string>): (r: seq<string>)
    ensures |r| == |columns|
    ensures forall i :: 0 <= i < |columns| ==> r[i] == SanitizeColumn(columns[i])
  {
    seq(|columns|, i requires 0 <= i < |columns| => SanitizeColumn(columns[i]))
  }

  predicate Unsafe(c: char) {
    c == ' ' || c == '/' || c == '(' || c == ')'
  }

  /** The rule read one character at a time: parentheses dropped, space and slash to `_`, the rest kept in order. */
  function SanitizeReference(col: string): string
    decreases |col|
  {
    if |col| == 0 then ""
    else
      (if col[0] == '(' || col[0] == ')' then ""
       else [if col[0] == ' ' || col[0] == '/' then '_' else col[0]])
      + SanitizeReference(col[1..])
  }

  /** The chain of four `replace` calls is the per-character rule. */
  lemma {:induction false} SanitizeIsPerCharacter(col: string)
    ensures SanitizeColumn(col) == SanitizeReference(col)
    decreases |col|
  {
    if |col| > 0 {
      var a := ReplaceChar(col, ' ', '_');
      assert a[1..] == ReplaceChar(col[1..], ' ', '_');
      var b := ReplaceChar(a, '/', '_');
      assert b[1..] == ReplaceChar(a[1..], '/', '_');
      var c := RemoveChar(b, '(');
      assert c == (if b[0] == '(' then "" else [b[0]]) + RemoveChar(b[1..], '(');
      var rest := RemoveChar(b[1..], '(');
      var head := if b[0] == '(' then "" else [b[0]];
      RemoveCharConcat(head, rest, ')');
      if head != "" {
        assert RemoveChar(head, ')') == if b[0] == ')' then "" else [b[0]];
      }
      SanitizeIsPerCharacter(col[1..]);
    }
  }

  lemma {:induction false} RemoveCharConcat(x: string, y: string, a: char)
    ensures RemoveChar(x + y, a) == RemoveChar(x, a) + RemoveChar(y, a)
    decreases |x|
  {
    if |x| == 0 {
      assert x + y == y;
    } else {
      assert (x + y)[0] == x[0];
      assert (x + y)[1..] == x[1..] + y;
      RemoveCharConcat(x[1..], y, a);
    }
  }

  /** A sanitised name holds no space, slash or parenthesis. */
  lemma {:induction false} SanitizedIsSafe(col: string)
    ensures forall i :: 0 <= i < |SanitizeColumn(col)| ==> !Unsafe(SanitizeColumn(col)[i])
  {
    SanitizeIsPerCharacter(col);
    ReferenceIsSafe(col);
  }

  lemma {:induction false} ReferenceIsSafe(col: string)
    ensures forall i :: 0 <= i < |SanitizeReference(col)| ==> !Unsafe(SanitizeReference(col)[i])
    decreases |col|
  {
    if |col| > 0 {
      ReferenceIsSafe(col[1..]);
    }
  }

  /** A name that is already safe is left as it is. */
  lemma {:induction false} SafeNameUnchanged(col: string)
    requires forall i :: 0 <= i < |col| ==> !Unsafe(col[i])
    ensures SanitizeColumn(col) == col
  {
    SanitizeIsPerCharacter(col);
    SafeReferenceUnchanged(col);
  }

  lemma {:induction false} SafeReferenceUnchanged(col: string)
    requires forall i :: 0 <= i < |col| ==> !Unsafe(col[i])
    ensures SanitizeReference(col) == col
    decreases |col|
  {
    if |col| > 0 {
      SafeReferenceUnchanged(col[1..]);
    }
  }

  /** Sanitising twice is sanitising once. */
  lemma SanitizeIdempotent(col: string)
    ensures SanitizeColumn(SanitizeColumn(col)) == SanitizeColumn(col)
  {
    SanitizedIsSafe(col);
    SafeNameUnchanged(SanitizeColumn(col));
  }

  /** Only parentheses are dropped: the name shrinks by their number. */
  lemma {:induction false} SanitizeLength(col: string)
    ensures |SanitizeColumn(col)| == |col| - Count(col, '(') - Count(col, ')')
  {
    SanitizeIsPerCharacter(col);
    ReferenceLength(col);
  }

  lemma {:induction false} ReferenceLength(col: string)
    ensures |SanitizeReference(col)| == |col| - Count(col, '(') - Count(col, ')')
    decreases |col|
  {
    if |col| > 0 {
      ReferenceLength(col[1..]);
    }
  }

  /** `os.path.basename` (POSIX): everything after the last `/`. */
  function BaseName(p: string): string {
    p[LastIndexOf(p, '/') + 1..]
  }

  /**
   * `os.path.splitext(p)[0]` (POSIX): cut at the last `.` after the last `/`,
   * unless only dots precede it in the final component (a leading dot starts
   * a name, not an extension).
   */
  function SplitExtRoot(p: string): string {
    var sepIndex := LastIndexOf(p, '/');
    var dotIndex := LastIndexOf(p, '.');
    if dotIndex > sepIndex && exists j :: sepIndex + 1 <= j < dotIndex && p[j] != '.'
    then p[..dotIndex]
    else p
  }

  /** `os.path.splitext(os.path.basename(file_path))[0]`. */
  function TableName(filePath: string): string {
    SplitExtRoot(BaseName(filePath))
  }

  /** A path's final component: free of `/`, and the path ends with it. */
  lemma BaseNameShape(filePath: string)
    ensures var b := BaseName(filePath);
      && '/' !in b
      && filePath == filePath[..|filePath| - |b|] + b
  {
    var s := LastIndexOf(filePath, '/');
    var b := filePath[s + 1..];
    assert filePath[..s + 1] + b == filePath;
    if s == -1 {
      assert b == filePath;
    } else {
      forall k | 0 <= k < |b|
        ensures b[k] != '/'
      {
        assert b[k] == filePath[s + 1 + k];
      }
    }
  }

  /** Cutting the extension off a `/`-free name leaves a prefix, and what is cut is one `.` and dot-free text. */
  lemma SplitExtRootShape(b: string)
    requires '/' !in b
    ensures var t := SplitExtRoot(b);
      && t <= b
      && (t == b || (b[|t|] == '.' && '.' !in b[|t| + 1..]))
  {
    var t := SplitExtRoot(b);
    if t != b {
      var d := LastIndexOf(b, '.');
      assert t == b[..d];
    }
  }

  /**
   * The table name is the file's base name with at most its last extension
   * removed: a prefix of the base name, free of `/`, and what is cut off is
   * empty or one `.` followed by dot-free text.
   */
  lemma TableNameShape(filePath: string)
    ensures var b := BaseName(filePath); var t := TableName(filePath);
      && '/' !in b && '/' !in t
      && filePath == filePath[..|filePath| - |b|] + b
      && t <= b
      && (t == b || (b[|t|] == '.' && '.' !in b[|t| + 1..]))
  {
    var b := BaseName(filePath);
    BaseNameShape(filePath);
    SplitExtRootShape(b);
    var t := TableName(filePath);
    assert forall j :: 0 <= j < |t| ==> t[j] == b[j];
  }

  /**
   * An upload saved under a directory as `name.csv` gives the table `name`,
   * dots inside `name` included, as long as `name` is not dots only.
   */
  lemma CsvUploadTableName(dir: string, name: string)
    requires '/' !in name
    requires exists j :: 0 <= j < |name| && name[j] != '.'
    ensures TableName(dir + "/" + name + ".csv") == name
  {
    var p := dir + "/" + name + ".csv";
    var file := name + ".csv";
    assert forall j :: |dir| < j < |p| ==> p[j] == file[j - |dir| - 1];
    assert forall j :: 0 <= j < |file| ==> file[j] != '/';
    LastIndexOfAt(p, '/', |dir|);
    assert BaseName(p) == file;
    LastIndexOfAt(file, '.', |name|);
    var j :| 0 <= j < |name| && name[j] != '.';
    assert file[j] == name[j];
    assert file[..|name|] == name;
  }

  /** A dot-file such as `.csv` or `.listings` has no extension: the name stays whole. */
  lemma LeadingDotIsNotExtension(dir: string, name: string)
    requires '/' !in name && '.' !in name
    ensures TableName(dir + "/." + name) == "." + name
  {
    var p := dir + "/." + name;
    var file := "." + name;
    assert forall j :: |dir| < j < |p| ==> p[j] == file[j - |dir| - 1];
    assert forall j :: 0 <= j < |file| ==> file[j] != '/';
    LastIndexOfAt(p, '/', |dir|);
    assert BaseName(p) == file;
    assert forall j :: 0 < j < |file| ==> file[j] != '.';
    LastIndexOfAt(file, '.', 0);
  }

  class TextToSQLService {
    const dbPath: string
    /** The table the last read file was loaded as; `None` before any load. */
    var tableName: Option<string>
    /** The SQLite file's tables, by name, as `to_sql` left them. */
    var tables: map<string, Frame>

    /** `existing` is whatever the database file already holds. */
    constructor (dbPath: string, existing: map<string, Frame>)
      ensures this.dbPath == dbPath && tableName.None? && tables == existing
    {
      this.dbPath := dbPath;
      tableName := None;
      tables := existing;
    }

    /**
     * `load_csv_to_sql`: `read` is what `pd.read_csv` yields (`None` when it
     * raises) and `writeSucceeds` whether SQLite accepts the table. The name
     * is assigned before the write, so a failed write still changes it.
     */
    method LoadCsvToSql(filePath: string, read: Option<Frame>, writeSucceeds: bool) returns (ok: bool)
      modifies this`tableName, this`tables
      ensures ok <==> read.Some? && writeSucceeds
      ensures read.None? ==> tableName == old(tableName)
      ensures read.Some? ==> tableName == Some(TableName(filePath))
      ensures !ok ==> tables == old(tables)
      ensures ok ==> tables == old(tables)[TableName(filePath) := Frame(SanitizedColumns(read.value.columns), read.value.rows)]
    {
      if read.None? {
        return false;
      }
      var df := read.value;
      df := df.(columns := SanitizedColumns(df.columns));
      tableName := Some(TableName(filePath));
      if !writeSucceeds {
        return false;
      }
      tables := tables[tableName.value := df];
      return true;
    }

    /** The SQLAlchemy URL of the database file: the SQLite scheme, then the path as given. */
    function GetDbUri(): (uri: string)
      ensures |uri| == |SqliteScheme| + |dbPath|
      ensures uri[..|SqliteScheme|] == SqliteScheme && uri[|SqliteScheme|..] == dbPath
    {
      SqliteScheme + dbPath
    }
  }
}
