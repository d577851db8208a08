/** The production summary: for a directory tree, one row per directory with its
    number of .root files and of events; for a file pattern, a single row; the
    rows printed as a padded table. */
module CountProd {
  import opened Text

  /** One row: name, number of files, number of events. */
  datatype Row = Row(name: string, files: nat, events: nat)

  /** One table line: each field left-aligned and padded to 40, 20 and 20
      characters, separated by " | ". */
  function FormatRow(row: Row): string
  {
    PadRight(row.name, 40) + " | " + PadRight(IntToString(row.files), 20) + " | " + PadRight(IntToString(row.events), 20)
  }

  /** format_result: the lines joined by newlines, none after the last. */
  function FormatResult(rows: seq<Row>): string
  {
    Join(seq(|rows|, i requires 0 <= i < |rows| => FormatRow(rows[i])), "\n")
  }

  /** A line is at least 86 characters long, never truncates a field, and starts
      with the name. */
  lemma FormatRowLayout(row: Row)
    ensures |FormatRow(row)| >= 40 + 3 + 20 + 3 + 20
    ensures StartsWith(FormatRow(row), row.name)
    ensures |row.name| <= 40 ==> FormatRow(row)[40..43] == " | "
  {
    var a := PadRight(row.name, 40);
    assert FormatRow(row) == a + " | " + PadRight(IntToString(row.files), 20) + " | " + PadRight(IntToString(row.events), 20);
    assert FormatRow(row)[..|row.name|] == a[..|row.name|];
  }

  /** The table has one line per row: a name without line breaks gives exactly
      one newline fewer than rows. */
  lemma FormatResultLines(rows: seq<Row>)
    requires |rows| >= 1
    requires forall i :: 0 <= i < |rows| ==> '\n' !in rows[i].name
    ensures Occurrences(FormatResult(rows), '\n') == |rows| - 1
  {
    var lines := seq(|rows|, i requires 0 <= i < |rows| => FormatRow(rows[i]));
    forall i | 0 <= i < |rows|
      ensures '\n' !in lines[i]
    {
      var row := rows[i];
      var a, b, c := PadRight(row.name, 40), PadRight(IntToString(row.files), 20), PadRight(IntToString(row.events), 20);
      assert lines[i] == a + " | " + b + " | " + c;
      NoNewlinePadded(row.name, 40);
      NoNewlinePadded(IntToString(row.files), 20);
      NoNewlinePadded(IntToString(row.events), 20);
      DigitsHaveNoNewline(row.files);
      DigitsHaveNoNewline(row.events);
    }
    JoinSeparatorCount(lines, '\n');
  }

  lemma NoNewlinePadded(s: string, width: nat)
    requires '\n' !in s
    ensures '\n' !in PadRight(s, width)
  {
    var r := PadRight(s, width);
    forall j | 0 <= j < |r|
      ensures r[j] != '\n'
    {
      if j < |s| {
        assert r[j] == s[j];
      }
    }
  }

  lemma DigitsHaveNoNewline(n: nat)
    ensures '\n' !in IntToString(n)
  {
    var r := IntToString(n);
    assert forall j :: 0 <= j < |r| ==> '0' <= r[j] <= '9';
  }

  /** What the file system and ROOT report, as parameters: whether a path is a
      directory, the directories os.walk visits under it (top first), the number
      of files a pattern matches and the number of entries of a tree in them. */
  datatype Env = Env(
    isDir: string -> bool,
    walk: string -> seq<string>,
    countFiles: string -> nat,
    countEvents: (string, string) -> nat)

  /** examine_files: a single row for the pattern. */
  function ExamineFiles(env: Env, path: string, tree: string): (rows: seq<Row>)
    ensures |rows| == 1
    ensures rows[0] == Row(Basename(path), env.countFiles(path), env.countEvents(path, tree))
  {
    [Row(Basename(path), env.countFiles(path), env.countEvents(path, tree))]
  }

  /** The row of one visited directory: its basename, the number of files
      with the .root extension directly in root, and the events of the tree in them, counted only when
      there is at least one file. */
  function DirectoryRow(env: Env, root: string, tree: string): (row: Row)
    ensures row.name == Basename(root)
    ensures row.files == env.countFiles(PathJoin(root, "*.root"))
    ensures row.files == 0 ==> row.events == 0
    ensures row.files > 0 ==> row.events == env.countEvents(PathJoin(root, "*.root"), tree)
  {
    var pattern := PathJoin(root, "*.root");
    var files := env.countFiles(pattern);
    Row(Basename(root), files, if files == 0 then 0 else env.countEvents(pattern, tree))
  }

  /** examine_directory: a row per visited directory, in walk order. */
  method ExamineDirectory(env: Env, dirname: string, tree: string) returns (rows: seq<Row>)
    ensures |rows| == |env.walk(dirname)|
    ensures forall i :: 0 <= i < |rows| ==> rows[i] == DirectoryRow(env, env.walk(dirname)[i], tree)
  {
    var roots := env.walk(dirname);
    rows := [];
    for i := 0 to |roots|
      invariant |rows| == i
      invariant forall k :: 0 <= k < i ==> rows[k] == DirectoryRow(env, roots[k], tree)
    {
      rows := rows + [DirectoryRow(env, roots[i], tree)];
    }
  }

  /** examine_path: the directory walk for a directory, the single pattern row
      otherwise. */
  method ExaminePath(env: Env, path: string, tree: string) returns (rows: seq<Row>)
    ensures env.isDir(path) ==> |rows| == |env.walk(path)|
    ensures env.isDir(path) ==> forall i :: 0 <= i < |rows| ==> rows[i] == DirectoryRow(env, env.walk(path)[i], tree)
    ensures !env.isDir(path) ==> rows == ExamineFiles(env, path, tree)
  {
    if env.isDir(path) {
      rows := ExamineDirectory(env, path, tree);
    } else {
      rows := ExamineFiles(env, path, tree);
    }
  }
}
