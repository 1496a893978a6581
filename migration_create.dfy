/**
 * The billing migrator's `create` command: it checks the migration name, makes the
 * migrations directory, and writes an up file and a down file whose names share one
 * timestamp and whose contents are a commented template. The directory and file writes are
 * returned as a log of effects, and whether each one fails is a parameter; the three
 * readings of the clock are parameters too.
 */
module MigrationCreate {
  import opened Wrappers
  import opened Text
  import opened Decimal
  import opened Clock

  /** One character of the class `[a-zA-Z0-9_]`. */
  predicate IsNameChar(c: char) {
    ('a' <= c <= 'z') || ('A' <= c <= 'Z') || ('0' <= c <= '9') || c == '_'
  }

  /**
   * `isValidMigrationName`: the pattern `^[a-zA-Z0-9_]+$` matched against the whole name,
   * one class character after another.
   */
  function IsValidMigrationName(name: string): (ok: bool)
    ensures ok <==> name != [] && forall i :: 0 <= i < |name| ==> IsNameChar(name[i])
    decreases |name|
  {
    if name == [] then false
    else if !IsNameChar(name[0]) then false
    else if |name| == 1 then true
    else IsValidMigrationName(name[1..])
  }

  /** Names the command accepts and refuses. */
  lemma MigrationNameExamples()
    ensures IsValidMigrationName("add_V2")
    ensures !IsValidMigrationName("") && !IsValidMigrationName("a-b")
    ensures !IsValidMigrationName("a b") && !IsValidMigrationName("../x")
  {
    assert IsNameChar("add_V2"[0]) && IsNameChar("add_V2"[3]) && IsNameChar("add_V2"[4]) && IsNameChar("add_V2"[5]);
    assert !IsNameChar("a-b"[1]);
    assert !IsNameChar("a b"[1]);
    assert !IsNameChar("../x"[0]);
  }

  /** The base name of one file of the pair: `<timestamp>_<name>.<direction>.sql`. */
  function MigrationFileName(timestamp: string, name: string, direction: string): (f: string)
    ensures |f| == |timestamp| + |name| + |direction| + 6 && f[..|timestamp|] == timestamp
  {
    var f := timestamp + ("_" + name + "." + direction + ".sql");
    assert f == timestamp + "_" + name + "." + direction + ".sql";
    f
  }

  /**
   * `filepath.Join(dir, file)` for a file name without separators: the file alone when the
   * directory is empty, otherwise the two joined by a slash.
   */
  function JoinPath(dir: string, file: string): (path: string)
    ensures dir == "" ==> path == file
    ensures dir != "" ==> |path| == |dir| + 1 + |file| && path[..|dir| + 1] == dir + "/" && path[|dir| + 1..] == file
  {
    if dir == "" then file else dir + "/" + file
  }

  /**
   * Any file name splits into its parts: the timestamp, the "_", the migration name and the
   * direction suffix, at positions fixed by the lengths of the first and last.
   */
  lemma FileNameParts(ts: string, name: string, direction: string)
    ensures var f := MigrationFileName(ts, name, direction);
      var tail := |direction| + 5;
      && |f| == |ts| + 1 + |name| + tail
      && f[..|ts|] == ts
      && f[|ts|] == '_'
      && f[|ts| + 1..|f| - tail] == name
      && f[|f| - tail..] == "." + direction + ".sql"
  {
    var f := MigrationFileName(ts, name, direction);
    var suffix := "." + direction + ".sql";
    assert f == ts + ("_" + name) + suffix;
    PrefixOfConcat(ts, ("_" + name) + suffix);
    assert f[|ts| + 1..|f| - |suffix|] == name;
  }

  /**
   * The two file names of one run: the same clock reading (layout "20060102150405")
   * prefixes both, and they differ only in the direction before ".sql".
   */
  lemma FileNamesShareTimestamp(stamp: DateTime, name: string)
    requires ValidDateTime(stamp)
    ensures var ts := CompactTimestamp(stamp);
      var up := MigrationFileName(ts, name, "up");
      var down := MigrationFileName(ts, name, "down");
      && |ts| == 14 && up[..14] == ts && down[..14] == ts
      && ParseCompactTimestamp(up[..14]) == Some(stamp)
      && ParseCompactTimestamp(down[..14]) == Some(stamp)
      && up[|up| - 7..] == ".up.sql" && down[|down| - 9..] == ".down.sql"
      && up != down
  {
    var ts := CompactTimestamp(stamp);
    CompactTimestampRoundTrip(stamp);
    FileNamePair(ts, name);
  }

  /** The up and down names built on one stamp: each ends in its own suffix, so they differ. */
  lemma FileNamePair(ts: string, name: string)
    ensures var up := MigrationFileName(ts, name, "up");
      var down := MigrationFileName(ts, name, "down");
      && up[|up| - 7..] == ".up.sql" && down[|down| - 9..] == ".down.sql"
      && up != down
  {
    FileNameParts(ts, name, "up");
    FileNameParts(ts, name, "down");
    assert "." + "up" + ".sql" == ".up.sql";
    assert "." + "down" + ".sql" == ".down.sql";
  }

  /**
   * A file name reads back as its timestamp and migration name: the name is what lies
   * between the "_" after the fourteen digits and the direction suffix.
   */
  lemma FileNameReadsBack(stamp: DateTime, name: string, direction: string)
    requires ValidDateTime(stamp)
    ensures var f := MigrationFileName(CompactTimestamp(stamp), name, direction);
      var tail := |direction| + 5;
      && |f| == 15 + |name| + tail
      && f[14] == '_'
      && f[15..|f| - tail] == name
      && f[|f| - tail..] == "." + direction + ".sql"
      && ParseCompactTimestamp(f[..14]) == Some(stamp)
  {
    CompactTimestampRoundTrip(stamp);
    FileNameParts(CompactTimestamp(stamp), name, direction);
  }

  /** The two lines that open every template, naming the migration and the direction. */
  function NamingLines(name: string, direction: string): string {
    "-- Migration: " + name + "\n-- Direction: " + direction + "\n"
  }

  /** The "Created:" line and the blank line that close the header. */
  function CreatedLine(created: DateTime): string {
    "-- Created: " + DateTimeText(created) + "\n\n"
  }

  /** The header of every template: the naming lines, then when it was created. */
  function TemplateHeader(name: string, direction: string, created: DateTime): string {
    NamingLines(name, direction) + CreatedLine(created)
  }
  /** The TODO line that opens every body, naming the direction in capitals. */
  function TodoLine(upper: string): string {
    "-- TODO: Add your " + upper + " migration SQL here\n"
  }

  /** The CREATE TABLE example of the up template. */
  const CreateTableExample: string :=
    "-- Example:\n"
    + "-- CREATE TABLE example (\n"
    + "--     id SERIAL PRIMARY KEY,\n"
    + "--     name VARCHAR(255) NOT NULL,\n"
    + "--     created_at TIMESTAMP WITH TIME ZONE DEFAULT NOW()\n"
    + "-- );\n"

  /** The line of the down template that says what it is for. */
  const UndoHint: string := "-- This should undo the changes made in the corresponding up migration\n"

  /** The DROP TABLE example of the down template. */
  const DropTableExample: string := "-- Example:\n" + "-- DROP TABLE IF EXISTS example;\n"

  /** The body of an up template: the TODO line and the CREATE TABLE example. */
  function UpBody(upper: string): string {
    TodoLine(upper) + CreateTableExample
  }

  /** The body of any other template: the TODO line, the hint to undo the up migration, a DROP TABLE example. */
  function DownBody(upper: string): string {
    TodoLine(upper) + UndoHint + DropTableExample
  }

  /**
   * The text `createMigrationFile` writes: the header, then the up body when the direction
   * is "up" and the down body otherwise, the direction upper-cased in the TODO line.
   */
  function MigrationTemplate(name: string, direction: string, created: DateTime): (text: string)
    ensures var header := TemplateHeader(name, direction, created);
      |header| <= |text| && text[..|header|] == header
  {
    TemplateHeader(name, direction, created) + TemplateBody(direction)
  }

  /** The part after the header: the up body for "up", the down body for any other direction. */
  function TemplateBody(direction: string): string {
    var upper := AsciiUpper(direction);
    if direction == "up" then UpBody(upper) else DownBody(upper)
  }

  /** `strings.ToUpper` of the two directions the command passes. */
  lemma UpperDirections()
    ensures AsciiUpper("up") == "UP" && AsciiUpper("down") == "DOWN"
  {
  }

  /** A concatenation starts with its first part. */
  lemma PrefixOfConcat(a: string, b: string)
    ensures |a| <= |a + b| && (a + b)[..|a|] == a
  {
  }

  /** Every template opens by naming the migration and then the direction, one line each. */
  lemma TemplateNamesMigration(name: string, direction: string, created: DateTime)
    ensures var lines := "-- Migration: " + name + "\n-- Direction: " + direction + "\n";
      |lines| <= |MigrationTemplate(name, direction, created)|
      && MigrationTemplate(name, direction, created)[..|lines|] == lines
  {
    var lines := NamingLines(name, direction);
    var header := TemplateHeader(name, direction, created);
    var body := TemplateBody(direction);
    PrefixOfConcat(lines, CreatedLine(created));
    PrefixOfConcat(header, body);
    assert (header + body)[..|lines|] == header[..|lines|];
  }

  /** The up file asks for UP SQL with a CREATE TABLE example. */
  lemma UpTemplate(name: string, created: DateTime)
    ensures MigrationTemplate(name, "up", created) == TemplateHeader(name, "up", created) + UpBody("UP")
  {
    UpperDirections();
  }

  /** The down file asks for DOWN SQL with the hint to undo the up migration. */
  lemma DownTemplate(name: string, created: DateTime)
    ensures MigrationTemplate(name, "down", created) == TemplateHeader(name, "down", created) + DownBody("DOWN")
  {
    UpperDirections();
    assert "down" != "up";
  }

  /**
   * Right after the TODO line the down body gives the hint to undo the up migration, where
   * the up body goes straight to its example.
   */
  lemma UndoHintOnlyInDown(upper: string)
    ensures var todo := "-- TODO: Add your " + upper + " migration SQL here\n";
      var hint := "-- This should undo the changes made in the corresponding up migration\n";
      && DownBody(upper)[..|todo| + |hint|] == todo + hint
      && UpBody(upper)[..|todo| + 12] == todo + "-- Example:\n"
  {
    var todo := "-- TODO: Add your " + upper + " migration SQL here\n";
    var hint := "-- This should undo the changes made in the corresponding up migration\n";
    var down := DownBody(upper);
    var up := UpBody(upper);
    assert down == (todo + hint) + down[|todo| + |hint|..];
    PrefixOfConcat(todo + hint, down[|todo| + |hint|..]);
    assert up == (todo + "-- Example:\n") + up[|todo| + 12..];
    PrefixOfConcat(todo + "-- Example:\n", up[|todo| + 12..]);
  }

  /** A change the command makes to the file system. */
  datatype Effect = MakeDirectory(path: string) | WriteFile(path: string, content: string)

  /** Why the command stopped with `log.Fatal`. */
  datatype Fatal = InvalidName | DirectoryFailed | UpFileFailed | DownFileFailed

  /** The message the command stops with when the name does not match the pattern. */
  const InvalidNameMessage := "Invalid migration name. Use only letters, numbers, and underscores."

  /** Which of the three file-system steps fail on this run. */
  datatype FileSystem = FileSystem(mkdirFails: bool, upFails: bool, downFails: bool)

  /** The path of one file of the pair: the base name in the migrations directory. */
  function MigrationPath(dir: string, stamp: DateTime, name: string, direction: string): string {
    JoinPath(dir, MigrationFileName(CompactTimestamp(stamp), name, direction))
  }

  /** `createMigrationFile(path, direction, name)`: the file at `path` holding the template. */
  function CreateMigrationFile(path: string, direction: string, name: string, created: DateTime): (e: Effect)
    ensures e.WriteFile? && e.path == path
  {
    WriteFile(path, MigrationTemplate(name, direction, created))
  }

  /**
   * The `create` command. `stamp` is the clock reading for the file names, `upCreated` and
   * `downCreated` those for the two templates' "Created:" lines. The result is the effects
   * made, in order, and either the two paths (which the command prints) or the reason it
   * stopped: nothing is touched before the name is checked, and each file is written only
   * once every earlier step succeeded.
   */
  method CreateMigration(name: string, dir: string, fs: FileSystem,
                         stamp: DateTime, upCreated: DateTime, downCreated: DateTime)
    returns (effects: seq<Effect>, outcome: Result<(string, string), Fatal>)
    ensures !IsValidMigrationName(name) ==> effects == [] && outcome == Failure(InvalidName)
    ensures IsValidMigrationName(name) && fs.mkdirFails ==> effects == [] && outcome == Failure(DirectoryFailed)
    ensures outcome.Success? <==> IsValidMigrationName(name) && !fs.mkdirFails && !fs.upFails && !fs.downFails
    ensures IsValidMigrationName(name) && !fs.mkdirFails && fs.upFails ==>
      effects == [MakeDirectory(dir)] && outcome == Failure(UpFileFailed)
    ensures IsValidMigrationName(name) && !fs.mkdirFails && !fs.upFails && fs.downFails ==>
      && effects == [MakeDirectory(dir),
                     CreateMigrationFile(MigrationPath(dir, stamp, name, "up"), "up", name, upCreated)]
      && outcome == Failure(DownFileFailed)
    ensures outcome.Success? ==>
      && effects == [MakeDirectory(dir),
                     CreateMigrationFile(MigrationPath(dir, stamp, name, "up"), "up", name, upCreated),
                     CreateMigrationFile(MigrationPath(dir, stamp, name, "down"), "down", name, downCreated)]
      && outcome.value == (MigrationPath(dir, stamp, name, "up"), MigrationPath(dir, stamp, name, "down"))
  {
    effects := [];
    if !IsValidMigrationName(name) {
      return effects, Failure(InvalidName);
    }
    if fs.mkdirFails {
      return effects, Failure(DirectoryFailed);
    }
    effects := effects + [MakeDirectory(dir)];
    assert effects == [MakeDirectory(dir)];
    var upFile := MigrationPath(dir, stamp, name, "up");
    var downFile := MigrationPath(dir, stamp, name, "down");
    if fs.upFails {
      return effects, Failure(UpFileFailed);
    }
    var upWrite := CreateMigrationFile(upFile, "up", name, upCreated);
    effects := effects + [upWrite];
    assert effects == [MakeDirectory(dir), upWrite];
    if fs.downFails {
      return effects, Failure(DownFileFailed);
    }
    var downWrite := CreateMigrationFile(downFile, "down", name, downCreated);
    effects := effects + [downWrite];
    assert effects == [MakeDirectory(dir), upWrite, downWrite];
    outcome := Success((upFile, downFile));
  }

  /**
   * A valid name never collides with the directory part: it holds no '/', so the up and down
   * paths of a run are distinct and both lie directly in the migrations directory.
   */
  lemma PathsLieInDirectory(dir: string, name: string, stamp: DateTime)
    requires dir != "" && IsValidMigrationName(name)
    ensures var up := MigrationPath(dir, stamp, name, "up");
      var down := MigrationPath(dir, stamp, name, "down");
      && up[..|dir| + 1] == dir + "/" && down[..|dir| + 1] == dir + "/"
      && '/' !in name
      && up != down
  {
    assert !IsNameChar('/');
    var ts := CompactTimestamp(stamp);
    var up := MigrationPath(dir, stamp, name, "up");
    var down := MigrationPath(dir, stamp, name, "down");
    assert up == dir + "/" + MigrationFileName(ts, name, "up");
    assert down == dir + "/" + MigrationFileName(ts, name, "down");
    assert |up| != |down|;
  }
}
