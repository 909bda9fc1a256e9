/** Plan documents: a markdown file's name, title, text and modification time. */
module Plans {
  import opened Wrappers
  import opened Clock
  import opened Strings
  import opened Paths

  datatype Plan = Plan(name: string, title: string, content: string, createdAt: Time)

  /** What the file system yields for a plan file: its text (ReadFile) and
      its modification time (Stat), each of which may fail. */
  datatype PlanFile = PlanFile(text: Option<string>, modTime: Option<Time>)

  datatype PlanError = ReadFailed | StatFailed

  /** The plan name: the file's base name with `.md` trimmed. */
  function PlanName(path: string): string {
    Base(TrimSuffix(path, ".md"))
  }

  /** A title line starts with "# "; "## x" and "#x" do not. */
  predicate IsHeading(line: string) {
    HasPrefix(line, "# ")
  }

  /** The trimmed text after "# " on the first heading line, else `fallback`. */
  function TitleFrom(lines: seq<string>, fallback: string): (t: string)
    ensures (forall k :: 0 <= k < |lines| ==> !IsHeading(lines[k])) ==> t == fallback
    ensures forall k :: 0 <= k < |lines| && IsHeading(lines[k]) && (forall j :: 0 <= j < k ==> !IsHeading(lines[j])) ==>
              t == TrimSpace(lines[k][2..])
    decreases |lines|
  {
    if |lines| == 0 then fallback
    else if IsHeading(lines[0]) then TrimSpace(TrimPrefix(lines[0], "# "))
    else
      var t := TitleFrom(lines[1..], fallback);
      assert forall k :: 1 <= k < |lines| ==> lines[k] == lines[1..][k - 1];
      t
  }

  /** ParsePlan: read errors come before stat errors; the title comes from the
      lines of the text split on "\n". */
  function ParsePlan(path: string, file: PlanFile): (r: Result<Plan, PlanError>)
    ensures file.text.None? ==> r == Err(ReadFailed)
    ensures file.text.Some? && file.modTime.None? ==> r == Err(StatFailed)
    ensures file.text.Some? && file.modTime.Some? ==> r.Ok?
    ensures r.Ok? ==>
      && r.value.name == PlanName(path)
      && r.value.content == file.text.value
      && r.value.createdAt == file.modTime.value
      && r.value.title == TitleFrom(Split(file.text.value, '\n'), PlanName(path))
  {
    match file.text
    case None => Err(ReadFailed)
    case Some(text) =>
      match file.modTime
      case None => Err(StatFailed)
      case Some(modTime) =>
        var name := PlanName(path);
        Ok(Plan(name, TitleFrom(Split(text, '\n'), name), text, modTime))
  }

  /** A plan file `<dir>/<name>.md` is named `<name>`. */
  lemma PlanNameOfFile(dir: string, name: string)
    requires name != "" && '/' !in name
    ensures PlanName(dir + "/" + name + ".md") == name
  {
    var p := dir + "/" + name + ".md";
    assert HasSuffix(p, ".md");
    assert TrimSuffix(p, ".md") == dir + "/" + name;
    BaseOfChild(dir, name);
  }

  /** A text whose first line is "# <heading>" has the trimmed heading as title,
      whatever follows. */
  lemma LeadingHeadingIsTitle(path: string, heading: string, rest: string, modTime: Time)
    requires '\n' !in heading
    ensures var r := ParsePlan(path, PlanFile(Some("# " + heading + "\n" + rest), Some(modTime)));
      r.Ok? && r.value.title == TrimSpace(heading)
  {
    var line := "# " + heading;
    assert '\n' !in line by {
      assert forall i :: 2 <= i < |line| ==> line[i] == heading[i - 2];
    }
    SplitSegment(line, rest, '\n');
    assert line + ['\n'] + rest == "# " + heading + "\n" + rest;
    var lines := Split("# " + heading + "\n" + rest, '\n');
    assert lines[0] == line;
    assert IsHeading(line);
    assert line[2..] == heading;
  }

  /** A second-level heading is not a title line: the name stands in. */
  lemma SubheadingIsNotTitle(path: string, modTime: Time)
    ensures var r := ParsePlan(path, PlanFile(Some("## x"), Some(modTime)));
      r.Ok? && r.value.title == PlanName(path)
  {
    var line := "## x";
    SplitWhole(line, '\n');
    assert !IsHeading(line) by {
      assert line[..2] == "##";
    }
    assert TitleFrom([line], PlanName(path)) == PlanName(path);
  }

  /** Only the first heading counts: a later "# " line never changes the title. */
  lemma FirstHeadingWins(lines: seq<string>, more: seq<string>, fallback: string)
    requires exists k :: 0 <= k < |lines| && IsHeading(lines[k])
    ensures TitleFrom(lines + more, fallback) == TitleFrom(lines, fallback)
  {
    var k :| 0 <= k < |lines| && IsHeading(lines[k]) && forall j :: 0 <= j < k ==> !IsHeading(lines[j]) by {
      var k0 :| 0 <= k0 < |lines| && IsHeading(lines[k0]);
      FirstHeadingExists(lines, k0);
    }
    assert (lines + more)[k] == lines[k];
    assert forall j :: 0 <= j < k ==> (lines + more)[j] == lines[j];
  }

  lemma {:induction false} FirstHeadingExists(lines: seq<string>, k0: nat)
    requires k0 < |lines| && IsHeading(lines[k0])
    ensures exists k :: 0 <= k < |lines| && IsHeading(lines[k]) && forall j :: 0 <= j < k ==> !IsHeading(lines[j])
    decreases k0
  {
    if exists j :: 0 <= j < k0 && IsHeading(lines[j]) {
      var j :| 0 <= j < k0 && IsHeading(lines[j]);
      FirstHeadingExists(lines, j);
    }
  }
}
