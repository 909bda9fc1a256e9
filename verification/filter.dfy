/** Privacy rules applied to a parsed session before upload: project
    exclusion patterns, the share level and path anonymisation. */
module Filter {
  import opened Wrappers
  import opened Strings
  import opened Paths
  import opened Glob
  import opened Config
  import opened Records
  import Jsonl

  /** One exclusion pattern against a project path: a whole-path match, or,
      for a pattern holding `**`, a match of the collapsed pattern against
      some '/'-separated segment of the path. */
  predicate PatternExcludes(pattern: string, path: string) {
    || Match(pattern, path)
    || (Contains(pattern, "**") &&
        var parts := Split(path, '/');
        exists i :: 0 <= i < |parts| && Match(ReplaceAll(pattern, "**", "*"), parts[i]))
  }

  function AnySegmentMatches(pattern: string, parts: seq<string>): (r: bool)
    ensures r <==> exists i :: 0 <= i < |parts| && Match(pattern, parts[i])
  {
    if |parts| == 0 then false
    else
      assert forall i :: 1 <= i < |parts| ==> parts[i] == parts[1..][i - 1];
      Match(pattern, parts[0]) || AnySegmentMatches(pattern, parts[1..])
  }

  /** isExcluded: true exactly when some pattern of the list excludes the path. */
  function IsExcluded(patterns: seq<string>, path: string): (r: bool)
    ensures r <==> exists i :: 0 <= i < |patterns| && PatternExcludes(patterns[i], path)
  {
    if |patterns| == 0 then false
    else
      var p := patterns[0];
      assert forall i :: 1 <= i < |patterns| ==> patterns[i] == patterns[1..][i - 1];
      if Match(p, path) then true
      else if Contains(p, "**") && AnySegmentMatches(ReplaceAll(p, "**", "*"), Split(path, '/')) then true
      else IsExcluded(patterns[1..], path)
  }

  /** The project name sent upstream: the last path element when anonymising,
      the full path otherwise. */
  function SharedName(cfg: SharingConfig, projectPath: string): string {
    if cfg.anonymizePaths then Base(projectPath) else projectPath
  }

  /** Apply: None for an excluded project or share level "none"; otherwise a
      copy that keeps the metadata, drops the project path, the per-turn token
      usage and the tool-call list, and keeps the messages only at level
      "full". The input session is never changed. */
  function Apply(cfg: SharingConfig, s: Session): (r: Option<Session>)
    ensures r.None? <==> IsExcluded(cfg.excludeProjects, s.projectPath) || cfg.level == "none"
    ensures r.Some? ==>
      var f := r.value;
      && f.id == s.id && f.startedAt == s.startedAt && f.endedAt == s.endedAt
      && f.totalMessages == s.totalMessages
      && f.totalTokensIn == s.totalTokensIn && f.totalTokensOut == s.totalTokensOut
      && f.model == s.model && f.tools == s.tools && f.tags == s.tags
      && f.projectPath == "" && f.tokenUsage == [] && f.toolCalls == []
      && f.projectName == SharedName(cfg, s.projectPath)
      && (f.messages == s.messages || f.messages == [])
      && (f.messages != [] ==> cfg.level == "full")
      && (cfg.level == "full" ==> f.messages == s.messages)
  {
    if IsExcluded(cfg.excludeProjects, s.projectPath) then None
    else
      var filtered := Session(s.id, SharedName(cfg, s.projectPath), "", s.startedAt, s.endedAt,
                              s.totalMessages, s.totalTokensIn, s.totalTokensOut, s.model,
                              s.tools, s.tags, [], [], []);
      if cfg.level == "none" then None
      else if cfg.level == "metadata" then Some(filtered)
      else if cfg.level == "full" then Some(filtered.(messages := s.messages))
      else Some(filtered)
  }

  /** With no exclusion patterns nothing is excluded. */
  lemma NoPatternsExcludeNothing(path: string)
    ensures !IsExcluded([], path)
  {
  }

  /** Exclusion depends only on the set of patterns a list holds: appending
      more patterns can only exclude more. */
  lemma MorePatternsExcludeMore(patterns: seq<string>, more: seq<string>, path: string)
    requires IsExcluded(patterns, path)
    ensures IsExcluded(patterns + more, path)
  {
    var i :| 0 <= i < |patterns| && PatternExcludes(patterns[i], path);
    assert (patterns + more)[i] == patterns[i];
  }

  /** The `**` rewrite in the segment check changes nothing: a segment matches
      the collapsed pattern exactly when it matches the pattern itself. */
  lemma SegmentCheckUsesPattern(pattern: string, path: string)
    ensures PatternExcludes(pattern, path) <==>
      (Match(pattern, path) || (Contains(pattern, "**") && AnySegmentMatches(pattern, Split(path, '/'))))
  {
    var parts := Split(path, '/');
    forall i | 0 <= i < |parts|
      ensures Match(ReplaceAll(pattern, "**", "*"), parts[i]) == Match(pattern, parts[i])
    {
      CollapseStars(pattern, parts[i]);
    }
    assert (exists i :: 0 <= i < |parts| && Match(ReplaceAll(pattern, "**", "*"), parts[i]))
       <==> (exists i :: 0 <= i < |parts| && Match(pattern, parts[i]));
  }

  /** A pattern holding '/' never excludes through the segment check, since no
      segment holds a '/' and neither `*` nor `?` matches one. Such a pattern
      excludes a path only by matching all of it, so `**` in it behaves as a
      single-element `*`. */
  lemma SlashPatternsMatchWholePath(pattern: string, path: string)
    requires '/' in pattern
    ensures PatternExcludes(pattern, path) <==> Match(pattern, path)
  {
    SegmentCheckUsesPattern(pattern, path);
    var parts := Split(path, '/');
    forall i | 0 <= i < |parts|
      ensures !Match(pattern, parts[i])
    {
      if Match(pattern, parts[i]) {
        MatchNeedsSlash(pattern, parts[i]);
      }
    }
  }

  // The pattern "**" + "/secret/" + "**" does not exclude a project nested
  // below a `secret` directory: the leading stars cannot cross the first '/'.
  lemma NestedDirectoryNotExcluded()
    ensures !IsExcluded(["**/secret/**"], "/home/u/secret/app")
  {
    var p := "**/secret/**";
    var path := "/home/u/secret/app";
    assert '/' in p by { assert p[2] == '/'; }
    SlashPatternsMatchWholePath(p, path);
    assert p[1..] == "*/secret/**";
    assert p[2..] == "/secret/**";
    assert !Match(p[2..][1..], path[1..]) by {
      assert p[2..][1..][0] == 's' && path[1..][0] == 'h';
    }
    assert !Match(p[2..], path);
    assert !Match(p[1..], path);
    assert !Match(p, path);
  }

  /** A literal name: no wildcard and no separator. */
  predicate IsLiteralName(name: string) {
    '/' !in name && '*' !in name && '?' !in name
  }

  lemma {:induction false} LiteralThenStars(name: string)
    requires IsLiteralName(name)
    ensures Match(name + "**", name)
    decreases |name|
  {
    if |name| == 0 {
      assert name + "**" == "**";
      assert "**"[1..] == "*";
      assert "*"[1..] == "";
    } else {
      assert (name + "**")[0] == name[0];
      assert (name + "**")[1..] == name[1..] + "**";
      LiteralThenStars(name[1..]);
    }
  }

  /** `**name**` excludes every project path that has `name` as one of its
      elements, at any depth. */
  lemma ElementPatternExcludes(name: string, path: string)
    requires IsLiteralName(name)
    requires name in Split(path, '/')
    ensures IsExcluded(["**" + name + "**"], path)
  {
    var p := "**" + name + "**";
    assert p[..2] == "**";
    assert Contains(p, "**") by { assert HasPrefix(p[0..], "**"); }
    assert p[1..] == "*" + name + "**";
    assert p[1..][1..] == name + "**";
    LiteralThenStars(name);
    assert Match(p, name);
    CollapseStars(p, name);
    var parts := Split(path, '/');
    var i :| 0 <= i < |parts| && parts[i] == name;
    assert PatternExcludes(p, path);
    assert ["**" + name + "**"][0] == p;
  }

  /** With anonymisation on, the shared name of a session the parser produced
      from a dash-encoded directory is the parser's project name; with no
      recoverable path it is ".". */
  lemma AnonymisedNameIsProjectName(transcriptPath: string, cfg: SharingConfig)
    requires cfg.anonymizePaths
    ensures var (projectPath, projectName) := Jsonl.ProjectOf(transcriptPath);
      projectName != "" ==> SharedName(cfg, projectPath) == projectName
    ensures var (projectPath, _) := Jsonl.ProjectOf(transcriptPath);
      projectPath == "" ==> SharedName(cfg, projectPath) == "."
  {
    var (projectPath, projectName) := Jsonl.ProjectOf(transcriptPath);
    if projectName != "" {
      var dir :| projectPath == dir + "/" + projectName;
      BaseOfChild(dir, projectName);
    }
  }

  /** The three documented share levels on a non-excluded session. */
  lemma ShareLevels(s: Session, patterns: seq<string>, anonymize: bool)
    requires !IsExcluded(patterns, s.projectPath)
    ensures Apply(SharingConfig("none", patterns, anonymize), s).None?
    ensures var r := Apply(SharingConfig("metadata", patterns, anonymize), s);
      r.Some? && r.value.messages == []
    ensures var r := Apply(SharingConfig("full", patterns, anonymize), s);
      r.Some? && r.value.messages == s.messages
  {
  }
}
