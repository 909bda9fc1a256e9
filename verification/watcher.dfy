/** The sync pass: find transcripts and plans on disk, skip what the ledger
    already records, parse and filter, upload in batches and stamp the
    ledger. The disk is a snapshot, the server an oracle of outcomes and
    the clock one reading per pass. */
module Watcher {
  import opened Wrappers
  import opened Clock
  import opened Strings
  import opened Config
  import opened Records
  import opened Delivery
  import Jsonl
  import JsonlFacts
  import Plans
  import Filter

  /** The persisted ledger: when each session id and each plan name was last
      recorded, and when the last pass ended. */
  datatype State = State(syncedSessions: map<string, Time>, syncedPlans: map<string, Time>, lastSync: Time)

  function EmptyState(): State {
    State(map[], map[], Zero)
  }

  /** The state file as found on disk. */
  datatype StateFile = Absent | Unreadable | Corrupt | Stored(state: State)

  datatype LoadError = ReadError | DecodeError

  /** loadState: a missing file is an empty ledger, not an error. */
  function LoadState(f: StateFile): (r: Result<State, LoadError>)
    ensures f.Absent? ==> r == Ok(EmptyState())
    ensures f.Stored? ==> r == Ok(f.state)
    ensures r.Err? <==> f.Unreadable? || f.Corrupt?
  {
    match f
    case Absent => Ok(EmptyState())
    case Unreadable => Err(ReadError)
    case Corrupt => Err(DecodeError)
    case Stored(s) => Ok(s)
  }

  /** The state a pass starts from: what loads, or an empty ledger when the
      file cannot be read or decoded. */
  function StateForPass(f: StateFile): (s: State)
    ensures LoadState(f).Ok? ==> s == LoadState(f).value
    ensures LoadState(f).Err? ==> s == EmptyState()
  {
    match LoadState(f)
    case Ok(s) => s
    case Err(_) => EmptyState()
  }

  datatype Stats = Stats(totalSynced: nat, totalPlansSynced: nat, lastSync: Time)

  /** GetStats: ledger sizes and last pass time; all zero when the state
      cannot be loaded. */
  function GetStats(f: StateFile): (r: Stats)
    ensures LoadState(f).Err? ==> r == Stats(0, 0, Zero)
    ensures LoadState(f).Ok? ==>
      var s := LoadState(f).value;
      r == Stats(|s.syncedSessions|, |s.syncedPlans|, s.lastSync)
  {
    match LoadState(f)
    case Err(_) => Stats(0, 0, Zero)
    case Ok(s) => Stats(|s.syncedSessions|, |s.syncedPlans|, s.lastSync)
  }

  /** One entry the directory walk visits. Entries the walk cannot read are
      skipped by the walk itself and never appear. */
  datatype Entry = Entry(path: string, isDir: bool)

  /** findSessions / findPlans: the regular entries whose path ends in the
      suffix, in walk order. */
  function FindFiles(entries: seq<Entry>, suffix: string): (r: seq<string>)
    ensures |r| <= |entries|
    ensures forall p :: p in r <==> exists i :: 0 <= i < |entries| && entries[i].path == p && !entries[i].isDir && HasSuffix(p, suffix)
  {
    if |entries| == 0 then []
    else
      var e := entries[0];
      var rest := FindFiles(entries[1..], suffix);
      assert forall i :: 1 <= i < |entries| ==> entries[i] == entries[1..][i - 1];
      if !e.isDir && HasSuffix(e.path, suffix) then [e.path] + rest else rest
  }

  /** One walk entry is kept exactly when it is a regular file with the suffix. */
  lemma FindFilesOne(e: Entry, suffix: string)
    ensures FindFiles([e], suffix) == if !e.isDir && HasSuffix(e.path, suffix) then [e.path] else []
  {
    assert [e][1..] == [];
  }

  /** FindFiles is an order-preserving filter: it works piecewise on a walk
      split anywhere. */
  lemma {:induction false} FindFilesSplits(a: seq<Entry>, b: seq<Entry>, suffix: string)
    ensures FindFiles(a + b, suffix) == FindFiles(a, suffix) + FindFiles(b, suffix)
    decreases |a|
  {
    if |a| == 0 {
      assert a + b == b;
    } else {
      assert (a + b)[0] == a[0];
      assert (a + b)[1..] == a[1..] + b;
      FindFilesSplits(a[1..], b, suffix);
    }
  }

  /** The disk as one pass sees it: the walk of the projects directory, the
      walk of the plans directory (None when it does not exist), what
      parsing each transcript yields (Jsonl.ParseJSONL applied to the file's
      contents) and what reading each plan file yields. */
  datatype Disk = Disk(
    projects: seq<Entry>,
    plansDir: Option<seq<Entry>>,
    parsed: string -> Result<Session, Jsonl.ParseError>,
    planFiles: string -> Plans.PlanFile)

  /** The parser's side of the contract the pass relies on: a parsed session
      is named after its file. */
  ghost predicate NamesFromFiles(parsed: string -> Result<Session, Jsonl.ParseError>) {
    forall f :: parsed(f).Ok? ==> parsed(f).value.id == Jsonl.SessionID(f)
  }

  /** ParseJSONL keeps that contract, whatever the transcripts hold. */
  lemma ParserNamesFromFiles(transcripts: string -> Jsonl.TranscriptFile, parse: Jsonl.TimeParser)
    ensures NamesFromFiles(f => Jsonl.ParseJSONL(f, transcripts(f), parse))
  {
    forall f ensures var r := Jsonl.ParseJSONL(f, transcripts(f), parse); r.Ok? ==> r.value.id == Jsonl.SessionID(f) {
      JsonlFacts.ParsedSessionID(f, transcripts(f), parse);
    }
  }

  /** The transcripts whose session id the ledger does not hold yet. */
  function SessionCandidates(files: seq<string>, ledger: map<string, Time>): (r: seq<string>)
    ensures forall f :: f in r <==> f in files && Jsonl.SessionID(f) !in ledger
  {
    if |files| == 0 then []
    else
      var rest := SessionCandidates(files[1..], ledger);
      assert forall f :: f in files <==> f == files[0] || f in files[1..];
      if Jsonl.SessionID(files[0]) !in ledger then [files[0]] + rest else rest
  }

  /** One transcript is kept exactly when its session id is unrecorded. */
  lemma SessionCandidatesOne(f: string, ledger: map<string, Time>)
    ensures SessionCandidates([f], ledger) == if Jsonl.SessionID(f) !in ledger then [f] else []
  {
    assert [f][1..] == [];
  }

  /** SessionCandidates is an order-preserving filter: it works piecewise on
      a file list split anywhere. */
  lemma {:induction false} SessionCandidatesSplits(a: seq<string>, b: seq<string>, ledger: map<string, Time>)
    ensures SessionCandidates(a + b, ledger) == SessionCandidates(a, ledger) + SessionCandidates(b, ledger)
    decreases |a|
  {
    if |a| == 0 {
      assert a + b == b;
    } else {
      assert (a + b)[0] == a[0];
      assert (a + b)[1..] == a[1..] + b;
      SessionCandidatesSplits(a[1..], b, ledger);
    }
  }

  /** What becomes of one candidate transcript. */
  datatype Disposition = Skip | Suppress(id: string) | Upload(session: Session)

  /** A transcript that fails to parse is skipped (and retried next pass); one
      the filter withholds is recorded without upload; the rest is uploaded in
      filtered form. */
  function Dispose(f: string, disk: Disk, sharing: SharingConfig): (d: Disposition)
    ensures d.Skip? <==> disk.parsed(f).Err?
    ensures d.Suppress? <==> disk.parsed(f).Ok? && Filter.Apply(sharing, disk.parsed(f).value).None?
    ensures d.Suppress? ==> d.id == disk.parsed(f).value.id
    ensures d.Upload? ==> Some(d.session) == Filter.Apply(sharing, disk.parsed(f).value)
    ensures d.Upload? ==> d.session.id == disk.parsed(f).value.id
  {
    match disk.parsed(f)
    case Err(_) => Skip
    case Ok(s) =>
      match Filter.Apply(sharing, s)
      case None => Suppress(s.id)
      case Some(filtered) => Upload(filtered)
  }

  /** What the parse-and-filter loop does with each candidate, in order. */
  function Dispositions(cands: seq<string>, disk: Disk, sharing: SharingConfig): (ds: seq<Disposition>)
    ensures |ds| == |cands|
    ensures forall i :: 0 <= i < |cands| ==> ds[i] == Dispose(cands[i], disk, sharing)
  {
    seq(|cands|, i requires 0 <= i < |cands| => Dispose(cands[i], disk, sharing))
  }

  datatype Prepared = Prepared(uploads: seq<Session>, suppressed: set<string>)

  /** The parse-and-filter loop: filtered sessions queued in order, withheld
      session ids collected, unparsable transcripts dropped. */
  function Prepare(ds: seq<Disposition>): (r: Prepared)
    ensures |r.uploads| <= |ds|
    ensures forall s :: s in r.uploads <==> Upload(s) in ds
    ensures forall id :: id in r.suppressed <==> Suppress(id) in ds
  {
    if |ds| == 0 then Prepared([], {})
    else
      var rest := Prepare(ds[1..]);
      assert forall d :: d in ds <==> d == ds[0] || d in ds[1..];
      match ds[0]
      case Skip => rest
      case Suppress(id) => Prepared(rest.uploads, rest.suppressed + {id})
      case Upload(s) => Prepared([s] + rest.uploads, rest.suppressed)
  }

  /** One disposition contributes only its own session or withheld id. */
  lemma PrepareOne(d: Disposition)
    ensures Prepare([d]) == match d
      case Skip => Prepared([], {})
      case Suppress(id) => Prepared([], {id})
      case Upload(s) => Prepared([s], {})
  {
    assert [d][1..] == [];
  }

  /** The sessions among some dispositions, in order. */
  function UploadsOf(ds: seq<Disposition>): seq<Session>
    decreases |ds|
  {
    if |ds| == 0 then [] else (if ds[0].Upload? then [ds[0].session] else []) + UploadsOf(ds[1..])
  }

  /** The withheld ids among some dispositions. */
  function SuppressedOf(ds: seq<Disposition>): set<string>
    decreases |ds|
  {
    if |ds| == 0 then {} else (if ds[0].Suppress? then {ds[0].id} else {}) + SuppressedOf(ds[1..])
  }

  lemma {:induction false} PrepareParts(ds: seq<Disposition>)
    ensures Prepare(ds).uploads == UploadsOf(ds)
    ensures Prepare(ds).suppressed == SuppressedOf(ds)
    decreases |ds|
  {
    if |ds| > 0 {
      PrepareParts(ds[1..]);
    }
  }

  lemma {:induction false} UploadsSplit(a: seq<Disposition>, b: seq<Disposition>)
    ensures UploadsOf(a + b) == UploadsOf(a) + UploadsOf(b)
    decreases |a|
  {
    if |a| == 0 {
      assert a + b == b;
    } else {
      var t := a[1..];
      var head := if a[0].Upload? then [a[0].session] else [];
      assert (a + b)[0] == a[0];
      assert (a + b)[1..] == t + b;
      UploadsSplit(t, b);
      assert UploadsOf(a + b) == head + UploadsOf(t + b);
      assert head + (UploadsOf(t) + UploadsOf(b)) == (head + UploadsOf(t)) + UploadsOf(b);
    }
  }

  lemma {:induction false} SuppressedSplit(a: seq<Disposition>, b: seq<Disposition>)
    ensures SuppressedOf(a + b) == SuppressedOf(a) + SuppressedOf(b)
    decreases |a|
  {
    if |a| == 0 {
      assert a + b == b;
    } else {
      var t := a[1..];
      assert (a + b)[0] == a[0];
      assert (a + b)[1..] == t + b;
      SuppressedSplit(t, b);
    }
  }

  /** Prepare works piecewise: uploads concatenate in order and withheld
      ids unite. */
  lemma PrepareSplits(a: seq<Disposition>, b: seq<Disposition>)
    ensures Prepare(a + b).uploads == Prepare(a).uploads + Prepare(b).uploads
    ensures Prepare(a + b).suppressed == Prepare(a).suppressed + Prepare(b).suppressed
  {
    PrepareParts(a + b);
    PrepareParts(a);
    PrepareParts(b);
    UploadsSplit(a, b);
    SuppressedSplit(a, b);
  }

  function SessionKey(s: Session): string {
    s.id
  }

  function PlanKey(p: Plans.Plan): string {
    p.name
  }

  /** A plan file is due when its time can be read and its name is either
      unrecorded or recorded with an older time. */
  predicate PlanDue(f: string, ledger: map<string, Time>, planFiles: string -> Plans.PlanFile) {
    match planFiles(f).modTime
    case None => false
    case Some(m) => Plans.PlanName(f) !in ledger || After(m, ledger[Plans.PlanName(f)])
  }

  /** The plan files worth uploading: statable, and either never recorded or
      modified after the time recorded for their name. */
  function PlanCandidates(files: seq<string>, ledger: map<string, Time>, planFiles: string -> Plans.PlanFile): (r: seq<string>)
    ensures forall f :: f in r <==>
      && f in files
      && planFiles(f).modTime.Some?
      && (Plans.PlanName(f) !in ledger || After(planFiles(f).modTime.value, ledger[Plans.PlanName(f)]))
  {
    if |files| == 0 then []
    else
      var f := files[0];
      var rest := PlanCandidates(files[1..], ledger, planFiles);
      assert forall g :: g in files <==> g == f || g in files[1..];
      if PlanDue(f, ledger, planFiles) then [f] + rest else rest
  }

  /** One plan file is kept exactly when its time can be read and its name
      is unrecorded or older in the ledger. */
  lemma PlanCandidatesOne(f: string, ledger: map<string, Time>, planFiles: string -> Plans.PlanFile)
    ensures PlanCandidates([f], ledger, planFiles) == if PlanDue(f, ledger, planFiles) then [f] else []
  {
    assert [f][1..] == [];
  }

  /** The order-preserving filter of `xs` by `keep`. */
  function Keep<T>(xs: seq<T>, keep: T -> bool): seq<T>
    decreases |xs|
  {
    if |xs| == 0 then [] else (if keep(xs[0]) then [xs[0]] else []) + Keep(xs[1..], keep)
  }

  lemma {:induction false} KeepSplits<T>(a: seq<T>, b: seq<T>, keep: T -> bool)
    ensures Keep(a + b, keep) == Keep(a, keep) + Keep(b, keep)
    decreases |a|
  {
    if |a| == 0 {
      assert a + b == b;
    } else {
      var t := a[1..];
      var head := if keep(a[0]) then [a[0]] else [];
      assert (a + b)[0] == a[0];
      assert (a + b)[1..] == t + b;
      KeepSplits(t, b, keep);
      assert Keep(a + b, keep) == head + Keep(t + b, keep);
      assert head + (Keep(t, keep) + Keep(b, keep)) == (head + Keep(t, keep)) + Keep(b, keep);
    }
  }

  function PlanDueIn(ledger: map<string, Time>, planFiles: string -> Plans.PlanFile): string -> bool {
    f => PlanDue(f, ledger, planFiles)
  }

  lemma {:induction false} PlanCandidatesKeep(files: seq<string>, ledger: map<string, Time>, planFiles: string -> Plans.PlanFile)
    ensures PlanCandidates(files, ledger, planFiles) == Keep(files, PlanDueIn(ledger, planFiles))
    decreases |files|
  {
    if |files| > 0 {
      PlanCandidatesKeep(files[1..], ledger, planFiles);
    }
  }

  /** PlanCandidates is an order-preserving filter: it works piecewise on a
      file list split anywhere. */
  lemma PlanCandidatesSplits(a: seq<string>, b: seq<string>, ledger: map<string, Time>, planFiles: string -> Plans.PlanFile)
    ensures PlanCandidates(a + b, ledger, planFiles) == PlanCandidates(a, ledger, planFiles) + PlanCandidates(b, ledger, planFiles)
  {
    PlanCandidatesKeep(a + b, ledger, planFiles);
    PlanCandidatesKeep(a, ledger, planFiles);
    PlanCandidatesKeep(b, ledger, planFiles);
    KeepSplits(a, b, PlanDueIn(ledger, planFiles));
  }

  /** The plans among some parse results, in order. */
  function Successes(rs: seq<Result<Plans.Plan, Plans.PlanError>>): (r: seq<Plans.Plan>)
    ensures |r| <= |rs|
    ensures forall p :: p in r <==> Ok(p) in rs
  {
    if |rs| == 0 then []
    else
      var rest := Successes(rs[1..]);
      assert forall x :: x in rs <==> x == rs[0] || x in rs[1..];
      match rs[0]
      case Err(_) => rest
      case Ok(p) => [p] + rest
  }

  /** One parse result yields its plan when it is one, and nothing otherwise. */
  lemma SuccessesOne(x: Result<Plans.Plan, Plans.PlanError>)
    ensures Successes([x]) == if x.Ok? then [x.value] else []
  {
    assert [x][1..] == [];
  }

  /** Successes is an order-preserving filter: it works piecewise on a run
      of results split anywhere. */
  lemma {:induction false} SuccessesSplits(a: seq<Result<Plans.Plan, Plans.PlanError>>, b: seq<Result<Plans.Plan, Plans.PlanError>>)
    ensures Successes(a + b) == Successes(a) + Successes(b)
    decreases |a|
  {
    if |a| == 0 {
      assert a + b == b;
    } else {
      assert (a + b)[0] == a[0];
      assert (a + b)[1..] == a[1..] + b;
      SuccessesSplits(a[1..], b);
    }
  }

  /** `f` applied to every element of `xs`, in order. */
  function MapSeq<A, B>(xs: seq<A>, f: A -> B): (ys: seq<B>)
    ensures |ys| == |xs|
    ensures forall i :: 0 <= i < |xs| ==> ys[i] == f(xs[i])
  {
    seq(|xs|, i requires 0 <= i < |xs| => f(xs[i]))
  }

  lemma MapSplits<A, B>(a: seq<A>, b: seq<A>, f: A -> B)
    ensures MapSeq(a + b, f) == MapSeq(a, f) + MapSeq(b, f)
  {
    forall i | 0 <= i < |a| + |b|
      ensures MapSeq(a + b, f)[i] == (MapSeq(a, f) + MapSeq(b, f))[i]
    {
      if i < |a| {
        assert (a + b)[i] == a[i];
      } else {
        assert (a + b)[i] == b[i - |a|];
      }
    }
  }

  function ParseWith(planFiles: string -> Plans.PlanFile): string -> Result<Plans.Plan, Plans.PlanError> {
    f => Plans.ParsePlan(f, planFiles(f))
  }

  /** ParsePlan applied to every candidate, in order. */
  function ParseAll(cands: seq<string>, planFiles: string -> Plans.PlanFile): (rs: seq<Result<Plans.Plan, Plans.PlanError>>)
    ensures |rs| == |cands|
    ensures forall i :: 0 <= i < |cands| ==> rs[i] == Plans.ParsePlan(cands[i], planFiles(cands[i]))
  {
    MapSeq(cands, ParseWith(planFiles))
  }

  lemma ParseAllOk(cands: seq<string>, planFiles: string -> Plans.PlanFile)
    ensures forall p :: Ok(p) in ParseAll(cands, planFiles) <==> exists f :: f in cands && Plans.ParsePlan(f, planFiles(f)) == Ok(p)
  {
    var rs := ParseAll(cands, planFiles);
    forall p ensures Ok(p) in rs <==> exists f :: f in cands && Plans.ParsePlan(f, planFiles(f)) == Ok(p) {
      if Ok(p) in rs {
        var j :| 0 <= j < |rs| && rs[j] == Ok(p);
        assert cands[j] in cands;
      }
      if exists f :: f in cands && Plans.ParsePlan(f, planFiles(f)) == Ok(p) {
        var f :| f in cands && Plans.ParsePlan(f, planFiles(f)) == Ok(p);
        var j :| 0 <= j < |cands| && cands[j] == f;
        assert rs[j] == Ok(p);
      }
    }
  }

  /** The parse loop of syncPlans: every candidate that parses, in order;
      the others are dropped. */
  function ParsedPlans(cands: seq<string>, planFiles: string -> Plans.PlanFile): (r: seq<Plans.Plan>)
    ensures |r| <= |cands|
    ensures forall p :: p in r <==> exists f :: f in cands && Plans.ParsePlan(f, planFiles(f)) == Ok(p)
  {
    ParseAllOk(cands, planFiles);
    Successes(ParseAll(cands, planFiles))
  }

  /** One candidate yields its plan when it parses, and nothing otherwise. */
  lemma ParsedPlansOne(f: string, planFiles: string -> Plans.PlanFile)
    ensures ParsedPlans([f], planFiles) ==
      match Plans.ParsePlan(f, planFiles(f))
      case Ok(p) => [p]
      case Err(_) => []
  {
    var x := Plans.ParsePlan(f, planFiles(f));
    assert ParseAll([f], planFiles) == [x];
    SuccessesOne(x);
  }

  /** The parse loop is an order-preserving filter: it works piecewise on a
      candidate list split anywhere. */
  lemma ParsedPlansSplits(a: seq<string>, b: seq<string>, planFiles: string -> Plans.PlanFile)
    ensures ParsedPlans(a + b, planFiles) == ParsedPlans(a, planFiles) + ParsedPlans(b, planFiles)
  {
    ParseAllSplits(a, b, planFiles);
    SuccessesSplits(ParseAll(a, planFiles), ParseAll(b, planFiles));
  }

  lemma ParseAllSplits(a: seq<string>, b: seq<string>, planFiles: string -> Plans.PlanFile)
    ensures ParseAll(a + b, planFiles) == ParseAll(a, planFiles) + ParseAll(b, planFiles)
  {
    MapSplits(a, b, ParseWith(planFiles));
  }

  /** syncPlans: nothing at all when the plans directory does not exist. */
  function SyncPlans(ledger: map<string, Time>, disk: Disk, attempts: int, oracle: seq<Outcome>, now: Time): (r: Run<Plans.Plan>)
    ensures disk.plansDir.None? ==> r == Run(ledger, [], false)
  {
    match disk.plansDir
    case None => Run(ledger, [], false)
    case Some(entries) =>
      var cands := PlanCandidates(FindFiles(entries, ".md"), ledger, disk.planFiles);
      UploadAll(ledger, Chunks(ParsedPlans(cands, disk.planFiles)), PlanKey, attempts, oracle, now)
  }

  /** The outcome of a pass: the state it leaves, the requests it made for
      sessions and for plans, and whether it crashed before saving. */
  datatype Pass = Pass(state: State, sessionCalls: seq<Call<Session>>, planCalls: seq<Call<Plans.Plan>>, crashed: bool)

  /** sync: sessions first, then plans, then the pass time. A crash leaves the
      saved state as it was. */
  function Sync(cfg: Config, st: State, disk: Disk, oracle: seq<Outcome>, now: Time): (p: Pass)
    ensures p.crashed ==> p.state == st
    ensures !p.crashed ==> p.state.lastSync == now
  {
    var files := FindFiles(disk.projects, ".jsonl");
    var cands := SessionCandidates(files, st.syncedSessions);
    var prep := Prepare(Dispositions(cands, disk, cfg.sharing));
    var ledger := Mark(st.syncedSessions, prep.suppressed, now);
    var up := UploadAll(ledger, Chunks(prep.uploads), SessionKey, cfg.sync.retryAttempts, oracle, now);
    if up.crashed then Pass(st, up.calls, [], true)
    else
      var pl := SyncPlans(st.syncedPlans, disk, cfg.sync.retryAttempts, Drop(oracle, |up.calls|), now);
      if pl.crashed then Pass(st, up.calls, pl.calls, true)
      else Pass(State(up.ledger, pl.ledger, now), up.calls, pl.calls, false)
  }
}
