/** Properties of a sync pass: what it may send, what it records, and how
    consecutive passes relate. */
module WatcherFacts {
  import opened Wrappers
  import opened Clock
  import opened Config
  import opened Records
  import opened Delivery
  import opened Watcher
  import Jsonl
  import Plans

  /** The ids the filter withholds among some transcripts. */
  function WithheldAmong(cands: seq<string>, disk: Disk, sharing: SharingConfig): set<string> {
    set f | f in cands && Dispose(f, disk, sharing).Suppress? :: Dispose(f, disk, sharing).id
  }

  /** The session ids a pass withholds from upload but records anyway:
      new transcripts that parse and that the privacy filter drops. */
  function Withheld(cfg: Config, st: State, disk: Disk): set<string> {
    WithheldAmong(SessionCandidates(FindFiles(disk.projects, ".jsonl"), st.syncedSessions), disk, cfg.sharing)
  }

  /** The ids the parse-and-filter loop withholds are exactly those the
      filter drops among the transcripts it is given. */
  lemma PreparedWithheldAmong(cands: seq<string>, disk: Disk, sharing: SharingConfig)
    ensures Prepare(Dispositions(cands, disk, sharing)).suppressed == WithheldAmong(cands, disk, sharing)
  {
    var ds := Dispositions(cands, disk, sharing);
    var prep := Prepare(ds);
    forall id | id in prep.suppressed ensures id in WithheldAmong(cands, disk, sharing) {
      assert Suppress(id) in ds;
      var j :| 0 <= j < |ds| && ds[j] == Suppress(id);
      assert cands[j] in cands;
    }
    forall id | id in WithheldAmong(cands, disk, sharing) ensures id in prep.suppressed {
      var f :| f in cands && Dispose(f, disk, sharing).Suppress? && Dispose(f, disk, sharing).id == id;
      var j :| 0 <= j < |cands| && cands[j] == f;
      assert ds[j] == Suppress(id);
    }
  }

  /** The ids the parse-and-filter loop withholds are exactly the reference
      set. */
  lemma PreparedWithheld(cfg: Config, st: State, disk: Disk)
    ensures var cands := SessionCandidates(FindFiles(disk.projects, ".jsonl"), st.syncedSessions);
      Prepare(Dispositions(cands, disk, cfg.sharing)).suppressed == Withheld(cfg, st, disk)
  {
    PreparedWithheldAmong(SessionCandidates(FindFiles(disk.projects, ".jsonl"), st.syncedSessions), disk, cfg.sharing);
  }

  /** The parse-and-filter loop yields only ids of the transcripts it is
      given: if none of their ids is in a key set, nothing it yields is. */
  lemma PreparedFromCandidates(cands: seq<string>, disk: Disk, sharing: SharingConfig, recorded: set<string>)
    requires NamesFromFiles(disk.parsed)
    requires forall f :: f in cands ==> Jsonl.SessionID(f) !in recorded
    ensures var prep := Prepare(Dispositions(cands, disk, sharing));
      && KeysOf(prep.uploads, SessionKey) !! recorded
      && prep.suppressed !! recorded
  {
    var ds := Dispositions(cands, disk, sharing);
    var prep := Prepare(ds);
    forall x | x in KeysOf(prep.uploads, SessionKey) ensures x !in recorded {
      var i :| 0 <= i < |prep.uploads| && SessionKey(prep.uploads[i]) == x;
      var u := prep.uploads[i];
      assert Upload(u) in ds;
      var j :| 0 <= j < |ds| && ds[j] == Upload(u);
      assert cands[j] in cands;
    }
    forall id | id in prep.suppressed ensures id !in recorded {
      assert Suppress(id) in ds;
      var j :| 0 <= j < |ds| && ds[j] == Suppress(id);
      assert cands[j] in cands;
    }
  }

  /** Everything the parse-and-filter loop yields belongs to a transcript
      whose id the ledger does not hold. */
  lemma PreparedAreNew(cfg: Config, st: State, disk: Disk)
    requires NamesFromFiles(disk.parsed)
    ensures var cands := SessionCandidates(FindFiles(disk.projects, ".jsonl"), st.syncedSessions);
      var prep := Prepare(Dispositions(cands, disk, cfg.sharing));
      && KeysOf(prep.uploads, SessionKey) !! st.syncedSessions.Keys
      && prep.suppressed !! st.syncedSessions.Keys
  {
    var cands := SessionCandidates(FindFiles(disk.projects, ".jsonl"), st.syncedSessions);
    PreparedFromCandidates(cands, disk, cfg.sharing, st.syncedSessions.Keys);
  }

  /** A pass sends only sessions the parse-and-filter loop queued. */
  lemma PassSendsOnlyQueued(cfg: Config, st: State, disk: Disk, oracle: seq<Outcome>, now: Time)
    ensures var cands := SessionCandidates(FindFiles(disk.projects, ".jsonl"), st.syncedSessions);
      var prep := Prepare(Dispositions(cands, disk, cfg.sharing));
      SentKeys(Sync(cfg, st, disk, oracle, now).sessionCalls, SessionKey) <= KeysOf(prep.uploads, SessionKey)
  {
    var cands := SessionCandidates(FindFiles(disk.projects, ".jsonl"), st.syncedSessions);
    var prep := Prepare(Dispositions(cands, disk, cfg.sharing));
    var ledger := Mark(st.syncedSessions, prep.suppressed, now);
    var up := UploadAll(ledger, Chunks(prep.uploads), SessionKey, cfg.sync.retryAttempts, oracle, now);
    assert Sync(cfg, st, disk, oracle, now).sessionCalls == up.calls;
    UploadSentWithin(ledger, Chunks(prep.uploads), SessionKey, cfg.sync.retryAttempts, oracle, now);
    ChunksFlatten(prep.uploads);
  }

  /** No pass sends a session whose id the ledger it started from holds. */
  lemma PassSendsOnlyNew(cfg: Config, st: State, disk: Disk, oracle: seq<Outcome>, now: Time)
    requires NamesFromFiles(disk.parsed)
    ensures SentKeys(Sync(cfg, st, disk, oracle, now).sessionCalls, SessionKey) !! st.syncedSessions.Keys
  {
    PreparedAreNew(cfg, st, disk);
    PassSendsOnlyQueued(cfg, st, disk, oracle, now);
  }

  /** A pass step by step: the session uploads, then the plan uploads on
      the outcomes left over, then the state both leave. */
  lemma SyncShape(cfg: Config, st: State, disk: Disk, oracle: seq<Outcome>, now: Time)
    ensures var p := Sync(cfg, st, disk, oracle, now);
      var cands := SessionCandidates(FindFiles(disk.projects, ".jsonl"), st.syncedSessions);
      var prep := Prepare(Dispositions(cands, disk, cfg.sharing));
      var up := UploadAll(Mark(st.syncedSessions, prep.suppressed, now), Chunks(prep.uploads), SessionKey,
                          cfg.sync.retryAttempts, oracle, now);
      var pl := SyncPlans(st.syncedPlans, disk, cfg.sync.retryAttempts, Drop(oracle, |up.calls|), now);
      && p.sessionCalls == up.calls
      && (!p.crashed ==> !up.crashed && !pl.crashed && p.planCalls == pl.calls && p.state == State(up.ledger, pl.ledger, now))
  {
  }

  /** The session ledger after a pass that does not crash: the withheld and
      the acknowledged ids are added, stamped `now`. */
  lemma PassSessionLedger(cfg: Config, st: State, disk: Disk, oracle: seq<Outcome>, now: Time)
    ensures var p := Sync(cfg, st, disk, oracle, now);
      !p.crashed ==>
        p.state.syncedSessions == Mark(st.syncedSessions, Withheld(cfg, st, disk) + AckedKeys(p.sessionCalls, SessionKey), now)
  {
    var cands := SessionCandidates(FindFiles(disk.projects, ".jsonl"), st.syncedSessions);
    var prep := Prepare(Dispositions(cands, disk, cfg.sharing));
    var ledger := Mark(st.syncedSessions, prep.suppressed, now);
    var up := UploadAll(ledger, Chunks(prep.uploads), SessionKey, cfg.sync.retryAttempts, oracle, now);
    SyncShape(cfg, st, disk, oracle, now);
    PreparedWithheld(cfg, st, disk);
    UploadLedger(ledger, Chunks(prep.uploads), SessionKey, cfg.sync.retryAttempts, oracle, now);
    MarkTwice(st.syncedSessions, prep.suppressed, AckedKeys(up.calls, SessionKey), now);
  }

  /** The plan half of a pass, without a crash, stamps exactly the
      acknowledged plan names; with no plans directory it changes nothing. */
  lemma PlanRunLedger(ledger: map<string, Time>, disk: Disk, attempts: int, oracle: seq<Outcome>, now: Time)
    ensures var r := SyncPlans(ledger, disk, attempts, oracle, now);
      !r.crashed ==> r.ledger == Mark(ledger, AckedKeys(r.calls, PlanKey), now)
  {
    match disk.plansDir
    case None =>
      assert AckedKeys([], PlanKey) == {};
      assert Mark(ledger, {}, now) == ledger;
    case Some(entries) =>
      var cands := PlanCandidates(FindFiles(entries, ".md"), ledger, disk.planFiles);
      UploadLedger(ledger, Chunks(ParsedPlans(cands, disk.planFiles)), PlanKey, attempts, oracle, now);
  }

  /** The plan ledger after a pass that does not crash: the acknowledged
      plan names are added or restamped `now`. */
  lemma PassPlanLedger(cfg: Config, st: State, disk: Disk, oracle: seq<Outcome>, now: Time)
    ensures var p := Sync(cfg, st, disk, oracle, now);
      !p.crashed ==> p.state.syncedPlans == Mark(st.syncedPlans, AckedKeys(p.planCalls, PlanKey), now)
  {
    var cands := SessionCandidates(FindFiles(disk.projects, ".jsonl"), st.syncedSessions);
    var prep := Prepare(Dispositions(cands, disk, cfg.sharing));
    var up := UploadAll(Mark(st.syncedSessions, prep.suppressed, now), Chunks(prep.uploads), SessionKey,
                        cfg.sync.retryAttempts, oracle, now);
    SyncShape(cfg, st, disk, oracle, now);
    PlanRunLedger(st.syncedPlans, disk, cfg.sync.retryAttempts, Drop(oracle, |up.calls|), now);
  }

  /** What a pass that does not crash records: the session ledger gains the
      withheld and the acknowledged ids, stamped `now`; the plan ledger
      stamps the acknowledged plan names; the pass time is `now`. */
  lemma PassLedger(cfg: Config, st: State, disk: Disk, oracle: seq<Outcome>, now: Time)
    ensures var p := Sync(cfg, st, disk, oracle, now);
      !p.crashed ==>
        && p.state.syncedSessions == Mark(st.syncedSessions, Withheld(cfg, st, disk) + AckedKeys(p.sessionCalls, SessionKey), now)
        && p.state.syncedPlans == Mark(st.syncedPlans, AckedKeys(p.planCalls, PlanKey), now)
        && p.state.lastSync == now
  {
    PassSessionLedger(cfg, st, disk, oracle, now);
    PassPlanLedger(cfg, st, disk, oracle, now);
  }

  /** A pass never restamps a session it finds recorded: every old entry
      keeps its time, and every new one carries `now`. */
  lemma PassKeepsOldEntries(cfg: Config, st: State, disk: Disk, oracle: seq<Outcome>, now: Time)
    requires NamesFromFiles(disk.parsed)
    ensures var p := Sync(cfg, st, disk, oracle, now);
      !p.crashed ==>
        && (forall k :: k in st.syncedSessions ==> k in p.state.syncedSessions && p.state.syncedSessions[k] == st.syncedSessions[k])
        && (forall k :: k in p.state.syncedSessions && k !in st.syncedSessions ==> p.state.syncedSessions[k] == now)
  {
    var p := Sync(cfg, st, disk, oracle, now);
    if !p.crashed {
      PassLedger(cfg, st, disk, oracle, now);
      PreparedAreNew(cfg, st, disk);
      PreparedWithheld(cfg, st, disk);
      PassSendsOnlyNew(cfg, st, disk, oracle, now);
      AckedWereSent(p.sessionCalls, SessionKey);
    }
  }

  /** At most once across passes: the pass after one that did not crash
      sends none of the sessions the earlier pass got acknowledged. */
  lemma AtMostOnce(cfg: Config, st: State, disk1: Disk, disk2: Disk,
                   oracle1: seq<Outcome>, oracle2: seq<Outcome>, now1: Time, now2: Time)
    requires NamesFromFiles(disk2.parsed)
    requires !Sync(cfg, st, disk1, oracle1, now1).crashed
    ensures var p1 := Sync(cfg, st, disk1, oracle1, now1);
      SentKeys(Sync(cfg, p1.state, disk2, oracle2, now2).sessionCalls, SessionKey)
        !! AckedKeys(p1.sessionCalls, SessionKey)
  {
    var p1 := Sync(cfg, st, disk1, oracle1, now1);
    PassLedger(cfg, st, disk1, oracle1, now1);
    PassSendsOnlyNew(cfg, p1.state, disk2, oracle2, now2);
  }

  /** A transcript the filter withholds is recorded, so it is not even
      parsed again in the next pass. */
  lemma WithheldNotReconsidered(cfg: Config, st: State, disk: Disk, oracle: seq<Outcome>, now: Time, f: string)
    requires NamesFromFiles(disk.parsed)
    requires f in FindFiles(disk.projects, ".jsonl") && Jsonl.SessionID(f) !in st.syncedSessions
    requires Dispose(f, disk, cfg.sharing).Suppress?
    requires !Sync(cfg, st, disk, oracle, now).crashed
    ensures f !in SessionCandidates(FindFiles(disk.projects, ".jsonl"), Sync(cfg, st, disk, oracle, now).state.syncedSessions)
  {
    PassLedger(cfg, st, disk, oracle, now);
    assert Dispose(f, disk, cfg.sharing).id in Withheld(cfg, st, disk);
    assert Dispose(f, disk, cfg.sharing).id == Jsonl.SessionID(f);
  }

  /** The parse-and-filter loop neither withholds nor queues the id of a
      transcript that fails to parse, unless another transcript carries it. */
  lemma UnparsedNotPrepared(cfg: Config, st: State, disk: Disk, f: string)
    requires NamesFromFiles(disk.parsed)
    requires disk.parsed(f).Err?
    requires forall g :: g in FindFiles(disk.projects, ".jsonl") && Jsonl.SessionID(g) == Jsonl.SessionID(f) ==> g == f
    ensures var cands := SessionCandidates(FindFiles(disk.projects, ".jsonl"), st.syncedSessions);
      var prep := Prepare(Dispositions(cands, disk, cfg.sharing));
      && Jsonl.SessionID(f) !in Withheld(cfg, st, disk)
      && Jsonl.SessionID(f) !in KeysOf(prep.uploads, SessionKey)
  {
    var cands := SessionCandidates(FindFiles(disk.projects, ".jsonl"), st.syncedSessions);
    var ds := Dispositions(cands, disk, cfg.sharing);
    var prep := Prepare(ds);
    var id := Jsonl.SessionID(f);
    forall g | g in cands && Dispose(g, disk, cfg.sharing).Suppress? ensures Dispose(g, disk, cfg.sharing).id != id {
      assert g != f;
    }
    forall i | 0 <= i < |prep.uploads| ensures SessionKey(prep.uploads[i]) != id {
      var u := prep.uploads[i];
      assert Upload(u) in ds;
      var j :| 0 <= j < |ds| && ds[j] == Upload(u);
      assert cands[j] in cands;
      assert cands[j] != f;
    }
  }

  /** A transcript that fails to parse is not recorded, so the next pass
      reads it again, unless another transcript carries the same id. */
  lemma UnparsedRetried(cfg: Config, st: State, disk: Disk, oracle: seq<Outcome>, now: Time, f: string)
    requires NamesFromFiles(disk.parsed)
    requires f in FindFiles(disk.projects, ".jsonl") && Jsonl.SessionID(f) !in st.syncedSessions
    requires disk.parsed(f).Err?
    requires forall g :: g in FindFiles(disk.projects, ".jsonl") && Jsonl.SessionID(g) == Jsonl.SessionID(f) ==> g == f
    requires !Sync(cfg, st, disk, oracle, now).crashed
    ensures f in SessionCandidates(FindFiles(disk.projects, ".jsonl"), Sync(cfg, st, disk, oracle, now).state.syncedSessions)
  {
    var p := Sync(cfg, st, disk, oracle, now);
    PassLedger(cfg, st, disk, oracle, now);
    UnparsedNotPrepared(cfg, st, disk, f);
    PassSendsOnlyQueued(cfg, st, disk, oracle, now);
    AckedWereSent(p.sessionCalls, SessionKey);
    assert Jsonl.SessionID(f) !in AckedKeys(p.sessionCalls, SessionKey);
  }

  /** A transcript whose id the ledger holds is never a candidate. */
  lemma {:induction false} AllRecordedNoCandidates(files: seq<string>, ledger: map<string, Time>)
    requires forall f :: f in files ==> Jsonl.SessionID(f) in ledger
    ensures SessionCandidates(files, ledger) == []
    decreases |files|
  {
    if |files| > 0 {
      assert files[0] in files;
      assert forall f :: f in files[1..] ==> f in files;
      AllRecordedNoCandidates(files[1..], ledger);
    }
  }

  /** A plan file whose modification time cannot be read, or whose name was
      recorded no earlier than that time, is never a candidate. */
  lemma {:induction false} AllUnchangedNoCandidates(files: seq<string>, ledger: map<string, Time>, planFiles: string -> Plans.PlanFile)
    requires forall f :: f in files ==>
      var m := planFiles(f).modTime;
      m.None? || (Plans.PlanName(f) in ledger && !After(m.value, ledger[Plans.PlanName(f)]))
    ensures PlanCandidates(files, ledger, planFiles) == []
    decreases |files|
  {
    if |files| > 0 {
      assert files[0] in files;
      assert forall f :: f in files[1..] ==> f in files;
      AllUnchangedNoCandidates(files[1..], ledger, planFiles);
    }
  }

  /** The session half of a pass over transcripts all recorded sends
      nothing and leaves the ledger as it was. */
  lemma QuietSessions(files: seq<string>, cfg: Config, st: State, disk: Disk, oracle: seq<Outcome>, now: Time)
    requires forall f :: f in files ==> Jsonl.SessionID(f) in st.syncedSessions
    ensures var prep := Prepare(Dispositions(SessionCandidates(files, st.syncedSessions), disk, cfg.sharing));
      UploadAll(Mark(st.syncedSessions, prep.suppressed, now), Chunks(prep.uploads), SessionKey,
                cfg.sync.retryAttempts, oracle, now) == Run(st.syncedSessions, [], false)
  {
    AllRecordedNoCandidates(files, st.syncedSessions);
    var ds := Dispositions([], disk, cfg.sharing);
    assert ds == [];
    assert Prepare(ds) == Prepared([], {});
    assert Mark(st.syncedSessions, {}, now) == st.syncedSessions;
    assert Chunks<Session>([]) == [];
  }

  /** The plan half of a pass over plans none modified since recorded sends
      nothing and leaves the ledger as it was. */
  lemma QuietPlans(ledger: map<string, Time>, disk: Disk, attempts: int, oracle: seq<Outcome>, now: Time)
    requires disk.plansDir.Some? ==> forall f :: f in FindFiles(disk.plansDir.value, ".md") ==>
      var m := disk.planFiles(f).modTime;
      m.None? || (Plans.PlanName(f) in ledger && !After(m.value, ledger[Plans.PlanName(f)]))
    ensures SyncPlans(ledger, disk, attempts, oracle, now) == Run(ledger, [], false)
  {
    match disk.plansDir
    case None =>
    case Some(entries) =>
      var pcands := PlanCandidates(FindFiles(entries, ".md"), ledger, disk.planFiles);
      AllUnchangedNoCandidates(FindFiles(entries, ".md"), ledger, disk.planFiles);
      assert ParsedPlans(pcands, disk.planFiles) == [];
      assert Chunks<Plans.Plan>([]) == [];
  }

  /** A pass over a disk with nothing new is idempotent: no request, and the
      only change is the pass time. */
  lemma QuietPass(cfg: Config, st: State, disk: Disk, oracle: seq<Outcome>, now: Time)
    requires forall f :: f in FindFiles(disk.projects, ".jsonl") ==> Jsonl.SessionID(f) in st.syncedSessions
    requires disk.plansDir.Some? ==> forall f :: f in FindFiles(disk.plansDir.value, ".md") ==>
      var m := disk.planFiles(f).modTime;
      m.None? || (Plans.PlanName(f) in st.syncedPlans && !After(m.value, st.syncedPlans[Plans.PlanName(f)]))
    ensures Sync(cfg, st, disk, oracle, now) == Pass(st.(lastSync := now), [], [], false)
  {
    QuietSessions(FindFiles(disk.projects, ".jsonl"), cfg, st, disk, oracle, now);
    QuietPlans(st.syncedPlans, disk, cfg.sync.retryAttempts, Drop(oracle, 0), now);
  }

  /** With retry_attempts below one (which validation accepts) a pass uploads
      nothing, yet still records the withheld sessions. */
  lemma NoAttemptsNoUploads(cfg: Config, st: State, disk: Disk, oracle: seq<Outcome>, now: Time)
    requires cfg.sync.retryAttempts < 1
    ensures var p := Sync(cfg, st, disk, oracle, now);
      && !p.crashed && p.sessionCalls == [] && p.planCalls == []
      && p.state == State(Mark(st.syncedSessions, Withheld(cfg, st, disk), now), st.syncedPlans, now)
  {
    var cands := SessionCandidates(FindFiles(disk.projects, ".jsonl"), st.syncedSessions);
    var prep := Prepare(Dispositions(cands, disk, cfg.sharing));
    var ledger := Mark(st.syncedSessions, prep.suppressed, now);
    PreparedWithheld(cfg, st, disk);
    NoAttemptsNoCalls(ledger, Chunks(prep.uploads), SessionKey, cfg.sync.retryAttempts, oracle, now);
    match disk.plansDir
    case None =>
    case Some(entries) =>
      var pcands := PlanCandidates(FindFiles(entries, ".md"), st.syncedPlans, disk.planFiles);
      NoAttemptsNoCalls(st.syncedPlans, Chunks(ParsedPlans(pcands, disk.planFiles)), PlanKey, cfg.sync.retryAttempts, oracle, now);
  }

  /** A plan acknowledged in a pass is offered again later exactly when its
      file is modified after that pass's time. */
  lemma PlanResentOnlyIfModified(cfg: Config, st: State, disk: Disk, oracle: seq<Outcome>, now: Time,
                                 files: seq<string>, planFiles: string -> Plans.PlanFile, f: string, m: Time)
    requires !Sync(cfg, st, disk, oracle, now).crashed
    requires Plans.PlanName(f) in AckedKeys(Sync(cfg, st, disk, oracle, now).planCalls, PlanKey)
    requires f in files && planFiles(f).modTime == Some(m)
    ensures f in PlanCandidates(files, Sync(cfg, st, disk, oracle, now).state.syncedPlans, planFiles) <==> After(m, now)
  {
    PassLedger(cfg, st, disk, oracle, now);
  }

  /** The statistics read back after a pass that did not crash. */
  lemma StatsAfterPass(cfg: Config, st: State, disk: Disk, oracle: seq<Outcome>, now: Time)
    requires !Sync(cfg, st, disk, oracle, now).crashed
    ensures var s := GetStats(Stored(Sync(cfg, st, disk, oracle, now).state));
      && s.lastSync == now
      && s.totalSynced >= |st.syncedSessions|
      && s.totalPlansSynced >= |st.syncedPlans|
  {
    var p := Sync(cfg, st, disk, oracle, now);
    PassLedger(cfg, st, disk, oracle, now);
    SubsetCard(st.syncedSessions.Keys, p.state.syncedSessions.Keys);
    SubsetCard(st.syncedPlans.Keys, p.state.syncedPlans.Keys);
  }

  lemma SubsetCard(a: set<string>, b: set<string>)
    requires a <= b
    ensures |a| <= |b|
  {
    assert b == a + (b - a);
  }
}
