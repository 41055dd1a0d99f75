/** What every run of the migrations keeps, whichever pods crash and whichever commands fail. */
module MigrationSafety {
  import opened Text
  import opened Migrations
  import opened Sorting

  /** Under the lock. */
  predicate IsCritical(ph: Phase) { ph.Creating? || ph.Reading? || ph.Applying? }

  ghost predicate TxnIs(pod: Pod) {
    if pod.phase.Locking? || pod.phase.Creating? || pod.phase.Reading? then pod.txn == EMPTY
    else if !pod.phase.Applying? then true
    else if pod.phase.pending == [] then false
    else
      var file := pod.phase.pending[0];
      match pod.phase.stage
      case Beginning => pod.txn == EMPTY
      case Running => pod.txn == EMPTY
      case Recording => pod.txn == Txn([file], [])
      case Committing => pod.txn == Txn([file], [file])
      case RollingBack => true
  }

  predicate AllIn(fs: seq<string>, rows: seq<string>) { forall f | f in fs && IsSql(f) :: f in rows }

  /** What is left to do is new, in order, and all that is missing. */
  ghost predicate TodoIs(rows: seq<string>, files: seq<string>, done: seq<string>, pending: seq<string>) {
    && Ascending(done + pending)
    && (forall f | f in pending :: f !in rows && IsSql(f) && f in files)
    && (forall f | f in files && IsSql(f) :: f in rows || f in pending)
  }

  ghost predicate WorkIs(rows: seq<string>, pod: Pod) {
    match pod.phase
    case Applying(pending, stage) => !stage.RollingBack? ==> TodoIs(rows, pod.files, pod.done, pending)
    case Unlocking(ok) => ok ==> AllIn(pod.files, rows)
    case Over(ok, _) => ok ==> AllIn(pod.files, rows)
    case Crashed => true
    case _ => pod.done == []
  }

  predicate LockIs(lock: Option<nat>, p: nat, ph: Phase) {
    match ph
    case Unlocking(ok) => true
    case Over(_, keeps) => keeps == (lock == Some(p))
    case _ => IsCritical(ph) == (lock == Some(p))
  }

  ghost predicate PodOk(db: Db, p: nat, pod: Pod) {
    && Distinct(pod.files) && Ascending(pod.done) && (forall f | f in pod.done :: f in db.rows)
    && TxnIs(pod) && WorkIs(db.rows, pod) && LockIs(db.lock, p, pod.phase)
  }

  predicate DbOk(db: Db) { db.effects == db.rows && Distinct(db.rows) }

  ghost predicate Inv(s: State) {
    && DbOk(s.db)
    && (forall p | 0 <= p < |s.pods| :: PodOk(s.db, p, s.pods[p]))
    && (s.db.lock.Some? ==> s.db.lock.value < |s.pods|)
  }

  // ---- Files in order ----

  lemma FilesAscend(done: seq<string>, pending: seq<string>)
    requires Ascending(done + pending) && pending != []
    ensures Ascending(done + [pending[0]]) && Ascending((done + [pending[0]]) + pending[1..]) && Ascending(done)
    ensures pending[0] !in pending[1..]
  {
    hide Before;
    var all := done + pending;
    assert (done + [pending[0]]) + pending[1..] == all;
    assert done + [pending[0]] == all[..|done| + 1] && done == all[..|done|];
    forall i | 0 <= i < |pending| - 1
      ensures pending[1..][i] != pending[0]
    {
      assert all[|done|] == pending[0] && all[|done| + 1 + i] == pending[1..][i];
      NotBeforeItself(pending[0]);
    }
  }

  // ---- One pod's step ----

  lemma StartingWork(rows: seq<string>, pod: Pod)
    requires Distinct(pod.files) && pod.done == []
    ensures var pending := PendingMigrations(pod.files, rows);
            TodoIs(rows, pod.files, pod.done, pending) && (pending == [] ==> AllIn(pod.files, rows))
  {
    hide Ascending, Distinct, IsSql, PendingMigrations;
    PendingIsWhatIsMissing(pod.files, rows);
    assert pod.done + PendingMigrations(pod.files, rows) == PendingMigrations(pod.files, rows);
  }

  lemma CommitKeeps(rows: seq<string>, files: seq<string>, done: seq<string>, pending: seq<string>)
    requires pending != [] && TodoIs(rows, files, done, pending) && Distinct(rows)
    requires forall f | f in done :: f in rows
    ensures var file, rest := pending[0], pending[1..];
            && TodoIs(rows + [file], files, done + [file], rest) && Distinct(rows + [file]) && Ascending(done + [file])
            && (rest == [] ==> AllIn(files, rows + [file]))
            && (forall f | f in done + [file] :: f in rows + [file])
  {
    hide Ascending, IsSql;
    var file, rest := pending[0], pending[1..];
    FilesAscend(done, pending);
    assert pending == [file] + rest;
    assert file in pending;
    assert Distinct(rows + [file]);
    assert forall f | f in files && IsSql(f) :: f in rows + [file] || f in rest;
    forall f | f in rest
      ensures f !in rows + [file]
    {
      assert f in pending;
    }
  }

  lemma StepFileKeeps(db: Db, p: nat, pod: Pod, reply: Reply)
    requires DbOk(db) && PodOk(db, p, pod) && pod.phase.Applying? && pod.phase.pending != []
    ensures var (db2, pod2) := StepFile(db, pod, reply);
            DbOk(db2) && PodOk(db2, p, pod2)
  {
    hide Ascending, IsSql, Distinct, TodoIs, AllIn;
    var pending := pod.phase.pending;
    assert [] + [pending[0]] == [pending[0]];
    match pod.phase.stage
    case Beginning =>
    case Running =>
    case Recording =>
    case Committing =>
      CommitKeeps(db.rows, pod.files, pod.done, pending);
    case RollingBack =>
  }

  lemma StepPodKeeps(db: Db, p: nat, pod: Pod, reply: Reply)
    requires DbOk(db) && PodOk(db, p, pod)
    requires pod.phase.Locking? && reply.Ok? ==> db.lock == None
    ensures var (db2, pod2) := StepPod(db, p, pod, reply);
            DbOk(db2) && PodOk(db2, p, pod2)
  {
    hide Ascending, IsSql, Distinct, TodoIs, AllIn, StepFile, PendingMigrations;
    match pod.phase
    case Locking =>
    case Creating =>
    case Reading =>
      StartingWork(db.rows, pod);
    case Applying(pending, stage) =>
      if pending != [] {
        StepFileKeeps(db, p, pod, reply);
      }
    case Unlocking(ok) =>
    case Over(_, _) =>
    case Crashed =>
  }

  /** What one pod's step may do to the others' database. */
  ghost predicate MovesFor(p: nat, db: Db, db2: Db) {
    && (db2.rows == db.rows || (db.lock == Some(p) && db.rows <= db2.rows))
    && (forall q: nat | q != p :: (db.lock == Some(q)) == (db2.lock == Some(q)))
  }

  lemma StepMoves(db: Db, p: nat, pod: Pod, reply: Reply)
    requires PodOk(db, p, pod)
    requires pod.phase.Locking? && reply.Ok? ==> db.lock == None
    ensures MovesFor(p, db, StepPod(db, p, pod, reply).0)
  {
    hide WorkIs, TxnIs, Ascending, Distinct, PendingMigrations;
  }

  lemma OthersKeep(p: nat, db: Db, db2: Db, q: nat, pod: Pod)
    requires MovesFor(p, db, db2) && q != p && PodOk(db, q, pod)
    ensures PodOk(db2, q, pod)
  {
    hide Ascending, Distinct, TxnIs, IsSql;
    if db2.rows != db.rows {
      assert db.lock != Some(q);
      assert forall f | f in db.rows :: f in db2.rows;
    }
  }

  lemma MoveKeeps(s: State, p: nat, db: Db, pod: Pod)
    requires Inv(s) && p < |s.pods| && DbOk(db) && PodOk(db, p, pod) && MovesFor(p, s.db, db)
    requires db.lock.Some? ==> db.lock.value < |s.pods|
    ensures Inv(State(db, s.pods[p := pod]))
  {
    hide PodOk, DbOk, MovesFor;
    var pods := s.pods[p := pod];
    forall q: nat | q < |pods|
      ensures PodOk(db, q, pods[q])
    {
      if q != p {
        OthersKeep(p, s.db, db, q, s.pods[q]);
      }
    }
  }

  lemma LockStaysBelow(db: Db, p: nat, pod: Pod, reply: Reply, n: nat)
    requires p < n && (db.lock.Some? ==> db.lock.value < n)
    ensures var db2 := StepPod(db, p, pod, reply).0; db2.lock.Some? ==> db2.lock.value < n
  {
    hide PendingMigrations;
  }

  lemma CrashKeeps(s: State, p: nat)
    requires Inv(s) && IsEnabled(s, Crash(p))
    ensures Inv(Apply(s, Crash(p)))
  {
    hide Ascending, Distinct, Inv;
    var pod := s.pods[p];
    var db := Unlocked(s.db, p);
    assert PodOk(s.db, p, pod) && DbOk(s.db) && (s.db.lock.Some? ==> s.db.lock.value < |s.pods|) by {
      Opened(s, p);
    }
    MoveKeeps(s, p, db, pod.(phase := Phase.Crashed, txn := EMPTY));
  }

  lemma Opened(s: State, p: nat)
    requires Inv(s) && p < |s.pods|
    ensures PodOk(s.db, p, s.pods[p]) && DbOk(s.db) && (s.db.lock.Some? ==> s.db.lock.value < |s.pods|)
  {
    hide PodOk, DbOk;
  }

  lemma StartKeeps(s: State, files: seq<string>)
    requires Inv(s) && Distinct(files)
    ensures Inv(Apply(s, Start(files)))
  {
    hide PodOk, DbOk;
    var pods := s.pods + [Pod(files, Locking, EMPTY, [])];
    NewPodOk(s.db, |s.pods|, files);
    forall q: nat | q < |pods|
      ensures PodOk(s.db, q, pods[q])
    {
      if q < |s.pods| {
        assert pods[q] == s.pods[q];
      }
    }
  }

  lemma NewPodOk(db: Db, p: nat, files: seq<string>)
    requires Distinct(files) && db.lock != Some(p)
    ensures PodOk(db, p, Pod(files, Locking, EMPTY, []))
  {
    hide Distinct;
    EmptyAscends();
  }

  lemma StepKeeps(s: State, p: nat, reply: Reply)
    requires Inv(s) && IsEnabled(s, Step(p, reply))
    ensures Inv(Apply(s, Step(p, reply)))
  {
    hide Inv, PodOk, DbOk, MovesFor, StepPod;
    Opened(s, p);
    var pod := s.pods[p];
    StepPodKeeps(s.db, p, pod, reply);
    StepMoves(s.db, p, pod, reply);
    LockStaysBelow(s.db, p, pod, reply, |s.pods|);
    var (db2, pod2) := StepPod(s.db, p, pod, reply);
    MoveKeeps(s, p, db2, pod2);
  }

  lemma {:induction false} RunKeeps(s: State, es: seq<Event>)
    requires Inv(s) && IsRun(s, es)
    ensures Inv(After(s, es))
    decreases |es|
  {
    hide Inv, Apply;
    if es != [] {
      match es[0] {
        case Start(files) => StartKeeps(s, files);
        case Step(p, reply) => StepKeeps(s, p, reply);
        case Crash(p) => CrashKeeps(s, p);
      }
      RunKeeps(Apply(s, es[0]), es[1..]);
    }
  }

  lemma InitialIsFine()
    ensures Inv(Initial())
  {
  }

  // ---- What it comes to ----

  /** Each file takes effect at most once, and `schema_migrations` names exactly those that did. */
  lemma EachFileTakesEffectOnce(es: seq<Event>)
    requires IsRun(Initial(), es)
    ensures var db := After(Initial(), es).db; Distinct(db.effects) && db.rows == db.effects
  {
    hide IsRun, After, PodOk, Distinct;
    InitialIsFine();
    RunKeeps(Initial(), es);
  }

  /** At most one pod at a time is between taking the lock and giving it back. */
  lemma OnePodAtATime(es: seq<Event>, p: nat, q: nat)
    requires IsRun(Initial(), es)
    requires var pods := After(Initial(), es).pods;
             p < |pods| && q < |pods| && IsCritical(pods[p].phase) && IsCritical(pods[q].phase)
    ensures p == q
  {
    hide IsRun, After, TxnIs, WorkIs, Distinct, Ascending, Inv;
    InitialIsFine();
    RunKeeps(Initial(), es);
    Opened(After(Initial(), es), p);
    Opened(After(Initial(), es), q);
  }

  /**
   * What a pod applied, it applied in lexical order; and a pod that comes through without an error
   * leaves none of its migrations out, whether it applied them or another pod did.
   */
  lemma EachPodDoesItsPart(es: seq<Event>, p: nat)
    requires IsRun(Initial(), es) && p < |After(Initial(), es).pods|
    ensures var s := After(Initial(), es);
            && Ascending(s.pods[p].done) && (forall f | f in s.pods[p].done :: f in s.db.rows)
            && (s.pods[p].phase.Over? && s.pods[p].phase.ok ==> AllIn(s.pods[p].files, s.db.rows))
  {
    hide IsRun, After, TxnIs, Ascending, AllIn, Inv;
    InitialIsFine();
    RunKeeps(Initial(), es);
    Opened(After(Initial(), es), p);
  }

  // ---- One directory ----

  /** The database and a pod that is at work, against the sorted files. */
  predicate OnTrack(rows: seq<string>, files: seq<string>, pod: Pod) {
    && rows <= Sorted(SqlFiles(files)) && pod.files == files
    && (pod.phase.Applying? && !pod.phase.stage.RollingBack? ==> pod.phase.pending == Sorted(SqlFiles(files))[|rows|..])
  }

  ghost predicate SameFiles(s: State, files: seq<string>) {
    && s.db.rows <= Sorted(SqlFiles(files))
    && (forall p | 0 <= p < |s.pods| :: OnTrack(s.db.rows, files, s.pods[p]))
  }

  lemma {:induction false} PrefixIsDone(sorted: seq<string>, rows: seq<string>)
    requires Ascending(sorted) && rows <= sorted
    ensures NotIn(sorted, rows) == sorted[|rows|..]
  {
    hide Ascending;
    assert sorted == rows + sorted[|rows|..];
    NotInSplit(rows, sorted[|rows|..], rows);
    AllDone(rows, rows);
    AscendingIsDistinct(sorted);
    forall f | f in sorted[|rows|..]
      ensures f !in rows
    {
      var i :| |rows| <= i < |sorted| && sorted[i] == f;
      forall j | 0 <= j < |rows|
        ensures rows[j] != f
      {
        assert sorted[j] == rows[j];
      }
    }
    NoneDone(sorted[|rows|..], rows);
  }

  lemma {:induction false} NotInSplit(a: seq<string>, b: seq<string>, applied: seq<string>)
    ensures NotIn(a + b, applied) == NotIn(a, applied) + NotIn(b, applied)
  {
    if a == [] {
      assert a + b == b;
    } else {
      assert (a + b)[1..] == a[1..] + b;
      NotInSplit(a[1..], b, applied);
    }
  }

  lemma {:induction false} AllDone(fs: seq<string>, applied: seq<string>)
    requires forall f | f in fs :: f in applied
    ensures NotIn(fs, applied) == []
  {
    if fs != [] {
      AllDone(fs[1..], applied);
    }
  }

  lemma {:induction false} NoneDone(fs: seq<string>, applied: seq<string>)
    requires forall f | f in fs :: f !in applied
    ensures NotIn(fs, applied) == fs
  {
    if fs != [] {
      NoneDone(fs[1..], applied);
    }
  }

  lemma StepStaysOnTrack(db: Db, p: nat, pod: Pod, reply: Reply, files: seq<string>)
    requires PodOk(db, p, pod) && OnTrack(db.rows, files, pod) && Distinct(files)
    ensures var (db2, pod2) := StepPod(db, p, pod, reply); OnTrack(db2.rows, files, pod2)
  {
    hide Sorted, SqlFiles, Ascending, Distinct, WorkIs;
    var sorted := Sorted(SqlFiles(files));
    SqlAreDistinct(files);
    SortAscends(SqlFiles(files));
    match pod.phase
    case Reading =>
      PrefixIsDone(sorted, db.rows);
    case Applying(pending, stage) =>
      if stage.Committing? {
        NextOfPrefix(sorted, db.rows);
      }
    case _ =>
  }

  lemma NextOfPrefix(sorted: seq<string>, rows: seq<string>)
    requires rows <= sorted
    ensures |rows| < |sorted| ==>
              && rows + [sorted[|rows|..][0]] <= sorted
              && sorted[|rows|..][1..] == sorted[|rows| + 1..]
  {
  }

  lemma OthersStayOnTrack(p: nat, db: Db, db2: Db, q: nat, pod: Pod, files: seq<string>)
    requires MovesFor(p, db, db2) && q != p && PodOk(db, q, pod) && OnTrack(db.rows, files, pod)
    requires db2.rows <= Sorted(SqlFiles(files))
    ensures OnTrack(db2.rows, files, pod)
  {
    hide WorkIs, TxnIs, Ascending, Distinct, Sorted, SqlFiles;
  }

  lemma MoveStaysOnTrack(s: State, p: nat, db: Db, pod: Pod, files: seq<string>)
    requires Inv(s) && SameFiles(s, files) && p < |s.pods| && MovesFor(p, s.db, db) && OnTrack(db.rows, files, pod)
    ensures SameFiles(State(db, s.pods[p := pod]), files)
  {
    hide PodOk, DbOk, MovesFor, OnTrack, Inv, Sorted, SqlFiles;
    assert db.rows <= Sorted(SqlFiles(files)) by {
      TrackIsPrefix(db.rows, files, pod);
    }
    var pods := s.pods[p := pod];
    forall q: nat | q < |pods|
      ensures OnTrack(db.rows, files, pods[q])
    {
      if q != p {
        Opened(s, q);
        OthersStayOnTrack(p, s.db, db, q, s.pods[q], files);
      }
    }
  }

  lemma TrackIsPrefix(rows: seq<string>, files: seq<string>, pod: Pod)
    requires OnTrack(rows, files, pod)
    ensures rows <= Sorted(SqlFiles(files))
  {
  }

  lemma EventStaysOnTrack(s: State, e: Event, files: seq<string>)
    requires Inv(s) && SameFiles(s, files) && IsEnabled(s, e) && Distinct(files)
    requires e.Start? ==> e.files == files
    ensures SameFiles(Apply(s, e), files)
  {
    hide Inv, PodOk, DbOk, MovesFor, StepPod, Sorted, SqlFiles, Distinct;
    match e
    case Start(_) =>
    case Step(p, reply) =>
      Opened(s, p);
      StepStaysOnTrack(s.db, p, s.pods[p], reply, files);
      StepMoves(s.db, p, s.pods[p], reply);
      var (db2, pod2) := StepPod(s.db, p, s.pods[p], reply);
      MoveStaysOnTrack(s, p, db2, pod2, files);
    case Crash(p) =>
      var pod := s.pods[p].(phase := Phase.Crashed, txn := EMPTY);
      CrashMoves(s.db, p);
      MoveStaysOnTrack(s, p, Unlocked(s.db, p), pod, files);
  }

  lemma CrashMoves(db: Db, p: nat)
    ensures MovesFor(p, db, Unlocked(db, p))
  {
  }

  lemma {:induction false} RunStaysOnTrack(s: State, es: seq<Event>, files: seq<string>)
    requires Inv(s) && SameFiles(s, files) && IsRun(s, es) && Distinct(files)
    requires forall e | e in es && e.Start? :: e.files == files
    ensures SameFiles(After(s, es), files)
    decreases |es|
  {
    hide Inv, SameFiles, Apply, Distinct;
    if es != [] {
      EventStaysOnTrack(s, es[0], files);
      RunKeeps(s, es[..1]) by {
        assert es[..1] == [es[0]] && [es[0]][1..] == [];
      }
      assert Inv(Apply(s, es[0])) by {
        StepInv(s, es[0]);
      }
      RunStaysOnTrack(Apply(s, es[0]), es[1..], files);
    }
  }

  lemma StepInv(s: State, e: Event)
    requires Inv(s) && IsEnabled(s, e)
    ensures Inv(Apply(s, e))
  {
    hide Inv, Apply;
    match e
    case Start(files) => StartKeeps(s, files);
    case Step(p, reply) => StepKeeps(s, p, reply);
    case Crash(p) => CrashKeeps(s, p);
  }

  /** When every pod has the same directory, what is applied is always a prefix of its sorted `.sql` files. */
  lemma AppliedIsAPrefix(es: seq<Event>, files: seq<string>)
    requires IsRun(Initial(), es) && Distinct(files) && forall e | e in es && e.Start? :: e.files == files
    ensures After(Initial(), es).db.effects <= Sorted(SqlFiles(files))
  {
    hide IsRun, After, Sorted, SqlFiles, Distinct, PodOk, OnTrack;
    InitialIsFine();
    RunKeeps(Initial(), es);
    RunStaysOnTrack(Initial(), es, files);
  }

  // ---- Progress ----

  predicate IsLive(pod: Pod) { !pod.phase.Over? && !pod.phase.Crashed? }

  ghost predicate SomebodyCanMove(s: State) {
    exists p :: 0 <= p < |s.pods| && IsEnabled(s, Step(p, Ok))
  }

  /**
   * While some pod is not through, some pod can take its next step, unless a pod that is through still
   * has the lock: that happens when its unlock failed, and then every other pod waits for it.
   */
  lemma StuckIff(es: seq<Event>)
    requires IsRun(Initial(), es)
    ensures var s := After(Initial(), es);
            (exists p :: 0 <= p < |s.pods| && IsLive(s.pods[p])) ==>
              (!SomebodyCanMove(s) <==>
                && s.db.lock.Some? && s.db.lock.value < |s.pods| && s.pods[s.db.lock.value].phase.Over?
                && forall p | 0 <= p < |s.pods| && IsLive(s.pods[p]) :: s.pods[p].phase.Locking?)
  {
    hide IsRun, After, TxnIs, WorkIs, Distinct, Ascending, Inv, DbOk;
    var s := After(Initial(), es);
    InitialIsFine();
    RunKeeps(Initial(), es);
    if l: nat :| s.db.lock == Some(l) {
      LockIsBelow(s);
      Opened(s, l);
      assert IsLive(s.pods[l]) && !s.pods[l].phase.Locking? ==> IsEnabled(s, Step(l, Ok));
    }
    assert forall p | 0 <= p < |s.pods| && IsLive(s.pods[p]) && !s.pods[p].phase.Locking? :: IsEnabled(s, Step(p, Ok));
    assert s.db.lock == None ==> forall p | 0 <= p < |s.pods| && IsLive(s.pods[p]) :: IsEnabled(s, Step(p, Ok));
  }

  lemma LockIsBelow(s: State)
    requires Inv(s)
    ensures s.db.lock.Some? ==> s.db.lock.value < |s.pods|
  {
  }

  // ---- A pod that keeps the lock ----

  lemma {:induction false} Extend(s: State, es: seq<Event>, e: Event)
    requires IsRun(s, es) && IsEnabled(After(s, es), e)
    ensures IsRun(s, es + [e]) && After(s, es + [e]) == Apply(After(s, es), e)
    decreases |es|
  {
    hide IsEnabled, Apply;
    if es == [] {
      assert [] + [e] == [e] && [e][1..] == [];
    } else {
      assert (es + [e])[1..] == es[1..] + [e];
      Extend(Apply(s, es[0]), es[1..], e);
    }
  }

  lemma Go(es: seq<Event>, e: Event) returns (fs: seq<Event>)
    requires IsRun(Initial(), es) && IsEnabled(After(Initial(), es), e)
    ensures fs == es + [e]
    ensures IsRun(Initial(), fs) && After(Initial(), fs) == Apply(After(Initial(), es), e)
  {
    Extend(Initial(), es, e);
    fs := es + [e];
  }

  lemma NoEvents()
    ensures IsRun(Initial(), []) && After(Initial(), []) == Initial()
  {
  }

  lemma NothingIsPending()
    ensures PendingMigrations([], []) == []
  {
  }

  /**
   * It can happen: the first pod finds nothing to do, its unlock fails and is ignored, and the second pod
   * waits for the lock with nobody to release it.
   */
  lemma FailedUnlockStopsTheOthers() returns (es: seq<Event>)
    ensures IsRun(Initial(), es)
    ensures var s := After(Initial(), es);
            && |s.pods| == 2 && s.pods[0].phase == Over(true, true) && s.pods[1].phase == Locking
            && s.db.lock == Some(0) && !SomebodyCanMove(s)
  {
    hide IsRun, After, PendingMigrations;
    NoEvents();
    es := Go([], Start([]));
    es := Go(es, Step(0, Ok));
    es := Go(es, Step(0, Ok));
    NothingIsPending();
    es := Go(es, Step(0, Ok));
    es := Go(es, Step(0, Fails));
    es := Go(es, Start([]));
  }
}
