/**
 * Migrations run by any number of pods at once. A step is one command a pod sends to the database; a
 * pod may crash, a command may fail, and the reply to a commit may be lost, at any point.
 */
module Migrations {
  import opened Decimal
  import opened Sorting
  import opened Text

  // ---- Which files are pending ----

  /** Lexical order on file names. */
  predicate Before(a: string, b: string) {
    b != "" && (a == "" || a[0] < b[0] || (a[0] == b[0] && Before(a[1..], b[1..])))
  }

  predicate IsSql(file: string) { |file| >= 4 && file[|file| - 4..] == ".sql" }

  function SqlFiles(files: seq<string>): seq<string> {
    if files == [] then [] else (if IsSql(files[0]) then [files[0]] else []) + SqlFiles(files[1..])
  }

  predicate NotAfter(a: string, b: string) { !Before(b, a) }

  function Sorted(fs: seq<string>): seq<string> { Sort(NotAfter, fs) }

  function NotIn(fs: seq<string>, applied: seq<string>): seq<string> {
    if fs == [] then [] else (if fs[0] in applied then [] else [fs[0]]) + NotIn(fs[1..], applied)
  }

  function PendingMigrations(files: seq<string>, applied: seq<string>): seq<string> {
    NotIn(Sorted(SqlFiles(files)), applied)
  }

  /** Strictly ascending, so without repetition. */
  predicate Ascending(fs: seq<string>) {
    forall i, j | 0 <= i < j < |fs| :: Before(fs[i], fs[j])
  }

  // ---- Pods and the database ----

  datatype Stage = Beginning | Running | Recording | Committing | RollingBack

  datatype Phase =
    | Locking | Creating | Reading
    | Applying(pending: seq<string>, stage: Stage)
    | Unlocking(ok: bool)
    | Over(ok: bool, keepsLock: bool)
    | Crashed

  /** What a session's open transaction would make permanent. */
  datatype Txn = Txn(effects: seq<string>, rows: seq<string>)

  /** A pod started with the files its image holds. `done` are the files it committed, oldest first. */
  datatype Pod = Pod(files: seq<string>, phase: Phase, txn: Txn, done: seq<string>)

  /** `rows` is `schema_migrations`; `effects` the files whose SQL took effect, oldest first. */
  datatype Db = Db(rows: seq<string>, effects: seq<string>, lock: Option<nat>)

  datatype State = State(db: Db, pods: seq<Pod>)

  datatype Reply = Ok | Fails | Lost

  datatype Event = Start(files: seq<string>) | Step(p: nat, reply: Reply) | Crash(p: nat)

  const EMPTY := Txn([], [])

  function Initial(): State { State(Db([], [], None), []) }

  predicate IsEnabled(s: State, e: Event) {
    match e
    case Start(files) => Distinct(files)
    case Step(p, reply) =>
      && p < |s.pods| && !s.pods[p].phase.Over? && !s.pods[p].phase.Crashed?
      && (s.pods[p].phase.Locking? && reply.Ok? ==> s.db.lock == None)
      && (reply.Lost? ==> s.pods[p].phase.Applying? && s.pods[p].phase.stage.Committing?)
    case Crash(p) => p < |s.pods| && !s.pods[p].phase.Crashed?
  }

  function Unlocked(db: Db, p: nat): Db { if db.lock == Some(p) then db.(lock := None) else db }

  /** What a commit makes permanent. */
  function Commit(db: Db, txn: Txn): Db { db.(rows := db.rows + txn.rows, effects := db.effects + txn.effects) }

  function Next(pending: seq<string>): Phase {
    if pending == [] then Unlocking(true) else Applying(pending, Beginning)
  }

  /** The first pending file, on its way through its transaction. */
  function StepFile(db: Db, pod: Pod, reply: Reply): (Db, Pod)
    requires pod.phase.Applying? && pod.phase.pending != []
  {
    var file, rest := pod.phase.pending[0], pod.phase.pending[1..];
    var undo := pod.(phase := pod.phase.(stage := RollingBack));
    match pod.phase.stage
    case Beginning =>
      if reply.Ok? then (db, pod.(phase := pod.phase.(stage := Running))) else (db, pod.(phase := Unlocking(false)))
    case Running =>
      if reply.Ok?
      then (db, pod.(phase := pod.phase.(stage := Recording), txn := pod.txn.(effects := pod.txn.effects + [file])))
      else (db, undo)
    case Recording =>
      // The version is the table's primary key.
      if reply.Ok? && file !in db.rows
      then (db, pod.(phase := pod.phase.(stage := Committing), txn := pod.txn.(rows := pod.txn.rows + [file])))
      else (db, undo)
    case Committing =>
      if reply.Ok? then (Commit(db, pod.txn), Pod(pod.files, Next(rest), EMPTY, pod.done + [file]))
      else if reply.Lost? then (Commit(db, pod.txn), Pod(pod.files, undo.phase, EMPTY, pod.done + [file]))
      else (db, undo)
    case RollingBack =>
      // A rollback that fails leaves the transaction open in its session, where nothing commits it.
      (db, Pod(pod.files, Unlocking(false), if reply.Ok? then EMPTY else pod.txn, pod.done))
  }

  function StepPod(db: Db, p: nat, pod: Pod, reply: Reply): (Db, Pod) {
    match pod.phase
    case Locking =>
      if reply.Ok? then (db.(lock := Some(p)), pod.(phase := Creating)) else (db, pod.(phase := Unlocking(false)))
    case Creating => (db, pod.(phase := if reply.Ok? then Reading else Unlocking(false)))
    case Reading =>
      (db, pod.(phase := if reply.Ok? then Next(PendingMigrations(pod.files, db.rows)) else Unlocking(false)))
    case Applying(pending, stage) => if pending == [] then (db, pod) else StepFile(db, pod, reply)
    case Unlocking(ok) =>
      // An unlock that fails is ignored, and the session goes back to its pool with the lock it holds.
      if reply.Ok? then (Unlocked(db, p), pod.(phase := Over(ok, false)))
      else (db, pod.(phase := Over(ok, db.lock == Some(p))))
    case Over(_, _) => (db, pod)
    case Crashed => (db, pod)
  }

  function Apply(s: State, e: Event): State
    requires IsEnabled(s, e)
  {
    match e
    case Start(files) => s.(pods := s.pods + [Pod(files, Locking, EMPTY, [])])
    case Step(p, reply) =>
      var (db, pod) := StepPod(s.db, p, s.pods[p], reply);
      State(db, s.pods[p := pod])
    case Crash(p) =>
      // The session ends: its transaction is undone and its lock released.
      State(Unlocked(s.db, p), s.pods[p := s.pods[p].(phase := Crashed, txn := EMPTY)])
  }

  predicate IsRun(s: State, es: seq<Event>)
    decreases |es|
  {
    es != [] ==> IsEnabled(s, es[0]) && IsRun(Apply(s, es[0]), es[1..])
  }

  function After(s: State, es: seq<Event>): State
    requires IsRun(s, es)
    decreases |es|
  {
    if es == [] then s else After(Apply(s, es[0]), es[1..])
  }

  // ---- Order ----

  lemma {:induction false} BeforeIsTransitive(a: string, b: string, c: string)
    requires Before(a, b) && Before(b, c)
    ensures Before(a, c)
  {
    if a != "" && a[0] == b[0] && b[0] == c[0] {
      BeforeIsTransitive(a[1..], b[1..], c[1..]);
    }
  }

  lemma {:induction false} BeforeIsTotal(a: string, b: string)
    ensures Before(a, b) || a == b || Before(b, a)
    ensures !(Before(a, b) && Before(b, a)) && !Before(a, a)
  {
    if a != "" && b != "" {
      BeforeIsTotal(a[1..], b[1..]);
      assert a == [a[0]] + a[1..] && b == [b[0]] + b[1..];
      NotBeforeItself(a);
    } else {
      NotBeforeItself(a);
    }
  }

  lemma {:induction false} NotBeforeItself(a: string)
    ensures !Before(a, a)
  {
    if a != "" {
      NotBeforeItself(a[1..]);
    }
  }

  lemma ConsAscends(f: string, fs: seq<string>)
    requires Ascending(fs) && forall g | g in fs :: Before(f, g)
    ensures Ascending([f] + fs)
  {
    hide Before;
    var r := [f] + fs;
    forall i, j | 0 <= i < j < |r|
      ensures Before(r[i], r[j])
    {
      assert r[j] == fs[j - 1] && fs[j - 1] in fs;
      assert i > 0 ==> r[i] == fs[i - 1];
    }
  }

  lemma HeadIsFirst(fs: seq<string>)
    requires Ascending(fs) && fs != []
    ensures Ascending(fs[1..]) && forall g | g in fs[1..] :: Before(fs[0], g)
  {
    hide Before;
    forall g | g in fs[1..]
      ensures Before(fs[0], g)
    {
      var i :| 0 <= i < |fs| - 1 && fs[1..][i] == g;
      assert fs[i + 1] == g;
    }
  }

  lemma AscendingIsDistinct(fs: seq<string>)
    requires Ascending(fs)
    ensures Distinct(fs)
  {
    hide Before;
    forall i, j | 0 <= i < j < |fs|
      ensures fs[i] != fs[j]
    {
      NotBeforeItself(fs[i]);
    }
  }

  lemma EmptyAscends()
    ensures Ascending([])
  {
  }

  lemma NotAfterIsOrder()
    ensures IsOrder(NotAfter)
  {
    forall a, b
      ensures NotAfter(a, b) || NotAfter(b, a)
    {
      BeforeIsTotal(a, b);
    }
    forall a, b, c | NotAfter(a, b) && NotAfter(b, c)
      ensures NotAfter(a, c)
    {
      BeforeIsTotal(a, b);
      if Before(c, a) {
        if a == b {
          assert false;
        } else {
          BeforeIsTransitive(c, a, b);
          assert false;
        }
      }
    }
  }

  lemma SortAscends(fs: seq<string>)
    requires Distinct(fs)
    ensures Ascending(Sorted(fs)) && forall g :: g in Sorted(fs) <==> g in fs
  {
    hide Before, Sort;
    NotAfterIsOrder();
    SortKeeps(NotAfter, fs);
    var sorted := Sorted(fs);
    forall i, j | 0 <= i < j < |sorted|
      ensures Before(sorted[i], sorted[j])
    {
      assert NotAfter(sorted[i], sorted[j]);
      BeforeIsTotal(sorted[i], sorted[j]);
    }
  }

  lemma {:induction false} SqlAreDistinct(fs: seq<string>)
    requires Distinct(fs)
    ensures Distinct(SqlFiles(fs)) && forall g :: g in SqlFiles(fs) <==> g in fs && IsSql(g)
  {
    hide IsSql;
    if fs != [] {
      SqlAreDistinct(fs[1..]);
      assert fs == [fs[0]] + fs[1..];
      assert fs[0] !in fs[1..];
    }
  }

  lemma {:induction false} NotInAscends(fs: seq<string>, applied: seq<string>)
    requires Ascending(fs)
    ensures Ascending(NotIn(fs, applied)) && forall g :: g in NotIn(fs, applied) <==> g in fs && g !in applied
  {
    hide Before, Ascending;
    if fs == [] {
      EmptyAscends();
    } else {
      HeadIsFirst(fs);
      NotInAscends(fs[1..], applied);
      assert fs == [fs[0]] + fs[1..];
      ConsAscends(fs[0], NotIn(fs[1..], applied));
      assert NotIn(fs, applied) ==
          if fs[0] in applied then NotIn(fs[1..], applied) else [fs[0]] + NotIn(fs[1..], applied);
    }
  }

  /** `a` is the start of `b`, or has the smaller character where they first differ. */
  ghost predicate ComesFirst(a: string, b: string) {
    || (|a| < |b| && b[..|a|] == a)
    || exists k :: 0 <= k < |a| && k < |b| && a[..k] == b[..k] && a[k] < b[k]
  }

  lemma {:induction false} BeforeIff(a: string, b: string)
    ensures Before(a, b) <==> ComesFirst(a, b)
  {
    if a != "" && b != "" {
      if a[0] == b[0] {
        BeforeIff(a[1..], b[1..]);
        SameHead(a, b);
      } else {
        assert a[..0] == b[..0];
        if k :| 0 <= k < |a| && k < |b| && a[..k] == b[..k] && a[k] < b[k] {
          assert k > 0 ==> a[..k][0] == b[..k][0];
        }
      }
    }
  }

  lemma SameHead(a: string, b: string)
    requires a != "" && b != "" && a[0] == b[0]
    ensures ComesFirst(a, b) <==> ComesFirst(a[1..], b[1..])
  {
    var s, t := a[1..], b[1..];
    assert a == [a[0]] + s && b == [b[0]] + t;
    if |b| >= |a| {
      assert b[..|a|] == [b[0]] + t[..|s|] && b[..|a|][1..] == t[..|s|];
    }
    if k :| 0 <= k < |a| && k < |b| && a[..k] == b[..k] && a[k] < b[k] {
      assert a[..k][1..] == s[..k - 1] && b[..k][1..] == t[..k - 1] && s[k - 1] < t[k - 1];
    }
    if k :| 0 <= k < |s| && k < |t| && s[..k] == t[..k] && s[k] < t[k] {
      assert a[..k + 1] == [a[0]] + s[..k] && b[..k + 1] == [b[0]] + t[..k] && a[k + 1] < b[k + 1];
    }
  }

  /** Files are numbered with as many digits: the one with the smaller number comes first. */
  lemma SmallerNumberComesFirst(a: string, b: string, digits: nat)
    requires digits <= |a| && digits <= |b| && AreDigits(a[..digits]) && AreDigits(b[..digits])
    requires Number(a[..digits]) < Number(b[..digits])
    ensures Before(a, b)
  {
    var k := FirstDifference(a[..digits], b[..digits]);
    assert a[..digits][..k] == a[..k] && b[..digits][..k] == b[..k];
    assert ComesFirst(a, b);
    BeforeIff(a, b);
  }

  /** Pending are the `.sql` files that have not been applied, each once, in lexical order. */
  lemma PendingIsWhatIsMissing(files: seq<string>, applied: seq<string>)
    requires Distinct(files)
    ensures var pending := PendingMigrations(files, applied);
            && (forall i, j | 0 <= i < j < |pending| :: ComesFirst(pending[i], pending[j]))
            && Ascending(pending)
            && forall f :: f in pending <==> f in files && IsSql(f) && f !in applied
  {
    hide Ascending, Distinct, IsSql, Sorted, SqlFiles, NotIn;
    SqlAreDistinct(files);
    SortAscends(SqlFiles(files));
    NotInAscends(Sorted(SqlFiles(files)), applied);
    AscendingComesFirst(PendingMigrations(files, applied));
  }

  lemma AscendingComesFirst(fs: seq<string>)
    requires Ascending(fs)
    ensures forall i, j | 0 <= i < j < |fs| :: ComesFirst(fs[i], fs[j])
  {
    hide Before, ComesFirst;
    forall i, j | 0 <= i < j < |fs|
      ensures ComesFirst(fs[i], fs[j])
    {
      BeforeIff(fs[i], fs[j]);
    }
  }
}
