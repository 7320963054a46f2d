// The route index cache as a concurrent protocol: saves publish a config and bump a revision under
// the config write lock; request threads refresh the index with unlocked revision loads.
// Atomic loads and stores are sequentially consistent here.
module RouteProtocol {
  import opened Text
  import opened RouteIndex

  type Tid = nat

  /** Where a thread is. `built` is the revision whose config an index was built from: it is kept
      only to state the invariant, no step reads it. */
  datatype Pc =
    | Idle
    | Published                                          // save: config written, revision not bumped
    | Bumped                                             // save: revision bumped, lock still held
    | Observed(observed: nat)                            // refresh: config revision loaded
    | Stale(observed: nat)                               // refresh: revisions differ
    | Built(observed: nat, next: Index, built: nat)      // refresh: next index built
    | Locked(observed: nat, next: Index, built: nat)     // refresh: index lock taken
    | Written(observed: nat, built: nat)                 // refresh: index replaced
    | Stored                                             // refresh: cached revision stored
    | Checked                                            // refresh done

  /** `history[r]` is the config published as revision `r`; `indexRevision` is the revision the
      installed index was built from. Both are auxiliary. */
  datatype State = State(
    config: Config, revision: nat, saver: Option<Tid>,
    index: Index, cached: nat, refresher: Option<Tid>,
    pcs: map<Tid, Pc>, history: seq<Config>, indexRevision: nat)
  {
    function At(t: Tid): Pc { if t in pcs then pcs[t] else Idle }
    function Go(t: Tid, pc: Pc): State { this.(pcs := pcs[t := pc]) }
  }

  datatype Action =
    | BeginSave(t: Tid, config: Config)
    | BumpRevision(t: Tid)
    | EndSave(t: Tid)
    | LoadRevision(t: Tid)
    | LoadCached(t: Tid)
    | ReadConfig(t: Tid)
    | LockIndex(t: Tid)
    | WriteIndex(t: Tid)
    | StoreRevision(t: Tid)
    | UnlockIndex(t: Tid)
    | Finish(t: Tid)

  predicate Enabled(s: State, a: Action) {
    var pc := s.At(a.t);
    match a
    case BeginSave(_, _) => pc.Idle? && s.saver.None?
    case BumpRevision(_) => pc.Published?
    case EndSave(_) => pc.Bumped?
    case LoadRevision(_) => pc.Idle?
    case LoadCached(_) => pc.Observed?
    case ReadConfig(_) => pc.Stale? && s.saver.None?
    case LockIndex(_) => pc.Built? && s.refresher.None?
    case WriteIndex(_) => pc.Locked?
    case StoreRevision(_) => pc.Written?
    case UnlockIndex(_) => pc.Stored?
    case Finish(_) => pc.Checked?
  }

  function Step(s: State, a: Action): State
    requires Enabled(s, a)
  {
    var t, pc := a.t, s.At(a.t);
    match a
    case BeginSave(_, c) => s.Go(t, Published).(config := c, saver := Some(t))
    case BumpRevision(_) => s.Go(t, Bumped).(revision := s.revision + 1, history := s.history + [s.config])
    case EndSave(_) => s.Go(t, Idle).(saver := None)
    case LoadRevision(_) => s.Go(t, Observed(s.revision))
    case LoadCached(_) => s.Go(t, if pc.observed == s.cached then Checked else Stale(pc.observed))
    case ReadConfig(_) => s.Go(t, Built(pc.observed, BuildIndex(s.config.groups), s.revision))
    case LockIndex(_) => s.Go(t, Locked(pc.observed, pc.next, pc.built)).(refresher := Some(t))
    case WriteIndex(_) => s.Go(t, Written(pc.observed, pc.built)).(index := pc.next, indexRevision := pc.built)
    case StoreRevision(_) => s.Go(t, Stored).(cached := pc.observed)
    case UnlockIndex(_) => s.Go(t, Checked).(refresher := None)
    case Finish(_) => s.Go(t, Idle)
  }

  /** The state a schedule leads to, if every action of it is enabled in turn. */
  function Run(s: State, schedule: seq<Action>): Option<State>
    decreases |schedule|
  {
    if schedule == [] then Some(s)
    else if Enabled(s, schedule[0]) then Run(Step(s, schedule[0]), schedule[1..])
    else None
  }

  /** After construction, with no save in between: the index and the cached revision fit the config. */
  function Init(history: seq<Config>): State
    requires history != []
  {
    var r := |history| - 1;
    State(history[r], r, None, BuildIndex(history[r].groups), r, None, map[], history, r)
  }

  // ----- the invariant -----

  ghost predicate IndexOf(s: State, index: Index, r: nat) {
    r < |s.history| && index == BuildIndex(s.history[r].groups)
  }

  ghost predicate ThreadInv(s: State, t: Tid) {
    var pc := s.At(t);
    (pc.Published? || pc.Bumped? <==> s.saver == Some(t)) &&
    (pc.Locked? || pc.Written? || pc.Stored? <==> s.refresher == Some(t)) &&
    match pc
    case Observed(o) => o <= s.revision
    case Stale(o) => o <= s.revision
    case Built(o, next, b) => o <= b <= s.revision && IndexOf(s, next, b)
    case Locked(o, next, b) => o <= b <= s.revision && IndexOf(s, next, b)
    case Written(o, b) => o <= b && b == s.indexRevision
    case _ => true
  }

  ghost predicate MidWrite(s: State) { s.refresher.Some? && s.At(s.refresher.value).Written? }
  ghost predicate MidSave(s: State) { s.saver.Some? && s.At(s.saver.value).Published? }

  /** A refresh is due: the revisions differ, or will once the save under way bumps. */
  ghost predicate Due(s: State) { s.cached < s.revision || MidSave(s) }

  /** What every step keeps, even when construction was overtaken by a save. */
  ghost predicate WeakInv(s: State) {
    |s.history| == s.revision + 1 && s.cached <= s.revision &&
    (!MidSave(s) ==> s.config == s.history[s.revision]) &&
    IndexOf(s, s.index, s.indexRevision) &&
    (!MidWrite(s) ==> s.cached <= s.indexRevision || Due(s)) &&
    forall t: Tid :: ThreadInv(s, t)
  }

  /** Moreover the index is never older than the cached revision. */
  ghost predicate Inv(s: State) { WeakInv(s) && (!MidWrite(s) ==> s.cached <= s.indexRevision) }

  lemma StepKeepsThreads(s: State, a: Action, t: Tid)
    requires WeakInv(s) && Enabled(s, a)
    ensures ThreadInv(Step(s, a), t)
  {
    hide BuildIndex;
    assert ThreadInv(s, t) && ThreadInv(s, a.t);
  }

  lemma StepKeepsInv(s: State, a: Action)
    requires WeakInv(s) && Enabled(s, a)
    ensures WeakInv(Step(s, a))
    ensures Inv(s) ==> Inv(Step(s, a))
  {
    hide BuildIndex;
    forall t: Tid ensures ThreadInv(Step(s, a), t) { StepKeepsThreads(s, a, t); }
    assert ThreadInv(s, a.t);
    if s.saver.Some? { assert ThreadInv(s, s.saver.value); }
    if s.refresher.Some? { assert ThreadInv(s, s.refresher.value); }
  }

  lemma {:induction false} RunKeepsInv(s: State, schedule: seq<Action>)
    requires WeakInv(s) && Run(s, schedule).Some?
    ensures WeakInv(Run(s, schedule).value)
    ensures Inv(s) ==> Inv(Run(s, schedule).value)
    decreases |schedule|
  {
    hide WeakInv;
    if schedule != [] {
      StepKeepsInv(s, schedule[0]);
      RunKeepsInv(Step(s, schedule[0]), schedule[1..]);
    }
  }

  /** A thread can always go on, except that a refresh waits for a save to give back the config and for another
      refresh to give back the index. */
  lemma OnlyLocksBlock(s: State, t: Tid)
    ensures (exists a: Action :: a.t == t && Enabled(s, a)) <==>
              !(s.At(t).Stale? && s.saver != None) && !(s.At(t).Built? && s.refresher != None)
  {
    var a := match s.At(t)
      case Idle => LoadRevision(t)
      case Published => BumpRevision(t)
      case Bumped => EndSave(t)
      case Observed(_) => LoadCached(t)
      case Stale(_) => ReadConfig(t)
      case Built(_, _, _) => LockIndex(t)
      case Locked(_, _, _) => WriteIndex(t)
      case Written(_, _) => StoreRevision(t)
      case Stored => UnlockIndex(t)
      case Checked => Finish(t);
    if !(s.At(t).Stale? && s.saver != None) && !(s.At(t).Built? && s.refresher != None) {
      assert a.t == t && Enabled(s, a);
    }
  }

  // ----- main results -----

  /** In every interleaving of saves and refreshes, while no refresher holds the index lock: the index
      was built from some published revision between the cached and the current one. */
  lemma IndexIsFromPublishedRevision(history: seq<Config>, schedule: seq<Action>) returns (k: nat)
    requires history != [] && Run(Init(history), schedule).Some?
    ensures var s := Run(Init(history), schedule).value;
            s.refresher.None? ==>
              s.cached <= k <= s.revision < |s.history| && s.index == BuildIndex(s.history[k].groups)
  {
    assert Inv(Init(history));
    RunKeepsInv(Init(history), schedule);
    k := Run(Init(history), schedule).value.indexRevision;
  }

  /** Equal revisions, with no save or refresh under way, mean that the index is that of the live config. */
  ghost predicate EqualMeansCurrent(s: State) {
    s.refresher.None? && s.saver.None? && s.cached == s.revision ==> s.index == BuildIndex(s.config.groups)
  }

  lemma EqualRevisionsMeanCurrentIndex(history: seq<Config>, schedule: seq<Action>)
    requires history != [] && Run(Init(history), schedule).Some?
    ensures EqualMeansCurrent(Run(Init(history), schedule).value)
  {
    RunKeepsInv(Init(history), schedule);
  }

  /** A request that skips the refresh because the revisions it loaded are equal does so while the
      index is at least as new as the config revision it observed, unless a refresher has replaced the
      index and not yet stored its revision. */
  lemma SkippedRefreshIsFreshEnough(history: seq<Config>, schedule: seq<Action>, t: Tid) returns (k: nat)
    requires history != [] && Run(Init(history), schedule).Some?
    requires var s := Run(Init(history), schedule).value;
             s.At(t).Observed? && !MidWrite(s) && Step(s, LoadCached(t)).At(t).Checked?
    ensures var s := Run(Init(history), schedule).value;
            s.At(t).observed <= k < |s.history| && s.index == BuildIndex(s.history[k].groups)
  {
    RunKeepsInv(Init(history), schedule);
    k := Run(Init(history), schedule).value.indexRevision;
  }

  // ----- catching up -----

  /** The two loads; when the revisions agree the thread is done. */
  function Check(t: Tid): seq<Action> { [LoadRevision(t), LoadCached(t)] }

  /** The rest of a refresh. */
  function Install(t: Tid): seq<Action> {
    [ReadConfig(t), LockIndex(t), WriteIndex(t), StoreRevision(t), UnlockIndex(t)]
  }

  lemma {:induction false} RunAppend(s: State, a: seq<Action>, b: seq<Action>)
    requires Run(s, a).Some?
    ensures Run(s, a + b) == Run(Run(s, a).value, b)
    decreases |a|
  {
    if a == [] {
      assert a + b == b;
    } else {
      assert (a + b)[1..] == a[1..] + b;
      RunAppend(Step(s, a[0]), a[1..], b);
    }
  }

  lemma RunOne(s: State, a: Action)
    requires Enabled(s, a)
    ensures Run(s, [a]) == Some(Step(s, a))
  {
    assert Run(Step(s, a), []) == Some(Step(s, a));
  }

  lemma RunCons(s: State, a: Action, rest: seq<Action>)
    requires Enabled(s, a)
    ensures Run(s, [a] + rest) == Run(Step(s, a), rest)
  {
    RunOne(s, a);
    RunAppend(s, [a], rest);
  }

  lemma CheckRuns(s: State, t: Tid)
    requires s.At(t).Idle?
    ensures Run(s, Check(t)) ==
            Some(s.Go(t, if s.revision == s.cached then Checked else Stale(s.revision)))
  {
    var s1 := Step(s, LoadRevision(t));
    RunCons(s, LoadRevision(t), [LoadCached(t)]);
    RunOne(s1, LoadCached(t));
    assert s.pcs[t := Observed(s.revision)][t := Checked] == s.pcs[t := Checked];
    assert s.pcs[t := Observed(s.revision)][t := Stale(s.revision)] == s.pcs[t := Stale(s.revision)];
  }

  lemma InstallRuns(s: State, t: Tid)
    requires s.At(t).Stale? && s.saver.None? && s.refresher.None?
    ensures Run(s, Install(t)).Some? &&
            var u := Run(s, Install(t)).value;
            u.index == BuildIndex(s.config.groups) && u.cached == s.At(t).observed && u.At(t).Checked? &&
            u.config == s.config && u.revision == s.revision && u.refresher.None? && u.saver.None?
  {
    var s1 := Step(s, ReadConfig(t));
    var s2 := Step(s1, LockIndex(t));
    var s3 := Step(s2, WriteIndex(t));
    var s4 := Step(s3, StoreRevision(t));
    RunCons(s, ReadConfig(t), [LockIndex(t), WriteIndex(t), StoreRevision(t), UnlockIndex(t)]);
    RunCons(s1, LockIndex(t), [WriteIndex(t), StoreRevision(t), UnlockIndex(t)]);
    RunCons(s2, WriteIndex(t), [StoreRevision(t), UnlockIndex(t)]);
    RunCons(s3, StoreRevision(t), [UnlockIndex(t)]);
    RunOne(s4, UnlockIndex(t));
  }

  function Refresh(s: State, t: Tid): seq<Action> {
    if s.revision == s.cached then Check(t) else Check(t) + Install(t)
  }

  /** Whatever stale refreshers left behind, a refresh that nobody disturbs leaves the index of the live
      config under the current revision. Other threads may be anywhere outside the two locks. */
  lemma QuietRefreshCatchesUp(history: seq<Config>, schedule: seq<Action>, t: Tid)
    requires history != [] && Run(Init(history), schedule).Some?
    requires var s := Run(Init(history), schedule).value; s.saver.None? && s.refresher.None? && s.At(t).Idle?
    ensures var s := Run(Init(history), schedule).value;
            Run(s, Refresh(s, t)).Some? &&
            var u := Run(s, Refresh(s, t)).value;
            u.At(t).Checked? && u.cached == u.revision == s.revision && u.index == BuildIndex(s.config.groups)
  {
    var s := Run(Init(history), schedule).value;
    RefreshRuns(s, t);
    EqualRevisionsMeanCurrentIndex(history, schedule);
  }

  lemma RefreshRuns(s: State, t: Tid)
    requires s.saver.None? && s.refresher.None? && s.At(t).Idle?
    ensures Run(s, Refresh(s, t)).Some? &&
            var u := Run(s, Refresh(s, t)).value;
            u.At(t).Checked? && u.cached == u.revision == s.revision &&
            u.index == if s.revision == s.cached then s.index else BuildIndex(s.config.groups)
  {
    CheckRuns(s, t);
    if s.revision != s.cached {
      RunAppend(s, Check(t), Install(t));
      InstallRuns(Run(s, Check(t)).value, t);
    }
  }

  // ----- what the cache does not promise -----

  function Save(t: Tid, c: Config): seq<Action> { [BeginSave(t, c), BumpRevision(t), EndSave(t)] }

  lemma SaveRuns(s: State, t: Tid, c: Config)
    requires s.At(t).Idle? && s.saver.None?
    ensures Run(s, Save(t, c)).Some? &&
            var u := Run(s, Save(t, c)).value;
            u == s.(config := c, revision := s.revision + 1, history := s.history + [c], pcs := u.pcs) &&
            u.pcs == s.pcs[t := Idle]
  {
    var s1 := Step(s, BeginSave(t, c));
    var s2 := Step(s1, BumpRevision(t));
    RunCons(s, BeginSave(t, c), [BumpRevision(t), EndSave(t)]);
    RunCons(s1, BumpRevision(t), [EndSave(t)]);
    RunOne(s2, EndSave(t));
    assert s.pcs[t := Published][t := Bumped][t := Idle] == s.pcs[t := Idle];
  }

  function InstallBuilt(t: Tid): seq<Action> { [LockIndex(t), WriteIndex(t), StoreRevision(t), UnlockIndex(t)] }

  lemma InstallBuiltRuns(s: State, t: Tid)
    requires s.At(t).Built? && s.refresher.None?
    ensures Run(s, InstallBuilt(t)).Some? &&
            var u := Run(s, InstallBuilt(t)).value;
            u.index == s.At(t).next && u.cached == s.At(t).observed && u.refresher.None? && u.saver == s.saver &&
            u.config == s.config && u.revision == s.revision && u.pcs == s.pcs[t := Checked]
  {
    var s1 := Step(s, LockIndex(t));
    var s2 := Step(s1, WriteIndex(t));
    var s3 := Step(s2, StoreRevision(t));
    RunCons(s, LockIndex(t), [WriteIndex(t), StoreRevision(t), UnlockIndex(t)]);
    RunCons(s1, WriteIndex(t), [StoreRevision(t), UnlockIndex(t)]);
    RunCons(s2, StoreRevision(t), [UnlockIndex(t)]);
    RunOne(s3, UnlockIndex(t));
    assert s3.pcs[t := Checked] == s.pcs[t := Checked];
  }

  /** A save, after which thread `t` builds the new index. */
  function SaveAndBuild(t: Tid, c: Config): seq<Action> { Save(0, c) + Check(t) + [ReadConfig(t)] }

  lemma SaveAndBuildRuns(s: State, t: Tid, c: Config)
    requires s.saver.None? && s.At(0).Idle? && s.At(t).Idle? && t != 0 && s.cached <= s.revision
    ensures Run(s, SaveAndBuild(t, c)).Some? &&
            var u, r := Run(s, SaveAndBuild(t, c)).value, s.revision + 1;
            u.config == c && u.revision == r && u.cached == s.cached && u.index == s.index &&
            u.saver.None? && u.refresher == s.refresher && u.At(t) == Built(r, BuildIndex(c.groups), r) &&
            u.At(0).Idle? && forall x: Tid :: x != t && x != 0 ==> u.At(x) == s.At(x)
  {
    hide BuildIndex;
    SaveRuns(s, 0, c);
    var s1 := Run(s, Save(0, c)).value;
    CheckRuns(s1, t);
    var s2 := Run(s1, Check(t)).value;
    RunOne(s2, ReadConfig(t));
    hide Run;
    RunAppend(s, Save(0, c), Check(t));
    RunAppend(s, Save(0, c) + Check(t), [ReadConfig(t)]);
  }

  /** Thread 1 builds from the first save and is overtaken by a second save and a full refresh. */
  function Overtaking(c1: Config, c2: Config): seq<Action> {
    SaveAndBuild(1, c1) + SaveAndBuild(2, c2) + InstallBuilt(2)
  }

  lemma OvertakingRuns(history: seq<Config>, c1: Config, c2: Config)
    requires history != []
    ensures Run(Init(history), Overtaking(c1, c2)).Some? &&
            var u := Run(Init(history), Overtaking(c1, c2)).value;
            u.At(1).Built? && u.At(1).next == BuildIndex(c1.groups) && u.At(1).observed + 1 == u.revision &&
            u.At(2).Checked? && u.At(3).Idle? && u.config == c2 && u.refresher.None? && u.saver.None? &&
            u.cached == u.revision && u.index == BuildIndex(c2.groups)
  {
    hide BuildIndex, Run, SaveAndBuild, InstallBuilt;
    var s0 := Init(history);
    SaveAndBuildRuns(s0, 1, c1);
    var s1 := Run(s0, SaveAndBuild(1, c1)).value;
    SaveAndBuildRuns(s1, 2, c2);
    var s2 := Run(s1, SaveAndBuild(2, c2)).value;
    InstallBuiltRuns(s2, 2);
    assert s0.At(3).Idle? && s1.At(3).Idle? && s2.At(3).Idle?;
    RunAppend(s0, SaveAndBuild(1, c1), SaveAndBuild(2, c2));
    RunAppend(s0, SaveAndBuild(1, c1) + SaveAndBuild(2, c2), InstallBuilt(2));
  }

  /** The index and the cached revision can go back: a slow refresher installs what it built long ago
      over a newer index, after another request has already checked the newer one. */
  lemma SlowRefresherGoesBack(history: seq<Config>, c1: Config, c2: Config)
    requires history != []
    ensures Run(Init(history), Overtaking(c1, c2) + InstallBuilt(1)).Some? &&
            var u := Run(Init(history), Overtaking(c1, c2) + InstallBuilt(1)).value;
            u.At(2).Checked? && u.config == c2 && u.refresher.None? && u.saver.None? &&
            u.cached + 1 == u.revision && u.index == BuildIndex(c1.groups)
  {
    hide BuildIndex;
    OvertakingRuns(history, c1, c2);
    var s := Run(Init(history), Overtaking(c1, c2)).value;
    InstallBuiltRuns(s, 1);
    hide Run;
    RunAppend(Init(history), Overtaking(c1, c2), InstallBuilt(1));
  }

  /** While such a refresher is between its two writes, a request can find the revisions equal and skip
      the refresh over an index older than the revision it observed. */
  lemma SkipDuringWriteIsStale(history: seq<Config>, c1: Config, c2: Config)
    requires history != []
    ensures var schedule := Overtaking(c1, c2) + [LockIndex(1), WriteIndex(1)] + Check(3);
            Run(Init(history), schedule).Some? &&
            var u := Run(Init(history), schedule).value;
            MidWrite(u) && u.At(3).Checked? && u.config == c2 && u.cached == u.revision && u.index == BuildIndex(c1.groups)
  {
    hide BuildIndex;
    OvertakingRuns(history, c1, c2);
    var s0 := Init(history);
    var s := Run(s0, Overtaking(c1, c2)).value;
    var s1 := Step(s, LockIndex(1));
    var s2 := Step(s1, WriteIndex(1));
    RunOne(s1, WriteIndex(1));
    RunCons(s, LockIndex(1), [WriteIndex(1)]);
    CheckRuns(s2, 3);
    hide Run;
    assert [LockIndex(1)] + [WriteIndex(1)] == [LockIndex(1), WriteIndex(1)];
    RunAppend(s0, Overtaking(c1, c2), [LockIndex(1), WriteIndex(1)]);
    RunAppend(s0, Overtaking(c1, c2) + [LockIndex(1), WriteIndex(1)], Check(3));
  }

  // ----- when the index goes back -----

  /** The states a schedule passes through. */
  ghost predicate Passes(states: seq<State>, schedule: seq<Action>) {
    |states| == |schedule| + 1 &&
    forall n :: 0 <= n < |schedule| ==> Enabled(states[n], schedule[n]) && states[n + 1] == Step(states[n], schedule[n])
  }

  lemma {:induction false} RunPasses(s: State, schedule: seq<Action>) returns (states: seq<State>)
    requires Run(s, schedule).Some?
    ensures Passes(states, schedule) && states[0] == s && states[|schedule|] == Run(s, schedule).value
    decreases |schedule|
  {
    if schedule == [] {
      states := [s];
    } else {
      var rest := RunPasses(Step(s, schedule[0]), schedule[1..]);
      states := [s] + rest;
    }
  }

  /** The last position before `n` at which `a` is taken, or -1. */
  function Last(schedule: seq<Action>, a: Action, n: nat): (i: int)
    requires n <= |schedule|
    ensures -1 <= i < n && (i >= 0 ==> schedule[i] == a)
  {
    if n == 0 then -1 else if schedule[n - 1] == a then n - 1 else Last(schedule, a, n - 1)
  }

  function LastWrite(schedule: seq<Action>, n: nat): (i: int)
    requires n <= |schedule|
    ensures -1 <= i < n && (i >= 0 ==> schedule[i].WriteIndex?)
  {
    if n == 0 then -1 else if schedule[n - 1].WriteIndex? then n - 1 else LastWrite(schedule, n - 1)
  }

  function LastStore(schedule: seq<Action>, n: nat): (i: int)
    requires n <= |schedule|
    ensures -1 <= i < n && (i >= 0 ==> schedule[i].StoreRevision?)
  {
    if n == 0 then -1 else if schedule[n - 1].StoreRevision? then n - 1 else LastStore(schedule, n - 1)
  }

  /** A save is published between two positions. */
  ghost predicate SavedBetween(schedule: seq<Action>, i: int, j: int) {
    exists k :: 0 <= i <= k < j <= |schedule| && schedule[k].BumpRevision?
  }

  lemma {:induction false} RevisionGrows(states: seq<State>, schedule: seq<Action>, i: nat, j: nat)
    requires Passes(states, schedule) && i <= j <= |schedule|
    ensures states[i].revision <= states[j].revision
    ensures states[i].revision < states[j].revision <==> SavedBetween(schedule, i, j)
    decreases j
  {
    if i < j {
      RevisionGrows(states, schedule, i, j - 1);
      assert states[j] == Step(states[j - 1], schedule[j - 1]);
      if SavedBetween(schedule, i, j - 1) {
        var k :| 0 <= i <= k < j - 1 && schedule[k].BumpRevision?;
      }
    }
  }

  ghost predicate AllIdle(s: State) { forall t: Tid :: s.At(t).Idle? }

  predicate HoldsIndex(pc: Pc) { pc.Built? || pc.Locked? || pc.Written? }
  predicate HoldsRevision(pc: Pc) { HoldsIndex(pc) || pc.Observed? || pc.Stale? }

  /** What one step does to what a thread holds, to the index and to the cached revision. */
  lemma StepMoves(s: State, a: Action, t: Tid)
    requires Enabled(s, a)
    ensures var pc, pc' := s.At(t), Step(s, a).At(t);
            (HoldsIndex(pc') ==>
               if a == ReadConfig(t) then pc'.built == s.revision else HoldsIndex(pc) && pc'.built == pc.built) &&
            (HoldsRevision(pc') ==>
               if a == LoadRevision(t) then pc'.observed == s.revision else HoldsRevision(pc) && pc'.observed == pc.observed)
  {
    hide BuildIndex;
  }

  lemma StepReplaces(s: State, a: Action)
    requires Enabled(s, a)
    ensures var pc, u := s.At(a.t), Step(s, a);
            (if a.WriteIndex? then HoldsIndex(pc) && u.indexRevision == pc.built else u.indexRevision == s.indexRevision) &&
            (if a.StoreRevision? then HoldsRevision(pc) && u.cached == pc.observed else u.cached == s.cached)
  {
    hide BuildIndex;
  }

  /** What a refresher holds it read at its last read, and what it observed at its last load. */
  lemma {:induction false} HeldSince(states: seq<State>, schedule: seq<Action>, t: Tid, n: nat)
    requires Passes(states, schedule) && AllIdle(states[0]) && n <= |schedule|
    ensures var pc, read := states[n].At(t), Last(schedule, ReadConfig(t), n);
            HoldsIndex(pc) ==> read >= 0 && pc.built == states[read].revision
    ensures var pc, load := states[n].At(t), Last(schedule, LoadRevision(t), n);
            HoldsRevision(pc) ==> load >= 0 && pc.observed == states[load].revision
    decreases n
  {
    hide Step, Enabled;
    if n == 0 {
      assert states[0].At(t).Idle?;
    } else {
      HeldSince(states, schedule, t, n - 1);
      StepMoves(states[n - 1], schedule[n - 1], t);
      assert states[n] == Step(states[n - 1], schedule[n - 1]);
    }
  }

  /** The installed index was read at the last read of the thread that wrote it last. */
  lemma {:induction false} InstalledSince(states: seq<State>, schedule: seq<Action>, n: nat)
    requires Passes(states, schedule) && AllIdle(states[0]) && n <= |schedule|
    ensures var w := LastWrite(schedule, n);
            if w < 0 then states[n].indexRevision == states[0].indexRevision
            else var read := Last(schedule, ReadConfig(schedule[w].t), w);
              read >= 0 && states[n].indexRevision == states[read].revision
    decreases n
  {
    hide Step, Enabled, AllIdle, Last;
    if n > 0 {
      InstalledSince(states, schedule, n - 1);
      StepReplaces(states[n - 1], schedule[n - 1]);
      assert states[n] == Step(states[n - 1], schedule[n - 1]);
      HeldSince(states, schedule, schedule[n - 1].t, n - 1);
    }
  }

  /** The cached revision was loaded at the last load of the thread that stored it last. */
  lemma {:induction false} CachedSince(states: seq<State>, schedule: seq<Action>, n: nat)
    requires Passes(states, schedule) && AllIdle(states[0]) && n <= |schedule|
    ensures var w := LastStore(schedule, n);
            if w < 0 then states[n].cached == states[0].cached
            else var load := Last(schedule, LoadRevision(schedule[w].t), w);
              load >= 0 && states[n].cached == states[load].revision
    decreases n
  {
    hide Step, Enabled, AllIdle, Last;
    if n > 0 {
      CachedSince(states, schedule, n - 1);
      StepReplaces(states[n - 1], schedule[n - 1]);
      assert states[n] == Step(states[n - 1], schedule[n - 1]);
      HeldSince(states, schedule, schedule[n - 1].t, n - 1);
    }
  }

  /** The write at `n` is overtaken: the last write before it came from a read that a save separates from
      this writer's own, earlier read. */
  ghost predicate WriteOvertaken(schedule: seq<Action>, n: nat) {
    n < |schedule| && schedule[n].WriteIndex? &&
    var w := LastWrite(schedule, n);
    w >= 0 &&
    SavedBetween(schedule, Last(schedule, ReadConfig(schedule[n].t), n), Last(schedule, ReadConfig(schedule[w].t), w))
  }

  ghost predicate StoreOvertaken(schedule: seq<Action>, n: nat) {
    n < |schedule| && schedule[n].StoreRevision? &&
    var w := LastStore(schedule, n);
    w >= 0 &&
    SavedBetween(schedule, Last(schedule, LoadRevision(schedule[n].t), n), Last(schedule, LoadRevision(schedule[w].t), w))
  }

  ghost predicate IndexBack(states: seq<State>, n: nat) {
    n + 1 < |states| && states[n + 1].indexRevision < states[n].indexRevision
  }

  ghost predicate CachedBack(states: seq<State>, n: nat) {
    n + 1 < |states| && states[n + 1].cached < states[n].cached
  }

  /** The index goes back to an older revision exactly at overtaken writes. */
  lemma IndexGoesBackExactly(history: seq<Config>, states: seq<State>, schedule: seq<Action>, n: nat)
    requires history != [] && Passes(states, schedule) && states[0] == Init(history)
    ensures IndexBack(states, n) <==> WriteOvertaken(schedule, n)
  {
    hide Step, Enabled, BuildIndex, SavedBetween, Last, LastWrite;
    if n < |schedule| {
      var a := schedule[n];
      StepReplaces(states[n], a);
      if a.WriteIndex? {
        HeldSince(states, schedule, a.t, n);
        InstalledSince(states, schedule, n);
        var w, read := LastWrite(schedule, n), Last(schedule, ReadConfig(a.t), n);
        if w < 0 {
          RevisionGrows(states, schedule, 0, read);
        } else {
          BothOrders(states, schedule, read, Last(schedule, ReadConfig(schedule[w].t), w));
        }
      }
    }
  }

  /** And the cached revision exactly at overtaken stores. */
  lemma CachedGoesBackExactly(history: seq<Config>, states: seq<State>, schedule: seq<Action>, n: nat)
    requires history != [] && Passes(states, schedule) && states[0] == Init(history)
    ensures CachedBack(states, n) <==> StoreOvertaken(schedule, n)
  {
    hide Step, Enabled, BuildIndex, SavedBetween, Last, LastStore;
    if n < |schedule| {
      var a := schedule[n];
      StepReplaces(states[n], a);
      if a.StoreRevision? {
        HeldSince(states, schedule, a.t, n);
        CachedSince(states, schedule, n);
        var w, load := LastStore(schedule, n), Last(schedule, LoadRevision(a.t), n);
        if w < 0 {
          RevisionGrows(states, schedule, 0, load);
        } else {
          BothOrders(states, schedule, load, Last(schedule, LoadRevision(schedule[w].t), w));
        }
      }
    }
  }

  lemma BothOrders(states: seq<State>, schedule: seq<Action>, i: nat, j: nat)
    requires Passes(states, schedule) && i <= |schedule| && j <= |schedule|
    ensures states[i].revision < states[j].revision <==> SavedBetween(schedule, i, j)
  {
    if i <= j { RevisionGrows(states, schedule, i, j); } else { RevisionGrows(states, schedule, j, i); }
  }

  /** So a run never goes back exactly when nothing in it is overtaken. */
  lemma NeverBackExactly(history: seq<Config>, states: seq<State>, schedule: seq<Action>)
    requires history != [] && Passes(states, schedule) && states[0] == Init(history)
    ensures (forall n: nat :: !IndexBack(states, n)) <==> forall n: nat :: !WriteOvertaken(schedule, n)
    ensures (forall n: nat :: !CachedBack(states, n)) <==> forall n: nat :: !StoreOvertaken(schedule, n)
  {
    hide *;
    forall n: nat
      ensures IndexBack(states, n) <==> WriteOvertaken(schedule, n)
      ensures CachedBack(states, n) <==> StoreOvertaken(schedule, n)
    {
      IndexGoesBackExactly(history, states, schedule, n);
      CachedGoesBackExactly(history, states, schedule, n);
    }
  }

  // ----- when a skipped refresh is stale -----

  /** The last write installed what its thread had read before a save that thread `t` saw. */
  ghost predicate SkipOvertaken(schedule: seq<Action>, t: Tid) {
    var n := |schedule|;
    var w := LastWrite(schedule, n);
    w >= 0 && SavedBetween(schedule, Last(schedule, ReadConfig(schedule[w].t), w), Last(schedule, LoadRevision(t), n))
  }

  /** Without a write the cached revision stays where it was. */
  lemma {:induction false} NoWriteNoStore(states: seq<State>, schedule: seq<Action>, n: nat)
    requires Passes(states, schedule) && AllIdle(states[0]) && n <= |schedule| && LastWrite(schedule, n) < 0
    ensures states[n].cached == states[0].cached && forall t: Tid :: !states[n].At(t).Written?
    decreases n
  {
    hide BuildIndex;
    if n > 0 {
      NoWriteNoStore(states, schedule, n - 1);
      var s, a := states[n - 1], schedule[n - 1];
      assert Enabled(s, a) && states[n] == Step(s, a) && !s.At(a.t).Written?;
      forall t: Tid ensures !states[n].At(t).Written? { assert !s.At(t).Written?; }
    }
  }

  /** A request that skips the refresh does so over an index older than the revision it observed exactly
      when the last write was made with a config read before a save that the request saw. */
  lemma SkippedRefreshStaleExactly(history: seq<Config>, states: seq<State>, schedule: seq<Action>, t: Tid)
    requires history != [] && Passes(states, schedule) && states[0] == Init(history)
    requires var s := states[|schedule|]; s.At(t).Observed? && Step(s, LoadCached(t)).At(t).Checked?
    ensures var s := states[|schedule|]; s.indexRevision < s.At(t).observed <==> SkipOvertaken(schedule, t)
    ensures var s := states[|schedule|];
            s.indexRevision < |s.history| && s.index == BuildIndex(s.history[s.indexRevision].groups)
  {
    hide BuildIndex;
    PassesKeepInv(states, schedule, |schedule|);
    hide SavedBetween, Last, LastWrite, Inv, WeakInv;
    var n := |schedule|;
    HeldSince(states, schedule, t, n);
    InstalledSince(states, schedule, n);
    var w, load := LastWrite(schedule, n), Last(schedule, LoadRevision(t), n);
    if w < 0 {
      NoWriteNoStore(states, schedule, n);
    } else {
      BothOrders(states, schedule, Last(schedule, ReadConfig(schedule[w].t), w), load);
    }
  }

  lemma {:induction false} PassesKeepInv(states: seq<State>, schedule: seq<Action>, n: nat)
    requires Passes(states, schedule) && Inv(states[0]) && n <= |schedule|
    ensures Inv(states[n]) && IndexOf(states[n], states[n].index, states[n].indexRevision)
    decreases n
  {
    if n > 0 {
      PassesKeepInv(states, schedule, n - 1);
      StepKeepsInv(states[n - 1], schedule[n - 1]);
    }
  }

  // ----- construction -----

  predicate IsSave(a: Action) { a.BeginSave? || a.BumpRevision? || a.EndSave? }

  ghost predicate OnlySaves(schedule: seq<Action>) { forall i :: 0 <= i < |schedule| ==> IsSave(schedule[i]) }

  ghost predicate NoBump(schedule: seq<Action>) { forall i :: 0 <= i < |schedule| ==> !schedule[i].BumpRevision? }

  /** Construction in two steps: the index is built from the last config of `history`, then, after the
      saves in `between`, the revision is loaded. */
  function Constructed(history: seq<Config>, between: seq<Action>): Option<State>
    requires history != []
  {
    var s := Run(Init(history), between);
    if s.None? then None else Some(s.value.(cached := s.value.revision))
  }

  /** Without a save in between, construction ends in the initial state, and a first request finds nothing to do. */
  lemma ConstructedQuietly(history: seq<Config>, t: Tid)
    requires history != []
    ensures Constructed(history, []) == Some(Init(history))
    ensures var s := Init(history); Run(s, Check(t)).Some? && Run(s, Check(t)).value.At(t).Checked?
  {
    CheckRuns(Init(history), t);
  }

  predicate Refreshing(pc: Pc) { !pc.Idle? && !pc.Published? && !pc.Bumped? }

  ghost predicate NoRefresh(s: State) { forall t: Tid :: !Refreshing(s.At(t)) }

  lemma SaveKeepsIndex(s: State, a: Action)
    requires IsSave(a) && Enabled(s, a) && NoRefresh(s)
    ensures var u := Step(s, a);
            u.index == s.index && u.indexRevision == s.indexRevision && u.refresher == s.refresher && u.cached == s.cached &&
            NoRefresh(u) && (!a.BumpRevision? ==> u.revision == s.revision)
  {
    hide BuildIndex;
    forall t: Tid ensures !Refreshing(Step(s, a).At(t)) { assert !Refreshing(s.At(t)); }
  }

  /** Saves touch neither the index nor any refresh. */
  lemma {:induction false} SavesKeepIndex(s: State, between: seq<Action>)
    requires OnlySaves(between) && Run(s, between).Some? && NoRefresh(s)
    ensures var u := Run(s, between).value;
            u.index == s.index && u.indexRevision == s.indexRevision && u.refresher == s.refresher && u.cached == s.cached &&
            NoRefresh(u) && (NoBump(between) ==> u.revision == s.revision)
    decreases |between|
  {
    hide Step, Enabled, NoRefresh;
    if between != [] {
      var a := between[0];
      assert IsSave(a);
      SaveKeepsIndex(s, a);
      SavesKeepIndex(Step(s, a), between[1..]);
    }
  }

  /** The harm a save between the two steps can do: the revisions agree over an index that is not that of
      the published config. A save still under way does none, since its bump is yet to come. */
  ghost predicate Overlooked(s: State) { !MidSave(s) && s.index != BuildIndex(s.config.groups) }

  lemma ConstructedKeepsInv(history: seq<Config>, between: seq<Action>)
    requires history != [] && OnlySaves(between) && Constructed(history, between).Some?
    ensures var s := Constructed(history, between).value;
            s.index == BuildIndex(history[|history| - 1].groups) && s.cached == s.revision && s.refresher.None? &&
            NoRefresh(s) && |s.history| == s.revision + 1 &&
            (forall t: Tid :: ThreadInv(s, t)) && (NoBump(between) ==> Inv(s)) &&
            (!Overlooked(s) ==> exists k :: WeakInv(s.(indexRevision := k)))
  {
    var s0, u := Init(history), Run(Init(history), between).value;
    SavesKeepIndex(s0, between);
    RunKeepsInv(s0, between);
    hide BuildIndex;
    var s := u.(cached := u.revision);
    assert s.pcs == u.pcs;
    forall t: Tid ensures ThreadInv(s, t) && !Refreshing(s.At(t)) {
      assert s.At(t) == u.At(t) && ThreadInv(u, t) && !Refreshing(u.At(t));
    }
    var v := s.(indexRevision := if MidSave(s) then s.indexRevision else s.revision);
    if !Overlooked(s) {
      forall t: Tid ensures ThreadInv(v, t) { assert ThreadInv(s, t) && !Refreshing(s.At(t)); }
      assert WeakInv(v);
    }
  }

  /** The auxiliary revision of the index decides nothing. */
  lemma {:induction false} IndexRevisionIsAuxiliary(s: State, k: nat, schedule: seq<Action>) returns (k': nat)
    requires Run(s, schedule).Some?
    ensures Run(s.(indexRevision := k), schedule) == Some(Run(s, schedule).value.(indexRevision := k'))
    decreases |schedule|
  {
    hide BuildIndex;
    k' := k;
    if schedule != [] {
      var a := schedule[0];
      var s', u := s.(indexRevision := k), Step(s, a);
      assert s'.At(a.t) == s.At(a.t) && Enabled(s', a);
      var next := Step(s', a).indexRevision;
      assert Step(s', a) == u.(indexRevision := next);
      k' := IndexRevisionIsAuxiliary(u, next, schedule[1..]);
    }
  }

  /** After construction, equal revisions mean a current index in every run exactly when no save was
      overlooked. */
  lemma ConstructionSafeExactly(history: seq<Config>, between: seq<Action>)
    requires history != [] && OnlySaves(between) && Constructed(history, between).Some?
    ensures var s := Constructed(history, between).value;
            (forall schedule :: Run(s, schedule).Some? ==> EqualMeansCurrent(Run(s, schedule).value)) <==> !Overlooked(s)
    ensures NoBump(between) ==> !Overlooked(Constructed(history, between).value)
  {
    hide BuildIndex;
    ConstructedKeepsInv(history, between);
    var s := Constructed(history, between).value;
    hide Run;
    if !Overlooked(s) {
      var k :| WeakInv(s.(indexRevision := k));
      forall schedule | Run(s, schedule).Some? ensures EqualMeansCurrent(Run(s, schedule).value) {
        var k' := IndexRevisionIsAuxiliary(s, k, schedule);
        RunKeepsInv(s.(indexRevision := k), schedule);
        WeakMeansCurrent(Run(s, schedule).value.(indexRevision := k'));
      }
    } else {
      OverlookedShows(s);
    }
  }

  lemma WeakMeansCurrent(s: State)
    requires WeakInv(s)
    ensures EqualMeansCurrent(s)
  {
  }

  lemma OverlookedShows(s: State)
    requires Overlooked(s) && s.refresher.None? && s.cached == s.revision
    requires forall t: Tid :: ThreadInv(s, t)
    ensures exists schedule :: Run(s, schedule).Some? && !EqualMeansCurrent(Run(s, schedule).value)
  {
    hide BuildIndex;
    if s.saver.None? {
      assert Run(s, []) == Some(s) && !EqualMeansCurrent(s);
    } else {
      var t := s.saver.value;
      assert ThreadInv(s, t);
      RunOne(s, EndSave(t));
      assert !EqualMeansCurrent(Step(s, EndSave(t)));
    }
  }

  /** A save between the two steps is overlooked whenever it changes the index. */
  lemma SaveDuringConstruction(history: seq<Config>, t: Tid, c: Config)
    requires history != [] && BuildIndex(c.groups) != BuildIndex(history[|history| - 1].groups)
    ensures OnlySaves(Save(t, c)) && Constructed(history, Save(t, c)).Some?
    ensures Overlooked(Constructed(history, Save(t, c)).value)
  {
    SaveRuns(Init(history), t, c);
  }

  /** Every thread is outside a refresh, or about to find the revisions equal. */
  ghost predicate Skipping(s: State) {
    s.refresher.None? && s.cached == s.revision &&
    forall t: Tid :: var pc := s.At(t); !Refreshing(pc) || pc == Observed(s.revision) || pc.Checked?
  }

  lemma StepKeepsSkipping(s: State, a: Action)
    requires Skipping(s) && Enabled(s, a) && !a.BumpRevision?
    ensures Skipping(Step(s, a)) && Step(s, a).index == s.index
    ensures !IsSave(a) ==> Step(s, a).config == s.config && Step(s, a).saver == s.saver
  {
    hide BuildIndex;
    var u, pc := Step(s, a), s.At(a.t);
    assert !Refreshing(pc) || pc == Observed(s.revision) || pc.Checked?;
    forall t: Tid ensures var pc := u.At(t); !Refreshing(pc) || pc == Observed(u.revision) || pc.Checked? {
      assert var pc := s.At(t); !Refreshing(pc) || pc == Observed(s.revision) || pc.Checked?;
    }
  }

  lemma {:induction false} RunKeepsSkipping(s: State, schedule: seq<Action>)
    requires Skipping(s) && Run(s, schedule).Some? && NoBump(schedule)
    ensures var u := Run(s, schedule).value;
            Skipping(u) && u.index == s.index &&
            ((forall i :: 0 <= i < |schedule| ==> !IsSave(schedule[i])) ==> u.config == s.config && u.saver == s.saver)
    decreases |schedule|
  {
    hide BuildIndex;
    hide Skipping;
    if schedule != [] {
      assert !schedule[0].BumpRevision?;
      StepKeepsSkipping(s, schedule[0]);
      RunKeepsSkipping(Step(s, schedule[0]), schedule[1..]);
    }
  }

  /** An overlooked save leaves the old index in place for as long as no further save is published: no
      schedule without a bump ever replaces it, and without a save it stays the wrong one. */
  lemma StaleIndexUnderEqualRevisionsStays(history: seq<Config>, between: seq<Action>, schedule: seq<Action>)
    requires history != [] && OnlySaves(between) && Constructed(history, between).Some?
    requires Run(Constructed(history, between).value, schedule).Some? && NoBump(schedule)
    ensures var s := Constructed(history, between).value; var u := Run(s, schedule).value;
            u.index == BuildIndex(history[|history| - 1].groups) && u.cached == u.revision &&
            (forall t: Tid :: !u.At(t).Stale?) &&
            (s.saver.None? && Overlooked(s) && (forall i :: 0 <= i < |schedule| ==> !IsSave(schedule[i])) ==>
               u.index != BuildIndex(u.config.groups))
  {
    hide BuildIndex;
    ConstructedKeepsInv(history, between);
    var s := Constructed(history, between).value;
    RunKeepsSkipping(s, schedule);
    var u := Run(s, schedule).value;
    forall t: Tid ensures !u.At(t).Stale? {
      assert var pc := u.At(t); !Refreshing(pc) || pc == Observed(u.revision) || pc.Checked?;
    }
  }

  /** The next save ends it: the refresh after it installs the index of the saved config. */
  lemma NextSaveRepairs(s: State, t: Tid, c: Config)
    requires s.saver.None? && s.refresher.None? && s.At(t).Idle? && s.cached <= s.revision
    ensures Run(s, Save(t, c)).Some? &&
            var u := Run(s, Save(t, c)).value;
            Run(u, Refresh(u, t)).Some? && Run(u, Refresh(u, t)).value.index == BuildIndex(c.groups)
  {
    SaveRuns(s, t, c);
    RefreshRuns(Run(s, Save(t, c)).value, t);
  }

  // ----- the two entry points, run by one thread at a time -----

  class RouteIndexCache {
    var config: Config
    var revision: nat
    var index: Index
    var cached: nat

    constructor (config: Config, revision: nat)
      ensures this.config == config && this.revision == cached == revision
      ensures index == BuildIndex(config.groups)
    {
      var built := BuildRouteIndex(config);
      this.config, this.revision, this.cached, this.index := config, revision, revision, built;
    }

    ghost predicate Valid()
      reads this
    {
      cached <= revision && (cached == revision ==> index == BuildIndex(config.groups))
    }

    method SetInMemory(next: Config)
      requires Valid()
      modifies this`config, this`revision
      ensures Valid() && config == next && revision == old(revision) + 1
    {
      config := next;
      revision := revision + 1;
    }

    method RefreshRouteIndexIfNeeded()
      requires Valid()
      modifies this`index, this`cached
      ensures Valid() && cached == revision && index == BuildIndex(config.groups)
    {
      var observed := revision;
      if observed == cached { return; }
      var next := BuildRouteIndex(config);
      index := next;
      cached := observed;
    }
  }
}
