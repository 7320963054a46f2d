// The remote admin session store: a password record and a session map under separate locks, used by
// any number of threads. Each lock section is one atomic step.
module Sessions {
  import opened Text

  type Tid = nat
  type Token = string
  type Stamp = nat

  const SESSION_TTL: nat := 12 * 60 * 60 * 1000   // milliseconds
  const MIN_PASSWORD_LEN: nat := 8

  /** The stored password hash, trimmed as every reader trims it, and the moment it was last rotated. */
  datatype Auth = Auth(hash: string, updatedAt: Option<Stamp>)
  {
    predicate Configured() { hash != "" }
  }

  const NO_AUTH := Auth("", None)

  datatype Session = Session(expiresAt: int, updatedAt: Option<Stamp>)

  /** The decision taken under the sessions lock, against a snapshot taken earlier. */
  predicate Accepts(sessions: map<Token, Session>, token: Token, snapshot: Auth, now: int) {
    token in sessions && now < sessions[token].expiresAt &&
    sessions[token].updatedAt == snapshot.updatedAt && snapshot.Configured()
  }

  // ----- the protocol -----

  /** `at` is the password revision of a snapshot; it is auxiliary, no step decides by it. */
  datatype Pc =
    | Idle
    | Rotated                                                    // password written, sessions not yet revoked
    | Issuing(snapshot: Auth, at: nat)
    | Inserting(snapshot: Auth, at: nat, expiresAt: int)
    | Verifying(token: Token, snapshot: Auth, at: nat)

  /** `history[r]` is the password record of revision `r`, `issued` maps every token ever inserted to
      the revision in its issuer's snapshot, `removed` holds tokens that left the map. All auxiliary. */
  datatype State = State(
    auth: Auth, sessions: map<Token, Session>, now: int, pcs: map<Tid, Pc>,
    history: seq<Auth>, issued: map<Token, nat>, removed: set<Token>)
  {
    function At(t: Tid): Pc { if t in pcs then pcs[t] else Idle }
    function Go(t: Tid, pc: Pc): State { this.(pcs := pcs[t := pc]) }
    function Write(next: Auth): State { this.(auth := next, history := history + [next]) }
    function Drop(tokens: set<Token>): State {
      this.(sessions := sessions - tokens, removed := removed + tokens * sessions.Keys)
    }
    function Revision(): int { |history| - 1 }
  }

  datatype Action =
    | WritePassword(t: Tid, hash: string, stamp: Stamp)
    | ClearPassword(t: Tid)
    | RevokeAfterWrite(t: Tid)
    | SnapshotForIssue(t: Tid)
    | PrepareSession(t: Tid)
    | InsertSession(t: Tid, token: Token)
    | SnapshotForVerify(t: Tid, token: Token)
    | CheckSession(t: Tid)
    | RevokeSession(t: Tid, token: Token)
    | RevokeAll(t: Tid)
    | Tick(t: Tid, elapsed: nat)

  /** Rotation stamps are distinct and tokens are fresh. */
  ghost predicate Enabled(s: State, a: Action) {
    var pc := s.At(a.t);
    match a
    case WritePassword(_, hash, stamp) =>
      pc.Idle? && hash != "" && forall i :: 0 <= i < |s.history| ==> s.history[i].updatedAt != Some(stamp)
    case ClearPassword(_) => pc.Idle?
    case RevokeAfterWrite(_) => pc.Rotated?
    case SnapshotForIssue(_) => pc.Idle? && s.auth.Configured()
    case PrepareSession(_) => pc.Issuing?
    case InsertSession(_, token) => pc.Inserting? && token !in s.issued
    case SnapshotForVerify(_, _) => pc.Idle? && s.history != []
    case CheckSession(_) => pc.Verifying?
    case RevokeSession(_, _) => pc.Idle?
    case RevokeAll(_) => pc.Idle?
    case Tick(_, _) => true
  }

  ghost function Step(s: State, a: Action): State
    requires Enabled(s, a)
  {
    var t, pc := a.t, s.At(a.t);
    match a
    case WritePassword(_, hash, stamp) => s.Go(t, Rotated).Write(Auth(hash, Some(stamp)))
    case ClearPassword(_) => s.Go(t, Rotated).Write(NO_AUTH)
    case RevokeAfterWrite(_) => s.Go(t, Idle).Drop(s.sessions.Keys)
    case SnapshotForIssue(_) => s.Go(t, Issuing(s.auth, Max0(s.Revision())))
    case PrepareSession(_) => s.Go(t, Inserting(pc.snapshot, pc.at, s.now + SESSION_TTL))
    case InsertSession(_, token) =>
      s.Go(t, Idle).(sessions := s.sessions[token := Session(pc.expiresAt, pc.snapshot.updatedAt)],
                     issued := s.issued[token := pc.at])
    case SnapshotForVerify(_, token) => s.Go(t, Verifying(token, s.auth, Max0(s.Revision())))
    case CheckSession(_) =>
      if Accepts(s.sessions, pc.token, pc.snapshot, s.now) then s.Go(t, Idle) else s.Go(t, Idle).Drop({pc.token})
    case RevokeSession(_, token) => s.Drop({token})
    case RevokeAll(_) => s.Drop(s.sessions.Keys)
    case Tick(_, elapsed) => s.(now := s.now + elapsed)
  }

  function Max0(n: int): nat { if n < 0 then 0 else n }

  ghost predicate Runs(s: State, schedule: seq<Action>)
    decreases |schedule|
  {
    schedule == [] || (Enabled(s, schedule[0]) && Runs(Step(s, schedule[0]), schedule[1..]))
  }

  ghost function After(s: State, schedule: seq<Action>): State
    requires Runs(s, schedule)
    decreases |schedule|
  {
    if schedule == [] then s else After(Step(s, schedule[0]), schedule[1..])
  }

  /** A store that has just loaded its password file. */
  function Init(loaded: Auth, now: int): State {
    State(loaded, map[], now, map[], [loaded], map[], {})
  }

  // ----- the invariant -----

  ghost predicate Snapshot(s: State, snapshot: Auth, at: nat) {
    at < |s.history| && s.history[at] == snapshot
  }

  ghost predicate ThreadInv(s: State, t: Tid) {
    match s.At(t)
    case Issuing(snapshot, at) => Snapshot(s, snapshot, at) && snapshot.Configured()
    case Inserting(snapshot, at, _) => Snapshot(s, snapshot, at) && snapshot.Configured()
    case Verifying(_, snapshot, at) => Snapshot(s, snapshot, at)
    case _ => true
  }

  /** A configured revision carries a stamp of its own. */
  ghost predicate StampsTell(history: seq<Auth>) {
    forall i, j :: 0 <= i < j < |history| && history[j].Configured() ==>
      history[i].updatedAt != history[j].updatedAt
  }

  ghost predicate SessionInv(s: State, token: Token)
    requires token in s.sessions
  {
    token in s.issued && s.issued[token] < |s.history| &&
    s.history[s.issued[token]].Configured() &&
    s.sessions[token].updatedAt == s.history[s.issued[token]].updatedAt
  }

  ghost predicate Inv(s: State) {
    s.history != [] && s.auth == s.history[|s.history| - 1] && StampsTell(s.history) &&
    s.sessions.Keys !! s.removed && s.removed <= s.issued.Keys &&
    (forall token :: token in s.sessions ==> SessionInv(s, token)) &&
    (forall t: Tid :: ThreadInv(s, t))
  }

  lemma StampsStayDistinct(history: seq<Auth>, next: Auth)
    requires StampsTell(history)
    requires next.Configured() ==> forall i :: 0 <= i < |history| ==> history[i].updatedAt != next.updatedAt
    ensures StampsTell(history + [next])
  {
    var all := history + [next];
    forall i, j | 0 <= i < j < |all| && all[j].Configured()
      ensures all[i].updatedAt != all[j].updatedAt
    {
      assert all[i] == history[i];
    }
  }

  lemma StepKeepsThreads(s: State, a: Action, t: Tid)
    requires Inv(s) && Enabled(s, a)
    ensures ThreadInv(Step(s, a), t)
  {
    assert ThreadInv(s, t) && ThreadInv(s, a.t);
  }

  lemma StepKeepsSessions(s: State, a: Action, token: Token)
    requires Inv(s) && Enabled(s, a) && token in Step(s, a).sessions
    ensures SessionInv(Step(s, a), token)
  {
    assert ThreadInv(s, a.t);
    if token in s.sessions { assert SessionInv(s, token); }
  }

  lemma StepKeepsTokens(s: State, a: Action)
    requires Inv(s) && Enabled(s, a)
    ensures var u := Step(s, a); u.sessions.Keys !! u.removed && s.removed <= u.removed <= u.issued.Keys
  {
    forall token | token in s.sessions ensures token in s.issued { assert SessionInv(s, token); }
  }

  lemma StepKeepsHistory(s: State, a: Action)
    requires Inv(s) && Enabled(s, a)
    ensures var u := Step(s, a);
            u.history != [] && u.auth == u.history[|u.history| - 1] && StampsTell(u.history)
  {
    match a
    case WritePassword(_, hash, stamp) => StampsStayDistinct(s.history, Auth(hash, Some(stamp)));
    case ClearPassword(_) => StampsStayDistinct(s.history, NO_AUTH);
    case _ =>
  }

  lemma StepKeepsInv(s: State, a: Action)
    requires Inv(s) && Enabled(s, a)
    ensures Inv(Step(s, a))
  {
    forall t: Tid ensures ThreadInv(Step(s, a), t) { StepKeepsThreads(s, a, t); }
    forall token | token in Step(s, a).sessions ensures SessionInv(Step(s, a), token) {
      StepKeepsSessions(s, a, token);
    }
    StepKeepsTokens(s, a);
    StepKeepsHistory(s, a);
  }

  lemma {:induction false} RunKeepsInv(s: State, schedule: seq<Action>)
    requires Inv(s) && Runs(s, schedule)
    ensures Inv(After(s, schedule)) && s.removed <= After(s, schedule).removed
    decreases |schedule|
  {
    if schedule != [] {
      StepKeepsInv(s, schedule[0]);
      StepKeepsTokens(s, schedule[0]);
      RunKeepsInv(Step(s, schedule[0]), schedule[1..]);
    }
  }

  lemma InitInv(loaded: Auth, now: int)
    ensures Inv(Init(loaded, now))
  {
  }

  // ----- main results -----

  lemma SameStampSameRevision(s: State, i: nat, j: nat)
    requires StampsTell(s.history) && i < |s.history| && j < |s.history|
    requires s.history[i].Configured() && s.history[j].Configured()
    requires s.history[i].updatedAt == s.history[j].updatedAt
    ensures i == j
  {
  }

  /** In every interleaving, a verification succeeds exactly for a token that is present, unexpired and
      was issued under the password revision in the verifier's own snapshot. */
  lemma VerifyAcceptsExactlyOwnRevision(loaded: Auth, start: int, schedule: seq<Action>, t: Tid)
    requires Runs(Init(loaded, start), schedule) && After(Init(loaded, start), schedule).At(t).Verifying?
    ensures var s := After(Init(loaded, start), schedule); var v := s.At(t);
            Accepts(s.sessions, v.token, v.snapshot, s.now) <==>
              v.token in s.sessions && s.now < s.sessions[v.token].expiresAt &&
              v.token in s.issued && s.issued[v.token] == v.at
  {
    InitInv(loaded, start);
    RunKeepsInv(Init(loaded, start), schedule);
    var s := After(Init(loaded, start), schedule);
    var v := s.At(t);
    assert ThreadInv(s, t);
    if v.token in s.sessions {
      assert SessionInv(s, v.token);
      if Accepts(s.sessions, v.token, v.snapshot, s.now) {
        SameStampSameRevision(s, s.issued[v.token], v.at);
      }
    }
  }

  /** A session that a slow issuer inserts after a rotation has already revoked everything is still
      rejected, and removed, by any verification that has seen the new password. */
  lemma LateInsertIsRejected(loaded: Auth, start: int, schedule: seq<Action>, t: Tid)
    requires Runs(Init(loaded, start), schedule) && After(Init(loaded, start), schedule).At(t).Verifying?
    requires var s := After(Init(loaded, start), schedule);
             s.At(t).token in s.issued && s.issued[s.At(t).token] < s.At(t).at
    ensures var s := After(Init(loaded, start), schedule);
            !Accepts(s.sessions, s.At(t).token, s.At(t).snapshot, s.now) &&
            s.At(t).token !in Step(s, CheckSession(t)).sessions
  {
    VerifyAcceptsExactlyOwnRevision(loaded, start, schedule, t);
  }

  /** Once a token has left the map, no later verification accepts it. */
  lemma RemovedTokenStaysRejected(
    loaded: Auth, start: int, before: seq<Action>, after: seq<Action>, token: Token, snapshot: Auth)
    requires Runs(Init(loaded, start), before) && token in After(Init(loaded, start), before).removed
    requires Runs(After(Init(loaded, start), before), after)
    ensures var s := After(After(Init(loaded, start), before), after);
            token !in s.sessions && !Accepts(s.sessions, token, snapshot, s.now)
  {
    InitInv(loaded, start);
    RunKeepsInv(Init(loaded, start), before);
    RunKeepsInv(After(Init(loaded, start), before), after);
  }

  /** What a revocation removes, whatever other threads are doing, and when it can run. */
  lemma RevocationRemoves(s: State, t: Tid, token: Token)
    requires s.At(t).Idle?
    ensures Enabled(s, RevokeSession(t, token)) && Enabled(s, RevokeAll(t)) && Enabled(s, ClearPassword(t))
    ensures var u := Step(s, RevokeSession(t, token));
            token !in u.sessions &&
            (forall x :: x in s.sessions && x != token ==> x in u.sessions && u.sessions[x] == s.sessions[x]) &&
            (forall x :: x in u.sessions ==> x in s.sessions) && u.auth == s.auth && u.pcs == s.pcs
    ensures var u := Step(s, RevokeAll(t)); (forall x :: x !in u.sessions) && u.auth == s.auth && u.pcs == s.pcs
  {
  }

  /** The step revokes the token. */
  ghost predicate Revokes(a: Action, token: Token) {
    a.RevokeAll? || a.RevokeAfterWrite? || (a.RevokeSession? && a.token == token)
  }

  /** A session leaves the store exactly when it is revoked or a check rejects it, and never changes. */
  lemma SessionLeavesExactly(s: State, a: Action, token: Token)
    requires Inv(s) && Enabled(s, a) && token in s.sessions
    ensures var u := Step(s, a);
            (token !in u.sessions <==>
               Revokes(a, token) ||
               (a.CheckSession? && s.At(a.t).token == token && !Accepts(s.sessions, token, s.At(a.t).snapshot, s.now))) &&
            (token in u.sessions ==> u.sessions[token] == s.sessions[token])
  {
    hide Accepts;
    assert SessionInv(s, token);
  }

  /** A token that is revoked while its session is present is gone at once, and in every later run no verification
      accepts it, whatever snapshot it holds. */
  lemma RevokedTokenStaysRejected(
    loaded: Auth, start: int, before: seq<Action>, a: Action, after: seq<Action>, token: Token, snapshot: Auth)
    requires Runs(Init(loaded, start), before) && Enabled(After(Init(loaded, start), before), a)
    requires token in After(Init(loaded, start), before).sessions && Revokes(a, token)
    requires Runs(Step(After(Init(loaded, start), before), a), after)
    ensures var u := Step(After(Init(loaded, start), before), a); var s := After(u, after);
            token !in u.sessions && token !in s.sessions && !Accepts(s.sessions, token, snapshot, s.now)
  {
    InitInv(loaded, start);
    RunKeepsInv(Init(loaded, start), before);
    var s := After(Init(loaded, start), before);
    StepKeepsInv(s, a);
    assert token in Step(s, a).removed;
    RunKeepsInv(Step(s, a), after);
  }

  // Sessions expire.

  /** No session, inserted or about to be, has more than twelve hours left. */
  ghost predicate Short(s: State) {
    (forall token :: token in s.sessions ==> s.sessions[token].expiresAt <= s.now + 43200000) &&
    forall t: Tid :: s.At(t).Inserting? ==> s.At(t).expiresAt <= s.now + 43200000
  }

  lemma StepKeepsShort(s: State, a: Action)
    requires Short(s) && Enabled(s, a)
    ensures Short(Step(s, a)) && s.now <= Step(s, a).now
  {
    var u := Step(s, a);
    forall t: Tid | u.At(t).Inserting? ensures u.At(t).expiresAt <= u.now + 43200000 {
      if t != a.t { assert u.At(t) == s.At(t); }
    }
    assert s.At(a.t).Inserting? ==> s.At(a.t).expiresAt <= s.now + 43200000;
  }

  lemma {:induction false} RunKeepsShort(s: State, schedule: seq<Action>)
    requires Short(s) && Runs(s, schedule)
    ensures Short(After(s, schedule)) && s.now <= After(s, schedule).now
    decreases |schedule|
  {
    if schedule != [] {
      StepKeepsShort(s, schedule[0]);
      RunKeepsShort(Step(s, schedule[0]), schedule[1..]);
    }
  }

  /** A token that has been issued stays as it is or goes. */
  lemma {:induction false} SessionsStay(s: State, schedule: seq<Action>, token: Token)
    requires Inv(s) && Runs(s, schedule) && token in s.issued && token in After(s, schedule).sessions
    ensures token in s.sessions && After(s, schedule).sessions[token] == s.sessions[token]
    decreases |schedule|
  {
    hide Accepts;
    if schedule != [] {
      StepKeepsInv(s, schedule[0]);
      SessionsStay(Step(s, schedule[0]), schedule[1..], token);
    }
  }

  /** Twelve hours after any moment no token issued before it is accepted any more. */
  lemma SessionsExpire(
    loaded: Auth, start: int, before: seq<Action>, t: Tid, elapsed: nat, after: seq<Action>, token: Token, snapshot: Auth)
    requires Runs(Init(loaded, start), before) && token in After(Init(loaded, start), before).issued && elapsed >= 43200000
    requires Runs(Step(After(Init(loaded, start), before), Tick(t, elapsed)), after)
    ensures var s := After(Step(After(Init(loaded, start), before), Tick(t, elapsed)), after);
            !Accepts(s.sessions, token, snapshot, s.now)
  {
    InitInv(loaded, start);
    RunKeepsInv(Init(loaded, start), before);
    RunKeepsShort(Init(loaded, start), before);
    var s := After(Init(loaded, start), before);
    var u := Step(s, Tick(t, elapsed));
    StepKeepsInv(s, Tick(t, elapsed));
    StepKeepsShort(s, Tick(t, elapsed));
    RunKeepsShort(u, after);
    assert u.now == s.now + elapsed && u.sessions == s.sessions && u.issued == s.issued;
    if token in After(u, after).sessions { SessionsStay(u, after, token); }
  }

  /** The two sections of clearing the password, undisturbed. */
  lemma UndisturbedClear(s: State, t: Tid)
    requires s.At(t).Idle?
    ensures Enabled(s, ClearPassword(t))
    ensures var w := Step(s, ClearPassword(t));
            Enabled(w, RevokeAfterWrite(t)) &&
            var u := Step(w, RevokeAfterWrite(t));
            u.auth.hash == "" && u.auth.updatedAt == None && (forall token :: token !in u.sessions) && u.At(t).Idle?
  {
    var w := Step(s, ClearPassword(t));
    assert w.At(t).Rotated?;
  }

  /** After a rotation has finished, no session that was present when it revoked is left. */
  lemma RotationRevokesPresentSessions(s: State, t: Tid)
    requires Inv(s) && s.At(t).Rotated?
    ensures var u := Step(s, RevokeAfterWrite(t)); u.sessions == map[] && s.sessions.Keys <= u.removed
  {
  }

  // A call that no other thread disturbs does to the shared fields what the store methods below do.

  lemma UndisturbedRotation(s: State, t: Tid, hash: string, stamp: Stamp)
    requires Enabled(s, WritePassword(t, hash, stamp))
    ensures var w := Step(s, WritePassword(t, hash, stamp));
            Enabled(w, RevokeAfterWrite(t)) &&
            var u := Step(w, RevokeAfterWrite(t)); u.auth == Auth(hash, Some(stamp)) && u.sessions == map[]
  {
    var w := Step(s, WritePassword(t, hash, stamp));
    assert w.At(t).Rotated?;
    assert w.sessions - w.sessions.Keys == map[];
  }

  lemma UndisturbedIssue(s: State, t: Tid, token: Token)
    requires Enabled(s, SnapshotForIssue(t)) && token !in s.issued
    ensures var a := Step(s, SnapshotForIssue(t));
            Enabled(a, PrepareSession(t)) &&
            var b := Step(a, PrepareSession(t));
            Enabled(b, InsertSession(t, token)) &&
            var u := Step(b, InsertSession(t, token));
            u.auth == s.auth && u.sessions == s.sessions[token := Session(s.now + 43200000, s.auth.updatedAt)]
  {
    var a := Step(s, SnapshotForIssue(t));
    assert a.At(t).Issuing?;
    assert Step(a, PrepareSession(t)).At(t).Inserting?;
  }

  lemma UndisturbedVerify(s: State, t: Tid, token: Token)
    requires Enabled(s, SnapshotForVerify(t, token))
    ensures var v := Step(s, SnapshotForVerify(t, token));
            Enabled(v, CheckSession(t)) &&
            var u := Step(v, CheckSession(t));
            u.auth == s.auth &&
            u.sessions == if Accepts(s.sessions, token, s.auth, s.now) then s.sessions else s.sessions - {token}
  {
    hide Accepts;
    assert Step(s, SnapshotForVerify(t, token)).At(t) == Verifying(token, s.auth, Max0(s.Revision()));
  }

  // ----- the store, used by one thread at a time -----

  class RemoteAdminAuthStore {
    var persisted: Auth
    var sessions: map<Token, Session>

    constructor (loaded: Auth)
      ensures persisted == loaded && sessions == map[]
    {
      persisted, sessions := loaded, map[];
    }

    /** `hash` is the salted hash of the trimmed password, `stamp` the time of the call. The length is
        counted in UTF-8 bytes. */
    method SetPassword(password: string, hash: string, stamp: Stamp) returns (ok: bool)
      modifies this
      ensures ok == (Utf8Length(Trim(password)) >= 8)
      ensures ok ==> persisted == Auth(hash, Some(stamp)) && sessions == map[]
      ensures !ok ==> persisted == old(persisted) && sessions == old(sessions)
    {
      if Utf8Length(Trim(password)) < MIN_PASSWORD_LEN { return false; }
      persisted := Auth(hash, Some(stamp));
      RevokeAllSessions();
      return true;
    }

    method Clear()
      modifies this
      ensures persisted == Auth("", None) && sessions == map[]
    {
      persisted := NO_AUTH;
      RevokeAllSessions();
    }

    method IssueSession(token: Token, now: int) returns (ok: bool)
      requires token !in sessions
      modifies this`sessions
      ensures ok == (persisted.hash != "")
      ensures sessions == (if ok then old(sessions)[token := Session(now + 43200000, persisted.updatedAt)] else old(sessions))
      ensures ok ==> forall later :: now <= later ==>
                (Accepts(sessions, token, persisted, later) <==> later < now + 43200000)
    {
      var snapshot := persisted;
      if !snapshot.Configured() { return false; }
      sessions := sessions[token := Session(now + SESSION_TTL, snapshot.updatedAt)];
      return true;
    }

    method VerifySession(token: Token, now: int) returns (accepted: bool)
      modifies this`sessions
      ensures accepted == (Trim(token) != "" && Accepts(old(sessions), token, persisted, now))
      ensures sessions == (if accepted || Trim(token) == "" then old(sessions) else old(sessions) - {token})
    {
      if Trim(token) == "" { return false; }
      var snapshot := persisted;
      if token !in sessions { return false; }
      var session := sessions[token];
      var expired := session.expiresAt <= now;
      var rotated := session.updatedAt != snapshot.updatedAt;
      if expired || rotated || !snapshot.Configured() {
        sessions := sessions - {token};
        return false;
      }
      return true;
    }

    method RevokeOne(token: Token)
      modifies this`sessions
      ensures sessions == old(sessions) - {token}
    {
      sessions := sessions - {token};
    }

    method RevokeAllSessions()
      modifies this`sessions
      ensures sessions == map[]
    {
      sessions := map[];
    }
  }
}
