// Persistent API sessions under secret rotation, and the login limiter
// (backend/app/api/auth.py:78-153).
module SessionStore {
  import opened Common

  // ----- one database, many store instances -----

  /** The two tables. */
  datatype Tables = Tables(fingerprint: Option<nat>, sessions: set<nat>)

  /** A store instance: the fingerprint of the secret it was configured with. */
  datatype Instance = Instance(fingerprint: nat, initialized: bool)

  /** The transaction of `initialize`: a different fingerprint empties the sessions. */
  function Initialized(db: Tables, fingerprint: nat): Tables {
    if db.fingerprint == Some(fingerprint) then db else Tables(Some(fingerprint), {})
  }

  predicate Matches(db: Tables, fingerprint: nat) {
    db.fingerprint == Some(fingerprint)
  }

  function Inserted(db: Tables, fingerprint: nat, token: nat): Tables {
    if Matches(db, fingerprint) then db.(sessions := db.sessions + {token}) else db
  }

  /** Revoking one token, or all when none is given. */
  function Revoked(db: Tables, fingerprint: nat, token: Option<nat>): Tables {
    if !Matches(db, fingerprint) then db
    else db.(sessions := if token.None? then {} else db.sessions - {token.value})
  }

  /** `contains`: an error when the fingerprint has changed, otherwise the lookup. */
  function Lookup(db: Tables, fingerprint: nat, token: nat): Option<bool> {
    if Matches(db, fingerprint) then Some(token in db.sessions) else None
  }

  /** History: how often the recorded fingerprint changed, when and under which fingerprint each
      token was issued, and which stored tokens a revocation has named. */
  datatype World = World(
    db: Tables,
    instances: map<nat, Instance>,
    rotations: nat,
    issued: map<nat, (nat, nat)>,
    revoked: set<nat>)

  datatype Step =
    | Start(id: nat, fingerprint: nat)
    | Initialize(id: nat)
    | Issue(id: nat, token: nat)
    | Revoke(id: nat, which: Option<nat>)

  ghost predicate Init(w: World) {
    w == World(Tables(None, {}), map[], 0, map[], {})
  }

  ghost predicate Next(w: World, a: Step, w': World) {
    match a
    case Start(id, fingerprint) =>
      id !in w.instances && w' == w.(instances := w.instances[id := Instance(fingerprint, false)])
    case Initialize(id) =>
      && id in w.instances
      && var f := w.instances[id].fingerprint;
         if w.instances[id].initialized then w' == w
         else if w.db.fingerprint == Some(f) then w' == w.(instances := w.instances[id := Instance(f, true)])
         else w' == w.(instances := w.instances[id := Instance(f, true)], db := Initialized(w.db, f),
                       rotations := w.rotations + 1)
    case Issue(id, token) =>
      && id in w.instances && w.instances[id].initialized && token !in w.issued
      && var f := w.instances[id].fingerprint;
         if Matches(w.db, f) then
           w' == w.(db := Inserted(w.db, f, token), issued := w.issued[token := (w.rotations, f)])
         else w' == w.(db := Inserted(w.db, f, token))
    case Revoke(id, which) =>
      && id in w.instances && w.instances[id].initialized
      && var f := w.instances[id].fingerprint;
         if Matches(w.db, f) then
           w' == w.(db := Revoked(w.db, f, which),
                    revoked := w.revoked + if which.None? then w.db.sessions else {which.value} * w.db.sessions)
         else w' == w.(db := Revoked(w.db, f, which))
  }

  ghost predicate IsRun(states: seq<World>, steps: seq<Step>) {
    && |states| == |steps| + 1
    && Init(states[0])
    && forall i | 0 <= i < |steps| :: Next(states[i], steps[i], states[i + 1])
  }

  /** The stored sessions are exactly the tokens issued since the last rotation and not revoked,
      and all of them were issued under the recorded fingerprint. */
  ghost predicate Inv(w: World) {
    && (forall t :: t in w.db.sessions <==> t in w.issued && w.issued[t].0 == w.rotations && t !in w.revoked)
    && (forall t | t in w.issued :: w.issued[t].0 <= w.rotations)
    && (forall t | t in w.issued && w.issued[t].0 == w.rotations :: w.db.fingerprint == Some(w.issued[t].1))
    && (forall t | t in w.revoked :: t in w.issued)
  }

  lemma StepKeeps(w: World, a: Step, w': World)
    requires Inv(w) && Next(w, a, w')
    ensures Inv(w')
  {
  }

  lemma StepGrows(w: World, a: Step, w': World)
    requires Inv(w) && Next(w, a, w')
    ensures w'.rotations >= w.rotations
    ensures forall t | t in w.issued :: t in w'.issued && w'.issued[t] == w.issued[t]
  {
  }

  lemma {:induction false} Always(states: seq<World>, steps: seq<Step>, k: nat)
    requires IsRun(states, steps) && k < |states|
    ensures Inv(states[k])
  {
    if k > 0 {
      Always(states, steps, k - 1);
      StepKeeps(states[k - 1], steps[k - 1], states[k]);
    }
  }

  lemma {:induction false} HistoryGrows(states: seq<World>, steps: seq<Step>, i: nat, j: nat, token: nat)
    requires IsRun(states, steps) && i <= j < |states|
    ensures states[j].rotations >= states[i].rotations
    ensures token in states[i].issued ==>
              token in states[j].issued && states[j].issued[token] == states[i].issued[token]
  {
    if i < j {
      HistoryGrows(states, steps, i, j - 1, token);
      Always(states, steps, j - 1);
      StepGrows(states[j - 1], steps[j - 1], states[j]);
    }
  }

  /** What any instance answers about a token, at any moment of any run. */
  lemma LookupTheorem(states: seq<World>, steps: seq<Step>, k: nat, fingerprint: nat, token: nat)
    requires IsRun(states, steps) && k < |states|
    ensures Lookup(states[k].db, fingerprint, token) == Some(true) <==>
              && states[k].db.fingerprint == Some(fingerprint)
              && token in states[k].issued && states[k].issued[token] == (states[k].rotations, fingerprint)
              && token !in states[k].revoked
  {
    Always(states, steps, k);
  }

  /** What an instance of the recorded fingerprint answers before and after it revokes: the named token, or every
      token when none is named, is not valid any more, and every other answer is as it was. */
  lemma RevocationIs(w: World, id: nat, which: Option<nat>, w': World, token: nat)
    requires Inv(w) && Next(w, Revoke(id, which), w') && Matches(w.db, w.instances[id].fingerprint)
    ensures var f := w.instances[id].fingerprint;
            && Lookup(w'.db, f, token)
               == (if which.None? || which.value == token then Some(false) else Lookup(w.db, f, token))
            && (token in w'.revoked <==>
                  token in w.revoked || (Lookup(w.db, f, token) == Some(true) && (which.None? || which.value == token)))
  {
  }

  lemma {:induction false} RevokedStays(states: seq<World>, steps: seq<Step>, i: nat, j: nat, token: nat)
    requires IsRun(states, steps) && i <= j < |states| && token in states[i].revoked
    ensures token in states[j].revoked
  {
    if i < j {
      RevokedStays(states, steps, i, j - 1, token);
    }
  }

  /** A valid token that is revoked, by name or with all others, is never valid again for any instance. */
  lemma RevocationIsFinal(
    states: seq<World>, steps: seq<Step>, i: nat, j: nat, which: Option<nat>, token: nat, fingerprint: nat)
    requires IsRun(states, steps) && i < j < |states| && steps[i].Revoke? && steps[i].which == which
    requires steps[i].id in states[i].instances
    requires Lookup(states[i].db, states[i].instances[steps[i].id].fingerprint, token) == Some(true)
    requires which.None? || which.value == token
    ensures Lookup(states[j].db, fingerprint, token) != Some(true)
    ensures Matches(states[j].db, fingerprint) ==> Lookup(states[j].db, fingerprint, token) == Some(false)
  {
    Always(states, steps, i);
    RevocationIs(states[i], steps[i].id, which, states[i + 1], token);
    RevokedStays(states, steps, i + 1, j, token);
    LookupTheorem(states, steps, j, fingerprint, token);
  }

  /** A token issued before a rotation never validates again for any instance, also after the old
      secret has come back. */
  lemma RotationIsFinal(states: seq<World>, steps: seq<Step>, i: nat, j: nat, fingerprint: nat, token: nat)
    requires IsRun(states, steps) && i <= j < |states|
    requires token in states[i].issued && states[j].rotations > states[i].rotations
    ensures Lookup(states[j].db, fingerprint, token) != Some(true)
  {
    HistoryGrows(states, steps, i, j, token);
    Always(states, steps, i);
    LookupTheorem(states, steps, j, fingerprint, token);
  }

  /** An instance configured for another secret changes neither table once it is initialized. */
  lemma StaleInstanceIsHarmless(w: World, a: Step, w': World)
    requires Next(w, a, w') && !a.Start? && a.id in w.instances
    requires w.instances[a.id].initialized && !Matches(w.db, w.instances[a.id].fingerprint)
    ensures w'.db == w.db && w'.issued == w.issued && w'.revoked == w.revoked
  {
  }

  /** The database file, shared by every store that is opened on it. */
  class Database {
    var fingerprint: Option<nat>
    var sessions: set<nat>

    function View(): Tables
      reads this
    {
      Tables(fingerprint, sessions)
    }

    constructor ()
      ensures View() == Tables(None, {})
    {
      fingerprint, sessions := None, {};
    }
  }

  class Store {
    const db: Database
    const config: nat
    var initialized: bool

    constructor (db: Database, config: nat)
      ensures this.db == db && this.config == config && !initialized
    {
      this.db, this.config, initialized := db, config, false;
    }

    method Open()
      modifies this, db
      ensures initialized
      ensures db.View() == if old(initialized) then old(db.View()) else Initialized(old(db.View()), config)
    {
      if initialized {
        return;
      }
      if db.fingerprint != Some(config) {
        db.sessions := {};
        db.fingerprint := Some(config);
      }
      initialized := true;
    }

    /** Raises (returns false) when the configuration changed under the instance. */
    method IssueToken(token: nat) returns (ok: bool)
      requires initialized
      modifies db
      ensures db.View() == Inserted(old(db.View()), config, token)
      ensures ok <==> Matches(old(db.View()), config)
    {
      if db.fingerprint != Some(config) {
        return false;
      }
      db.sessions := db.sessions + {token};
      return true;
    }

    method Contains(token: nat) returns (found: Option<bool>)
      requires initialized
      ensures found == Lookup(db.View(), config, token)
    {
      if db.fingerprint != Some(config) {
        return None;
      }
      return Some(token in db.sessions);
    }

    method RevokeToken(which: Option<nat>) returns (removed: Option<nat>)
      requires initialized
      modifies db
      ensures db.View() == Revoked(old(db.View()), config, which)
      ensures removed.Some? ==>
                forall token ::
                  if which.None? || which.value == token then Lookup(db.View(), config, token) == Some(false)
                  else Lookup(db.View(), config, token) == Lookup(old(db.View()), config, token)
      ensures removed == if Matches(old(db.View()), config) then Some(|old(db.sessions) - db.sessions|) else None
    {
      if db.fingerprint != Some(config) {
        return None;
      }
      var before := db.sessions;
      db.sessions := if which.None? then {} else before - {which.value};
      return Some(|before - db.sessions|);
    }
  }

  // ----- the login limiter -----

  const ATTEMPT_SECONDS := 2.0

  predicate Admitted(next: Option<real>, now: real) {
    next.None? || now >= next.value
  }

  /** The earliest time of the next attempt after attempts at the given times. */
  function NextAttempt(times: seq<real>): Option<real> {
    if times == [] then None
    else
      var before, now := NextAttempt(times[..|times| - 1]), times[|times| - 1];
      if Admitted(before, now) then Some(now + ATTEMPT_SECONDS) else before
  }

  predicate AdmittedAt(times: seq<real>, i: nat)
    requires i < |times|
  {
    Admitted(NextAttempt(times[..i]), times[i])
  }

  ghost predicate Monotone(times: seq<real>) {
    forall i, j | 0 <= i < j < |times| :: times[i] <= times[j]
  }

  lemma {:induction false} NextCoversAdmitted(times: seq<real>, i: nat)
    requires Monotone(times) && i < |times| && AdmittedAt(times, i)
    ensures NextAttempt(times).Some? && NextAttempt(times).value >= times[i] + ATTEMPT_SECONDS
  {
    var init := times[..|times| - 1];
    if i < |times| - 1 {
      assert init[..i] == times[..i];
      NextCoversAdmitted(init, i);
    }
  }

  /** Whatever the clients do, admitted attempts are two seconds apart. */
  lemma AttemptsAreSpaced(times: seq<real>, i: nat, j: nat)
    requires Monotone(times) && i < j < |times| && AdmittedAt(times, i) && AdmittedAt(times, j)
    ensures times[j] - times[i] >= ATTEMPT_SECONDS
  {
    assert times[..j][..i] == times[..i];
    NextCoversAdmitted(times[..j], i);
  }

  /** And an attempt is admitted exactly when no admitted one was less than two seconds before it. */
  lemma {:induction false} AdmittedIff(times: seq<real>, i: nat)
    requires i < |times|
    ensures AdmittedAt(times, i) <==> forall j: nat | j < i && AdmittedAt(times, j) :: times[i] >= times[j] + 2.0
  {
    NextIsLast(times[..i]);
    forall j: nat | j < i
      ensures AdmittedAt(times[..i], j) <==> AdmittedAt(times, j)
    {
      assert times[..i][..j] == times[..j];
    }
    if NextAttempt(times[..i]).Some? {
      var j: nat :| j < i && AdmittedAt(times[..i], j) && NextAttempt(times[..i]) == Some(times[j] + 2.0);
      assert AdmittedAt(times, j);
    }
  }

  /** The next attempt is two seconds after the last admitted one, and so after every admitted one. */
  lemma {:induction false} NextIsLast(times: seq<real>)
    ensures NextAttempt(times).None? ==> forall j: nat | j < |times| :: !AdmittedAt(times, j)
    ensures NextAttempt(times).Some? ==>
              && (exists j: nat | j < |times| :: AdmittedAt(times, j) && NextAttempt(times) == Some(times[j] + 2.0))
              && forall j: nat | j < |times| && AdmittedAt(times, j) :: NextAttempt(times).value >= times[j] + 2.0
  {
    if times != [] {
      var init, n := times[..|times| - 1], |times| - 1;
      NextIsLast(init);
      forall j: nat | j < n
        ensures AdmittedAt(init, j) <==> AdmittedAt(times, j)
      {
        assert init[..j] == times[..j];
      }
      if AdmittedAt(times, n) {
        assert NextAttempt(times) == Some(times[n] + 2.0);
      } else {
        var j: nat :| j < n && AdmittedAt(init, j) && NextAttempt(init) == Some(init[j] + 2.0);
        assert AdmittedAt(times, j) && NextAttempt(times) == Some(times[j] + 2.0);
      }
    }
  }

  class Limiter {
    var next: Option<real>
    ghost var times: seq<real>

    ghost predicate Valid()
      reads this
    {
      next == NextAttempt(times)
    }

    constructor ()
      ensures Valid() && times == []
    {
      next, times := None, [];
    }

    /** Zero admits the attempt; otherwise the answer is a whole number of seconds, at least one,
        after which an attempt would be admitted, and not a second more than needed. */
    method RetryAfter(now: real) returns (seconds: nat)
      requires Valid()
      modifies this
      ensures Valid() && times == old(times) + [now]
      ensures seconds == 0 <==> AdmittedAt(times, |times| - 1)
      ensures seconds > 0 ==> Admitted(next, now + seconds as real)
      ensures seconds > 1 ==> !Admitted(next, now + (seconds - 1) as real)
    {
      ghost var after := times + [now];
      assert after[..|after| - 1] == times;
      times := after;
      if next.Some? && now < next.value {
        var wait := next.value - now;
        var ceiling := -((-wait).Floor);
        return Max(1, ceiling);
      }
      next := Some(now + ATTEMPT_SECONDS);
      return 0;
    }
  }
}
