// What each event and each answer does to the sign-in, stated on the steps of the machine
// (frontend/services/authSession.ts:41-219).
module SignInSteps {
  import opened Common
  import opened AuthSession

  /** Exactly one continuation was added to `rest`, that of `tab`. */
  ghost predicate Adds(
    rest: map<nat, (nat, Continuation)>, tab: nat, c: Continuation, after: map<nat, (nat, Continuation)>)
  {
    exists ref: nat :: ref !in rest && after == rest[ref := (tab, c)]
  }

  /** The step changes this tab only, and leaves the storage alone. */
  ghost predicate Only(w: World, tab: nat, w': World) {
    && tab in w.tabs && tab in w'.tabs && w'.tabs == w.tabs[tab := w'.tabs[tab]] && w'.storage == w.storage
  }

  /** The step resumes this continuation, which is of the tab's current generation. */
  ghost predicate Resumes(w: World, ref: nat, tab: nat, c: Continuation) {
    ref in w.pending && w.pending[ref] == (tab, c) && tab in w.tabs && w.tabs[tab].generation == c.generation
  }

  // ----- signing in -----

  /** A login starts exactly from `signedOut`, not before the time the server asked for, in a new generation;
      without a secure context it ends at once. */
  lemma LoginStartsIff(w: World, tab: nat, secure: bool, now: int, w': World)
    requires Next(w, LoginClick(tab, secure, now), w')
    ensures Only(w, tab, w')
    ensures var t, t' := w.tabs[tab], w'.tabs[tab];
            var starts := t.phase.SignedOut? && now >= t.retryAt;
            && (!starts ==> w' == w)
            && (starts ==> t'.generation == t.generation + 1 && t'.token.None?)
            && (starts && secure ==>
                  t'.phase.Verifying? && Adds(w.pending, tab, AwaitDigest(t'.generation), w'.pending))
            && (starts && !secure ==> t'.phase.SignedOut? && t'.retryAt == 0 && w'.pending == w.pending)
  {
  }

  /** The digest is followed by the request, its failure by `signedOut`. */
  lemma DigestIsSent(w: World, ref: nat, ok: bool, tab: nat, c: Continuation, w': World)
    requires Next(w, ResumeDigest(ref, ok), w') && Resumes(w, ref, tab, c)
    ensures Only(w, tab, w') && w'.tabs[tab].generation == w.tabs[tab].generation
    ensures ok ==> w'.tabs == w.tabs && Adds(w.pending - {ref}, tab, AwaitLogin(c.generation), w'.pending)
    ensures !ok ==> w'.tabs[tab].phase.SignedOut? && w'.tabs[tab].retryAt == 0 && w'.pending == w.pending - {ref}
  {
  }

  /** An issued token is kept, in phase `persist`, and storing it begins where locks exist; a refused login
      ends in `signedOut` with the time the server asked for. */
  lemma IssuedTokenIsKept(w: World, ref: nat, login: LoginAnswer, locks: bool, tab: nat, c: Continuation, w': World)
    requires Next(w, ResumeLogin(ref, login, locks), w') && Resumes(w, ref, tab, c)
    ensures Only(w, tab, w') && w'.tabs[tab].generation == w.tabs[tab].generation
    ensures login.Issued? ==> w'.tabs[tab].phase.Persist? && w'.tabs[tab].token == Some(login.token)
    ensures login.Issued? && locks ==>
              Adds(w.pending - {ref}, tab, AwaitPersist(c.generation, login.token), w'.pending)
    ensures login.Issued? && !locks ==> w'.pending == w.pending - {ref}
    ensures login.LoginFailed? ==>
              && w'.tabs[tab].phase.SignedOut? && w'.tabs[tab].retryAt == login.retryAt
              && w'.pending == w.pending - {ref}
  {
  }

  /** The section stores the token and signs in exactly when it is still wanted, could be stored and reads
      back; what was written stays written, and nothing is written once it is not wanted. */
  lemma PersistSignsInIff(w: World, ref: nat, write: Write, w': World)
    requires Inv(w) && Next(w, PersistSection(ref, write), w')
    ensures var tab, c := w.pending[ref].0, w.pending[ref].1;
            var t := w.tabs[tab];
            var wanted := t.phase.Persist? && t.generation == c.generation;
            && w'.pending == w.pending - {ref} && tab in w'.tabs
            && w'.storage == (if wanted && write.Done? && write.stores then Some(c.token) else w.storage)
            && (w'.tabs[tab].phase.Authenticated? <==>
                  || t.phase.Authenticated?
                  || (wanted && write.Done? && write.answers && w'.storage == Some(c.token)))
            && w'.tabs[tab].token == t.token && w'.tabs[tab].generation == t.generation
  {
    assert TabInv(w.pending[ref].0, w.tabs[w.pending[ref].0], w.confirmed, w.issued);
  }

  // ----- taking over what is stored -----

  /** The stored token is taken over in a new generation and verified, unless it is too early; without one,
      or when it cannot be read, the tab is signed out. */
  ghost predicate TakesOver(w: World, tab: nat, readable: bool, now: int, w': World) {
    && Only(w, tab, w') && w'.tabs[tab].generation > w.tabs[tab].generation
    && var t', stored := w'.tabs[tab], if readable then w.storage else None;
       && t'.token == stored
       && (stored.None? ==> t'.phase.SignedOut? && w'.pending == w.pending)
       && (stored.Some? && now < w.tabs[tab].retryAt ==> t'.phase.Retry? && w'.pending == w.pending)
       && (stored.Some? && now >= w.tabs[tab].retryAt ==>
             t'.phase.Verifying? && Adds(w.pending, tab, AwaitVerify(t'.generation, stored.value), w'.pending))
  }

  lemma BootTakesOver(w: World, tab: nat, readable: bool, now: int, w': World)
    requires Next(w, Boot(tab, readable, now), w')
    ensures TakesOver(w, tab, readable, now, w')
  {
  }

  /** So does another tab's change, exactly when it is not this tab's own token. */
  lemma StorageEventTakesOverIff(w: World, tab: nat, readable: bool, cleared: bool, now: int, w': World)
    requires Next(w, StorageEvent(tab, readable, cleared, now), w')
    ensures if readable && w.storage.Some? && w.storage == w.tabs[tab].token && !cleared then w' == w
            else TakesOver(w, tab, readable, now, w')
  {
  }

  /** A retry verifies the same token in a new generation, exactly when there is one and it is time. */
  lemma RetryVerifiesIff(w: World, tab: nat, now: int, w': World)
    requires Next(w, RetryClick(tab, now), w')
    ensures Only(w, tab, w')
    ensures var t, t' := w.tabs[tab], w'.tabs[tab];
            if t.token.Some? && now >= t.retryAt then
              && t'.phase.Verifying? && t'.generation == t.generation + 1 && t'.token == t.token
              && Adds(w.pending, tab, AwaitVerify(t'.generation, t.token.value), w'.pending)
            else w' == w
  {
  }

  /** A verified token is signed in; an unreachable server leaves it for a retry. */
  lemma VerifiedIsSignedIn(w: World, ref: nat, verify: VerifyAnswer, locks: bool, tab: nat, c: Continuation, w': World)
    requires Next(w, ResumeVerify(ref, verify, locks), w') && Resumes(w, ref, tab, c) && !verify.Invalid?
    ensures Only(w, tab, w') && w'.pending == w.pending - {ref}
    ensures w'.tabs[tab].token == w.tabs[tab].token && w'.tabs[tab].generation == w.tabs[tab].generation
    ensures verify.Valid? ==> w'.tabs[tab].phase.Authenticated?
    ensures verify.Unreachable? ==> w'.tabs[tab].phase.Retry? && w'.tabs[tab].retryAt == verify.retryAt
  {
  }

  /** A token that could not be stored can be used in this tab, or stored by another attempt. */
  lemma UnstoredTokenIsUsable(w: World, tab: nat, w': World)
    requires Inv(w) && Next(w, TemporaryClick(tab), w')
    ensures if w.tabs[tab].phase.Persist?
            then w' == w.(tabs := w.tabs[tab := w.tabs[tab].(phase := Authenticated, temporary := true)])
            else w' == w
  {
    assert TabInv(tab, w.tabs[tab], w.confirmed, w.issued);
  }

  lemma UnstoredTokenIsStored(w: World, tab: nat, locks: bool, w': World)
    requires Inv(w) && Next(w, PersistClick(tab, locks), w')
    ensures w'.tabs == w.tabs && w'.storage == w.storage
    ensures if w.tabs[tab].phase.Persist? && locks
            then Adds(w.pending, tab, AwaitPersist(w.tabs[tab].generation, w.tabs[tab].token.value), w'.pending)
            else w' == w
  {
    assert TabInv(tab, w.tabs[tab], w.confirmed, w.issued);
  }

  // ----- signing out -----

  /** The step signs the tab out of the token it holds, with locks at hand: a logout, a 401 of its current
      generation, or a verification of its current generation that finds the token invalid. */
  ghost predicate EndsSession(w: World, a: Step, tab: nat, token: nat) {
    && tab in w.tabs && w.tabs[tab].token == Some(token)
    && match a
       case LogoutClick(t, locks) => t == tab && locks
       case Rejected(t, generation, locks) => t == tab && generation == w.tabs[tab].generation && locks
       case ResumeVerify(ref, verify, locks) =>
         && verify.Invalid? && locks && ref in w.pending && w.pending[ref].0 == tab
         && w.pending[ref].1.generation == w.tabs[tab].generation
       case _ => false
  }

  /** What was suspended before the step and is not resumed by it. */
  function Rest(w: World, a: Step): map<nat, (nat, Continuation)> {
    if a.ResumeVerify? then w.pending - {a.ref} else w.pending
  }

  /** A sign-out clears the tab in a new generation and schedules the removal of its own token. */
  lemma SignOutSchedulesRemoval(w: World, a: Step, w': World, tab: nat, token: nat)
    requires Next(w, a, w') && EndsSession(w, a, tab, token)
    ensures Only(w, tab, w') && w'.tabs[tab].phase.SignedOut? && w'.tabs[tab].token.None?
    ensures w'.tabs[tab].generation == w.tabs[tab].generation + 1
    ensures Adds(Rest(w, a), tab, AwaitRemoval(w'.tabs[tab].generation, token), w'.pending)
  {
  }

  /** The removal takes the token out of the storage exactly when it is the one there and the tab has not
      moved on. */
  lemma RemovalRemovesIff(w: World, ref: nat, w': World)
    requires Next(w, RemovalSection(ref), w')
    ensures w'.tabs == w.tabs && w'.pending == w.pending - {ref}
    ensures var tab, c := w.pending[ref].0, w.pending[ref].1;
            w'.storage == if w.tabs[tab].generation == c.generation && w.storage == Some(c.token) then None
                          else w.storage
  {
  }

  ghost predicate IsPending(w: World, ref: nat, tab: nat, generation: nat, token: nat) {
    ref in w.pending && w.pending[ref] == (tab, AwaitRemoval(generation, token))
  }

  lemma RemovalWaitsStep(w: World, a: Step, w': World, ref: nat, tab: nat, generation: nat, token: nat)
    requires Next(w, a, w') && IsPending(w, ref, tab, generation, token) && a != RemovalSection(ref)
    ensures IsPending(w', ref, tab, generation, token)
  {
  }

  /** A scheduled removal waits until it runs. */
  lemma {:induction false} RemovalWaits(
    states: seq<World>, steps: seq<Step>, i: nat, j: nat, ref: nat, tab: nat, generation: nat, token: nat)
    requires IsRun(states, steps) && i <= j < |states| && IsPending(states[i], ref, tab, generation, token)
    requires forall k | i <= k < j :: steps[k] != RemovalSection(ref)
    ensures IsPending(states[j], ref, tab, generation, token)
  {
    if i < j {
      RemovalWaits(states, steps, i, j - 1, ref, tab, generation, token);
      RemovalWaitsStep(states[j - 1], steps[j - 1], states[j], ref, tab, generation, token);
    }
  }

  /** After every sign-out with locks there is a removal that waits for its turn; when it runs and the tab has
      not begun another generation, the token it signed out of is not in the storage any more, whatever
      happened in between. */
  lemma SignOutRemovesToken(states: seq<World>, steps: seq<Step>, i: nat, tab: nat, token: nat) returns (ref: nat)
    requires IsRun(states, steps) && i < |steps| && EndsSession(states[i], steps[i], tab, token)
    ensures tab in states[i + 1].tabs
    ensures forall j | i < j < |steps| && forall k | i < k < j :: steps[k] != RemovalSection(ref) ::
              IsPending(states[j], ref, tab, states[i + 1].tabs[tab].generation, token)
    ensures forall j | i < j < |steps| && steps[j] == RemovalSection(ref)
                       && (forall k | i < k < j :: steps[k] != RemovalSection(ref))
                       && tab in states[j].tabs
                       && states[j].tabs[tab].generation == states[i + 1].tabs[tab].generation ::
              states[j + 1].storage != Some(token)
  {
    var w, w' := states[i], states[i + 1];
    SignOutSchedulesRemoval(w, steps[i], w', tab, token);
    var generation := w'.tabs[tab].generation;
    ref :| ref !in Rest(w, steps[i]) && w'.pending == Rest(w, steps[i])[ref := (tab, AwaitRemoval(generation, token))];
    forall j | i < j < |steps| && forall k | i < k < j :: steps[k] != RemovalSection(ref)
      ensures IsPending(states[j], ref, tab, generation, token)
    {
      RemovalWaits(states, steps, i + 1, j, ref, tab, generation, token);
    }
    forall j | i < j < |steps| && steps[j] == RemovalSection(ref)
               && (forall k | i < k < j :: steps[k] != RemovalSection(ref))
               && tab in states[j].tabs && states[j].tabs[tab].generation == generation
      ensures states[j + 1].storage != Some(token)
    {
      RemovalRemovesIff(states[j], ref, states[j + 1]);
    }
  }

  /** So an undisturbed sign-out ends with the token gone, and the next start of any tab is signed out. */
  lemma UndisturbedSignOut(w: World, a: Step, v: World, ref: nat, u: World, tab: nat, token: nat)
    requires Next(w, a, v) && EndsSession(w, a, tab, token) && w.storage == Some(token)
    requires ref !in Rest(w, a) && ref in v.pending && Next(v, RemovalSection(ref), u)
    ensures u.storage.None?
    ensures forall other: nat, now, u' | Next(u, Boot(other, true, now), u') ::
              u'.tabs[other].phase.SignedOut? && u'.tabs[other].token.None?
  {
    SignOutSchedulesRemoval(w, a, v, tab, token);
    RemovalRemovesIff(v, ref, u);
    forall other: nat, now, u' | Next(u, Boot(other, true, now), u')
      ensures u'.tabs[other].phase.SignedOut? && u'.tabs[other].token.None?
    {
      BootTakesOver(u, other, true, now, u');
    }
  }
}
