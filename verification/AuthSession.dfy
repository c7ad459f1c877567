// The browser's sign-in state: one generation-guarded state per tab, and one storage slot that
// all tabs of the origin share (frontend/services/authSession.ts).
module AuthSession {
  import opened Common
  import AccountSession

  datatype Phase = Loading | SignedOut | Verifying | Retry | Persist | Authenticated

  /** The module variables `state` and `token` of one tab. */
  datatype Tab = Tab(phase: Phase, generation: nat, token: Option<nat>, retryAt: int, temporary: bool)

  const INITIAL := Tab(Loading, 0, None, 0, false)

  /** A suspended async function, with the generation and token it captured. */
  datatype Continuation =
    | AwaitDigest(generation: nat)
    | AwaitLogin(generation: nat)
    | AwaitVerify(generation: nat, token: nat)
    | AwaitPersist(generation: nat, token: nat)
    | AwaitRemoval(generation: nat, token: nat)

  datatype LoginAnswer = Issued(token: nat) | LoginFailed(retryAt: int)
  datatype VerifyAnswer = Valid | Invalid | Unreachable(retryAt: int)

  // ----- the synchronous segments -----

  function Replace(t: Tab, token: Option<nat>, phase: Phase): Tab {
    Tab(phase, t.generation + 1, token, t.retryAt, false)
  }

  function StartVerify(t: Tab, now: int): (Tab, Option<Continuation>) {
    if t.token.None? || now < t.retryAt then (t, None)
    else
      var u := Replace(t, t.token, Verifying);
      (u, Some(AwaitVerify(u.generation, t.token.value)))
  }

  /** Taking over what storage holds, on start-up or after another tab changed it. */
  function Adopt(t: Tab, stored: Option<nat>, now: int): (Tab, Option<Continuation>) {
    var u := Replace(t, stored, if stored.Some? then Retry else SignedOut);
    if stored.Some? then StartVerify(u, now) else (u, None)
  }

  function Bootstrap(t: Tab, stored: Option<nat>, readable: bool, now: int): (Tab, Option<Continuation>) {
    if readable then Adopt(t, stored, now) else (Replace(t, None, SignedOut), None)
  }

  function OnStorage(t: Tab, stored: Option<nat>, readable: bool, cleared: bool, now: int)
    : (Tab, Option<Continuation>)
  {
    if !readable then (Replace(t, None, SignedOut), None)
    else if stored.Some? && stored == t.token && !cleared then (t, None)
    else Adopt(t, stored, now)
  }

  function StartLogin(t: Tab, secure: bool, now: int): (Tab, Option<Continuation>) {
    if !t.phase.SignedOut? || now < t.retryAt then (t, None)
    else
      var u := Replace(t, None, Verifying);
      if secure then (u, Some(AwaitDigest(u.generation))) else (u.(phase := SignedOut, retryAt := 0), None)
  }

  function DigestDone(t: Tab, generation: nat, ok: bool): (Tab, Option<Continuation>) {
    if generation != t.generation then (t, None)
    else if ok then (t, Some(AwaitLogin(generation)))
    else (t.(phase := SignedOut, retryAt := 0), None)
  }

  function StartPersist(t: Tab, locks: bool): (Tab, Option<Continuation>) {
    if t.token.None? || !t.phase.Persist? || !locks then (t, None)
    else (t, Some(AwaitPersist(t.generation, t.token.value)))
  }

  function LoginDone(t: Tab, generation: nat, answer: LoginAnswer, locks: bool): (Tab, Option<Continuation>) {
    if generation != t.generation then (t, None)
    else match answer
      case Issued(token) => StartPersist(t.(token := Some(token), phase := Persist), locks)
      case LoginFailed(retryAt) => (t.(phase := SignedOut, retryAt := retryAt), None)
  }

  function SignOut(t: Tab, locks: bool): (Tab, Option<Continuation>) {
    var u := Replace(t, None, SignedOut);
    (u, if t.token.Some? && locks then Some(AwaitRemoval(u.generation, t.token.value)) else None)
  }

  function Unauthorized(t: Tab, generation: nat, locks: bool): (Tab, Option<Continuation>) {
    if generation != t.generation then (t, None) else SignOut(t, locks)
  }

  function VerifyDone(t: Tab, generation: nat, answer: VerifyAnswer, locks: bool): (Tab, Option<Continuation>) {
    if generation != t.generation then (t, None)
    else match answer
      case Valid => (t.(phase := Authenticated), None)
      case Invalid => Unauthorized(t, generation, locks)
      case Unreachable(retryAt) => (t.(phase := Retry, retryAt := retryAt), None)
  }

  function UseTemporary(t: Tab): Tab {
    if t.phase.Persist? && t.token.Some? then t.(phase := Authenticated, temporary := true) else t
  }

  /** What storage does in the lock-held section of `persist`: setItem raises, or it stores the value or
      is ignored by the browser, and then reading back answers or raises. */
  datatype Write = Raises | Done(stores: bool, answers: bool)

  /** The lock-held section of `persist`: the read-back decides. */
  function PersistLocked(t: Tab, generation: nat, token: nat, write: Write, storage: Option<nat>): (Tab, Option<nat>) {
    if generation != t.generation || !t.phase.Persist? || write.Raises? then (t, storage)
    else
      var after := if write.stores then Some(token) else storage;
      (if write.answers && after == Some(token) then t.(phase := Authenticated) else t, after)
  }

  /** The lock-held section of `removeStoredToken`. */
  function RemovalLocked(t: Tab, generation: nat, token: nat, storage: Option<nat>): Option<nat> {
    if generation == t.generation && storage == Some(token) then None else storage
  }

  // ----- many tabs, one storage slot -----

  datatype World = World(
    tabs: map<nat, Tab>,
    /** Suspended continuations: the tab that owns each, and what it captured. */
    pending: map<nat, (nat, Continuation)>,
    storage: Option<nat>,
    /** History: (tab, generation, token) confirmed by the server or issued by a login, and the
        tokens that each tab held when it signed out. */
    confirmed: set<(nat, nat, nat)>,
    issued: set<(nat, nat, nat)>,
    signedOut: set<(nat, nat)>)

  datatype Step =
    | Boot(tab: nat, readable: bool, now: int)
    | StorageEvent(tab: nat, readable: bool, cleared: bool, now: int)
    | RetryClick(tab: nat, now: int)
    | LoginClick(tab: nat, secure: bool, now: int)
    | PersistClick(tab: nat, locks: bool)
    | TemporaryClick(tab: nat)
    | LogoutClick(tab: nat, locks: bool)
    | Rejected(tab: nat, generation: nat, locks: bool)
    | ResumeDigest(ref: nat, ok: bool)
    | ResumeLogin(ref: nat, login: LoginAnswer, locks: bool)
    | ResumeVerify(ref: nat, verify: VerifyAnswer, locks: bool)
    | PersistSection(ref: nat, write: Write)
    | RemovalSection(ref: nat)
    | Outside(value: Option<nat>)

  ghost predicate Init(w: World) {
    && (forall t | t in w.tabs :: w.tabs[t] == INITIAL)
    && w.pending == map[] && w.confirmed == {} && w.issued == {} && w.signedOut == {}
  }

  predicate Starts(a: Step) {
    a.Boot? || a.StorageEvent? || a.RetryClick? || a.LoginClick? || a.PersistClick? || a.TemporaryClick?
    || a.LogoutClick? || a.Rejected?
  }

  /** The state and continuation an event handler leaves. */
  function Handle(t: Tab, storage: Option<nat>, a: Step): (Tab, Option<Continuation>)
    requires Starts(a)
  {
    match a
    case Boot(_, readable, now) => Bootstrap(t, storage, readable, now)
    case StorageEvent(_, readable, cleared, now) => OnStorage(t, storage, readable, cleared, now)
    case RetryClick(_, now) => StartVerify(t, now)
    case LoginClick(_, secure, now) => StartLogin(t, secure, now)
    case PersistClick(_, locks) => StartPersist(t, locks)
    case TemporaryClick(_) => (UseTemporary(t), None)
    case LogoutClick(_, locks) => SignOut(t, locks)
    case Rejected(_, generation, locks) => Unauthorized(t, generation, locks)
  }

  /** The state and continuation a resumed network continuation leaves. */
  function Resume(t: Tab, c: Continuation, a: Step): (Tab, Option<Continuation>)
    requires a.ResumeDigest? || a.ResumeLogin? || a.ResumeVerify?
  {
    match a
    case ResumeDigest(_, ok) => DigestDone(t, c.generation, ok)
    case ResumeLogin(_, login, locks) => LoginDone(t, c.generation, login, locks)
    case ResumeVerify(_, verify, locks) => VerifyDone(t, c.generation, verify, locks)
  }

  predicate Fits(c: Continuation, a: Step) {
    || (a.ResumeDigest? && c.AwaitDigest?) || (a.ResumeLogin? && c.AwaitLogin?) || (a.ResumeVerify? && c.AwaitVerify?)
  }

  ghost predicate Suspends(rest: map<nat, (nat, Continuation)>, tab: nat, c: Continuation,
                           after: map<nat, (nat, Continuation)>)
  {
    exists ref: nat | ref !in rest :: after == rest[ref := (tab, c)]
  }

  predicate SignsOut(a: Step) {
    a.LogoutClick? || a.Rejected? || (a.ResumeVerify? && a.verify.Invalid?)
  }

  /** The token that a tab holds as it signs out. */
  function GivenUp(tab: nat, t: Tab, a: Step, t': Tab): set<(nat, nat)> {
    if SignsOut(a) && t.token.Some? && t'.generation > t.generation && t'.phase.SignedOut? then {(tab, t.token.value)}
    else {}
  }

  /** A tab moves on and possibly suspends: the histories follow from the change of the tab. */
  ghost predicate Moves(
    w: World, tab: nat, rest: map<nat, (nat, Continuation)>, a: Step, t': Tab, c: Option<Continuation>, w': World)
    requires tab in w.tabs
  {
    && w'.tabs == w.tabs[tab := t']
    && w'.storage == w.storage
    && (if c.None? then w'.pending == rest else Suspends(rest, tab, c.value, w'.pending))
    && w'.confirmed == w.confirmed
    && w'.issued == w.issued
    && w'.signedOut == w.signedOut + GivenUp(tab, w.tabs[tab], a, t')
  }

  ghost predicate Next(w: World, a: Step, w': World) {
    if Starts(a) then
      && a.tab in w.tabs
      && var (t', c) := Handle(w.tabs[a.tab], w.storage, a);
         Moves(w, a.tab, w.pending, a, t', c, w')
    else if a.Outside? then
      w' == w.(storage := a.value)
    else
      && a.ref in w.pending && w.pending[a.ref].0 in w.tabs
      && var (tab, c) := w.pending[a.ref];
         var rest := w.pending - {a.ref};
         if a.PersistSection? then
           && c.AwaitPersist?
           && var (t', storage) := PersistLocked(w.tabs[tab], c.generation, c.token, a.write, w.storage);
              w' == w.(tabs := w.tabs[tab := t'], pending := rest, storage := storage)
         else if a.RemovalSection? then
           && c.AwaitRemoval?
           && w' == w.(pending := rest, storage := RemovalLocked(w.tabs[tab], c.generation, c.token, w.storage))
         else
           && Fits(c, a)
           && var (t', c') := Resume(w.tabs[tab], c, a);
              Moves(w.(confirmed := w.confirmed + Confirmation(tab, c, a), issued := w.issued + Issue(tab, c, a)),
                    tab, rest, a, t', c', w')
  }

  function Confirmation(tab: nat, c: Continuation, a: Step): set<(nat, nat, nat)> {
    if a.ResumeVerify? && a.verify.Valid? && c.AwaitVerify? then {(tab, c.generation, c.token)} else {}
  }

  function Issue(tab: nat, c: Continuation, a: Step): set<(nat, nat, nat)> {
    if a.ResumeLogin? && a.login.Issued? then {(tab, c.generation, a.login.token)} else {}
  }

  ghost predicate IsRun(states: seq<World>, steps: seq<Step>) {
    && |states| == |steps| + 1
    && Init(states[0])
    && forall i | 0 <= i < |steps| :: Next(states[i], steps[i], states[i + 1])
  }

  // ----- what every interleaving keeps -----

  /** What a tab's phase says about its token, given the histories. */
  ghost predicate TabInv(tab: nat, t: Tab, confirmed: set<(nat, nat, nat)>, issued: set<(nat, nat, nat)>) {
    && (t.phase.Loading? || t.phase.SignedOut? ==> t.token.None?)
    && (t.phase.Retry? || t.phase.Persist? || t.phase.Authenticated? ==> t.token.Some?)
    && (t.phase.Persist? ==> (tab, t.generation, t.token.value) in issued)
    && (t.phase.Authenticated? ==> (tab, t.generation, t.token.value) in confirmed + issued)
  }

  predicate Network(c: Continuation) {
    c.AwaitDigest? || c.AwaitLogin? || c.AwaitVerify?
  }

  /** What a continuation may rely on while its generation is current. */
  ghost predicate PendingInv(t: Tab, c: Continuation) {
    && c.generation <= t.generation
    && (c.generation == t.generation ==>
          match c
          case AwaitDigest(_) => t.phase.Verifying? && t.token.None?
          case AwaitLogin(_) => t.phase.Verifying? && t.token.None?
          case AwaitVerify(_, token) => t.phase.Verifying? && t.token == Some(token)
          case AwaitPersist(_, token) => (t.phase.Persist? || t.phase.Authenticated?) && t.token == Some(token)
          case AwaitRemoval(_, _) => t.phase.SignedOut?)
  }

  ghost predicate TabsInv(tabs: map<nat, Tab>, confirmed: set<(nat, nat, nat)>, issued: set<(nat, nat, nat)>) {
    forall tab | tab in tabs :: TabInv(tab, tabs[tab], confirmed, issued)
  }

  predicate Current(tabs: map<nat, Tab>, p: (nat, Continuation)) {
    p.0 in tabs && p.1.generation == tabs[p.0].generation
  }

  ghost predicate PendingsInv(tabs: map<nat, Tab>, pending: map<nat, (nat, Continuation)>) {
    forall r | r in pending :: pending[r].0 in tabs && PendingInv(tabs[pending[r].0], pending[r].1)
  }

  /** A tab has at most one network continuation of its current generation. */
  ghost predicate OneRequest(tabs: map<nat, Tab>, pending: map<nat, (nat, Continuation)>) {
    forall r, s | r in pending && s in pending && pending[r].0 == pending[s].0
                && Network(pending[r].1) && Network(pending[s].1)
                && Current(tabs, pending[r]) && Current(tabs, pending[s]) :: r == s
  }

  ghost predicate RemovalsInv(pending: map<nat, (nat, Continuation)>, signedOut: set<(nat, nat)>) {
    forall r | r in pending && pending[r].1.AwaitRemoval? :: (pending[r].0, pending[r].1.token) in signedOut
  }

  ghost predicate Inv(w: World) {
    && TabsInv(w.tabs, w.confirmed, w.issued)
    && PendingsInv(w.tabs, w.pending)
    && OneRequest(w.tabs, w.pending)
    && RemovalsInv(w.pending, w.signedOut)
  }

  // ----- one tab -----

  /** How an event handler may change a tab: a new generation, or the step from persist to
      authenticated with the same token. */
  predicate Handled(t: Tab, t': Tab) {
    || t'.generation > t.generation
    || t' == t
    || (t'.generation == t.generation && t.phase.Persist? && t'.phase.Authenticated? && t'.token == t.token)
  }

  lemma HandleKeepsTab(tab: nat, t: Tab, storage: Option<nat>, a: Step,
                       confirmed: set<(nat, nat, nat)>, issued: set<(nat, nat, nat)>)
    requires Starts(a) && TabInv(tab, t, confirmed, issued)
    ensures var (t', c) := Handle(t, storage, a);
            && TabInv(tab, t', confirmed, issued) && Handled(t, t')
            && (c.Some? ==> PendingInv(t', c.value) && (Network(c.value) ==> t'.generation > t.generation))
            && (c.Some? && c.value.AwaitRemoval? ==> GivenUp(tab, t, a, t') == {(tab, c.value.token)})
  {
  }

  /** A continuation whose generation is over changes nothing. */
  lemma StaleResumes(t: Tab, c: Continuation, a: Step)
    requires Fits(c, a) && c.generation != t.generation
    ensures Resume(t, c, a) == (t, None)
  {
  }

  lemma ResumeKeepsTab(tab: nat, t: Tab, c: Continuation, a: Step,
                       confirmed: set<(nat, nat, nat)>, issued: set<(nat, nat, nat)>)
    requires Fits(c, a) && TabInv(tab, t, confirmed, issued) && PendingInv(t, c)
    ensures var (t', c') := Resume(t, c, a);
            && TabInv(tab, t', confirmed + Confirmation(tab, c, a), issued + Issue(tab, c, a))
            && t'.generation >= t.generation
            && (c'.Some? ==> PendingInv(t', c'.value))
            && (c'.Some? && Network(c'.value) ==> c'.value.generation == t'.generation == c.generation == t.generation)
            && (c'.Some? && c'.value.AwaitRemoval? ==> GivenUp(tab, t, a, t') == {(tab, c'.value.token)})
  {
    if c.generation != t.generation {
      StaleResumes(t, c, a);
    }
  }

  // ----- the world -----

  /** While a network continuation of a tab is current, the tab's other ones are stale. */
  lemma OthersAreStale(w: World, r: nat, s: nat)
    requires PendingsInv(w.tabs, w.pending) && OneRequest(w.tabs, w.pending)
    requires r in w.pending && s in w.pending && r != s && w.pending[r].0 == w.pending[s].0
    requires Network(w.pending[r].1) && Current(w.tabs, w.pending[r])
    ensures w.pending[s].1.generation < w.tabs[w.pending[s].0].generation
  {
    assert PendingInv(w.tabs[w.pending[r].0], w.pending[r].1);
    assert PendingInv(w.tabs[w.pending[s].0], w.pending[s].1);
  }

  lemma OthersStayValid(t: Tab, t': Tab, c: Continuation)
    requires PendingInv(t, c) && Handled(t, t')
    ensures PendingInv(t', c)
  {
  }

  lemma SuspendKeepsPendings(
    tabs: map<nat, Tab>, rest: map<nat, (nat, Continuation)>, ref: nat, tab: nat, c: Continuation,
    signedOut: set<(nat, nat)>)
    requires PendingsInv(tabs, rest) && RemovalsInv(rest, signedOut) && tab in tabs && PendingInv(tabs[tab], c)
    requires c.AwaitRemoval? ==> (tab, c.token) in signedOut
    ensures PendingsInv(tabs, rest[ref := (tab, c)]) && RemovalsInv(rest[ref := (tab, c)], signedOut)
  {
  }

  lemma SuspendKeepsRequests(
    tabs: map<nat, Tab>, rest: map<nat, (nat, Continuation)>, ref: nat, tab: nat, c: Continuation)
    requires OneRequest(tabs, rest) && tab in tabs
    requires Network(c) ==>
               forall r | r in rest && rest[r].0 == tab && Network(rest[r].1) :: rest[r].1.generation != c.generation
    ensures OneRequest(tabs, rest[ref := (tab, c)])
  {
    var after := rest[ref := (tab, c)];
    forall r, s | r in after && s in after && after[r].0 == after[s].0 && Network(after[r].1) && Network(after[s].1)
                && Current(tabs, after[r]) && Current(tabs, after[s])
      ensures r == s
    {
      assert r != ref ==> r in rest && after[r] == rest[r];
      assert s != ref ==> s in rest && after[s] == rest[s];
    }
  }

  /** Moving one tab and suspending one continuation: what has to be shown about the rest. */
  lemma MovesKeeps(
    w: World, tab: nat, rest: map<nat, (nat, Continuation)>, a: Step, t': Tab, c: Option<Continuation>, w': World)
    requires tab in w.tabs && Moves(w, tab, rest, a, t', c, w')
    requires c.Some? && c.value.AwaitRemoval? ==> GivenUp(tab, w.tabs[tab], a, t') == {(tab, c.value.token)}
    requires forall u | u in w.tabs && u != tab :: TabInv(u, w.tabs[u], w.confirmed, w.issued)
    requires TabInv(tab, t', w.confirmed, w.issued)
    requires PendingsInv(w'.tabs, rest) && OneRequest(w'.tabs, rest) && RemovalsInv(rest, w.signedOut)
    requires c.Some? ==> PendingInv(t', c.value)
    requires c.Some? && Network(c.value) ==>
               forall r | r in rest && rest[r].0 == tab && Network(rest[r].1) ::
                 rest[r].1.generation != c.value.generation
    ensures Inv(w')
  {
    if c.Some? {
      var ref: nat :| ref !in rest && w'.pending == rest[ref := (tab, c.value)];
      SuspendKeepsPendings(w'.tabs, rest, ref, tab, c.value, w'.signedOut);
      SuspendKeepsRequests(w'.tabs, rest, ref, tab, c.value);
    }
  }

  lemma HandleKeeps(w: World, a: Step, w': World)
    requires Inv(w) && Starts(a) && Next(w, a, w')
    ensures Inv(w')
  {
    var t := w.tabs[a.tab];
    var (t', c) := Handle(t, w.storage, a);
    HandleKeepsTab(a.tab, t, w.storage, a, w.confirmed, w.issued);
    forall r | r in w.pending
      ensures w.pending[r].0 in w'.tabs && PendingInv(w'.tabs[w.pending[r].0], w.pending[r].1)
    {
      if w.pending[r].0 == a.tab {
        OthersStayValid(t, t', w.pending[r].1);
      }
    }
    RequestsStayUnique(w, a.tab, w.pending, t', w'.tabs);
    MovesKeeps(w, a.tab, w.pending, a, t', c, w');
  }

  /** Generations only grow, so a later state has no more current continuations. */
  lemma RequestsStayUnique(w: World, tab: nat, rest: map<nat, (nat, Continuation)>, t': Tab, tabs': map<nat, Tab>)
    requires PendingsInv(w.tabs, w.pending) && OneRequest(w.tabs, w.pending) && tab in w.tabs
    requires tabs' == w.tabs[tab := t'] && t'.generation >= w.tabs[tab].generation
    requires forall r | r in rest :: r in w.pending && rest[r] == w.pending[r]
    ensures OneRequest(tabs', rest)
  {
    forall r | r in rest && Current(tabs', rest[r])
      ensures Current(w.tabs, w.pending[r])
    {
      assert PendingInv(w.tabs[w.pending[r].0], w.pending[r].1);
    }
  }

  lemma ResumeKeeps(w: World, a: Step, w': World)
    requires Inv(w) && (a.ResumeDigest? || a.ResumeLogin? || a.ResumeVerify?) && Next(w, a, w')
    ensures Inv(w')
  {
    var (tab, c) := w.pending[a.ref];
    var t, rest := w.tabs[tab], w.pending - {a.ref};
    var (t', c') := Resume(t, c, a);
    ResumeKeepsTab(tab, t, c, a, w.confirmed, w.issued);
    var v := w.(confirmed := w.confirmed + Confirmation(tab, c, a), issued := w.issued + Issue(tab, c, a));
    HistoryGrows(w, v);
    RequestsStayUnique(w, tab, rest, t', w'.tabs);
    forall r | r in rest
      ensures rest[r].0 in w'.tabs && PendingInv(w'.tabs[rest[r].0], rest[r].1)
      ensures rest[r].0 == tab && Network(rest[r].1) && c'.Some? && Network(c'.value) ==>
                rest[r].1.generation != c'.value.generation
    {
      assert PendingInv(w.tabs[w.pending[r].0], w.pending[r].1);
      if rest[r].0 == tab {
        if c.generation == t.generation {
          OthersAreStale(w, a.ref, r);
        } else {
          StaleResumes(t, c, a);
        }
      }
    }
    MovesKeeps(v, tab, rest, a, t', c', w');
  }

  lemma HistoryGrows(w: World, v: World)
    requires TabsInv(w.tabs, w.confirmed, w.issued) && v.tabs == w.tabs
    requires w.confirmed <= v.confirmed && w.issued <= v.issued
    ensures TabsInv(v.tabs, v.confirmed, v.issued)
  {
  }

  lemma SectionKeeps(w: World, a: Step, w': World)
    requires Inv(w) && (a.PersistSection? || a.RemovalSection?) && Next(w, a, w')
    ensures Inv(w')
  {
    var (tab, c) := w.pending[a.ref];
    var t := w.tabs[tab];
    assert TabInv(tab, t, w.confirmed, w.issued);
    assert PendingInv(t, c);
    if a.PersistSection? {
      var t' := PersistLocked(t, c.generation, c.token, a.write, w.storage).0;
      forall r | r in w'.pending
        ensures PendingInv(w'.tabs[w'.pending[r].0], w'.pending[r].1)
      {
        assert PendingInv(w.tabs[w.pending[r].0], w.pending[r].1);
        if w.pending[r].0 == tab {
          OthersStayValid(t, t', w.pending[r].1);
        }
      }
      RequestsStayUnique(w, tab, w'.pending, t', w'.tabs);
    }
  }

  lemma StepKeeps(w: World, a: Step, w': World)
    requires Inv(w) && Next(w, a, w')
    ensures Inv(w')
  {
    if Starts(a) {
      HandleKeeps(w, a, w');
    } else if a.PersistSection? || a.RemovalSection? {
      SectionKeeps(w, a, w');
    } else if !a.Outside? {
      ResumeKeeps(w, a, w');
    }
  }

  lemma {:induction false} Always(states: seq<World>, steps: seq<Step>, k: nat)
    requires IsRun(states, steps) && k < |states|
    ensures Inv(states[k])
  {
    if k > 0 {
      Always(states, steps, k - 1);
      StepKeeps(states[k - 1], steps[k - 1], states[k]);
    }
  }

  // ----- theorems about one tab -----

  /** In every interleaving: who is shown as signed in has a token, which the server confirmed or
      a login issued in this very generation; who is signed out has none. */
  lemma TokenTheorem(states: seq<World>, steps: seq<Step>, k: nat, tab: nat)
    requires IsRun(states, steps) && k < |states| && tab in states[k].tabs
    ensures var w, t := states[k], states[k].tabs[tab];
            && (t.phase.Authenticated? || t.phase.Persist? || t.phase.Retry? ==> t.token.Some?)
            && (t.phase.SignedOut? ==> t.token.None?)
            && (t.phase.Authenticated? ==> (tab, t.generation, t.token.value) in w.confirmed + w.issued)
  {
    Always(states, steps, k);
  }

  predicate SameTicket(t: Tab, t': Tab) {
    t'.generation > t.generation || (t'.generation == t.generation && t'.phase.Authenticated? && t'.token == t.token)
  }

  lemma TicketStep(w: World, a: Step, w': World, tab: nat)
    requires Inv(w) && Next(w, a, w') && tab in w.tabs && w.tabs[tab].phase.Authenticated?
    ensures tab in w'.tabs && SameTicket(w.tabs[tab], w'.tabs[tab])
  {
    var t := w.tabs[tab];
    if Starts(a) {
      HandleKeepsTab(a.tab, w.tabs[a.tab], w.storage, a, w.confirmed, w.issued);
    } else if !a.Outside? {
      var (owner, c) := w.pending[a.ref];
      assert PendingInv(w.tabs[owner], c);
      if !a.PersistSection? && !a.RemovalSection? && owner == tab {
        StaleResumes(t, c, a);
      }
    }
  }

  lemma {:induction false} GenerationsGrow(states: seq<World>, steps: seq<Step>, i: nat, j: nat, tab: nat)
    requires IsRun(states, steps) && i <= j < |states| && tab in states[i].tabs
    ensures tab in states[j].tabs && states[j].tabs[tab].generation >= states[i].tabs[tab].generation
    ensures states[i].tabs[tab].phase.Authenticated? ==> SameTicket(states[i].tabs[tab], states[j].tabs[tab])
  {
    if i < j {
      GenerationsGrow(states, steps, i, j - 1, tab);
      Always(states, steps, j - 1);
      GenerationStep(states[j - 1], steps[j - 1], states[j], tab);
      if states[j - 1].tabs[tab].phase.Authenticated? {
        TicketStep(states[j - 1], steps[j - 1], states[j], tab);
      }
    }
  }

  lemma GenerationStep(w: World, a: Step, w': World, tab: nat)
    requires Inv(w) && Next(w, a, w') && tab in w.tabs
    ensures tab in w'.tabs && w'.tabs[tab].generation >= w.tabs[tab].generation
  {
    if Starts(a) {
      HandleKeepsTab(a.tab, w.tabs[a.tab], w.storage, a, w.confirmed, w.issued);
    } else if a.ResumeDigest? || a.ResumeLogin? || a.ResumeVerify? {
      var (owner, c) := w.pending[a.ref];
      assert PendingInv(w.tabs[owner], c);
      ResumeKeepsTab(owner, w.tabs[owner], c, a, w.confirmed, w.issued);
    }
  }

  /** A ticket captured while authenticated is current later exactly when no new generation has
      begun, and then it still carries the tab's token. */
  lemma TicketTheorem(states: seq<World>, steps: seq<Step>, i: nat, j: nat, tab: nat)
    requires IsRun(states, steps) && i <= j < |states| && tab in states[i].tabs
    requires states[i].tabs[tab].phase.Authenticated?
    ensures tab in states[j].tabs
    ensures var t, t' := states[i].tabs[tab], states[j].tabs[tab];
            && (t'.generation == t.generation && t'.phase.Authenticated? <==> t'.generation == t.generation)
            && (t'.generation == t.generation ==> t'.token == t.token)
  {
    GenerationsGrow(states, steps, i, j, tab);
  }

  // ----- theorems about shared storage -----

  /** A section that replaces the stored token: a tab commits its own, freshly issued token. */
  ghost predicate Commits(w: World, a: Step) {
    && a.PersistSection? && a.ref in w.pending && w.pending[a.ref].1.AwaitPersist?
    && var (tab, c) := w.pending[a.ref];
       && tab in w.tabs && w.tabs[tab].phase.Persist? && w.tabs[tab].generation == c.generation
       && w.tabs[tab].token == Some(c.token) && (tab, c.generation, c.token) in w.issued
  }

  /** A section that removes token `token`: a tab that owned it signed out and has not signed in since. */
  ghost predicate Withdraws(w: World, a: Step, token: nat) {
    && a.RemovalSection? && a.ref in w.pending && w.pending[a.ref].1.AwaitRemoval?
    && var (tab, c) := w.pending[a.ref];
       && c.token == token && (tab, token) in w.signedOut
       && tab in w.tabs && w.tabs[tab].phase.SignedOut? && w.tabs[tab].generation == c.generation
  }

  lemma StorageStep(w: World, a: Step, w': World)
    requires Inv(w) && Next(w, a, w') && w'.storage != w.storage
    ensures a.Outside? || Commits(w, a) || (w.storage.Some? && Withdraws(w, a, w.storage.value) && w'.storage.None?)
  {
    if a.PersistSection? || a.RemovalSection? {
      var (tab, c) := w.pending[a.ref];
      assert TabInv(tab, w.tabs[tab], w.confirmed, w.issued);
      assert PendingInv(w.tabs[tab], c);
    }
  }

  ghost predicate Replaced(states: seq<World>, steps: seq<Step>, k: nat, token: nat) {
    && k < |steps| && k < |states|
    && (steps[k].Outside? || Commits(states[k], steps[k]) || Withdraws(states[k], steps[k], token))
  }

  /** A stored token stays until some tab commits another, a tab that owned it signs out, or
      something outside the application changes the slot; sign-outs of other tokens, stale removals
      and rejected requests never remove it, whatever the number of tabs and the order of sections. */
  lemma {:induction false} StorageTheorem(states: seq<World>, steps: seq<Step>, i: nat, j: nat, token: nat)
    requires IsRun(states, steps) && i <= j < |states|
    requires states[i].storage == Some(token) && states[j].storage != Some(token)
    ensures exists k: nat | i <= k < j :: Replaced(states, steps, k, token)
    decreases j - i
  {
    Always(states, steps, j - 1);
    if states[j - 1].storage == Some(token) {
      StorageStep(states[j - 1], steps[j - 1], states[j]);
      assert Replaced(states, steps, j - 1, token);
    } else {
      StorageTheorem(states, steps, i, j - 1, token);
    }
  }

  // ----- the module's variables, changed in place -----

  /** The localStorage slot all tabs of the origin share. */
  class Slot {
    var value: Option<nat>

    constructor ()
      ensures value == None
    {
      value := None;
    }
  }

  /** Each new generation has cleared the account scope. */
  predicate ScopeFollows(g: nat, s: AccountSession.State, g': nat, s': AccountSession.State) {
    g <= g' && s' == AccountSession.Cleared(s, g' - g)
  }

  class Session {
    const slot: Slot
    const account: AccountSession.Session
    var phase: Phase
    var generation: nat
    var token: Option<nat>
    var retryAt: int
    var temporary: bool

    function View(): Tab
      reads this
    {
      Tab(phase, generation, token, retryAt, temporary)
    }

    constructor (slot: Slot, account: AccountSession.Session)
      ensures View() == INITIAL && this.slot == slot && this.account == account
    {
      this.slot, this.account := slot, account;
      phase, generation, token, retryAt, temporary := Loading, 0, None, 0, false;
    }

    method ReplaceToken(next: Option<nat>, newPhase: Phase) returns (current: nat)
      modifies this, account
      ensures View() == Replace(old(View()), next, newPhase) && current == generation
      ensures ScopeFollows(old(generation), old(account.View()), generation, account.View())
    {
      token := next;
      phase, generation, temporary := newPhase, generation + 1, false;
      account.ClearScope();
      return generation;
    }

    method Verify(now: int) returns (c: Option<Continuation>)
      modifies this, account
      ensures (View(), c) == StartVerify(old(View()), now)
      ensures ScopeFollows(old(generation), old(account.View()), generation, account.View())
    {
      if token.None? || now < retryAt {
        return None;
      }
      var current := ReplaceToken(token, Verifying);
      return Some(AwaitVerify(current, token.value));
    }

    method AdoptStored(stored: Option<nat>, now: int) returns (c: Option<Continuation>)
      modifies this, account
      ensures (View(), c) == Adopt(old(View()), stored, now)
      ensures ScopeFollows(old(generation), old(account.View()), generation, account.View())
    {
      var _ := ReplaceToken(stored, if stored.Some? then Retry else SignedOut);
      if stored.None? {
        return None;
      }
      c := Verify(now);
    }

    method OnStorageEvent(readable: bool, cleared: bool, now: int) returns (c: Option<Continuation>)
      modifies this, account
      ensures (View(), c) == OnStorage(old(View()), slot.value, readable, cleared, now)
      ensures ScopeFollows(old(generation), old(account.View()), generation, account.View())
    {
      if !readable {
        var _ := ReplaceToken(None, SignedOut);
        return None;
      }
      var stored := slot.value;
      if stored.Some? && stored == token && !cleared {
        return None;
      }
      c := AdoptStored(stored, now);
    }

    method Login(secure: bool, now: int) returns (c: Option<Continuation>)
      modifies this, account
      ensures (View(), c) == StartLogin(old(View()), secure, now)
      ensures ScopeFollows(old(generation), old(account.View()), generation, account.View())
    {
      if !phase.SignedOut? || now < retryAt {
        return None;
      }
      var current := ReplaceToken(None, Verifying);
      if !secure {
        phase, retryAt := SignedOut, 0;
        return None;
      }
      return Some(AwaitDigest(current));
    }

    method PersistToken(locks: bool) returns (c: Option<Continuation>)
      ensures (View(), c) == StartPersist(old(View()), locks)
    {
      if token.None? || !phase.Persist? || !locks {
        return None;
      }
      return Some(AwaitPersist(generation, token.value));
    }

    method FinishLogin(captured: nat, answer: LoginAnswer, locks: bool) returns (c: Option<Continuation>)
      modifies this
      ensures (View(), c) == LoginDone(old(View()), captured, answer, locks)
    {
      if captured != generation {
        return None;
      }
      match answer
      case Issued(issuedToken) =>
        token, phase := Some(issuedToken), Persist;
        c := PersistToken(locks);
      case LoginFailed(at) =>
        phase, retryAt := SignedOut, at;
        return None;
    }

    method Logout(locks: bool) returns (c: Option<Continuation>)
      modifies this, account
      ensures (View(), c) == SignOut(old(View()), locks)
      ensures ScopeFollows(old(generation), old(account.View()), generation, account.View())
    {
      var previous := token;
      var current := ReplaceToken(None, SignedOut);
      return if previous.Some? && locks then Some(AwaitRemoval(current, previous.value)) else None;
    }

    method RejectToken(captured: nat, locks: bool) returns (c: Option<Continuation>)
      modifies this, account
      ensures (View(), c) == Unauthorized(old(View()), captured, locks)
      ensures ScopeFollows(old(generation), old(account.View()), generation, account.View())
    {
      if captured != generation {
        return None;
      }
      c := Logout(locks);
    }

    method FinishVerify(captured: nat, answer: VerifyAnswer, locks: bool) returns (c: Option<Continuation>)
      modifies this, account
      ensures (View(), c) == VerifyDone(old(View()), captured, answer, locks)
      ensures ScopeFollows(old(generation), old(account.View()), generation, account.View())
    {
      if captured != generation {
        return None;
      }
      match answer
      case Valid =>
        phase := Authenticated;
        return None;
      case Invalid =>
        c := RejectToken(captured, locks);
      case Unreachable(at) =>
        phase, retryAt := Retry, at;
        return None;
    }

    method UseTemporarySession()
      modifies this
      ensures View() == UseTemporary(old(View()))
    {
      if phase.Persist? && token.Some? {
        phase, temporary := Authenticated, true;
      }
    }

    method PersistSection(captured: nat, capturedToken: nat, write: Write)
      modifies this, slot
      ensures (View(), slot.value) == PersistLocked(old(View()), captured, capturedToken, write, old(slot.value))
    {
      if captured != generation || !phase.Persist? || write.Raises? {
        return;
      }
      if write.stores {
        slot.value := Some(capturedToken);
      }
      if write.answers && slot.value == Some(capturedToken) {
        phase := Authenticated;
      }
    }

    method RemovalSection(captured: nat, previous: nat)
      modifies slot
      ensures View() == old(View()) && slot.value == RemovalLocked(View(), captured, previous, old(slot.value))
    {
      if captured == generation && slot.value == Some(previous) {
        slot.value := None;
      }
    }
  }
}
