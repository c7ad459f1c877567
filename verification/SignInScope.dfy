// The account scope follows the sign-in: what a ticket for the account says about the session
// (frontend/services/authSession.ts:24-33; frontend/services/accountSession.ts:13-79).
module SignInScope {
  import opened Common
  import opened AccountSession
  import opened AuthSession

  /** The sign-in states of all tabs, and the account scope of each tab. */
  datatype Desk = Desk(world: World, scopes: map<nat, State>)

  /** A step of the sign-in machine, or an operation on one tab's scope: `clear` itself is called by changes
      of the sign-in only. */
  datatype Act = SignIn(step: Step) | Scope(tab: nat, op: Op)

  ghost predicate Coupled(d: Desk, d': Desk, tab: nat) {
    && tab in d.scopes && tab in d'.scopes && tab in d.world.tabs && tab in d'.world.tabs
    && ScopeFollows(d.world.tabs[tab].generation, d.scopes[tab], d'.world.tabs[tab].generation, d'.scopes[tab])
  }

  ghost predicate Acts(d: Desk, a: Act, d': Desk) {
    match a
    case SignIn(step) =>
      Next(d.world, step, d'.world) && forall tab | tab in d.world.tabs :: Coupled(d, d', tab)
    case Scope(tab, op) =>
      && tab in d.scopes && !op.Clear?
      && d' == d.(scopes := d.scopes[tab := Apply(d.scopes[tab], op)])
  }

  ghost predicate ActAt(ds: seq<Desk>, acts: seq<Act>, k: nat)
    requires k < |acts| && |ds| == |acts| + 1
  {
    Acts(ds[k], acts[k], ds[k + 1])
  }

  ghost predicate IsDay(ds: seq<Desk>, acts: seq<Act>) {
    && |ds| == |acts| + 1 && Init(ds[0].world) && ds[0].world.tabs.Keys == ds[0].scopes.Keys
    && forall k: nat | k < |acts| :: ActAt(ds, acts, k)
  }

  lemma {:induction false} DayKeeps(ds: seq<Desk>, acts: seq<Act>, k: nat)
    requires IsDay(ds, acts) && k < |ds|
    ensures Inv(ds[k].world)
  {
    if k > 0 {
      DayKeeps(ds, acts, k - 1);
      assert ActAt(ds, acts, k - 1);
      if acts[k - 1].SignIn? {
        StepKeeps(ds[k - 1].world, acts[k - 1].step, ds[k].world);
      }
    }
  }

  /** The operations on a tab's scope from position `i` to `j`, other than the clearings. */
  function Own(acts: seq<Act>, i: nat, j: nat, tab: nat): seq<Op>
    requires i <= j <= |acts|
  {
    if i == j then []
    else if acts[j - 1].Scope? && acts[j - 1].tab == tab then Own(acts, i, j - 1, tab) + [acts[j - 1].op]
    else Own(acts, i, j - 1, tab)
  }

  lemma RunNext(s: State, ops: seq<Op>, op: Op)
    ensures Run(s, ops + [op]) == Apply(Run(s, ops), op)
  {
    assert (ops + [op])[..|ops|] == ops;
  }

  /** What may have become of a tab and its scope. */
  ghost predicate Since(d: Desk, d': Desk, tab: nat, ops: seq<Op>) {
    && tab in d.world.tabs && tab in d.scopes && tab in d'.world.tabs && tab in d'.scopes
    && (var t, t', s, s' := d.world.tabs[tab], d'.world.tabs[tab], d.scopes[tab], d'.scopes[tab];
        && (t.phase.Authenticated? ==> SameTicket(t, t'))
        && (t'.generation == t.generation ==> s' == Run(s, ops))
        && (t'.generation != t.generation ==> t'.generation > t.generation && s'.generation > s.generation))
  }

  lemma SignInSince(d: Desk, e: Desk, step: Step, e': Desk, tab: nat, ops: seq<Op>)
    requires Since(d, e, tab, ops) && Inv(e.world) && Acts(e, SignIn(step), e')
    ensures Since(d, e', tab, ops)
  {
    assert Coupled(e, e', tab);
    GenerationCounts(d.scopes[tab], ops);
    GenerationStep(e.world, step, e'.world, tab);
    if e.world.tabs[tab].phase.Authenticated? {
      TicketStep(e.world, step, e'.world, tab);
    }
  }

  lemma ScopeSince(d: Desk, e: Desk, tab: nat, other: nat, op: Op, e': Desk, ops: seq<Op>)
    requires Since(d, e, tab, ops) && Acts(e, Scope(other, op), e')
    ensures Since(d, e', tab, if other == tab then ops + [op] else ops)
  {
    if other == tab {
      RunNext(d.scopes[tab], ops, op);
      ApplyCounts(e.scopes[tab], op);
    }
  }

  lemma {:induction false} SinceThen(ds: seq<Desk>, acts: seq<Act>, i: nat, j: nat, tab: nat)
    requires IsDay(ds, acts) && i <= j < |ds| && tab in ds[i].world.tabs && tab in ds[i].scopes
    ensures Since(ds[i], ds[j], tab, Own(acts, i, j, tab))
  {
    if i < j {
      SinceThen(ds, acts, i, j - 1, tab);
      DayKeeps(ds, acts, j - 1);
      assert ActAt(ds, acts, j - 1);
      match acts[j - 1] {
        case SignIn(step) => SignInSince(ds[i], ds[j - 1], step, ds[j], tab, Own(acts, i, j - 1, tab));
        case Scope(other, op) => ScopeSince(ds[i], ds[j - 1], tab, other, op, ds[j], Own(acts, i, j - 1, tab));
      }
    }
  }

  /** No operation ended the scope, and the last one left it open. */
  ghost predicate StaysOpen(s: State, ops: seq<Op>) {
    Uninterrupted(s, ops) && if ops == [] then !s.blocked else ops[|ops| - 1].Accept?
  }

  /** An account ticket passes exactly when the sign-in is still of the same generation, nothing ended the
      scope itself, and the scope is open: no ticket outlives a change of the sign-in. */
  lemma SignInTicketIff(ds: seq<Desk>, acts: seq<Act>, i: nat, j: nat, tab: nat, allowSuspended: bool)
    requires IsDay(ds, acts) && i <= j < |ds| && tab in ds[i].world.tabs && tab in ds[i].scopes
    requires Capture(ds[i].scopes[tab], allowSuspended).Some?
    ensures tab in ds[j].world.tabs && tab in ds[j].scopes
    ensures Passes(ds[j].scopes[tab], Capture(ds[i].scopes[tab], allowSuspended).value)
       <==> && ds[j].world.tabs[tab].generation == ds[i].world.tabs[tab].generation
            && StaysOpen(ds[i].scopes[tab], Own(acts, i, j, tab))
  {
    SinceThen(ds, acts, i, j, tab);
    if ds[j].world.tabs[tab].generation == ds[i].world.tabs[tab].generation {
      TicketPassesIff(ds[i].scopes[tab], allowSuspended, Own(acts, i, j, tab));
    }
  }

  /** So what a scoped call starts and delivers belongs to one sign-in: if its account ticket was taken while
      signed in and passes, the tab is signed in with the same token. */
  lemma ScopedCallIsSignedIn(ds: seq<Desk>, acts: seq<Act>, i: nat, j: nat, tab: nat, allowSuspended: bool)
    requires IsDay(ds, acts) && i <= j < |ds| && tab in ds[i].world.tabs && tab in ds[i].scopes
    requires ds[i].world.tabs[tab].phase.Authenticated? && Capture(ds[i].scopes[tab], allowSuspended).Some?
    requires tab in ds[j].scopes && Passes(ds[j].scopes[tab], Capture(ds[i].scopes[tab], allowSuspended).value)
    ensures tab in ds[j].world.tabs && ds[j].world.tabs[tab].phase.Authenticated?
    ensures ds[j].world.tabs[tab].token == ds[i].world.tabs[tab].token
    ensures ds[j].scopes[tab].account == ds[i].scopes[tab].account
  {
    SinceThen(ds, acts, i, j, tab);
    SignInTicketIff(ds, acts, i, j, tab, allowSuspended);
    GenerationCounts(ds[i].scopes[tab], Own(acts, i, j, tab));
  }
}
