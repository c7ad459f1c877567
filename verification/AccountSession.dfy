// The account scope of one tab and the tickets bound to it (frontend/services/accountSession.ts).
module AccountSession {
  import opened Common

  /** The identity part of a connection snapshot. */
  datatype Account = Account(epoch: Option<string>, dataDir: string, aliId: Option<string>)

  datatype State = State(account: Option<Account>, generation: nat, blocked: bool, suspended: bool)

  const INITIAL := State(None, 0, true, false)

  datatype Op = Clear | Invalidate | Suspend | Accept(account: Account)

  predicate Changes(s: State, account: Account) {
    s.account != Some(account)
  }

  function Apply(s: State, op: Op): State {
    match op
    case Clear => INITIAL.(generation := s.generation + 1)
    case Invalidate => s.(generation := s.generation + 1, blocked := true, suspended := false)
    case Suspend => s.(blocked := true, suspended := s.suspended || !s.blocked)
    case Accept(account) =>
      State(Some(account), s.generation + (if Changes(s, account) then 1 else 0), false, false)
  }

  function Run(s: State, ops: seq<Op>): State {
    if ops == [] then s else Apply(Run(s, ops[..|ops| - 1]), ops[|ops| - 1])
  }

  /** A ticket holds the generation and the epoch seen at capture. */
  datatype Ticket = Ticket(generation: nat, epoch: string)

  predicate Usable(s: State) {
    s.account.Some? && s.account.value.epoch.Some? && s.account.value.epoch.value != ""
  }

  function Capture(s: State, allowSuspended: bool): Option<Ticket> {
    if (s.blocked && !(allowSuspended && s.suspended)) || !Usable(s) then None
    else Some(Ticket(s.generation, s.account.value.epoch.value))
  }

  /** `assertCurrent` without a server epoch returns normally. */
  predicate Passes(s: State, t: Ticket) {
    !s.blocked && s.generation == t.generation && s.account.Some? && s.account.value.epoch == Some(t.epoch)
  }

  /** An accepted account opens the scope, in a new generation exactly when its epoch, its directory or its id is
      another one. */
  lemma AcceptIs(s: State, account: Account)
    ensures var t := Apply(s, Accept(account));
            && t.account == Some(account) && !t.blocked && !t.suspended
            && (t.generation == s.generation || t.generation == s.generation + 1)
            && (t.generation == s.generation <==>
                  && s.account.Some? && s.account.value.epoch == account.epoch
                  && s.account.value.dataDir == account.dataDir && s.account.value.aliId == account.aliId)
  {
  }

  /** After an account with an epoch was accepted, a ticket for it can be taken and passes; a suspended scope
      gives tickets only to who asks for one that can wait; a closed one gives none. */
  lemma CaptureIs(s: State, account: Account)
    requires account.epoch.Some? && account.epoch.value != ""
    ensures var t := Apply(s, Accept(account));
            && Capture(t, false) == Capture(t, true) == Some(Ticket(t.generation, account.epoch.value))
            && Passes(t, Capture(t, false).value)
            && Capture(Apply(t, Suspend), false).None? && Capture(Apply(t, Suspend), true) == Capture(t, true)
            && Capture(Apply(t, Clear), true).None? && Capture(Apply(t, Invalidate), true).None?
            && Capture(Apply(Apply(t, Invalidate), Suspend), true).None?
    ensures forall none: Account | none.epoch.None? || none.epoch.value == "" ::
              Capture(Apply(s, Accept(none)), true).None?
  {
  }

  /** An operation that ends the scope of every earlier ticket. */
  predicate Ends(s: State, op: Op) {
    op.Clear? || op.Invalidate? || (op.Accept? && Changes(s, op.account))
  }

  ghost predicate Uninterrupted(s: State, ops: seq<Op>) {
    forall i | 0 <= i < |ops| :: !Ends(Run(s, ops[..i]), ops[i])
  }

  lemma UninterruptedNext(s: State, ops: seq<Op>, op: Op)
    ensures Uninterrupted(s, ops + [op]) <==> Uninterrupted(s, ops) && !Ends(Run(s, ops), op)
  {
    var more := ops + [op];
    assert more[..|ops|] == ops;
    forall i | 0 <= i < |ops|
      ensures more[..i] == ops[..i] && more[i] == ops[i]
    {
    }
  }

  lemma ApplyCounts(s: State, op: Op)
    ensures Apply(s, op).generation == s.generation + if Ends(s, op) then 1 else 0
    ensures !Ends(s, op) ==> Apply(s, op).account == s.account
  {
  }

  /** How many of the operations ended the scope. */
  function EndCount(s: State, ops: seq<Op>): nat {
    if ops == [] then 0
    else
      var init, last := ops[..|ops| - 1], ops[|ops| - 1];
      EndCount(s, init) + if Ends(Run(s, init), last) then 1 else 0
  }

  /** The generation counts the operations that ended the scope, so it stays as long as there is none. */
  lemma {:induction false} GenerationCounts(s: State, ops: seq<Op>)
    ensures Run(s, ops).generation == s.generation + EndCount(s, ops)
    ensures EndCount(s, ops) == 0 <==> Uninterrupted(s, ops)
    ensures Uninterrupted(s, ops) ==> Run(s, ops).account == s.account
  {
    if ops != [] {
      var init := ops[..|ops| - 1];
      GenerationCounts(s, init);
      UninterruptedNext(s, init, ops[|ops| - 1]);
      ApplyCounts(Run(s, init), ops[|ops| - 1]);
      assert ops == init + [ops[|ops| - 1]];
    }
  }

  /** Blocked or not follows from the last operation alone. */
  lemma BlockedIsLast(s: State, ops: seq<Op>)
    requires ops != []
    ensures !Run(s, ops).blocked <==> ops[|ops| - 1].Accept?
  {
  }

  /** A ticket passes exactly when nothing ended its scope since capture and the scope is open
      now: the last thing that happened was an accept, or nothing happened to an open scope. */
  lemma TicketPassesIff(s: State, allowSuspended: bool, ops: seq<Op>)
    requires Capture(s, allowSuspended).Some?
    ensures Passes(Run(s, ops), Capture(s, allowSuspended).value)
       <==> Uninterrupted(s, ops) && (if ops == [] then !s.blocked else ops[|ops| - 1].Accept?)
  {
    GenerationCounts(s, ops);
    if ops != [] {
      BlockedIsLast(s, ops);
    }
  }

  /** Suspending any number of times and accepting the same account again keeps the ticket. */
  lemma SuspensionIsResumable(s: State, allowSuspended: bool, n: nat)
    requires Capture(s, allowSuspended).Some?
    ensures Passes(Run(s, seq(n, _ => Suspend) + [Accept(s.account.value)]), Capture(s, allowSuspended).value)
  {
    var ops := seq(n, _ => Suspend) + [Accept(s.account.value)];
    forall i | 0 <= i < |ops|
      ensures !Ends(Run(s, ops[..i]), ops[i])
    {
      assert ops[..i] == seq(i, _ => Suspend);
      SuspendKeepsAccount(s, i);
    }
    TicketPassesIff(s, allowSuspended, ops);
  }

  lemma {:induction false} SuspendKeepsAccount(s: State, n: nat)
    ensures Run(s, seq(n, _ => Suspend)).account == s.account
  {
    if n > 0 {
      SuspendKeepsAccount(s, n - 1);
      assert seq(n, _ => Suspend)[..n - 1] == seq(n - 1, _ => Suspend);
    }
  }

  /** A scope that was ended never becomes resumable before the next accept. */
  lemma {:induction false} EndedIsNotResumable(s: State, ops: seq<Op>, i: nat)
    requires i < |ops| && (ops[i].Clear? || ops[i].Invalidate?)
    requires forall j | i < j < |ops| :: !ops[j].Accept?
    ensures Run(s, ops).blocked && !Run(s, ops).suspended && Capture(Run(s, ops), true).None?
  {
    var init := ops[..|ops| - 1];
    if i < |ops| - 1 {
      EndedIsNotResumable(s, init, i);
    }
  }

  /** The scope after `n` changes of the sign-in, each of which clears it. */
  function Cleared(s: State, n: nat): (r: State)
    ensures r.generation == s.generation + n
    ensures n > 0 ==> r.account.None? && r.blocked && !r.suspended
  {
    if n == 0 then s else Apply(Cleared(s, n - 1), Clear)
  }

  /** A scoped backend call delivers its result only if no operation between capture and
      completion ended the scope. `ops[..k]` happened before the call. */
  lemma ScopedCallIsSafe(s: State, ops: seq<Op>, k: nat)
    requires Capture(s, true).Some? && k <= |ops|
    requires Passes(Run(s, ops[..k]), Capture(s, true).value) && Passes(Run(s, ops), Capture(s, true).value)
    ensures Uninterrupted(s, ops) && Run(s, ops).account == s.account
  {
    GenerationCounts(s, ops);
  }

  class Session {
    var account: Option<Account>
    var generation: nat
    var blocked: bool
    var suspended: bool

    function View(): State
      reads this
    {
      State(account, generation, blocked, suspended)
    }

    constructor ()
      ensures View() == INITIAL
    {
      account, generation, blocked, suspended := None, 0, true, false;
    }

    method ClearScope()
      modifies this
      ensures View() == Apply(old(View()), Clear)
    {
      account, generation, blocked, suspended := None, generation + 1, true, false;
    }

    method InvalidateScope()
      modifies this
      ensures View() == Apply(old(View()), Invalidate)
    {
      generation, blocked, suspended := generation + 1, true, false;
    }

    method SuspendScope()
      modifies this
      ensures View() == Apply(old(View()), Suspend)
    {
      suspended := suspended || !blocked;
      blocked := true;
    }

    method AcceptAccount(next: Account)
      modifies this
      ensures View() == Apply(old(View()), Accept(next))
    {
      var changed := account.None? || account.value.epoch != next.epoch || account.value.dataDir != next.dataDir
                     || account.value.aliId != next.aliId;
      account := Some(next);
      if changed {
        generation := generation + 1;
      }
      blocked, suspended := false, false;
    }
  }
}
