// How the authentication middleware follows one response through the ASGI send channel
// (backend/app/api/auth.py:203-305).
module ResponseDelivery {
  import opened Common

  /** What happens to the response of one request. `delivered` says whether the outer send
      accepted the message; `Returned` is the inner application returning normally. */
  datatype AsgiEvent =
    | Start(status: nat, delivered: bool)
    | Body(more: bool, delivered: bool)
    | Disconnect
    | Returned

  type Trace = seq<AsgiEvent>

  /** The middleware's closure variables. */
  datatype Flags = Flags(status: Option<nat>, complete: bool, disconnected: bool, sendFailed: bool, returned: bool)

  const NO_FLAGS := Flags(None, false, false, false, false)

  function Observe(f: Flags, e: AsgiEvent): Flags {
    match e
    case Start(status, delivered) => f.(status := Some(status), sendFailed := f.sendFailed || !delivered)
    case Body(more, delivered) =>
      if delivered then f.(complete := f.complete || !more) else f.(sendFailed := true)
    case Disconnect => f.(disconnected := true)
    case Returned => f.(returned := true)
  }

  function Follow(trace: Trace): Flags {
    if trace == [] then NO_FLAGS else Observe(Follow(trace[..|trace| - 1]), trace[|trace| - 1])
  }

  predicate Ok2xx(status: Option<nat>) {
    status.Some? && 200 <= status.value < 300
  }

  /** The condition under which the middleware arms instead of cancelling. */
  predicate Armable(f: Flags) {
    f.returned && f.complete && Ok2xx(f.status) && !f.sendFailed && !f.disconnected
  }

  predicate Undelivered(e: AsgiEvent) {
    e.Disconnect? || (e.Start? && !e.delivered) || (e.Body? && !e.delivered)
  }

  ghost predicate LastStart(trace: Trace, i: nat) {
    i < |trace| && trace[i].Start? && forall j | i < j < |trace| :: !trace[j].Start?
  }

  /** The promise in terms of what went over the wire: nothing was lost, the application
      returned, the final body part was sent and the status that was sent is a success. */
  ghost predicate FullySent(trace: Trace) {
    && (forall i | 0 <= i < |trace| :: !Undelivered(trace[i]))
    && Returned in trace
    && (exists i | 0 <= i < |trace| :: trace[i].Body? && !trace[i].more)
    && (exists i: nat | i < |trace| :: LastStart(trace, i) && 200 <= trace[i].status < 300)
  }

  lemma {:induction false} LossesAreNoticed(trace: Trace)
    ensures !Follow(trace).sendFailed && !Follow(trace).disconnected
       <==> forall i | 0 <= i < |trace| :: !Undelivered(trace[i])
    ensures Follow(trace).returned <==> Returned in trace
  {
    if trace != [] {
      var init, last := trace[..|trace| - 1], trace[|trace| - 1];
      LossesAreNoticed(init);
      assert trace == init + [last];
      assert forall i | 0 <= i < |init| :: trace[i] == init[i];
    }
  }

  lemma {:induction false} StatusIsLastStart(trace: Trace)
    ensures Follow(trace).status.None? ==> forall i | 0 <= i < |trace| :: !trace[i].Start?
    ensures Follow(trace).status.Some? ==>
              exists i: nat | i < |trace| :: LastStart(trace, i) && trace[i].status == Follow(trace).status.value
  {
    if trace != [] {
      var init, last := trace[..|trace| - 1], trace[|trace| - 1];
      StatusIsLastStart(init);
      assert forall i | 0 <= i < |init| :: trace[i] == init[i];
      if last.Start? {
        assert LastStart(trace, |trace| - 1);
      } else if Follow(trace).status.Some? {
        var i: nat :| i < |init| && LastStart(init, i) && init[i].status == Follow(init).status.value;
        assert LastStart(trace, i);
      }
    }
  }

  lemma {:induction false} CompleteIsFinalBody(trace: Trace)
    requires forall i | 0 <= i < |trace| :: !Undelivered(trace[i])
    ensures Follow(trace).complete <==> exists i | 0 <= i < |trace| :: trace[i].Body? && !trace[i].more
  {
    if trace != [] {
      var init, last := trace[..|trace| - 1], trace[|trace| - 1];
      assert forall i | 0 <= i < |init| :: trace[i] == init[i];
      CompleteIsFinalBody(init);
    }
  }

  lemma LastStartUnique(trace: Trace, i: nat, j: nat)
    requires LastStart(trace, i) && LastStart(trace, j)
    ensures i == j
  {
  }

  /** The closure flags decide exactly the wire-level promise. */
  lemma ArmableIffFullySent(trace: Trace)
    ensures Armable(Follow(trace)) <==> FullySent(trace)
  {
    LossesAreNoticed(trace);
    StatusIsLastStart(trace);
    if forall i | 0 <= i < |trace| :: !Undelivered(trace[i]) {
      CompleteIsFinalBody(trace);
      if exists i: nat | i < |trace| :: LastStart(trace, i) && 200 <= trace[i].status < 300 {
        var i: nat :| i < |trace| && LastStart(trace, i) && 200 <= trace[i].status < 300;
        assert Follow(trace).status.Some?;
        var j: nat :| j < |trace| && LastStart(trace, j) && trace[j].status == Follow(trace).status.value;
        LastStartUnique(trace, i, j);
      }
    }
  }

  /** The closures around receive and send inside `AuthMiddleware._handle`. */
  class Delivery {
    var status: Option<nat>
    var complete: bool
    var disconnected: bool
    var sendFailed: bool
    var returned: bool
    ghost var trace: Trace

    function View(): Flags
      reads this
    {
      Flags(status, complete, disconnected, sendFailed, returned)
    }

    ghost predicate Valid()
      reads this
    {
      View() == Follow(trace)
    }

    constructor ()
      ensures Valid() && trace == []
    {
      status, complete, disconnected, sendFailed, returned := None, false, false, false, false;
      trace := [];
    }

    method ReceiveRequest(disconnect: bool)
      requires Valid()
      modifies this
      ensures Valid() && trace == if disconnect then old(trace) + [Disconnect] else old(trace)
    {
      if disconnect {
        disconnected := true;
        Append(Disconnect);
      }
    }

    method SendStart(code: nat, delivered: bool)
      requires Valid()
      modifies this
      ensures Valid() && trace == old(trace) + [Start(code, delivered)]
    {
      status := Some(code);
      if !delivered {
        sendFailed := true;
      }
      Append(Start(code, delivered));
    }

    method SendBody(more: bool, delivered: bool)
      requires Valid()
      modifies this
      ensures Valid() && trace == old(trace) + [Body(more, delivered)]
    {
      if !delivered {
        sendFailed := true;
      } else if !more {
        complete := true;
      }
      Append(Body(more, delivered));
    }

    method Return()
      requires Valid()
      modifies this
      ensures Valid() && trace == old(trace) + [Returned]
    {
      returned := true;
      Append(Returned);
    }

    ghost method Append(e: AsgiEvent)
      requires View() == Observe(Follow(trace), e)
      modifies this`trace
      ensures Valid() && trace == old(trace) + [e]
    {
      assert (trace + [e])[..|trace|] == trace;
      trace := trace + [e];
    }

    /** The test in the finally block: arm exactly when the response was fully sent. */
    method ShouldArm() returns (arm: bool)
      requires Valid()
      ensures arm <==> FullySent(trace)
    {
      arm := returned && complete && status.Some? && 200 <= status.value < 300 && !sendFailed && !disconnected;
      ArmableIffFullySent(trace);
    }
  }
}
