/** ProtectedRoute (frontend/src/components/ProtectedRoute.jsx): the route
    guard that asks the server whether the session is still valid before it
    renders a protected page. */
module SessionGuard {
  import opened Http

  /** The `status` state: 'no-token', 'checking', 'ok', 'unauthed'. */
  datatype Status = NoToken | Checking | Authorized | Unauthed

  /** What the guard renders. */
  datatype View = RedirectToLogin | CheckingPlaceholder | Outlet

  /** The render decision. */
  function Render(s: Status): (v: View)
    ensures v == RedirectToLogin <==> s == NoToken || s == Unauthed
    ensures v == CheckingPlaceholder <==> s == Checking
    ensures v == Outlet <==> s == Authorized
  {
    match s
    case NoToken => RedirectToLogin
    case Unauthed => RedirectToLogin
    case Checking => CheckingPlaceholder
    case Authorized => Outlet
  }

  /** `useState(isAuthed() ? 'checking' : 'no-token')` */
  function InitialStatus(authed: bool): (s: Status)
    ensures s == Checking <==> authed
    ensures s != Checking ==> s == NoToken
  {
    if authed then Checking else NoToken
  }

  /** The guard's state: `status`, the `active` flag of the installed effect,
      whether its `/auth/me` request is still pending, and whether the stored
      token has been cleared. */
  datatype GuardState = GuardState(status: Status, active: bool, inFlight: bool, tokenCleared: bool)

  /** The effect runs (after mount and after each status change): it does
      nothing unless the status is 'checking'; then it sets `active` and sends
      the check. Returns the request sent. */
  function EffectStep(g: GuardState): (res: (GuardState, seq<Request>))
    ensures g.status != Checking ==> res == (g, [])
    ensures g.status == Checking ==>
      res == (GuardState(Checking, true, true, g.tokenCleared), [GetReq("/auth/me")])
  {
    if g.status != Checking then (g, [])
    else (GuardState(Checking, true, true, g.tokenCleared), [GetReq("/auth/me")])
  }

  /** The effect's cleanup: `active = false`. */
  function CleanupStep(g: GuardState): (g': GuardState)
    ensures g' == g.(active := false)
  {
    GuardState(g.status, false, g.inFlight, g.tokenCleared)
  }

  /** The pending check settles: success moves to 'ok' and failure clears the
      token and moves to 'unauthed', each status change only while the effect
      is still active. Nothing happens without a pending check. */
  function SettleStep(g: GuardState, ok: bool): (g': GuardState)
    ensures !g.inFlight ==> g' == g
    ensures g.inFlight ==> !g'.inFlight && g'.active == g.active
    ensures g.inFlight && ok ==> g'.tokenCleared == g.tokenCleared
    ensures g.inFlight && !ok ==> g'.tokenCleared
    ensures g.inFlight && g.active ==> g'.status == (if ok then Authorized else Unauthed)
    ensures g.inFlight && !g.active ==> g'.status == g.status
  {
    if !g.inFlight then g
    else if ok then GuardState(if g.active then Authorized else g.status, g.active, false, g.tokenCleared)
    else GuardState(if g.active then Unauthed else g.status, g.active, false, true)
  }

  /** An event the guard reacts to. */
  datatype Event = RunEffect | Cleanup | Settle(ok: bool)

  function Step(g: GuardState, e: Event): GuardState {
    match e
    case RunEffect => EffectStep(g).0
    case Cleanup => CleanupStep(g)
    case Settle(ok) => SettleStep(g, ok)
  }

  function Run(g: GuardState, events: seq<Event>): GuardState
    decreases |events|
  {
    if |events| == 0 then g else Run(Step(g, events[0]), events[1..])
  }

  /** A check pending under an active effect is only ever in the 'checking'
      state: the status moves on exactly when that check settles. */
  predicate Inv(g: GuardState) {
    g.inFlight && g.active ==> g.status == Checking
  }

  lemma StepKeepsInv(g: GuardState, e: Event)
    requires Inv(g)
    ensures Inv(Step(g, e))
  {
  }

  /** 'ok', 'unauthed' and 'no-token' are terminal: once the guard leaves
      'checking', no sequence of effects, cleanups and replies changes the
      status again. */
  lemma {:induction false} LeftCheckingIsTerminal(g: GuardState, events: seq<Event>)
    requires Inv(g)
    requires g.status != Checking
    ensures Run(g, events).status == g.status
    decreases |events|
  {
    if |events| > 0 {
      var g1 := Step(g, events[0]);
      StepKeepsInv(g, events[0]);
      assert g1.status == g.status;
      LeftCheckingIsTerminal(g1, events[1..]);
    }
  }

  /** The token is cleared only by a failed check, and never restored. */
  lemma {:induction false} TokenClearedStays(g: GuardState, events: seq<Event>)
    ensures g.tokenCleared ==> Run(g, events).tokenCleared
    ensures !g.inFlight && (forall k :: 0 <= k < |events| ==> events[k] != RunEffect) ==>
      Run(g, events).tokenCleared == g.tokenCleared
    decreases |events|
  {
    if |events| > 0 {
      TokenClearedStays(Step(g, events[0]), events[1..]);
      if !g.inFlight && (forall k :: 0 <= k < |events| ==> events[k] != RunEffect) {
        assert events[0] != RunEffect;
        forall k | 0 <= k < |events[1..]| ensures events[1..][k] != RunEffect {
          assert events[1..][k] == events[k + 1];
        }
      }
    }
  }

  /** A guard that starts without a token never sends a check and always
      redirects to /login. */
  lemma {:induction false} NoTokenNeverChecks(g: GuardState, events: seq<Event>)
    requires g.status == NoToken && !g.inFlight
    ensures Run(g, events) == Run(g, events).(status := NoToken)
    ensures Render(Run(g, events).status) == RedirectToLogin
    ensures !Run(g, events).inFlight
    decreases |events|
  {
    if |events| > 0 {
      NoTokenNeverChecks(Step(g, events[0]), events[1..]);
    }
  }

  /** With a token, the guard checks once: a successful check renders the
      page and a failed one clears the token and redirects to /login; a check
      that settles after the cleanup (the guard was left) changes no status,
      though a failure still clears the token. */
  lemma CheckOutcome(ok: bool)
    ensures var g := Run(GuardState(InitialStatus(true), false, false, false), [RunEffect, Settle(ok)]);
      && Render(g.status) == (if ok then Outlet else RedirectToLogin)
      && g.tokenCleared == !ok
    ensures var g := Run(GuardState(InitialStatus(true), false, false, false), [RunEffect, Cleanup, Settle(ok)]);
      && g.status == Checking
      && g.tokenCleared == !ok
  {
    var g0 := GuardState(Checking, false, false, false);
    var g1 := Step(g0, RunEffect);
    assert g1 == GuardState(Checking, true, true, false);
    var g2 := Step(g1, Settle(ok));
    assert Run(g2, []) == g2;
    assert [Settle(ok)][1..] == [];
    assert Run(g1, [Settle(ok)]) == g2;
    assert [RunEffect, Settle(ok)][1..] == [Settle(ok)];
    assert Run(g0, [RunEffect, Settle(ok)]) == g2;

    var c2 := Step(g1, Cleanup);
    var c3 := Step(c2, Settle(ok));
    assert c3 == GuardState(Checking, false, false, !ok);
    assert Run(c2, [Settle(ok)]) == c3;
    assert [Cleanup, Settle(ok)][1..] == [Settle(ok)];
    assert Run(g1, [Cleanup, Settle(ok)]) == c3;
    assert [RunEffect, Cleanup, Settle(ok)][1..] == [Cleanup, Settle(ok)];
  }

  /** The mounted ProtectedRoute component. */
  class ProtectedRoute {
    var status: Status
    var active: bool
    var inFlight: bool
    var tokenCleared: bool

    function State(): GuardState
      reads this
    {
      GuardState(status, active, inFlight, tokenCleared)
    }

    constructor(authed: bool)
      ensures State() == GuardState(InitialStatus(authed), false, false, false)
    {
      status := if authed then Checking else NoToken;
      active := false;
      inFlight := false;
      tokenCleared := false;
    }

    /** The effect body; returns the requests it sends. */
    method RunEffect() returns (sent: seq<Request>)
      modifies this
      ensures (State(), sent) == EffectStep(old(State()))
    {
      sent := [];
      if status != Checking {
        return;
      }
      active := true;
      inFlight := true;
      sent := [GetReq("/auth/me")];
    }

    /** The effect's cleanup. */
    method Cleanup()
      modifies this
      ensures State() == CleanupStep(old(State()))
    {
      active := false;
    }

    /** The `/auth/me` request settles with success `ok`. */
    method Settle(ok: bool)
      requires inFlight
      modifies this
      ensures State() == SettleStep(old(State()), ok)
    {
      inFlight := false;
      if ok {
        if active {
          status := Authorized;
        }
      } else {
        tokenCleared := true;
        if active {
          status := Unauthed;
        }
      }
    }
  }
}
