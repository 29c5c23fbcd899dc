/**
 * The popup session of `authorizeWithAuthorizationCode`: a message listener
 * and a 500 ms liveness timer racing to settle one pending promise, with a
 * `closePopup` teardown and a `popupHasBeenClosed` flag. The step functions
 * say what one event does to the session; `PopupSession` is the session as an
 * object whose event handlers follow them.
 */
module Popup {
  import opened Wrappers
  import opened AuthenticatorInterfaces

  /** The state of the promise the session settles; only its first settlement counts. */
  datatype Settlement = Pending | Resolved(code: string) | Rejected(reason: AuthError)

  /** A window message after `JSON.parse` of its data. */
  datatype ParsedMessage = ParsedMessage(name: string, code: string, error: string, errorDescription: string)

  /**
   * What the browser delivers to the session: a message (`None` when its data
   * is not valid JSON, so that the listener throws) or a tick of the interval
   * timer, with what `popup.closed` reads at that moment.
   */
  datatype Event = Message(data: Option<ParsedMessage>) | Tick(popupClosed: bool)

  /**
   * The session's observable state: the flag, whether the listener and timer
   * are live, how often `popup.close`, `removeEventListener` and
   * `clearInterval` were called, and the promise.
   */
  datatype SessionState = SessionState(
    popupHasBeenClosed: bool,
    listenerRegistered: bool,
    timerActive: bool,
    popupCloseCalls: nat,
    listenerRemovals: nat,
    intervalClears: nat,
    outcome: Settlement)

  /** Right after the listener is added and the interval started. */
  const Initial: SessionState := SessionState(false, true, true, 0, 0, 0, Pending)

  /** The rejection a tick makes when it finds the popup closed. */
  const PopupClosedError: AuthError :=
    AuthError(ErrorCodeName(PopupClosedUnexpectedly), ErrorCodeName(PopupClosedUnexpectedly))

  /** Settling a promise that is already settled changes nothing. */
  function Settle(o: Settlement, s: Settlement): Settlement
  {
    if o.Pending? then s else o
  }

  /** `closePopup`: close the popup, remove the listener, clear the interval, set the flag. */
  function Teardown(s: SessionState): SessionState
  {
    s.(popupHasBeenClosed := true,
       listenerRegistered := false,
       timerActive := false,
       popupCloseCalls := s.popupCloseCalls + 1,
       listenerRemovals := s.listenerRemovals + 1,
       intervalClears := s.intervalClears + 1)
  }

  /** One message: only a registered listener sees it; the authorized name is tested first. */
  function MessageStep(s: SessionState, redirect: RedirectConfiguration, data: Option<ParsedMessage>): SessionState
  {
    if !s.listenerRegistered || data.None? then s
    else
      var m := data.value;
      if m.name == redirect.authorizedMessage then
        Teardown(s).(outcome := Settle(s.outcome, Resolved(m.code)))
      else if m.name == redirect.rejectedMessage then
        Teardown(s).(outcome := Settle(s.outcome, Rejected(AuthError(m.error, m.errorDescription))))
      else s
  }

  /** One timer tick: only a live timer fires; it acts only on a closed popup before teardown. */
  function TickStep(s: SessionState, popupClosed: bool): SessionState
  {
    if s.timerActive && popupClosed && !s.popupHasBeenClosed then
      Teardown(s.(popupHasBeenClosed := true)).(outcome := Settle(s.outcome, Rejected(PopupClosedError)))
    else s
  }

  function Step(s: SessionState, redirect: RedirectConfiguration, e: Event): SessionState
  {
    match e
    case Message(data) => MessageStep(s, redirect, data)
    case Tick(closed) => TickStep(s, closed)
  }

  /** The session after a sequence of events, in order. */
  function Run(s: SessionState, redirect: RedirectConfiguration, events: seq<Event>): SessionState
    decreases |events|
  {
    if events == [] then s
    else Run(Step(s, redirect, events[0]), redirect, events[1..])
  }

  /**
   * The session invariant: before teardown the listener and timer are live,
   * nothing was torn down and the promise is pending; after it, each teardown
   * call happened exactly once and the promise is settled.
   */
  ghost predicate Invariant(s: SessionState)
  {
    s.listenerRegistered == s.timerActive == !s.popupHasBeenClosed &&
    s.popupCloseCalls == s.listenerRemovals == s.intervalClears == (if s.popupHasBeenClosed then 1 else 0) &&
    (s.outcome.Pending? <==> !s.popupHasBeenClosed)
  }

  lemma StepPreservesInvariant(s: SessionState, redirect: RedirectConfiguration, e: Event)
    requires Invariant(s)
    ensures Invariant(Step(s, redirect, e))
  {
  }

  lemma {:induction false} RunPreservesInvariant(s: SessionState, redirect: RedirectConfiguration, events: seq<Event>)
    requires Invariant(s)
    ensures Invariant(Run(s, redirect, events))
    decreases |events|
  {
    if events != [] {
      StepPreservesInvariant(s, redirect, events[0]);
      RunPreservesInvariant(Step(s, redirect, events[0]), redirect, events[1..]);
    }
  }

  /** Once settled, a session ignores every later event. */
  lemma {:induction false} SettledIsFinal(s: SessionState, redirect: RedirectConfiguration, events: seq<Event>)
    requires Invariant(s) && !s.outcome.Pending?
    ensures Run(s, redirect, events) == s
    decreases |events|
  {
    if events != [] {
      SettledIsFinal(s, redirect, events[1..]);
    }
  }

  lemma {:induction false} RunAppend(s: SessionState, redirect: RedirectConfiguration, e1: seq<Event>, e2: seq<Event>)
    ensures Run(s, redirect, e1 + e2) == Run(Run(s, redirect, e1), redirect, e2)
    decreases |e1|
  {
    if e1 != [] {
      assert (e1 + e2)[0] == e1[0];
      assert (e1 + e2)[1..] == e1[1..] + e2;
      RunAppend(Step(s, redirect, e1[0]), redirect, e1[1..], e2);
    } else {
      assert e1 + e2 == e2;
    }
  }

  /**
   * Teardown runs at most once in any event sequence, and it has run exactly
   * when the promise is settled.
   */
  lemma TeardownAtMostOnce(redirect: RedirectConfiguration, events: seq<Event>)
    ensures var f := Run(Initial, redirect, events);
      f.popupCloseCalls <= 1 && f.listenerRemovals <= 1 && f.intervalClears <= 1 &&
      (f.popupCloseCalls == 1 <==> !f.outcome.Pending?) &&
      (f.listenerRegistered <==> f.outcome.Pending?) &&
      (f.timerActive <==> f.outcome.Pending?)
  {
    RunPreservesInvariant(Initial, redirect, events);
  }

  /** The first settlement wins: events after it change nothing at all. */
  lemma FirstSettlementWins(redirect: RedirectConfiguration, before: seq<Event>, after: seq<Event>)
    requires !Run(Initial, redirect, before).outcome.Pending?
    ensures Run(Initial, redirect, before + after) == Run(Initial, redirect, before)
  {
    RunAppend(Initial, redirect, before, after);
    RunPreservesInvariant(Initial, redirect, before);
    SettledIsFinal(Run(Initial, redirect, before), redirect, after);
  }

  /**
   * A message to a pending session resolves it when its name is the
   * authorized sentinel (even if the rejected sentinel is the same name),
   * rejects it when its name is only the rejected sentinel, and otherwise
   * leaves the session exactly as it was.
   */
  lemma MessageOutcome(s: SessionState, redirect: RedirectConfiguration, m: ParsedMessage)
    requires Invariant(s) && s.outcome.Pending?
    ensures var t := MessageStep(s, redirect, Some(m));
      (m.name == redirect.authorizedMessage ==> t.outcome == Resolved(m.code) && t.popupCloseCalls == 1) &&
      (m.name != redirect.authorizedMessage && m.name == redirect.rejectedMessage ==>
         t.outcome == Rejected(AuthError(m.error, m.errorDescription)) && t.popupCloseCalls == 1) &&
      (m.name != redirect.authorizedMessage && m.name != redirect.rejectedMessage ==> t == s)
  {
  }

  /** A tick rejects with `popup_closed_unexpectedly` exactly when the popup reads closed before teardown. */
  lemma TickOutcome(s: SessionState, closed: bool)
    requires Invariant(s)
    ensures TickStep(s, closed).outcome == Rejected(PopupClosedError) && s.outcome.Pending?
            <==> closed && !s.popupHasBeenClosed
    ensures !(closed && !s.popupHasBeenClosed) ==> TickStep(s, closed) == s
  {
  }

  /** The session of one authorization attempt, driven by the browser's events. */
  class PopupSession {
    const redirect: RedirectConfiguration
    var popupHasBeenClosed: bool
    var listenerRegistered: bool
    var timerActive: bool
    var popupCloseCalls: nat
    var listenerRemovals: nat
    var intervalClears: nat
    var outcome: Settlement

    function State(): SessionState
      reads this
    {
      SessionState(popupHasBeenClosed, listenerRegistered, timerActive,
                   popupCloseCalls, listenerRemovals, intervalClears, outcome)
    }

    ghost predicate Valid()
      reads this
    {
      Invariant(State())
    }

    /** Creates the pending promise, adds the listener and starts the interval. */
    constructor (redirect: RedirectConfiguration)
      ensures Valid() && State() == Initial && this.redirect == redirect
    {
      this.redirect := redirect;
      popupHasBeenClosed := false;
      listenerRegistered := true;
      timerActive := true;
      popupCloseCalls, listenerRemovals, intervalClears := 0, 0, 0;
      outcome := Pending;
    }

    /** `closePopup`. */
    method ClosePopup()
      modifies this
      ensures State() == Teardown(old(State()))
    {
      popupCloseCalls := popupCloseCalls + 1;
      listenerRemovals := listenerRemovals + 1;
      listenerRegistered := false;
      intervalClears := intervalClears + 1;
      timerActive := false;
      popupHasBeenClosed := true;
    }

    /** The message listener, when the browser still has it registered. */
    method OnMessage(data: Option<ParsedMessage>)
      requires Valid()
      modifies this
      ensures Valid()
      ensures State() == MessageStep(old(State()), redirect, data)
      ensures !old(outcome).Pending? ==> State() == old(State())
    {
      if !listenerRegistered || data.None? {
        return;
      }
      var m := data.value;
      if m.name == redirect.authorizedMessage {
        outcome := Settle(outcome, Resolved(m.code));
        ClosePopup();
      } else if m.name == redirect.rejectedMessage {
        outcome := Settle(outcome, Rejected(AuthError(m.error, m.errorDescription)));
        ClosePopup();
      }
    }

    /** The interval callback, when the interval has not been cleared. */
    method OnTick(popupClosed: bool)
      requires Valid()
      modifies this
      ensures Valid()
      ensures State() == TickStep(old(State()), popupClosed)
      ensures !old(outcome).Pending? ==> State() == old(State())
    {
      if timerActive && popupClosed && !popupHasBeenClosed {
        popupHasBeenClosed := true;
        ClosePopup();
        outcome := Settle(outcome, Rejected(PopupClosedError));
      }
    }

    /** Delivers one event to the handler it is for. */
    method Dispatch(e: Event)
      requires Valid()
      modifies this
      ensures Valid()
      ensures State() == Step(old(State()), redirect, e)
    {
      match e
      case Message(data) => OnMessage(data);
      case Tick(closed) => OnTick(closed);
    }
  }
}
