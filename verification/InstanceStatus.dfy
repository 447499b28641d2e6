/** Lifecycle of a remote Supvisors instance as seen locally: supvisors/instancestatus.py and
    the handlers of supvisors/context.py that drive it. */
module InstanceStatus {
  import opened SupvisorsTypes

  /** `checkingTime` is the date of entry in CHECKING; `checkingEventTime` is the date of the
      last process event ignored since then. */
  datatype Status = Status(
    state: InstanceState,
    checkingTime: Option<int>,
    checkingEventTime: Option<int>)

  const INITIAL := Status(Stopped, None, None)

  datatype Authorization = UnknownAuthorization | Authorized | NotAuthorized | Inconsistent

  predicate CanMove(from: InstanceState, to: InstanceState) {
    match from
    case Stopped => to.Checking?
    case Checking => to.Stopped? || to.Checked? || to.Failed? || to.Isolated?
    case Checked => to.Running? || to.Failed?
    case Running => to.Failed?
    case Failed => to.Stopped? || to.Isolated?
    case Isolated => false
  }

  /** The state setter at date `now`. A refused transition raises InvalidTransition, which the
      event loop swallows: the status is left as it is. */
  function Moved(s: Status, to: InstanceState, now: int): Status {
    if s.state == to || !CanMove(s.state, to) then s
    else Status(to, if to.Checking? then Some(now) else None,
                if to.Checking? then s.checkingEventTime else None)
  }

  /** A handshake message is acceptable when it is later than the entry in CHECKING. */
  predicate IsChecking(s: Status, timestamp: int) {
    s.state.Checking? && s.checkingTime.Some? && timestamp > s.checkingTime.value
  }

  predicate AcceptsEvents(s: Status) {
    s.state.Checked? || s.state.Running?
  }

  /** A process event received in CHECKING is ignored, but its date is kept. */
  function AfterEvent(s: Status, now: int): Status {
    if s.state.Checking? then s.(checkingEventTime := Some(now)) else s
  }

  function Invalidated(s: Status, isLocal: bool, fence: bool, now: int): Status {
    Moved(s, if !isLocal && fence then Isolated else Stopped, now)
  }

  /** The handshake is trusted: no event was ignored after the process information was stamped. */
  predicate Trusted(s: Status, infoTime: int) {
    s.checkingEventTime.None? || infoTime >= s.checkingEventTime.value
  }

  function AfterAuthorization(s: Status, isLocal: bool, code: Authorization, timestamp: int, infoTime: int,
                              now: int): Status {
    if !IsChecking(s, timestamp) then s
    else match code
      case UnknownAuthorization => Moved(s, Stopped, now)
      case NotAuthorized => Invalidated(s, isLocal, true, now)
      case Inconsistent => Invalidated(s, isLocal, true, now)
      case Authorized =>
        if !Trusted(s, infoTime) then Moved(s, Stopped, now)
        else
          var checked := Moved(s, Checked, now);
          if isLocal then Moved(checked, Running, now) else checked
  }

  /** A tick is considered from when the local instance is `ready`, as it is tagged against the
      last local tick. */
  function AfterTick(s: Status, ready: bool, now: int): Status {
    if ready && s.state.Stopped? then Moved(s, Checking, now) else s
  }

  /** The handshake dates are only kept in CHECKING. */
  predicate Consistent(s: Status) {
    && (s.state.Checking? <==> s.checkingTime.Some?)
    && (s.checkingEventTime.Some? ==> s.state.Checking?)
  }

  // ---- What becomes of an instance ----

  /** From where each state can be entered. */
  lemma {:induction false} EnteredFrom(from: InstanceState)
    ensures CanMove(from, Stopped) <==> from.Checking? || from.Failed?
    ensures CanMove(from, Checking) <==> from.Stopped?
    ensures CanMove(from, Checked) <==> from.Checking?
    ensures CanMove(from, InstanceState.Running) <==> from.Checked?
    ensures CanMove(from, InstanceState.Failed) <==> from.Checking? || from.Checked? || from.Running?
    ensures CanMove(from, Isolated) <==> from.Checking? || from.Failed?
  {
  }

  /** What happens to one instance, at increasing dates. */
  datatype Op =
    | TickReceived(ready: bool)
    | EventReceived
    | IsAnswered(code: Authorization, timestamp: int, infoTime: int)
    | Fails
    | IsInvalidated(fence: bool)
    | IsActivated

  function Perform(s: Status, isLocal: bool, op: Op, now: int): Status {
    match op
    case TickReceived(ready) => AfterTick(s, ready, now)
    case EventReceived => AfterEvent(s, now)
    case IsAnswered(code, timestamp, infoTime) => AfterAuthorization(s, isLocal, code, timestamp, infoTime, now)
    case Fails => Moved(s, InstanceState.Failed, now)
    case IsInvalidated(fence) => Invalidated(s, isLocal, fence, now)
    case IsActivated => Moved(s, InstanceState.Running, now)
  }

  /** The status after the operations, the date of each being its number from `start` on. */
  function Run(s: Status, isLocal: bool, ops: seq<Op>, start: int): Status
    decreases |ops|
  {
    if ops == [] then s else Run(Perform(s, isLocal, ops[0], start), isLocal, ops[1..], start + 1)
  }

  lemma {:induction false} RunKeepsConsistent(s: Status, isLocal: bool, ops: seq<Op>, start: int)
    requires Consistent(s)
    ensures Consistent(Run(s, isLocal, ops, start))
    decreases |ops|
  {
    if ops != [] {
      RunKeepsConsistent(Perform(s, isLocal, ops[0], start), isLocal, ops[1..], start + 1);
    }
  }

  /** The local instance is never isolated. */
  lemma {:induction false} LocalIsNeverIsolated(s: Status, ops: seq<Op>, start: int)
    requires !s.state.Isolated?
    ensures !Run(s, true, ops, start).state.Isolated?
    decreases |ops|
  {
    if ops != [] {
      LocalIsNeverIsolated(Perform(s, true, ops[0], start), ops[1..], start + 1);
    }
  }

  /** An isolated instance remains so. */
  lemma {:induction false} IsolationIsFinal(s: Status, isLocal: bool, ops: seq<Op>, start: int)
    requires s.state.Isolated?
    ensures Run(s, isLocal, ops, start).state.Isolated?
    decreases |ops|
  {
    if ops != [] {
      IsolationIsFinal(Perform(s, isLocal, ops[0], start), isLocal, ops[1..], start + 1);
    }
  }

  /** A refused remote instance is isolated for good, whatever happens next. */
  lemma {:induction false} RefusedIsIsolated(s: Status, code: Authorization, timestamp: int, infoTime: int, now: int, ops: seq<Op>, start: int)
    requires IsChecking(s, timestamp) && (code.NotAuthorized? || code.Inconsistent?)
    ensures Run(AfterAuthorization(s, false, code, timestamp, infoTime, now), false, ops, start).state.Isolated?
  {
    IsolationIsFinal(AfterAuthorization(s, false, code, timestamp, infoTime, now), false, ops, start);
  }

  /** Where an acceptable authorization leads, by its code and by its date. */
  lemma {:induction false} AuthorizationLeadsTo(s: Status, isLocal: bool, code: Authorization, timestamp: int, infoTime: int, now: int)
    requires IsChecking(s, timestamp)
    ensures var state := AfterAuthorization(s, isLocal, code, timestamp, infoTime, now).state;
            && (state.Running? <==> isLocal && code.Authorized? && Trusted(s, infoTime))
            && (state.Checked? <==> !isLocal && code.Authorized? && Trusted(s, infoTime))
            && (state.Isolated? <==> !isLocal && (code.NotAuthorized? || code.Inconsistent?))
            && (state.Stopped? <==> code.UnknownAuthorization? || (code.Authorized? && !Trusted(s, infoTime))
                                    || (isLocal && !code.Authorized?))
  {
  }

  /** An answer is considered exactly in CHECKING, when it is later than the entry; a positive one is
      rejected exactly when an event has been ignored after the information was stamped. */
  lemma {:induction false} AnswerConsideredExactly(s: Status, code: Authorization, timestamp: int, infoTime: int, now: int)
    requires Consistent(s) && s.state.Checking?
    ensures AfterAuthorization(s, false, code, timestamp, infoTime, now) == s <==> timestamp <= s.checkingTime.value
    ensures timestamp > s.checkingTime.value && code.Authorized? ==>
              (AfterAuthorization(s, false, code, timestamp, infoTime, now).state.Checked? <==>
                 (s.checkingEventTime.Some? ==> s.checkingEventTime.value <= infoTime))
  {
  }

  /** A stopped instance waits for the next tick that is considered, and is then checked again. */
  lemma {:induction false} StoppedWaitsForTick(s: Status, isLocal: bool, ops: seq<Op>, start: int)
    requires s.state.Stopped? && forall l :: 0 <= l < |ops| ==> ops[l] != TickReceived(true)
    ensures Run(s, isLocal, ops, start).state.Stopped?
    ensures forall now :: Perform(Run(s, isLocal, ops, start), isLocal, TickReceived(true), now).state.Checking?
    decreases |ops|
  {
    if ops != [] {
      StoppedWaitsForTick(Perform(s, isLocal, ops[0], start), isLocal, ops[1..], start + 1);
    }
  }

  /** The SupvisorsInstanceStatus object, with the Context handlers that change its state. */
  class SupvisorsInstanceStatus {
    const isLocal: bool
    var state: InstanceState
    var checkingTime: Option<int>
    var checkingEventTime: Option<int>

    ghost function View(): Status
      reads this
    {
      Status(state, checkingTime, checkingEventTime)
    }

    ghost predicate Valid()
      reads this
    {
      Consistent(View())
    }

    constructor (isLocal: bool)
      ensures Valid() && View() == INITIAL && this.isLocal == isLocal
    {
      this.isLocal := isLocal;
      state, checkingTime, checkingEventTime := Stopped, None, None;
    }

    /** The state setter; `ok` is false when it raises InvalidTransition. */
    method SetState(to: InstanceState, now: int) returns (ok: bool)
      requires Valid()
      modifies this
      ensures Valid() && View() == Moved(old(View()), to, now)
      ensures ok <==> state == to
    {
      if state != to {
        if !CanMove(state, to) {
          return false;
        }
        state := to;
        if to == Checking {
          checkingTime := Some(now);
        } else {
          checkingTime := None;
          checkingEventTime := None;
        }
      }
      return true;
    }

    method Invalidate(fence: bool, now: int)
      requires Valid()
      modifies this
      ensures Valid() && View() == Invalidated(old(View()), isLocal, fence, now)
    {
      var ok;
      if isLocal {
        ok := SetState(Stopped, now);
      } else if fence {
        ok := SetState(Isolated, now);
      } else {
        ok := SetState(Stopped, now);
      }
    }

    /** `accepted` tells if the event has to update the process information. */
    method OnProcessStateEvent(now: int) returns (accepted: bool)
      requires Valid()
      modifies this`checkingEventTime
      ensures Valid() && View() == AfterEvent(old(View()), now)
      ensures accepted <==> AcceptsEvents(View())
    {
      if state == Checking {
        checkingEventTime := Some(now);
        return false;
      }
      return state == Checked || state == Running;
    }

    /** `request` tells if a handshake is requested; `localState` is the state of the local instance,
        which does not wait for itself. */
    method OnTickEvent(localState: InstanceState, now: int) returns (request: bool)
      requires Valid()
      modifies this
      ensures Valid() && View() == AfterTick(old(View()), isLocal || localState == Checked || localState == Running, now)
      ensures request <==> old(state) == Stopped && state == Checking
    {
      request := false;
      if !isLocal && localState != Checked && localState != Running {
        return;
      }
      if state == Stopped {
        var ok := SetState(Checking, now);
        request := true;
      }
    }

    method OnAuthorization(code: Authorization, timestamp: int, infoTime: int, now: int)
      requires Valid()
      modifies this
      ensures Valid() && View() == AfterAuthorization(old(View()), isLocal, code, timestamp, infoTime, now)
    {
      if state != Checking || timestamp <= checkingTime.value {
        return;
      }
      var ok;
      if code == UnknownAuthorization {
        ok := SetState(Stopped, now);
      } else if code == NotAuthorized || code == Inconsistent {
        Invalidate(true, now);
      } else if checkingEventTime.Some? && infoTime < checkingEventTime.value {
        ok := SetState(Stopped, now);
      } else {
        ok := SetState(Checked, now);
        if isLocal {
          ok := SetState(Running, now);
        }
      }
    }
  }
}
