/** The handshake between the local Supvisors instance and a remote one, as a protocol: process
    events on one FIFO channel, handshake messages on another, and the proxy thread in between
    (supvisors/context.py, supvisors/internal_com/supervisorproxy.py). */
module Handshake {
  import opened SupvisorsTypes
  import opened ProcessStates
  import opened InstanceStatus

  datatype Info = Info(state: ProcessState, expected: bool)

  datatype ProcessEvent = ProcessEvent(process: string, info: Info)

  type Infos = map<string, Info>

  /** Each event carries the whole new information of its process. */
  function Apply(infos: Infos, events: seq<ProcessEvent>): Infos
    decreases |events|
  {
    if events == [] then infos
    else Apply(infos[events[0].process := events[0].info], events[1..])
  }

  // ---- Events override: a snapshot absorbs the events that precede it ----

  function LastOf(p: string, events: seq<ProcessEvent>): Option<Info> {
    if events == [] then None
    else if events[|events| - 1].process == p then Some(events[|events| - 1].info)
    else LastOf(p, events[..|events| - 1])
  }

  lemma {:induction false} ApplyAppend(infos: Infos, a: seq<ProcessEvent>, b: seq<ProcessEvent>)
    ensures Apply(infos, a + b) == Apply(Apply(infos, a), b)
    decreases |a|
  {
    if a == [] {
      assert a + b == b;
    } else {
      assert (a + b)[1..] == a[1..] + b;
      ApplyAppend(infos[a[0].process := a[0].info], a[1..], b);
    }
  }

  lemma {:induction false} ApplyAt(infos: Infos, events: seq<ProcessEvent>, p: string)
    ensures p in Apply(infos, events) <==> p in infos || LastOf(p, events).Some?
    ensures LastOf(p, events).Some? ==> Apply(infos, events)[p] == LastOf(p, events).value
    ensures LastOf(p, events).None? && p in infos ==> Apply(infos, events)[p] == infos[p]
    decreases |events|
  {
    if events != [] {
      var n := |events| - 1;
      assert events == events[..n] + [events[n]];
      ApplyAppend(infos, events[..n], [events[n]]);
      ApplyAt(infos, events[..n], p);
    }
  }

  lemma {:induction false} LastOfAppend(p: string, a: seq<ProcessEvent>, b: seq<ProcessEvent>)
    ensures LastOf(p, a + b) == if LastOf(p, b).Some? then LastOf(p, b) else LastOf(p, a)
    decreases |b|
  {
    if b == [] {
      assert a + b == a;
    } else {
      var n := |b| - 1;
      assert (a + b)[..|a| + n] == a + b[..n];
      if b[n].process != p {
        LastOfAppend(p, a, b[..n]);
      }
    }
  }

  lemma {:induction false} LastOfOccurs(p: string, events: seq<ProcessEvent>)
    requires LastOf(p, events).Some?
    ensures exists i :: 0 <= i < |events| && events[i] == ProcessEvent(p, LastOf(p, events).value)
    decreases |events|
  {
    var n := |events| - 1;
    if events[n].process == p {
      assert events[n] == ProcessEvent(p, LastOf(p, events).value);
    } else {
      LastOfOccurs(p, events[..n]);
    }
  }

  lemma {:induction false} ReplayAt(base: Infos, log: seq<ProcessEvent>, from: nat, snap: nat, p: string)
    requires from <= snap <= |log|
    ensures var l := Apply(Apply(base, log[..snap]), log[from..]);
            var r := Apply(base, log);
            (p in l <==> p in r) && (p in l ==> l[p] == r[p])
  {
    ApplyAt(base, log[..snap], p);
    ApplyAt(Apply(base, log[..snap]), log[from..], p);
    ApplyAt(base, log, p);
    var before, middle, after := log[..from], log[from..snap], log[snap..];
    assert log == before + log[from..] && log[..snap] == before + middle && log[from..] == middle + after;
    LastOfAppend(p, before, log[from..]);
    LastOfAppend(p, before, middle);
    LastOfAppend(p, middle, after);
  }

  /** Replaying, on a snapshot of the first `snap` events, all events from `from` on. */
  lemma {:induction false} Replay(base: Infos, log: seq<ProcessEvent>, from: nat, snap: nat)
    requires from <= snap <= |log|
    ensures Apply(Apply(base, log[..snap]), log[from..]) == Apply(base, log)
  {
    forall p
      ensures var l := Apply(Apply(base, log[..snap]), log[from..]);
              var r := Apply(base, log);
              (p in l <==> p in r) && (p in l ==> l[p] == r[p])
    {
      ReplayAt(base, log, from, snap, p);
    }
  }

  // ---- The protocol ----

  /** One handshake: `timestamp` is its start, `snap` the number of events that the remote
      process information reflects, `infoTime` the date given to this information. The request
      for the information may fail. */
  datatype Exchange = Exchange(timestamp: int, snap: nat, infoTime: int, failed: bool)

  datatype Proxy = Idle | Begun(timestamp: int) | Answered(timestamp: int, snap: nat) | Informed(exchange: Exchange)

  datatype Notice = AllInfo(exchange: Exchange) | Auth(exchange: Exchange) | Refusal(code: Authorization, timestamp: int)

  /** `received` holds the reception dates of the first events of `log`; the others are still in
      the channel. `loaded` is what the local instance knows about the remote processes. */
  datatype Net = Net(
    now: int,
    base: Infos,
    log: seq<ProcessEvent>,
    received: seq<int>,
    status: Status,
    loaded: Infos,
    requests: nat,
    proxy: Proxy,
    inbox: seq<Notice>)

  datatype Action =
    | Emit(event: ProcessEvent)
    | Deliver
    | RemoteTick(ready: bool)
    | ProxyBegin
    | ProxyRefuse(code: Authorization)
    | ProxyAnswer
    | ProxyInform(failed: bool)
    | ProxyAuthorize
    | HandleNotice
    | InstanceFails
    | InvalidateFailed(fence: bool)
    | ActivateChecked

  function RemoteInfos(n: Net): Infos {
    Apply(n.base, n.log)
  }

  function Snapshot(n: Net, snap: nat): Infos {
    Apply(n.base, if snap <= |n.log| then n.log[..snap] else n.log)
  }

  /** load_processes: nothing is loaded out of CHECKING, and a failed request stops the handshake. */
  function Loaded(n: Net, x: Exchange): Net {
    if x.failed then n.(status := Moved(n.status, InstanceState.Stopped, n.now))
    else if !n.status.state.Checking? then n
    else n.(loaded := n.loaded + Snapshot(n, x.snap))
  }

  function Handled(n: Net, notice: Notice): Net {
    match notice
    case AllInfo(x) => Loaded(n, x)
    case Auth(x) => n.(status := AfterAuthorization(n.status, false, Authorized, x.timestamp, x.infoTime, n.now))
    case Refusal(code, timestamp) => n.(status := AfterAuthorization(n.status, false, code, timestamp, timestamp, n.now))
  }

  function Delivered(n: Net): Net {
    if |n.received| >= |n.log| then n
    else
      var e := n.log[|n.received|];
      n.(received := n.received + [n.now],
         status := AfterEvent(n.status, n.now),
         loaded := if AcceptsEvents(n.status) then n.loaded[e.process := e.info] else n.loaded)
  }

  /** One action at date `n.now`; an action that is not enabled changes nothing. As in the proxy
      thread, the information is stamped after the remote instance has answered. */
  function Act(n: Net, a: Action): Net {
    match a
    case Emit(event) => n.(log := n.log + [event])
    case Deliver => Delivered(n)
    case RemoteTick(ready) =>
      n.(status := AfterTick(n.status, ready, n.now),
         requests := if ready && n.status.state.Stopped? then n.requests + 1 else n.requests)
    case ProxyBegin => if n.proxy.Idle? && n.requests > 0 then n.(proxy := Begun(n.now), requests := n.requests - 1) else n
    case ProxyRefuse(code) =>
      if n.proxy.Begun? && !code.Authorized? then
        n.(proxy := Idle, inbox := n.inbox + [Refusal(code, n.proxy.timestamp)])
      else n
    case ProxyAnswer => if n.proxy.Begun? then n.(proxy := Answered(n.proxy.timestamp, |n.log|)) else n
    case ProxyInform(failed) =>
      if n.proxy.Answered? then
        var x := Exchange(n.proxy.timestamp, n.proxy.snap, n.now, failed);
        n.(proxy := Informed(x), inbox := n.inbox + [AllInfo(x)])
      else n
    case ProxyAuthorize =>
      if n.proxy.Informed? then n.(proxy := Idle, inbox := n.inbox + [Auth(n.proxy.exchange)]) else n
    case HandleNotice => if n.inbox == [] then n else Handled(n.(inbox := n.inbox[1..]), n.inbox[0])
    case InstanceFails => n.(status := Moved(n.status, InstanceState.Failed, n.now))
    case InvalidateFailed(fence) =>
      if n.status.state.Failed? then n.(status := Invalidated(n.status, false, fence, n.now)) else n
    case ActivateChecked =>
      if n.status.state.Checked? then n.(status := Moved(n.status, InstanceState.Running, n.now)) else n
  }

  /** Actions take place at increasing dates of the local monotonic clock. */
  datatype Timed = Timed(delay: nat, action: Action)

  function Wait(n: Net, delay: nat): Net {
    n.(now := n.now + 1 + delay)
  }

  function Step(n: Net, t: Timed): Net {
    Act(Wait(n, t.delay), t.action)
  }

  function Run(n: Net, ts: seq<Timed>): Net
    decreases |ts|
  {
    if ts == [] then n else Run(Step(n, ts[0]), ts[1..])
  }

  function Start(base: Infos): Net {
    Net(0, base, [], [], INITIAL, map[], 0, Idle, [])
  }

  // ---- Invariant of the protocol ----

  ghost predicate ReceivedOnTime(n: Net) {
    && |n.received| <= |n.log|
    && (forall i :: 0 <= i < |n.received| ==> n.received[i] <= n.now)
    && (forall i, j :: 0 <= i < j < |n.received| ==> n.received[i] < n.received[j])
  }

  /** In CHECKING, the date of the last event received since the entry is known. */
  ghost predicate LastEventKnown(n: Net) {
    && Consistent(n.status)
    && (n.status.state.Checking? ==> n.status.checkingTime.value <= n.now)
    && (n.status.state.Checking? && n.received != [] && n.received[|n.received| - 1] > n.status.checkingTime.value ==>
          n.status.checkingEventTime == Some(n.received[|n.received| - 1]))
  }

  ghost predicate ExchangeValid(n: Net, x: Exchange) {
    x.timestamp < x.infoTime <= n.now && x.snap <= |n.log|
  }

  /** Events that the snapshot does not reflect are received after the snapshot is taken. */
  ghost predicate ReceivedAfter(n: Net, snap: nat, date: int) {
    forall i :: snap <= i < |n.received| ==> n.received[i] > date
  }

  ghost predicate NoticeValid(n: Net, m: Notice) {
    match m
    case AllInfo(x) => ExchangeValid(n, x) && ReceivedAfter(n, x.snap, x.timestamp)
    case Auth(x) => ExchangeValid(n, x) && ReceivedAfter(n, x.snap, x.timestamp)
    case Refusal(code, timestamp) => timestamp <= n.now && !code.Authorized?
  }

  ghost predicate ProxyValid(n: Net) {
    match n.proxy
    case Idle => true
    case Begun(timestamp) => timestamp <= n.now
    case Answered(timestamp, snap) => timestamp < n.now && snap <= |n.log| && ReceivedAfter(n, snap, timestamp)
    case Informed(x) => ExchangeValid(n, x) && ReceivedAfter(n, x.snap, x.timestamp)
  }

  /** The authorization of an exchange follows its information. */
  ghost predicate InOrder(n: Net) {
    && (forall k :: 0 < k < |n.inbox| && n.inbox[k].Auth? ==> n.inbox[k - 1] == AllInfo(n.inbox[k].exchange))
    && (n.proxy.Informed? && n.inbox != [] ==> n.inbox[|n.inbox| - 1] == AllInfo(n.proxy.exchange))
  }

  /** If this exchange can still be accepted, its information is what is loaded. */
  ghost predicate IsLoaded(n: Net, x: Exchange) {
    IsChecking(n.status, x.timestamp) ==> !x.failed && x.snap <= |n.log| && n.loaded == Snapshot(n, x.snap)
  }

  ghost predicate NextIsLoaded(n: Net) {
    && (n.inbox != [] && n.inbox[0].Auth? ==> IsLoaded(n, n.inbox[0].exchange))
    && (n.inbox == [] && n.proxy.Informed? ==> IsLoaded(n, n.proxy.exchange))
  }

  /** All processes are known from the start: loading never leaves a stale entry behind. */
  ghost predicate KnownProcesses(n: Net) {
    && n.loaded.Keys <= n.base.Keys
    && (forall i :: 0 <= i < |n.log| ==> n.log[i].process in n.base)
  }

  ghost predicate Inv(n: Net) {
    && ReceivedOnTime(n)
    && LastEventKnown(n)
    && ProxyValid(n)
    && (forall k :: 0 <= k < |n.inbox| ==> NoticeValid(n, n.inbox[k]))
    && InOrder(n)
    && NextIsLoaded(n)
    && KnownProcesses(n)
  }

  /** The processes of the emitted events belong to the remote instance. */
  predicate Sensible(base: Infos, a: Action) {
    a.Emit? ==> a.event.process in base
  }

  // ---- What a later state keeps of an earlier one ----

  /** `n` comes after `n0`: logs only grow, and what is new is received later. */
  ghost predicate After(n0: Net, n: Net) {
    && n0.now < n.now
    && n.base == n0.base
    && |n0.log| <= |n.log| && n.log[..|n0.log|] == n0.log
    && |n0.received| <= |n.received|
    && (forall i :: 0 <= i < |n0.received| ==> n.received[i] == n0.received[i])
    && (forall i :: |n0.received| <= i < |n.received| ==> n.received[i] > n0.now)
  }

  lemma {:induction false} ActComesAfter(n0: Net, n: Net, a: Action)
    requires n == n0.(now := n.now) && n0.now < n.now
    ensures After(n0, Act(n, a))
  {
  }

  lemma {:induction false} StaysLoaded(n0: Net, n: Net, x: Exchange)
    requires After(n0, n) && IsLoaded(n0, x)
    requires IsChecking(n.status, x.timestamp) ==> IsChecking(n0.status, x.timestamp) && n.loaded == n0.loaded
    ensures IsLoaded(n, x)
  {
    if IsChecking(n.status, x.timestamp) {
      assert n.log[..x.snap] == n0.log[..x.snap];
    }
  }

  /** The status changes that a step makes outside of the handling of a message. */
  ghost predicate KeepsLoading(n0: Net, n: Net) {
    forall t: int :: t <= n0.now && IsChecking(n.status, t) ==> IsChecking(n0.status, t) && n.loaded == n0.loaded
  }

  lemma {:induction false} NextStaysLoaded(n0: Net, n: Net)
    requires After(n0, n) && ProxyValid(n0) && NextIsLoaded(n0) && KeepsLoading(n0, n)
    requires n0.inbox != [] ==> NoticeValid(n0, n0.inbox[0])
    requires n.inbox == n0.inbox && n.proxy == n0.proxy
    ensures NextIsLoaded(n)
  {
    if n.inbox != [] && n.inbox[0].Auth? {
      StaysLoaded(n0, n, n.inbox[0].exchange);
    }
    if n.inbox == [] && n.proxy.Informed? {
      StaysLoaded(n0, n, n.proxy.exchange);
    }
  }

  /** Steps that touch neither the messages nor the proxy keep what is known about them. */
  lemma {:induction false} MessagesKept(n0: Net, n: Net)
    requires Inv(n0) && After(n0, n) && KeepsLoading(n0, n)
    requires n.inbox == n0.inbox && n.proxy == n0.proxy
    ensures ProxyValid(n) && InOrder(n) && NextIsLoaded(n)
    ensures forall k :: 0 <= k < |n.inbox| ==> NoticeValid(n, n.inbox[k])
  {
    forall k | 0 <= k < |n.inbox| ensures NoticeValid(n, n.inbox[k]) {
    }
    NextStaysLoaded(n0, n);
  }

  // ---- Every action keeps the invariant ----

  lemma {:induction false} DeliverKeepsDates(n0: Net, n: Net)
    requires ReceivedOnTime(n0) && LastEventKnown(n0)
    requires n == n0.(now := n.now) && n0.now < n.now
    ensures ReceivedOnTime(Act(n, Deliver)) && LastEventKnown(Act(n, Deliver)) && KeepsLoading(n0, Act(n, Deliver))
  {
  }

  lemma {:induction false} EmitOrDeliverKeepsInv(n0: Net, n: Net, a: Action)
    requires Inv(n0) && (a.Emit? || a.Deliver?) && Sensible(n0.base, a)
    requires n == n0.(now := n.now) && n0.now < n.now
    ensures Inv(Act(n, a))
  {
    var n' := Act(n, a);
    ActComesAfter(n0, n, a);
    if a.Deliver? {
      DeliverKeepsDates(n0, n);
    }
    MessagesKept(n0, n');
    assert KnownProcesses(n0);
  }

  lemma {:induction false} StatusKeepsInv(n0: Net, n: Net, a: Action)
    requires Inv(n0) && (a.RemoteTick? || a.InstanceFails? || a.InvalidateFailed? || a.ActivateChecked?)
    requires n == n0.(now := n.now) && n0.now < n.now
    ensures Inv(Act(n, a))
  {
    var n' := Act(n, a);
    ActComesAfter(n0, n, a);
    assert LastEventKnown(n') && KeepsLoading(n0, n');
    MessagesKept(n0, n');
  }

  lemma {:induction false} ProxyKeepsOrder(n0: Net, n: Net, a: Action)
    requires InOrder(n0) && NextIsLoaded(n0) && n == n0.(now := n.now)
    requires a.ProxyBegin? || a.ProxyRefuse? || a.ProxyAnswer? || a.ProxyInform? || a.ProxyAuthorize?
    ensures InOrder(Act(n, a)) && NextIsLoaded(Act(n, a))
  {
    assert NextIsLoaded(n);
  }

  lemma {:induction false} ProxyKeepsValid(n0: Net, n: Net, a: Action)
    requires ProxyValid(n0) && After(n0, Act(n, a)) && n == n0.(now := n.now) && n0.now < n.now
    requires ReceivedOnTime(n0)
    requires a.ProxyBegin? || a.ProxyRefuse? || a.ProxyAnswer? || a.ProxyInform? || a.ProxyAuthorize?
    ensures ProxyValid(Act(n, a))
  {
  }

  lemma {:induction false} ProxyKeepsNotices(n0: Net, n: Net, a: Action, k: nat)
    requires ProxyValid(n0) && After(n0, Act(n, a)) && n == n0.(now := n.now) && n0.now < n.now
    requires a.ProxyBegin? || a.ProxyRefuse? || a.ProxyAnswer? || a.ProxyInform? || a.ProxyAuthorize?
    requires k < |Act(n, a).inbox| && (k < |n0.inbox| ==> NoticeValid(n0, n0.inbox[k]))
    ensures NoticeValid(Act(n, a), Act(n, a).inbox[k])
  {
  }

  lemma {:induction false} ProxyKeepsInv(n0: Net, n: Net, a: Action)
    requires Inv(n0) && n == n0.(now := n.now) && n0.now < n.now
    requires a.ProxyBegin? || a.ProxyRefuse? || a.ProxyAnswer? || a.ProxyInform? || a.ProxyAuthorize?
    ensures Inv(Act(n, a))
  {
    var n' := Act(n, a);
    ActComesAfter(n0, n, a);
    ProxyKeepsOrder(n0, n, a);
    ProxyKeepsValid(n0, n, a);
    forall k | 0 <= k < |n'.inbox| ensures NoticeValid(n', n'.inbox[k]) {
      ProxyKeepsNotices(n0, n, a, k);
    }
  }

  lemma {:induction false} SnapshotKnowsAll(n: Net, snap: nat)
    requires KnownProcesses(n)
    ensures Snapshot(n, snap).Keys == n.base.Keys
  {
    var events := if snap <= |n.log| then n.log[..snap] else n.log;
    forall p ensures p in Snapshot(n, snap) <==> p in n.base {
      ApplyAt(n.base, events, p);
      if LastOf(p, events).Some? {
        LastOfOccurs(p, events);
      }
    }
  }

  lemma {:induction false} LoadKeepsInv(n0: Net, n: Net, x: Exchange)
    requires Inv(n0) && n0.inbox != [] && n0.inbox[0] == AllInfo(x)
    requires n == n0.(now := n.now) && n0.now < n.now
    ensures Inv(Act(n, HandleNotice))
  {
    var n' := Act(n, HandleNotice);
    ActComesAfter(n0, n, HandleNotice);
    SnapshotKnowsAll(n0, x.snap);
    assert n0.loaded + Snapshot(n0, x.snap) == Snapshot(n0, x.snap);
    TailKeepsMessages(n0, n');
    assert NoticeValid(n0, n0.inbox[0]);
    assert IsLoaded(n', x);
  }

  /** Handling a message consumes it. */
  lemma {:induction false} TailKeepsMessages(n0: Net, n: Net)
    requires Inv(n0) && After(n0, n) && n0.inbox != []
    requires n.inbox == n0.inbox[1..] && n.proxy == n0.proxy
    ensures forall k :: 0 <= k < |n.inbox| ==> NoticeValid(n, n.inbox[k])
    ensures ProxyValid(n) && InOrder(n)
  {
    forall k | 0 <= k < |n.inbox| ensures NoticeValid(n, n.inbox[k]) {
    }
    forall k | 0 < k < |n.inbox| && n.inbox[k].Auth? ensures n.inbox[k - 1] == AllInfo(n.inbox[k].exchange) {
      assert n0.inbox[k + 1].Auth?;
    }
  }

  lemma {:induction false} AnswerKeepsInv(n0: Net, n: Net)
    requires Inv(n0) && n0.inbox != [] && !n0.inbox[0].AllInfo?
    requires n == n0.(now := n.now) && n0.now < n.now
    ensures Inv(Act(n, HandleNotice))
  {
    var n' := Act(n, HandleNotice);
    ActComesAfter(n0, n, HandleNotice);
    TailKeepsMessages(n0, n');
    assert LastEventKnown(n');
    assert KnownProcesses(n0);
  }

  lemma {:induction false} ActKeepsInv(n0: Net, n: Net, a: Action)
    requires Inv(n0) && Sensible(n0.base, a) && n == n0.(now := n.now) && n0.now < n.now
    ensures Inv(Act(n, a))
  {
    match a
    case Emit(_) => EmitOrDeliverKeepsInv(n0, n, a);
    case Deliver => EmitOrDeliverKeepsInv(n0, n, a);
    case RemoteTick(_) => StatusKeepsInv(n0, n, a);
    case InstanceFails => StatusKeepsInv(n0, n, a);
    case InvalidateFailed(_) => StatusKeepsInv(n0, n, a);
    case ActivateChecked => StatusKeepsInv(n0, n, a);
    case HandleNotice =>
      if n.inbox != [] && n.inbox[0].AllInfo? {
        LoadKeepsInv(n0, n, n.inbox[0].exchange);
      } else if n.inbox != [] {
        AnswerKeepsInv(n0, n);
      }
    case _ => ProxyKeepsInv(n0, n, a);
  }

  lemma {:induction false} StepKeepsInv(n: Net, t: Timed)
    requires Inv(n) && Sensible(n.base, t.action)
    ensures Inv(Step(n, t)) && Step(n, t).base == n.base
  {
    ActComesAfter(n, Wait(n, t.delay), t.action);
    ActKeepsInv(n, Wait(n, t.delay), t.action);
  }

  ghost predicate AllSensible(base: Infos, ts: seq<Timed>) {
    forall k :: 0 <= k < |ts| ==> Sensible(base, ts[k].action)
  }

  lemma {:induction false} RunKeepsInv(n: Net, ts: seq<Timed>)
    requires Inv(n) && AllSensible(n.base, ts)
    ensures Inv(Run(n, ts))
    decreases |ts|
  {
    if ts != [] {
      StepKeepsInv(n, ts[0]);
      RunKeepsInv(Step(n, ts[0]), ts[1..]);
    }
  }

  // ---- What a refused handshake does ----

  /** The next message is a refusal that is later than the entry in CHECKING. */
  predicate Refusing(n: Net, code: Authorization) {
    n.inbox != [] && n.inbox[0].Refusal? && n.inbox[0].code == code && IsChecking(n.status, n.inbox[0].timestamp)
  }

  lemma {:induction false} IsolatedStays(n: Net, ts: seq<Timed>)
    requires n.status.state.Isolated?
    ensures var n' := Run(n, ts); n'.status.state.Isolated? && n'.requests <= n.requests && n'.loaded == n.loaded
    decreases |ts|
  {
    if ts != [] {
      IsolatedStays(Step(n, ts[0]), ts[1..]);
    }
  }

  /** A remote instance that refuses the local one, or whose configuration is inconsistent, is isolated
      for good: from then on, no handshake is requested and nothing is loaded from it. */
  lemma {:induction false} RefusalIsFinal(n: Net, code: Authorization, delay: nat, ts: seq<Timed>)
    requires Refusing(n, code) && (code.NotAuthorized? || code.Inconsistent?)
    ensures var n' := Run(Step(n, Timed(delay, HandleNotice)), ts);
            n'.status.state.Isolated? && n'.requests <= n.requests && n'.loaded == n.loaded
  {
    IsolatedStays(Step(n, Timed(delay, HandleNotice)), ts);
  }

  /** So is a handshake that the remote instance refuses: the refusal is posted, then handled. */
  lemma {:induction false} RefusedHandshake(n: Net, code: Authorization, first: nat, second: nat)
    requires n.proxy.Begun? && n.inbox == [] && IsChecking(n.status, n.proxy.timestamp) && (code.NotAuthorized? || code.Inconsistent?)
    ensures var n' := Step(Step(n, Timed(first, ProxyRefuse(code))), Timed(second, HandleNotice));
            n'.status.state.Isolated? && n'.proxy.Idle? && n'.inbox == []
  {
  }

  lemma {:induction false} StoppedStays(n: Net, ts: seq<Timed>)
    requires n.status.state.Stopped? && forall l :: 0 <= l < |ts| ==> ts[l].action != RemoteTick(true)
    ensures var n' := Run(n, ts); n'.status.state.Stopped? && n'.requests <= n.requests && n'.loaded == n.loaded
    decreases |ts|
  {
    if ts != [] {
      StoppedStays(Step(n, ts[0]), ts[1..]);
    }
  }

  /** An instance that has not answered, or whose acceptance comes after an ignored event, is stopped;
      nothing happens until its next tick, which requests another handshake. */
  lemma {:induction false} RetriedAtNextTick(n: Net, delay: nat, ts: seq<Timed>, later: nat)
    requires || Refusing(n, UnknownAuthorization)
             || (n.inbox != [] && n.inbox[0].Auth? && IsChecking(n.status, n.inbox[0].exchange.timestamp)
                 && !Trusted(n.status, n.inbox[0].exchange.infoTime))
    requires forall l :: 0 <= l < |ts| ==> ts[l].action != RemoteTick(true)
    ensures var n' := Run(Step(n, Timed(delay, HandleNotice)), ts);
            var n'' := Step(n', Timed(later, RemoteTick(true)));
            && n'.status.state.Stopped? && n'.requests <= n.requests && n'.loaded == n.loaded
            && n''.status.state.Checking? && n''.requests == n'.requests + 1
  {
    StoppedStays(Step(n, Timed(delay, HandleNotice)), ts);
  }

  /** Once accepted, an instance is activated, and lost only by a failure, after which it is stopped, or
      isolated when fenced; none of this loses what is loaded. */
  lemma {:induction false} LifeAfterAcceptance(n: Net, delay: nat, fence: bool)
    requires AcceptsEvents(n.status)
    ensures var activated := Step(n, Timed(delay, ActivateChecked));
            activated.status.state == InstanceState.Running && activated.loaded == n.loaded
    ensures var failed := Step(n, Timed(delay, InstanceFails));
            var invalidated := Step(failed, Timed(delay, InvalidateFailed(fence)));
            && failed.status.state == InstanceState.Failed && failed.loaded == n.loaded
            && invalidated.status.state == (if fence then Isolated else InstanceState.Stopped) && invalidated.loaded == n.loaded
  {
  }

  // ---- What an accepted handshake misses ----

  /** What is loaded becomes the remote information once the channel is empty. */
  ghost predicate Coherent(n: Net) {
    |n.received| <= |n.log| && Apply(n.loaded, n.log[|n.received|..]) == RemoteInfos(n)
  }

  /** The next message is an authorization that leads to CHECKED. */
  predicate Accepting(n: Net, x: Exchange) {
    n.inbox != [] && n.inbox[0] == Auth(x) && IsChecking(n.status, x.timestamp) && Trusted(n.status, x.infoTime)
  }

  /** An event that the snapshot does not reflect can only have slipped in between the remote
      snapshot and its time stamp. */
  lemma {:induction false} AcceptedMissesWindowOnly(base: Infos, ts: seq<Timed>, x: Exchange)
    requires AllSensible(base, ts) && Accepting(Run(Start(base), ts), x)
    ensures var n := Run(Start(base), ts);
            && n.loaded == Snapshot(n, x.snap) && x.snap <= |n.log|
            && forall i :: x.snap <= i < |n.received| ==> x.timestamp < n.received[i] <= x.infoTime
  {
    RunKeepsInv(Start(base), ts);
    var n := Run(Start(base), ts);
    assert NoticeValid(n, n.inbox[0]);
  }

  predicate SameProcesses(a: seq<ProcessEvent>, b: seq<ProcessEvent>) {
    |a| == |b| && forall i :: 0 <= i < |a| ==> a[i].process == b[i].process
  }

  ghost predicate HasEventFrom(log: seq<ProcessEvent>, from: nat, p: string) {
    exists j :: from <= j < |log| && log[j].process == p
  }

  /** Each process with an event in `log[snap..from]` has a later event. */
  ghost predicate Superseded(log: seq<ProcessEvent>, snap: nat, from: nat) {
    forall i :: snap <= i < from && i < |log| ==> HasEventFrom(log, from, log[i].process)
  }

  lemma {:induction false} LastOfNone(p: string, events: seq<ProcessEvent>)
    requires forall i :: 0 <= i < |events| ==> events[i].process != p
    ensures LastOf(p, events).None?
    decreases |events|
  {
    if events != [] {
      LastOfNone(p, events[..|events| - 1]);
    }
  }

  lemma {:induction false} LastOfSome(p: string, events: seq<ProcessEvent>, i: nat)
    requires i < |events| && events[i].process == p
    ensures LastOf(p, events).Some?
    decreases |events|
  {
    if events[|events| - 1].process != p {
      LastOfSome(p, events[..|events| - 1], i);
    }
  }

  /** The skipped events are harmless when they are superseded. */
  lemma {:induction false} SupersededReplay(base: Infos, log: seq<ProcessEvent>, from: nat, snap: nat)
    requires snap <= from <= |log| && Superseded(log, snap, from)
    ensures Apply(Apply(base, log[..snap]), log[from..]) == Apply(base, log)
  {
    forall p
      ensures var l := Apply(Apply(base, log[..snap]), log[from..]);
              var r := Apply(base, log);
              (p in l <==> p in r) && (p in l ==> l[p] == r[p])
    {
      SkippedAt(base, log, from, snap, p);
      if LastOf(p, log[snap..from]).Some? {
        LastOfOccurs(p, log[snap..from]);
        var i :| 0 <= i < |log[snap..from]| && log[snap..from][i].process == p;
        assert log[snap + i].process == p;
        var j :| from <= j < |log| && log[j].process == p;
        LastOfSome(p, log[from..], j - from);
      }
    }
  }

  /** What replaying without `log[snap..from]` gives for one process. */
  lemma {:induction false} SkippedAt(base: Infos, log: seq<ProcessEvent>, from: nat, snap: nat, p: string)
    requires snap <= from <= |log|
    ensures var l := Apply(Apply(base, log[..snap]), log[from..]);
            var r := Apply(base, log);
            && (LastOf(p, log[snap..from]).None? || LastOf(p, log[from..]).Some? ==>
                  (p in l <==> p in r) && (p in l ==> l[p] == r[p]))
            && (LastOf(p, log[snap..from]).Some? && LastOf(p, log[from..]).None? ==>
                  p in r && r[p] == LastOf(p, log[snap..from]).value)
  {
    ApplyAt(base, log[..snap], p);
    ApplyAt(Apply(base, log[..snap]), log[from..], p);
    ApplyAt(base, log, p);
    assert log == log[..from] + log[from..];
    assert log[..from] == log[..snap] + log[snap..from];
    LastOfAppend(p, log[..from], log[from..]);
    LastOfAppend(p, log[..snap], log[snap..from]);
  }

  lemma {:induction false} LastOfAt(p: string, events: seq<ProcessEvent>, i: nat)
    requires i < |events| && events[i].process == p
    requires forall j :: i < j < |events| ==> events[j].process != p
    ensures LastOf(p, events) == Some(events[i].info)
    decreases |events|
  {
    if i < |events| - 1 {
      LastOfAt(p, events[..|events| - 1], i);
    }
  }

  lemma {:induction false} LastIndex(p: string, log: seq<ProcessEvent>, i: nat) returns (k: nat)
    requires i < |log| && log[i].process == p
    ensures i <= k < |log| && log[k].process == p
    ensures forall j :: k < j < |log| ==> log[j].process != p
    decreases |log| - i
  {
    if j :| i < j < |log| && log[j].process == p {
      k := LastIndex(p, log, j);
    } else {
      k := i;
    }
  }

  /** An event that is skipped and not superseded makes a difference for some of its contents. */
  lemma {:induction false} SkippedIsLost(base: Infos, log: seq<ProcessEvent>, from: nat, snap: nat, i: nat) returns (log': seq<ProcessEvent>)
    requires snap <= i < from <= |log|
    requires forall j :: from <= j < |log| ==> log[j].process != log[i].process
    ensures SameProcesses(log', log)
    ensures Apply(Apply(base, log'[..snap]), log'[from..]) != Apply(base, log')
  {
    var p := log[i].process;
    var k := LastIndex(p, log, i);
    var left := Apply(Apply(base, log[..snap]), log[from..]);
    var other := if p in left && left[p] == Info(ProcessState.Running, true) then Info(Fatal, false) else Info(ProcessState.Running, true);
    log' := log[k := ProcessEvent(p, other)];
    assert log'[..snap] == log[..snap] && log'[from..] == log[from..];
    var skipped := log'[snap..from];
    assert skipped[k - snap] == ProcessEvent(p, other);
    LastOfAt(p, skipped, k - snap);
    LastOfNone(p, log'[from..]);
    SkippedAt(base, log', from, snap, p);
  }

  predicate LosesNothing(base: Infos, log: seq<ProcessEvent>, from: nat, snap: nat)
    requires snap <= |log| && from <= |log|
  {
    Apply(Apply(base, log[..snap]), log[from..]) == Apply(base, log)
  }

  /** Exactly when an accepted snapshot loses nothing, whatever the contents of the events. */
  lemma {:induction false} LosesNothingExactly(base: Infos, log: seq<ProcessEvent>, from: nat, snap: nat)
    requires snap <= |log| && from <= |log|
    ensures (forall log' :: SameProcesses(log', log) ==> LosesNothing(base, log', from, snap))
            <==> from <= snap || Superseded(log, snap, from)
  {
    if from <= snap {
      forall log' | SameProcesses(log', log) ensures LosesNothing(base, log', from, snap) {
        Replay(base, log', from, snap);
      }
    } else if Superseded(log, snap, from) {
      forall log' | SameProcesses(log', log) ensures LosesNothing(base, log', from, snap) {
        SupersededReplay(base, log', from, snap);
      }
    } else {
      var i :| snap <= i < from && i < |log| && !HasEventFrom(log, from, log[i].process);
      var log' := SkippedIsLost(base, log, from, snap, i);
      assert SameProcesses(log', log) && !LosesNothing(base, log', from, snap);
    }
  }

  /** What an accepted handshake is worth, over all runs: it is coherent exactly when its snapshot
      loses nothing of what has been received. This does not depend on the contents of the events
      exactly when nothing has been skipped, or when each skipped event is superseded. */
  lemma {:induction false} AcceptedIsCoherentExactly(base: Infos, ts: seq<Timed>, x: Exchange)
    requires AllSensible(base, ts) && Accepting(Run(Start(base), ts), x)
    ensures var n := Run(Start(base), ts);
            && x.snap <= |n.log| && |n.received| <= |n.log|
            && (Coherent(n) <==> LosesNothing(n.base, n.log, |n.received|, x.snap))
            && ((forall log' :: SameProcesses(log', n.log) ==> LosesNothing(n.base, log', |n.received|, x.snap))
                <==> |n.received| <= x.snap || Superseded(n.log, x.snap, |n.received|))
  {
    RunKeepsInv(Start(base), ts);
    AcceptedMissesWindowOnly(base, ts, x);
    var n := Run(Start(base), ts);
    LosesNothingExactly(n.base, n.log, |n.received|, x.snap);
  }

  /** The step that opens the gate to the events, in any run, is the acceptance of an exchange; it
      makes what is loaded coherent exactly when the snapshot of this exchange loses nothing. */
  lemma {:induction false} OpeningIsCoherentExactly(base: Infos, ts: seq<Timed>, t: Timed) returns (x: Exchange)
    requires AllSensible(base, ts) && Sensible(base, t.action)
    requires !AcceptsEvents(Run(Start(base), ts).status) && AcceptsEvents(Step(Run(Start(base), ts), t).status)
    ensures var n, n' := Run(Start(base), ts), Step(Run(Start(base), ts), t);
            && Accepting(n, x) && x.snap <= |n'.log| && |n'.received| <= |n'.log|
            && (Coherent(n') <==> LosesNothing(n'.base, n'.log, |n'.received|, x.snap))
  {
    RunKeepsInv(Start(base), ts);
    var n := Run(Start(base), ts);
    assert n.inbox != [] ==> NoticeValid(n, n.inbox[0]);
    GateOpensByAcceptance(Wait(n, t.delay), t.action);
    x := n.inbox[0].exchange;
    AcceptedIsCoherentExactly(base, ts, x);
  }

  // ---- No event is lost when nothing is received in the window ----

  /** No event that the snapshot does not reflect is received before the snapshot is stamped. */
  predicate QuietWindow(n: Net, a: Action) {
    a.Deliver? && n.proxy.Answered? ==> |n.received| < n.proxy.snap
  }

  ghost predicate AllQuiet(n: Net, ts: seq<Timed>)
    decreases |ts|
  {
    ts == [] || (QuietWindow(n, ts[0].action) && AllQuiet(Step(n, ts[0]), ts[1..]))
  }

  ghost predicate QuietNotice(n: Net, m: Notice) {
    m.Auth? ==> ReceivedAfter(n, m.exchange.snap, m.exchange.infoTime)
  }

  ghost predicate Quiet(n: Net) {
    && (n.proxy.Answered? ==> |n.received| <= n.proxy.snap)
    && (n.proxy.Informed? ==> ReceivedAfter(n, n.proxy.exchange.snap, n.proxy.exchange.infoTime))
    && (forall k :: 0 <= k < |n.inbox| ==> QuietNotice(n, n.inbox[k]))
    && (AcceptsEvents(n.status) ==> Coherent(n))
  }

  lemma {:induction false} QuietStays(n0: Net, n: Net, x: Exchange)
    requires After(n0, n) && ExchangeValid(n0, x) && ReceivedAfter(n0, x.snap, x.infoTime)
    ensures ReceivedAfter(n, x.snap, x.infoTime)
  {
  }

  lemma {:induction false} QuietMessages(n0: Net, n: Net, a: Action)
    requires Inv(n0) && Quiet(n0) && QuietWindow(n0, a) && n == n0.(now := n.now) && n0.now < n.now
    requires After(n0, Act(n, a))
    ensures var n' := Act(n, a);
            && (n'.proxy.Answered? ==> |n'.received| <= n'.proxy.snap)
            && (n'.proxy.Informed? ==> ReceivedAfter(n', n'.proxy.exchange.snap, n'.proxy.exchange.infoTime))
            && (forall k :: 0 <= k < |n'.inbox| ==> QuietNotice(n', n'.inbox[k]))
  {
    var n' := Act(n, a);
    assert ProxyValid(n0);
    if n.proxy.Informed? {
      QuietStays(n0, n', n.proxy.exchange);
    }
    forall k | 0 <= k < |n0.inbox| && n0.inbox[k].Auth? ensures QuietNotice(n', n0.inbox[k]) {
      assert NoticeValid(n0, n0.inbox[k]);
      QuietStays(n0, n', n0.inbox[k].exchange);
    }
  }

  lemma {:induction false} DeliverKeepsCoherent(n: Net)
    requires Coherent(n) && AcceptsEvents(n.status)
    ensures Coherent(Act(n, Deliver))
  {
    if |n.received| < |n.log| {
      var rest := n.log[|n.received|..];
      assert rest[1..] == n.log[|n.received| + 1..];
    }
  }

  lemma {:induction false} EmitKeepsCoherent(n: Net, event: ProcessEvent)
    requires Coherent(n)
    ensures Coherent(Act(n, Emit(event)))
  {
    var rest := n.log[|n.received|..];
    assert (n.log + [event])[|n.received|..] == rest + [event];
    ApplyAppend(n.loaded, rest, [event]);
    ApplyAppend(n.base, n.log, [event]);
  }

  lemma {:induction false} AcceptanceIsCoherent(n: Net, x: Exchange)
    requires Inv(n) && Quiet(n) && Accepting(n, x)
    ensures Coherent(n)
  {
    assert NoticeValid(n, n.inbox[0]) && QuietNotice(n, n.inbox[0]);
    Replay(n.base, n.log, |n.received|, x.snap);
  }

  /** Only an accepted authorization opens the gate, and it changes nothing else. */
  lemma {:induction false} GateOpensByAcceptance(n: Net, a: Action)
    requires Consistent(n.status) && !AcceptsEvents(n.status) && AcceptsEvents(Act(n, a).status)
    requires n.inbox != [] && n.inbox[0].Refusal? ==> !n.inbox[0].code.Authorized?
    ensures n.inbox != [] && n.inbox[0].Auth? && Accepting(n, n.inbox[0].exchange)
    ensures var n' := Act(n, a);
            n'.base == n.base && n'.log == n.log && n'.received == n.received && n'.loaded == n.loaded
  {
    assert a.HandleNotice?;
    assert n.inbox != [] && !n.inbox[0].AllInfo?;
  }

  lemma {:induction false} OpenKeepsCoherent(n: Net, a: Action)
    requires Coherent(n) && AcceptsEvents(n.status)
    ensures Coherent(Act(n, a)) || !AcceptsEvents(Act(n, a).status)
  {
    match a
    case Emit(event) => EmitKeepsCoherent(n, event);
    case Deliver => DeliverKeepsCoherent(n);
    case _ =>
  }

  /** What a step can do to coherence: only an accepted authorization can establish it. */
  lemma {:induction false} StepKeepsCoherent(n0: Net, n: Net, a: Action)
    requires Inv(n0) && Quiet(n0) && n == n0.(now := n.now)
    ensures AcceptsEvents(Act(n, a).status) ==> Coherent(Act(n, a))
  {
    if AcceptsEvents(n.status) {
      OpenKeepsCoherent(n, a);
    } else if AcceptsEvents(Act(n, a).status) {
      assert n0.inbox != [] ==> NoticeValid(n0, n0.inbox[0]);
      GateOpensByAcceptance(n, a);
      AcceptanceIsCoherent(n0, n0.inbox[0].exchange);
    }
  }

  lemma {:induction false} StepKeepsQuiet(n: Net, t: Timed)
    requires Inv(n) && Quiet(n) && QuietWindow(n, t.action)
    ensures Quiet(Step(n, t))
  {
    var later := Wait(n, t.delay);
    ActComesAfter(n, later, t.action);
    QuietMessages(n, later, t.action);
    StepKeepsCoherent(n, later, t.action);
  }

  lemma {:induction false} RunKeepsQuiet(n: Net, ts: seq<Timed>)
    requires Inv(n) && Quiet(n) && AllSensible(n.base, ts) && AllQuiet(n, ts)
    ensures Inv(Run(n, ts)) && Quiet(Run(n, ts))
    decreases |ts|
  {
    if ts != [] {
      StepKeepsInv(n, ts[0]);
      StepKeepsQuiet(n, ts[0]);
      RunKeepsQuiet(Step(n, ts[0]), ts[1..]);
    }
  }

  /** From CHECKED onward, what is loaded with the undelivered events folded in is the remote
      information, for any number of rejected handshakes. */
  lemma {:induction false} NoEventLost(base: Infos, ts: seq<Timed>)
    requires AllSensible(base, ts) && AllQuiet(Start(base), ts)
    ensures AcceptsEvents(Run(Start(base), ts).status) ==> Coherent(Run(Start(base), ts))
  {
    RunKeepsQuiet(Start(base), ts);
  }

  // ---- The window exists: an event received in it is lost ----

  const NOW_ASKED: seq<Timed> := [Timed(0, RemoteTick(true)), Timed(0, ProxyBegin), Timed(0, ProxyAnswer)]

  function EventInWindow(e: ProcessEvent): seq<Timed> {
    [Timed(0, Emit(e)), Timed(0, Deliver)]
  }

  const INFORMED: seq<Timed> := [Timed(0, ProxyInform(false)), Timed(0, ProxyAuthorize)]

  const HANDLED: seq<Timed> := [Timed(0, HandleNotice), Timed(0, HandleNotice)]

  lemma {:induction false} RunAppend(n: Net, a: seq<Timed>, b: seq<Timed>)
    ensures Run(n, a + b) == Run(Run(n, a), b)
    decreases |a|
  {
    if a == [] {
      assert a + b == b;
    } else {
      assert (a + b)[1..] == a[1..] + b;
      RunAppend(Step(n, a[0]), a[1..], b);
    }
  }

  lemma {:induction false} EventIsIgnored(n: Net, e: ProcessEvent)
    requires n.status.state.Checking? && |n.received| == |n.log|
    ensures Run(n, EventInWindow(e)) ==
            n.(now := n.now + 2, log := n.log + [e], received := n.received + [n.now + 2],
               status := n.status.(checkingEventTime := Some(n.now + 2)))
  {
    var n1 := n.(now := n.now + 1, log := n.log + [e]);
    assert Step(n, Timed(0, Emit(e))) == n1;
    assert EventInWindow(e)[1..] == [Timed(0, Deliver)];
    assert Run(n1, [Timed(0, Deliver)]) == Step(n1, Timed(0, Deliver));
  }

  lemma {:induction false} HandshakeIsAccepted(n: Net, x: Exchange)
    requires n.inbox == [AllInfo(x), Auth(x)] && !x.failed && x.snap <= |n.log|
    requires IsChecking(n.status, x.timestamp) && Trusted(n.status, x.infoTime)
    ensures Run(n, HANDLED) ==
            n.(now := n.now + 2, inbox := [], status := Status(Checked, None, None),
               loaded := n.loaded + Snapshot(n, x.snap))
  {
    var n1 := n.(now := n.now + 1, inbox := [Auth(x)], loaded := n.loaded + Snapshot(n, x.snap));
    assert n.inbox[1..] == [Auth(x)];
    assert Step(n, HANDLED[0]) == n1;
    assert HANDLED[1..] == [HANDLED[1]];
    assert Run(n1, [HANDLED[1]]) == Step(n1, HANDLED[1]);
  }

  /** An event received in the window is lost in a handshake that is accepted. */
  lemma {:induction false} EventLostInWindow(n: Net, e: ProcessEvent)
    requires n.proxy.Answered? && n.inbox == [] && n.proxy.snap == |n.log| == |n.received|
    requires IsChecking(n.status, n.proxy.timestamp) && n.loaded.Keys <= RemoteInfos(n).Keys
    ensures var n' := Run(n, EventInWindow(e) + (INFORMED + HANDLED));
            && AcceptsEvents(n'.status) && |n'.received| == |n'.log|
            && n'.loaded == RemoteInfos(n)
            && RemoteInfos(n') == RemoteInfos(n)[e.process := e.info]
  {
    RunAppend(n, EventInWindow(e), INFORMED + HANDLED);
    EventIsIgnored(n, e);
    var n1 := Run(n, EventInWindow(e));
    RunAppend(n1, INFORMED, HANDLED);
    var n2 := Run(n1, INFORMED);
    HandshakeIsAccepted(n2, n2.inbox[0].exchange);
    assert n1.log[..|n.log|] == n.log;
    assert n.log[..|n.log|] == n.log;
    assert n.loaded + RemoteInfos(n) == RemoteInfos(n);
    ApplyAppend(n.base, n.log, [e]);
  }

  lemma {:induction false} ThreeSteps(n: Net, a: Timed, b: Timed, c: Timed)
    ensures Run(n, [a, b, c]) == Step(Step(Step(n, a), b), c)
  {
    assert [a, b, c] == [a] + ([b] + [c]);
    RunAppend(n, [a], [b] + [c]);
    RunAppend(Run(n, [a]), [b], [c]);
  }

  lemma {:induction false} FirstHandshakeIsAnswered(base: Infos)
    ensures Run(Start(base), NOW_ASKED) ==
            Start(base).(now := 3, status := Status(Checking, Some(1), None), proxy := Answered(2, 0))
  {
    var n := Start(base);
    ThreeSteps(n, Timed(0, RemoteTick(true)), Timed(0, ProxyBegin), Timed(0, ProxyAnswer));
    var n1 := n.(now := 1, status := Status(Checking, Some(1), None), requests := 1);
    assert Step(n, Timed(0, RemoteTick(true))) == n1;
    var n2 := n1.(now := 2, proxy := Begun(2), requests := 0);
    assert Step(n1, Timed(0, ProxyBegin)) == n2;
  }

  /** The first handshake can be that one. */
  lemma {:induction false} WindowIsReached(base: Infos, e: ProcessEvent)
    ensures var n' := Run(Start(base), NOW_ASKED + (EventInWindow(e) + (INFORMED + HANDLED)));
            && AcceptsEvents(n'.status) && n'.loaded == base && |n'.received| == |n'.log|
            && RemoteInfos(n') == base[e.process := e.info]
            && (Coherent(n') <==> e.process in base && base[e.process] == e.info)
  {
    RunAppend(Start(base), NOW_ASKED, EventInWindow(e) + (INFORMED + HANDLED));
    FirstHandshakeIsAnswered(base);
    var n := Run(Start(base), NOW_ASKED);
    assert RemoteInfos(n) == base;
    EventLostInWindow(n, e);
    NothingUndelivered(Run(n, EventInWindow(e) + (INFORMED + HANDLED)));
    assert base[e.process := e.info] == base <==> e.process in base && base[e.process] == e.info;
  }

  lemma {:induction false} NothingUndelivered(n: Net)
    requires |n.received| == |n.log|
    ensures Coherent(n) <==> n.loaded == RemoteInfos(n)
  {
    assert n.log[|n.received|..] == [];
  }
}
