/**
 The debounced upload of the DAQ client (eco/acquisition/daq_client.py `_debounced_append_aux`):
 calls and timers interleave, each holding the lock while it changes the table of pending timers.
 */
module Debounce {
  import opened Collections

  type Key = string

  /** A call's timer. `New` until the call starts it; `Expired` from the moment it can no longer be
      cancelled until it has the lock; `Uploading` from releasing the lock until the upload is done. */
  datatype Phase = New | Armed | Cancelled | Expired | Locked | Popped | Uploading | Uploaded

  /** Calls are numbered in the order in which they get the lock; call i has timer i. */
  datatype Timer = Timer(key: Key, phase: Phase)

  /** How far the call holding the lock has got. */
  datatype CallStep = Entered | Taken(pending: Option<nat>) | Replaced | Installed | Started

  datatype Lock = Free | HeldByCall(step: CallStep) | HeldByTimer(timer: nat)

  datatype State = State(lock: Lock, table: map<Key, nat>, timers: seq<Timer>, uploads: seq<nat>)

  const INITIAL := State(Free, map[], [], [])

  datatype Event =
    | CallEnters(key: Key)      // a call gets the lock
    | CallTakes                 // it takes the pending timer of its key out of the table
    | CallCancels               // it cancels that timer, if there was one
    | CallInstalls              // it puts its own timer in the table
    | CallStarts                // it starts its timer
    | CallLeaves                // it releases the lock
    | Expire(timer: nat)        // a timer's waiting time is over before it was cancelled
    | TimerEnters(timer: nat)   // the expired timer gets the lock
    | TimerPops(timer: nat)     // it removes whatever entry its key has
    | TimerLeaves(timer: nat)   // it releases the lock
    | Upload(timer: nat)        // it uploads its call's files

  function Caller(s: State): nat
    requires s.timers != []
  {
    |s.timers| - 1
  }

  predicate InPhase(s: State, t: nat, phase: Phase) {
    t < |s.timers| && s.timers[t].phase == phase
  }

  predicate Enabled(s: State, e: Event) {
    match e
    case CallEnters(_) => s.lock == Free
    case CallTakes => s.timers != [] && s.lock == HeldByCall(Entered)
    case CallCancels => s.timers != [] && s.lock.HeldByCall? && s.lock.step.Taken?
    case CallInstalls => s.timers != [] && s.lock == HeldByCall(Replaced)
    case CallStarts => s.timers != [] && s.lock == HeldByCall(Installed) && s.timers[Caller(s)].phase == New
    case CallLeaves => s.lock == HeldByCall(Started)
    case Expire(t) => InPhase(s, t, Armed)
    case TimerEnters(t) => InPhase(s, t, Expired) && s.lock == Free
    case TimerPops(t) => InPhase(s, t, Locked) && s.lock == HeldByTimer(t)
    case TimerLeaves(t) => InPhase(s, t, Popped) && s.lock == HeldByTimer(t)
    case Upload(t) => InPhase(s, t, Uploading)
  }

  function InNewPhase(s: State, t: nat, phase: Phase): State
    requires t < |s.timers|
  {
    s.(timers := s.timers[t := s.timers[t].(phase := phase)])
  }

  function Without(table: map<Key, nat>, key: Key): map<Key, nat> {
    map k | k in table && k != key :: table[k]
  }

  /** Cancelling a timer that has expired, or was cancelled, has no effect. */
  function AfterCancel(s: State, pending: Option<nat>): State {
    if pending.Some? && InPhase(s, pending.value, Armed) then InNewPhase(s, pending.value, Cancelled) else s
  }

  function Next(s: State, e: Event): State
    requires Enabled(s, e)
  {
    match e
    case CallEnters(key) => s.(lock := HeldByCall(Entered), timers := s.timers + [Timer(key, New)])
    case CallTakes =>
      var key := s.timers[Caller(s)].key;
      s.(lock := HeldByCall(Taken(if key in s.table then Some(s.table[key]) else None)), table := Without(s.table, key))
    case CallCancels => AfterCancel(s, s.lock.step.pending).(lock := HeldByCall(Replaced))
    case CallInstalls => s.(lock := HeldByCall(Installed), table := s.table[s.timers[Caller(s)].key := Caller(s)])
    case CallStarts => InNewPhase(s, Caller(s), Armed).(lock := HeldByCall(Started))
    case CallLeaves => s.(lock := Free)
    case Expire(t) => InNewPhase(s, t, Expired)
    case TimerEnters(t) => InNewPhase(s, t, Locked).(lock := HeldByTimer(t))
    case TimerPops(t) => InNewPhase(s, t, Popped).(table := Without(s.table, s.timers[t].key))
    case TimerLeaves(t) => InNewPhase(s, t, Uploading).(lock := Free)
    case Upload(t) => InNewPhase(s, t, Uploaded).(uploads := s.uploads + [t])
  }

  ghost predicate Possible(s: State, events: seq<Event>)
    decreases |events|
  {
    events == [] || (Enabled(s, events[0]) && Possible(Next(s, events[0]), events[1..]))
  }

  ghost function After(s: State, events: seq<Event>): State
    requires Possible(s, events)
    decreases |events|
  {
    if events == [] then s else After(Next(s, events[0]), events[1..])
  }

  // ---------------------------------------------------------------- the invariant

  /** A newer call for the same key. */
  predicate NewerCall(s: State, t: nat, u: nat) {
    t < u < |s.timers| && s.timers[t].key == s.timers[u].key
  }

  ghost predicate Superseded(s: State, t: nat) {
    exists u :: NewerCall(s, t, u)
  }

  /** An entry of the table is a call of its key, and older than the call that holds the lock until
      that has installed its own. */
  ghost predicate TableOk(s: State) { EntriesOk(s) && CallOk(s) && PendingOk(s) }

  ghost predicate EntriesOk(s: State) {
    forall k :: k in s.table ==> s.table[k] < |s.timers| && s.timers[s.table[k]].key == k
  }

  ghost predicate CallOk(s: State) {
    CallUnderWay(s) ==>
      && s.timers != []
      && s.timers[Caller(s)].phase == New
      && forall k :: k in s.table ==> s.lock.step == Installed || s.table[k] < Caller(s)
  }

  ghost predicate PendingOk(s: State) {
    s.lock.HeldByCall? && s.lock.step.Taken? && s.lock.step.pending.Some? ==>
      s.timers != [] && NewerCall(s, s.lock.step.pending.value, Caller(s))
  }

  /** An entry of the table is the newest call of its key that has started its timer. */
  ghost predicate NewestOk(s: State) { EntriesNewest(s) && CallInstalled(s) }

  ghost predicate EntriesNewest(s: State) {
    forall t, k :: k in s.table && 0 <= t < |s.timers| && s.timers[t].key == k && s.timers[t].phase != New ==> t <= s.table[k]
  }

  ghost predicate CallInstalled(s: State) {
    s.lock == HeldByCall(Installed) && s.timers != [] ==>
      var key := s.timers[Caller(s)].key; key in s.table && s.table[key] == Caller(s)
  }

  /** A call holds the lock and has not started its timer yet. */
  predicate CallUnderWay(s: State) { s.lock.HeldByCall? && s.lock.step != Started }

  /** Only superseded calls are cancelled; only the call under way has a new timer. */
  ghost predicate TimersOk(s: State) {
    && (forall t :: 0 <= t < |s.timers| && s.timers[t].phase == Cancelled ==> Superseded(s, t))
    && (forall t :: InPhase(s, t, New) ==> CallUnderWay(s) && t == Caller(s))
    && (forall t :: InPhase(s, t, Locked) || InPhase(s, t, Popped) ==> s.lock == HeldByTimer(t))
    && (s.lock.HeldByTimer? ==> InPhase(s, s.lock.timer, Locked) || InPhase(s, s.lock.timer, Popped))
  }

  /** Exactly the calls whose timer got that far were uploaded, each once. */
  ghost predicate UploadsOk(s: State) {
    && (forall t :: t in s.uploads <==> InPhase(s, t, Uploaded))
    && (forall i, j :: 0 <= i < j < |s.uploads| ==> s.uploads[i] != s.uploads[j])
  }

  ghost predicate Invariant(s: State) { TableOk(s) && TimersOk(s) && UploadsOk(s) && NewestOk(s) }

  lemma SupersededStays(s: State, e: Event)
    requires Enabled(s, e) && Invariant(s)
    ensures forall t :: 0 <= t < |s.timers| && Superseded(s, t) ==> Superseded(Next(s, e), t)
  {
    forall t | 0 <= t < |s.timers| && Superseded(s, t) ensures Superseded(Next(s, e), t) {
      var u :| NewerCall(s, t, u);
      assert NewerCall(Next(s, e), t, u);
    }
  }

  lemma NextKeepsTable(s: State, e: Event)
    requires TableOk(s) && TimersOk(s) && Enabled(s, e)
    ensures TableOk(Next(s, e))
  {
    NextKeepsCall(s, e);
    NextKeepsPending(s, e);
  }

  lemma NextKeepsCall(s: State, e: Event)
    requires TableOk(s) && TimersOk(s) && Enabled(s, e)
    ensures CallOk(Next(s, e))
  {
  }

  lemma NextKeepsPending(s: State, e: Event)
    requires TableOk(s) && Enabled(s, e)
    ensures PendingOk(Next(s, e))
  {
  }

  lemma NextKeepsNewest(s: State, e: Event)
    requires TableOk(s) && NewestOk(s) && Enabled(s, e)
    ensures NewestOk(Next(s, e))
  {
    NextKeepsEntriesNewest(s, e);
  }

  lemma NextKeepsEntriesNewest(s: State, e: Event)
    requires TableOk(s) && NewestOk(s) && Enabled(s, e)
    ensures EntriesNewest(Next(s, e))
  {
  }

  lemma NextKeepsTimers(s: State, e: Event)
    requires Invariant(s) && Enabled(s, e)
    ensures TimersOk(Next(s, e))
  {
    CancelledAreSuperseded(s, e);
    forall t | InPhase(Next(s, e), t, New) ensures CallUnderWay(Next(s, e)) && t == Caller(Next(s, e)) {
      assert InPhase(s, t, New) || (e.CallEnters? && t == |s.timers|);
    }
  }

  lemma CancelledAreSuperseded(s: State, e: Event)
    requires Invariant(s) && Enabled(s, e)
    ensures forall t :: 0 <= t < |Next(s, e).timers| && Next(s, e).timers[t].phase == Cancelled ==> Superseded(Next(s, e), t)
  {
    SupersededStays(s, e);
    if e.CallCancels? && s.lock.step.pending.Some? {
      assert NewerCall(Next(s, e), s.lock.step.pending.value, Caller(s));
    }
  }

  lemma NextKeepsUploads(s: State, e: Event)
    requires Invariant(s) && Enabled(s, e)
    ensures UploadsOk(Next(s, e))
  {
    if e.Upload? {
      assert !InPhase(s, e.timer, Uploaded);
      assert e.timer !in s.uploads;
    }
    forall t ensures t in Next(s, e).uploads <==> InPhase(Next(s, e), t, Uploaded) {
      assert t in s.uploads <==> InPhase(s, t, Uploaded);
    }
  }

  lemma NextKeepsInvariant(s: State, e: Event)
    requires Invariant(s) && Enabled(s, e)
    ensures Invariant(Next(s, e))
  {
    NextKeepsTable(s, e);
    NextKeepsTimers(s, e);
    NextKeepsUploads(s, e);
    NextKeepsNewest(s, e);
  }

  lemma {:induction false} AlwaysInvariant(s: State, events: seq<Event>)
    requires Invariant(s) && Possible(s, events)
    ensures Invariant(After(s, events))
    decreases |events|
  {
    if events != [] {
      NextKeepsInvariant(s, events[0]);
      AlwaysInvariant(Next(s, events[0]), events[1..]);
    }
  }

  // ---------------------------------------------------------------- what the protocol promises

  /** The newest call of its key. */
  ghost predicate Newest(s: State, t: nat) {
    t < |s.timers| && !Superseded(s, t)
  }

  /** Nothing is pending: no call under way, no timer armed or on its way to its upload. */
  ghost predicate Quiet(s: State) {
    s.lock == Free && forall t :: 0 <= t < |s.timers| ==> s.timers[t].phase == Cancelled || s.timers[t].phase == Uploaded
  }

  function Count(uploads: seq<nat>, t: nat): nat {
    multiset(uploads)[t]
  }

  lemma {:induction false} CountOfDistinct(uploads: seq<nat>, t: nat)
    requires forall i, j :: 0 <= i < j < |uploads| ==> uploads[i] != uploads[j]
    ensures Count(uploads, t) == if t in uploads then 1 else 0
  {
    if uploads != [] {
      var front, last := uploads[..|uploads| - 1], uploads[|uploads| - 1];
      assert uploads == front + [last];
      CountOfDistinct(front, t);
    }
  }

  /** Under every interleaving no call uploads twice, and the newest call of a key is never
      cancelled. */
  lemma {:induction false} NewestIsNeverCancelled(events: seq<Event>, t: nat)
    requires Possible(INITIAL, events)
    ensures var s := After(INITIAL, events);
            && Count(s.uploads, t) <= 1
            && (Newest(s, t) ==> s.timers[t].phase != Cancelled)
  {
    AlwaysInvariant(INITIAL, events);
    CountOfDistinct(After(INITIAL, events).uploads, t);
  }

  /** Once nothing is pending every call was either uploaded, once, or cancelled for a newer call of
      the same key; the newest call of each key was uploaded. */
  lemma {:induction false} QuietMeansNewestUploaded(events: seq<Event>, t: nat)
    requires Possible(INITIAL, events) && Quiet(After(INITIAL, events)) && t < |After(INITIAL, events).timers|
    ensures var s := After(INITIAL, events);
            && (Count(s.uploads, t) == 1 <==> s.timers[t].phase != Cancelled)
            && (Newest(s, t) ==> Count(s.uploads, t) == 1)
            && (Count(s.uploads, t) == 0 ==> Superseded(s, t))
  {
    AlwaysInvariant(INITIAL, events);
    var s := After(INITIAL, events);
    CountOfDistinct(s.uploads, t);
    assert t in s.uploads <==> InPhase(s, t, Uploaded);
  }

  // ---------------------------------------------------------------- the protocol never gets stuck

  predicate IsNewCall(e: Event) { e.CallEnters? }

  /** Unless nothing is pending, something other than a new call can happen. */
  lemma NotQuietCanGoOn(s: State)
    requires Invariant(s) && !Quiet(s)
    ensures exists e :: Enabled(s, e) && !IsNewCall(e)
  {
    if s.lock.HeldByCall? {
      match s.lock.step
      case Entered => assert Enabled(s, CallTakes);
      case Taken(_) => assert Enabled(s, CallCancels);
      case Replaced => assert Enabled(s, CallInstalls);
      case Installed => assert Enabled(s, CallStarts);
      case Started => assert Enabled(s, CallLeaves);
    } else if s.lock.HeldByTimer? {
      var t := s.lock.timer;
      assert Enabled(s, TimerPops(t)) || Enabled(s, TimerLeaves(t));
    } else {
      var t :| 0 <= t < |s.timers| && s.timers[t].phase != Cancelled && s.timers[t].phase != Uploaded;
      assert !InPhase(s, t, New) && !InPhase(s, t, Locked) && !InPhase(s, t, Popped);
      assert Enabled(s, Expire(t)) || Enabled(s, TimerEnters(t)) || Enabled(s, Upload(t));
    }
  }

  function PhaseLeft(p: Phase): nat {
    match p
    case New => 6
    case Armed => 5
    case Expired => 4
    case Locked => 3
    case Popped => 2
    case Uploading => 1
    case Uploaded => 0
    case Cancelled => 0
  }

  function LockLeft(l: Lock): nat {
    match l
    case HeldByCall(Entered) => 4
    case HeldByCall(Taken(_)) => 3
    case HeldByCall(Replaced) => 2
    case HeldByCall(Installed) => 1
    case HeldByCall(Started) => 1
    case _ => 0
  }

  function TimersLeft(timers: seq<Timer>): nat {
    if timers == [] then 0 else TimersLeft(timers[..|timers| - 1]) + PhaseLeft(timers[|timers| - 1].phase)
  }

  /** How many events are left until nothing is pending. */
  function Left(s: State): nat { LockLeft(s.lock) + TimersLeft(s.timers) }

  lemma {:induction false} TimersLeftAfter(timers: seq<Timer>, t: nat, phase: Phase)
    requires t < |timers|
    ensures TimersLeft(timers[t := timers[t].(phase := phase)])
            == TimersLeft(timers) - PhaseLeft(timers[t].phase) + PhaseLeft(phase)
  {
    var changed := timers[t := timers[t].(phase := phase)];
    var n := |timers| - 1;
    if t == n {
      assert changed[..n] == timers[..n];
    } else {
      assert changed[..n] == timers[..n][t := timers[t].(phase := phase)];
      TimersLeftAfter(timers[..n], t, phase);
    }
  }

  /** Every event but a new call brings the protocol closer to having nothing pending: when calls
      stop, every pending upload is done after finitely many events. */
  lemma EveryEventMakesProgress(s: State, e: Event)
    requires TableOk(s) && Enabled(s, e) && !IsNewCall(e)
    ensures Left(Next(s, e)) < Left(s)
  {
    if IsOfTimer(e) { TimerMakesProgress(s, e); } else { CallMakesProgress(s, e); }
  }

  predicate IsOfTimer(e: Event) { e.Expire? || e.TimerEnters? || e.TimerPops? || e.TimerLeaves? || e.Upload? }

  lemma CallMakesProgress(s: State, e: Event)
    requires TableOk(s) && Enabled(s, e) && !IsNewCall(e) && !IsOfTimer(e)
    ensures Left(Next(s, e)) < Left(s)
  {
    if e.CallCancels? {
      var pending := s.lock.step.pending;
      if pending.Some? && InPhase(s, pending.value, Armed) { TimersLeftAfter(s.timers, pending.value, Cancelled); }
    } else if e.CallStarts? {
      TimersLeftAfter(s.timers, Caller(s), Armed);
    }
  }

  lemma TimerMakesProgress(s: State, e: Event)
    requires Enabled(s, e) && IsOfTimer(e)
    ensures Left(Next(s, e)) < Left(s)
  {
    match e
    case Expire(t) => TimersLeftAfter(s.timers, t, Expired);
    case TimerEnters(t) => TimersLeftAfter(s.timers, t, Locked);
    case TimerPops(t) => TimersLeftAfter(s.timers, t, Popped);
    case TimerLeaves(t) => TimersLeftAfter(s.timers, t, Uploading);
    case Upload(t) => TimersLeftAfter(s.timers, t, Uploaded);
  }

  // ---------------------------------------------------------------- an entry removed by an older timer

  /** Call `t` has started its timer and is in nobody's hands: not in the table, not taken from it. */
  ghost predicate OutOfReach(s: State, t: nat) {
    && t < |s.timers| && s.timers[t].phase != New
    && (forall k :: k in s.table ==> s.table[k] != t)
    && !(s.lock.HeldByCall? && s.lock.step.Taken? && s.lock.step.pending == Some(t))
  }

  /** An expired timer removes the table's entry of its key; when that is not its own it is a newer
      call's. */
  lemma ExpiredTimerRemovesSuccessor(s: State, t: nat, u: nat)
    requires Invariant(s) && Enabled(s, TimerPops(t))
    requires s.timers[t].key in s.table && s.table[s.timers[t].key] == u && u != t
    ensures NewerCall(s, t, u)
    ensures OutOfReach(Next(s, TimerPops(t)), u)
  {
    assert !InPhase(s, u, New);
  }

  lemma StaysOutOfReach(s: State, e: Event, t: nat)
    requires TimersOk(s) && TableOk(s) && Enabled(s, e) && OutOfReach(s, t)
    ensures OutOfReach(Next(s, e), t)
    ensures Next(s, e).timers[t].phase == Cancelled ==> s.timers[t].phase == Cancelled
  {
    assert !InPhase(s, t, New);
  }

  /** Such a call is never cancelled any more, whatever newer calls follow. */
  lemma {:induction false} OutOfReachIsNeverCancelled(s: State, events: seq<Event>, t: nat)
    requires Invariant(s) && Possible(s, events) && OutOfReach(s, t)
    ensures t < |After(s, events).timers|
    ensures After(s, events).timers[t].phase == Cancelled ==> s.timers[t].phase == Cancelled
    decreases |events|
  {
    if events != [] {
      NextKeepsInvariant(s, events[0]);
      StaysOutOfReach(s, events[0], t);
      OutOfReachIsNeverCancelled(Next(s, events[0]), events[1..], t);
    }
  }

  // ---------------------------------------------------------------- the client object

  /** One call while no other thread runs. */
  function CallEvents(key: Key): seq<Event> {
    [CallEnters(key), CallTakes, CallCancels, CallInstalls, CallStarts, CallLeaves]
  }

  function FireEvents(t: nat): seq<Event> { [TimerEnters(t), TimerPops(t), TimerLeaves(t), Upload(t)] }

  lemma {:induction false} OneThenRest(s: State, e: Event, rest: seq<Event>)
    requires Enabled(s, e) && Possible(Next(s, e), rest)
    ensures Possible(s, [e] + rest) && After(s, [e] + rest) == After(Next(s, e), rest)
  {
    assert ([e] + rest)[1..] == rest;
  }

  lemma {:induction false} ThreeThenRest(s: State, a: Event, b: Event, c: Event, rest: seq<Event>)
    requires Enabled(s, a) && Enabled(Next(s, a), b) && Enabled(Next(Next(s, a), b), c)
    requires Possible(Next(Next(Next(s, a), b), c), rest)
    ensures Possible(s, [a, b, c] + rest)
    ensures After(s, [a, b, c] + rest) == After(Next(Next(Next(s, a), b), c), rest)
  {
    var s1 := Next(s, a);
    OneThenRest(Next(s1, b), c, rest);
    OneThenRest(s1, b, [c] + rest);
    OneThenRest(s, a, [b] + ([c] + rest));
    assert [a] + ([b] + ([c] + rest)) == [a, b, c] + rest;
  }

  /** What a call does: its predecessor's timer, if the table has it and it has not expired, is
      cancelled; its own is armed. */
  function Called(s: State, key: Key): State {
    State(Free, s.table[key := |s.timers|], CancelledFor(s, key) + [Timer(key, Armed)], s.uploads)
  }

  function CancelledFor(s: State, key: Key): seq<Timer> {
    if key in s.table && InPhase(s, s.table[key], Armed)
    then s.timers[s.table[key] := s.timers[s.table[key]].(phase := Cancelled)] else s.timers
  }

  lemma {:induction false} CallEffect(s: State, key: Key)
    requires s.lock == Free && TableOk(s)
    ensures Possible(s, CallEvents(key)) && After(s, CallEvents(key)) == Called(s, key)
  {
    var s3 := Replacing(s, key);
    CallEnds(s3, key);
    CallBegins(s, key);
    var ends := [CallInstalls, CallStarts, CallLeaves];
    ThreeThenRest(s, CallEnters(key), CallTakes, CallCancels, ends);
    assert [CallEnters(key), CallTakes, CallCancels] + ends == CallEvents(key);
    assert Without(s.table, key)[key := |s.timers|] == s.table[key := |s.timers|];
  }

  /** The state in which a call has cancelled its predecessor's timer. */
  function Replacing(s: State, key: Key): State {
    State(HeldByCall(Replaced), Without(s.table, key), CancelledFor(s, key) + [Timer(key, New)], s.uploads)
  }

  lemma CallBegins(s: State, key: Key)
    requires s.lock == Free && TableOk(s)
    ensures Enabled(s, CallEnters(key)) && Enabled(Next(s, CallEnters(key)), CallTakes)
    ensures var s2 := Next(Next(s, CallEnters(key)), CallTakes);
            Enabled(s2, CallCancels) && Next(s2, CallCancels) == Replacing(s, key)
  {
  }

  lemma {:induction false} CallEnds(s: State, key: Key)
    requires s.lock == HeldByCall(Replaced) && s.timers != [] && s.timers[Caller(s)] == Timer(key, New)
    ensures var ends := [CallInstalls, CallStarts, CallLeaves];
            && Possible(s, ends)
            && After(s, ends) == State(Free, s.table[key := Caller(s)], s.timers[Caller(s) := Timer(key, Armed)], s.uploads)
  {
    var s4 := Next(s, CallInstalls);
    var s5 := Next(s4, CallStarts);
    OneThenRest(s5, CallLeaves, []);
    OneThenRest(s4, CallStarts, [CallLeaves]);
    OneThenRest(s, CallInstalls, [CallStarts] + [CallLeaves]);
    assert [CallInstalls] + ([CallStarts] + [CallLeaves]) == [CallInstalls, CallStarts, CallLeaves];
  }

  lemma {:induction false} FireEffect(s: State, t: nat)
    requires s.lock == Free && InPhase(s, t, Expired)
    ensures Possible(s, FireEvents(t))
    ensures After(s, FireEvents(t)) == State(Free, Without(s.table, s.timers[t].key),
                                             s.timers[t := s.timers[t].(phase := Uploaded)], s.uploads + [t])
  {
    var s1 := Next(s, TimerEnters(t));
    var s2 := Next(s1, TimerPops(t));
    var s3 := Next(s2, TimerLeaves(t));
    OneThenRest(s3, Upload(t), []);
    OneThenRest(s2, TimerLeaves(t), [Upload(t)]);
    OneThenRest(s1, TimerPops(t), [TimerLeaves(t)] + [Upload(t)]);
    OneThenRest(s, TimerEnters(t), [TimerPops(t)] + ([TimerLeaves(t)] + [Upload(t)]));
    assert [TimerEnters(t)] + ([TimerPops(t)] + ([TimerLeaves(t)] + [Upload(t)])) == FireEvents(t);
  }

  /** The client's timer table, changed by one thread at a time. */
  class Client {
    var debounceTimers: map<Key, nat>
    var timers: seq<Timer>
    var uploads: seq<nat>

    constructor ()
      ensures View() == INITIAL
    {
      debounceTimers, timers, uploads := map[], [], [];
    }

    ghost function View(): State
      reads this
    {
      State(Free, debounceTimers, timers, uploads)
    }

    method DebouncedAppendAux(key: Key) returns (timer: nat)
      requires TableOk(View())
      modifies this
      ensures timer == |old(timers)|
      ensures Possible(old(View()), CallEvents(key)) && View() == After(old(View()), CallEvents(key))
    {
      CallEffect(View(), key);
      timer := |timers|;
      if key in debounceTimers {
        var pending := debounceTimers[key];
        debounceTimers := Without(debounceTimers, key);
        if timers[pending].phase == Armed {
          timers := timers[pending := timers[pending].(phase := Cancelled)];
        }
      }
      timers := timers + [Timer(key, New)];
      debounceTimers := debounceTimers[key := timer];
      timers := timers[timer := Timer(key, Armed)];
      assert debounceTimers == old(debounceTimers)[key := timer];
    }

    /** What an expired timer runs. */
    method Fire(timer: nat)
      requires InPhase(View(), timer, Expired)
      modifies this
      ensures Possible(old(View()), FireEvents(timer)) && View() == After(old(View()), FireEvents(timer))
    {
      FireEffect(View(), timer);
      debounceTimers := Without(debounceTimers, timers[timer].key);
      uploads := uploads + [timer];
      timers := timers[timer := timers[timer].(phase := Uploaded)];
    }
  }
}
