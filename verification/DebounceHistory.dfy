/**
 Which calls of a burst the debounced upload fails to cancel (eco/acquisition/daq_client.py
 `_debounced_append_aux`): over every history of calls and timers.
 */
module DebounceHistory {
  import opened Collections
  import opened Debounce

  // ---------------------------------------------------------------- histories

  lemma {:induction false} LastEvent(s: State, events: seq<Event>)
    requires events != [] && Possible(s, events)
    ensures var n := |events| - 1;
            && Possible(s, events[..n]) && Enabled(After(s, events[..n]), events[n])
            && After(s, events) == Next(After(s, events[..n]), events[n])
    decreases |events|
  {
    if |events| > 1 {
      var n := |events| - 1;
      LastEvent(Next(s, events[0]), events[1..]);
      assert events[1..][..n - 1] == events[..n][1..];
    }
  }

  lemma {:induction false} BeginningPossible(s: State, events: seq<Event>, i: nat)
    requires Possible(s, events) && i <= |events|
    ensures Possible(s, events[..i])
    decreases |events|
  {
    if i > 0 {
      BeginningPossible(Next(s, events[0]), events[1..], i - 1);
      assert events[1..][..i - 1] == events[..i][1..];
    }
  }

  /** The state before event `i` of a history. */
  ghost function At(events: seq<Event>, i: nat): State
    requires Possible(INITIAL, events) && i <= |events|
  {
    BeginningPossible(INITIAL, events, i);
    After(INITIAL, events[..i])
  }

  /** Event `i` is call `u` putting its timer in the table. */
  ghost predicate Installs(events: seq<Event>, i: nat, u: nat)
    requires Possible(INITIAL, events)
  {
    i < |events| && events[i] == CallInstalls && At(events, i).timers != [] && Caller(At(events, i)) == u
  }

  /** Event `j` is an older timer of the same key removing the key's entry from the table. */
  ghost predicate OlderPops(events: seq<Event>, j: nat, u: nat)
    requires Possible(INITIAL, events)
  {
    j < |events| && events[j].TimerPops? && NewerCall(At(events, j), events[j].timer, u)
  }

  ghost predicate Installed(events: seq<Event>, u: nat)
    requires Possible(INITIAL, events)
  {
    exists i: nat :: Installs(events, i, u)
  }

  /** An older timer of the same key removed the entry after call `u` had made it its own. */
  ghost predicate Orphaned(events: seq<Event>, u: nat)
    requires Possible(INITIAL, events)
  {
    exists j: nat :: OrphanedBy(events, j, u)
  }

  ghost predicate OrphanedBy(events: seq<Event>, j: nat, u: nat)
    requires Possible(INITIAL, events)
  {
    OlderPops(events, j, u) && (BeginningPossible(INITIAL, events, j); Installed(events[..j], u))
  }

  lemma SameBeginning(events: seq<Event>, i: nat, u: nat)
    requires Possible(INITIAL, events) && i + 1 < |events|
    ensures var front := events[..|events| - 1];
            && Possible(INITIAL, front)
            && (Installs(events, i, u) <==> Installs(front, i, u))
            && (OlderPops(events, i, u) <==> OlderPops(front, i, u))
  {
    LastEvent(INITIAL, events);
    assert events[..|events| - 1][..i] == events[..i];
  }

  lemma {:induction false} InstalledOneMore(events: seq<Event>, u: nat)
    requires Possible(INITIAL, events) && events != []
    ensures Possible(INITIAL, events[..|events| - 1])
    ensures Installed(events, u) <==> Installed(events[..|events| - 1], u) || Installs(events, |events| - 1, u)
  {
    var n := |events| - 1;
    LastEvent(INITIAL, events);
    if Installed(events[..n], u) {
      var i: nat :| Installs(events[..n], i, u);
      SameBeginning(events, i, u);
    }
    if Installed(events, u) {
      var i: nat :| Installs(events, i, u);
      if i < n { SameBeginning(events, i, u); }
    }
  }

  lemma {:induction false} OrphanedInBeginning(events: seq<Event>, j: nat, u: nat)
    requires Possible(INITIAL, events) && j + 1 < |events|
    ensures Possible(INITIAL, events[..|events| - 1])
    ensures OrphanedBy(events, j, u) <==> OrphanedBy(events[..|events| - 1], j, u)
  {
    SameBeginning(events, j, u);
    assert events[..|events| - 1][..j] == events[..j];
  }

  lemma {:induction false} OrphanedByLast(events: seq<Event>, u: nat)
    requires Possible(INITIAL, events) && events != []
    ensures Possible(INITIAL, events[..|events| - 1])
    ensures OrphanedBy(events, |events| - 1, u) <==>
            Installed(events[..|events| - 1], u) && OlderPops(events, |events| - 1, u)
  {
    LastEvent(INITIAL, events);
  }

  lemma {:induction false} OrphanedOneMore(events: seq<Event>, u: nat)
    requires Possible(INITIAL, events) && events != []
    ensures Possible(INITIAL, events[..|events| - 1])
    ensures Orphaned(events, u) <==>
            Orphaned(events[..|events| - 1], u) || (Installed(events[..|events| - 1], u) && OlderPops(events, |events| - 1, u))
  {
    var n := |events| - 1;
    OrphanedByLast(events, u);
    if Orphaned(events[..n], u) {
      var j: nat :| OrphanedBy(events[..n], j, u);
      OrphanedInBeginning(events, j, u);
      assert OrphanedBy(events, j, u);
    } else if OrphanedBy(events, n, u) {
    } else if Orphaned(events, u) {
      var j: nat :| OrphanedBy(events, j, u);
      OrphanedInBeginning(events, j, u);
    }
  }

  // ---------------------------------------------------------------- what the table knows of a call

  /** The lock is held by a call that has not yet dealt with its predecessor. */
  predicate Before(s: State) { s.lock.HeldByCall? && (s.lock.step == Entered || s.lock.step.Taken?) }

  /** Call `u` has its timer in place, and no newer call of its key has passed the cancelling. */
  ghost predicate Current(s: State, u: nat) {
    && u < |s.timers|
    && !(u == Caller(s) && (Before(s) || s.lock == HeldByCall(Replaced)))
    && forall w :: NewerCall(s, u, w) ==> w == Caller(s) && Before(s)
  }

  /** The entry of a key: in the table, or just taken from it by a call of that key. */
  function EntryOf(s: State, key: Key): Option<nat> {
    if s.timers != [] && s.lock.HeldByCall? && s.lock.step.Taken? && s.timers[Caller(s)].key == key then s.lock.step.pending
    else if key in s.table then Some(s.table[key])
    else None
  }

  predicate Waiting(s: State, u: nat) { InPhase(s, u, New) || InPhase(s, u, Armed) }

  /** Nothing but the call's own installing makes it current, and only an older timer takes the entry
      from a current call that waits. */
  lemma CurrentBefore(s: State, e: Event, u: nat)
    requires Invariant(s) && Enabled(s, e) && Current(Next(s, e), u) && !(e == CallInstalls && u == Caller(s))
    ensures Current(s, u)
  {
    var s' := Next(s, e);
    if e.CallEnters? {
      assert u != |s.timers|;
    }
    forall w | NewerCall(s, u, w) ensures w == Caller(s) && Before(s) {
      assert NewerCall(s', u, w);
    }
  }

  lemma CurrentPhase(s: State, e: Event, u: nat)
    requires Invariant(s) && Enabled(s, e) && Current(s, u) && Current(Next(s, e), u)
    ensures Waiting(Next(s, e), u) ==> Waiting(s, u)
    ensures !InPhase(s, u, Cancelled) ==> !InPhase(Next(s, e), u, Cancelled)
  {
    if e.CallCancels? && s.lock.step.pending == Some(u) {
      assert NewerCall(Next(s, e), u, Caller(s));
    }
  }

  lemma CurrentEntryStep(s: State, e: Event, u: nat)
    requires Invariant(s) && Enabled(s, e) && Current(s, u) && Current(Next(s, e), u) && Waiting(Next(s, e), u)
    requires !(e == CallInstalls && u == Caller(s))
    ensures var key := s.timers[u].key;
            && Next(s, e).timers[u].key == key
            && EntryOf(Next(s, e), key) == if e.TimerPops? && NewerCall(s, e.timer, u) then None else EntryOf(s, key)
  {
    CurrentPhase(s, e, u);
    if e.TimerPops? && s.timers[e.timer].key == s.timers[u].key {
      assert e.timer != u;
      assert !NewerCall(s, u, e.timer);
    }
    if (e.CallCancels? || e.CallInstalls?) && s.timers[Caller(s)].key == s.timers[u].key {
      assert u != Caller(s) ==> NewerCall(Next(s, e), u, Caller(s));
    }
  }

  /** A current call was installed and is not cancelled; while its timer waits, the entry of its key is
      its own exactly if no older timer of the key removed it since. */
  lemma {:induction false} CurrentCall(events: seq<Event>, u: nat)
    requires Possible(INITIAL, events) && Current(After(INITIAL, events), u)
    ensures var s := After(INITIAL, events);
            && Installed(events, u) && !InPhase(s, u, Cancelled)
            && (Waiting(s, u) ==> EntryOf(s, s.timers[u].key) == if Orphaned(events, u) then None else Some(u))
  {
    if events != [] {
      var n := |events| - 1;
      var front, e := events[..n], events[n];
      LastEvent(INITIAL, events);
      var s := After(INITIAL, front);
      AlwaysInvariant(INITIAL, front);
      InstalledOneMore(events, u);
      OrphanedOneMore(events, u);
      assert At(events, n) == s;
      if e == CallInstalls && u == Caller(s) {
        assert Installs(events, n, u) && !OlderPops(events, n, u);
        NotOrphanedYet(front, u);
      } else {
        CurrentBefore(s, e, u);
        CurrentCall(front, u);
        CurrentPhase(s, e, u);
        if Waiting(Next(s, e), u) { CurrentEntryStep(s, e, u); }
      }
    }
  }

  /** Call `u` still has to put its timer in the table. */
  predicate ToInstall(s: State, u: nat) {
    u >= |s.timers| || (u == |s.timers| - 1 && (Before(s) || s.lock == HeldByCall(Replaced)))
  }

  lemma ToInstallBefore(s: State, e: Event, u: nat)
    requires Invariant(s) && Enabled(s, e) && ToInstall(Next(s, e), u)
    ensures ToInstall(s, u) && !(e == CallInstalls && u == Caller(s))
  {
  }

  lemma {:induction false} NotOrphanedYet(events: seq<Event>, u: nat)
    requires Possible(INITIAL, events) && ToInstall(After(INITIAL, events), u)
    ensures !Installed(events, u) && !Orphaned(events, u)
  {
    if events != [] {
      var n := |events| - 1;
      LastEvent(INITIAL, events);
      AlwaysInvariant(INITIAL, events[..n]);
      assert At(events, n) == After(INITIAL, events[..n]);
      ToInstallBefore(After(INITIAL, events[..n]), events[n], u);
      InstalledOneMore(events, u);
      OrphanedOneMore(events, u);
      NotOrphanedYet(events[..n], u);
    }
  }

  /** Past its waiting exactly means expired, for a call that was not cancelled. */
  lemma {:induction false} ExpiredIff(events: seq<Event>, u: nat)
    requires Possible(INITIAL, events)
    ensures var s := After(INITIAL, events);
            Expire(u) in events <==> u < |s.timers| && !Waiting(s, u) && !InPhase(s, u, Cancelled)
  {
    if events != [] {
      var n := |events| - 1;
      LastEvent(INITIAL, events);
      AlwaysInvariant(INITIAL, events[..n]);
      ExpiredIff(events[..n], u);
      TakeOneMore(events, n);
      TakeAll(events);
      ExpiredStep(After(INITIAL, events[..n]), events[n], u);
    }
  }

  ghost predicate PastWaiting(s: State, u: nat) {
    u < |s.timers| && !Waiting(s, u) && !InPhase(s, u, Cancelled)
  }

  lemma ExpiredStep(s: State, e: Event, u: nat)
    requires Invariant(s) && Enabled(s, e)
    ensures PastWaiting(Next(s, e), u) <==> PastWaiting(s, u) || e == Expire(u)
  {
  }

  /** When a call cancels the one of its key before it, over every history: that one's timer stays armed
      exactly when it has not expired and an older timer of the key removed the entry from the table after
      that call had put its own there. Else it is cancelled, unless it has expired. */
  lemma {:induction false} StaysArmedIffOrphaned(events: seq<Event>, u: nat)
    requires Possible(INITIAL, events) && Enabled(After(INITIAL, events), CallCancels)
    requires var s := After(INITIAL, events);
             NewerCall(s, u, Caller(s)) && forall w :: NewerCall(s, u, w) ==> w == Caller(s)
    ensures var s' := Next(After(INITIAL, events), CallCancels);
            && (InPhase(s', u, Armed) <==> Expire(u) !in events && Orphaned(events, u))
            && (InPhase(s', u, Cancelled) <==> Expire(u) !in events && !Orphaned(events, u))
  {
    var s := After(INITIAL, events);
    AlwaysInvariant(INITIAL, events);
    assert Current(s, u);
    CurrentCall(events, u);
    ExpiredIff(events, u);
    assert !InPhase(s, u, New);
  }

  // ---------------------------------------------------------------- a burst that uploads more than its last call

  lemma {:induction false} Joined(s: State, a: seq<Event>, b: seq<Event>)
    requires Possible(s, a) && Possible(After(s, a), b)
    ensures Possible(s, a + b) && After(s, a + b) == After(After(s, a), b)
    decreases |a|
  {
    if a == [] {
      assert a + b == b;
    } else {
      Joined(Next(s, a[0]), a[1..], b);
      assert (a + b)[1..] == a[1..] + b;
    }
  }

  /** Timer `t` expires and then runs without another thread. */
  function ExpiryEvents(t: nat): seq<Event> { [Expire(t)] + FireEvents(t) }

  lemma {:induction false} ExpiryEffect(s: State, t: nat)
    requires s.lock == Free && InPhase(s, t, Armed)
    ensures Possible(s, ExpiryEvents(t))
    ensures After(s, ExpiryEvents(t)) == State(Free, Without(s.table, s.timers[t].key),
                                               s.timers[t := s.timers[t].(phase := Uploaded)], s.uploads + [t])
  {
    var s1 := Next(s, Expire(t));
    FireEffect(s1, t);
    OneThenRest(s, Expire(t), FireEvents(t));
  }

  /** A call from a state without timers, the expiry of its timer, and a second call of the same key. */
  function TwoCalls(key: Key): seq<Event> { CallEvents(key) + ([Expire(0)] + CallEvents(key)) }

  lemma {:induction false} TwoCallsEffect(s: State, key: Key)
    requires s == INITIAL
    ensures Possible(s, TwoCalls(key))
    ensures After(s, TwoCalls(key)) == State(Free, map[key := 1], [Timer(key, Expired), Timer(key, Armed)], [])
  {
    CallEffect(s, key);
    var s1 := Called(s, key);
    var s2 := Next(s1, Expire(0));
    CallEffect(s2, key);
    OneThenRest(s1, Expire(0), CallEvents(key));
    Joined(s, CallEvents(key), [Expire(0)] + CallEvents(key));
  }

  /** The first timer then gets the lock and removes the second call's entry; a third call finds none. */
  function Rest(key: Key): seq<Event> { FireEvents(0) + CallEvents(key) }

  lemma {:induction false} RestEffect(s: State, key: Key)
    requires s == State(Free, map[key := 1], [Timer(key, Expired), Timer(key, Armed)], [])
    ensures Possible(s, Rest(key))
    ensures After(s, Rest(key)) == State(Free, map[key := 2], [Timer(key, Uploaded), Timer(key, Armed), Timer(key, Armed)], [0])
  {
    FireEffect(s, 0);
    var s1 := After(s, FireEvents(0));
    CallEffect(s1, key);
    Joined(s, FireEvents(0), CallEvents(key));
  }

  /** Both of the timers left armed upload. */
  function Uploads(): seq<Event> { ExpiryEvents(1) + ExpiryEvents(2) }

  lemma {:induction false} UploadsEffect(s: State, key: Key)
    requires s == State(Free, map[key := 2], [Timer(key, Uploaded), Timer(key, Armed), Timer(key, Armed)], [0])
    ensures Possible(s, Uploads()) && After(s, Uploads()).uploads == [0, 1, 2]
  {
    ExpiryEffect(s, 1);
    var s1 := After(s, ExpiryEvents(1));
    ExpiryEffect(s1, 2);
    Joined(s, ExpiryEvents(1), ExpiryEvents(2));
  }

  /** Three calls of one key in a burst, the first one's timer expiring just before the second call: the
      third call leaves the second one's timer armed, and both upload. */
  lemma BurstUploadsTwice(key: Key)
    ensures var called := TwoCalls(key) + Rest(key);
            && Possible(INITIAL, called)
            && After(INITIAL, called) == State(Free, map[key := 2], [Timer(key, Uploaded), Timer(key, Armed), Timer(key, Armed)], [0])
            && Possible(INITIAL, called + Uploads())
            && After(INITIAL, called + Uploads()).uploads == [0, 1, 2]
  {
    var s := INITIAL;
    TwoCallsEffect(s, key);
    RestEffect(After(s, TwoCalls(key)), key);
    Joined(s, TwoCalls(key), Rest(key));
    UploadsEffect(After(s, TwoCalls(key) + Rest(key)), key);
    Joined(s, TwoCalls(key) + Rest(key), Uploads());
  }
}
