/** The deadline of internal/transport/rpc/client/packet_conn.go: a cancel channel that is
    closed when a timer fires, re-armed under a mutex while timer callbacks run without it. */
module Deadline {
  import opened Basics

  // What `set` was called with: no deadline, one still ahead when it looks at the clock, or one past by then.
  datatype Mode = Zero | Future | Past

  // `set` holds the mutex from Stopping on; Checked remembers what isClosedChan answered.
  datatype Holder =
    | Free | Stopping(mode: Mode) | Waiting(mode: Mode) | Deciding(mode: Mode) | Checked(mode: Mode, closed: bool)

  // A timer from AfterFunc; its callback first reads the field d.cancel, then closes what it read.
  datatype Timer = Pending | Fired | Loaded(chan: nat) | Done | Stopped

  // Channels are numbered in order of creation; `closes` counts how often each was closed.
  datatype State = State(closes: seq<nat>, cancel: nat, timer: Option<nat>, timers: seq<Timer>,
                         holder: Holder, handedOut: set<nat>)

  predicate Live(t: Timer) { t.Pending? || t.Fired? || t.Loaded? }

  ghost predicate Init(s: State) {
    s.closes == [0] && s.cancel == 0 && s.timer == None && s.timers == [] && s.holder == Free && s.handedOut == {}
  }

  predicate WellFormed(s: State) {
    s.cancel < |s.closes| && (s.timer.Some? ==> s.timer.value < |s.timers|)
  }

  // set(t): the call, which takes the mutex.
  ghost predicate Enter(s: State, s': State, mode: Mode) {
    s.holder == Free && s' == s.(holder := Stopping(mode))
  }

  // And the steps it takes from there.
  ghost predicate Set(s: State, s': State) {
    && WellFormed(s)
    && match s.holder
       case Free => false
       case Stopping(m) =>
         if s.timer.None? then s' == s.(holder := Deciding(m))
         else if s.timers[s.timer.value] == Pending then
           s' == s.(timers := s.timers[s.timer.value := Stopped], holder := Deciding(m))
         else s' == s.(holder := Waiting(m))
       case Waiting(m) => s.closes[s.cancel] > 0 && s' == s.(holder := Deciding(m))
       case Deciding(m) => s' == s.(timer := None, holder := Checked(m, s.closes[s.cancel] > 0))
       case Checked(m, closed) =>
         var renewed := if closed && m != Past then s.(closes := s.closes + [0], cancel := |s.closes|) else s;
         match m
         case Zero => s' == renewed.(holder := Free)
         case Future => s' == renewed.(timers := s.timers + [Pending], timer := Some(|s.timers|), holder := Free)
         case Past =>
           s' == (if closed then s else s.(closes := s.closes[s.cancel := s.closes[s.cancel] + 1])).(holder := Free)
  }

  ghost predicate Wait(s: State, s': State) {
    s.holder == Free && s' == s.(handedOut := s.handedOut + {s.cancel})
  }

  // The clock and the callback goroutine; neither takes the mutex.
  ghost predicate Callback(s: State, s': State, t: nat) {
    && t < |s.timers|
    && match s.timers[t]
       case Pending => s' == s.(timers := s.timers[t := Fired])
       case Fired => s' == s.(timers := s.timers[t := Loaded(s.cancel)])
       case Loaded(c) =>
         c < |s.closes| && s' == s.(timers := s.timers[t := Done], closes := s.closes[c := s.closes[c] + 1])
       case _ => false
  }

  ghost predicate Next(s: State, s': State) {
    (exists mode :: Enter(s, s', mode)) || Set(s, s') || Wait(s, s') || (exists t :: Callback(s, s', t))
  }

  ghost predicate Run(tr: seq<State>) {
    && |tr| > 0 && Init(tr[0])
    && forall i, j {:trigger Next(tr[i], tr[j])} :: 0 <= i && i + 1 == j < |tr| ==> Next(tr[i], tr[j])
  }

  // --- Invariant ---------------------------------------------------------------------------

  ghost predicate Inv(s: State) {
    && WellFormed(s)
    // every channel but the current one is closed, once; the current one at most once
    && (forall c :: 0 <= c < |s.closes| && c != s.cancel ==> s.closes[c] == 1) && s.closes[s.cancel] <= 1
    // only the armed timer can still act, and then only on the current, open channel
    && (forall t :: 0 <= t < |s.timers| && Live(s.timers[t]) ==> s.timer == Some(t))
    && (forall t :: 0 <= t < |s.timers| && s.timers[t].Loaded? ==> s.timers[t].chan == s.cancel)
    && (s.timer.Some? ==>
          var t := s.timers[s.timer.value];
          && (Live(t) ==> s.closes[s.cancel] == 0) && (t == Done ==> s.closes[s.cancel] == 1)
          && (t == Stopped ==> s.holder.Deciding?))
    && (s.holder.Waiting? ==> s.timer.Some? && s.timers[s.timer.value] != Pending)
    && (s.holder.Deciding? && s.timer.Some? ==> !Live(s.timers[s.timer.value]))
    && (s.holder.Checked? ==> s.timer.None? && s.holder.closed == (s.closes[s.cancel] > 0))
    && forall c :: c in s.handedOut ==> c < |s.closes|
  }

  lemma SetInv(s: State, s': State)
    requires Inv(s) && Set(s, s')
    ensures Inv(s')
  {
  }

  lemma CallbackInv(s: State, s': State, t: nat)
    requires Inv(s) && Callback(s, s', t)
    ensures Inv(s')
  {
  }

  lemma {:induction false} RunInv(tr: seq<State>, i: nat)
    requires Run(tr) && i < |tr|
    ensures Inv(tr[i])
  {
    if i > 0 {
      RunInv(tr, i - 1);
      var s, s' := tr[i - 1], tr[i];
      assert Next(s, s');
      if Set(s, s') {
        SetInv(s, s');
      } else if t :| Callback(s, s', t) {
        CallbackInv(s, s', t);
      }
    }
  }

  // --- The theorems ---------------------------------------------------------------------------

  /** No channel is ever closed twice. */
  lemma ClosedAtMostOnce(tr: seq<State>, i: nat, c: nat)
    requires Run(tr) && i < |tr| && c < |tr[i].closes|
    ensures tr[i].closes[c] <= 1
  {
    RunInv(tr, i);
  }

  /** A channel that `wait` ever handed out and that is still open is the current one: a later
      expiry reaches every operation already blocked. */
  lemma OpenMeansCurrent(tr: seq<State>, i: nat, c: nat)
    requires Run(tr) && i < |tr| && c in tr[i].handedOut && c < |tr[i].closes| && tr[i].closes[c] == 0
    ensures c == tr[i].cancel
  {
    RunInv(tr, i);
  }

  /** A `set` blocked on a fired timer waits for nothing but what that timer's callback does: the
      channel is closed already, or the callback's next steps close exactly this channel. */
  lemma BlockedSetIsServed(tr: seq<State>, i: nat)
    requires Run(tr) && i < |tr| && tr[i].holder.Waiting?
    ensures var s := tr[i];
            s.timer.Some? && s.timer.value < |s.timers| && s.cancel < |s.closes| &&
            match s.timers[s.timer.value]
            case Done => s.closes[s.cancel] == 1
            case Loaded(c) => c == s.cancel
            case Fired => forall s' :: Callback(s, s', s.timer.value) ==> s'.timers[s.timer.value] == Loaded(s.cancel)
            case _ => false
  {
    RunInv(tr, i);
  }

  /** What a `set` that is done leaves for the deadline it was called with: none, an open channel without a timer; one
      ahead, an open channel with its timer armed; one past, a closed channel. */
  lemma SetOutcome(tr: seq<State>, i: nat, j: nat, mode: Mode)
    requires Run(tr) && i < j && j + 1 < |tr| && Enter(tr[i], tr[i + 1], mode)
    requires (forall k :: i < k <= j ==> tr[k].holder != Free) && tr[j + 1].holder == Free
    ensures var s' := tr[j + 1];
            s'.cancel < |s'.closes| &&
            match mode
            case Zero => s'.closes[s'.cancel] == 0 && s'.timer.None?
            case Future =>
              && s'.closes[s'.cancel] == 0 && s'.timer.Some?
              && s'.timer.value < |s'.timers| && s'.timers[s'.timer.value] == Pending
            case Past => s'.closes[s'.cancel] == 1 && s'.timer.None?
  {
    RunInv(tr, j);
    ModeKept(tr, i, j, mode);
    assert Next(tr[j], tr[j + 1]);
    LeavesBySet(tr[j], tr[j + 1]);
  }

  predicate WorksFor(h: Holder, mode: Mode) {
    match h
    case Free => false
    case Stopping(m) => m == mode
    case Waiting(m) => m == mode
    case Deciding(m) => m == mode
    case Checked(m, _) => m == mode
  }

  // A `set` works to its end for the deadline it was called with.
  lemma {:induction false} ModeKept(tr: seq<State>, i: nat, j: nat, mode: Mode)
    requires Run(tr) && i < j < |tr| && Enter(tr[i], tr[i + 1], mode)
    requires forall k :: i < k <= j ==> tr[k].holder != Free
    ensures WorksFor(tr[j].holder, mode)
    decreases j
  {
    if i + 1 < j {
      ModeKept(tr, i, j - 1, mode);
      assert Next(tr[j - 1], tr[j]);
      ModeStep(tr[j - 1], tr[j], mode);
    }
  }

  lemma ModeStep(s: State, s': State, mode: Mode)
    requires Next(s, s') && WorksFor(s.holder, mode) && s'.holder != Free
    ensures WorksFor(s'.holder, mode)
  {
  }

  lemma LeavesBySet(s: State, s': State)
    requires Next(s, s') && s.holder != Free && s'.holder == Free
    ensures Set(s, s') && s.holder.Checked?
  {
  }
}
