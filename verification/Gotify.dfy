/** The Gotify batch queue of app/services/notifications.py: messages are collected
    under a lock and sent together by a timer that every new message restarts. */
module Gotify {
  import opened Wrappers

  datatype Message = Message(title: string, body: string, priority: int)

  // A started threading.Timer: when it is due and when it was started.
  datatype Timer = Timer(due: nat, started: nat)

  // What a flush took, when its last message was added and when it was taken.
  datatype Batch = Batch(messages: seq<Message>, added: nat, taken: nat)

  const BATCH_COOLDOWN := 300
  const QUIET_RETRY := 600

  // ---- the protocol --------------------------------------------------------------

  datatype State = State(
    queue: seq<Message>,
    current: Option<nat>,       // _gotify_timer
    armed: map<nat, Timer>,     // started and not yet due
    firing: map<nat, Timer>,    // due: the flush waits for the lock, cancel comes too late
    created: nat,
    clock: nat,
    batches: seq<Batch>,        // what the flushes took
    accepted: seq<Message>,
    added: nat)                 // when the last message was accepted

  datatype Event = Sends(m: Message, enabled: bool) | Ticks(seconds: nat) | Fires(t: nat) | Flushes(t: nat, quiet: bool)

  const INITIAL := State([], None, map[], map[], 0, 0, [], [], 0)

  /** A new timer, and it is the current one. */
  function Armed(s: State, delay: nat): State {
    s.(armed := s.armed[s.created := Timer(s.clock + delay, s.clock)], current := Some(s.created), created := s.created + 1)
  }

  /** The current timer is cancelled, unless its flush has begun. */
  function Cancelled(s: State): State {
    if s.current.Some? then s.(armed := s.armed - {s.current.value}) else s
  }

  function Step(s: State, e: Event): State {
    match e
    case Sends(m, enabled) =>
      if !enabled then s
      else Armed(Cancelled(s.(queue := s.queue + [m], accepted := s.accepted + [m], added := s.clock)), BATCH_COOLDOWN)
    case Ticks(seconds) => s.(clock := s.clock + seconds)
    case Fires(t) =>
      if t in s.armed && s.armed[t].due <= s.clock then s.(firing := s.firing[t := s.armed[t]], armed := s.armed - {t}) else s
    case Flushes(t, quiet) =>
      if t !in s.firing then s
      else
        var idle := s.(firing := s.firing - {t}, current := None);
        if s.queue == [] then idle
        else if quiet then Armed(idle, QUIET_RETRY)
        else idle.(batches := s.batches + [Batch(s.queue, s.added, s.clock)], queue := [])
  }

  function Run(s: State, events: seq<Event>): State {
    if events == [] then s else Step(Run(s, events[..|events| - 1]), events[|events| - 1])
  }

  // ---- the code ------------------------------------------------------------------

  class Queue {
    var queue: seq<Message>
    var current: Option<nat>
    var armed: map<nat, Timer>
    var firing: map<nat, Timer>
    var created: nat
    var clock: nat
    var batches: seq<Batch>
    ghost var accepted: seq<Message>
    var added: nat

    ghost function S(): State reads this {
      State(queue, current, armed, firing, created, clock, batches, accepted, added)
    }

    constructor ()
      ensures S() == INITIAL
    {
      queue, current, armed, firing, created, clock, batches := [], None, map[], map[], 0, 0, [];
      accepted, added := [], 0;
    }

    /** `_schedule_gotify_flush` */
    method Schedule()
      modifies `armed, `current, `created
      ensures S() == Armed(Cancelled(old(S())), BATCH_COOLDOWN)
    {
      if current.Some? {
        armed := armed - {current.value};
      }
      armed := armed[created := Timer(clock + BATCH_COOLDOWN, clock)];
      current, created := Some(created), created + 1;
    }

    /** `send_gotify` */
    method Send(m: Message, enabled: bool) returns (ok: bool)
      modifies this
      ensures ok == enabled && S() == Step(old(S()), Sends(m, enabled))
    {
      if !enabled {
        return false;
      }
      queue, accepted, added := queue + [m], accepted + [m], clock;
      Schedule();
      return true;
    }

    /** Time passes. */
    method Tick(seconds: nat)
      modifies `clock
      ensures S() == Step(old(S()), Ticks(seconds))
    {
      clock := clock + seconds;
    }

    /** A timer comes due: its thread starts the flush, which has to wait for the lock. */
    method Fire(t: nat)
      modifies `armed, `firing
      ensures S() == Step(old(S()), Fires(t))
    {
      if t in armed && armed[t].due <= clock {
        firing := firing[t := armed[t]];
        armed := armed - {t};
      }
    }

    /** `_flush_gotify_queue`, once it has the lock. */
    method Flush(t: nat, quiet: bool)
      modifies this
      ensures S() == Step(old(S()), Flushes(t, quiet))
    {
      if t !in firing {
        return;
      }
      firing := firing - {t};
      current := None;
      if queue == [] {
        return;
      }
      if quiet {
        armed := armed[created := Timer(clock + QUIET_RETRY, clock)];
        current, created := Some(created), created + 1;
        return;
      }
      batches := batches + [Batch(queue, added, clock)];
      queue := [];
    }
  }

  // ---- nothing is lost -------------------------------------------------------------

  ghost function Concat(batches: seq<Batch>): seq<Message> {
    if batches == [] then [] else Concat(batches[..|batches| - 1]) + batches[|batches| - 1].messages
  }

  lemma ConcatSnoc(batches: seq<Batch>, batch: Batch)
    ensures Concat(batches + [batch]) == Concat(batches) + batch.messages
  {
    assert (batches + [batch])[..|batches|] == batches;
  }

  /** The messages that were accepted, in order. */
  ghost function Accepted(events: seq<Event>): seq<Message> {
    if events == [] then []
    else
      var e := events[|events| - 1];
      Accepted(events[..|events| - 1]) + if e.Sends? && e.enabled then [e.m] else []
  }

  /** Nothing is lost, doubled or reordered; queued messages always have a flush coming. */
  ghost predicate Inv(s: State) {
    && Concat(s.batches) + s.queue == s.accepted
    && (s.queue != [] ==> s.armed != map[] || s.firing != map[])
    && (forall b :: b in s.batches ==> b.messages != [])
  }

  lemma StepKeeps(s: State, e: Event)
    requires Inv(s)
    ensures Inv(Step(s, e)) && Step(s, e).accepted == s.accepted + if e.Sends? && e.enabled then [e.m] else []
  {
    StepPending(s, e);
    ConcatSnoc(s.batches, Batch(s.queue, s.added, s.clock));
    hide Concat, Armed, Cancelled;
    StepQueue(s, e);
  }

  lemma StepPending(s: State, e: Event)
    requires s.queue != [] ==> s.armed != map[] || s.firing != map[]
    ensures var n := Step(s, e); n.queue != [] ==> n.armed != map[] || n.firing != map[]
  {
    var n := Step(s, e);
    if e.Sends? && e.enabled {
      assert s.created in n.armed;
    } else if e.Fires? {
      assert n == s || e.t in n.firing;
    } else if e.Flushes? && e.t in s.firing && s.queue != [] && e.quiet {
      assert s.created in n.armed;
    }
  }

  lemma StepQueue(s: State, e: Event)
    ensures var n := Step(s, e);
      && n.accepted == s.accepted + (if e.Sends? && e.enabled then [e.m] else [])
      && ((n.batches == s.batches && n.queue == s.queue + if e.Sends? && e.enabled then [e.m] else [])
          || (s.queue != [] && n.queue == [] && n.batches == s.batches + [Batch(s.queue, s.added, s.clock)] && !e.Sends?))
  {
  }

  lemma {:induction false} RunKeeps(events: seq<Event>)
    ensures Inv(Run(INITIAL, events)) && Run(INITIAL, events).accepted == Accepted(events)
  {
    if events != [] {
      RunKeeps(events[..|events| - 1]);
      StepKeeps(Run(INITIAL, events[..|events| - 1]), events[|events| - 1]);
    }
  }

  /** No batch is taken but by a flush outside quiet hours. */
  lemma QuietTakesNothing(s: State, e: Event)
    ensures Step(s, e).batches != s.batches ==> e.Flushes? && !e.quiet && Step(s, e).batches == s.batches + [Batch(s.queue, s.added, s.clock)]
  {
  }

  /** In a whole run every batch was taken by one such flush. */
  lemma {:induction false} QuietRun(events: seq<Event>, i: nat) returns (k: nat)
    requires i < |Run(INITIAL, events).batches|
    ensures k < |events| && events[k].Flushes? && !events[k].quiet
    ensures var before, after := Run(INITIAL, events[..k]), Run(INITIAL, events[..k + 1]);
      && |before.batches| == i && after.batches == before.batches + [Batch(before.queue, before.added, before.clock)]
      && Run(INITIAL, events).batches[i] == after.batches[i]
  {
    k := |events|;
    if events != [] {
      var init, last := events[..|events| - 1], events[|events| - 1];
      var before := Run(INITIAL, init);
      QuietTakesNothing(before, last);
      if i < |before.batches| {
        k := QuietRun(init, i);
        assert init[..k] == events[..k] && init[..k + 1] == events[..k + 1];
      } else {
        k := |events| - 1;
        assert events[..k + 1] == events;
      }
    }
  }

  /** Quiet hours keep the queue, and try again ten minutes later. */
  lemma QuietRetries(s: State, t: nat)
    requires t in s.firing && s.queue != []
    ensures var n := Step(s, Flushes(t, true));
      && n.queue == s.queue && n.batches == s.batches
      && n.current.Some? && n.current.value in n.armed && n.armed[n.current.value] == Timer(s.clock + 600, s.clock)
  {
  }

  /** Every timer waits five or ten minutes from its start. */
  ghost predicate DelaysOk(s: State) {
    forall t :: t in s.armed ==> s.armed[t].started <= s.clock && (s.armed[t].due - s.armed[t].started == 300 || s.armed[t].due - s.armed[t].started == 600)
  }

  lemma DelaysStep(s: State, e: Event)
    requires DelaysOk(s)
    ensures DelaysOk(Step(s, e))
  {
  }

  /** In every run a queued message has a flush that waits for the lock or comes within
      ten minutes. */
  lemma {:induction false} FlushIsNear(events: seq<Event>)
    ensures DelaysOk(Run(INITIAL, events))
    ensures var s := Run(INITIAL, events);
      s.queue != [] ==> s.firing != map[] || exists t :: t in s.armed && s.armed[t].due <= s.clock + 600
  {
    if events != [] {
      FlushIsNear(events[..|events| - 1]);
      DelaysStep(Run(INITIAL, events[..|events| - 1]), events[|events| - 1]);
    }
    RunKeeps(events);
    var s := Run(INITIAL, events);
    hide Run;
    if s.queue != [] && s.firing == map[] {
      ArmedSome(s.armed);
    }
  }

  lemma ArmedSome(armed: map<nat, Timer>)
    requires armed != map[]
    ensures exists t :: t in armed
  {
    assert armed != map[] ==> armed.Keys != {};
  }

  // ---- the cool-down ---------------------------------------------------------------

  ghost predicate Kept(b: Batch) {
    b.taken >= b.added + BATCH_COOLDOWN
  }

  ghost predicate AllKept(s: State) {
    forall b :: b in s.batches ==> Kept(b)
  }

  ghost predicate NoSends(events: seq<Event>) {
    forall e :: e in events ==> !(e.Sends? && e.enabled)
  }

  /** What is known of timers in every run. */
  ghost predicate TimersOk(s: State) {
    && s.added <= s.clock && (s.current.Some? ==> s.current.value < s.created)
    && (forall t :: t in s.armed ==> t < s.created) && (forall t :: t in s.firing ==> t < s.created)
  }

  /** Nothing can take the queue too early: no flush has begun, and no timer is due,
      before the cool-down of the last message is over. */
  ghost predicate Patient(s: State) {
    s.queue != [] && s.clock < s.added + BATCH_COOLDOWN ==>
      s.firing == map[] && forall t :: t in s.armed ==> s.armed[t].due >= s.added + BATCH_COOLDOWN
  }

  /** What a sender can see before it adds a message: no flush waits for the lock, and
      no timer but the one it is about to cancel is due within the cool-down. */
  ghost predicate Alone(s: State) {
    && s.firing == map[]
    && (forall t :: t in s.armed && s.current != Some(t) ==> s.armed[t].due >= s.clock + BATCH_COOLDOWN)
  }

  lemma TimersStep(s: State, e: Event)
    requires TimersOk(s)
    ensures TimersOk(Step(s, e))
  {
  }

  lemma {:induction false} TimersRun(s: State, events: seq<Event>)
    requires TimersOk(s)
    ensures TimersOk(Run(s, events))
  {
    if events != [] {
      TimersRun(s, events[..|events| - 1]);
      TimersStep(Run(s, events[..|events| - 1]), events[|events| - 1]);
    }
  }

  /** An accepted message keeps its cool-down open exactly when the sender is alone. */
  lemma SendIsPatient(s: State, m: Message)
    requires TimersOk(s)
    ensures Patient(Step(s, Sends(m, true))) <==> Alone(s)
  {
    var n := Step(s, Sends(m, true));
    assert n.firing == s.firing && n.queue != [] && n.added == s.clock == n.clock;
    if Alone(s) {
      forall t | t in n.armed ensures n.armed[t].due >= n.added + BATCH_COOLDOWN {}
    }
    if Patient(n) {
      forall t | t in s.armed && s.current != Some(t) ensures s.armed[t].due >= s.clock + BATCH_COOLDOWN {
        assert t in n.armed && n.armed[t] == s.armed[t];
      }
    }
  }

  lemma PatientStep(s: State, e: Event)
    requires TimersOk(s) && Patient(s) && AllKept(s) && !(e.Sends? && e.enabled)
    ensures Patient(Step(s, e)) && AllKept(Step(s, e))
  {
    var n := Step(s, e);
    if e.Flushes? && e.t in s.firing {
      assert s.firing != map[];
    }
    forall b | b in n.batches ensures Kept(b) {
      assert b in s.batches || b == Batch(s.queue, s.added, s.clock);
    }
  }

  lemma {:induction false} PatientRun(s: State, events: seq<Event>)
    requires TimersOk(s) && Patient(s) && AllKept(s) && NoSends(events)
    ensures Patient(Run(s, events)) && AllKept(Run(s, events))
  {
    if events != [] {
      var init, last := events[..|events| - 1], events[|events| - 1];
      assert NoSends(init) && last in events;
      PatientRun(s, init);
      TimersRun(s, init);
      PatientStep(Run(s, init), last);
    }
  }

  lemma Run1(s: State, e: Event)
    ensures Run(s, [e]) == Step(s, e)
  {
    assert [e][..0] == [];
  }

  lemma Run2(s: State, e: Event, f: Event)
    ensures Run(s, [e, f]) == Step(Step(s, e), f)
  {
    Run1(s, e);
    assert [e, f][..1] == [e];
  }

  lemma Run3(s: State, e: Event, f: Event, g: Event)
    ensures Run(s, [e, f, g]) == Step(Step(Step(s, e), f), g)
  {
    Run2(s, e, f);
    assert [e, f, g][..2] == [e, f];
  }

  /** The last batch was taken too early. */
  lemma TakenEarly(s: State, b: Batch)
    requires s.batches != [] && s.batches[|s.batches| - 1] == b && !Kept(b)
    ensures !AllKept(s)
  {
    assert b in s.batches;
  }

  /** If the queue can be taken too early, some continuation does so. */
  lemma Impatient(s: State) returns (events: seq<Event>)
    requires TimersOk(s) && !Patient(s)
    ensures NoSends(events) && !AllKept(Run(s, events))
  {
    if s.firing != map[] {
      var t :| t in s.firing;
      events := [Flushes(t, false)];
      Run1(s, Flushes(t, false));
      TakenEarly(Run(s, events), Batch(s.queue, s.added, s.clock));
    } else {
      var t :| t in s.armed && s.armed[t].due < s.added + BATCH_COOLDOWN;
      var wait := if s.armed[t].due > s.clock then s.armed[t].due - s.clock else 0;
      events := [Ticks(wait), Fires(t), Flushes(t, false)];
      Run3(s, Ticks(wait), Fires(t), Flushes(t, false));
      TakenEarly(Run(s, events), Batch(s.queue, s.added, s.clock + wait));
    }
  }

  ghost predicate AlwaysAlone(events: seq<Event>) {
    forall k :: 0 <= k < |events| && events[k].Sends? && events[k].enabled ==> Alone(Run(INITIAL, events[..k]))
  }

  /** However the run goes on from any of its points, until the next message. */
  ghost predicate AlwaysKept(events: seq<Event>) {
    forall k, rest :: 0 <= k <= |events| && NoSends(rest) ==> AllKept(Run(Run(INITIAL, events[..k]), rest))
  }

  lemma {:induction false} AlonePatient(events: seq<Event>, k: nat)
    requires AlwaysAlone(events) && k <= |events|
    ensures Patient(Run(INITIAL, events[..k])) && AllKept(Run(INITIAL, events[..k]))
  {
    if k > 0 {
      var before, e := Run(INITIAL, events[..k - 1]), events[k - 1];
      AlonePatient(events, k - 1);
      assert events[..k][..k - 1] == events[..k - 1];
      TimersRun(INITIAL, events[..k - 1]);
      if e.Sends? && e.enabled {
        SendIsPatient(before, e.m);
      } else {
        PatientStep(before, e);
      }
    }
  }

  /** The documented cool-down is kept in every continuation if and only if each message
      was accepted while no flush waited for the lock and no other timer was due. */
  lemma CooldownExact(events: seq<Event>)
    ensures AlwaysKept(events) <==> AlwaysAlone(events)
  {
    if AlwaysAlone(events) {
      forall k, rest | 0 <= k <= |events| && NoSends(rest) ensures AllKept(Run(Run(INITIAL, events[..k]), rest)) {
        AlonePatient(events, k);
        TimersRun(INITIAL, events[..k]);
        PatientRun(Run(INITIAL, events[..k]), rest);
      }
    }
    if AlwaysKept(events) {
      forall k | 0 <= k < |events| && events[k].Sends? && events[k].enabled ensures Alone(Run(INITIAL, events[..k])) {
        var s, after := Run(INITIAL, events[..k]), Run(INITIAL, events[..k + 1]);
        TimersRun(INITIAL, events[..k]);
        assert events[..k + 1][..k] == events[..k];
        SendIsPatient(s, events[k].m);
        if !Patient(after) {
          TimersStep(s, events[k]);
          var rest := Impatient(after);
        }
      }
    }
  }

  // ---- every interleaving ----------------------------------------------------------

  /** Any interleaving of senders, time, due timers and flushes: the batches taken so far
      and the queue together are the accepted messages, each exactly once and in order;
      as long as any wait, a timer or a flush is pending; and as long as each message was
      accepted alone, every batch has had its cool-down. */
  method Replay(events: seq<Event>) returns (batches: seq<Batch>, queue: seq<Message>, pending: nat)
    ensures batches == Run(INITIAL, events).batches && queue == Run(INITIAL, events).queue
    ensures pending == |Run(INITIAL, events).armed| + |Run(INITIAL, events).firing|
    ensures Concat(batches) + queue == Accepted(events)
    ensures queue != [] ==> pending > 0
    ensures forall b :: b in batches ==> b.messages != []
    ensures AlwaysAlone(events) ==> forall b :: b in batches ==> Kept(b)
  {
    hide Step, Inv, AlwaysAlone, AllKept;
    var q := new Queue();
    for k := 0 to |events|
      invariant fresh(q) && q.S() == Run(INITIAL, events[..k])
    {
      assert events[..k + 1][..k] == events[..k];
      match events[k]
      case Sends(m, enabled) => var ok := q.Send(m, enabled);
      case Ticks(n) => q.Tick(n);
      case Fires(t) => q.Fire(t);
      case Flushes(t, quiet) => q.Flush(t, quiet);
    }
    assert events[..|events|] == events;
    RunKeeps(events);
    assert Inv(q.S());
    Pending(q.S());
    if AlwaysAlone(events) {
      AlonePatient(events, |events|);
      EachKept(q.S());
    }
    return q.batches, q.queue, |q.armed| + |q.firing|;
  }

  lemma Pending(s: State)
    requires Inv(s)
    ensures Concat(s.batches) + s.queue == s.accepted && forall b :: b in s.batches ==> b.messages != []
    ensures s.queue != [] ==> |s.armed| + |s.firing| > 0
  {
    assert s.armed != map[] ==> |s.armed| > 0;
    assert s.firing != map[] ==> |s.firing| > 0;
  }

  lemma EachKept(s: State)
    requires AllKept(s)
    ensures forall b :: b in s.batches ==> Kept(b)
  {
  }

  /** A flush that waits for the lock takes a message added that moment .. */
  method FlushInRace(q: Queue, a: Message, b: Message)
    requires q.S() == INITIAL
    modifies q
    ensures q.S() == State([], None, map[1 := Timer(600, 300)], map[], 2, 300, [Batch([a, b], 300, 300)], [a, b], 300)
  {
    var ok := q.Send(a, true);
    assert q.S() == State([a], Some(0), map[0 := Timer(300, 0)], map[], 1, 0, [], [a], 0);
    q.Tick(BATCH_COOLDOWN);
    q.Fire(0);
    assert q.S() == State([a], Some(0), map[], map[0 := Timer(300, 0)], 1, 300, [], [a], 0);
    ok := q.Send(b, true);
    assert q.S() == State([a, b], Some(1), map[1 := Timer(600, 300)], map[0 := Timer(300, 0)], 2, 300, [], [a, b], 300);
    q.Flush(0, false);
  }

  /** .. and the timer of that message stays armed without being current, and takes a later
      message too early, though nothing is firing when that one is sent. */
  method CooldownCanBeMissed(a: Message, b: Message, c: Message) returns (batches: seq<Batch>)
    ensures batches == [Batch([a, b], 300, 300), Batch([c], 500, 600)]
  {
    var q := new Queue();
    FlushInRace(q, a, b);
    var first := Batch([a, b], 300, 300);
    q.Tick(200);
    var ok := q.Send(c, true);
    assert q.S() == State([c], Some(2), map[1 := Timer(600, 300), 2 := Timer(800, 500)], map[], 3, 500, [first], [a, b, c], 500);
    q.Tick(100);
    q.Fire(1);
    q.Flush(1, false);
    return q.batches;
  }
}
