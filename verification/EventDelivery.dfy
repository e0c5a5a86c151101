/** The bounded, lossy event queue between a run and its event consumer. */
module EventDelivery {

  /** Where the single consumer goroutine is. An event is its emission number. */
  datatype Consumer =
    | Receiving
    | InSink(event: nat)
    | BeforeNotice(last: bool)
    | InNotice(count: nat, last: bool)
    | Ended

  /** Where the run's one call of close is. */
  datatype Closer = Open | Draining | Drained | TimedOut | Reported(count: nat, panics: nat, timedOut: bool)

  /** emitted counts all emissions; lost counts those that were refused;
      adjusted is what close added to the drop counter after its time-out. */
  datatype State = State(
    cap: nat, queue: seq<nat>, queueClosed: bool, closed: bool,
    dropped: nat, panics: nat, announced: nat,
    consumer: Consumer, closer: Closer,
    emitted: nat, lost: nat, adjusted: nat, handed: seq<nat>, notices: seq<nat>, sentOnClosed: bool)

  datatype Event =
    | Emit
    | Receive
    | SinkReturns(panics: bool)
    | NoticeSection
    | NoticeReturns(panics: bool)
    | QueueEnds
    | CloseQueue
    | SeeDone
    | TimeOut
    | Report

  function Initial(cap: nat): State {
    State(cap, [], false, false, 0, 0, 0, Receiving, Open, 0, 0, 0, [], [], false)
  }

  predicate Enabled(s: State, e: Event) {
    match e
    case Emit => true
    case Receive => s.consumer == Receiving && s.queue != []
    case SinkReturns(_) => s.consumer.InSink?
    case NoticeSection => s.consumer.BeforeNotice?
    case NoticeReturns(_) => s.consumer.InNotice?
    case QueueEnds => s.consumer == Receiving && s.queue == [] && s.queueClosed
    case CloseQueue => s.closer == Open
    case SeeDone => s.closer == Draining && s.consumer == Ended
    case TimeOut => s.closer == Draining
    case Report => s.closer == Drained || s.closer == TimedOut
  }

  function Apply(s: State, e: Event): State
    requires Enabled(s, e)
  {
    match e
    case Emit =>
      var n := s.emitted;
      if s.closed || |s.queue| >= s.cap then
        s.(emitted := n + 1, dropped := s.dropped + 1, lost := s.lost + 1)
      else s.(emitted := n + 1, queue := s.queue + [n], sentOnClosed := s.sentOnClosed || s.queueClosed)
    case Receive =>
      s.(queue := s.queue[1..], consumer := InSink(s.queue[0]), handed := s.handed + [s.queue[0]])
    case SinkReturns(panics) =>
      s.(consumer := BeforeNotice(false), panics := s.panics + if panics then 1 else 0)
    case NoticeSection =>
      var last := s.consumer.last;
      if s.dropped == s.announced then s.(consumer := if last then Ended else Receiving)
      else s.(announced := s.dropped, consumer := InNotice(s.dropped, last), notices := s.notices + [s.dropped])
    case NoticeReturns(panics) =>
      s.(consumer := if s.consumer.last then Ended else Receiving, panics := s.panics + if panics then 1 else 0)
    case QueueEnds => s.(consumer := BeforeNotice(true))
    case CloseQueue => s.(closed := true, queueClosed := true, closer := Draining)
    case SeeDone => s.(closer := Drained)
    case TimeOut =>
      s.(closer := TimedOut, dropped := s.dropped + |s.queue| + 1, adjusted := |s.queue| + 1)
    case Report => s.(closer := Reported(s.dropped, s.panics, s.closer == TimedOut))
  }

  function InFlight(s: State): nat {
    if s.consumer.InSink? then 1 else 0
  }

  /** Deliveries the sink has finished, with or without a panic. */
  function Completed(s: State): int {
    |s.handed| - InFlight(s)
  }

  predicate Increasing(ns: seq<nat>) {
    forall i, j | 0 <= i < j < |ns| :: ns[i] < ns[j]
  }

  /** The consumer has left its loop over the queue. */
  predicate Leaving(c: Consumer) {
    c == Ended || (c.BeforeNotice? && c.last) || (c.InNotice? && c.last)
  }

  predicate Inv(s: State) {
    // accounting
    && s.emitted == |s.handed| + |s.queue| + s.lost
    && s.dropped == s.lost + s.adjusted
    && (s.consumer.InSink? ==> s.handed != [] && s.handed[|s.handed|-1] == s.consumer.event)
    // order
    && Increasing(s.handed + s.queue)
    && (forall n | n in s.handed + s.queue :: n < s.emitted)
    && |s.queue| <= s.cap
    // closing
    && s.closed == s.queueClosed && !s.sentOnClosed
    && (s.closed <==> s.closer != Open)
    && (s.adjusted > 0 <==> s.closer == TimedOut || (s.closer.Reported? && s.closer.timedOut))
    && (Leaving(s.consumer) ==> s.closed && s.queue == [])
    && (s.closer == Drained || (s.closer.Reported? && !s.closer.timedOut) ==> s.consumer == Ended)
    && (s.adjusted > 0 ==> s.adjusted >= |s.queue| + InFlight(s))
    // notices
    && Increasing(s.notices)
    && (if s.notices == [] then s.announced == 0 else s.notices[|s.notices|-1] == s.announced)
    && s.announced <= s.dropped
  }

  lemma EmitInv(s: State)
    requires Inv(s)
    ensures Inv(Apply(s, Emit))
  {
    var t, sent := Apply(s, Emit), s.handed + s.queue;
    forall i | 0 <= i < |sent| ensures sent[i] < s.emitted { assert sent[i] in sent; }
    assert t.handed + t.queue == sent || t.handed + t.queue == sent + [s.emitted];
  }

  lemma ReceiveInv(s: State)
    requires Inv(s) && Enabled(s, Receive)
    ensures Inv(Apply(s, Receive))
  {
    assert s.handed + s.queue == Apply(s, Receive).handed + Apply(s, Receive).queue;
  }

  lemma StepInv(s: State, e: Event)
    requires Inv(s) && Enabled(s, e)
    ensures Inv(Apply(s, e))
  {
    match e {
      case Emit => EmitInv(s);
      case Receive => ReceiveInv(s);
      case NoticeSection => NoticeInv(s);
      case _ => OtherInv(s, e);
    }
  }

  lemma NoticeInv(s: State)
    requires Inv(s) && Enabled(s, NoticeSection)
    ensures Inv(Apply(s, NoticeSection))
  {
  }

  lemma OtherInv(s: State, e: Event)
    requires Inv(s) && Enabled(s, e) && !e.Emit? && !e.Receive? && !e.NoticeSection?
    ensures Inv(Apply(s, e))
  {
  }

  predicate IsRun(s: State, es: seq<Event>)
    decreases |es|
  {
    es == [] || (Enabled(s, es[0]) && IsRun(Apply(s, es[0]), es[1..]))
  }

  function Final(s: State, es: seq<Event>): State
    requires IsRun(s, es)
    decreases |es|
  {
    if es == [] then s else Final(Apply(s, es[0]), es[1..])
  }

  lemma {:induction false} RunInv(s: State, es: seq<Event>)
    requires Inv(s) && IsRun(s, es)
    ensures Inv(Final(s, es))
    decreases |es|
  {
    if es != [] {
      StepInv(s, es[0]);
      RunInv(Apply(s, es[0]), es[1..]);
    }
  }

  ghost predicate Reachable(t: State) {
    exists cap: nat, es: seq<Event> :: IsRun(Initial(cap), es) && Final(Initial(cap), es) == t
  }

  lemma ReachableInv(t: State)
    requires Reachable(t)
    ensures Inv(t)
  {
    var cap: nat, es: seq<Event> :| IsRun(Initial(cap), es) && Final(Initial(cap), es) == t;
    RunInv(Initial(cap), es);
  }

  /** Every emission is a finished delivery, the one in flight, queued or lost. */
  lemma Accounting(t: State)
    requires Reachable(t)
    ensures t.emitted == Completed(t) + InFlight(t) + |t.queue| + t.lost
    ensures t.closer != TimedOut && !t.closer.Reported? ==> t.dropped == t.lost
  {
    ReachableInv(t);
  }

  /** Nothing is ever sent on the closed queue, and the sink is handed a
      subsequence of the emissions, in order and without repetition, whether or
      not it panics. */
  lemma StreamSafety(t: State)
    requires Reachable(t)
    ensures !t.sentOnClosed && |t.queue| <= t.cap
    ensures Increasing(t.handed) && forall n | n in t.handed :: n < t.emitted
  {
    ReachableInv(t);
    assert forall i | 0 <= i < |t.handed| :: t.handed[i] == (t.handed + t.queue)[i];
    assert forall n | n in t.handed :: n in t.handed + t.queue;
  }

  /** Overflow notices carry strictly increasing counts, none beyond the drop counter. */
  lemma NoticesIncrease(t: State)
    requires Reachable(t)
    ensures Increasing(t.notices) && forall n | n in t.notices :: 0 < n <= t.dropped
  {
    ReachableInv(t);
    NoticesPositive(t);
  }

  lemma NoticesPositive(t: State)
    requires Reachable(t)
    ensures forall n | n in t.notices :: 0 < n <= t.announced
  {
    var cap: nat, es: seq<Event> :| IsRun(Initial(cap), es) && Final(Initial(cap), es) == t;
    PositiveRun(Initial(cap), es);
  }

  lemma {:induction false} PositiveRun(s: State, es: seq<Event>)
    requires Inv(s) && IsRun(s, es) && forall n | n in s.notices :: 0 < n <= s.announced
    ensures forall n | n in Final(s, es).notices :: 0 < n <= Final(s, es).announced
    decreases |es|
  {
    if es != [] {
      StepInv(s, es[0]);
      PositiveRun(Apply(s, es[0]), es[1..]);
    }
  }

  /** When the drain finishes, the reported drop count is exact. */
  lemma DrainedReportExact(t: State)
    requires Reachable(t) && t.closer == Drained
    ensures Apply(t, Report).closer.Reported? && !Apply(t, Report).closer.timedOut
    ensures Apply(t, Report).closer.count == t.emitted - Completed(t)
  {
    ReachableInv(t);
  }

  /** When it times out, the count at that instant never understates the
      undelivered events, and overstates them, by one, exactly when no event is
      in the sink. */
  lemma TimeoutCount(t: State)
    requires Reachable(t) && t.closer == Draining
    ensures
      var u := Apply(t, TimeOut);
      u.dropped == (u.emitted - Completed(u)) + (if u.consumer.InSink? then 0 else 1)
  {
    ReachableInv(t);
  }

  /** Nor does the later report understate, whatever happened in between. */
  lemma TimedOutReportNeverUnderstates(t: State)
    requires Reachable(t) && t.closer == TimedOut
    ensures Apply(t, Report).closer.count >= t.emitted - Completed(t)
  {
    ReachableInv(t);
  }

  // ----- what is accepted, and what is counted -----

  /** An event is queued behind the others exactly when the dispatcher is open and
      has room; otherwise it is counted as dropped. */
  lemma EmitAccepts(t: State)
    requires Reachable(t)
    ensures
      var u := Apply(t, Emit);
      && u.emitted == t.emitted + 1 && u.consumer == t.consumer && u.handed == t.handed && u.closed == t.closed
      && if !t.closed && |t.queue| < t.cap then
           u.queue == t.queue + [t.emitted] && u.lost == t.lost && u.dropped == t.dropped
         else
           u.queue == t.queue && u.lost == t.lost + 1 && u.dropped == t.dropped + 1
  {
  }

  /** The consumer hands the sink the oldest queued event. */
  lemma ReceiveTakesOldest(t: State)
    requires Reachable(t) && Enabled(t, Receive)
    ensures
      var u := Apply(t, Receive);
      u.consumer == InSink(t.queue[0]) && t.queue == [t.queue[0]] + u.queue && u.handed == t.handed + [t.queue[0]]
  {
  }

  /** The emissions of a run that came when the dispatcher was closed or full. */
  function Refusals(s: State, es: seq<Event>): nat
    requires IsRun(s, es)
    decreases |es|
  {
    if es == [] then 0
    else (if es[0] == Emit && (s.closed || |s.queue| >= s.cap) then 1 else 0) + Refusals(Apply(s, es[0]), es[1..])
  }

  /** Over every run exactly those are lost: none if it was never closed or full
      when an event came. */
  lemma {:induction false} LostExactly(s: State, es: seq<Event>)
    requires IsRun(s, es)
    ensures Final(s, es).lost == s.lost + Refusals(s, es)
    decreases |es|
  {
    if es != [] { LostExactly(Apply(s, es[0]), es[1..]); }
  }

  /** The returns of the sink that were panics. */
  function Panics(es: seq<Event>): nat {
    if es == [] then 0
    else
      (if (es[0].SinkReturns? && es[0].panics) || (es[0].NoticeReturns? && es[0].panics) then 1 else 0) + Panics(es[1..])
  }

  lemma {:induction false} PanicsExactly(s: State, es: seq<Event>)
    requires IsRun(s, es)
    ensures Final(s, es).panics == s.panics + Panics(es)
    decreases |es|
  {
    if es != [] { PanicsExactly(Apply(s, es[0]), es[1..]); }
  }

  /** The report carries them. */
  lemma PanicsReported(cap: nat, es: seq<Event>)
    requires IsRun(Initial(cap), es) && Enabled(Final(Initial(cap), es), Report)
    ensures Apply(Final(Initial(cap), es), Report).closer.panics == Panics(es)
  {
    PanicsExactly(Initial(cap), es);
  }

  // ----- what a close delivers -----

  lemma {:induction false} RunAppend(s: State, es: seq<Event>, e: Event)
    requires IsRun(s, es) && Enabled(Final(s, es), e)
    ensures IsRun(s, es + [e]) && Final(s, es + [e]) == Apply(Final(s, es), e)
    decreases |es|
  {
    if es == [] {
      assert ([] + [e])[1..] == [];
    } else {
      RunAppend(Apply(s, es[0]), es[1..], e);
      assert (es + [e])[1..] == es[1..] + [e];
    }
  }

  lemma {:induction false} RunConcat(s: State, p: seq<Event>, q: seq<Event>)
    requires IsRun(s, p) && IsRun(Final(s, p), q)
    ensures IsRun(s, p + q) && Final(s, p + q) == Final(Final(s, p), q)
    decreases |p|
  {
    if p == [] {
      assert p + q == q;
    } else {
      RunConcat(Apply(s, p[0]), p[1..], q);
      assert (p + q)[1..] == p[1..] + q;
    }
  }

  /** After the close the sink is owed exactly what is queued, whatever emitters,
      consumer and closer go on to do. */
  lemma {:induction false} ClosedQueueFixed(s: State, es: seq<Event>)
    requires Inv(s) && s.closed && IsRun(s, es)
    ensures Final(s, es).handed + Final(s, es).queue == s.handed + s.queue
    decreases |es|
  {
    if es != [] {
      var m := Apply(s, es[0]);
      StepInv(s, es[0]);
      assert m.handed + m.queue == s.handed + s.queue;
      ClosedQueueFixed(m, es[1..]);
    }
  }

  /** In every interleaving after the close: once the consumer has ended, the
      sink has been handed everything that was queued, in order and nothing else. */
  lemma DrainDelivers(s: State, es: seq<Event>)
    requires Reachable(s) && s.closed && IsRun(s, es) && Final(s, es).consumer == Ended
    ensures Final(s, es).queue == [] && Final(s, es).handed == s.handed + s.queue
  {
    ReachableInv(s);
    RunInv(s, es);
    ClosedQueueFixed(s, es);
  }

  /** The consumer's last notice is still to come. */
  predicate Listening(c: Consumer) {
    c != Ended && !(c.InNotice? && c.last)
  }

  lemma {:induction false} AnnouncedGrows(s: State, es: seq<Event>)
    requires Inv(s) && IsRun(s, es)
    ensures Final(s, es).announced >= s.announced
    decreases |es|
  {
    if es != [] {
      StepInv(s, es[0]);
      AnnouncedGrows(Apply(s, es[0]), es[1..]);
    }
  }

  lemma LastNotice(s: State, e: Event)
    requires Enabled(s, e) && Listening(s.consumer)
    ensures var m := Apply(s, e); m.dropped >= s.dropped && (Listening(m.consumer) || m.announced == m.dropped)
  {
  }

  /** And every drop counted while the consumer was still listening has been
      announced to it. */
  lemma {:induction false} DropsAnnounced(s: State, es: seq<Event>)
    requires Inv(s) && IsRun(s, es) && Listening(s.consumer) && Final(s, es).consumer == Ended
    ensures Final(s, es).announced >= s.dropped
    decreases |es|
  {
    var m := Apply(s, es[0]);
    StepInv(s, es[0]);
    LastNotice(s, es[0]);
    if Listening(m.consumer) { DropsAnnounced(m, es[1..]); } else { AnnouncedGrows(m, es[1..]); }
  }

  // ----- the source's object -----

  /** eventDispatcher. Each method is one critical section or channel operation,
      and is one step of the transition system. */
  class EventDispatcher {
    var queue: seq<nat>
    const capacity: nat
    var dropped: nat
    var panics: nat
    var announced: nat
    var closed: bool
    /** The goroutines' places and the histories. */
    ghost var rest: State

    ghost function View(): State
      reads this
    {
      rest.(cap := capacity, queue := queue, dropped := dropped, panics := panics, announced := announced,
            closed := closed, queueClosed := closed)
    }

    constructor (capacity: nat)
      ensures View() == Initial(capacity)
    {
      this.capacity := capacity;
      queue, dropped, panics, announced, closed := [], 0, 0, 0, false;
      rest := Initial(capacity);
    }

    /** emit; an event is its emission number. */
    method EmitEvent(event: nat)
      requires event == View().emitted && Inv(View())
      modifies this
      ensures View() == Apply(old(View()), Emit)
    {
      ghost var next := Apply(View(), Emit);
      if closed {
        dropped := dropped + 1;
      } else if |queue| < capacity {
        queue := queue + [event];
      } else {
        dropped := dropped + 1;
      }
      rest := next;
    }

    method ReceiveEvent() returns (event: nat)
      requires Enabled(View(), Receive)
      modifies this
      ensures View() == Apply(old(View()), Receive) && View().consumer == InSink(event)
    {
      ghost var next := Apply(View(), Receive);
      event := queue[0];
      queue := queue[1..];
      rest := next;
    }

    /** deliver, after the sink has returned or panicked. */
    method Recover(panicked: bool)
      requires Enabled(View(), SinkReturns(panicked))
      modifies this
      ensures View() == Apply(old(View()), SinkReturns(panicked))
    {
      ghost var next := Apply(View(), SinkReturns(panicked));
      if panicked { panics := panics + 1; }
      rest := next;
    }

    /** The locked part of deliverOverflowNotice. */
    method NextNotice() returns (due: bool, count: nat)
      requires Enabled(View(), NoticeSection)
      modifies this
      ensures View() == Apply(old(View()), NoticeSection)
      ensures due <==> View().consumer.InNotice?
      ensures due ==> View().consumer.count == count
    {
      ghost var next := Apply(View(), NoticeSection);
      due, count := dropped != announced, dropped;
      if due { announced := dropped; }
      rest := next;
    }

    method RecoverNotice(panicked: bool)
      requires Enabled(View(), NoticeReturns(panicked))
      modifies this
      ensures View() == Apply(old(View()), NoticeReturns(panicked))
    {
      ghost var next := Apply(View(), NoticeReturns(panicked));
      if panicked { panics := panics + 1; }
      rest := next;
    }

    /** close: no emission comes between closing the dispatcher and its queue. */
    method CloseForGood()
      requires Enabled(View(), CloseQueue) && Inv(View())
      modifies this
      ensures View() == Apply(old(View()), CloseQueue)
    {
      ghost var next := Apply(View(), CloseQueue);
      closed := true;
      rest := next;
    }

    /** What close does when draining takes too long. */
    method GiveUpDraining()
      requires Enabled(View(), TimeOut)
      modifies this
      ensures View() == Apply(old(View()), TimeOut)
    {
      ghost var next := Apply(View(), TimeOut);
      dropped := dropped + |queue| + 1;
      rest := next;
    }

    /** The statistics close returns. */
    method Stats(timedOut: bool) returns (count: nat, consumerPanics: nat)
      requires Enabled(View(), Report) && (timedOut <==> View().closer == TimedOut)
      modifies this
      ensures View() == Apply(old(View()), Report) && View().closer == Reported(count, consumerPanics, timedOut)
    {
      ghost var next := Apply(View(), Report);
      count, consumerPanics := dropped, panics;
      rest := next;
    }

    /** The two calls that follow an event, or the end of the queue. */
    method Notify(panicked: bool) returns (ghost es: seq<Event>)
      requires View().consumer.BeforeNotice?
      modifies this
      ensures IsRun(old(View()), es) && View() == Final(old(View()), es)
      ensures View().consumer == if old(View()).consumer.last then Ended else Receiving
      ensures View().queue == old(View()).queue && View().closed == old(View()).closed
    {
      ghost var start := View();
      es := [NoticeSection];
      RunAppend(start, [], NoticeSection);
      assert [] + [NoticeSection] == [NoticeSection];
      var due, count := NextNotice();
      if due {
        RunAppend(start, es, NoticeReturns(panicked));
        es := es + [NoticeReturns(panicked)];
        RecoverNotice(panicked);
      }
    }

    /** One turn of the loop in run, by itself. */
    method DeliverOne(panicked: bool, noticePanicked: bool) returns (ghost es: seq<Event>)
      requires Enabled(View(), Receive)
      modifies this
      ensures IsRun(old(View()), es) && View() == Final(old(View()), es)
      ensures View().consumer == Receiving && closed == old(closed) && queue == old(queue[1..])
    {
      ghost var start := View();
      var event := ReceiveEvent();
      RunAppend(start, [], Receive);
      RunAppend(start, [] + [Receive], SinkReturns(panicked));
      Recover(panicked);
      ghost var notice := Notify(noticePanicked);
      es := [] + [Receive] + [SinkReturns(panicked)];
      RunConcat(start, es, notice);
      es := es + notice;
    }

    /** run once the queue is closed, by itself: its program order is a run of the
        transition system that ends the consumer, so DrainDelivers speaks of it. */
    method DrainClosedQueue(panics: nat -> bool) returns (ghost es: seq<Event>)
      requires closed && View().consumer == Receiving
      modifies this
      ensures IsRun(old(View()), es) && View() == Final(old(View()), es)
      ensures View().consumer == Ended
    {
      ghost var start := View();
      es := [];
      var n := 0;
      while |queue| > 0
        invariant IsRun(start, es) && View() == Final(start, es)
        invariant closed && View().consumer == Receiving
        decreases |queue|
      {
        ghost var turn := DeliverOne(panics(n), panics(n + 1));
        RunConcat(start, es, turn);
        es := es + turn;
        n := n + 2;
      }
      RunAppend(start, es, QueueEnds);
      es := es + [QueueEnds];
      rest := Apply(View(), QueueEnds);
      ghost var notice := Notify(panics(n));
      RunConcat(start, es, notice);
      es := es + notice;
    }
  }
}
