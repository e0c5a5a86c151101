/** Every event keeps the parts of the invariant about deliveries. */
module TaskRunnerMail {
  import opened Wrappers
  import opened ScopeModel
  import opened TaskRunner
  import opened TaskRunnerInvariant
  import opened TaskRunnerScopes

  predicate Extends(a: seq<Cell>, b: seq<Cell>) {
    |a| <= |b| && forall k | 0 <= k < |a| :: a[k].life <= b[k].life
  }

  lemma MailExtends(a: seq<Cell>, b: seq<Cell>, mail: set<Callback>)
    requires MailOk(a, mail) && Extends(a, b)
    ensures MailOk(b, mail)
  {
    forall cb | cb in mail ensures CallbackOk(cb, b) {
      assert CallbackOk(cb, a);
    }
  }

  predicate HoldsBack(o: Op) {
    o.gate == Held && o.phase != Refused
  }

  /** p owes no delivery that o did not owe. */
  predicate Silent(o: Op, p: Op) {
    && p.scope == o.scope && p.id == o.id && p.kind == o.kind && p.revision == o.revision
    && (p.gate == o.gate || (o.gate == Announced && p.gate == Open))
    && (HoldsBack(p) ==> HoldsBack(o))
    && (p.phase.Delivering? ==> p.phase == o.phase)
  }

  predicate AllSilent(ops: seq<Op>, ops': seq<Op>) {
    |ops| == |ops'| && forall i | 0 <= i < |ops| :: Silent(ops[i], ops'[i])
  }

  lemma SilentKeeps(scopes: seq<Cell>, ops: seq<Op>, scopes': seq<Cell>, ops': seq<Op>,
                    outbox: set<Callback>, offered: set<Callback>)
    requires OutboxOk(scopes, ops, outbox, offered)
    requires Extends(scopes, scopes') && AllSilent(ops, ops')
    ensures OutboxOk(scopes', ops', outbox, offered)
  {
    MailExtends(scopes, scopes', outbox + offered);
    forall i | 0 <= i < |ops'| ensures OpMailOk(ops'[i], i, outbox, offered) {
      assert OpMailOk(ops[i], i, outbox, offered) && Silent(ops[i], ops'[i]);
    }
  }

  /** A callback nobody has used yet may be put in the outbox. */
  lemma PostKeeps(scopes: seq<Cell>, ops: seq<Op>, outbox: set<Callback>, offered: set<Callback>, cb: Callback)
    requires OutboxOk(scopes, ops, outbox, offered)
    requires CallbackOk(cb, scopes)
    requires forall m | m in outbox + offered :: !SameKey(m, cb)
    requires forall i | 0 <= i < |ops| && HoldsBack(ops[i]) :: !SameKey(cb, LoadingCallback(ops[i], i))
    ensures OutboxOk(scopes, ops, outbox + {cb}, offered)
  {
    forall i | 0 <= i < |ops| ensures OpMailOk(ops[i], i, outbox + {cb}, offered) {
      assert OpMailOk(ops[i], i, outbox, offered);
    }
  }

  /** A deliver call returns: the callback changes hands. */
  lemma OfferKeeps(scopes: seq<Cell>, ops: seq<Op>, outbox: set<Callback>, offered: set<Callback>, cb: Callback)
    requires OutboxOk(scopes, ops, outbox, offered) && cb in outbox
    requires forall i | 0 <= i < |ops| && ops[i].gate == Announcing :: LoadingCallback(ops[i], i) != cb
    requires forall i | 0 <= i < |ops| && ops[i].phase.Delivering? :: ops[i].phase.cb != cb
    ensures OutboxOk(scopes, ops, outbox - {cb}, offered + {cb})
  {
    assert (outbox - {cb}) + (offered + {cb}) == outbox + offered;
    forall i | 0 <= i < |ops| ensures OpMailOk(ops[i], i, outbox - {cb}, offered + {cb}) {
      assert OpMailOk(ops[i], i, outbox, offered);
    }
  }

  /** Posting the snapshot a mutex section of scope k has just produced. */
  lemma FreshPostKeeps(s: System, ops: seq<Op>, k: nat, c: Core, cb: Callback)
    requires ScopesOk(s.scopes, s.ops) && OutboxOk(s.scopes, s.ops, s.outbox, s.offered)
    requires k < |s.scopes| && s.scopes[k].lock.None? && AllSilent(s.ops, ops)
    requires c.revision == s.scopes[k].core.revision + 1
    requires cb.scope == k && cb.revision == c.revision && cb.snapshot == c.snapshot
    ensures OutboxOk(s.scopes[k := Push(s.scopes[k], c)], ops, s.outbox + {cb}, s.offered)
  {
    assert CellOk(s.scopes[k], k, s.ops);
    var scopes := s.scopes[k := Push(s.scopes[k], c)];
    SilentKeeps(s.scopes, s.ops, scopes, ops, s.outbox, s.offered);
    forall m | m in s.outbox + s.offered ensures !SameKey(m, cb) {
      assert CallbackOk(m, s.scopes);
    }
    forall i | 0 <= i < |ops| && HoldsBack(ops[i]) ensures !SameKey(cb, LoadingCallback(ops[i], i)) {
      assert Silent(s.ops[i], ops[i]) && OpOk(s.ops[i], i, s.scopes);
    }
    PostKeeps(scopes, ops, s.outbox, s.offered, cb);
  }

  lemma BegunMail(s: System, k: nat, kind: OperationClass, exclusive: bool)
    requires ScopesOk(s.scopes, s.ops) && OutboxOk(s.scopes, s.ops, s.outbox, s.offered)
    requires CanSubmit(s, StartBegin(k, kind, exclusive))
    ensures var t := Begun(s, k, kind, exclusive); OutboxOk(t.scopes, t.ops, s.outbox, s.offered)
  {
    var t := Begun(s, k, kind, exclusive);
    if t != s {
      assert CellOk(s.scopes[k], k, s.ops);
      SilentKeeps(s.scopes, s.ops, t.scopes, CancelCtx(s.ops, s.scopes[k].core.cancel), s.outbox, s.offered);
      forall i | 0 <= i < |t.ops| ensures OpMailOk(t.ops[i], i, s.outbox, s.offered) {
        if i < |s.ops| {
          assert OpMailOk(CancelCtx(s.ops, s.scopes[k].core.cancel)[i], i, s.outbox, s.offered);
        } else {
          forall cb | cb in s.outbox + s.offered ensures !SameKey(cb, LoadingCallback(t.ops[i], i)) {
            assert CallbackOk(cb, s.scopes);
          }
        }
      }
    }
  }

  lemma UnlockMail(s: System, k: nat)
    requires ScopesOk(s.scopes, s.ops) && OutboxOk(s.scopes, s.ops, s.outbox, s.offered)
    requires CanSubmit(s, StartUnlock(k))
    ensures var t := Unlocking(s, k); OutboxOk(t.scopes, t.ops, t.outbox, s.offered)
  {
    var i := s.scopes[k].lock.value;
    var o, t := s.ops[i], Unlocking(s, k);
    assert CellOk(s.scopes[k], k, s.ops) && OpOk(o, i, s.scopes) && OpMailOk(o, i, s.outbox, s.offered);
    var cb := LoadingCallback(o, i);
    MailExtends(s.scopes, t.scopes, s.outbox + s.offered);
    forall j | 0 <= j < |t.ops| ensures OpMailOk(t.ops[j], j, t.outbox, s.offered) {
      assert OpMailOk(s.ops[j], j, s.outbox, s.offered) && OpOk(s.ops[j], j, s.scopes);
    }
    assert CallbackOk(cb, t.scopes);
  }

  lemma NewScopeMail(s: System, watched: bool)
    requires ScopesOk(s.scopes, s.ops) && OutboxOk(s.scopes, s.ops, s.outbox, s.offered)
    ensures var t := Submitted(s, NewScope(watched)); OutboxOk(t.scopes, t.ops, t.outbox, t.offered)
  {
    var t := Submitted(s, NewScope(watched));
    if !s.closed {
      SilentKeeps(s.scopes, s.ops, t.scopes, s.ops, s.outbox, s.offered);
      var cb := Callback(|s.scopes|, 1, InitialCore().snapshot, Caller);
      forall m | m in s.outbox + s.offered ensures !SameKey(m, cb) {
        assert CallbackOk(m, s.scopes);
      }
      forall i | 0 <= i < |s.ops| && HoldsBack(s.ops[i]) ensures !SameKey(cb, LoadingCallback(s.ops[i], i)) {
        assert OpOk(s.ops[i], i, s.scopes);
      }
      PostKeeps(t.scopes, s.ops, s.outbox, s.offered, cb);
    }
  }

  lemma ScheduledMail(s: System, k: nat)
    requires ScopesOk(s.scopes, s.ops) && OutboxOk(s.scopes, s.ops, s.outbox, s.offered)
    requires CanSubmit(s, StartSchedule(k))
    ensures var t := Scheduled(s, k); OutboxOk(t.scopes, t.ops, s.outbox, s.offered)
  {
    var i := s.scopes[k].lock.value;
    assert CellOk(s.scopes[k], k, s.ops) && OpOk(s.ops[i], i, s.scopes);
    SilentKeeps(s.scopes, s.ops, Scheduled(s, k).scopes, Scheduled(s, k).ops, s.outbox, s.offered);
  }

  /** One operation moves without sending or posting anything. */
  lemma SilentMove(s: System, i: nat, p: Op)
    requires OutboxOk(s.scopes, s.ops, s.outbox, s.offered) && i < |s.ops| && Silent(s.ops[i], p)
    ensures OutboxOk(s.scopes, s.ops[i := p], s.outbox, s.offered)
  {
    SilentKeeps(s.scopes, s.ops, s.scopes, s.ops[i := p], s.outbox, s.offered);
  }

  lemma SubmitMail(s: System, e: SubmitEvent)
    requires ScopesOk(s.scopes, s.ops) && OutboxOk(s.scopes, s.ops, s.outbox, s.offered)
    requires CanSubmit(s, e)
    ensures var t := Submitted(s, e); OutboxOk(t.scopes, t.ops, t.outbox, t.offered)
  {
    match e {
      case NewScope(watched) => NewScopeMail(s, watched);
      case StartBegin(k, kind, exclusive) => BegunMail(s, k, kind, exclusive);
      case StartSchedule(k) => ScheduledMail(s, k);
      case StartSignal(k) =>
        var i := s.scopes[k].lock.value;
        SilentMove(s, i, s.ops[i].(owes := false));
      case StartUnlock(k) => UnlockMail(s, k);
      case DispatchLoading(i) => LoadingMail(s, i);
      case OpenGate(i) => SilentMove(s, i, s.ops[i].(gate := Open));
    }
  }

  lemma LoadingMail(s: System, i: nat)
    requires ScopesOk(s.scopes, s.ops) && OutboxOk(s.scopes, s.ops, s.outbox, s.offered)
    requires CanSubmit(s, DispatchLoading(i))
    ensures var t := Submitted(s, DispatchLoading(i)); OutboxOk(t.scopes, t.ops, t.outbox, t.offered)
  {
    var t := Submitted(s, DispatchLoading(i));
    var cb := LoadingCallback(s.ops[i], i);
    assert OpMailOk(s.ops[i], i, s.outbox, s.offered) && OpOk(s.ops[i], i, s.scopes);
    assert t.outbox + t.offered == s.outbox + s.offered;
    forall j | 0 <= j < |t.ops| ensures OpMailOk(t.ops[j], j, t.outbox, t.offered) {
      assert OpMailOk(s.ops[j], j, s.outbox, s.offered);
    }
  }

  lemma DeliveredMail(s: System, e: TaskEvent)
    requires ScopesOk(s.scopes, s.ops) && OutboxOk(s.scopes, s.ops, s.outbox, s.offered)
    requires CanTask(s, e) && (e.DispatchTerminal? || e.DispatchPanics?)
    ensures var t := Tasked(s, e); OutboxOk(t.scopes, t.ops, t.outbox, t.offered)
  {
    var o, p := s.ops[e.i], Tasked(s, e).ops[e.i];
    assert OpMailOk(o, e.i, s.outbox, s.offered);
    SilentMove(s, e.i, p);
    SenderOnly(s, e.i, p);
    OfferKeeps(s.scopes, s.ops[e.i := p], s.outbox, s.offered, o.phase.cb);
  }

  /** Once operation i has left its delivery behind, nobody else makes it. */
  lemma SenderOnly(s: System, i: nat, p: Op)
    requires OutboxOk(s.scopes, s.ops, s.outbox, s.offered) && i < |s.ops|
    requires s.ops[i].phase.Delivering? && !p.phase.Delivering? && p.gate == s.ops[i].gate != Announcing
    ensures
      var after, cb := s.ops[i := p], s.ops[i].phase.cb;
      && (forall j | 0 <= j < |after| && after[j].gate == Announcing :: LoadingCallback(after[j], j) != cb)
      && (forall j | 0 <= j < |after| && after[j].phase.Delivering? :: after[j].phase.cb != cb)
  {
    assert OpMailOk(s.ops[i], i, s.outbox, s.offered);
    forall j | 0 <= j < |s.ops| && s.ops[j].phase.Delivering? ensures s.ops[j].phase.cb.sender == Task(j) {
      assert OpMailOk(s.ops[j], j, s.outbox, s.offered);
    }
  }

  lemma FinishMail(s: System, i: nat)
    requires ScopesOk(s.scopes, s.ops) && OutboxOk(s.scopes, s.ops, s.outbox, s.offered)
    requires CanTask(s, FinishSection(i))
    ensures var t := Finished(s, i); OutboxOk(t.scopes, t.ops, t.outbox, t.offered)
  {
    var o := s.ops[i];
    var core := s.scopes[o.scope].core;
    if !Commits(core, o.id) {
      SilentMove(s, i, o.(attempted := true, phase := Returned));
    } else {
      var c := Finish(core, o.id, o.ctxErr, o.phase.out);
      var cb := Callback(o.scope, c.revision, c.snapshot, Task(i));
      FreshPostKeeps(s, s.ops, o.scope, c, cb);
      BeginsDelivery(s.scopes[o.scope := Push(s.scopes[o.scope], c)], s.ops, s.outbox + {cb}, s.offered, i,
                     o.(attempted := true, phase := Delivering(cb)));
    }
  }

  /** An operation takes up a delivery that is already in the outbox. */
  lemma BeginsDelivery(scopes: seq<Cell>, ops: seq<Op>, outbox: set<Callback>, offered: set<Callback>, i: nat, p: Op)
    requires OutboxOk(scopes, ops, outbox, offered) && i < |ops|
    requires p.phase.Delivering? && p.phase.cb in outbox && p.phase.cb.sender == Task(i)
    requires ops[i].phase.Finishing? && p == ops[i].(attempted := true, phase := p.phase)
    ensures OutboxOk(scopes, ops[i := p], outbox, offered)
  {
    var after := ops[i := p];
    forall j | 0 <= j < |after| ensures OpMailOk(after[j], j, outbox, offered) {
      assert OpMailOk(ops[j], j, outbox, offered);
    }
  }

  lemma TaskMail(s: System, e: TaskEvent)
    requires ScopesOk(s.scopes, s.ops) && OutboxOk(s.scopes, s.ops, s.outbox, s.offered)
    requires CanTask(s, e)
    ensures var t := Tasked(s, e); OutboxOk(t.scopes, t.ops, t.outbox, t.offered)
  {
    if e.FinishSection? {
      FinishMail(s, e.i);
    } else if e.DispatchTerminal? || e.DispatchPanics? {
      DeliveredMail(s, e);
    } else {
      SilentMove(s, e.i, Tasked(s, e).ops[e.i]);
    }
  }

  lemma WorkMail(s: System, e: WorkerEvent)
    requires OutboxOk(s.scopes, s.ops, s.outbox, s.offered)
    requires QueueOk(s.ops, s.queue, s.worker, s.accepted, s.finished)
    requires CanWork(s, e)
    ensures var t := Worked(s, e); OutboxOk(t.scopes, t.ops, t.outbox, t.offered)
  {
    SilentKeeps(s.scopes, s.ops, s.scopes, Worked(s, e).ops, s.outbox, s.offered);
  }

  lemma ReplaceMail(s: System, k: nat, c: Core)
    requires OutboxOk(s.scopes, s.ops, s.outbox, s.offered) && k < |s.scopes|
    ensures var t := Replace(s, k, c); OutboxOk(t.scopes, t.ops, s.outbox, s.offered)
  {
    SilentKeeps(s.scopes, s.ops, Replace(s, k, c).scopes, Replace(s, k, c).ops, s.outbox, s.offered);
  }

  lemma CancelMail(s: System, k: nat)
    requires ScopesOk(s.scopes, s.ops) && OutboxOk(s.scopes, s.ops, s.outbox, s.offered) && Unlocked(s, k)
    ensures var t := Cancelling(s, k); OutboxOk(t.scopes, t.ops, t.outbox, s.offered)
  {
    var core := s.scopes[k].core;
    if Cancellable(core) {
      var c := Cancel(core);
      FreshPostKeeps(s, CancelCtx(s.ops, core.cancel), k, c, Callback(k, c.revision, c.snapshot, Caller));
    }
  }

  lemma ControlMail(s: System, e: ControlEvent)
    requires ScopesOk(s.scopes, s.ops) && OutboxOk(s.scopes, s.ops, s.outbox, s.offered)
    requires CanControl(s, e)
    ensures var t := Controlled(s, e); OutboxOk(t.scopes, t.ops, t.outbox, t.offered)
  {
    match e {
      case CancelScope(k) => CancelMail(s, k);
      case InvalidateScope(k) => ReplaceMail(s, k, Invalidate(s.scopes[k].core));
      case CloseScope(k) => ReplaceMail(s, k, Close(s.scopes[k].core));
      case CloserScope(k) => ReplaceMail(s, k, Close(s.scopes[k].core));
      case _ =>
    }
  }

  lemma UiMail(s: System, e: GuiEvent)
    requires ScopesOk(s.scopes, s.ops) && OutboxOk(s.scopes, s.ops, s.outbox, s.offered)
    requires CanUi(s, e)
    ensures var t := Shown(s, e); OutboxOk(t.scopes, t.ops, t.outbox, t.offered)
  {
    if e.Dispatch? {
      forall i | 0 <= i < |s.ops| && s.ops[i].phase.Delivering? ensures s.ops[i].phase.cb != e.cb {
        assert OpMailOk(s.ops[i], i, s.outbox, s.offered);
      }
      OfferKeeps(s.scopes, s.ops, s.outbox, s.offered, e.cb);
    }
  }

  // ----- what the observers receive -----

  lemma OfferGui(s: System, cb: Callback)
    requires GuiOk(s.offered, s.pending, s.gui, s.observed)
    requires s.outbox !! s.offered && cb in s.outbox && cb.scope < |s.scopes|
    ensures var t := Offer(s, cb); GuiOk(t.offered, t.pending, t.gui, t.observed)
  {
  }

  /** A callback whose revision is still current is later than anything its
      scope's observer has received. */
  lemma CurrentIsLater(s: System, cb: Callback)
    requires ScopesOk(s.scopes, s.ops) && OutboxOk(s.scopes, s.ops, s.outbox, s.offered)
    requires GuiOk(s.offered, s.pending, s.gui, s.observed)
    requires cb in s.offered && cb !in s.observed && cb.scope < |s.scopes|
    requires s.scopes[cb.scope].core.revision == cb.revision
    ensures Later(s.observed, cb)
  {
    forall a | 0 <= a < |s.observed| && s.observed[a].scope == cb.scope
      ensures s.observed[a].revision < cb.revision
    {
      assert CallbackOk(s.observed[a], s.scopes) && CellOk(s.scopes[cb.scope], cb.scope, s.ops);
      if s.observed[a].revision == cb.revision { assert SameKey(s.observed[a], cb); }
    }
  }

  lemma UiGui(s: System, e: GuiEvent)
    requires ScopesOk(s.scopes, s.ops) && OutboxOk(s.scopes, s.ops, s.outbox, s.offered)
    requires GuiOk(s.offered, s.pending, s.gui, s.observed) && CanUi(s, e)
    ensures var t := Shown(s, e); GuiOk(t.offered, t.pending, t.gui, t.observed)
  {
    match e {
      case Dispatch(cb) => OfferGui(s, cb);
      case GuiTake(cb) =>
      case GuiCheck =>
        if Shown(s, e).gui.Calling? { CurrentIsLater(s, s.gui.cb); }
      case GuiCall =>
    }
  }
}
