/** What every step of the system keeps true of one policy key: how versions
    follow one another, what the pass in progress knows, and what each status
    is backed by. */
module PolicyHistory {
  import opened Types
  import opened Conditions
  import opened Errors
  import opened Wire
  import opened ControlPlane
  import opened PolicyMachine
  import opened PolicyCell

  // ---- consecutive versions ---------------------------------------------

  predicate Born(n: nat, o: Object) {
    && o.uid == n && o.generation == 1 && !o.deleting && !Held(o.finalizers)
    && o.status == Status([], 0, ZeroConfirmed(o.spec))
  }

  // How one version of a life follows another.
  predicate Evolves(o: Object, q: Object, cause: Cause) {
    && q.uid == o.uid && KindOf(q.spec) == KindOf(o.spec)
    && (o.deleting ==> q.deleting)
    && (q.generation == o.generation ==> q.spec == o.spec)
    && (q.generation == o.generation || q.generation == o.generation + 1)
    && (Held(o.finalizers) && !Held(q.finalizers) ==> o.deleting && cause == FinalizerDropped)
    && (!cause.ConfirmedBy? && !cause.Explained? ==> q.status == o.status)
    && (cause.Explained? ==> q.status.observedGeneration == o.status.observedGeneration
                             && q.status.confirmed == o.status.confirmed && !ReadyTrue(q.status))
    && (cause.ConfirmedBy? ==> q.status.observedGeneration == q.generation == o.generation
                               && q.status.confirmed == cause.value && ReadyTrue(q.status))
  }

  // version n follows version n - 1
  predicate Follows(n: nat, prev: Option<Object>, v: Version) {
    match (prev, v.obj)
    case (None, None) => false
    case (None, Some(q)) => Born(n, q) && v.cause == Created
    case (Some(o), None) => Held(o.finalizers) ==> o.deleting && v.cause == FinalizerDropped
    case (Some(o), Some(q)) => Evolves(o, q, v.cause) && v.cause != Created && v.cause != NeverExisted
  }

  predicate Chain(vs: seq<Version>) {
    && vs != [] && vs[0] == Version(None, NeverExisted)
    && forall i :: 0 < i < |vs| ==> Follows(i, vs[i - 1].obj, vs[i])
  }

  // ---- statuses and what backs them -------------------------------------

  predicate ReadyTrue(s: Status) {
    Find(s.conditions, Ready).Some? && Find(s.conditions, Ready).value.status == StatusTrue
  }

  predicate Present(c: Cell, i: nat) { i < |c.versions| && c.versions[i].obj.Some? }

  // Some call sent exactly the spec that generation g of life uid had, and was
  // answered by a 200 that confirms it.
  predicate Backs(c: Cell, e: Event, uid: nat, g: nat) {
    && e.Answered? && Present(c, e.at)
    && var o := c.versions[e.at].obj.value;
       o.uid == uid && o.generation == g && e.wire == ToWire(o.spec) && Confirms(KindOf(o.spec), e.result)
  }

  predicate Backed(c: Cell, uid: nat, g: nat) {
    exists e :: e in c.log && Backs(c, e, uid, g)
  }

  // The value v is what such an answer confirmed of o, under the flow provider
  // that the pass it answered had read at its gate.
  predicate Earned(c: Cell, o: Object, v: Confirmed) {
    exists e :: e in c.log && Backs(c, e, o.uid, o.generation) && GateOpened(o.uid, e.gate) in c.log
                && ValueIs(o.spec, e.gate.provider, e.result, v)
  }

  predicate GateWasOpen(c: Cell, uid: nat) {
    exists e :: e in c.log && e.GateOpened? && e.uid == uid
  }

  predicate StatusOK(c: Cell, o: Object) {
    && o.generation > 0 && o.status.observedGeneration <= o.generation
    && (o.status.observedGeneration > 0 ==> Backed(c, o.uid, o.status.observedGeneration))
    && (ReadyTrue(o.status) ==>
          o.status.observedGeneration > 0
          && Find(o.status.conditions, Ready).value.observedGeneration == o.status.observedGeneration)
  }

  predicate VersionOK(c: Cell, i: nat)
    requires i < |c.versions|
  {
    var obj := c.versions[i].obj;
    obj.Some? ==>
      && StatusOK(c, obj.value) && (Held(obj.value.finalizers) ==> GateWasOpen(c, obj.value.uid))
      && (c.versions[i].cause.ConfirmedBy? ==> Earned(c, obj.value, c.versions[i].cause.value))
  }

  // ---- the pass and the request in flight -------------------------------

  predicate Snapshot(c: Cell, rv: nat, o: Object) { Present(c, rv) && c.versions[rv].obj == Some(o) }

  predicate PassOK(c: Cell) {
    match c.pass
    case Idle => true
    case Done(_) => true
    case AtGate(rv, cr) => Snapshot(c, rv, cr) && !cr.deleting
    case AtAdd(rv, cr, gate) =>
      && Present(c, rv)
      && var o := c.versions[rv].obj.value;
         && !o.deleting && !Held(o.finalizers) && cr == o.(finalizers := o.finalizers + [CREdges])
         && GateOpened(cr.uid, gate) in c.log
    case AtUpsert(rv, cr, gate) =>
      Snapshot(c, rv, cr) && !cr.deleting && Held(cr.finalizers) && GateOpened(cr.uid, gate) in c.log
    case AwaitUpsert(rv, cr, gate) =>
      && Snapshot(c, rv, cr) && !cr.deleting && Held(cr.finalizers) && GateOpened(cr.uid, gate) in c.log
      && (c.pending.Some? && c.pending.value.UpsertRequest? ==>
            c.pending.value.at == rv && c.pending.value.gate == gate)
    case AtClose(rv, cr) => Snapshot(c, rv, cr) && cr.deleting && Held(cr.finalizers) && rv == c.floor
    case AwaitClose(rv, cr) => Snapshot(c, rv, cr) && cr.deleting && Held(cr.finalizers) && rv == c.floor
    case AtRelease(rv, cr) =>
      && Present(c, rv) && rv == c.floor
      && var o := c.versions[rv].obj.value;
         o.deleting && Held(o.finalizers) && cr == o.(finalizers := Without(o.finalizers, CREdges))
    case AtStatus(rv, cr, purpose, _) =>
      && Present(c, rv)
      && var o := c.versions[rv].obj.value;
         && cr == o.(status := cr.status) && StatusOK(c, cr)
         && (match purpose
             case Confirming(v) => cr.status.observedGeneration == cr.generation && cr.status.confirmed == v
                                   && Earned(c, cr, v) && ReadyTrue(cr.status)
             case Explaining(_) => cr.status.observedGeneration == o.status.observedGeneration
                                   && cr.status.confirmed == o.status.confirmed && !ReadyTrue(cr.status))
  }

  predicate RequestOK(c: Cell) {
    c.pending.Some? && c.pending.value.UpsertRequest? ==>
      && Present(c, c.pending.value.at)
      && var o := c.versions[c.pending.value.at].obj.value;
         c.pending.value.wire == ToWire(o.spec) && GateOpened(o.uid, c.pending.value.gate) in c.log
  }

  predicate Inv(c: Cell) {
    && Chain(c.versions) && c.floor < |c.versions|
    && PassOK(c) && RequestOK(c)
    && forall i :: 0 <= i < |c.versions| ==> VersionOK(c, i)
  }

  lemma InvEmpty()
    ensures Inv(EMPTY)
  {}

  // ---- growth -----------------------------------------------------------

  predicate Grows(c: Cell, d: Cell) { c.versions <= d.versions && c.log <= d.log }

  lemma BackedGrows(c: Cell, d: Cell, uid: nat, g: nat)
    requires Grows(c, d) && Backed(c, uid, g)
    ensures Backed(d, uid, g)
  {
    var e :| e in c.log && Backs(c, e, uid, g);
    assert e in d.log && Backs(d, e, uid, g);
  }

  lemma EarnedGrows(c: Cell, d: Cell, o: Object, v: Confirmed)
    requires Grows(c, d) && Earned(c, o, v)
    ensures Earned(d, o, v)
  {
    var e :| e in c.log && Backs(c, e, o.uid, o.generation) && GateOpened(o.uid, e.gate) in c.log
             && ValueIs(o.spec, e.gate.provider, e.result, v);
    assert e in d.log && Backs(d, e, o.uid, o.generation) && GateOpened(o.uid, e.gate) in d.log;
  }

  lemma StatusGrows(c: Cell, d: Cell, o: Object)
    requires Grows(c, d) && StatusOK(c, o)
    ensures StatusOK(d, o)
  {
    if o.status.observedGeneration > 0 {
      BackedGrows(c, d, o.uid, o.status.observedGeneration);
    }
  }

  lemma VersionsGrow(c: Cell, d: Cell)
    requires Grows(c, d)
    requires forall i :: 0 <= i < |c.versions| ==> VersionOK(c, i)
    ensures forall i :: 0 <= i < |c.versions| ==> VersionOK(d, i)
  {
    forall i | 0 <= i < |c.versions| ensures VersionOK(d, i) {
      assert VersionOK(c, i);
      var obj := c.versions[i].obj;
      if obj.Some? {
        StatusGrows(c, d, obj.value);
        if Held(obj.value.finalizers) {
          var e :| e in c.log && e.GateOpened? && e.uid == obj.value.uid;
          assert e in d.log;
        }
        if c.versions[i].cause.ConfirmedBy? {
          EarnedGrows(c, d, obj.value, c.versions[i].cause.value);
        }
      }
    }
  }

  // A pass and a request stay good while the history and the log grow.
  lemma PassGrows(c: Cell, d: Cell)
    requires Grows(c, d) && PassOK(c) && RequestOK(c)
    requires d.pass == c.pass && d.floor == c.floor && (d.pending == c.pending || d.pending.None?)
    ensures PassOK(d) && RequestOK(d)
  {
    if c.pass.AtStatus? {
      StatusGrows(c, d, c.pass.cr);
      if c.pass.purpose.Confirming? {
        EarnedGrows(c, d, c.pass.cr, c.pass.purpose.value);
      }
    }
  }

  // A cell whose history grew by at most one good version, all else unchanged.
  lemma AppendKeeps(c: Cell, v: Version)
    requires Inv(c) && Follows(|c.versions|, Current(c), v)
    requires v.obj.Some? ==> StatusOK(c, v.obj.value)
    requires v.obj.Some? && Held(v.obj.value.finalizers) ==> GateWasOpen(c, v.obj.value.uid)
    requires v.obj.Some? && v.cause.ConfirmedBy? ==> Earned(c, v.obj.value, v.cause.value)
    ensures Inv(c.(versions := c.versions + [v]))
  {
    var d := c.(versions := c.versions + [v]);
    assert c.versions <= d.versions && c.log <= d.log;
    VersionsGrow(c, d);
    PassGrows(c, d);
    if v.obj.Some? {
      StatusGrows(c, d, v.obj.value);
      if v.cause.ConfirmedBy? {
        EarnedGrows(c, d, v.obj.value, v.cause.value);
      }
    }
  }

  lemma PutKeeps(c: Cell, obj: Option<Object>, cause: Cause)
    requires Inv(c)
    requires obj != Current(c) ==>
               && Follows(|c.versions|, Current(c), Version(obj, cause))
               && (obj.Some? ==> StatusOK(c, obj.value))
               && (obj.Some? && Held(obj.value.finalizers) ==> GateWasOpen(c, obj.value.uid))
               && (obj.Some? && cause.ConfirmedBy? ==> Earned(c, obj.value, cause.value))
    ensures Inv(c.(versions := Put(c.versions, obj, cause)))
    ensures Grows(c, c.(versions := Put(c.versions, obj, cause)))
  {
    if obj != Current(c) {
      AppendKeeps(c, Version(obj, cause));
    } else {
      assert c.(versions := c.versions) == c;
    }
  }

  // ---- the steps --------------------------------------------------------

  lemma NewbornIsOK(c: Cell, a: Step)
    ensures a.Create? ==> StatusOK(c, Object(|c.versions|, 1, false, a.foreign, a.spec,
                                             Status([], 0, ZeroConfirmed(a.spec))))
  {}

  // A user's change keeps the status, and the generation only grows.
  lemma EditedIsOK(c: Cell, o: Object, q: Object)
    requires StatusOK(c, o) && q.status == o.status && q.uid == o.uid && q.generation >= o.generation
    ensures StatusOK(c, q)
  {}

  lemma UserKeeps(x: Context, kind: Kind, c: Cell, a: Step)
    requires Inv(c) && Enabled(x, kind, c, a) && ByUser(a)
    ensures Inv(After(x, kind, c, a)) && Grows(c, After(x, kind, c, a))
  {
    hide PassOK, RequestOK, StatusOK, Backed, Earned, ToWire, Start, AfterGate, AfterUpsert, AfterClose, AfterWrite;
    assert VersionOK(c, |c.versions| - 1);
    NewbornIsOK(c, a);
    match a
    case Create(spec, foreign) =>
      PutKeeps(c, Some(Object(|c.versions|, 1, false, foreign, spec, Status([], 0, ZeroConfirmed(spec)))), Created);
    case Edit(spec, foreign) =>
      var o := Current(c).value;
      EditedIsOK(c, o, Updated(o, o.(spec := spec, finalizers := foreign)));
      PutKeeps(c, Settle(Updated(o, o.(spec := spec, finalizers := foreign))), Edited);
    case Delete =>
      var o := Current(c).value;
      if o.finalizers == [] {
        PutKeeps(c, None, DeletionMarked);
      } else if !o.deleting {
        EditedIsOK(c, o, o.(deleting := true, generation := o.generation + 1));
        PutKeeps(c, Some(o.(deleting := true, generation := o.generation + 1)), DeletionMarked);
      } else {
        PutKeeps(c, Some(o), DeletionMarked);
      }
  }

  // notReady leaves a status write that is as good as the copy it started from.
  lemma NotReadyIsOK(c: Cell, rv: nat, cr: Object, reason: Reason, message: Message, delay: nat, now: nat)
    requires Inv(c) && Snapshot(c, rv, cr)
    ensures PassOK(c.(pass := NotReadyPass(rv, cr, reason, message, delay, now)))
  {
    assert VersionOK(c, rv);
    FailureKeepsLastConfirmed(cr, reason, message, now);
    var d := c.(pass := NotReadyPass(rv, cr, reason, message, delay, now));
    StatusGrows(c, d, cr);
  }

  // Changing the pass alone.
  lemma PassKeeps(c: Cell, d: Cell)
    requires Inv(c) && PassOK(d)
    requires d.versions == c.versions && d.log == c.log && d.floor < |d.versions|
    requires d.pending == c.pending || d.pending.None?
    ensures Inv(d)
  {
    VersionsGrow(c, d);
  }

  lemma BeginKeeps(x: Context, kind: Kind, c: Cell, a: Step)
    requires Inv(c) && Enabled(x, kind, c, a) && (a.Begin? || a.BeginFailed?)
    ensures Inv(After(x, kind, c, a)) && Grows(c, After(x, kind, c, a))
  {
    PassKeeps(c, After(x, kind, c, a));
  }

  lemma GateKeeps(x: Context, kind: Kind, c: Cell, a: Step)
    requires Inv(c) && Enabled(x, kind, c, a) && a.Gate?
    ensures Inv(After(x, kind, c, a)) && Grows(c, After(x, kind, c, a))
  {
    var r := Read(x, a.source);
    var gate := CheckPauseGate(x.process.singleton, r);
    var d := After(x, kind, c, a);
    if gate.Shut? {
      NotReadyIsOK(c, c.pass.rv, c.pass.cr, gate.reason, gate.message, PAUSED_REQUEUE, a.now);
      PassKeeps(c, d);
    } else {
      assert GateOpened(c.pass.cr.uid, gate.opening) in d.log;
      VersionsGrow(c, d);
      PassGrows(c, d.(pass := c.pass));
    }
  }

  lemma UpsertReplyIsOK(c: Cell, r: Reply<ReconcileResult, Error>, now: nat)
    requires Inv(c) && c.pass.AwaitUpsert?
    requires r.Ok? ==> Answered(c.pass.rv, c.pass.gate, ToWire(c.pass.cr.spec), r.value) in c.log
    ensures PassOK(c.(pass := AfterUpsert(c.pass, r, now)))
  {
    var p := c.pass;
    var d := c.(pass := AfterUpsert(p, r, now));
    match r
    case Err(e) =>
      var plan := FailurePlan(KindOf(p.cr.spec), e);
      NotReadyIsOK(c, p.rv, p.cr, plan.0, CallFailed(e), plan.1, now);
    case Ok(res) =>
      var why := Inconsistent(KindOf(p.cr.spec), res);
      if why.Some? {
        NotReadyIsOK(c, p.rv, p.cr, WriteNotVerified, Unconfirmed(why.value), 0, now);
      } else {
        SuccessStampsGeneration(p.cr, p.gate.provider, res, now);
        ConsistentIffConfirms(KindOf(p.cr.spec), res);
        var e := Answered(p.rv, p.gate, ToWire(p.cr.spec), res);
        assert e in d.log && Backs(d, e, p.cr.uid, p.cr.generation) && GateOpened(p.cr.uid, p.gate) in d.log;
        ConfirmedValueIs(p.cr.spec, p.gate.provider, res, ConfirmedValue(p.cr.spec, p.gate.provider, res));
        assert Earned(d, d.pass.cr, ConfirmedValue(p.cr.spec, p.gate.provider, res));
        assert VersionOK(c, p.rv);
      }
  }

  lemma CloseReplyIsOK(c: Cell, r: Reply<CloseResult, Error>, now: nat)
    requires Inv(c) && c.pass.AwaitClose?
    ensures PassOK(c.(pass := AfterClose(c.pass, r, now)))
  {
    var p := c.pass;
    match r
    case Err(e) =>
      if !IsUnconfigured(e) {
        if IsPaused(e) {
          NotReadyIsOK(c, p.rv, p.cr, Paused, CallFailed(e), PAUSED_REQUEUE, now);
        } else {
          NotReadyIsOK(c, p.rv, p.cr, CloseFailed, CallFailed(e), 0, now);
        }
      }
    case Ok(res) =>
      if res.status != "ok" || |res.unverifiedEdgeKeys| > 0 {
        NotReadyIsOK(c, p.rv, p.cr, CloseFailed, CloseUnconfirmed(res.status, |res.unverifiedEdgeKeys|), 0, now);
      }
  }

  lemma SendKeeps(x: Context, kind: Kind, c: Cell, a: Step)
    requires Inv(c) && Enabled(x, kind, c, a) && a.Send?
    ensures Inv(After(x, kind, c, a)) && Grows(c, After(x, kind, c, a))
  {
    var p := c.pass;
    var d := After(x, kind, c, a);
    if x.process.NotConfigured? {
      var e := Unconfigured(x.process.missing);
      if p.AtUpsert? {
        var plan := FailurePlan(KindOf(p.cr.spec), e);
        NotReadyIsOK(c, p.rv, p.cr, plan.0, CallFailed(e), plan.1, a.now);
      }
      PassKeeps(c, d);
    } else {
      VersionsGrow(c, d);
    }
  }

  lemma TimeoutKeeps(x: Context, kind: Kind, c: Cell, a: Step)
    requires Inv(c) && Enabled(x, kind, c, a) && a.Timeout?
    ensures Inv(After(x, kind, c, a)) && Grows(c, After(x, kind, c, a))
  {
    if c.pass.AwaitUpsert? {
      UpsertReplyIsOK(c, Err(LOST), a.now);
    } else {
      CloseReplyIsOK(c, Err(LOST), a.now);
    }
    PassKeeps(c, After(x, kind, c, a));
  }

  lemma ServeKeeps(x: Context, kind: Kind, c: Cell, a: Step)
    requires Inv(c) && Enabled(x, kind, c, a) && (a.ServeUpsert? || a.ServeClose? || a.Drop?)
    ensures Inv(After(x, kind, c, a)) && Grows(c, After(x, kind, c, a))
  {
    hide Chain, UpsertAllowed, CloseAllowed, Inconsistent, FailurePlan, StatusOK, VersionOK, Earned, Settle,
      AfterGate, Start, AfterWrite, Updated;
    var d := After(x, kind, c, a);
    // the same cell, with the request served and the answer on record
    var served := d.(pass := c.pass);
    VersionsGrow(c, served);
    PassGrows(c, served);
    assert Inv(served);
    if a.ServeUpsert? && a.delivered {
      if a.upsert.Ok? {
        var q := c.pending.value;
        assert Answered(q.at, q.gate, q.wire, a.upsert.value) in served.log;
      }
      UpsertReplyIsOK(served, a.upsert, a.now);
    } else if a.ServeClose? && a.delivered {
      CloseReplyIsOK(served, a.close, a.now);
    }
    PassKeeps(served, d);
  }

  lemma WriteKeeps(c: Cell)
    requires Inv(c) && Fresh(c)
    ensures Inv(c.(versions := Write(c))) && Grows(c, c.(versions := Write(c)))
  {
    var stored := Current(c).value;
    assert VersionOK(c, |c.versions| - 1);
    match c.pass
    case AtAdd(_, cr, gate) =>
      assert CREdges in cr.finalizers;
      assert GateOpened(cr.uid, gate) in c.log;
      PutKeeps(c, Settle(Updated(stored, cr)), FinalizerAdded);
    case AtRelease(_, cr) =>
      PutKeeps(c, Settle(Updated(stored, cr)), FinalizerDropped);
    case AtStatus(_, cr, purpose, _) =>
      PutKeeps(c, Some(stored.(status := cr.status)),
               match purpose case Confirming(v) => ConfirmedBy(v) case Explaining(_) => Explained);
  }

  lemma StoreKeeps(x: Context, kind: Kind, c: Cell, a: Step)
    requires Inv(c) && Enabled(x, kind, c, a) && a.Store?
    ensures Inv(After(x, kind, c, a)) && Grows(c, After(x, kind, c, a))
  {
    var d := After(x, kind, c, a);
    var written := c.(versions := d.versions);
    if Fresh(c) && !a.chance.FailBefore? {
      WriteKeeps(c);
    } else {
      assert written == c;
    }
    if d.pass.AtUpsert? {
      var stored := Current(c).value;
      assert d.versions == c.versions + [Version(Some(Updated(stored, c.pass.cr)), FinalizerAdded)];
      assert CREdges in c.pass.cr.finalizers;
    }
    PassKeeps(written, d);
  }

  lemma StepKeeps(x: Context, kind: Kind, c: Cell, a: Step)
    requires Inv(c) && Enabled(x, kind, c, a)
    ensures Inv(After(x, kind, c, a)) && Grows(c, After(x, kind, c, a))
  {
    hide After, Enabled, Inv, Grows;
    match a
    case Begin(_) => BeginKeeps(x, kind, c, a);
    case BeginFailed(_) => BeginKeeps(x, kind, c, a);
    case Gate(_, _) => GateKeeps(x, kind, c, a);
    case Store(_) => StoreKeeps(x, kind, c, a);
    case Send(_) => SendKeeps(x, kind, c, a);
    case Timeout(_) => TimeoutKeeps(x, kind, c, a);
    case ServeUpsert(_, _, _, _) => ServeKeeps(x, kind, c, a);
    case ServeClose(_, _, _, _) => ServeKeeps(x, kind, c, a);
    case Drop => ServeKeeps(x, kind, c, a);
    case Create(_, _) => UserKeeps(x, kind, c, a);
    case Edit(_, _) => UserKeeps(x, kind, c, a);
    case Delete => UserKeeps(x, kind, c, a);
  }

  lemma CrashKeeps(c: Cell)
    requires Inv(c)
    ensures Inv(Crash(c)) && Grows(c, Crash(c))
  {
    PassKeeps(c, Crash(c));
  }

  // ---- what the chain says about one object -----------------------------

  // Versions i and j are of the same life of the object.
  predicate SameLife(c: Cell, i: nat, j: nat) {
    i <= j && Present(c, i) && Present(c, j) && c.versions[i].obj.value.uid == c.versions[j].obj.value.uid
  }

  lemma {:induction false} UidBound(c: Cell, i: nat)
    requires Chain(c.versions) && Present(c, i)
    ensures c.versions[i].obj.value.uid <= i
  {
    assert i > 0 && Follows(i, c.versions[i - 1].obj, c.versions[i]);
    if c.versions[i - 1].obj.Some? {
      UidBound(c, i - 1);
    }
  }

  // A name that is deleted and created again gets a new uid, so the versions of
  // one life are consecutive.
  lemma LifeIsContiguous(c: Cell, i: nat, j: nat)
    requires Chain(c.versions) && SameLife(c, i, j) && i < j
    ensures SameLife(c, i, j - 1)
  {
    UidBound(c, i);
    assert Follows(j, c.versions[j - 1].obj, c.versions[j]);
  }

  // Ready is backed by history. Along one life the generation and
  // status.observedGeneration never go back, a generation names one spec, and
  // deletion is final.
  lemma {:induction false} LifeOnlyAdvances(c: Cell, i: nat, j: nat)
    requires Inv(c) && SameLife(c, i, j)
    ensures var o, q := c.versions[i].obj.value, c.versions[j].obj.value;
            && o.generation <= q.generation
            && o.status.observedGeneration <= q.status.observedGeneration <= q.generation
            && (o.generation == q.generation ==> o.spec == q.spec)
            && (o.deleting ==> q.deleting)
    decreases j
  {
    assert VersionOK(c, j);
    if i < j {
      LifeIsContiguous(c, i, j);
      LifeOnlyAdvances(c, i, j - 1);
      assert VersionOK(c, j - 1);
      assert Follows(j, c.versions[j - 1].obj, c.versions[j]);
    }
  }

  // A nonzero observedGeneration g was earned: some call sent the wire form of
  // the spec that this life had in every version of generation g, and a 200
  // confirmed it. Ready=True names that same generation.
  lemma ObservedGenerationIsEarned(c: Cell, i: nat, m: nat)
    requires Inv(c) && SameLife(c, m, i)
    requires c.versions[m].obj.value.generation == c.versions[i].obj.value.status.observedGeneration
    ensures exists e :: e in c.log && e.Answered? && e.wire == ToWire(c.versions[m].obj.value.spec)
                          && Confirms(KindOf(c.versions[m].obj.value.spec), e.result)
  {
    assert VersionOK(c, i) && VersionOK(c, m);
    var o := c.versions[i].obj.value;
    var e :| e in c.log && Backs(c, e, o.uid, o.status.observedGeneration);
    if e.at <= m {
      LifeOnlyAdvances(c, e.at, m);
    } else {
      LifeOnlyAdvances(c, m, e.at);
    }
  }

  lemma ReadyNamesItsGeneration(c: Cell, i: nat)
    requires Inv(c) && Present(c, i) && ReadyTrue(c.versions[i].obj.value.status)
    ensures var s := c.versions[i].obj.value.status;
            && Find(s.conditions, Ready).value.observedGeneration == s.observedGeneration
            && s.observedGeneration > 0 && Backed(c, c.versions[i].obj.value.uid, s.observedGeneration)
  {
    assert VersionOK(c, i);
  }

  // The version whose write last stored a confirmed success, going back from i to
  // the creation of the object.
  function LastConfirmed(vs: seq<Version>, i: nat): Option<nat>
    requires i < |vs|
  {
    if vs[i].cause.ConfirmedBy? then Some(i)
    else if vs[i].cause.Created? || i == 0 then None
    else LastConfirmed(vs, i - 1)
  }

  // The status value is what that success confirmed, from an answer to a call
  // for that generation's spec; zero if there was none. No other write touches it.
  lemma {:induction false} ConfirmedValueIsTheLast(c: Cell, i: nat)
    requires Inv(c) && Present(c, i)
    ensures var o := c.versions[i].obj.value;
            match LastConfirmed(c.versions, i)
            case Some(j) => SameLife(c, j, i) && c.versions[j].cause == ConfirmedBy(o.status.confirmed)
                            && Earned(c, c.versions[j].obj.value, o.status.confirmed)
            case None => o.status.confirmed == if o.spec.SegmentationSpec? then ResolvedFlowProvider("")
                                               else CorrelatedEvidenceCount(0)
  {
    assert VersionOK(c, i);
    assert i > 0 && Follows(i, c.versions[i - 1].obj, c.versions[i]);
    if !c.versions[i].cause.ConfirmedBy? && !c.versions[i].cause.Created? {
      ConfirmedValueIsTheLast(c, i - 1);
    }
  }

  // In the fields of the spec, the gate and the answer: the provider is the policy's
  // own choice, else the cluster's as the answered pass read it; the evidence is the
  // edges that landed, which are as many as the workloads that matched.
  lemma EarnedValueIs(c: Cell, o: Object, v: Confirmed)
    requires Earned(c, o, v)
    ensures exists e :: e in c.log && e.Answered? && GateOpened(o.uid, e.gate) in c.log
                        && e.result.status == "ok"
                        && (o.spec.SegmentationSpec? ==>
                              v == ResolvedFlowProvider(if o.spec.providerRef != "" then o.spec.providerRef
                                                        else e.gate.provider))
                        && (o.spec.RuntimeSpec? ==>
                              v == CorrelatedEvidenceCount(e.result.edgesUpserted)
                              && e.result.edgesUpserted == e.result.matchedWorkloads)
  {
    var e :| e in c.log && Backs(c, e, o.uid, o.generation) && GateOpened(o.uid, e.gate) in c.log
             && ValueIs(o.spec, e.gate.provider, e.result, v);
    assert Confirms(KindOf(c.versions[e.at].obj.value.spec), e.result);
  }

  // A version that no success wrote has Ready=True only as it found it.
  predicate ReadyIsInherited(c: Cell, i: nat) {
    Present(c, i) && ReadyTrue(c.versions[i].obj.value.status) ==>
      i > 0 && Present(c, i - 1) && c.versions[i].obj.value.status == c.versions[i - 1].obj.value.status
  }

  lemma OnlySuccessMakesReady(c: Cell, i: nat)
    requires Chain(c.versions) && i < |c.versions| && !c.versions[i].cause.ConfirmedBy?
    ensures ReadyIsInherited(c, i)
  {
    assert i > 0 ==> Follows(i, c.versions[i - 1].obj, c.versions[i]);
  }

  // An object of a life no pass of which read an open gate carries no finalizer
  // of ours, no reconcile request for it is in flight, and with no foreign
  // finalizer a delete removes it at once.
  lemma UngatedIsDeletable(x: Context, kind: Kind, c: Cell)
    requires Inv(c) && Current(c).Some? && !GateWasOpen(c, Current(c).value.uid)
    ensures !Held(Current(c).value.finalizers)
    ensures c.pending.Some? && c.pending.value.UpsertRequest? ==>
              c.versions[c.pending.value.at].obj.value.uid != Current(c).value.uid
    ensures Current(c).value.finalizers == [] ==> Current(After(x, kind, c, Delete)).None?
  {
    assert VersionOK(c, |c.versions| - 1);
    if c.pending.Some? && c.pending.value.UpsertRequest? {
      var o := c.versions[c.pending.value.at].obj.value;
      assert GateOpened(o.uid, c.pending.value.gate) in c.log;
    }
  }
}
