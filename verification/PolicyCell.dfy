/** Everything about one policy key: the object's history in the API server, how
    far the informer cache is known to have come, the pass in progress, the
    request in flight, and the graph edges tracked for the key. */
module PolicyCell {
  import opened Types
  import Errors
  import opened Wire
  import opened Startup
  import opened ControlPlane
  import opened PolicyMachine

  // Why a version was written.
  datatype Cause =
    | NeverExisted | Created | Edited | DeletionMarked
    | FinalizerAdded | FinalizerDropped | Explained | ConfirmedBy(value: Confirmed)

  datatype Version = Version(obj: Option<Object>, cause: Cause)

  // A request that has left the operator and not yet been served.
  datatype Request =
    | UpsertRequest(target: Target, at: nat, gate: Opening, wire: WireSpec)
    | CloseRequest(target: Target)

  datatype Event =
    | GateOpened(uid: nat, gate: Opening)
    | Answered(at: nat, gate: Opening, wire: WireSpec, result: ReconcileResult)

  // versions[rv] is the object at resourceVersion rv; edges are by target.
  datatype Cell = Cell(
    versions: seq<Version>, floor: nat, pass: Pass, pending: Option<Request>,
    edges: map<Target, set<string>>, log: seq<Event>)

  const EMPTY := Cell([Version(None, NeverExisted)], 0, Idle, None, map[], [])

  // What the rest of the system looks like from the key: the versions of the
  // PlatformConfig its process answers to, that process, and the control planes.
  datatype Context = Context(gates: seq<ConfigVersion>, process: Process, servers: Servers)

  function Last(c: Cell): int { |c.versions| - 1 }

  function Current(c: Cell): Option<Object> {
    if c.versions == [] then None else c.versions[|c.versions| - 1].obj
  }

  function Edges(c: Cell, target: Target): set<string> {
    if target in c.edges then c.edges[target] else {}
  }

  // ---- the API server ---------------------------------------------------

  // A write that changes nothing does not make a new version.
  function Put(vs: seq<Version>, obj: Option<Object>, cause: Cause): seq<Version> {
    if vs != [] && vs[|vs| - 1].obj == obj then vs else vs + [Version(obj, cause)]
  }

  // A deleting object whose last finalizer is gone is removed.
  function Settle(o: Object): Option<Object> {
    if o.deleting && o.finalizers == [] then None else Some(o)
  }

  // Update replaces metadata and spec, not status; a new spec is a new generation.
  function Updated(stored: Object, cr: Object): Object {
    stored.(finalizers := cr.finalizers, spec := cr.spec,
            generation := if cr.spec == stored.spec then stored.generation else stored.generation + 1)
  }

  // Deliver: the server answers. FailBefore: it never got the write. LoseReply:
  // it applied the write but the operator sees an error.
  datatype Chance = Deliver | FailBefore | LoseReply

  predicate Writing(p: Pass) { p.AtAdd? || p.AtRelease? || p.AtStatus? }

  // Optimistic concurrency: the write applies to the version it was read at.
  predicate Fresh(c: Cell) {
    Writing(c.pass) && c.versions != [] && c.pass.rv == Last(c) && Current(c).Some?
  }

  function Write(c: Cell): seq<Version>
    requires Fresh(c)
  {
    var stored := Current(c).value;
    match c.pass
    case AtAdd(_, cr, _) => Put(c.versions, Settle(Updated(stored, cr)), FinalizerAdded)
    case AtRelease(_, cr) => Put(c.versions, Settle(Updated(stored, cr)), FinalizerDropped)
    case AtStatus(_, cr, purpose, _) =>
      Put(c.versions, Some(stored.(status := cr.status)),
          match purpose case Confirming(v) => ConfirmedBy(v) case Explaining(_) => Explained)
  }

  function WriteAnswer(c: Cell, chance: Chance): WriteReply
    requires Writing(c.pass)
  {
    if chance.Deliver? && Fresh(c) then
      Accepted(|Write(c)| - 1, if c.pass.AtStatus? then Current(c).value.(status := c.pass.cr.status)
                               else Updated(Current(c).value, c.pass.cr))
    else if chance.Deliver? then Refused(Conflict)
    else Refused(WriteFailed("no answer"))
  }

  function AfterWrite(p: Pass, w: WriteReply): Pass
    requires Writing(p)
  {
    if p.AtAdd? then AfterAdd(p, w) else if p.AtRelease? then AfterRelease(p, w) else AfterStatus(p, w)
  }

  // ---- the steps --------------------------------------------------------

  datatype GateSource = FromCache(version: nat) | ReadFailed(text: string)

  datatype Step =
    // of the pass
    | Begin(read: nat)
    | BeginFailed(text: string)
    | Gate(source: GateSource, now: nat)
    | Store(chance: Chance)
    | Send(now: nat)
    | Timeout(now: nat)
    // of the control plane; a reply that is not delivered is lost
    | ServeUpsert(upsert: Reply<ReconcileResult, Error>, after: set<string>, delivered: bool, now: nat)
    | ServeClose(close: Reply<CloseResult, Error>, after: set<string>, delivered: bool, now: nat)
    | Drop
    // of users
    | Create(spec: PolicySpec, foreign: seq<Finalizer>)
    | Edit(spec: PolicySpec, foreign: seq<Finalizer>)
    | Delete

  predicate ByUser(a: Step) { a.Create? || a.Edit? || a.Delete? }

  function Read(x: Context, s: GateSource): GateRead
    requires s.FromCache? ==> s.version < |x.gates|
  {
    match s
    case ReadFailed(text) => Unreadable(text)
    case FromCache(v) =>
      match x.gates[v].obj
      case None => Missing
      case Some(config) => Seen(v, config.paused, config.flowProvider)
  }

  predicate Enabled(x: Context, kind: Kind, c: Cell, a: Step) {
    match a
    // The cache never goes back behind a version already read.
    case Begin(read) => (c.pass.Idle? || c.pass.Done?) && c.floor <= read < |c.versions|
    case BeginFailed(_) => c.pass.Idle? || c.pass.Done?
    case Gate(source, _) => c.pass.AtGate? && (source.FromCache? ==> source.version < |x.gates|)
    case Store(_) => Writing(c.pass)
    // A lost request has taken effect, or never will, by the next call.
    case Send(_) => (c.pass.AtUpsert? || c.pass.AtClose?) && (x.process.Configured? ==> c.pending.None?)
    case Timeout(_) => c.pass.AwaitUpsert? || c.pass.AwaitClose?
    case ServeUpsert(r, after, delivered, _) =>
      && c.pending.Some? && c.pending.value.UpsertRequest?
      && UpsertAllowed(FlagAt(x.servers, c.pending.value.target.backend), Edges(c, c.pending.value.target), r, after)
      && (delivered ==> c.pass.AwaitUpsert?)
    case ServeClose(r, after, delivered, _) =>
      && c.pending.Some? && c.pending.value.CloseRequest?
      && CloseAllowed(FlagAt(x.servers, c.pending.value.target.backend), Edges(c, c.pending.value.target), r, after)
      && (delivered ==> c.pass.AwaitClose?)
    case Drop => c.pending.Some?
    // Users do not write the operator's finalizer, nor status.
    case Create(spec, foreign) => Current(c).None? && KindOf(spec) == kind && !Held(foreign)
    case Edit(spec, foreign) =>
      && Current(c).Some? && KindOf(spec) == KindOf(Current(c).value.spec)
      && (Held(foreign) <==> Held(Current(c).value.finalizers))
    case Delete => Current(c).Some?
  }

  function AfterSend(x: Context, c: Cell, now: nat): Cell
    requires c.pass.AtUpsert? || c.pass.AtClose?
  {
    var p := c.pass;
    match x.process
    case NotConfigured(missing, _) =>
      var e := Unconfigured(missing);
      c.(pass := if p.AtUpsert? then AfterUpsert(AwaitUpsert(p.rv, p.cr, p.gate), Err(e), now)
                 else AfterClose(AwaitClose(p.rv, p.cr), Err(e), now))
    case Configured(target, _) =>
      if p.AtUpsert?
      then c.(pass := AwaitUpsert(p.rv, p.cr, p.gate),
              pending := Some(UpsertRequest(target, p.rv, p.gate, ToWire(p.cr.spec))))
      else c.(pass := AwaitClose(p.rv, p.cr), pending := Some(CloseRequest(target)))
  }

  function After(x: Context, kind: Kind, c: Cell, a: Step): Cell
    requires Enabled(x, kind, c, a)
  {
    match a
    case Begin(read) =>
      var r := match c.versions[read].obj case None => NotFound case Some(o) => Found(read, o);
      c.(floor := read, pass := Start(r))
    case BeginFailed(text) => c.(pass := Start(GetError(text)))
    case Gate(source, now) =>
      var r := Read(x, source);
      c.(pass := AfterGate(c.pass, x.process.singleton, r, now),
         log := if r.Seen? && !r.paused
                then c.log + [GateOpened(c.pass.cr.uid, Opening(x.process.singleton, r.version, r.flowProvider))]
                else c.log)
    case Store(chance) =>
      c.(versions := if Fresh(c) && !chance.FailBefore? then Write(c) else c.versions,
         pass := AfterWrite(c.pass, WriteAnswer(c, chance)))
    case Send(now) => AfterSend(x, c, now)
    case Timeout(now) =>
      c.(pass := if c.pass.AwaitUpsert? then AfterUpsert(c.pass, Err(LOST), now)
                 else AfterClose(c.pass, Err(LOST), now))
    case ServeUpsert(r, after, delivered, now) =>
      var q := c.pending.value;
      c.(edges := c.edges[q.target := after], pending := None,
         pass := if delivered then AfterUpsert(c.pass, r, now) else c.pass,
         log := if delivered && r.Ok? then c.log + [Answered(q.at, q.gate, q.wire, r.value)] else c.log)
    case ServeClose(r, after, delivered, now) =>
      c.(edges := c.edges[c.pending.value.target := after], pending := None,
         pass := if delivered then AfterClose(c.pass, r, now) else c.pass)
    case Drop => c.(pending := None)
    case Create(spec, foreign) =>
      c.(versions := Put(c.versions, Some(Object(|c.versions|, 1, false, foreign, spec,
                                                 Status([], 0, ZeroConfirmed(spec)))), Created))
    case Edit(spec, foreign) =>
      var o := Current(c).value;
      c.(versions := Put(c.versions, Settle(Updated(o, o.(spec := spec, finalizers := foreign))), Edited))
    case Delete =>
      var o := Current(c).value;
      c.(versions := Put(c.versions,
                         if o.finalizers == [] then None
                         else if o.deleting then Some(o)
                         else Some(o.(deleting := true, generation := o.generation + 1)), DeletionMarked))
  }

  // The process stops between any two steps; what it sent stays in flight.
  function Crash(c: Cell): Cell { c.(pass := Idle) }

  // What the reason BackendUnreachable does not say: the API may have served the
  // call, with edges to show for it, when its answer is lost.
  lemma ServedAndUnreachable(x: Context, kind: Kind, c: Cell, r: ReconcileResult, edges: set<string>, now: nat)
    requires c.pass.AwaitUpsert? && c.pending.Some? && c.pending.value.UpsertRequest?
    requires !FlagAt(x.servers, c.pending.value.target.backend)
    ensures Enabled(x, kind, c, ServeUpsert(Ok(r), edges, false, now))
    ensures var served := After(x, kind, c, ServeUpsert(Ok(r), edges, false, now));
            && Edges(served, c.pending.value.target) == edges
            && Enabled(x, kind, served, Timeout(now))
            && var d := After(x, kind, served, Timeout(now));
               d.pass.AtStatus? && d.pass.purpose == Explaining(BackendUnreachable)
  {
    assert Errors.FailurePlan(KindOf(c.pass.cr.spec), LOST).0 == BackendUnreachable;
  }

  // ---- runs of one key --------------------------------------------------

  // A step, and what the rest of the system looked like when it was taken.
  datatype Move = Move(x: Context, step: Step)

  predicate MovesValid(kind: Kind, c: Cell, moves: seq<Move>)
    decreases |moves|
  {
    moves == [] || (Enabled(moves[0].x, kind, c, moves[0].step)
                    && MovesValid(kind, After(moves[0].x, kind, c, moves[0].step), moves[1..]))
  }

  function MovesAfter(kind: Kind, c: Cell, moves: seq<Move>): Cell
    requires MovesValid(kind, c, moves)
    decreases |moves|
  {
    if moves == [] then c else MovesAfter(kind, After(moves[0].x, kind, c, moves[0].step), moves[1..])
  }

  // One more step at the end of a run.
  lemma {:induction false} LastMove(kind: Kind, c: Cell, moves: seq<Move>, d: Cell, m: Move)
    requires MovesValid(kind, c, moves) && MovesAfter(kind, c, moves) == d && Enabled(m.x, kind, d, m.step)
    ensures MovesValid(kind, c, moves + [m])
    ensures MovesAfter(kind, c, moves + [m]) == After(m.x, kind, d, m.step)
    decreases |moves|
  {
    hide Enabled, After;
    if moves == [] {
      var e := After(m.x, kind, d, m.step);
      assert moves + [m] == [m] && [m][1..] == [];
      assert MovesValid(kind, e, []) && MovesAfter(kind, e, []) == e;
    } else {
      LastMove(kind, After(moves[0].x, kind, c, moves[0].step), moves[1..], d, m);
      assert (moves + [m])[1..] == moves[1..] + [m];
    }
  }
}
