/** The kill switch goes where its object says: every schedule of the singleton's
    passes that keeps cooperating ends with the flag at the current spec.paused,
    and it stays there. */
module SwitchFollows {
  import opened Types
  import opened Startup
  import opened ControlPlane
  import opened System
  import opened ConfigCell
  import P = PolicyCell

  // The flag and everything that may still move it say what the current spec says:
  // the versions the cache may serve, the copy in hand, the push in flight.
  predicate Agrees(c: Cell, b: string, flag: bool) {
    && c.floor < |c.versions| && Current(c).Some?
    && var v := Current(c).value.paused;
       && flag == v
       && (forall i :: c.floor <= i < |c.versions| ==> c.versions[i].obj.Some? ==> c.versions[i].obj.value.paused == v)
       && (c.pass.AtPush? || c.pass.AwaitPush? ==> c.pass.cr.paused == v)
       && (c.pending.Some? && c.pending.value.target.backend == b ==> c.pending.value.wanted == v)
  }

  // The object governs the process, which is configured for b.
  predicate Rules(p: Process, b: string, n: string, c: Cell) {
    && Inv(p, n, c) && Current(c).Some?
    && p.Configured? && p.target.backend == b && Governs(p.singleton, n)
  }

  // The steps of a cooperating world: the cache catches up or gains, writes and
  // polls are answered, and a waiting pass has its push applied and read back.
  predicate Helps(c: Cell, a: Step) {
    match a
    case Begin(read, _) => read > c.floor || read == |c.versions| - 1
    case Send(_) => true
    case Timeout(_) => c.pending.None?
    case Health(_, _) => true
    case Store(chance) => chance.Deliver?
    case ServePush(applied, r, delivered, _) =>
      delivered == c.pass.AwaitPush?
      && (delivered ==> applied && c.pending.Some? && r == Ok(c.pending.value.wanted))
    case Drop => !c.pass.AwaitPush?
    case _ => false
  }

  // What the step makes of the flag at b.
  function FlagNext(c: Cell, b: string, flag: bool, a: Step): bool {
    if a.ServePush? && a.applied && c.pending.Some? && c.pending.value.target.backend == b then c.pending.value.wanted
    else flag
  }

  // ---- the ranking ------------------------------------------------------

  const ROUND := 10

  function Lag(c: Cell): nat
    requires c.floor < |c.versions|
  {
    |c.versions| - 1 - c.floor
  }

  predicate OnCurrent(c: Cell, rv: nat) { rv == |c.versions| - 1 }

  function Phase(c: Cell): nat {
    match c.pass
    case Idle => 3
    case Done(_) => 3
    case AtPush(rv, _) => if OnCurrent(c, rv) then 2 else 7
    case AwaitPush(rv, _) => if !OnCurrent(c, rv) then 6 else if c.pending.Some? then 1 else ROUND + 6
    case AtHealth(rv, _) => if OnCurrent(c, rv) then ROUND + 5 else 5
    case AtStatus(rv, _, _, _) => if OnCurrent(c, rv) then ROUND + 4 else 4
  }

  function Rank(c: Cell): nat
    requires c.floor < |c.versions|
  {
    2 * (ROUND * Lag(c) + Phase(c)) + (if c.pending.Some? then 1 else 0)
  }

  // ---- one step ---------------------------------------------------------

  lemma SpecStays(p: Process, servers: Servers, n: string, c: Cell, a: Step)
    requires c.versions != [] && Current(c).Some? && Enabled(p, servers, c, a) && !ByUser(a)
    ensures var d := After(p, servers, n, c, a);
            && c.versions <= d.versions && |d.versions| <= |c.versions| + 1
            && Current(d).Some? && Current(d).value.paused == Current(c).value.paused
            && (a.Store? || d.versions == c.versions)
  {
    hide AfterPush, AfterHealth, Start, FlagAt, AfterStatus;
  }

  lemma AgreementHolds(p: Process, servers: Servers, b: string, n: string, c: Cell, flag: bool, a: Step)
    requires Rules(p, b, n, c) && Enabled(p, servers, c, a) && !ByUser(a) && Agrees(c, b, flag)
    ensures Agrees(After(p, servers, n, c, a), b, FlagNext(c, b, flag, a))
  {
    hide Inv, FlagAt, Stamp, HealthStatus;
    SpecStays(p, servers, n, c, a);
  }

  lemma BeginDescends(p: Process, servers: Servers, b: string, n: string, c: Cell, a: Step)
    requires Rules(p, b, n, c) && Enabled(p, servers, c, a) && Helps(c, a) && a.Begin?
    ensures Rank(After(p, servers, n, c, a)) < Rank(c)
  {
    assert a.read == |c.versions| - 1 ==> c.versions[a.read].obj == Current(c);
  }

  lemma PushDescends(p: Process, servers: Servers, b: string, n: string, c: Cell, a: Step)
    requires Rules(p, b, n, c) && Enabled(p, servers, c, a) && Helps(c, a)
    requires a.Send? || a.Timeout? || a.Health? || a.Drop? || (a.ServePush? && !a.delivered)
    ensures c.floor < |c.versions| && Rank(After(p, servers, n, c, a)) < Rank(c)
  {
    hide Chain, VersionOK, StatusOK, Reported, FlagAt, Stamp, HealthStatus;
  }

  // The delivered push over the current version is where they come to agree.
  lemma ConfirmationAgrees(p: Process, servers: Servers, b: string, n: string, c: Cell, flag: bool, a: Step)
    requires Rules(p, b, n, c) && Enabled(p, servers, c, a) && Helps(c, a) && a.ServePush? && a.delivered
    ensures var d := After(p, servers, n, c, a);
            Agrees(d, b, FlagNext(c, b, flag, a)) || Rank(d) < Rank(c)
  {
    hide Chain, VersionOK, StatusOK, Reported, FlagAt, Stamp, HealthStatus;
  }

  lemma StoreDescends(p: Process, servers: Servers, b: string, n: string, c: Cell, a: Step)
    requires Rules(p, b, n, c) && Enabled(p, servers, c, a) && Helps(c, a) && a.Store?
    ensures c.floor < |After(p, servers, n, c, a).versions| && c.floor < |c.versions|
    ensures Rank(After(p, servers, n, c, a)) < Rank(c)
  {
    hide Chain, VersionOK, StatusOK, Reported, FlagAt, Stamp, HealthStatus;
    SpecStays(p, servers, n, c, a);
  }

  lemma StepFollows(p: Process, servers: Servers, b: string, n: string, c: Cell, flag: bool, a: Step)
    requires Rules(p, b, n, c) && Enabled(p, servers, c, a) && Helps(c, a)
    ensures var d := After(p, servers, n, c, a);
            && Rules(p, b, n, d) && Current(d).value.paused == Current(c).value.paused
            && (Agrees(d, b, FlagNext(c, b, flag, a)) || (!Agrees(c, b, flag) && Rank(d) < Rank(c)))
  {
    hide After, Enabled, Agrees, Rank, Inv;
    StepKeeps(p, servers, n, c, a);
    InvBounds(p, n, c);
    SpecStays(p, servers, n, c, a);
    if Agrees(c, b, flag) {
      AgreementHolds(p, servers, b, n, c, flag, a);
    } else if a.Begin? {
      BeginDescends(p, servers, b, n, c, a);
    } else if a.Store? {
      StoreDescends(p, servers, b, n, c, a);
    } else if a.ServePush? && a.delivered {
      ConfirmationAgrees(p, servers, b, n, c, flag, a);
    } else {
      PushDescends(p, servers, b, n, c, a);
    }
  }

  lemma InvBounds(p: Process, n: string, c: Cell)
    requires Inv(p, n, c)
    ensures c.versions != [] && c.floor < |c.versions|
  {}

  // There is always such a step: setting the flag is never gated by it.
  lemma SomeStepHelps(p: Process, servers: Servers, b: string, n: string, c: Cell)
    requires Rules(p, b, n, c)
    ensures exists a :: Enabled(p, servers, c, a) && Helps(c, a)
  {
    hide FlagAt;
    var a := match c.pass
             case Idle => Begin(|c.versions| - 1, 0)
             case Done(_) => Begin(|c.versions| - 1, 0)
             case AtPush(_, _) => if c.pending.Some? then Drop else Send(0)
             case AwaitPush(_, cr) => if c.pending.Some? then ServePush(true, Ok(cr.paused), true, 0) else Timeout(0)
             case AtHealth(_, _) => Health(Ok([]), 0)
             case AtStatus(_, _, _, _) => Store(Deliver);
    assert Enabled(p, servers, c, a) && Helps(c, a);
  }

  // ---- whole schedules --------------------------------------------------

  // Any steps of policies, and cooperating steps of the object.
  predicate Cooperate(s: State, n: string, acts: seq<Action>)
    decreases |acts|
  {
    acts == [] ||
    (CanDo(s, acts[0])
     && (acts[0].OnPolicy? || (acts[0].OnConfig? && acts[0].name == n && Helps(ConfigOf(s, n), acts[0].cstep)))
     && Cooperate(Do(s, acts[0]), n, acts[1..]))
  }

  // How many steps are the object's.
  function Steps(acts: seq<Action>): nat {
    if acts == [] then 0 else (if acts[0].OnConfig? then 1 else 0) + Steps(acts[1..])
  }

  ghost predicate Following(s: State, b: string, n: string) {
    SystemInv(s) && Rules(Running(s), b, n, ConfigOf(s, n))
  }

  lemma ActionFollows(s: State, b: string, n: string, a: Action)
    requires Following(s, b, n) && CanDo(s, a)
    requires a.OnPolicy? || (a.OnConfig? && a.name == n && Helps(ConfigOf(s, n), a.cstep))
    ensures var t := Do(s, a);
            var c, d := ConfigOf(s, n), ConfigOf(t, n);
            && Following(t, b, n) && Current(d).value.paused == Current(c).value.paused
            && c.floor < |c.versions| && d.floor < |d.versions|
            && (a.OnPolicy? ==> d == c && Flag(t, b) == Flag(s, b))
            && (a.OnConfig? ==> Agrees(d, b, Flag(t, b)) || (!Agrees(c, b, Flag(s, b)) && Rank(d) < Rank(c)))
  {
    hide P.After, P.Enabled, After, Enabled, Inv, Agrees, Rank, FlagAt, WriteFlag;
    var t := Do(s, a);
    var c := ConfigOf(s, n);
    ActionKeeps(s, a);
    InvBounds(Running(s), n, c);
    InvBounds(Running(t), n, ConfigOf(t, n));
    if a.OnConfig? {
      StepFollows(Running(s), s.servers, b, n, c, Flag(s, b), a.cstep);
      FlagMoves(s, b, n, a.cstep);
    }
  }

  lemma FlagMoves(s: State, b: string, n: string, a: Step)
    requires WellFormed(s) && Enabled(Running(s), s.servers, ConfigOf(s, n), a)
    ensures FlagAt(ServersAfter(s, n, a), b) == FlagNext(ConfigOf(s, n), b, Flag(s, b), a)
  {
    hide FlagAt, WriteFlag;
    if a.ServePush? && a.applied {
      var push := ConfigOf(s, n).pending.value;
      WriteFlagAt(s.servers, push.target.backend, PushedBy(n, push), b);
    }
  }

  // Whatever the flag was, and whatever passes of policies run in between: after
  // more of the object's steps than the rank of its state, the flag is at its
  // spec.paused, and everything that could still move it agrees.
  lemma {:induction false} SwitchFollowsSpec(s: State, b: string, n: string, acts: seq<Action>)
    requires Following(s, b, n) && Cooperate(s, n, acts) && ConfigOf(s, n).floor < |ConfigOf(s, n).versions|
    requires Agrees(ConfigOf(s, n), b, Flag(s, b)) || Steps(acts) > Rank(ConfigOf(s, n))
    ensures Valid(s, acts)
    ensures var t := Exec(s, acts);
            && Agrees(ConfigOf(t, n), b, Flag(t, b))
            && Current(ConfigOf(s, n)).Some? && Flag(t, b) == Current(ConfigOf(s, n)).value.paused
    decreases |acts|
  {
    hide Do, CanDo, Agrees, Rank, Following, SystemInv, Rules, Helps;
    AgreeingIsEqual(ConfigOf(s, n), b, Flag(s, b));
    FollowingIsThere(s, b, n);
    if acts != [] {
      var t := Do(s, acts[0]);
      ActionFollows(s, b, n, acts[0]);
      SwitchFollowsSpec(t, b, n, acts[1..]);
    }
  }

  lemma AgreeingIsEqual(c: Cell, b: string, flag: bool)
    ensures Agrees(c, b, flag) ==> Current(c).Some? && Current(c).value.paused == flag
  {}

  lemma FollowingIsThere(s: State, b: string, n: string)
    requires Following(s, b, n)
    ensures Current(ConfigOf(s, n)).Some?
  {}
}
