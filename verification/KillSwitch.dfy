/** The two locks on every mutation: the gate a pass reads in the cluster and the
    flag the control plane keeps, and what pushing the flag guarantees. */
module KillSwitch {
  import opened Types
  import opened Startup
  import opened ControlPlane
  import opened System
  import P = PolicyCell
  import H = PolicyHistory
  import C = ConfigCell

  function EdgesOf(s: State, k: Key, target: Target): set<string> { P.Edges(CellOf(s, k), target) }

  // ---- both locks -------------------------------------------------------

  // An edge changes only while the flag of its control plane is off, only when
  // that control plane serves a request for that key, and opens only for a
  // reconcile whose own pass read a PlatformConfig version with spec.paused=false.
  lemma BothLocksWereOpen(s: State, a: Action, k: Key, target: Target)
    requires SystemInv(s) && CanDo(s, a)
    requires EdgesOf(Do(s, a), k, target) != EdgesOf(s, k, target)
    ensures !Flag(s, target.backend)
    ensures a.OnPolicy? && a.key == k && (a.step.ServeUpsert? || a.step.ServeClose?)
    ensures var r := CellOf(s, k).pending.value;
            && r.target == target
            && (r.UpsertRequest? ==> OpenAt(s, r.gate))
            && (r.CloseRequest? ==> EdgesOf(Do(s, a), k, target) < EdgesOf(s, k, target))
  {
    hide C.After, C.Enabled, C.Inv, FlagAt, WriteFlag, H.VersionOK, H.StatusOK, H.Earned, H.Chain, PendingTrue,
      ServerTrue;
    var c := CellOf(s, k);
    if a.OnPolicy? {
      assert H.Inv(c) && GatesTrue(s, k);
      if c.pending.value.UpsertRequest? {
        var o := c.versions[c.pending.value.at].obj.value;
        assert P.GateOpened(o.uid, c.pending.value.gate) in c.log;
      }
    }
  }

  // ---- a paused server freezes its graph --------------------------------

  // The action takes the flag at b off.
  predicate Unpauses(s: State, a: Action, b: string)
    requires CanDo(s, a)
  {
    || a == PauseOutOfBand(b, false)
    || (a.OnConfig? && a.cstep.ServePush? && a.cstep.applied
        && ConfigOf(s, a.name).pending.value.target.backend == b && !ConfigOf(s, a.name).pending.value.wanted)
  }

  predicate NeverUnpauses(s: State, acts: seq<Action>, b: string)
    requires Valid(s, acts)
    decreases |acts|
  {
    acts != [] ==> !Unpauses(s, acts[0], b) && NeverUnpauses(Do(s, acts[0]), acts[1..], b)
  }

  lemma {:induction false} PausedGraphIsFrozen(s: State, acts: seq<Action>, k: Key, target: Target)
    requires SystemInv(s) && Flag(s, target.backend) && Valid(s, acts) && NeverUnpauses(s, acts, target.backend)
    ensures Flag(Exec(s, acts), target.backend)
    ensures EdgesOf(Exec(s, acts), k, target) == EdgesOf(s, k, target)
    decreases |acts|
  {
    hide Do, CanDo;
    if acts != [] {
      ActionKeeps(s, acts[0]);
      if !Flag(Do(s, acts[0]), target.backend) {
        OnlyPushesMoveTheFlag(s, acts[0], target.backend);
      }
      if EdgesOf(Do(s, acts[0]), k, target) != EdgesOf(s, k, target) {
        BothLocksWereOpen(s, acts[0], k, target);
      }
      PausedGraphIsFrozen(Do(s, acts[0]), acts[1..], k, target);
    }
  }

  // ---- pushing the flag -------------------------------------------------

  // The push is read back as applied, and its pass goes on.
  predicate ConfirmsPush(s: State, a: Action)
    requires CanDo(s, a)
  {
    a.OnConfig? && a.cstep.ServePush? && a.cstep.delivered
    && a.cstep.pushed == Ok(ConfigOf(s, a.name).pending.value.wanted)
  }

  // After a confirmed push the flag equals the spec the pass read; a pass that
  // is past its push has one on record, and no other pass gets there.
  lemma ConfirmedPushConverges(s: State, a: Action)
    requires SystemInv(s) && CanDo(s, a) && a.OnConfig? && a.cstep.ServePush? && a.cstep.delivered
    ensures var p := ConfigOf(Do(s, a), a.name).pass;
            && (p.AtHealth? <==> ConfirmsPush(s, a))
            && (ConfirmsPush(s, a) ==>
                  Running(s).Configured? && Flag(Do(s, a), Running(s).target.backend) == p.cr.paused)
  {
    assert C.Inv(Running(s), a.name, ConfigOf(s, a.name));
  }

  // Only the two sources move a flag: a served push to its server, and writes
  // that bypass the operator. Creating, editing or deleting a PlatformConfig
  // does not, nor does a restart.
  lemma OnlyPushesMoveTheFlag(s: State, a: Action, b: string)
    requires CanDo(s, a) && Flag(Do(s, a), b) != Flag(s, b)
    ensures || a == PauseOutOfBand(b, !Flag(s, b))
            || (a.OnConfig? && a.cstep.ServePush? && a.cstep.applied
                && ConfigOf(s, a.name).pending.value.target.backend == b
                && ConfigOf(s, a.name).pending.value.wanted == !Flag(s, b))
  {
    hide P.After, P.Enabled;
  }

  // Provenance: every value a flag ever took, past its initial one and writes
  // that bypass the operator, is a spec.paused that an object held at some
  // version, pushed by a process configured for that server that ran in this
  // history and, unless its singleton name is empty, answers to that object's name.
  lemma FlagValuesComeFromTheSingleton(servers: Servers, p: Process, acts: seq<Action>, s: State, b: string, i: nat)
    requires Reaches(servers, p, acts, s)
    requires i < |ServerAt(s.servers, b).writes| && !ServerAt(s.servers, b).writes[i].OutOfBand?
    ensures var w := ServerAt(s.servers, b).writes[i];
            && w.source in s.procs && w.source.Configured? && w.source.target.backend == b
            && (w.source.singleton != "" ==> w.name == w.source.singleton)
            && C.Present(ConfigOf(s, w.name), w.at)
            && ConfigOf(s, w.name).versions[w.at].obj.value.paused == w.value
  {
    Invariant(servers, p, acts, s);
    assert ServerTrue(s, b);
    assert PushTrue(s, b, ServerAt(s.servers, b).writes[i]);
  }

  // With an empty singleton name the filter is off: an object of any name
  // drives the flag. With a name, only that one does.
  lemma OnlyTheSingletonDrivesIff(singleton: string)
    ensures (forall name, rv, cr, now :: C.Start(singleton, name, C.Found(rv, cr), now).AtPush? ==> name == singleton)
       <==> singleton != ""
  {
    if singleton == "" {
      var cr := Config(1, 1, false, "Hubble", ConfigStatus([], 0, []));
      assert C.Start(singleton, "rogue", C.Found(1, cr), 0).AtPush?;
      assert |"rogue"| == 5;
    }
  }

  // ---- a confirmed pause holds ------------------------------------------

  // Every spec the object's passes can still act on asks for a pause: the
  // versions the cache may still serve, the copy in hand, the request in flight.
  predicate CellAsksForPause(c: C.Cell) {
    && c.floor < |c.versions|
    && (forall i :: c.floor <= i < |c.versions| ==> c.versions[i].obj.Some? ==> c.versions[i].obj.value.paused)
    && (c.pass.AtPush? || c.pass.AwaitPush? ==> c.pass.cr.paused)
    && (c.pending.Some? ==> c.pending.value.wanted)
  }

  // The process sends nothing to b, or answers to one of these names.
  predicate AnswersTo(p: Process, b: string, names: set<string>) {
    p.Configured? && p.target.backend == b ==> p.singleton in names
  }

  // What the object has on its way to b, if anything, is a pause.
  predicate PushesPause(c: C.Cell, b: string) {
    c.pending.Some? && c.pending.value.target.backend == b ==> c.pending.value.wanted
  }

  // Whoever may push at b asks for a pause: the objects of these names, and every
  // push to b in flight.
  ghost predicate PauseAsked(s: State, b: string, names: set<string>) {
    && WellFormed(s) && "" !in names && AnswersTo(Running(s), b, names)
    && (forall n :: n in names ==> CellAsksForPause(ConfigOf(s, n)))
    && (forall n :: PushesPause(ConfigOf(s, n), b))
  }

  // Someone asks for the pause to end: a spec of one of the objects, a write
  // around the operator, or a process for b that answers to another object.
  predicate AsksToResume(a: Action, b: string, names: set<string>) {
    || a == PauseOutOfBand(b, false)
    || (a.OnConfig? && a.name in names
        && ((a.cstep.Create? && !a.cstep.paused) || (a.cstep.Edit? && !a.cstep.paused)))
    || (a.Restart? && !AnswersTo(a.process, b, names))
  }

  predicate NobodyResumes(acts: seq<Action>, b: string, names: set<string>) {
    forall i :: 0 <= i < |acts| ==> !AsksToResume(acts[i], b, names)
  }

  lemma CellPausePersists(process: Process, servers: Servers, n: string, c: C.Cell, step: C.Step)
    requires C.Enabled(process, servers, c, step) && CellAsksForPause(c)
    requires (step.Create? || step.Edit?) ==> step.paused
    ensures CellAsksForPause(C.After(process, servers, n, c, step))
  {
    hide FlagAt;
    if step.Store? && C.Fresh(c) {
      assert c.versions[|c.versions| - 1].obj.value.paused;
    }
  }

  // A step of an object outside the names sends no push to b.
  lemma OtherPushesPersist(process: Process, servers: Servers, n: string, c: C.Cell, step: C.Step,
                            b: string, names: set<string>)
    requires C.Inv(process, n, c) && C.Enabled(process, servers, c, step)
    requires n !in names && "" !in names && AnswersTo(process, b, names)
    requires PushesPause(c, b)
    ensures PushesPause(C.After(process, servers, n, c, step), b)
  {
    hide FlagAt, C.Chain, C.VersionOK;
  }

  lemma OnlyPendingIsServed(process: Process, servers: Servers, c: C.Cell, step: C.Step)
    requires C.Enabled(process, servers, c, step) && step.ServePush?
    ensures c.pending.Some?
  {}

  lemma PauseRequestPersists(s: State, a: Action, b: string, names: set<string>)
    requires SystemInv(s) && PauseAsked(s, b, names) && CanDo(s, a) && !AsksToResume(a, b, names)
    ensures PauseAsked(Do(s, a), b, names) && !Unpauses(s, a, b)
  {
    hide H.Inv, C.Inv, C.After, C.Enabled, P.After, P.Enabled, WriteFlag, FlagAt;
    var t := Do(s, a);
    if a.OnConfig? && a.cstep.ServePush? {
      OnlyPendingIsServed(Running(s), s.servers, ConfigOf(s, a.name), a.cstep);
    }
    forall n
      ensures n in names ==> CellAsksForPause(ConfigOf(t, n))
      ensures PushesPause(ConfigOf(t, n), b)
    {
      var c := ConfigOf(s, n);
      assert PushesPause(c, b);
      assert C.Inv(Running(s), n, c);
      if a.OnConfig? && a.name == n {
        if n in names {
          CellPausePersists(Running(s), s.servers, n, c, a.cstep);
        } else {
          OtherPushesPersist(Running(s), s.servers, n, c, a.cstep, b, names);
        }
      } else if a.Restart? {
        assert ConfigOf(t, n) == C.Crash(c);
      } else {
        assert ConfigOf(t, n) == c;
      }
    }
  }

  // A confirmed pause holds: once SetPaused(true) was confirmed and every version
  // the cache may still serve asks for a pause, then whatever passes, crashes,
  // restarts, lost replies and edits of policies follow, no edge at that control
  // plane opens or closes until somebody asks to resume.
  lemma {:induction false} ConfirmedPauseHolds(s: State, acts: seq<Action>, k: Key, target: Target, names: set<string>)
    requires SystemInv(s) && Flag(s, target.backend) && PauseAsked(s, target.backend, names)
    requires Valid(s, acts) && NobodyResumes(acts, target.backend, names)
    ensures Flag(Exec(s, acts), target.backend)
    ensures EdgesOf(Exec(s, acts), k, target) == EdgesOf(s, k, target)
    decreases |acts|
  {
    hide Do, CanDo, PauseAsked, AsksToResume, FlagAt;
    if acts != [] {
      var t, b := Do(s, acts[0]), target.backend;
      assert !AsksToResume(acts[0], b, names);
      ActionKeeps(s, acts[0]);
      PauseRequestPersists(s, acts[0], b, names);
      if !Flag(t, b) {
        OnlyPushesMoveTheFlag(s, acts[0], b);
      }
      if EdgesOf(t, k, target) != EdgesOf(s, k, target) {
        BothLocksWereOpen(s, acts[0], k, target);
      }
      forall i | 0 <= i < |acts[1..]| ensures !AsksToResume(acts[1..][i], b, names) {
        assert !AsksToResume(acts[i + 1], b, names);
      }
      ConfirmedPauseHolds(t, acts[1..], k, target, names);
    }
  }

  // The confirming step of the singleton's pass puts the system into that state,
  // if nothing on its way to the same server asks for anything else.
  lemma ConfirmationPauses(s: State, a: Action)
    requires SystemInv(s) && CanDo(s, a) && ConfirmsPush(s, a)
    requires a.name == Running(s).singleton && ConfigOf(s, a.name).pending.value.wanted
    requires var c := ConfigOf(s, a.name);
             forall i :: c.floor <= i < |c.versions| ==> c.versions[i].obj.Some? ==> c.versions[i].obj.value.paused
    requires forall n :: PushesPause(ConfigOf(s, n), ConfigOf(s, a.name).pending.value.target.backend)
    ensures Running(s).Configured? && Flag(Do(s, a), Running(s).target.backend)
    ensures PauseAsked(Do(s, a), Running(s).target.backend, {a.name})
  {
    hide H.Inv, P.After, P.Enabled, C.Chain, C.VersionOK, C.StatusOK, C.Reported, GatesTrue, ServerTrue, PendingTrue,
      FlagAt, WriteFlag;
    ConfirmedPushConverges(s, a);
    assert C.Inv(Running(s), a.name, ConfigOf(s, a.name));
    var t := Do(s, a);
    forall n | n != a.name ensures ConfigOf(t, n) == ConfigOf(s, n) {}
  }
}
