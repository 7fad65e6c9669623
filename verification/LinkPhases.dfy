/** The moves that take the controller of a link from one phase to the next. */
module LinkPhases {
  import opened Link
  import opened LinkInvariant
  import opened LinkSteps
  import opened Wrappers

  predicate ClosingOutputOf(c: Ctl, i: int) {
    ShutBy(c, i) && c.stage == CloseOutput
  }

  /** Only the controller moves: stubs and channels stay. */
  ghost predicate PhaseStep(s: State, s': State) {
    && s' == s.(ctl := s'.ctl, cut := s'.cut, chain := s'.chain, tidy := s'.tidy)
    && !s.ctl.Adding? && !s'.ctl.Adding?
    && (forall i :: 0 <= i < |s.stubs| ==>
          && (ShutBy(s.ctl, i) ==> s.stubs[i].closed || ShutBy(s'.ctl, i))
          && (ClosingOutputOf(s.ctl, i) <==> ClosingOutputOf(s'.ctl, i))
          && (ShutBy(s'.ctl, i) ==>
                ShutBy(s.ctl, i) || s'.cut || i >= s.reach || Ended(s, s.stubs[i].input)))
    && (s.cut ==> s'.cut)
  }

  lemma PhaseStepWires(s: State, s': State)
    requires Wiring(s) && PhaseStep(s, s')
    ensures Wiring(s')
  {
    forall i | s.reach <= i < Live(s) ensures Spare(s'.stubs[i], s'.chans, ShutBy(s'.ctl, i)) {
      assert Spare(s.stubs[i], s.chans, ShutBy(s.ctl, i));
    }
    SameWires(s, s');
  }

  lemma PhaseStepCloses(s: State, s': State)
    requires Wiring(s) && Closure(s) && Ends(s) && PhaseStep(s, s')
    ensures Closure(s') && Ends(s')
  {
    forall i | 0 <= i < Live(s')
      ensures s'.chans[s'.stubs[i].output].closed <==>
        s'.stubs[i].closed && !s'.stubs[i].pc.ClosingOutput? && !ClosingOutputOf(s'.ctl, i)
    {
      assert ClosingOutputOf(s.ctl, i) <==> ClosingOutputOf(s'.ctl, i);
    }
  }

  lemma PhaseStepKeeps(s: State, s': State)
    requires Core(s) && PhaseStep(s, s') && Phase(s') && Shaking(s') && Counts(s') && Aligned(s')
    ensures Core(s')
  {
    PhaseStepWires(s, s');
    PhaseStepCloses(s, s');
  }

  // ----- UpdateToxic -----

  lemma UpdatePhase(s: State, s': State, k: nat, t: Toxic)
    requires Counts(s) && CanBegin(s, Update(k, t)) && s.fault == NoFault
    requires s' == s.(tidy := s.tidy && AllOpen(s), chain := s.chain[k := t], ctl := Updating(k, t, Offered))
    ensures k < |s.stubs| && BeginOp(s, Update(k, t)) == s'
    ensures Phase(s') && Shaking(s') && Counts(s') && PhaseStep(s, s')
  {
    hide AllOpen;
  }

  lemma UpdateMatches(s: State, s': State, k: nat, t: Toxic)
    requires Aligned(s) && CanBegin(s, Update(k, t)) && s.fault == NoFault
    requires s' == s.(tidy := s.tidy && AllOpen(s), chain := s.chain[k := t], ctl := Updating(k, t, Offered))
    ensures Aligned(s')
  {
    assert AllOpen(s') <==> AllOpen(s);
    if s'.tidy {
      assert Matches(s);
      assert Matches(s');
    }
  }

  lemma BeginUpdateKeeps(s: State, k: nat, t: Toxic)
    requires Core(s) && Can(s, Begin(Update(k, t)))
    ensures Core(Do(s, Begin(Update(k, t))))
  {
    assert 1 <= k < |s.chain|;
    hide Wiring, Phase, Closure, Shaking, Ends, Counts, Aligned, CanBegin, BeginOp, PhaseStep;
    var s' := s.(tidy := s.tidy && AllOpen(s), chain := s.chain[k := t], ctl := Updating(k, t, Offered));
    UpdatePhase(s, s', k, t);
    UpdateMatches(s, s', k, t);
    PhaseStepKeeps(s, s');
  }

  lemma RemovalPhase(s: State, s': State, k: nat)
    requires Counts(s) && CanBegin(s, Remove(k)) && s.fault == NoFault
    requires s' == s.(tidy := s.tidy && AllOpen(s), chain := s.chain[..k] + s.chain[k + 1..],
                      ctl := Removing(k, s.chain[k], Offered))
    ensures 1 <= k < |s.chain| <= |s.stubs| && s.ctl.Free? && BeginOp(s, Remove(k)) == s'
    ensures Phase(s') && Shaking(s') && Counts(s') && PhaseStep(s, s')
  {
    hide AllOpen;
  }

  lemma BeginRemoveKeeps(s: State, k: nat)
    requires Core(s) && Can(s, Begin(Remove(k)))
    ensures Core(Do(s, Begin(Remove(k))))
  {
    assert 1 <= k < |s.chain|;
    hide Wiring, Phase, Closure, Shaking, Ends, Counts, Aligned, CanBegin, BeginOp, PhaseStep;
    var s' := s.(tidy := s.tidy && AllOpen(s), chain := s.chain[..k] + s.chain[k + 1..],
                 ctl := Removing(k, s.chain[k], Offered));
    RemovalPhase(s, s', k);
    RemovalMatches(s, s', k);
    PhaseStepKeeps(s, s');
  }

  lemma RemovalMatches(s: State, s': State, k: nat)
    requires Aligned(s) && s.ctl.Free? && 1 <= k < |s.chain| <= |s.stubs| && s.fault == NoFault
    requires s' == s.(tidy := s.tidy && AllOpen(s), chain := s.chain[..k] + s.chain[k + 1..],
                      ctl := Removing(k, s.chain[k], Offered))
    ensures Aligned(s')
  {
    assert AllOpen(s') <==> AllOpen(s);
    if s'.tidy {
      assert Matches(s);
      assert Without(s', k);
    }
  }

  lemma RemovingKeeps(s: State)
    requires Core(s) && Can(s, Proceed) && s.ctl.Removing?
    ensures Core(Do(s, Proceed))
  {
    var s' := Advance(s);
    if !s.ctl.shake.ok {
      assert !AllOpen(s);
      NotRemoved(s, s');
    } else if s.ctl.t.Timeout? {
      CleansUp(s, s');
    } else {
      StartsFlush(s, s');
    }
  }

  lemma NotRemoved(s: State, s': State)
    requires Core(s) && s.fault == NoFault && s.ctl.Removing? && !AllOpen(s) && s' == s.(ctl := Free)
    ensures Core(s')
  {
    assert AllOpen(s') <==> AllOpen(s);
    PhaseStepKeeps(s, s');
  }

  lemma CleansUp(s: State, s': State)
    requires Core(s) && s.fault == NoFault && s.ctl.Removing? && Parked(s, s.ctl.k)
    requires s' == s.(ctl := Shutting(s.ctl.k, Test, Collected), cut := true)
    ensures Core(s')
  {
    assert AllOpen(s') <==> AllOpen(s);
    PhaseStepKeeps(s, s');
  }

  lemma StartsFlush(s: State, s': State)
    requires Core(s) && s.fault == NoFault && s.ctl.Removing? && Parked(s, s.ctl.k)
    requires s' == s.(ctl := Flushing(s.ctl.k, Offered, None))
    ensures Core(s')
  {
    assert AllOpen(s') <==> AllOpen(s);
    assert s.ctl.k < s.reach;
    PhaseStepKeeps(s, s');
  }

  lemma FlushingKeeps(s: State)
    requires Core(s) && Can(s, Proceed) && s.ctl.Flushing?
    ensures Core(Do(s, Proceed))
  {
    hide Closure, Ends;
    if s.ctl.shake.ok {
      StartsDrain(s, s.(ctl := Draining(s.ctl.k, None)));
    } else {
      FlushesOn(s, s.(ctl := Flushing(s.ctl.k, Collected, None)));
    }
  }

  lemma FlushesOn(s: State, s': State)
    requires Core(s) && s.fault == NoFault && s.ctl.Flushing? && s.stubs[s.ctl.k - 1].closed
    requires s' == s.(ctl := Flushing(s.ctl.k, Collected, None))
    ensures Core(s')
  {
    PhaseStepKeeps(s, s');
  }

  lemma StartsDrain(s: State, s': State)
    requires Core(s) && s.fault == NoFault && s.ctl.Flushing? && Parked(s, s.ctl.k - 1)
    requires s' == s.(ctl := Draining(s.ctl.k, None))
    ensures Core(s')
  {
    PhaseStepKeeps(s, s');
  }

  lemma FlushEndsKeeps(s: State)
    requires Core(s) && Can(s, TakeEnd(ToController))
    ensures Core(Do(s, TakeEnd(ToController)))
  {
    hide Wiring;
    PhaseStepKeeps(s, ReceiveEnd(s, ToController));
  }

  lemma JoinPhase(s: State, s': State)
    requires Phase(s) && Counts(s) && Aligned(s) && s.ctl.Shutting? && s.ctl.stage == Join && s' == s.(ctl := Free)
    ensures PhaseStep(s, s') && Phase(s') && Shaking(s') && Counts(s') && Aligned(s')
  {
    assert s.stubs[s.ctl.k].closed && !AllOpen(s');
  }

  lemma JoinKeeps(s: State)
    requires Core(s) && Can(s, Proceed) && s.ctl.Shutting? && s.ctl.stage == Join
    ensures Core(Do(s, Proceed))
  {
    hide Wiring, Phase, Closure, Shaking, Ends, Counts, Aligned, PhaseStep;
    assert Advance(s) == s.(ctl := Free);
    JoinPhase(s, s.(ctl := Free));
    PhaseStepKeeps(s, s.(ctl := Free));
  }

  /** A parked stub gets a new goroutine. */
  lemma SpawnWires(s: State, s': State, k: nat, t: Toxic)
    requires Wiring(s) && s.ctl.Free? && Parked(s, k) && s' == Spawn(s, k, t)
    ensures Wiring(s')
  {
    forall i | s.reach <= i < Live(s) ensures Spare(s'.stubs[i], s'.chans, ShutBy(s'.ctl, i)) {
      assert Spare(s.stubs[i], s.chans, ShutBy(s.ctl, i));
    }
    SameWires(s, s');
  }

  lemma SpawnKeeps(s: State, s': State, k: nat, t: Toxic)
    requires Body(s) && s.ctl.Free? && Parked(s, k) && s' == Spawn(s, k, t)
    ensures Body(s')
  {
    SpawnWires(s, s', k, t);
    SpawnCloses(s, s', k, t);
  }

  lemma SpawnCloses(s: State, s': State, k: nat, t: Toxic)
    requires Wiring(s) && Closure(s) && Ends(s) && s.ctl.Free? && Parked(s, k) && s' == Spawn(s, k, t)
    ensures Closure(s') && Ends(s')
  {
  }

  lemma NotUpdated(s: State, s': State)
    requires Core(s) && s.fault == NoFault && s.ctl.Updating? && !AllOpen(s) && s' == s.(ctl := Free)
    ensures Core(s')
  {
    assert AllOpen(s') <==> AllOpen(s);
    PhaseStepKeeps(s, s');
  }

  lemma UpdatingKeeps(s: State)
    requires Core(s) && Can(s, Proceed) && s.ctl.Updating?
    ensures Core(Do(s, Proceed))
  {
    hide Wiring, Closure, Ends, Counts, Aligned, Spawn;
    if s.ctl.shake.ok {
      Restarted(s, Advance(s));
    } else {
      assert !AllOpen(s);
      NotUpdated(s, Advance(s));
    }
  }

  lemma Restarted(s: State, s': State)
    requires Core(s) && s.fault == NoFault && s.ctl.Updating? && Parked(s, s.ctl.k)
    requires s' == Spawn(s, s.ctl.k, s.ctl.t).(ctl := Free)
    ensures Core(s')
  {
    var s1 := s.(ctl := Free);
    RestartBody(s, s1);
    SpawnKeeps(s1, s', s.ctl.k, s.ctl.t);
    UpdatedMatches(s, s');
  }

  lemma RestartBody(s: State, s1: State)
    requires Body(s) && s.ctl.Updating? && s1 == s.(ctl := Free)
    ensures Body(s1)
  {
    PhaseStepWires(s, s1);
    PhaseStepCloses(s, s1);
  }

  lemma UpdatedMatches(s: State, s': State)
    requires Aligned(s) && s.ctl.Updating? && Parked(s, s.ctl.k) && s.fault == NoFault
    requires s' == Spawn(s, s.ctl.k, s.ctl.t).(ctl := Free)
    ensures Aligned(s')
  {
    assert AllOpen(s') ==> AllOpen(s) by {
      assert forall i :: 0 <= i < |s.stubs| ==> s'.stubs[i].closed == s.stubs[i].closed;
    }
    if s.tidy {
      assert Matches(s);
      assert Matches(s');
    }
  }

  // ----- the controller closes a stub -----

  lemma ShutTestKeeps(s: State)
    requires Core(s) && Can(s, Proceed) && s.ctl.Shutting? && s.ctl.stage == Test
    ensures Core(Do(s, Proceed))
  {
    hide Wiring, Ends, Shaking;
    var s' := Advance(s);
    var k := s.ctl.k;
    assert s' == s.(stubs := s.stubs[k := s.stubs[k].(closed := true)], ctl := Shutting(k, CloseOutput, s.ctl.shake));
    ShutTestBody(s, s');
    assert !AllOpen(s');
  }

  lemma ShutTestBody(s: State, s': State)
    requires Body(s) && s.fault == NoFault && s.ctl.Shutting? && s.ctl.stage == Test
    requires s' == s.(stubs := s.stubs[s.ctl.k := s.stubs[s.ctl.k].(closed := true)],
                      ctl := Shutting(s.ctl.k, CloseOutput, s.ctl.shake))
    ensures Body(s')
  {
    hide Wiring, Closure, Ends, Phase, Shaking, Counts;
    ShutTestPhase(s, s');
    ShutWires(s, s');
    ShutTestCloses(s, s');
  }

  lemma ShutTestPhase(s: State, s': State)
    requires Phase(s) && Shaking(s) && Counts(s) && s.ctl.Shutting? && s.ctl.stage == Test
    requires s' == s.(stubs := s.stubs[s.ctl.k := s.stubs[s.ctl.k].(closed := true)],
                      ctl := Shutting(s.ctl.k, CloseOutput, s.ctl.shake))
    ensures s.ctl.k < |s.stubs| && Phase(s') && Shaking(s') && Counts(s')
  {
  }

  lemma ShutTestCloses(s: State, s': State)
    requires Wiring(s) && Closure(s) && Ends(s) && Phase(s) && s.ctl.Shutting? && s.ctl.stage == Test
    requires s' == s.(stubs := s.stubs[s.ctl.k := s.stubs[s.ctl.k].(closed := true)],
                      ctl := Shutting(s.ctl.k, CloseOutput, s.ctl.shake))
    ensures Closure(s') && Ends(s')
  {
  }

  /** The Close of stub k leaves the wires alone. */
  lemma ShutWires(s: State, s': State)
    requires Wiring(s) && s.ctl.Shutting? && s'.ctl.Shutting? && s'.ctl.k == s.ctl.k < |s.stubs|
    requires |s'.stubs| == |s.stubs| && |s'.chans| == |s.chans|
    requires s'.input == s.input && s'.output == s.output && s'.reach == s.reach
    requires forall i :: 0 <= i < |s.stubs| ==>
      s'.stubs[i] == s.stubs[i] || s'.stubs[i] == s.stubs[i].(closed := true)
    requires forall c :: 0 <= c < |s.chans| ==> s'.chans[c].buf == s.chans[c].buf
    ensures Wiring(s')
  {
    forall i | s.reach <= i < Live(s) ensures Spare(s'.stubs[i], s'.chans, ShutBy(s'.ctl, i)) {
      assert Spare(s.stubs[i], s.chans, ShutBy(s.ctl, i));
    }
    SameWires(s, s');
  }

  lemma ShutOutputKeeps(s: State)
    requires Core(s) && Can(s, Proceed) && s.ctl.Shutting? && s.ctl.stage == CloseOutput
    ensures Core(Do(s, Proceed))
  {
    hide Wiring, Ends, Shaking;
    var k := s.ctl.k;
    assert !s.chans[s.stubs[k].output].closed;
    var s' := s.(chans := s.chans[s.stubs[k].output := s.chans[s.stubs[k].output].(closed := true)],
                 ctl := Shutting(k, Join, s.ctl.shake));
    assert Advance(s) == s';
    ShutOutputBody(s, s');
    assert !AllOpen(s');
  }

  lemma ShutOutputBody(s: State, s': State)
    requires Body(s) && s.fault == NoFault && s.ctl.Shutting? && s.ctl.stage == CloseOutput
    requires s' == s.(chans := s.chans[s.stubs[s.ctl.k].output := s.chans[s.stubs[s.ctl.k].output].(closed := true)],
                      ctl := Shutting(s.ctl.k, Join, s.ctl.shake))
    ensures Body(s')
  {
    hide Wiring, Closure, Ends, Phase, Shaking, Counts;
    ShutOutputPhase(s, s');
    ShutWires(s, s');
    ShutOutputCloses(s, s');
  }

  lemma ShutOutputPhase(s: State, s': State)
    requires Wiring(s) && Phase(s) && Shaking(s) && Counts(s) && s.ctl.Shutting? && s.ctl.stage == CloseOutput
    requires s' == s.(chans := s.chans[s.stubs[s.ctl.k].output := s.chans[s.stubs[s.ctl.k].output].(closed := true)],
                      ctl := Shutting(s.ctl.k, Join, s.ctl.shake))
    ensures s.ctl.k < |s.stubs| && s.stubs[s.ctl.k].output < |s.chans| && Phase(s') && Shaking(s') && Counts(s')
  {
  }

  lemma ShutOutputCloses(s: State, s': State)
    requires Wiring(s) && Closure(s) && Ends(s) && Phase(s) && s.ctl.Shutting? && s.ctl.stage == CloseOutput
    requires s' == s.(chans := s.chans[s.stubs[s.ctl.k].output := s.chans[s.stubs[s.ctl.k].output].(closed := true)],
                      ctl := Shutting(s.ctl.k, Join, s.ctl.shake))
    ensures Closure(s') && Ends(s')
  {
    ShutOutputClosure(s, s');
    hide Closure, Phase, Spare;
  }

  lemma ShutOutputClosure(s: State, s': State)
    requires Wiring(s) && Closure(s) && Phase(s) && s.ctl.Shutting? && s.ctl.stage == CloseOutput
    requires s' == s.(chans := s.chans[s.stubs[s.ctl.k].output := s.chans[s.stubs[s.ctl.k].output].(closed := true)],
                      ctl := Shutting(s.ctl.k, Join, s.ctl.shake))
    ensures Closure(s')
  {
    hide Spare;
  }
}
