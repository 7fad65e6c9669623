/** The moves of AddToxic and RemoveToxic that append, splice in and splice out stubs. */
module LinkSplices {
  import opened Link
  import opened LinkInvariant
  import opened LinkSteps
  import opened LinkPhases
  import opened Wrappers

  // ----- AddToxic appends a stub -----

  lemma AppendWires(s: State, t: Toxic)
    requires Wiring(s) && CanBegin(s, Add(t))
    ensures Wiring(BeginOp(s, Add(t)))
  {
    var s' := BeginOp(s, Add(t));
    assert forall i :: 0 <= i < |s.stubs| ==> s'.stubs[i] == s.stubs[i];
    forall i | s.reach <= i < Live(s) ensures Spare(s'.stubs[i], s'.chans, ShutBy(s'.ctl, i)) {
      assert Spare(s.stubs[i], s.chans, ShutBy(s.ctl, i));
    }
    hide BeginOp, CanBegin, Spare;
  }

  lemma AppendPhase(s: State, t: Toxic)
    requires Wiring(s) && Counts(s) && CanBegin(s, Add(t))
    ensures var s' := BeginOp(s, Add(t)); Phase(s') && Shaking(s') && (s.fault == NoFault ==> Counts(s'))
  {
  }

  lemma AppendCloses(s: State, t: Toxic)
    requires Wiring(s) && Closure(s) && CanBegin(s, Add(t))
    ensures Closure(BeginOp(s, Add(t)))
  {
    var s' := BeginOp(s, Add(t));
    assert forall i :: 0 <= i < |s.stubs| ==> s'.stubs[i] == s.stubs[i];
  }

  lemma AppendEnds(s: State, t: Toxic)
    requires Wiring(s) && Ends(s) && CanBegin(s, Add(t))
    ensures Ends(BeginOp(s, Add(t)))
  {
    var s' := BeginOp(s, Add(t));
    assert forall i :: 0 <= i < |s.stubs| ==> s'.stubs[i] == s.stubs[i];
  }

  lemma AppendMatches(s: State, t: Toxic)
    requires Aligned(s) && Wiring(s) && CanBegin(s, Add(t))
    ensures Aligned(BeginOp(s, Add(t)))
  {
    var s' := BeginOp(s, Add(t));
    assert AllOpen(s') ==> AllOpen(s) by {
      assert forall i :: 0 <= i < |s.stubs| ==> s'.stubs[i] == s.stubs[i];
    }
  }

  lemma BeginAddKeeps(s: State, t: Toxic)
    requires Core(s) && Can(s, Begin(Add(t)))
    ensures Core(Do(s, Begin(Add(t))))
  {
    hide Wiring, Phase, Closure, Shaking, Ends, Counts, Aligned, CanBegin, BeginOp;
    AppendWires(s, t);
    AppendPhase(s, t);
    AppendCloses(s, t);
    AppendEnds(s, t);
    AppendMatches(s, t);
  }

  // ----- the last stub was closed -----

  lemma SpareAdded(s: State, s': State)
    requires Body(s) && s.ctl.Adding? && s.fault == NoFault && s.stubs[|s.stubs| - 2].closed
    requires var n := |s.stubs| - 1;
      s' == s.(stubs := s.stubs[n := s.stubs[n].(output := s.stubs[n].input)], ctl := Shutting(n, Test, Collected))
    ensures Body(s')
  {
    SpareWires(s, s');
    SpareCloses(s, s');
    SpareEnds(s, s');
  }

  lemma SpareCloses(s: State, s': State)
    requires Wiring(s) && Phase(s) && Closure(s) && s.ctl.Adding?
    requires var n := |s.stubs| - 1;
      s' == s.(stubs := s.stubs[n := s.stubs[n].(output := s.stubs[n].input)], ctl := Shutting(n, Test, Collected))
    ensures Closure(s')
  {
    assert forall i :: 0 <= i < Live(s) ==> s'.stubs[i] == s.stubs[i];
  }

  lemma SpareEnds(s: State, s': State)
    requires Wiring(s) && Phase(s) && Ends(s) && s.ctl.Adding?
    requires var n := |s.stubs| - 1;
      s' == s.(stubs := s.stubs[n := s.stubs[n].(output := s.stubs[n].input)], ctl := Shutting(n, Test, Collected))
    ensures Ends(s')
  {
    assert forall i :: 0 <= i < Live(s) ==> s'.stubs[i] == s.stubs[i];
  }

  lemma SpareDistinct(s: State, s': State, n: nat)
    requires Wiring(s) && s.ctl.Adding? && Appended(s) && n == |s.stubs| - 1
    requires s' == s.(stubs := s.stubs[n := s.stubs[n].(output := s.stubs[n].input)],
                      ctl := Shutting(n, Test, Collected))
    ensures forall i :: 0 <= i <= n ==> s'.stubs[i].output != s'.input && s'.stubs[i].output < |s'.chans|
    ensures forall i, j :: 0 <= i < j <= n ==> s'.stubs[i].output != s'.stubs[j].output
  {
    hide Spare;
    assert forall i :: 0 <= i < n ==> s'.stubs[i] == s.stubs[i];
    forall i, j | 0 <= i < j <= n ensures s'.stubs[i].output != s'.stubs[j].output {
      if j == n { assert s.stubs[i].output != s.stubs[n].input; }
    }
  }

  lemma SpareWires(s: State, s': State)
    requires Wiring(s) && Phase(s) && s.ctl.Adding? && s.stubs[|s.stubs| - 2].closed
    requires var n := |s.stubs| - 1;
      s' == s.(stubs := s.stubs[n := s.stubs[n].(output := s.stubs[n].input)], ctl := Shutting(n, Test, Collected))
    ensures Wiring(s')
  {
    var n := |s.stubs| - 1;
    SpareDistinct(s, s', n);
    assert forall i :: 0 <= i < n ==> s'.stubs[i] == s.stubs[i];
    forall i | s'.reach <= i < Live(s') ensures Spare(s'.stubs[i], s'.chans, ShutBy(s'.ctl, i)) {
      if i < n { assert Spare(s.stubs[i], s.chans, ShutBy(s.ctl, i)); }
    }
    hide Parked, Ended, Appended;
    if s.reach < n { assert s.stubs[s.reach - 1].closed; }
  }

  // ----- splicing in -----

  lemma RewireInReach(s: State)
    requires Wiring(s) && s.ctl.Adding? && |s.stubs| >= 2 && Parked(s, |s.stubs| - 2)
    ensures s.reach == |s.stubs| - 1
  {
  }

  lemma RewireInWires(s: State, s': State)
    requires Wiring(s) && Phase(s) && s.ctl.Adding? && Parked(s, |s.stubs| - 2) && s' == RewireIn(s)
    ensures Wiring(s') && s.reach == |s.stubs| - 1
  {
    RewireInReach(s);
    hide Spare, Parked;
  }

  lemma RewireInCloses(s: State, s': State)
    requires Wiring(s) && Phase(s) && Closure(s)
    requires s.ctl.Adding? && Parked(s, |s.stubs| - 2) && s' == RewireIn(s) && s.reach == |s.stubs| - 1
    ensures Closure(s')
  {
    var n := |s.stubs| - 1;
    assert forall i :: 0 <= i < n - 1 ==> s'.stubs[i] == s.stubs[i];
    assert !s'.stubs[n - 1].closed && !s'.stubs[n].closed;
  }

  lemma RewireInEnds(s: State, s': State)
    requires Wiring(s) && Phase(s) && Ends(s)
    requires s.ctl.Adding? && Parked(s, |s.stubs| - 2) && s' == RewireIn(s) && s.reach == |s.stubs| - 1
    ensures Ends(s')
  {
    var n := |s.stubs| - 1;
    assert forall i :: 0 <= i < n - 1 ==> s'.stubs[i] == s.stubs[i];
    assert !Finishing(s'.stubs[n - 1]) && !Finishing(s'.stubs[n]);
  }

  // ----- splicing out -----

  /** s' is s without stub k, whose output went to the stub before it. */
  ghost predicate SplicedOut(s: State, s': State, k: nat) {
    && 1 <= k < s.reach <= |s.stubs| && !s.ctl.Adding?
    && |s'.stubs| == |s.stubs| - 1 && s'.chans == s.chans && s'.ctl == Free
    && s'.reach == s.reach - 1 && s'.input == s.input && s'.output == s.output
    && (forall i :: 0 <= i < k - 1 ==> s'.stubs[i] == s.stubs[i])
    && s'.stubs[k - 1] == s.stubs[k - 1].(output := s.stubs[k].output)
    && (forall i :: k <= i < |s'.stubs| ==> s'.stubs[i] == s.stubs[i + 1])
  }

  lemma RewireOutSplices(s: State)
    requires Wiring(s) && Phase(s) && s.ctl.Draining?
    ensures SplicedOut(s, RewireOut(s), s.ctl.k)
  {
  }

  lemma SplicedOutDistinct(s: State, s': State, k: nat)
    requires Wiring(s) && SplicedOut(s, s', k)
    ensures forall i :: 0 <= i < |s'.stubs| ==>
      s'.stubs[i].input < |s'.chans| && s'.stubs[i].output < |s'.chans| && s'.stubs[i].output != s'.input
    ensures forall i, j :: 0 <= i < j < |s'.stubs| ==> s'.stubs[i].output != s'.stubs[j].output
  {
    forall i, j | 0 <= i < j < |s'.stubs| ensures s'.stubs[i].output != s'.stubs[j].output {
      var i0 := if i < k - 1 then i else i + 1;
      var j0 := if j < k - 1 then j else j + 1;
      assert s.stubs[i0].output != s.stubs[j0].output;
    }
  }

  lemma SplicedOutFollows(s: State, s': State, k: nat)
    requires Wiring(s) && SplicedOut(s, s', k)
    ensures forall i, j :: 0 <= i && j == i + 1 < s'.reach ==> s'.stubs[j].input == s'.stubs[i].output
    ensures s'.stubs[0].input == s'.input && s'.stubs[s'.reach - 1].output == s'.output
  {
    forall i, j | 0 <= i && j == i + 1 < s'.reach ensures s'.stubs[j].input == s'.stubs[i].output {
      if j < k {
        assert s.stubs[j].input == s.stubs[i].output;
      } else {
        assert s.stubs[j + 1].input == s.stubs[j].output;
      }
    }
  }

  lemma SplicedOutWires(s: State, s': State, k: nat)
    requires Wiring(s) && SplicedOut(s, s', k) && !s.ctl.Shutting? && !s.stubs[k].closed
    ensures Wiring(s')
  {
    SplicedOutDistinct(s, s', k);
    SplicedOutFollows(s, s', k);
    forall i | s'.reach <= i < |s'.stubs| ensures Spare(s'.stubs[i], s'.chans, false) {
      assert Spare(s.stubs[i + 1], s.chans, ShutBy(s.ctl, i + 1));
    }
  }

  lemma SplicedOutCloses(s: State, s': State, k: nat)
    requires Wiring(s) && Closure(s) && SplicedOut(s, s', k) && !s.ctl.Shutting? && Parked(s, k) && Parked(s, k - 1)
    requires s'.inputClosed == s.inputClosed && s'.pending == s.pending
    ensures Closure(s')
  {
    forall i | 0 <= i < |s'.stubs|
      ensures s'.stubs[i].closed ==> s'.stubs[i].pc.Idle? || s'.stubs[i].pc.ClosingOutput? || s'.stubs[i].pc.Exiting?
      ensures s'.stubs[i].pc.ClosingOutput? ==> s'.stubs[i].closed
      ensures s'.chans[s'.stubs[i].output].closed <==> s'.stubs[i].closed && !s'.stubs[i].pc.ClosingOutput?
    {
      assert s.stubs[if i < k - 1 then i else i + 1].output < |s.chans|;
    }
  }

  lemma SplicedOutEnds(s: State, s': State, k: nat)
    requires Wiring(s) && Ends(s) && SplicedOut(s, s', k) && !s.ctl.Shutting? && Parked(s, k) && Parked(s, k - 1)
    requires s'.cut == s.cut && s'.eof == s.eof
    ensures Ends(s')
  {
    forall i | !s'.cut && 0 <= i < s'.reach && Finishing(s'.stubs[i])
      ensures Ended(s', s'.stubs[i].input)
    {
      assert Ended(s, s.stubs[if i < k - 1 then i else i + 1].input);
    }
  }

  // ----- the goroutines started after a splice -----

  lemma SpawnIdle(s: State, k: nat, t: Toxic)
    requires k < |s.stubs| && s.stubs[k].pc.Idle?
    ensures Spawn(s, k, t) == s.(stubs := s.stubs[k := s.stubs[k].(pc := Spawned, toxic := t)])
  {
  }

  lemma SpawnFromChainKeeps(s: State, k: nat)
    requires Body(s) && s.ctl.Free? && Parked(s, k)
    ensures Body(SpawnFromChain(s, k))
  {
    var s' := SpawnFromChain(s, k);
    if k < |s.chain| {
      SpawnKeeps(s, s', k, s.chain[k]);
    } else {
      PhaseFree(s, s');
    }
  }

  lemma FaultKeepsEnds(s: State, s': State)
    requires Closure(s) && Ends(s) && s' == s.(fault := ChainIndex)
    ensures Closure(s') && Ends(s')
  {
  }

  lemma PhaseFree(s: State, s': State)
    requires Body(s) && s.ctl.Free? && s' == s.(fault := ChainIndex)
    ensures Body(s')
  {
    hide Closure, Ends;
    FaultKeepsEnds(s, s');
    forall i | s.reach <= i < Live(s) ensures Spare(s'.stubs[i], s'.chans, ShutBy(s'.ctl, i)) {
      assert Spare(s.stubs[i], s.chans, ShutBy(s.ctl, i));
    }
    SameWires(s, s');
  }

  lemma RewireOutBody(s: State)
    requires Body(s) && s.ctl.Draining?
    ensures Body(RewireOut(s)) && Parked(RewireOut(s), s.ctl.k - 1)
  {
    var k := s.ctl.k;
    RewireOutSplices(s);
    SplicedOutWires(s, RewireOut(s), k);
    SplicedOutCloses(s, RewireOut(s), k);
    SplicedOutEnds(s, RewireOut(s), k);
  }

  lemma SpliceOutMatches(s: State)
    requires Wiring(s) && Phase(s) && Aligned(s) && s.ctl.Draining? && s.fault == NoFault
    ensures Aligned(SpliceOut(s))
  {
    RewireOutSplices(s);
    SplicedOutMatches(s, RewireOut(s), SpliceOut(s), s.ctl.k);
  }

  lemma SplicedOutOpen(s: State, s1: State, k: nat)
    requires SplicedOut(s, s1, k) && Parked(s, k) && AllOpen(s1)
    ensures AllOpen(s)
  {
    assert forall i :: k < i < |s.stubs| ==> s.stubs[i].closed == s1.stubs[i - 1].closed;
  }

  lemma SplicedOutMatches(s: State, s1: State, s': State, k: nat)
    requires SplicedOut(s, s1, k) && Aligned(s) && s.ctl.Draining? && s.ctl.k == k && s.fault == NoFault
    requires s1.fault == NoFault && s1.tidy == s.tidy && s1.chain == s.chain
    requires Parked(s, k) && Parked(s, k - 1) && s' == SpawnFromChain(s1, k - 1)
    ensures Aligned(s')
  {
    RestartOpen(s1, k - 1);
    if AllOpen(s') { SplicedOutOpen(s, s1, k); }
    if s.tidy {
      assert Without(s, k);
      SpawnIdle(s1, k - 1, s.chain[k - 1]);
      SplicedOutToxics(s, s1, s', k);
    }
    hide SpawnFromChain, Matches, SplicedOut;
  }

  lemma SplicedOutToxics(s: State, s1: State, s': State, k: nat)
    requires SplicedOut(s, s1, k) && Without(s, k) && s1.chain == s.chain
    requires s' == s1.(stubs := s1.stubs[k - 1 := s1.stubs[k - 1].(pc := Spawned, toxic := s.chain[k - 1])])
    requires forall i :: 0 <= i < |s.stubs| && s.stubs[i].toxic.LimitData? ==>
      s.stubs[i].state.Some? || s.stubs[i].closed
    ensures Matches(s')
    ensures forall i :: 0 <= i < |s'.stubs| && s'.stubs[i].toxic.LimitData? ==>
      s'.stubs[i].state.Some? || s'.stubs[i].closed
  {
  }

  lemma DrainingKeeps(s: State)
    requires Core(s) && Can(s, Proceed) && s.ctl.Draining?
    ensures Core(Do(s, Proceed))
  {
    hide Wiring, Phase, Closure, Shaking, Ends, Counts, Aligned, SpawnFromChain;
    RewireOutBody(s);
    SpawnFromChainKeeps(RewireOut(s), s.ctl.k - 1);
    SpliceOutMatches(s);
  }

  lemma RewireInBody(s: State)
    requires Body(s) && s.ctl.Adding? && Parked(s, |s.stubs| - 2)
    ensures Body(RewireIn(s))
  {
    RewireInWires(s, RewireIn(s));
    RewireInCloses(s, RewireIn(s));
    RewireInEnds(s, RewireIn(s));
  }

  lemma SpliceInBody(s: State)
    requires Body(s) && s.ctl.Adding? && Parked(s, |s.stubs| - 2)
    ensures Body(SpliceIn(s))
  {
    hide Wiring, Closure, Ends, Counts, Shaking;
    var n := |s.stubs| - 1;
    var s1 := RewireIn(s);
    RewireInBody(s);
    assert Parked(s1, n) && Parked(s1, n - 1);
    var s2 := Spawn(s1, n, s.ctl.t);
    SpawnKeeps(s1, s2, n, s.ctl.t);
    assert Parked(s2, n - 1);
    SpawnFromChainKeeps(s2, n - 1);
  }

  lemma SpliceInMatches(s: State)
    requires Wiring(s) && Phase(s) && Aligned(s) && s.ctl.Adding? && Parked(s, |s.stubs| - 2) && s.fault == NoFault
    ensures Aligned(SpliceIn(s))
  {
    SpliceInOpen(s, SpliceIn(s));
    if s.tidy {
      assert Matches(s);
      SpliceInToxics(s, SpliceIn(s));
    }
    hide SpliceIn, Wiring, Phase, Parked, Matches;
  }

  predicate SameClosed(s: State, s': State) {
    && |s'.stubs| == |s.stubs| && s'.tidy == s.tidy
    && forall i :: 0 <= i < |s.stubs| ==> s'.stubs[i].closed == s.stubs[i].closed
  }

  lemma SpawnOpen(s: State, k: nat, t: Toxic)
    requires k < |s.stubs| && s.stubs[k].pc.Idle?
    ensures SameClosed(s, Spawn(s, k, t)) && Spawn(s, k, t).ctl == s.ctl
  {
    SpawnIdle(s, k, t);
    hide Spawn;
  }

  lemma RestartOpen(s: State, k: nat)
    requires k < |s.stubs| && s.stubs[k].pc.Idle?
    ensures SameClosed(s, SpawnFromChain(s, k)) && SpawnFromChain(s, k).ctl == s.ctl
  {
    if k < |s.chain| { SpawnOpen(s, k, s.chain[k]); }
    hide Spawn;
  }

  lemma SpliceInOpen(s: State, s': State)
    requires s.ctl.Adding? && |s.stubs| >= 2 && s' == SpliceIn(s)
    requires s.stubs[|s.stubs| - 1].pc.Idle? && s.stubs[|s.stubs| - 2].pc.Idle?
    ensures SameClosed(s, s') && s'.ctl.Free?
    ensures AllOpen(s') ==> AllOpen(s)
  {
    var n, s1 := |s.stubs| - 1, RewireIn(s);
    assert SameClosed(s, s1) && s1.ctl.Free? && s1.stubs[n].pc.Idle? && s1.stubs[n - 1].pc.Idle?;
    SpawnIdle(s1, n, s.ctl.t);
    SpawnOpen(s1, n, s.ctl.t);
    RestartOpen(Spawn(s1, n, s.ctl.t), n - 1);
    hide RewireIn, Spawn, SpawnFromChain;
  }

  /** Both goroutines start: the new stub with the new toxic, the stub before it with its chain entry. */
  lemma SpliceInStubs(s: State)
    requires s.ctl.Adding? && |s.stubs| >= 2 && |s.stubs| <= |s.chain| + 1
    requires s.stubs[|s.stubs| - 1].pc.Idle? && s.stubs[|s.stubs| - 2].pc.Idle?
    ensures var n, s1, s' := |s.stubs| - 1, RewireIn(s), SpliceIn(s);
      s' == s1.(stubs := s1.stubs[n := s1.stubs[n].(pc := Spawned, toxic := s.ctl.t)]
                                 [n - 1 := s1.stubs[n - 1].(pc := Spawned, toxic := s.chain[n - 1])])
  {
    hide Spawn;
    var n, s1 := |s.stubs| - 1, RewireIn(s);
    SpawnIdle(s1, n, s.ctl.t);
    SpawnIdle(Spawn(s1, n, s.ctl.t), n - 1, s.chain[n - 1]);
  }

  lemma SpliceInToxics(s: State, s': State)
    requires s.ctl.Adding? && Phase(s) && Parked(s, |s.stubs| - 2) && Matches(s) && s.fault == NoFault
    requires s' == SpliceIn(s)
    ensures |s'.stubs| == |s.stubs| && Matches(s') && s'.fault == NoFault
    ensures forall i :: 0 <= i < |s.stubs| - 1 ==>
      s'.stubs[i].toxic == s.stubs[i].toxic && s'.stubs[i].state == s.stubs[i].state
    ensures s.ctl.t.LimitData? ==> s'.stubs[|s.stubs| - 1].state.Some?
  {
    SpliceInStubs(s);
    hide SpliceIn;
  }

  lemma AddingKeeps(s: State)
    requires Core(s) && Can(s, Proceed) && s.ctl.Adding?
    ensures Core(Do(s, Proceed))
  {
    if s.ctl.shake.ok {
      SpliceInBody(s);
      SpliceInMatches(s);
    } else {
      SpareAdded(s, Advance(s));
      SpareMatches(s, Advance(s));
    }
  }

  lemma SpareMatches(s: State, s': State)
    requires Aligned(s) && s.ctl.Adding? && |s.stubs| >= 2 && s.stubs[|s.stubs| - 2].closed && s.fault == NoFault
    requires var n := |s.stubs| - 1;
      s' == s.(stubs := s.stubs[n := s.stubs[n].(output := s.stubs[n].input)], ctl := Shutting(n, Test, Collected))
    ensures Aligned(s')
  {
    assert s'.stubs[|s.stubs| - 2].closed;
  }
}
