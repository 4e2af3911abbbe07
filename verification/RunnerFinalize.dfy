/**
 From anywhere to the end: an actor can be brought to run `on_kill` and `on_finalize`, exactly
 unless a kill has stranded it.
 */
module RunnerFinalize {
  import opened MailboxRing
  import opened RunnerModel
  import opened RunnerInvariant
  import opened RunnerRuns
  import opened RunnerKill

  // --------------------------------------------------------- what is counted

  predicate RunsOnKill(s: State, a: Action)
    requires Shape(s) && Enabled(s, a)
  {
    a.FrameStep? && s.frames[a.d].OnKill?
  }

  predicate RunsOnFinalize(s: State, a: Action)
    requires Shape(s) && Enabled(s, a)
  {
    a.FrameStep? && s.frames[a.d].OnFinalize?
  }

  predicate SameCounts(s: State, s': State) { s'.log.kills == s.log.kills && s'.log.finals == s.log.finals }

  lemma OtherFrameCounts(s: State, d: nat)
    requires Shape(s) && Enabled(s, FrameStep(d)) && !InFinalize(s.frames[d])
    ensures SameCounts(s, FrameAdvance(s, d))
  {
    var pc := s.frames[d];
    if pc.Deq? { assert SameCounts(s, DequeueAdvance(s, d)); }
    else if InPoll(pc) { assert SameCounts(s, PollAdvance(s, d)); }
    else if InDrain(pc) { assert SameCounts(s, DrainAdvance(s, d)); }
    else if InPeek(pc) { assert SameCounts(s, PeekAdvance(s, d)); }
    else if InOwnKill(pc) { assert SameCounts(s, OwnKillAdvance(s, d)); }
  }

  lemma FinalizeCounts(s: State, d: nat)
    requires Shape(s) && Enabled(s, FrameStep(d)) && InFinalize(s.frames[d])
    ensures var s', a := FrameAdvance(s, d), FrameStep(d);
            && s'.log.kills == s.log.kills + (if RunsOnKill(s, a) then 1 else 0)
            && s'.log.finals == s.log.finals + (if RunsOnFinalize(s, a) then 1 else 0)
  {
    assert FrameAdvance(s, d) == FinAdvance(s, d);
  }

  lemma PostCounts(s: State, t: nat)
    requires Shape(s) && Enabled(s, PostStep(t))
    ensures SameCounts(s, PostAdvance(s, t))
  {
  }

  /** Only these two frames count. */
  lemma Counts(s: State, a: Action)
    requires Shape(s) && Enabled(s, a)
    ensures var s' := Step(s, a);
            && s'.log.kills == s.log.kills + (if RunsOnKill(s, a) then 1 else 0)
            && s'.log.finals == s.log.finals + (if RunsOnFinalize(s, a) then 1 else 0)
  {
    match a
    case FrameStep(d) => if InFinalize(s.frames[d]) { FinalizeCounts(s, d); } else { OtherFrameCounts(s, d); }
    case PostStep(t) => PostCounts(s, t);
    case KillStep(t) => assert SameCounts(s, KillAdvance(s, t));
    case WakeStep(w) => assert SameCounts(s, WakeAdvance(s, w));
    case _ => assert SameCounts(s, Step(s, a));
  }

  // ------------------------------------------------- from the stop to the end

  ghost predicate CanFinalize(s: State) {
    exists acts, s' :: Leads(s, acts, s', true) && s'.log.finals == 1
  }

  lemma StepsToFinalize(s: State, a: Action)
    requires Shape(s) && Enabled(s, a) && Contract(s, a) && CanFinalize(Step(s, a))
    ensures CanFinalize(s)
  {
    var acts, s' :| Leads(Step(s, a), acts, s', true) && s'.log.finals == 1;
    assert ([a] + acts)[1..] == acts;
    assert Leads(s, [a] + acts, s', true);
  }

  function FinRank(pc: Pc, left: nat): nat {
    if pc.Deq? then
      10 * left + (match pc.c case Index => 8 case Load(_) => 7 case Read(_) => 6 case Release(_, _) => 5 case _ => 9)
    else if pc.FinSlot? then 4
    else if pc.FinInactive? then 3
    else if pc.FinClear? then 2
    else if pc.OnKill? then 1
    else 0
  }

  function Left(r: Ring): nat { if |r.taken| <= |r.claimed| then |r.claimed| - |r.taken| else 0 }

  lemma FinRankDrops(s: State, d: nat)
    requires Shape(s) && Enabled(s, FrameStep(d)) && Finalizing(s.frames[d]) && !s.frames[d].OnFinalize?
    requires s.frames[d].Deq? && s.frames[d].c.Release? ==> |s.ring.taken| < |s.ring.claimed|
    ensures var s' := FrameAdvance(s, d); FinRank(s'.frames[d], Left(s'.ring)) < FinRank(s.frames[d], Left(s.ring))
  {
    if s.frames[d].Deq? {
      assert FrameAdvance(s, d) == DequeueAdvance(s, d);
    } else {
      assert FrameAdvance(s, d) == FinAdvance(s, d);
    }
  }

  /** The finalizing frame runs on the owner dispatcher and is never held up. */
  lemma FinalizingRuns(s: State, d: nat)
    requires Inv(s, AFrame(d)) && s.life.Stopped?
    ensures d == s.owner && d < |s.frames| && Finalizing(s.frames[d]) && Enabled(s, FrameStep(d))
    ensures s.frames[d].Deq? && s.frames[d].c.Release? ==> |s.ring.taken| < |s.ring.claimed|
  {
    FrameHolds(s, AFrame(d), d);
  }

  lemma {:induction false} FinalizesFrom(s: State, d: nat)
    requires Inv(s, AFrame(d)) && s.life.Stopped? && d < |s.frames|
    ensures CanFinalize(s)
    decreases FinRank(s.frames[d], Left(s.ring))
  {
    FinalizingRuns(s, d);
    var a := FrameStep(d);
    var s' := Step(s, a);
    var h' := FrameStepKeeps(s, AFrame(d), d);
    StoppedStep(s, a);
    if s'.log.finals == 1 {
      assert Leads(s', [], s', true);
    } else {
      FinalizerIsOwner(s', h');
      FinRankDrops(s, d);
      FinalizesFrom(s', d);
    }
    StepsToFinalize(s, a);
  }

  lemma FinalizerIsOwner(s: State, h: Holder)
    requires Inv(s, h) && s.life.Stopped? && s.log.finals != 1
    ensures h == AFrame(s.owner)
  {
  }

  lemma StoppedFinalizes(s: State)
    requires Reachable(s) && s.life.Stopped?
    ensures CanFinalize(s)
  {
    var h := ReachableInv(s);
    if s.log.finals == 1 {
      assert Leads(s, [], s, true);
    } else {
      FinalizerIsOwner(s, h);
      FinalizesFrom(s, s.owner);
    }
  }

  // ------------------------------------------------------- from anywhere to it

  lemma LeadsToFinalize(s: State, acts: seq<Action>, mid: State)
    requires Leads(s, acts, mid, true) && CanFinalize(mid)
    ensures CanFinalize(s)
  {
    var more, s' :| Leads(mid, more, s', true) && s'.log.finals == 1;
    LeadsOn(s, acts, mid, more, s', true);
  }

  lemma KilledFinalizes(s: State)
    requires Reachable(s) && s.life.Killing? && Shape(s) && !Doomed(s)
    ensures CanFinalize(s)
  {
    KilledCanStopExactlyUnlessDoomed(s);
    var acts, s' :| Leads(s, acts, s', true) && s'.life.Stopped?;
    ReachableOn(s, acts, s');
    StoppedFinalizes(s');
    LeadsToFinalize(s, acts, s');
  }

  lemma {:induction false} SomeoneElse(taken: set<nat>) returns (t: nat)
    ensures forall u :: u in taken ==> u < t
  {
    if taken == {} {
      t := 0;
    } else {
      var u :| u in taken;
      var v := SomeoneElse(taken - {u});
      t := if v > u then v else u + 1;
      assert forall w :: w in taken ==> w == u || w in taken - {u};
    }
  }

  /** Someone new kills a running actor, and has not swapped the flag yet: no window is missed. */
  lemma RunningFinalizes(s: State)
    requires Reachable(s) && s.life.Running?
    ensures CanFinalize(s)
  {
    var h := ReachableInv(s);
    var t := SomeoneElse(s.killers.Keys);
    var s1 := Step(s, BeginKill(t));
    LeadsOne(s, BeginKill(t), true);
    ReachableOn(s, [BeginKill(t)], s1);
    var h1 := ReachableInv(s1);
    var s2 := Step(s1, KillStep(t));
    LeadsOne(s1, KillStep(t), true);
    ReachableOn(s1, [KillStep(t)], s2);
    var h2 := ReachableInv(s2);
    assert s2.killers[t].KillSwapFlag?;
    KilledFinalizes(s2);
    StepsToFinalize(s1, KillStep(t));
    StepsToFinalize(s, BeginKill(t));
  }

  /** An actor in any reachable state can be brought to its end, with `on_kill` and `on_finalize`
      run, if and only if it is not stranded by a kill. */
  lemma CanFinalizeExactlyUnlessDoomed(s: State)
    requires Reachable(s)
    ensures Shape(s)
    ensures CanFinalize(s) <==> !Doomed(s)
  {
    var h := ReachableInv(s);
    if Doomed(s) {
      forall acts, s' | Leads(s, acts, s', true) ensures s'.log.finals != 1 {
        DoomedForever(s, h, acts, s');
        ReachableOn(s, acts, s');
        FinalizedOnce(s', 0);
      }
    } else {
      match s.life
      case Running => RunningFinalizes(s);
      case Killing => KilledFinalizes(s);
      case Stopped => StoppedFinalizes(s);
    }
  }
}
