/** The stateful rules against offline definitions over the whole tick sequence. */
module RuleRefinement {
  import opened Domain
  import opened Rules

  // ------------------------------------------------------------ trailing stop

  /** The rule after the first n ticks; a tick without a premium is a gap. */
  function Trailed(r: ManagementRule, long: bool, ticks: seq<Option<real>>, times: seq<Time>, n: nat): ManagementRule
    requires ValidSpec(TrailingSl, r.parameters) && n <= |ticks| == |times|
    ensures Trailed(r, long, ticks, times, n).parameters == r.parameters
  {
    if n == 0 then r
    else
      var before := Trailed(r, long, ticks, times, n - 1);
      if before.Done() then before else TrailingTick(before, long, ticks[n - 1], times[n - 1]).1
  }

  /** The first of the first n ticks at which the rule arms. */
  function ArmedAt(p: RuleParameters, long: bool, ticks: seq<Option<real>>, n: nat): (a: Option<nat>)
    requires n <= |ticks|
    ensures a.Some? ==> a.value < n && ticks[a.value].Some?
  {
    if n == 0 then None
    else
      var earlier := ArmedAt(p, long, ticks, n - 1);
      if earlier.Some? then earlier
      else if ticks[n - 1].Some? && Activates(long, p.activateAtPremium, ticks[n - 1].value) then Some(n - 1)
      else None
  }

  /** The best premium over ticks `from` to n - 1: the maximum for a long position, the minimum for a short one. */
  function Best(long: bool, ticks: seq<Option<real>>, from: nat, n: nat): real
    requires from < n <= |ticks| && ticks[from].Some?
  {
    if n == from + 1 then ticks[from].value
    else
      var best := Best(long, ticks, from, n - 1);
      if ticks[n - 1].Some? && Improves(long, ticks[n - 1].value, best) then ticks[n - 1].value else best
  }

  /** Best is attained at some tick in the range and no tick in the range beats it. */
  lemma {:induction false} BestIsExtreme(long: bool, ticks: seq<Option<real>>, from: nat, n: nat)
    requires from < n <= |ticks| && ticks[from].Some?
    ensures exists i :: from <= i < n && ticks[i] == Some(Best(long, ticks, from, n))
    ensures forall i | from <= i < n && ticks[i].Some? :: !Improves(long, ticks[i].value, Best(long, ticks, from, n))
  {
    if n == from + 1 {
      assert ticks[from] == Some(Best(long, ticks, from, n));
    } else {
      BestIsExtreme(long, ticks, from, n - 1);
      if Best(long, ticks, from, n) != Best(long, ticks, from, n - 1) {
        assert ticks[n - 1] == Some(Best(long, ticks, from, n));
      }
    }
  }

  /** Tick i is past the offline stop: the best premium since arming, scaled by the trail. */
  predicate HitAt(p: RuleParameters, long: bool, ticks: seq<Option<real>>, i: nat)
    requires ValidSpec(TrailingSl, p) && i < |ticks|
  {
    var armed := ArmedAt(p, long, ticks, i + 1);
    && ticks[i].Some? && armed.Some?
    && Past(long, ticks[i].value, Stop(long, Best(long, ticks, armed.value, i + 1), p.trailPct.value))
  }

  predicate Unarmed(r: ManagementRule) { r.status == RuleActive && !r.state.armed }

  /** The incremental rule carries exactly the offline quantities: armed when some tick armed it,
      watermark the best premium since then, and TRIGGERED when some tick was past the stop. */
  lemma {:induction false} TrailingState(r: ManagementRule, long: bool, ticks: seq<Option<real>>, times: seq<Time>, n: nat)
    requires ValidSpec(TrailingSl, r.parameters) && Unarmed(r) && n <= |ticks| == |times|
    ensures var r' := Trailed(r, long, ticks, times, n);
      var armed := ArmedAt(r.parameters, long, ticks, n);
      && (r'.status == RuleTriggered <==> exists i :: 0 <= i < n && HitAt(r.parameters, long, ticks, i))
      && r'.status != RuleCancelled
      && (r'.status != RuleTriggered ==>
            if armed.None? then r' == r
            else r'.status == RuleArmed && r'.state.armed
                 && r'.state.watermark == Some(Best(long, ticks, armed.value, n)))
  {
    if n == 0 {
    } else {
      TrailingState(r, long, ticks, times, n - 1);
      var before, after := Trailed(r, long, ticks, times, n - 1), Trailed(r, long, ticks, times, n);
      if before.status == RuleTriggered {
        var i :| 0 <= i < n - 1 && HitAt(r.parameters, long, ticks, i);
        assert 0 <= i < n && HitAt(r.parameters, long, ticks, i);
      } else {
        assert after.status == RuleTriggered <==> HitAt(r.parameters, long, ticks, n - 1);
      }
    }
  }

  /** Trailing-stop refinement: for a position of constant sign, any ticks and any gaps, the rule
      triggers exactly at the first tick past the offline stop. */
  lemma TrailingStopRefines(r: ManagementRule, long: bool, ticks: seq<Option<real>>, times: seq<Time>, n: nat)
    requires ValidSpec(TrailingSl, r.parameters) && Unarmed(r) && n < |ticks| == |times|
    ensures Trailed(r, long, ticks, times, n).status != RuleTriggered
            && Trailed(r, long, ticks, times, n + 1).status == RuleTriggered
        <==> HitAt(r.parameters, long, ticks, n) && forall i | 0 <= i < n :: !HitAt(r.parameters, long, ticks, i)
  {
    TrailingState(r, long, ticks, times, n);
    TrailingState(r, long, ticks, times, n + 1);
  }

  lemma NotNegative(a: real, b: real)
    requires 0.0 <= a && 0.0 <= b
    ensures 0.0 <= a * b
  {
  }

  lemma DifferenceScaled(a: real, b: real, c: real)
    ensures (b - a) * c == b * c - a * c
  {
  }

  lemma ScaledDown(a: real, b: real, c: real)
    requires 0.0 < c && a <= b
    ensures a * c <= b * c
  {
    NotNegative(b - a, c);
    DifferenceScaled(a, b, c);
  }

  /** A better premium has a better stop. */
  lemma StopMoves(long: bool, w: real, w': real, pct: real)
    requires 0.0 < pct < 100.0 && (if long then w <= w' else w' <= w)
    ensures if long then Stop(long, w, pct) <= Stop(long, w', pct) else Stop(long, w', pct) <= Stop(long, w, pct)
  {
    var scale := if long then 1.0 - pct / 100.0 else 1.0 + pct / 100.0;
    assert 0.0 < scale;
    if long { ScaledDown(w, w', scale); } else { ScaledDown(w', w, scale); }
  }

  lemma PastOwnStop(long: bool, p: real, pct: real)
    requires 0.0 < pct < 100.0
    ensures Past(long, p, Stop(long, p, pct)) <==> p <= 0.0
  {
    var c := pct / 100.0;
    assert p * (1.0 - c) == p - p * c && p * (1.0 + c) == p + p * c;
    if p > 0.0 { assert p * c > 0.0; } else { ScaledDown(p, 0.0, c); }
  }

  /** The tick that arms or ratchets the stop is its own watermark, so it triggers if and only
      if its premium is not positive: with positive premiums it never does. */
  lemma ArmingTickTriggersIff(r: ManagementRule, long: bool, premium: real, at: Time)
    requires ValidSpec(TrailingSl, r.parameters)
    requires !r.state.armed ==> Activates(long, r.parameters.activateAtPremium, premium)
    requires r.state.armed && r.state.watermark.Some? ==> Improves(long, premium, r.state.watermark.value)
    ensures TrailingTick(r, long, Some(premium), at).1.state.watermark == Some(premium)
    ensures TrailingTick(r, long, Some(premium), at).0.triggered <==> premium <= 0.0
  {
    PastOwnStop(long, premium, r.parameters.trailPct.value);
  }

  /** Once armed, the stop only moves in the position's favour: up for long, down for short. */
  lemma StopOnlyRatchets(r: ManagementRule, long: bool, premium: Option<real>, at: Time)
    requires ValidSpec(TrailingSl, r.parameters) && r.state.armed
    requires r.state.watermark.Some?
    requires r.state.effectiveStop == Some(Stop(long, r.state.watermark.value, r.parameters.trailPct.value))
    ensures var r' := TrailingTick(r, long, premium, at).1;
      && r'.state.armed && r'.state.watermark.Some?
      && r'.state.effectiveStop == Some(Stop(long, r'.state.watermark.value, r.parameters.trailPct.value))
      && (if long then r'.state.effectiveStop.value >= r.state.effectiveStop.value
          else r'.state.effectiveStop.value <= r.state.effectiveStop.value)
  {
    if premium.Some? {
      var w, w' := r.state.watermark.value, TrailingTick(r, long, premium, at).1.state.watermark.value;
      assert if long then w <= w' else w' <= w;
      StopMoves(long, w, w', r.parameters.trailPct.value);
    }
  }

  // -------------------------------------------------------------- profit lock

  function Locked(r: ManagementRule, pnls: seq<Option<real>>, times: seq<Time>, n: nat): ManagementRule
    requires ValidSpec(ProfitLock, r.parameters) && n <= |pnls| == |times|
    ensures Locked(r, pnls, times, n).parameters == r.parameters
  {
    if n == 0 then r
    else
      var before := Locked(r, pnls, times, n - 1);
      if before.Done() then before else ProfitLockTick(before, pnls[n - 1], times[n - 1]).1
  }

  predicate ReachedActivation(p: RuleParameters, pnls: seq<Option<real>>, n: nat)
    requires ValidSpec(ProfitLock, p) && n <= |pnls|
  {
    exists j :: 0 <= j < n && pnls[j].Some? && pnls[j].value >= p.activatePnl.value
  }

  /** Tick i is at or below the floor, and some earlier tick was at or above the activation level. */
  predicate FloorHitAt(p: RuleParameters, pnls: seq<Option<real>>, i: nat)
    requires ValidSpec(ProfitLock, p) && i < |pnls|
  {
    pnls[i].Some? && pnls[i].value <= p.floorPnl.value && ReachedActivation(p, pnls, i)
  }

  lemma {:induction false} ProfitLockState(r: ManagementRule, pnls: seq<Option<real>>, times: seq<Time>, n: nat)
    requires ValidSpec(ProfitLock, r.parameters) && Unarmed(r) && n <= |pnls| == |times|
    ensures var r' := Locked(r, pnls, times, n);
      && (r'.status == RuleTriggered <==> exists i :: 0 <= i < n && FloorHitAt(r.parameters, pnls, i))
      && r'.status != RuleCancelled
      && (r'.status != RuleTriggered ==> (r'.state.armed <==> ReachedActivation(r.parameters, pnls, n)))
  {
    if n == 0 {
    } else {
      ProfitLockState(r, pnls, times, n - 1);
      var before, after := Locked(r, pnls, times, n - 1), Locked(r, pnls, times, n);
      if before.status == RuleTriggered {
        var i :| 0 <= i < n - 1 && FloorHitAt(r.parameters, pnls, i);
        assert 0 <= i < n && FloorHitAt(r.parameters, pnls, i);
      } else {
        assert ReachedActivation(r.parameters, pnls, n) <==>
          ReachedActivation(r.parameters, pnls, n - 1)
          || (pnls[n - 1].Some? && pnls[n - 1].value >= r.parameters.activatePnl.value);
        assert after.status == RuleTriggered <==> FloorHitAt(r.parameters, pnls, n - 1);
      }
    }
  }

  /** Profit-lock refinement: the rule triggers exactly at the first tick at or below the floor
      after a tick at or above the activation level; the arming tick never triggers. */
  lemma ProfitLockRefines(r: ManagementRule, pnls: seq<Option<real>>, times: seq<Time>, n: nat)
    requires ValidSpec(ProfitLock, r.parameters) && Unarmed(r) && n < |pnls| == |times|
    ensures Locked(r, pnls, times, n).status != RuleTriggered
            && Locked(r, pnls, times, n + 1).status == RuleTriggered
        <==> FloorHitAt(r.parameters, pnls, n) && forall i | 0 <= i < n :: !FloorHitAt(r.parameters, pnls, i)
    ensures !Locked(r, pnls, times, n).state.armed && Locked(r, pnls, times, n + 1).state.armed ==>
              Locked(r, pnls, times, n + 1).status == RuleArmed
  {
    ProfitLockState(r, pnls, times, n);
    ProfitLockState(r, pnls, times, n + 1);
  }

  // ----------------------------------------------------- as the engine runs them

  /** One rule through n evaluations of its position, each with its own snapshot. */
  function RuleRun(r: ManagementRule, profile: ManagementProfile, inputs: seq<(Position, ManagementSnapshot)>, n: nat)
    : ManagementRule
    requires ValidSpec(r.ruleType, r.parameters) && n <= |inputs|
    ensures var r' := RuleRun(r, profile, inputs, n); r'.ruleType == r.ruleType && r'.parameters == r.parameters
  {
    if n == 0 then r
    else
      var before := RuleRun(r, profile, inputs, n - 1);
      EvaluationTriggersOnce(inputs[n - 1].0, profile, before, inputs[n - 1].1);
      EvaluateRule(inputs[n - 1].0, profile, before, inputs[n - 1].1).1
  }

  function Premiums(inputs: seq<(Position, ManagementSnapshot)>): seq<Option<real>> {
    seq(|inputs|, i requires 0 <= i < |inputs| => PremiumOf(inputs[i].0, inputs[i].1))
  }

  function Pnls(inputs: seq<(Position, ManagementSnapshot)>): seq<Option<real>> {
    seq(|inputs|, i requires 0 <= i < |inputs| => EffectivePnl(inputs[i].0, inputs[i].1))
  }

  function Times(inputs: seq<(Position, ManagementSnapshot)>): seq<Time> {
    seq(|inputs|, i requires 0 <= i < |inputs| => inputs[i].1.observedAt)
  }

  /** Evaluating a trailing rule while the position keeps its sign is the tick sequence above. */
  lemma {:induction false} TrailingRun(r: ManagementRule, profile: ManagementProfile, long: bool,
                                       inputs: seq<(Position, ManagementSnapshot)>, n: nat)
    requires r.ruleType == TrailingSl && ValidSpec(TrailingSl, r.parameters) && n <= |inputs|
    requires forall i | 0 <= i < |inputs| :: inputs[i].0.facts.quantity > 0 <==> long
    ensures RuleRun(r, profile, inputs, n) == Trailed(r, long, Premiums(inputs), Times(inputs), n)
  {
    if n > 0 { TrailingRun(r, profile, long, inputs, n - 1); }
  }

  lemma {:induction false} ProfitLockRun(r: ManagementRule, profile: ManagementProfile,
                                         inputs: seq<(Position, ManagementSnapshot)>, n: nat)
    requires r.ruleType == ProfitLock && ValidSpec(ProfitLock, r.parameters) && n <= |inputs|
    ensures RuleRun(r, profile, inputs, n) == Locked(r, Pnls(inputs), Times(inputs), n)
  {
    if n > 0 { ProfitLockRun(r, profile, inputs, n - 1); }
  }
}
