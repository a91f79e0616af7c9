/** Depth from echo time through a sound-velocity profile, as
    `hyscan_echo_svp_calc` of hyscan-echo-svp.c computes it. The profile is a
    list of layers, each giving the depth at which it starts and the sound
    velocity below it. Sound travels down and back, so a velocity v covers
    v / 2 metres of depth per second of echo time; above the first layer the
    velocity is 1500 m/s, that is 750 m of depth per second. */
module EchoSvp {
  import opened Common

  /** HyScanSoundVelocity: one layer of the profile. */
  datatype SoundVelocity = SoundVelocity(depth: real, velocity: real)

  /** The depth rate above the first layer, in metres per second of echo. */
  const SurfaceRate: real := 750.0

  /** The error answer. */
  const ProfileError: real := -1.0

  function Min(a: real, b: real): real
  {
    if a < b then a else b
  }

  /** The echo time a step may spend reaching a layer `gap` metres below the
      current depth at `rate` metres per second, given `time` left: the
      smaller of the time to the layer and the time left, and None when the
      layer lies on the wrong side (above the current depth while descending,
      or below it while the rate is negative). A zero rate never reaches the
      layer, so the step spends all the time left; in floating point the
      quotient is then an infinity or NaN that MIN passes over in favour of
      the time left, or -infinity for a layer above. */
  function StepTime(gap: real, rate: real, time: real): (r: Option<real>)
    ensures time >= 0.0 && r.Some? ==> 0.0 <= r.value <= time
  {
    if rate == 0.0 then
      if gap < 0.0 then None else Some(time)
    else
      var st := gap / rate;
      if st < 0.0 then None else Some(Min(st, time))
  }

  /** A step fails exactly when the layer lies on the wrong side, and
      otherwise spends the smaller of the time to the layer and the time
      left. */
  lemma StepTimeMeaning(gap: real, rate: real, time: real)
    ensures StepTime(gap, rate, time).None? <==> (gap < 0.0 && rate >= 0.0) || (gap > 0.0 && rate < 0.0)
    ensures StepTime(gap, rate, time).Some? && rate != 0.0 ==> StepTime(gap, rate, time).value == Min(gap / rate, time)
  {
    if rate != 0.0 {
      QuotientSign(gap, rate);
    }
  }

  /** The sign of a quotient. */
  lemma QuotientSign(gap: real, rate: real)
    requires rate != 0.0
    ensures gap / rate < 0.0 <==> (gap < 0.0 && rate > 0.0) || (gap > 0.0 && rate < 0.0)
  {
    var q := gap / rate;
    assert gap == q * rate;
    ProductSign(q, rate);
  }

  /** The sign of a product. */
  lemma ProductSign(a: real, b: real)
    ensures a * b < 0.0 <==> (a < 0.0 && b > 0.0) || (a > 0.0 && b < 0.0)
  {
  }

  /** Where the walk stands: the echo time left, the depth reached and the
      depth rate of the layer being crossed. */
  datatype State = State(time: real, depth: real, rate: real)

  /** Entering a layer: spend the time to reach it (or all the time left),
      descend at the current rate meanwhile, and take on the layer's rate,
      half its sound velocity. None is a profile error. */
  function Enter(layer: SoundVelocity, s: State): (r: Option<State>)
    ensures r.Some? ==> r.value.rate == layer.velocity / 2.0
    ensures s.time >= 0.0 && r.Some? ==> 0.0 <= r.value.time <= s.time
  {
    match StepTime(layer.depth - s.depth, s.rate, s.time)
    case None => None
    case Some(st) => Some(Next(layer, s, st))
  }

  /** The state after spending st of the time left to enter a layer. */
  function Next(layer: SoundVelocity, s: State, st: real): State
  {
    State(s.time - st, s.depth + s.rate * st, layer.velocity / 2.0)
  }

  /** The rest of the walk through the layers not yet entered. It stops when
      the layers or the time run out and then descends the time left at the
      current rate. */
  function Walk(layers: seq<SoundVelocity>, s: State): real
    decreases |layers|
  {
    if |layers| == 0 || s.time <= 0.0 then s.depth + s.time * s.rate
    else match Enter(layers[0], s)
      case None => ProfileError
      case Some(next) => Walk(layers[1..], next)
  }

  /** The state before the first layer. */
  function Surface(time: real): State
  {
    State(time, 0.0, SurfaceRate)
  }

  /** What `hyscan_echo_svp_calc` answers for an echo time and a profile. */
  function Depth(time: real, svp: seq<SoundVelocity>): (r: real)
    ensures time < 0.0 ==> r == ProfileError
    ensures time >= 0.0 && |svp| == 0 ==> r == SurfaceRate * time
  {
    if time < 0.0 then ProfileError else Walk(svp, Surface(time))
  }

  /** `hyscan_echo_svp_calc`: reject a negative time, then walk the layers
      while time is left, consuming per layer the time to reach it, and
      finally descend the time left at the last rate. `steps` counts the
      layers entered. */
  method Calc(time: real, svp: seq<SoundVelocity>) returns (depth: real, ghost steps: nat)
    ensures depth == Depth(time, svp)
    ensures steps <= |svp|
  {
    steps := 0;
    if time < 0.0 {
      return ProfileError, steps;
    }
    var velocity := SurfaceRate;
    depth := 0.0;
    var t := time;
    var k := 0;
    while k < |svp| && t > 0.0
      invariant 0 <= k <= |svp| && steps == k
      invariant 0.0 <= t <= time
      invariant Walk(svp[k..], State(t, depth, velocity)) == Walk(svp, Surface(time))
    {
      ghost var before := State(t, depth, velocity);
      var entered;
      entered, t, depth, velocity := EnterLayer(svp[k], t, depth, velocity);
      if !entered {
        WalkErrorAt(svp, k, before);
        return ProfileError, steps;
      }
      WalkStepAt(svp, k, before, State(t, depth, velocity));
      k := k + 1;
      steps := steps + 1;
    }
    depth := depth + t * velocity;
  }

  /** The body of the loop: the time to reach the layer, capped by the time
      left, then the descent, the layer's rate and the time spent. */
  method EnterLayer(sv: SoundVelocity, time: real, depth: real, velocity: real)
    returns (entered: bool, time': real, depth': real, velocity': real)
    ensures entered <==> Enter(sv, State(time, depth, velocity)).Some?
    ensures entered ==> Enter(sv, State(time, depth, velocity)) == Some(State(time', depth', velocity'))
  {
    var st := StepTime(sv.depth - depth, velocity, time);
    if st.None? {
      return false, time, depth, velocity;
    }
    entered := true;
    depth' := depth + velocity * st.value;
    velocity' := sv.velocity / 2.0;
    time' := time - st.value;
  }

  /** One step of the walk: entering the first layer. */
  lemma WalkStep(layers: seq<SoundVelocity>, s: State, next: State)
    requires |layers| > 0 && s.time > 0.0 && Enter(layers[0], s) == Some(next)
    ensures Walk(layers, s) == Walk(layers[1..], next)
  {
  }

  /** The same step for the layers from index k on. */
  lemma WalkStepAt(svp: seq<SoundVelocity>, k: nat, s: State, next: State)
    requires k < |svp| && s.time > 0.0 && Enter(svp[k], s) == Some(next)
    ensures Walk(svp[k..], s) == Walk(svp[k + 1..], next)
  {
    assert svp[k..][0] == svp[k] && svp[k..][1..] == svp[k + 1..];
    WalkStep(svp[k..], s, next);
  }

  /** A layer that cannot be entered ends the walk from index k with an error. */
  lemma WalkErrorAt(svp: seq<SoundVelocity>, k: nat, s: State)
    requires k < |svp| && s.time > 0.0 && Enter(svp[k], s).None?
    ensures Walk(svp[k..], s) == ProfileError
  {
    assert svp[k..][0] == svp[k];
  }

  /** A layer that starts above the current depth, met while descending
      with time left, is a profile error. */
  lemma LayerAboveIsError(layers: seq<SoundVelocity>, s: State)
    requires s.time > 0.0 && |layers| > 0 && s.rate >= 0.0 && layers[0].depth < s.depth
    ensures Walk(layers, s) == ProfileError
  {
  }

  /** A step that reaches its layer at a positive rate ends exactly at the
      depth of that layer. */
  lemma StepLandsOnLayer(layer: SoundVelocity, depth: real, rate: real, time: real)
    requires rate > 0.0 && layer.depth >= depth && (layer.depth - depth) / rate <= time
    ensures StepTime(layer.depth - depth, rate, time) == Some((layer.depth - depth) / rate)
    ensures depth + rate * ((layer.depth - depth) / rate) == layer.depth
  {
  }

  /** Every layer's velocity is non-negative. */
  predicate NonNegativeVelocities(layers: seq<SoundVelocity>)
  {
    forall k :: 0 <= k < |layers| ==> layers[k].velocity >= 0.0
  }

  /** With non-negative velocities the walk never rises: it fails, or it ends
      at or below the depth it started from. */
  lemma {:induction false} WalkNeverRises(layers: seq<SoundVelocity>, s: State)
    requires s.time >= 0.0 && s.rate >= 0.0 && NonNegativeVelocities(layers)
    ensures Walk(layers, s) == ProfileError || Walk(layers, s) >= s.depth
    decreases |layers|
  {
    if |layers| == 0 || s.time <= 0.0 {
      NonNegativeProduct(s.time, s.rate);
    } else {
      var st := StepTime(layers[0].depth - s.depth, s.rate, s.time);
      if st.Some? {
        var next := Enter(layers[0], s).value;
        NonNegativeProduct(s.rate, st.value);
        assert next.depth >= s.depth;
        assert NonNegativeVelocities(layers[1..]) by {
          forall k | 0 <= k < |layers[1..]|
            ensures layers[1..][k].velocity >= 0.0
          {
            assert layers[1..][k] == layers[k + 1];
          }
        }
        WalkStep(layers, s, next);
        WalkNeverRises(layers[1..], next);
      }
    }
  }

  lemma NonNegativeProduct(a: real, b: real)
    requires a >= 0.0 && b >= 0.0
    ensures a * b >= 0.0
  {
  }

  /** With non-negative velocities a successful depth is never negative. */
  lemma DepthNonNegative(time: real, svp: seq<SoundVelocity>)
    requires NonNegativeVelocities(svp)
    ensures Depth(time, svp) == ProfileError || Depth(time, svp) >= 0.0
  {
    if time >= 0.0 {
      WalkNeverRises(svp, Surface(time));
    }
  }

  /** Once the time is spent the walk stops, whatever layers remain: the
      loop ends early rather than visiting them. */
  lemma SpentTimeStops(layers: seq<SoundVelocity>, depth: real, rate: real)
    ensures Walk(layers, State(0.0, depth, rate)) == depth
  {
  }
}
