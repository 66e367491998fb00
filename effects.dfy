/**
 * The effect graph builder of the page: which processing stage an effect
 * name selects (the `switch` of playWithEffect), how the playback graph is
 * wired, the guards of playWithEffect and playAudio, and the synthetic
 * impulse response of the reverb stage.
 */
module Effects {
  import opened Wrappers

  /** Decoded audio; its samples are not modelled, only its shape. */
  datatype AudioBuffer = AudioBuffer(numberOfChannels: nat, length: nat, sampleRate: nat)

  /** An audio context; `closed` records that close() was called on it. */
  datatype AudioContext = AudioContext(sampleRate: nat, closed: bool)

  /** The two biquad filter types the page uses. */
  datatype FilterType = Lowpass | Highpass

  /** The one processing stage placed between source and destination. A
      convolver is described by the shape of its impulse buffer. */
  datatype Stage =
    | Convolver(numberOfChannels: nat, length: nat, sampleRate: nat)
    | Delay(delayTime: real)
    | Biquad(filterType: FilterType, frequency: real)
    | Gain(gain: real)

  /** The outcome of the `switch`: a stage, or the default branch with the
      text it alerts. */
  datatype Selection = Selected(stage: Stage) | Unknown(alert: string)

  /** A buffer source node created for one play request. */
  datatype SourceNode = SourceNode(buffer: AudioBuffer)

  datatype Node = Source | StageNode(stage: Stage) | Destination

  /** A `connect` call from one node to another. */
  datatype Edge = Edge(from: Node, to: Node)

  /** A started source together with the connections made before start(). */
  datatype Playback = Playback(source: SourceNode, edges: seq<Edge>)

  /** What one call of playWithEffect or playAudio does: return at the
      guard, reject the effect (a source was created but is neither connected
      nor started), or connect and start a source. */
  datatype PlayOutcome =
    | Skipped
    | Rejected(source: SourceNode, alert: string)
    | Started(playback: Playback)

  /** The effect names the `switch` recognises. */
  const EffectNames: set<string> := {"reverb", "delay", "lowpass", "highpass", "gain+", "gain-"}

  function FilterTypeName(t: FilterType): string
  {
    match t
    case Lowpass => "lowpass"
    case Highpass => "highpass"
  }

  /** The `switch (effect)` of playWithEffect, for a context running at
      `sampleRate`. */
  function SelectStage(effect: string, sampleRate: nat): (r: Selection)
    ensures r.Selected? <==> effect in EffectNames
    ensures r.Unknown? ==> r.alert == "Unknown effect: " + effect
  {
    if effect == "reverb" then Selected(Convolver(2, sampleRate, sampleRate))
    else if effect == "delay" then Selected(Delay(0.3))
    else if effect == "lowpass" then Selected(Biquad(Lowpass, 800.0))
    else if effect == "highpass" then Selected(Biquad(Highpass, 800.0))
    else if effect == "gain+" || effect == "gain-" then
      Selected(Gain(if effect == "gain+" then 1.5 else 0.5))
    else Unknown("Unknown effect: " + effect)
  }

  /** The effect name that selects `stage` in a context at `sampleRate`, if
      some name does: the inverse of the dispatch table. */
  function EffectOf(stage: Stage, sampleRate: nat): Option<string>
  {
    match stage
    case Convolver(c, n, r) =>
      if c == 2 && n == sampleRate && r == sampleRate then Some("reverb") else None
    case Delay(t) => if t == 0.3 then Some("delay") else None
    case Biquad(t, f) => if f == 800.0 then Some(FilterTypeName(t)) else None
    case Gain(g) => if g == 1.5 then Some("gain+") else if g == 0.5 then Some("gain-") else None
  }

  /** The stage parameters of each recognised effect. */
  lemma StageParameters(sampleRate: nat)
    ensures SelectStage("reverb", sampleRate) == Selected(Convolver(2, sampleRate, sampleRate))
    ensures SelectStage("delay", sampleRate) == Selected(Delay(0.3))
    ensures SelectStage("lowpass", sampleRate) == Selected(Biquad(Lowpass, 800.0))
    ensures SelectStage("highpass", sampleRate) == Selected(Biquad(Highpass, 800.0))
    ensures SelectStage("gain+", sampleRate) == Selected(Gain(1.5))
    ensures SelectStage("gain-", sampleRate) == Selected(Gain(0.5))
  {
  }

  /** Every recognised name selects a stage that names it back. */
  lemma SelectThenName(effect: string, sampleRate: nat)
    requires effect in EffectNames
    ensures SelectStage(effect, sampleRate).Selected?
    ensures EffectOf(SelectStage(effect, sampleRate).stage, sampleRate) == Some(effect)
  {
  }

  /** Every stage that has a name is the one that name selects. */
  lemma NameThenSelect(stage: Stage, sampleRate: nat)
    requires EffectOf(stage, sampleRate).Some?
    ensures SelectStage(EffectOf(stage, sampleRate).value, sampleRate) == Selected(stage)
  {
    match stage
    case Convolver(_, _, _) =>
    case Delay(_) =>
    case Biquad(t, _) => match t { case Lowpass => case Highpass => }
    case Gain(_) =>
  }

  /** Distinct recognised effects select distinct stages. */
  lemma SelectInjective(e1: string, e2: string, sampleRate: nat)
    requires e1 in EffectNames && e2 in EffectNames
    requires SelectStage(e1, sampleRate) == SelectStage(e2, sampleRate)
    ensures e1 == e2
  {
    SelectThenName(e1, sampleRate);
    SelectThenName(e2, sampleRate);
  }

  /** The nodes of a chain: the source, the stage if any, the destination. */
  function Chain(stage: Option<Stage>): seq<Node>
  {
    match stage
    case None => [Source, Destination]
    case Some(s) => [Source, StageNode(s), Destination]
  }

  /** One connection between each pair of consecutive nodes of a path. */
  function PathEdges(path: seq<Node>): (r: seq<Edge>)
    ensures |r| == if |path| < 2 then 0 else |path| - 1
  {
    if |path| < 2 then [] else [Edge(path[0], path[1])] + PathEdges(path[1..])
  }

  lemma {:induction false} PathEdgesAt(path: seq<Node>, k: nat)
    requires k + 1 < |path|
    ensures PathEdges(path)[k] == Edge(path[k], path[k + 1])
  {
    if k > 0 {
      PathEdgesAt(path[1..], k - 1);
    }
  }

  /** An edge belongs to a path's connections exactly when it joins two
      consecutive nodes of the path. */
  lemma {:induction false} PathEdgesMembership(path: seq<Node>, e: Edge)
    ensures e in PathEdges(path) <==>
      exists k :: 0 <= k < |path| - 1 && e == Edge(path[k], path[k + 1])
  {
    if |path| >= 2 {
      PathEdgesMembership(path[1..], e);
      if e in PathEdges(path) && e != Edge(path[0], path[1]) {
        var k :| 0 <= k < |path[1..]| - 1 && e == Edge(path[1..][k], path[1..][k + 1]);
        assert e == Edge(path[k + 1], path[k + 2]);
      }
      if exists k :: 0 <= k < |path| - 1 && e == Edge(path[k], path[k + 1]) {
        var k :| 0 <= k < |path| - 1 && e == Edge(path[k], path[k + 1]);
        if k > 0 {
          assert e == Edge(path[1..][k - 1], path[1..][k]);
        }
      }
    }
  }

  /** The `connect` calls of playWithEffect after the `switch`. */
  function Wire(effectNode: Option<Stage>): (edges: seq<Edge>)
    ensures edges == PathEdges(Chain(effectNode))
  {
    match effectNode
    case Some(s) => [Edge(Source, StageNode(s)), Edge(StageNode(s), Destination)]
    case None => [Edge(Source, Destination)]
  }

  /** playWithEffect on the context ref and the `uploadedBuffer` state. */
  function PlayWithEffect(ctx: Option<AudioContext>, buffer: Option<AudioBuffer>, effect: string): (r: PlayOutcome)
    ensures r.Skipped? <==> ctx.None? || buffer.None?
    ensures r.Rejected? <==> ctx.Some? && buffer.Some? && effect !in EffectNames
    ensures r.Rejected? ==> r.source == SourceNode(buffer.value) && r.alert == "Unknown effect: " + effect
    ensures r.Started? ==>
      r.playback.source == SourceNode(buffer.value) &&
      r.playback.edges == PathEdges(Chain(Some(SelectStage(effect, ctx.value.sampleRate).stage)))
  {
    if ctx.None? || buffer.None? then Skipped
    else
      var source := SourceNode(buffer.value);
      match SelectStage(effect, ctx.value.sampleRate)
      case Unknown(alert) => Rejected(source, alert)
      case Selected(stage) => Started(Playback(source, Wire(Some(stage))))
  }

  /** On a recognised effect the graph is source, one stage, destination, and
      nothing else: the stage is fed only by the source and feeds only the
      destination. */
  lemma PlayWithEffectWiring(ctx: AudioContext, buffer: AudioBuffer, effect: string, e: Edge)
    requires effect in EffectNames
    ensures PlayWithEffect(Some(ctx), Some(buffer), effect).Started?
    ensures var stage := SelectStage(effect, ctx.sampleRate).stage;
      e in PlayWithEffect(Some(ctx), Some(buffer), effect).playback.edges <==>
        e == Edge(Source, StageNode(stage)) || e == Edge(StageNode(stage), Destination)
  {
    var stage := SelectStage(effect, ctx.sampleRate).stage;
    var path := Chain(Some(stage));
    PathEdgesMembership(path, e);
    if e == Edge(StageNode(stage), Destination) {
      assert e == Edge(path[1], path[2]);
    }
  }

  /** playAudio on the `audioBuffer` state and the context ref. */
  function PlayAudio(audioBuffer: Option<AudioBuffer>, ctx: Option<AudioContext>): (r: PlayOutcome)
    ensures !r.Rejected?
    ensures r.Skipped? <==> audioBuffer.None? || ctx.None?
    ensures r.Started? ==> r.playback == Playback(SourceNode(audioBuffer.value), PathEdges(Chain(None)))
  {
    if audioBuffer.None? || ctx.None? then Skipped
    else Started(Playback(SourceNode(audioBuffer.value), [Edge(Source, Destination)]))
  }

  /** The decay envelope `(1 - j / length)^2` of the impulse response. */
  function Envelope(j: nat, length: nat): (e: real)
    requires j < length
    ensures 0.0 < e <= 1.0
  {
    var x := 1.0 - j as real / length as real;
    assert 0.0 < x <= 1.0;
    assert x * x <= x * 1.0;
    x * x
  }

  /** Sample `j` of an impulse channel of `length` samples, for a value `u`
      of the random source. */
  function ImpulseSample(u: real, j: nat, length: nat): real
    requires j < length
  {
    (u * 2.0 - 1.0) * Envelope(j, length)
  }

  /** For a value of the random source in [0, 1) every sample lies within
      the envelope, so within [-1, 1]. */
  lemma ImpulseSampleBounds(u: real, j: nat, length: nat)
    requires 0.0 <= u < 1.0 && j < length
    ensures -Envelope(j, length) <= ImpulseSample(u, j, length) < Envelope(j, length)
    ensures -1.0 <= ImpulseSample(u, j, length) <= 1.0
  {
    var e := Envelope(j, length);
    var v := u * 2.0 - 1.0;
    ScaledWithin(v, e);
    assert ImpulseSample(u, j, length) == v * e;
  }

  lemma ScaledWithin(v: real, e: real)
    requires -1.0 <= v < 1.0 && 0.0 < e <= 1.0
    ensures -e <= v * e < e
    ensures -1.0 <= v * e <= 1.0
  {
    assert v * e < 1.0 * e;
    assert -1.0 * e <= v * e;
  }

  /** The envelope decreases strictly along the channel. */
  lemma EnvelopeDecays(j: nat, k: nat, length: nat)
    requires j < k < length
    ensures Envelope(k, length) < Envelope(j, length)
  {
    var xj := 1.0 - j as real / length as real;
    var xk := 1.0 - k as real / length as real;
    assert j as real / length as real < k as real / length as real;
    assert 0.0 < xk < xj;
    assert xk * xk < xk * xj;
    assert xk * xj < xj * xj;
  }

  /** The reverb branch's `createBuffer(2, sampleRate, sampleRate)` and its
      nested loops: every sample of both channels is written, sample `j` of
      channel `i` from the `draw(i, j)`-th value of the random source. */
  method CreateImpulse(sampleRate: nat, draw: (nat, nat) -> real) returns (impulse: array2<real>)
    ensures fresh(impulse)
    ensures impulse.Length0 == 2 && impulse.Length1 == sampleRate
    ensures forall i, j :: 0 <= i < 2 && 0 <= j < sampleRate ==>
      impulse[i, j] == ImpulseSample(draw(i, j), j, sampleRate)
  {
    impulse := new real[2, sampleRate];
    var i := 0;
    while i < impulse.Length0
      invariant 0 <= i <= impulse.Length0
      invariant forall i', j :: 0 <= i' < i && 0 <= j < sampleRate ==>
        impulse[i', j] == ImpulseSample(draw(i', j), j, sampleRate)
    {
      var j := 0;
      while j < impulse.Length1
        invariant 0 <= j <= impulse.Length1
        invariant forall i', j' :: 0 <= i' < i && 0 <= j' < sampleRate ==>
          impulse[i', j'] == ImpulseSample(draw(i', j'), j', sampleRate)
        invariant forall j' :: 0 <= j' < j ==>
          impulse[i, j'] == ImpulseSample(draw(i, j'), j', sampleRate)
      {
        impulse[i, j] := ImpulseSample(draw(i, j), j, impulse.Length1);
        j := j + 1;
      }
      i := i + 1;
    }
  }
}
