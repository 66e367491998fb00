/**
 * The page component as an object: its React state and refs are fields, and
 * each handler updates them in place. Every method's new state is the
 * matching transition of the Session module.
 */
module HomePage {
  import opened Wrappers
  import opened Effects
  import Turn
  import Session

  class Home {
    // React state and refs
    var isRecording: bool
    var uploadedBuffer: Option<AudioBuffer>
    var isFileUploaded: bool
    var audioContext: Option<AudioContext>
    var sourceNode: Option<SourceNode>
    var streamActive: bool
    var audioBuffer: Option<AudioBuffer>
    var audioFile: Option<Session.AudioFile>
    // the recognition hook
    var transcript: string
    var listening: bool
    // the browser's speech queue, pending timers, alerts and started sources
    var utterances: seq<string>
    var timers: seq<string>
    var alerts: seq<string>
    var played: seq<Playback>

    /** The page's state as a value. */
    function State(): Session.State
      reads this
    {
      Session.State(isRecording, uploadedBuffer, isFileUploaded, audioContext, sourceNode,
                    streamActive, audioBuffer, audioFile, transcript, listening,
                    utterances, timers, alerts, played)
    }

    /** The first render. */
    constructor ()
      ensures State() == Session.Initial
    {
      isRecording, uploadedBuffer, isFileUploaded := false, None, false;
      audioContext, sourceNode, streamActive := None, None, false;
      audioBuffer, audioFile := None, None;
      transcript, listening := "", false;
      utterances, timers, alerts, played := [], [], [], [];
    }

    /** speak: recognition is stopped before the utterance is queued. */
    method Speak(text: string)
      modifies this
      ensures !listening && utterances == old(utterances) + [text]
      ensures State() == Session.Speak(old(State()), text)
    {
      listening := false;   // stopListening()
      utterances := utterances + [text];
    }

    /** startMic; `granted` says whether getUserMedia resolves. */
    method StartMic(granted: bool, sampleRate: nat)
      modifies this
      ensures granted ==>
        isRecording && streamActive && !listening && utterances == old(utterances) + [Session.Greeting]
      ensures !granted ==> isRecording == old(isRecording) && alerts == old(alerts) + [Session.MicAlert]
      ensures State() == Session.StartMicStep(old(State()), granted, sampleRate)
    {
      if !granted {
        alerts := alerts + [Session.MicAlert];
        return;
      }
      streamActive := true;
      audioContext := Some(AudioContext(sampleRate, false));
      listening := true;    // startListening()
      transcript := "";     // resetTranscript()
      isRecording := true;
      Speak(Session.Greeting);
    }

    /** stopMic. */
    method StopMic()
      modifies this
      ensures !isRecording && !streamActive && !listening
      ensures utterances == old(utterances) + [Session.Farewell]
      ensures State() == Session.StopMicStep(old(State()))
    {
      streamActive := false;
      if audioContext.Some? {
        audioContext := Some(audioContext.value.(closed := true));
      }
      listening := false;   // stopListening()
      isRecording := false;
      Speak(Session.Farewell);
    }

    /** handleAudioUpload; `decoded` is the result of decodeAudioData. */
    method HandleAudioUpload(file: Option<Session.AudioFile>, decoded: Option<AudioBuffer>, sampleRate: nat)
      modifies this
      ensures file.None? ==> State() == old(State())
      ensures file.Some? && decoded.Some? ==> audioBuffer == decoded && isFileUploaded
      ensures State() == Session.UploadStep(old(State()), file, decoded, sampleRate)
    {
      if file.None? {
        return;
      }
      audioFile := file;
      if decoded.None? {
        return;
      }
      audioBuffer := decoded;
      audioContext := Some(AudioContext(sampleRate, false));
      isFileUploaded := true;
    }

    /** playWithEffect. On the reverb branch the impulse buffer is filled
        from the random source `draw` and returned as well. */
    method PlayWithEffect(effect: string, draw: (nat, nat) -> real) returns (outcome: PlayOutcome, impulse: array2?<real>)
      modifies this
      ensures outcome == Effects.PlayWithEffect(old(audioContext), old(uploadedBuffer), effect)
      ensures State() == Session.ApplyEffectPlay(old(State()), outcome)
      ensures impulse != null <==> outcome.Started? && effect == "reverb"
      ensures impulse != null ==>
        fresh(impulse) && impulse.Length0 == 2 && impulse.Length1 == old(audioContext).value.sampleRate &&
        forall i, j :: 0 <= i < impulse.Length0 && 0 <= j < impulse.Length1 ==>
          impulse[i, j] == ImpulseSample(draw(i, j), j, impulse.Length1)
    {
      impulse := null;
      if audioContext.None? || uploadedBuffer.None? {
        return Skipped, null;
      }
      var rate := audioContext.value.sampleRate;
      var source := SourceNode(uploadedBuffer.value);
      sourceNode := Some(source);
      var effectNode: Option<Stage>;
      match SelectStage(effect, rate)
      case Unknown(alert) =>
        alerts := alerts + [alert];
        return Rejected(source, alert), null;
      case Selected(stage) =>
        if stage.Convolver? {
          impulse := CreateImpulse(rate, draw);
        }
        effectNode := Some(stage);
      var p := Playback(source, Wire(effectNode));
      played := played + [p];   // sourceNode.start()
      outcome := Started(p);
    }

    /** playAudio: the decoded upload straight to the destination. */
    method PlayAudio() returns (outcome: PlayOutcome)
      modifies this
      ensures outcome == Effects.PlayAudio(old(audioBuffer), old(audioContext))
      ensures outcome.Started? ==> played == old(played) + [outcome.playback]
      ensures outcome.Skipped? ==> State() == old(State())
      ensures State() == Session.PlayButtonStep(old(State()))
    {
      if audioBuffer.None? || audioContext.None? {
        return Skipped;
      }
      var p := Playback(SourceNode(audioBuffer.value), [Edge(Source, Destination)]);
      played := played + [p];
      outcome := Started(p);
    }

    /** The effect hook on `transcript`, run when the recognition hook
        reports a changed transcript `t`. */
    method Hear(t: string, mapIntent: string -> Option<string>, draw: (nat, nat) -> real)
      modifies this
      ensures State() == Session.HeardStep(old(State()), t, mapIntent)
    {
      if t == transcript {
        return;
      }
      transcript := t;
      if t == "" {
        return;
      }
      var effect := mapIntent(t);
      if Turn.Truthy(effect) {
        if isFileUploaded {
          var _, _ := PlayWithEffect(effect.value, draw);
        } else {
          Speak(Turn.UploadPrompt);
          return;
        }
        Speak(Turn.Confirmation(effect.value));
        timers := timers + [Turn.NextPrompt];   // setTimeout(..., 1000)
      } else {
        Speak(Turn.RepeatPrompt);
      }
    }

    /** The utterance at the head of the speech queue ends; its `onend`
        starts listening. Returns the utterance that ended. */
    method UtteranceEnds() returns (ended: Option<string>)
      modifies this
      ensures ended == if old(utterances) == [] then None else Some(old(utterances)[0])
      ensures ended.Some? ==> listening
      ensures State() == Session.UtteranceEndStep(old(State()))
    {
      if utterances == [] {
        return None;
      }
      ended := Some(utterances[0]);
      utterances := utterances[1..];
      listening := true;    // startListening()
    }

    /** The oldest pending timer fires and speaks its prompt. */
    method TimerFires() returns (fired: Option<string>)
      modifies this
      ensures fired == if old(timers) == [] then None else Some(old(timers)[0])
      ensures fired.Some? ==> !listening && utterances == old(utterances) + [fired.value]
      ensures State() == Session.TimerFireStep(old(State()))
    {
      if timers == [] {
        return None;
      }
      var text := timers[0];
      timers := timers[1..];
      Speak(text);
      fired := Some(text);
    }
  }
}
