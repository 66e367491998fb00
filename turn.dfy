/**
 * The decision the page takes for one new transcript (the effect hook on
 * `transcript`): which effect is played, what is said at once and what is
 * said after the one-second timer.
 */
module Turn {
  import opened Wrappers
  import Text

  const RepeatPrompt: string := "Sorry, I didn't catch that effect. Can you repeat?"
  const UploadPrompt: string := "Please upload an audio file first."
  const NextPrompt: string := "What would you like to do next?"
  const ConfirmationPrefix: string := "Sure, applying "

  /** JavaScript truthiness of the mapper's result: `null` and `""` are both
      falsy. */
  predicate Truthy(effect: Option<string>)
  {
    effect.Some? && effect.value != ""
  }

  /** The confirmation spoken after an effect is applied: the first `+`
      becomes " increase" and then the first `-` becomes " decrease". */
  function Confirmation(effect: string): string
  {
    ConfirmationPrefix + Text.ReplaceFirst(Text.ReplaceFirst(effect, '+', " increase"), '-', " decrease")
  }

  /** What one transcript leads to: the effect handed to playWithEffect, the
      utterance spoken at once, and the utterance handed to the timer. */
  datatype TurnPlan = TurnPlan(play: Option<string>, say: Option<string>, later: Option<string>)

  const Nothing: TurnPlan := TurnPlan(None, None, None)

  /** The body of the effect hook, with the unseen intent mapper as a
      parameter. */
  function PlanTurn(transcript: string, mapIntent: string -> Option<string>, isFileUploaded: bool): (p: TurnPlan)
    ensures p.play.Some? <==> transcript != "" && Truthy(mapIntent(transcript)) && isFileUploaded
    ensures p.later.Some? <==> p.play.Some?
    ensures p.say.None? <==> transcript == ""
  {
    if transcript == "" then Nothing
    else
      var effect := mapIntent(transcript);
      if Truthy(effect) then
        if isFileUploaded then
          TurnPlan(Some(effect.value), Some(Confirmation(effect.value)), Some(NextPrompt))
        else TurnPlan(None, Some(UploadPrompt), None)
      else TurnPlan(None, Some(RepeatPrompt), None)
  }

  /** An empty transcript does nothing. */
  lemma EmptyTranscript(mapIntent: string -> Option<string>, isFileUploaded: bool)
    ensures PlanTurn("", mapIntent, isFileUploaded) == Nothing
  {
  }

  /** A transcript the mapper finds no effect in is answered only with the
      repeat prompt. */
  lemma NoEffect(transcript: string, mapIntent: string -> Option<string>, isFileUploaded: bool)
    requires transcript != "" && !Truthy(mapIntent(transcript))
    ensures PlanTurn(transcript, mapIntent, isFileUploaded) == TurnPlan(None, Some(RepeatPrompt), None)
  {
  }

  /** An effect before any upload is answered only with the upload prompt,
      and nothing follows it. */
  lemma EffectWithoutFile(transcript: string, mapIntent: string -> Option<string>)
    requires transcript != "" && Truthy(mapIntent(transcript))
    ensures PlanTurn(transcript, mapIntent, false) == TurnPlan(None, Some(UploadPrompt), None)
  {
  }

  /** An effect with a file uploaded is played, confirmed, and followed by
      the next-step prompt. */
  lemma EffectWithFile(transcript: string, mapIntent: string -> Option<string>)
    requires transcript != "" && Truthy(mapIntent(transcript))
    ensures var e := mapIntent(transcript).value;
      PlanTurn(transcript, mapIntent, true) == TurnPlan(Some(e), Some(Confirmation(e)), Some(NextPrompt))
  {
  }

  /** An effect name with neither `+` nor `-` is confirmed unchanged. */
  lemma ConfirmationPlain(effect: string)
    requires '+' !in effect && '-' !in effect
    ensures Confirmation(effect) == ConfirmationPrefix + effect
  {
    Text.ReplaceFirstAbsent(effect, '+', " increase");
    Text.ReplaceFirstAbsent(effect, '-', " decrease");
  }

  /** A name `a + "+" + b` without `-` is confirmed as `a + " increase" + b`. */
  lemma ConfirmationIncrease(a: string, b: string)
    requires '+' !in a && '-' !in a && '-' !in b
    ensures Confirmation(a + "+" + b) == ConfirmationPrefix + a + " increase" + b
  {
    Text.ReplaceFirstAt(a, '+', b, " increase");
    var r := a + " increase" + b;
    assert forall k :: 0 <= k < |r| ==> r[k] != '-';
    Text.ReplaceFirstAbsent(r, '-', " decrease");
  }

  /** A name `a + "-" + b` without `+` is confirmed as `a + " decrease" + b`. */
  lemma ConfirmationDecrease(a: string, b: string)
    requires '+' !in a && '+' !in b && '-' !in a
    ensures Confirmation(a + "-" + b) == ConfirmationPrefix + a + " decrease" + b
  {
    var s := a + "-" + b;
    assert forall k :: 0 <= k < |s| ==> s[k] != '+';
    Text.ReplaceFirstAbsent(s, '+', " increase");
    Text.ReplaceFirstAt(a, '-', b, " decrease");
  }

  /** The confirmation in terms of its two replacement steps. */
  lemma ConfirmationSteps(effect: string, once: string, twice: string)
    requires Text.ReplaceFirst(effect, '+', " increase") == once
    requires Text.ReplaceFirst(once, '-', " decrease") == twice
    ensures Confirmation(effect) == ConfirmationPrefix + twice
  {
  }

  /** A name whose first sign is a `+` followed later by its first `-`:
      both are read in words, in place. */
  lemma ConfirmationPlusFirst(a: string, b: string, c: string)
    requires '+' !in a && '-' !in a && '-' !in b
    ensures Confirmation(a + "+" + b + "-" + c) == ConfirmationPrefix + a + " increase" + b + " decrease" + c
  {
    var s := a + "+" + b + "-" + c;
    var rest := b + "-" + c;
    var once := a + " increase" + rest;
    var r := a + " increase" + b;
    assert Text.ReplaceFirst(s, '+', " increase") == once by {
      assert s == a + ['+'] + rest;
      Text.ReplaceFirstAt(a, '+', rest, " increase");
    }
    assert Text.ReplaceFirst(once, '-', " decrease") == r + " decrease" + c by {
      assert '-' !in " increase";
      assert '-' !in r;
      assert once == r + ['-'] + c;
      Text.ReplaceFirstAt(r, '-', c, " decrease");
    }
    ConfirmationSteps(s, once, r + " decrease" + c);
  }

  /** A name whose first sign is a `-` followed later by its first `+`:
      both are read in words, in place. */
  lemma ConfirmationMinusFirst(a: string, b: string, c: string)
    requires '+' !in a && '-' !in a && '+' !in b
    ensures Confirmation(a + "-" + b + "+" + c) == ConfirmationPrefix + a + " decrease" + b + " increase" + c
  {
    IncreaseAfterMinus(a, b, c);
    DecreaseBeforeIncrease(a, b, c);
    ConfirmationSteps(a + "-" + b + "+" + c, a + "-" + b + " increase" + c, a + " decrease" + b + " increase" + c);
  }

  lemma IncreaseAfterMinus(a: string, b: string, c: string)
    requires '+' !in a && '+' !in b
    ensures Text.ReplaceFirst(a + "-" + b + "+" + c, '+', " increase") == a + "-" + b + " increase" + c
  {
    var p := a + "-" + b;
    assert '+' !in "-";
    assert '+' !in p;
    assert a + "-" + b + "+" + c == p + ['+'] + c;
    Text.ReplaceFirstAt(p, '+', c, " increase");
  }

  lemma DecreaseBeforeIncrease(a: string, b: string, c: string)
    requires '-' !in a
    ensures Text.ReplaceFirst(a + "-" + b + " increase" + c, '-', " decrease") == a + " decrease" + b + " increase" + c
  {
    var rest := b + " increase" + c;
    assert a + "-" + b + " increase" + c == a + ['-'] + rest;
    Text.ReplaceFirstAt(a, '-', rest, " decrease");
    assert a + " decrease" + rest == a + " decrease" + b + " increase" + c;
  }

  /** The raised gain is confirmed in words. */
  lemma GainUpConfirmation()
    ensures Confirmation("gain+") == "Sure, applying gain increase"
  {
    ConfirmationIncrease("gain", "");
    assert "gain" + "+" + "" == "gain+";
    assert ConfirmationPrefix + "gain" + " increase" + "" == "Sure, applying gain increase";
  }

  /** The lowered gain is confirmed in words. */
  lemma GainDownConfirmation()
    ensures Confirmation("gain-") == "Sure, applying gain decrease"
  {
    ConfirmationDecrease("gain", "");
    assert "gain" + "-" + "" == "gain-";
    assert ConfirmationPrefix + "gain" + " decrease" + "" == "Sure, applying gain decrease";
  }
}
