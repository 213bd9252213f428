/** Keyboards attached to the bot's replies. Button captions are kept
    symbolic; the callback data of inline buttons is the exact tag string the
    callback dispatcher compares against. */
module Keyboards {

  /** The button captions used by the bot. */
  datatype Label = StartLabel | Express | Standard | FullImmersion | ReadyYes | NextExhibit | FinishRoute

  /** An inline button: a caption and the callback data sent back when it is pressed. */
  datatype Button = Button(caption: Label, data: string)

  /** An inline keyboard (buttons in order) or the one-time reply keyboard shown by /start.
      Row layout is left to the messenger. */
  datatype Keyboard = Inline(buttons: seq<Button>) | OneTimeReply(labels: seq<Label>)

  /** Turns an ordered list of (caption, callback data) pairs into an inline
      keyboard with one button per pair, in the same order. */
  method CreateKeyboard(pairs: seq<(Label, string)>) returns (kb: Keyboard)
    ensures kb.Inline? && |kb.buttons| == |pairs|
    ensures forall i :: 0 <= i < |pairs| ==> kb.buttons[i] == Button(pairs[i].0, pairs[i].1)
    ensures kb == InlineOf(pairs)
  {
    var buttons: seq<Button> := [];
    for i := 0 to |pairs|
      invariant |buttons| == i
      invariant forall j :: 0 <= j < i ==> buttons[j] == Button(pairs[j].0, pairs[j].1)
    {
      var (text, data) := pairs[i];
      buttons := buttons + [Button(text, data)];
    }
    kb := Inline(buttons);
  }

  /** The inline keyboard that `pairs` describes, one button per pair. */
  function InlineOf(pairs: seq<(Label, string)>): Keyboard {
    Inline(seq(|pairs|, i requires 0 <= i < |pairs| => Button(pairs[i].0, pairs[i].1)))
  }

  /** The (caption, callback data) lists the bot builds its inline keyboards from. */
  const TourLengthPairs: seq<(Label, string)> := [(Express, "short"), (Standard, "medium"), (FullImmersion, "long")]
  const ReadyPairs: seq<(Label, string)> := [(ReadyYes, "next_artwork")]
  const NextPairs: seq<(Label, string)> := [(NextExhibit, "next_artwork")]
  const FinishPairs: seq<(Label, string)> := [(FinishRoute, "end_tour")]

}
