/** Client conversations that follow the handlers' contracts alone, one user
    at a time, with fixed stand-ins for the external services. */
module Scenarios {
  import opened Keyboards
  import opened Tour
  import opened Escalation
  import opened Bot

  const Painting := Artwork(Some("oil on canvas"), None)
  const Poster := Artwork(Some("lithograph"), Some("poster.jpg"))

  /** Services whose planner returns three artworks for any query but "again",
      for which it returns one; whose validator flags the concise answer and
      clears the expanded one with a capitalised "False". */
  function Stand(): Services {
    Services(
      (k: nat, d: string, q: string) => ("route", if q == "again" then [Poster] else [Painting, Poster, Painting]),
      (t: Option<string>, d: string) => "narration",
      (q: string, a: Artwork, d: string) => "concise",
      (q: string, a: Artwork, d: string) => "expanded",
      (t: Option<string>, answer: string, q: string) => if answer == "concise" then "true" else "False",
      (t: Option<string>, n: string) => "false",
      (d: string) => "goodbye")
  }

  /** The start of a tour: description, a medium tour and planning. */
  method GuidedTour() {
    var svc := Stand();
    var bot := new TourBot();
    var outs := bot.Start(7);
    assert bot.userData[7].state == AwaitingDescription;
    var fault;
    outs, fault := bot.HandleUserInput(7, "25, love impressionism", svc);
    assert bot.userData[7].state == AwaitingTourLength && outs == [Say(ChooseTourLength, Some(InlineOf(TourLengthPairs)))];
    outs, fault := bot.HandleCallback(7, "medium", svc);
    assert bot.userData[7].state == RouteMode && 8 <= bot.userData[7].topK.value <= 12;
    outs, fault := bot.HandleUserInput(7, "something colorful", svc);
    // planning stores the route but stays in route mode
    assert bot.userData[7].artworks == Some([Painting, Poster, Painting]) && bot.userData[7].state == RouteMode;
    assert bot.userData[7].currentIndex == 0;
  }

  /** The first two artworks of a planned route: the narration alone for the
      one without an image, the narration with the image for the other. */
  method ArtworkPresentation() {
    var svc := Stand();
    var bot := new TourBot();
    var outs := bot.Start(7);
    var fault;
    outs, fault := bot.HandleCallback(7, "long", svc);
    outs, fault := bot.HandleUserInput(7, "something colorful", svc);
    outs, fault := bot.HandleCallback(7, "next_artwork", svc);
    assert bot.userData[7].lastShownIndex == 0 && bot.userData[7].currentIndex == 1;
    assert outs == [Say(ProcessingRequest, None), Chunks("narration"), Say(AskOrNext, Some(InlineOf(NextPairs)))];
    outs, fault := bot.HandleCallback(7, "next_artwork", svc);
    assert outs[1] == WithImage("narration", "poster.jpg");
  }

  lemma ExpandedAnswerDelivered(question: string)
    ensures AnswerQuestion(question, Painting, "", Stand()).text == "expanded"
  {
  }

  /** A question about the shown artwork whose concise answer is flagged
      ("true") and whose expanded answer is cleared ("False"). */
  method EscalatedQuestion() {
    var svc := Stand();
    var bot := new TourBot();
    var outs := bot.Start(7);
    var fault;
    outs, fault := bot.HandleCallback(7, "short", svc);
    outs, fault := bot.HandleUserInput(7, "portraits", svc);
    outs, fault := bot.HandleCallback(7, "next_artwork", svc);
    assert bot.userData[7].state == QuestionMode && bot.userData[7].lastShownIndex == 0;
    ExpandedAnswerDelivered("who painted it?");
    outs, fault := bot.HandleUserInput(7, "who painted it?", svc);
    assert outs == [Say(ProcessingQuestion, None), Send("expanded")] && fault == None;
  }

  /** After a tour, a tour-length button from an old message re-enters route
      mode without resetting the cursor; a shorter new route then leaves the
      cursor past its end, and both the next artwork and a question fail. */
  method ReplanKeepsCursor() {
    var svc := Stand();
    var bot := new TourBot();
    var outs := bot.Start(7);
    var fault;
    outs, fault := bot.HandleUserInput(7, "student", svc);
    outs, fault := bot.HandleCallback(7, "short", svc);
    outs, fault := bot.HandleUserInput(7, "portraits", svc);
    outs, fault := bot.HandleCallback(7, "next_artwork", svc);
    outs, fault := bot.HandleCallback(7, "next_artwork", svc);
    outs, fault := bot.HandleCallback(7, "next_artwork", svc);
    assert outs[2] == Say(AskLast, Some(InlineOf(FinishPairs)));
    assert bot.userData[7].currentIndex == 3;
    outs, fault := bot.HandleCallback(7, "short", svc);
    outs, fault := bot.HandleUserInput(7, "again", svc);
    assert bot.userData[7].artworks == Some([Poster]) && bot.userData[7].currentIndex == 3;
    outs, fault := bot.HandleCallback(7, "next_artwork", svc);
    assert fault == Some(PastEndOfRoute) && outs == [];
    assert bot.userData[7].state == QuestionMode && bot.userData[7].lastShownIndex == 3;
    outs, fault := bot.HandleUserInput(7, "what is it?", svc);
    assert fault == Some(PastEndOfRoute) && outs == [];
  }

  /** /start drops the route, yet a "next artwork" button from an earlier
      message is still dispatched: it switches to question mode and fails on
      the missing route, and so does every question after it. */
  method StaleButtonAfterStart() {
    var svc := Stand();
    var bot := new TourBot();
    var outs := bot.Start(7);
    var fault;
    outs, fault := bot.HandleUserInput(7, "student", svc);
    outs, fault := bot.HandleCallback(7, "long", svc);
    outs, fault := bot.HandleUserInput(7, "sculpture", svc);
    outs := bot.Start(7);
    assert bot.userData[7].artworks == None;
    outs, fault := bot.HandleCallback(7, "next_artwork", svc);
    assert fault == Some(NoRoute) && bot.userData[7].state == QuestionMode;
    outs, fault := bot.HandleUserInput(7, "hello", svc);
    assert fault == Some(NoRoute) && outs == [];
    outs, fault := bot.HandleCallback(7, "end_tour", svc);
    assert outs == [Send("goodbye" + MuseumLink)];
    outs, fault := bot.HandleCallback(7, "unknown", svc);
    assert outs == [] && fault == None;
  }
}
