/** The message and button handlers of the tour bot over the global map of
    session records. Each handler is one atomic step on the map: it returns
    the messages it sends, in order, and the exception it stops with, if any;
    writes made before such an exception stay in the map. */
module Bot {
  import opened Keyboards
  import opened Tour
  import opened Sanitizer
  import opened Escalation

  /** The inclusive range `random.randint` draws the artwork count from, per tour-length tag. */
  function TourLengthRange(tag: string): (range: Option<(nat, nat)>)
    ensures range.Some? <==> tag in ["short", "medium", "long"]
    ensures range.Some? ==> 2 <= range.value.0 <= range.value.1 <= 20
  {
    if tag == "short" then Some((2, 5))
    else if tag == "medium" then Some((8, 12))
    else if tag == "long" then Some((13, 20))
    else None
  }

  /** The handler a callback tag is dispatched to; other tags are ignored. */
  datatype Handler = TourLength | Next | End

  function Dispatch(data: string): (h: Option<Handler>)
    ensures h == Some(TourLength) <==> data in ["short", "medium", "long"]
    ensures h == Some(Next) <==> data == "next_artwork"
    ensures h == Some(End) <==> data == "end_tour"
  {
    if data in ["short", "medium", "long"] then Some(TourLength)
    else if data == "next_artwork" then Some(Next)
    else if data == "end_tour" then Some(End)
    else None
  }

  /** What `process_question` sends for a question: the chain of
      `AnswerQuestion` runs against the artwork at the last shown index,
      after a "please wait" message. A missing route or a last shown index
      past its end stops the handler before anything is sent. */
  function ProcessQuestion(s: Session, question: string, svc: Services): (r: (seq<Output>, Option<Fault>))
    ensures r.1 == None <==> s.artworks.Some? && s.lastShownIndex < |s.artworks.value|
    ensures r.1 == Some(NoRoute) <==> s.artworks.None?
    ensures r.1.Some? ==> r.0 == []
    ensures r.1 == None ==>
      r.0 == [Say(ProcessingQuestion, None), Send(AnswerQuestion(question, s.artworks.value[s.lastShownIndex], Profile(s), svc).text)]
  {
    match s.artworks
    case None => ([], Some(NoRoute))
    case Some(route) =>
      if s.lastShownIndex < |route| then
        var reply := AnswerQuestion(question, route[s.lastShownIndex], Profile(s), svc);
        ([Say(ProcessingQuestion, None), Send(reply.text)], None)
      else ([], Some(PastEndOfRoute))
  }

  /** A question is answered about the last shown artwork: moving the cursor
      changes nothing about the answer. */
  lemma QuestionIgnoresCursor(s: Session, cursor: nat, question: string, svc: Services)
    ensures ProcessQuestion(s.(currentIndex := cursor), question, svc) == ProcessQuestion(s, question, svc)
  {
  }

  /** The message that follows an artwork: it carries one button, which
      offers the next artwork exactly when artworks remain after the cursor,
      and ends the tour otherwise. */
  function FollowUp(cursor: nat, routeLength: nat): (o: Output)
    ensures o.Say? && o.keyboard.Some? && o.keyboard.value.Inline? && |o.keyboard.value.buttons| == 1
    ensures o.keyboard.value.buttons[0].data == "next_artwork" <==> cursor < routeLength
    ensures o.keyboard.value.buttons[0].data == "end_tour" <==> cursor >= routeLength
  {
    if cursor < routeLength then Say(AskOrNext, Some(InlineOf(NextPairs)))
    else Say(AskLast, Some(InlineOf(FinishPairs)))
  }

  /** How an artwork's narration is sent: always the narration itself, with
      the image attached exactly when the artwork has a non-empty image
      reference. */
  function Presentation(artwork: Artwork, narration: string): (o: Output)
    ensures (o.Chunks? || o.WithImage?) && o.text == narration
    ensures o.WithImage? <==> artwork.image.Some? && artwork.image.value != ""
    ensures o.WithImage? ==> o.image == artwork.image.value
  {
    match artwork.image
    case Some(url) => if url != "" then WithImage(narration, url) else Chunks(narration)
    case None => Chunks(narration)
  }

  class TourBot {
    /** user id -> session record */
    var userData: map<UserId, Session>

    ghost predicate Valid()
      reads this
    {
      forall u :: u in userData ==> WellFormed(userData[u])
    }

    constructor ()
      ensures Valid() && userData == map[]
    {
      userData := map[];
    }

    /** The effect of a tour-length button `tag` on user `uid`. */
    twostate predicate TourLengthChosen(uid: UserId, tag: string, new outs: seq<Output>, new fault: Option<Fault>)
      reads this
    {
      if uid !in old(userData) then
        userData == old(userData) && outs == [] && fault == Some(UnknownUser)
      else
        var s := old(userData)[uid];
        uid in userData
        && userData == old(userData)[uid := s.(state := RouteMode, topK := userData[uid].topK)]
        && (match TourLengthRange(tag)
            case Some((lo, hi)) => userData[uid].topK.Some? && lo <= userData[uid].topK.value <= hi
            case None => userData[uid].topK == s.topK)
        && outs == [Say(WhatToSee, None)] && fault == None
    }

    /** The effect of the "next artwork" button on user `uid`. */
    twostate predicate ArtworkShown(uid: UserId, svc: Services, new outs: seq<Output>, new fault: Option<Fault>)
      reads this
    {
      if uid !in old(userData) then
        userData == old(userData) && outs == [] && fault == Some(UnknownUser)
      else
        var s := old(userData)[uid];
        var c := s.currentIndex;
        // written before the route is read, so kept when that read fails
        var shown := s.(state := QuestionMode, lastShownIndex := c);
        match s.artworks
        case None =>
          userData == old(userData)[uid := shown] && outs == [] && fault == Some(NoRoute)
        case Some(route) =>
          if c < |route| then
            var narration := svc.generateArtworkInfo(route[c].text, Profile(s));
            userData == old(userData)[uid := shown.(currentIndex := c + 1)]
            && outs == [Say(ProcessingRequest, None), Presentation(route[c], narration), FollowUp(c + 1, |route|)]
            && fault == None
          else
            userData == old(userData)[uid := shown] && outs == [] && fault == Some(PastEndOfRoute)
    }

    /** The effect of the "end tour" button on user `uid`: a farewell, no change. */
    twostate predicate TourEnded(uid: UserId, svc: Services, new outs: seq<Output>, new fault: Option<Fault>)
      reads this
    {
      userData == old(userData)
      && if uid !in old(userData) then outs == [] && fault == Some(UnknownUser)
         else outs == [Send(svc.generateGoodbyeWord(Profile(old(userData)[uid])) + MuseumLink)] && fault == None
    }

    /** /start: replaces the user's whole record with a fresh one awaiting a
        description; other users' records are untouched. */
    method Start(uid: UserId) returns (outs: seq<Output>)
      requires Valid()
      modifies this
      ensures Valid()
      ensures userData == old(userData)[uid := FreshSession]
      ensures outs == [Say(Greeting, Some(OneTimeReply([StartLabel])))]
    {
      userData := userData[uid := Session(RouteMode, 0, 0, None, None, None, None)];
      outs := [Say(Greeting, Some(OneTimeReply([StartLabel])))];
      userData := userData[uid := userData[uid].(state := AwaitingDescription)];
    }

    /** Free text. Stores the description and offers the tour lengths while
        awaiting a description; plans a route (again, each time) in route
        mode; answers a question in question mode; does nothing for a user
        without a record or one awaiting a tour length. */
    method HandleUserInput(uid: UserId, text: string, svc: Services) returns (outs: seq<Output>, fault: Option<Fault>)
      requires Valid()
      modifies this
      ensures Valid()
      ensures uid !in old(userData) || old(userData)[uid].state == AwaitingTourLength ==>
        userData == old(userData) && outs == [] && fault == None
      ensures uid in old(userData) && old(userData)[uid].state == AwaitingDescription ==>
        var s := old(userData)[uid];
        userData == old(userData)[uid := s.(state := AwaitingTourLength, description := Some(text), sendImages := Some(true))]
        && outs == [Say(ChooseTourLength, Some(InlineOf(TourLengthPairs)))] && fault == None
      ensures uid in old(userData) && old(userData)[uid].state == RouteMode ==>
        var s := old(userData)[uid];
        var (narration, route) := svc.generateRoute(PlanningTopK(s), Profile(s), text);
        userData == old(userData)[uid := s.(artworks := Some(route))]
        && outs == [Say(PreparingRoute, None), Chunks(Sanitize(narration)), Say(ReadyToStart, Some(InlineOf(ReadyPairs)))]
        && fault == None
      ensures uid in old(userData) && old(userData)[uid].state == QuestionMode ==>
        userData == old(userData) && (outs, fault) == ProcessQuestion(old(userData)[uid], text, svc)
    {
      outs, fault := [], None;
      if uid !in userData {
        return;
      }
      var s := userData[uid];
      if s.state == AwaitingDescription {
        userData := userData[uid := userData[uid].(description := Some(text))];
        userData := userData[uid := userData[uid].(sendImages := Some(true))];
        var keyboard := CreateKeyboard(TourLengthPairs);
        outs := [Say(ChooseTourLength, Some(keyboard))];
        userData := userData[uid := userData[uid].(state := AwaitingTourLength)];
      } else if s.state == RouteMode {
        outs := [Say(PreparingRoute, None)];
        var description := Profile(s);
        var topK := PlanningTopK(s);
        var (narration, route) := svc.generateRoute(topK, description, text);
        userData := userData[uid := userData[uid].(artworks := Some(route))];
        var cleanRoute := Sanitize(narration);
        outs := outs + [Chunks(cleanRoute)];
        var keyboard := CreateKeyboard(ReadyPairs);
        outs := outs + [Say(ReadyToStart, Some(keyboard))];
      } else if s.state == QuestionMode {
        var sent := ProcessQuestion(s, text, svc);
        outs, fault := sent.0, sent.1;
      }
    }

    /** A button press, dispatched on its callback data alone, whatever the
        user's state; unknown data is ignored. */
    method HandleCallback(uid: UserId, data: string, svc: Services) returns (outs: seq<Output>, fault: Option<Fault>)
      requires Valid()
      modifies this
      ensures Valid()
      ensures Dispatch(data) == None ==> userData == old(userData) && outs == [] && fault == None
      ensures Dispatch(data) == Some(TourLength) ==> TourLengthChosen(uid, data, outs, fault)
      ensures Dispatch(data) == Some(Next) ==> ArtworkShown(uid, svc, outs, fault)
      ensures Dispatch(data) == Some(End) ==> TourEnded(uid, svc, outs, fault)
    {
      match Dispatch(data)
      case Some(TourLength) =>
        outs, fault := HandleTourLength(uid, data);
      case Some(Next) =>
        outs, fault := NextArtwork(uid, svc);
      case Some(End) =>
        outs, fault := EndTour(uid, svc);
      case None =>
        outs, fault := [], None;
    }

    /** A tour-length button: draws the artwork count from the tag's range,
        stores it and switches to route mode, whatever the previous state. */
    method HandleTourLength(uid: UserId, tag: string) returns (outs: seq<Output>, fault: Option<Fault>)
      requires Valid()
      modifies this
      ensures Valid()
      ensures TourLengthChosen(uid, tag, outs, fault)
    {
      // all three draws are made, whichever tag was pressed
      var short :| 2 <= short <= 5;
      var medium :| 8 <= medium <= 12;
      var long :| 13 <= long <= 20;
      if uid !in userData {
        return [], Some(UnknownUser);
      }
      if tag == "short" {
        userData := userData[uid := userData[uid].(topK := Some(short))];
      } else if tag == "medium" {
        userData := userData[uid := userData[uid].(topK := Some(medium))];
      } else if tag == "long" {
        userData := userData[uid := userData[uid].(topK := Some(long))];
      }
      userData := userData[uid := userData[uid].(state := RouteMode)];
      outs, fault := [Say(WhatToSee, None)], None;
    }

    /** The "next artwork" button: marks the artwork at the cursor as shown,
        presents it and advances the cursor. There is no bounds check: past
        the end of the route (or with no route) the lookup fails after the
        state and the shown index have been written. */
    method NextArtwork(uid: UserId, svc: Services) returns (outs: seq<Output>, fault: Option<Fault>)
      requires Valid()
      modifies this
      ensures Valid()
      ensures ArtworkShown(uid, svc, outs, fault)
    {
      if uid !in userData {
        return [], Some(UnknownUser);
      }
      var current := userData[uid].currentIndex;
      userData := userData[uid := userData[uid].(state := QuestionMode)];
      userData := userData[uid := userData[uid].(lastShownIndex := current)];
      if userData[uid].artworks.None? {
        return [], Some(NoRoute);
      }
      var route := userData[uid].artworks.value;
      if current >= |route| {
        return [], Some(PastEndOfRoute);
      }
      var artwork := route[current];
      outs := [Say(ProcessingRequest, None)];
      var description := Profile(userData[uid]);
      var narration := svc.generateArtworkInfo(artwork.text, description);
      // the verdict is computed but never consulted: the narration is always sent
      var _ := svc.evaluateHallucinationsArtworkInfo(artwork.text, narration);
      outs := outs + [Presentation(artwork, narration)];
      userData := userData[uid := userData[uid].(currentIndex := userData[uid].currentIndex + 1)];
      var keyboard;
      if userData[uid].currentIndex < |route| {
        keyboard := CreateKeyboard(NextPairs);
        outs := outs + [Say(AskOrNext, Some(keyboard))];
      } else {
        keyboard := CreateKeyboard(FinishPairs);
        outs := outs + [Say(AskLast, Some(keyboard))];
      }
      fault := None;
    }

    /** The "end tour" button: sends a farewell generated from the description
        followed by the museum link; the record is left as it is. */
    method EndTour(uid: UserId, svc: Services) returns (outs: seq<Output>, fault: Option<Fault>)
      requires Valid()
      modifies this
      ensures Valid()
      ensures TourEnded(uid, svc, outs, fault)
    {
      if uid !in userData {
        return [], Some(UnknownUser);
      }
      outs, fault := [Send(svc.generateGoodbyeWord(Profile(userData[uid])) + MuseumLink)], None;
    }
  }
}
