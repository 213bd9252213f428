/** The data the bot keeps and emits: one session record per user, the
    artworks of a planned route, the outbound messages of a handler, the
    exceptions a handler can stop with, and the external services it calls. */
module Tour {
  import opened Keyboards

  type UserId = int

  datatype Option<+T> = None | Some(value: T)

  /** The value of the record's `state` key. */
  datatype State = AwaitingDescription | AwaitingTourLength | RouteMode | QuestionMode

  /** An artwork of the corpus as the route planner returns it; `text` and
      `image` are read with a default of nothing when the key is absent. */
  datatype Artwork = Artwork(text: Option<string>, image: Option<string>)

  /** One user's session record. The three keys written by /start are always
      present; the others are absent (None) until a handler first writes them. */
  datatype Session = Session(
    state: State,
    currentIndex: nat,
    lastShownIndex: nat,
    description: Option<string>,
    sendImages: Option<bool>,
    topK: Option<nat>,
    artworks: Option<seq<Artwork>>)

  /** The record /start leaves behind: every optional key dropped. */
  const FreshSession := Session(AwaitingDescription, 0, 0, None, None, None, None)

  /** The user description as the generators read it: empty when never given. */
  function Profile(s: Session): string
  {
    match s.description
    case Some(d) => d
    case None => ""
  }

  /** How many artworks route planning asks for: the chosen count, else 5. */
  function PlanningTopK(s: Session): nat
  {
    match s.topK
    case Some(k) => k
    case None => 5
  }

  /** What every record reachable from the handlers looks like: the shown
      index trails the cursor by at most one, a chosen count lies in the
      union of the three tour-length ranges, `send_images` is written
      together with the description, and the tour-length question is only
      asked once a description is stored. */
  predicate WellFormed(s: Session) {
    (s.currentIndex == s.lastShownIndex || s.currentIndex == s.lastShownIndex + 1)
    && (s.topK.Some? ==> 2 <= s.topK.value <= 20)
    && s.sendImages == (if s.description.Some? then Some(true) else None)
    && (s.state == AwaitingTourLength ==> s.description.Some?)
  }

  /** The fixed texts the bot sends; their wording is not modelled. */
  datatype Phrase =
    | Greeting            // welcome and request for a self-description
    | ChooseTourLength    // offers the three tour lengths
    | WhatToSee           // asks what the user wants to see
    | PreparingRoute      // "please wait" before route planning
    | ReadyToStart        // asks whether to start the tour
    | ProcessingQuestion  // "please wait" before answering a question
    | ProcessingRequest   // "please wait" before presenting an artwork
    | AskOrNext           // invites a question or the next artwork
    | AskLast             // invites a question about the last artwork

  /** One outbound request to the messenger, in emission order. `Chunks` is
      text handed to the chunking sender, `WithImage` text handed to the
      sender that attaches an image; how they split the text is not modelled. */
  datatype Output =
    | Say(phrase: Phrase, keyboard: Option<Keyboard>)
    | Send(text: string)
    | Chunks(text: string)
    | WithImage(text: string, image: string)

  /** The exceptions a handler can stop with: a KeyError on the user id, a
      KeyError on the missing `artworks` key, an IndexError past the route. */
  datatype Fault = UnknownUser | NoRoute | PastEndOfRoute

  /** The external generators and validators, as uninterpreted functions.
      Each handler call receives its own `Services`, so two calls need not
      see the same generated texts. */
  datatype Services = Services(
    generateRoute: (nat, string, string) -> (string, seq<Artwork>),
    generateArtworkInfo: (Option<string>, string) -> string,
    generateAnswer: (string, Artwork, string) -> string,
    generateAnswerMax: (string, Artwork, string) -> string,
    evaluateHallucinations: (Option<string>, string, string) -> string,
    evaluateHallucinationsArtworkInfo: (Option<string>, string) -> string,
    generateGoodbyeWord: string -> string)

  /** The fixed refusal sent when neither answer passes validation. */
  const RefusalText: string := "К сожалению, я затрудняюсь ответить. Пожалуйста перефразируйте ваш вопрос."

  /** Appended to the generated farewell. */
  const MuseumLink: string := "\n\nПродолжить знакомство с миром искусства вы можете на сайте: https://photo.sirius.ru/links/YwWpZAppgnsZYQhAKJvfFM"
}
