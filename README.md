# Museum tour bot: session state machine and answer escalation

A Dafny model of the Telegram guide bot of the Sirius exhibition fund
(`app/bot.py`). The bot keeps one session record per user in a global
dictionary and moves each user through four stages: awaiting a
self-description, awaiting a tour length, route mode and question mode.
Its handlers are:

- `/start`, which resets the record;
- free text, which stores the description, plans a route or answers a question, depending on the stage;
- the buttons `short`, `medium` and `long`, which choose how many artworks to plan;
- the buttons `next_artwork` and `end_tour`.

Questions go through a two-tier chain. A concise answer is generated and
validated. If it is not cleared, an expanded answer is generated and
validated. If that is not cleared either, a fixed refusal is sent. The
planner's narration of the route is filtered through an allow-list of
characters before it is sent.

Files:

- `sanitizer.dfy` (module `Sanitizer`): the route-narration filter and its properties.
- `keyboards.dfy` (module `Keyboards`): buttons, keyboards and `CreateKeyboard`.
- `tour.dfy` (module `Tour`): the session record, artworks, outbound messages, faults and the external services.
- `escalation.dfy` (module `Escalation`): verdict parsing and the question-answering chain.
- `bot.dfy` (module `Bot`): the handlers. The class `TourBot` holds `userData: map<UserId, Session>` and has one method per handler. Every handler requires and keeps the record invariant `WellFormed`.
- `scenarios.dfy` (module `Scenarios`): client conversations proved from the handler contracts alone. They cover the start of a tour, the presentation of artworks, an escalated question, re-planning after a finished tour, and a stale button after `/start`.

Modelling choices:

- Each handler is one atomic step. It returns the ordered list of messages it sends and the exception it stops with (`Fault`), if any. Writes made before the exception stay in the map, as they do in the program.
- Optional keys of the record (`user_description`, `send_images`, `top_k`, `artworks`) are `Option` fields. Reads with a default (`.get('top_k', 5)`, `.get('user_description', '')`) are `PlanningTopK` and `Profile`.
- Route generation, artwork narration, answer generation, both validators and the farewell generator are uninterpreted functions in a `Services` value. Every handler call receives its own `Services`.
- `random.randint(a, b)` is a nondeterministic choice `k :| a <= k <= b`. All three draws are made, as in the program.
- On these points the model follows the program as written:
  - Planning a route leaves the state at `route_mode`. It does not reset `current_artwork_index`.
  - Buttons act in every state, and a tour-length button switches to route mode from any stage.
  - Buttons from a user without a record raise a KeyError. The program does not start a fresh session for them.
  - An empty route is not handled specially. "Next artwork" then fails on the lookup.

## Model

| member | source | states |
|---|---|---|
| Sanitizer.Sanitize | app/bot.py:94 | the filtered narration is no longer than the input and every character in it is in the allow-list `[a-zA-Zа-яА-ЯёЁ0-9\s.,:"«»]` (`\s` as Python's Unicode whitespace) |
| Sanitizer.SanitizeAppend | app/bot.py:94 | filtering distributes over concatenation, so kept characters stay in input order |
| Sanitizer.SanitizeChar | app/bot.py:94 | a single character is kept iff it is allowed |
| Sanitizer.SanitizeFixedPoint | app/bot.py:94 | the filter leaves a string unchanged iff every character of it is allowed (both directions) |
| Sanitizer.SanitizeIdempotent | app/bot.py:94 | filtering twice equals filtering once |
| Sanitizer.SanitizeCounts | app/bot.py:94 | each allowed character occurs in the output exactly as often as in the input; each other character does not occur |
| Keyboards.CreateKeyboard | app/bot.py:37-41 | the keyboard has one inline button per (caption, data) pair, in the same order, with that caption and callback data |
| Escalation.Lower | app/bot.py:144 | lower-casing keeps the length and maps each character through ASCII lower-casing |
| Escalation.ClearedSpellings | app/bot.py:144-150 | a verdict clears an answer iff it is "false" in some mix of cases; any other text, including "true", "" or "false.", counts as a hallucination (fail closed) |
| Escalation.AnswerQuestion | app/bot.py:139-153 | the chain makes either 2 or 4 external calls, a generation then its validation; the expanded generation is made only as the third call; the concise tier is chosen iff only 2 calls are made; a delivered answer is the last one validated |
| Escalation.FirstCleared | app/bot.py:144-153 | the reference reading of the chain: when no candidate's verdict clears it the result is the refusal; otherwise it is the first candidate whose verdict clears it |
| Escalation.AnswerIsFirstCleared | app/bot.py:139-153 | the delivered text is the first of (concise, expanded) whose own verdict clears it, else the refusal |
| Escalation.EscalationOutcome | app/bot.py:139-153 | concise answer iff the first verdict clears it; expanded answer iff the first does not and the second does; refusal text iff neither; the expanded answer is generated iff the first verdict does not clear |
| Bot.TourLengthRange | app/bot.py:116-123 | only `short`, `medium` and `long` have a draw range, and each range lies within [2, 20] |
| Bot.Dispatch | app/bot.py:104-112 | `short`/`medium`/`long` go to the tour-length handler, `next_artwork` to the next-artwork handler, `end_tour` to the farewell; any other data to nothing |
| Bot.ProcessQuestion | app/bot.py:131-138 | the question is answered about `artworks[last_shown_artwork_index]`; a missing route or an index past its end stops the handler before any message; otherwise exactly a "please wait" and the chain's one reply are sent |
| Bot.QuestionIgnoresCursor | app/bot.py:134-135 | the reply to a question does not depend on `current_artwork_index` |
| Bot.FollowUp | app/bot.py:182-187 | the message after an artwork offers `next_artwork` iff the advanced cursor is below the route length, and `end_tour` otherwise |
| Bot.Presentation | app/bot.py:168-178 | the narration is always sent; the image is attached iff the artwork has a non-empty image reference |
| Bot.TourBot.constructor | app/bot.py:35 | the session map starts empty |
| Bot.TourBot.Start | app/bot.py:43-60 | the user's whole record becomes the fresh record awaiting a description with both indices 0, dropping description, top_k and route; other users' records are unchanged; the greeting with the one-time start keyboard is sent |
| Bot.TourBot.HandleUserInput | app/bot.py:63-101 | no record or awaiting a tour length: nothing changes and nothing is sent; awaiting a description: the text becomes the description, images are enabled, the three tour lengths are offered and the state moves on; route mode: a route is planned with top_k (default 5) and stored, state and cursor untouched, and the sanitized narration is sent with the start button; question mode: the record is unchanged and `ProcessQuestion` decides the reply |
| Bot.TourBot.HandleCallback | app/bot.py:104-112 | dispatches on the callback data alone, whatever the state; unknown data changes nothing and sends nothing |
| Bot.TourBot.HandleTourLength | app/bot.py:114-128 | with a record: top_k is drawn from the tag's range, the state becomes route mode whatever it was, the rest of the record and other users are unchanged; without a record: KeyError, nothing changes |
| Bot.TourBot.NextArtwork | app/bot.py:156-187 | with cursor c inside the route: state question mode, last shown c, cursor c + 1, route unchanged, narration sent, then `next_artwork` offered iff c + 1 < route length, else `end_tour`; with no route or c past its end: state and last shown are still written, cursor unchanged, nothing sent, the handler stops |
| Bot.TourBot.EndTour | app/bot.py:190-193 | the farewell generated from the description, followed by the museum link, is sent and no record changes; without a record: KeyError |
| Scenarios.ExpandedAnswerDelivered | app/bot.py:139-151 | with a first verdict "true" and a second "False", the expanded answer is delivered |

## Left out

- Telegram transport is not modelled: aiogram, polling, rendering of reply markup and keyboard rows, and the chunking and image senders. Their module is not part of this model. Outputs are an abstract ordered list.
- The text generators, validators, route planner and farewell generator are network calls to a language model. They are uninterpreted functions here, and exceptions they may raise are not modelled. `app/generation/generate_goodbye_word.py` is only a prompt template and such a call.
- Retrieval of artworks by embedding similarity is not modelled: `app/embeddings/get_embeddings.py` and `app/embeddings/embeddings_similarity.py` are foreign calls with floating-point ranking. The planner's result is taken as given.
- The distribution of `random.randint` is not modelled; only its range is.
- Logging, `load_dotenv` and reading the token are not modelled.
- Concurrency between handlers is not modelled. `/start` writes `route_mode` and then `awaiting_description` around an await. Only the final record is modelled, because each handler is one atomic step.
- Message wording is symbolic (`Phrase`, `Label`). The exceptions are the refusal text and the museum link, which are constants.
- Non-text messages (`message.text` is `None`) are not modelled; free text is a string.
- Escalation.Lower: lowers only ASCII letters, while Python's `str.lower` lowers all letters. No non-ASCII character lowers to a letter of "false", so the comparison with "false" is the same.
- Artwork records are reduced to the two keys the handlers read, `text` and `image`. The generators receive the whole record in the program, so in the model two artworks that agree on those two keys get the same generated text.
- The artwork-narration validator's verdict is computed and discarded, as in the program. The model does not let it affect anything.
