# FarhunVerse portfolio — the logic behind the pages

FarhunVerse is a single Streamlit script, `app.py`, that renders a personal
portfolio. The whole script runs again from top to bottom on every user
interaction, and a per-session dictionary (`st.session_state`) carries state
from one run to the next. Most of the script is presentation. This project
models the small amount of logic it owns:

- **Résumé keyword search** (`search_resume`). It lower-cases the query and
  every line of the résumé text. It keeps the lines that contain the query, in
  order. It shows the first six of them, separated by a blank line, or the text
  "No matches found." when no line matches.
- **Project categorisation** (`categorize_project`). An ordered chain of
  keyword tests runs on the lower-cased `title description stack` of a project.
  The first group that has a keyword in the text decides the categories.
- **The project filter**. A loop lists each project whose categories contain
  the selected filter chip. The "All" chip lists every project.
- **The skills radar**. Each skill category gets a score from a fixed table,
  or 50 when the table has no entry for it.
- **The session**:
  - a visitor counter, counted once per session;
  - a page tracker that empties the chat transcript when the visitor leaves
    the AI Resume Navigator page;
  - the selected filter chip;
  - the chat transcript. A question is appended first and its answer after
    it. When the answering chain raises, the question stays unanswered.
- **The contact form guard**. The mail sender is called only when name, email
  and message are all filled in. It builds one email that carries all three.
- **`generate_slideshow`**. It builds the HTML strip of inline photos.

Modules: `Text` (lower-casing, substring test, split and join), `Seqs`
(order-preserving filter and subsequences), `ResumeSearch`, `Projects`,
`Radar`, `Session`, `Contact`, `Slideshow`, and `Wrappers` (an Option type).

The session is modelled in two layers. Pure functions (`CountVisit`,
`TrackPage`, `ChooseCategory`, `OpenNavigator`, `Ask`, `Step`) say what one
run does to a `State` record. The `SessionState` and `CounterFile` classes
make the same updates in place, field by field, and each of their methods is
proved to match its function. The lemmas about whole sessions are stated over
the functions.

Outside inputs to one run are parameters of the `Interaction` record:
- the page picked in the sidebar;
- the chip clicked;
- the chat question;
- whether the résumé vector store could be built;
- the answer from the hosted language model, or none when the chain raises.

Whether the mail relay accepted a message is the `delivered` parameter.

The sidebar pages are a datatype. The source compares their emoji labels only
for equality. Python's `str.lower` is modelled for ASCII letters only.

## Model

| member | source | states |
|---|---|---|
| `Text.Lower` | app.py:241-242 | lower-casing keeps the length and leaves no capital letter; each capital A-Z becomes its small letter, 32 code points higher; every other character stays as it was; position by position the result is `LowerChar` of the input |
| `Text.ContainsIffOccurs` | app.py:242 | the `in` substring test holds exactly when the part occurs at some position; the empty query occurs everywhere |
| `Text.SplitOn` | app.py:242 | `split("\n")` always gives at least one piece, and no piece contains a line break |
| `Text.JoinSplit` | app.py:242 | joining the pieces of a split with the same separator gives back the text |
| `Text.Join` | app.py:243 | the joined text starts with the first piece and is at least as long as the first piece plus one separator per further piece |
| `Text.SplitJoin` | app.py:242 | splitting a join gives back the pieces when none of them contains the separator |
| `Seqs.FilterCharacterization` | app.py:242 | a list comprehension with a condition keeps exactly the passing elements, as a subsequence in the original order, as many as pass |
| `ResumeSearch.SearchResume` | app.py:240-243 | with no hit the answer is "No matches found."; with hits it starts with the first hit |
| `ResumeSearch.HitsAreMatchingLines` | app.py:241-242 | the hits are exactly the lines whose lower-cased form contains the lower-cased query, in their relative order, and none holds a line break |
| `ResumeSearch.NoMatchGivesMessage` | app.py:243 | when no line matches, the answer is "No matches found." |
| `ResumeSearch.MatchShowsFirstSix` | app.py:242-243 | when a line matches, between one and six hits are shown, they are the first hits, and they are joined by a blank line |
| `ResumeSearch.EmptyQueryShowsFirstLines` | app.py:240-243 | the empty query matches every line, so the first six lines of the text are shown |
| `ResumeSearch.QueryCaseIgnored` | app.py:241 | the result is the same for a query and its lower-cased form |
| `ResumeSearch.SingleMatchingLineShown` | app.py:240-243 | a one-line text that matches is shown unchanged |
| `ResumeSearch.MessageAlsoShownForAMatch` | app.py:243 | a text whose only line is "No matches found." has a hit for "no" and still answers "No matches found.", so that answer does not prove there was no hit |
| `Projects.CategorizeText` | app.py:760-769 | the if/elif chain on the lower-cased text always gives one of the five fixed lists |
| `Projects.CategorizeProject` | app.py:759-769 | lower-casing `title description stack` and running the chain always gives one of the five fixed lists |
| `Projects.ChainFollowsRules` | app.py:760-769 | on any text, the if/elif chain equals the first-match reading of the keyword table |
| `Projects.CategorizeFollowsRules` | app.py:760-769 | the if/elif chain equals the first-match reading of the keyword table, in table order, with General as the fallback |
| `Projects.GeneralIffNoKeyword` | app.py:760-769 | the project is General exactly when none of the twelve keywords occurs in its lower-cased text |
| `Projects.EarlierRuleWins` | app.py:761-762 | a text that mentions eduregion or guardianai gets AI/ML and Data Science and never Blockchain, whatever else it says |
| `Projects.KeywordInsideWord` | app.py:765-766 | keywords are substring tests: "ai" inside "chain" files a project titled "Chain" under AI/ML |
| `Projects.FilterProjects` | app.py:865-869 | the append loop builds exactly the order-preserving filter of the projects by "selected is among its categories or is All" |
| `Projects.AllShowsEveryProject` | app.py:868 | with "All" selected, the filtered list is the whole project list |
| `Projects.CategoryShowsItsProjects` | app.py:865-869 | with another chip, the filtered list is the subsequence of the projects whose categories contain the chip, in order, and holds each of them |
| `Projects.GeneralOnlyUnderAll` | app.py:743 | no chip names General, so a General project is listed only under "All" |
| `Radar.RadarValues` | app.py:248-254 | one value per category; a category spelled "DevOps / Automation" always gets the default 50, and one spelled "Devops / Automation" gets 60 |
| `Radar.RadarValuesIntended` | app.py:248-254 | with the key spelled as in the skills table, one value per category, and no skill category falls back to 50 |
| `Radar.ScoresWith` | app.py:248-254 | there is one value per category, and each is the table's entry for the category, or 50 when the table has none |
| `Radar.ScoresOnAxis` | app.py:254-257 | every value lies in the radial axis range 0 to 100 |
| `Radar.DevOpsDrawnAtDefault` | app.py:248-254 | as written, "DevOps / Automation" is not a key of the table, so the four skill categories get 85, 70, 50, 65 |
| `Radar.IntendedScoresEveryCategory` | app.py:215-220 | with the key spelled as in the skills table, every category has an entry and the values are 85, 70, 60, 65 |
| `Session.CountVisit` | app.py:272-278 | after counting, the session is marked as viewed; the count goes up by one only if it was not viewed before; nothing else changes |
| `Session.TrackPage` | app.py:389-398 | the tracker always ends on the current page, and the counter flag, the chip and the active page are untouched |
| `Session.ChooseCategory` | app.py:744-756 | a chip is always selected afterwards; a clicked chip becomes the selection; with no click the earlier chip stays, or "All" on the first visit; nothing else changes |
| `Session.OpenNavigator` | app.py:1020-1028 | after entering the navigator a transcript exists and the active page is the navigator; the counter flag, tracker and chip are untouched |
| `Session.Ask` | app.py:1099-1110 | the transcript only grows, by at most two turns, and it grows exactly when a non-empty question is submitted and the vector store was built |
| `Session.Step` | app.py:264-283 | one run leaves the counter file holding the old count (0 if the file was missing) plus one for an unviewed session; the session ends viewed and tracking the current page |
| `Session.Runs` | app.py:264-283 | after at least one run the counter file exists, the session is viewed, and it tracks the page of the last run |
| `Session.AskAppendsTwoTurns` | app.py:1099-1110 | an answered question keeps the transcript as a prefix and appends exactly the user's turn and then the assistant's |
| `Session.FailedAnswerLeavesQuestionOnly` | app.py:1100-1106 | when the chain raises after the question was appended, only the user's turn is added, and an alternating transcript stops alternating |
| `Session.AskKeepsAlternation` | app.py:1099-1110 | when the chain answers (or nothing is asked), a transcript of alternating user and assistant turns stays alternating |
| `Session.AskKeepsAnswersAfterQuestions` | app.py:1099-1110 | whatever is asked and whether or not the chain answers, every assistant turn directly follows a user turn |
| `Session.NavigatorResetNeverFires` | app.py:1022-1028 | since the active page is only ever set to the navigator, entering the navigator never empties an existing transcript |
| `Session.StepKeepsInv` | app.py:389-398 | a run keeps the invariant: the active page is absent or the navigator, every answer in the transcript directly follows a question, the chip is one of the four |
| `Session.RunsKeepInv` | app.py:1020-1028 | every session reached by any sequence of runs keeps that invariant |
| `Session.CountedOncePerSession` | app.py:272-278 | however many times a session reruns the script, the count goes up by exactly one for a new session and not at all for a viewed one |
| `Session.LeavingNavigatorClearsChat` | app.py:393-395 | going from the navigator to any other page empties an existing transcript |
| `Session.ChatKeptUnlessLeaving` | app.py:389-398 | on every other run of a reachable session, the transcript is untouched off the navigator and only grows on it |
| `Session.CounterFile.CreateIfMissing` | app.py:267-269 | the counter file holds its old count, or 0 if it was missing |
| `Session.SessionState.CountVisitIn` | app.py:272-278 | the in-place counting matches `CountVisit` on the file and the session |
| `Session.SessionState.TrackPageOf` | app.py:389-398 | the in-place page tracking matches `TrackPage` |
| `Session.SessionState.ChooseCategoryOf` | app.py:744-756 | the in-place chip selection matches `ChooseCategory` |
| `Session.SessionState.OpenNavigatorPage` | app.py:1020-1028 | the in-place navigator set-up matches `OpenNavigator` |
| `Session.SessionState.AskQuestion` | app.py:1099-1110 | the in-place appends, the question and then the answer when the chain gives one, give the transcript that `Ask` describes |
| `Session.SessionState.Rerun` | app.py:264-283 | one in-place run matches `Step` on the counter file and the session, and returns the count stored in the file |
| `Contact.SubmitContact` | app.py:1389-1400 | the mail sender is called at most once, only with the form's three fields, and the visitor is thanked only after one successful send |
| `Contact.EmptyFieldBlocksSending` | app.py:1389-1400 | the mail sender is not called when a field is empty, and is called exactly once with the three fields otherwise; the visitor is thanked only if all fields are filled and the send succeeded |
| `Contact.Compose` | app.py:1350-1371 | the email goes to the site owner from the configured account; the subject holds the name, and the body holds the name, the email and the message verbatim |
| `Slideshow.GenerateSlideshow` | app.py:1229-1231 | the strip always begins with the opening markup and ends with the closing markup |
| `Slideshow.ImageInPlace` | app.py:1229-1231 | the k-th photo's image tag comes right after the opening markup and the tags of the photos before it, so the photos appear in their given order |
| `Slideshow.SlideshowFrame` | app.py:1229-1231 | the strip starts with the opening markup, ends with the closing markup, and between them holds exactly the image tags |

## Findings

| source | as written | input that shows it | evidently intended | confidence | as-written member | corrected member |
|---|---|---|---|---|---|---|
| app.py:251 | the score table's key is "Devops / Automation", but the skills table (app.py:218) names the category "DevOps / Automation" | the skill category "DevOps / Automation" has no entry, so `values_map.get` returns the default and the radar draws 50 | the table's 60 for that category | high; not executed | `Radar.DevOpsDrawnAtDefault` | `Radar.IntendedScoresEveryCategory` |

## Left out

- Streamlit rendering, the CSS and HTML strings, the sidebar widgets, the feedback slider and the Lottie loaders (`load_lottie_url`, `load_lottie_file`) are left out. They are presentation and network I/O.
- `create_fv_logo` is left out. It draws with PIL, using floating-point gradients and a blur.
- The résumé question-answering chain is left out: `get_pdf_text`, the text splitter (800-character chunks with a 200-character overlap), FAISS, the embeddings and the chat model. They are library and hosted-API calls. Whether the vector store was built is the `storeLoaded` parameter. The chain's reply is the `answer` parameter. `None` stands for a chain that raised: the question stays in the transcript without an answer. The error Streamlit then shows is left out.
- `send_email`'s SMTP session is left out. Its result, including the exception path that returns False, is the `delivered` parameter. The message it builds is modelled by `Contact.Compose`.
- `load_images_from_folder` and the base64 encoding are left out. They read the filesystem and call a library. The slideshow takes the images already encoded.
- The JSON persistence of the counter is modelled as a field that holds an optional count. The unlocked read-modify-write race between concurrent sessions is left out.
- The Plotly figure set-up, the bar and pie charts, and the per-project Lottie lookup are left out. They only choose presentation.
- The `play_video_{i}` session flags (app.py:401-402) are left out. The script sets them but never reads them.
- The `PROJECTS` data is left out. The categorisation and filter lemmas hold for any list of projects.
- A project's link fields are left out. The modelled logic reads only its title, description and stack.
- `Text.Lower`: only the ASCII capitals A-Z are lowered. Python's `str.lower` also lowers non-ASCII letters, and for a few of them it changes the string's length.
