/**
 * The per-session state the portfolio keeps across reruns of the script: the
 * once-per-session visitor count, the page tracker that clears the chat
 * transcript when the visitor leaves the résumé navigator, the selected
 * project filter chip, and the transcript itself.
 *
 * The pure functions below say what one rerun does to that state; the class
 * `SessionState` performs the same updates in place and is proved against them.
 */
module Session {
  import opened Wrappers
  import Projects

  /** The sidebar's pages; the source compares their labels only for equality. */
  datatype Page = Home | TechShowcase | ResumeNavigator | BeyondTheCode | Contact

  datatype Role = User | Assistant

  /** One chat message, `{"role": ..., "content": ...}`. */
  datatype Turn = Turn(role: Role, content: string)

  /**
   * What one rerun receives from outside the script: the page picked in the
   * sidebar, the filter chip clicked on this run (if any), the chat question
   * submitted (if any), whether the résumé's vector store could be built, and
   * the answer the hosted chain gives to the question (`None` when the chain
   * raises, which ends the run after the question has been recorded).
   */
  datatype Interaction = Interaction(
    menu: Page,
    chipClicked: Option<string>,
    chatInput: Option<string>,
    storeLoaded: bool,
    answer: Option<string>)

  /** The session keys; `None` is a key not yet present. */
  datatype State = State(
    viewed: bool,
    lastPage: Option<Page>,
    selectedCategory: Option<string>,
    currentChat: Option<seq<Turn>>,
    activePage: Option<Page>)

  /** A session before its first run. */
  const Fresh: State := State(false, None, None, None, None)

  /** Only the filter chips exist as buttons, so only they can be clicked. */
  predicate ValidInteraction(i: Interaction)
  {
    i.chipClicked.Some? ==> i.chipClicked.value in Projects.FilterChips
  }

  /** A transcript is a run of question-answer pairs: user, assistant, user, assistant, ... */
  predicate Alternates(chat: seq<Turn>)
  {
    |chat| % 2 == 0 &&
    forall k :: 0 <= k < |chat| ==> chat[k].role == (if k % 2 == 0 then User else Assistant)
  }

  /**
   * Every answer in a transcript directly follows a question. A question
   * whose chain raised stays unanswered, so this is weaker than `Alternates`.
   */
  predicate AnswersFollowQuestions(chat: seq<Turn>)
  {
    forall k :: 0 <= k < |chat| && chat[k].role == Assistant ==> 0 < k && chat[k - 1].role == User
  }

  /**
   * What holds of every session the script can reach: the active page is
   * only ever the navigator, every answer in the transcript follows a
   * question, and the selected category is one of the chips.
   */
  predicate Inv(s: State)
  {
    && (s.activePage == None || s.activePage == Some(ResumeNavigator))
    && (s.currentChat.Some? ==> AnswersFollowQuestions(s.currentChat.value))
    && (s.selectedCategory.Some? ==> s.selectedCategory.value in Projects.FilterChips)
  }

  /** Counting the visit: the first run of a session adds one to the stored count. */
  function CountVisit(views: nat, s: State): (r: (nat, State))
    ensures r.1.viewed
    ensures r.0 == views + (if s.viewed then 0 else 1)
    ensures r.1.(viewed := s.viewed) == s
  {
    if s.viewed then (views, s) else (views + 1, s.(viewed := true))
  }

  /** The page tracker run before every page is rendered. */
  function TrackPage(s: State, menu: Page): (r: State)
    ensures r.lastPage == Some(menu)
    ensures r.viewed == s.viewed && r.selectedCategory == s.selectedCategory && r.activePage == s.activePage
  {
    var last := if s.lastPage.None? then Some(menu) else s.lastPage;
    var chat :=
      if last == Some(ResumeNavigator) && menu != ResumeNavigator && s.currentChat.Some? then Some([])
      else s.currentChat;
    s.(lastPage := Some(menu), currentChat := chat)
  }

  /** The filter chips: "All" until a chip is clicked, then the clicked chip. */
  function ChooseCategory(s: State, click: Option<string>): (r: State)
    ensures r.selectedCategory.Some?
    ensures click.Some? ==> r.selectedCategory == click
    ensures click.None? ==> r.selectedCategory == Some(s.selectedCategory.GetOr(Projects.All))
    ensures r.(selectedCategory := s.selectedCategory) == s
  {
    var selected := if s.selectedCategory.None? then Some(Projects.All) else s.selectedCategory;
    s.(selectedCategory := if click.Some? then click else selected)
  }

  /** Entering the navigator: create the transcript and the active-page key, reset on a page switch. */
  function OpenNavigator(s: State): (r: State)
    ensures r.currentChat.Some? && r.activePage == Some(ResumeNavigator)
    ensures r.viewed == s.viewed && r.lastPage == s.lastPage && r.selectedCategory == s.selectedCategory
  {
    var chat := if s.currentChat.None? then Some([]) else s.currentChat;
    var active := if s.activePage.None? then Some(ResumeNavigator) else s.activePage;
    if active != Some(ResumeNavigator) then s.(currentChat := Some([]), activePage := Some(ResumeNavigator))
    else s.(currentChat := chat, activePage := active)
  }

  /**
   * A submitted, non-empty question is recorded, and then its answer if the
   * chain gave one; the transcript only grows, by at most the two turns.
   */
  function Ask(chat: seq<Turn>, input: Option<string>, storeLoaded: bool, answer: Option<string>): (r: seq<Turn>)
    ensures chat <= r && |r| <= |chat| + 2
    ensures |r| > |chat| <==> storeLoaded && input.Some? && input.value != ""
  {
    if storeLoaded && input.Some? && input.value != "" then
      var asked := chat + [Turn(User, input.value)];
      if answer.Some? then asked + [Turn(Assistant, answer.value)] else asked
    else chat
  }

  /**
   * One rerun of the script: the stored count (absent before the counter file
   * exists) and the session before it, and what they are afterwards.
   */
  function Step(stored: Option<nat>, s: State, i: Interaction): (r: (Option<nat>, State))
    ensures r.0 == Some(stored.GetOr(0) + (if s.viewed then 0 else 1))
    ensures r.1.viewed
    ensures r.1.lastPage == Some(i.menu)
  {
    var counted := CountVisit(stored.GetOr(0), s);
    var tracked := TrackPage(counted.1, i.menu);
    var after :=
      if i.menu == TechShowcase then ChooseCategory(tracked, i.chipClicked)
      else if i.menu == ResumeNavigator then
        var entered := OpenNavigator(tracked);
        entered.(currentChat := Some(Ask(entered.currentChat.value, i.chatInput, i.storeLoaded, i.answer)))
      else tracked;
    (Some(counted.0), after)
  }

  /**
   * A sequence of reruns of one session. After at least one run the counter
   * file exists, the session is marked viewed and it tracks the last page.
   */
  function Runs(stored: Option<nat>, s: State, interactions: seq<Interaction>): (r: (Option<nat>, State))
    ensures |interactions| > 0 ==> r.0.Some? && r.1.viewed && r.1.lastPage == Some(interactions[|interactions| - 1].menu)
    decreases |interactions|
  {
    if |interactions| == 0 then (stored, s)
    else
      var next := Step(stored, s, interactions[0]);
      Runs(next.0, next.1, interactions[1..])
  }

  /** An answered question appends exactly two turns, the user's then the assistant's. */
  lemma AskAppendsTwoTurns(chat: seq<Turn>, question: string, answer: string)
    requires question != ""
    ensures var after := Ask(chat, Some(question), true, Some(answer));
            && after[..|chat|] == chat
            && after[|chat|..] == [Turn(User, question), Turn(Assistant, answer)]
  {
  }

  /**
   * When the chain raises, only the user's turn is appended, and a
   * transcript that alternated no longer does.
   */
  lemma FailedAnswerLeavesQuestionOnly(chat: seq<Turn>, question: string)
    requires Alternates(chat)
    requires question != ""
    ensures var after := Ask(chat, Some(question), true, None);
            && after == chat + [Turn(User, question)]
            && !Alternates(after)
  {
  }

  /** When the chain answers (or nothing is asked), an alternating transcript stays alternating. */
  lemma AskKeepsAlternation(chat: seq<Turn>, input: Option<string>, storeLoaded: bool, answer: Option<string>)
    requires Alternates(chat)
    requires answer.Some?
    ensures Alternates(Ask(chat, input, storeLoaded, answer))
  {
  }

  /** Whatever is asked and whether or not the chain answers, every answer still follows a question. */
  lemma AskKeepsAnswersAfterQuestions(chat: seq<Turn>, input: Option<string>, storeLoaded: bool, answer: Option<string>)
    requires AnswersFollowQuestions(chat)
    ensures AnswersFollowQuestions(Ask(chat, input, storeLoaded, answer))
  {
  }

  /**
   * The navigator's own reset can never fire: the active page is only ever
   * set to the navigator, so entering the page keeps the transcript (or
   * creates an empty one).
   */
  lemma NavigatorResetNeverFires(s: State)
    requires Inv(s)
    ensures OpenNavigator(s).currentChat == Some(s.currentChat.GetOr([]))
  {
  }

  /** Every rerun keeps the invariant. */
  lemma StepKeepsInv(stored: Option<nat>, s: State, i: Interaction)
    requires Inv(s) && ValidInteraction(i)
    ensures Inv(Step(stored, s, i).1)
  {
  }

  /** Every session reached by reruns from a fresh one satisfies the invariant. */
  lemma {:induction false} RunsKeepInv(stored: Option<nat>, s: State, interactions: seq<Interaction>)
    requires Inv(s)
    requires forall k :: 0 <= k < |interactions| ==> ValidInteraction(interactions[k])
    ensures Inv(Runs(stored, s, interactions).1)
    decreases |interactions|
  {
    if |interactions| > 0 {
      var next := Step(stored, s, interactions[0]);
      StepKeepsInv(stored, s, interactions[0]);
      RunsKeepInv(next.0, next.1, interactions[1..]);
    }
  }

  /**
   * The visitor count goes up by exactly one per session, however many times
   * the session reruns the script.
   */
  lemma {:induction false} CountedOncePerSession(stored: Option<nat>, s: State, interactions: seq<Interaction>)
    requires |interactions| > 0
    ensures Runs(stored, s, interactions).0 == Some(stored.GetOr(0) + (if s.viewed then 0 else 1))
    ensures Runs(stored, s, interactions).1.viewed
    decreases |interactions|
  {
    var next := Step(stored, s, interactions[0]);
    if |interactions| > 1 {
      CountedOncePerSession(next.0, next.1, interactions[1..]);
    }
  }

  /** Leaving the navigator for any other page empties an existing transcript. */
  lemma LeavingNavigatorClearsChat(stored: Option<nat>, s: State, i: Interaction)
    requires s.lastPage == Some(ResumeNavigator) && i.menu != ResumeNavigator
    requires s.currentChat.Some?
    ensures Step(stored, s, i).1.currentChat == Some([])
  {
  }

  /**
   * On every other rerun of a reachable session the transcript loses nothing:
   * off the navigator it is untouched, on the navigator it only grows.
   */
  lemma ChatKeptUnlessLeaving(stored: Option<nat>, s: State, i: Interaction)
    requires Inv(s)
    requires !(s.lastPage == Some(ResumeNavigator) && i.menu != ResumeNavigator)
    ensures i.menu != ResumeNavigator ==> Step(stored, s, i).1.currentChat == s.currentChat
    ensures i.menu == ResumeNavigator ==>
      && Step(stored, s, i).1.currentChat.Some?
      && s.currentChat.GetOr([]) <= Step(stored, s, i).1.currentChat.value
  {
  }

  /** The script's only copy of the counter file. */
  class CounterFile {
    /** `{"views": n}` once the file exists. */
    var stored: Option<nat>

    constructor (stored: Option<nat>)
      ensures this.stored == stored
    {
      this.stored := stored;
    }

    /** Create the file with a zero count if it does not exist yet. */
    method CreateIfMissing()
      modifies this
      ensures stored == Some(old(stored).GetOr(0))
    {
      if stored.None? {
        stored := Some(0);
      }
    }
  }

  /** `st.session_state`, one per browser session. */
  class SessionState {
    var viewed: bool
    var lastPage: Option<Page>
    var selectedCategory: Option<string>
    var currentChat: Option<seq<Turn>>
    var activePage: Option<Page>

    function Snapshot(): State
      reads this
    {
      State(viewed, lastPage, selectedCategory, currentChat, activePage)
    }

    constructor ()
      ensures Snapshot() == Fresh
    {
      viewed, lastPage, selectedCategory, currentChat, activePage := false, None, None, None, None;
    }

    /** Add this session's visit to the counter file, once. */
    method CountVisitIn(file: CounterFile)
      requires file.stored.Some?
      modifies this, file
      ensures file.stored.Some?
      ensures (file.stored.value, Snapshot()) == CountVisit(old(file.stored.value), old(Snapshot()))
    {
      if !viewed {
        file.stored := Some(file.stored.value + 1);
        viewed := true;
      }
    }

    method TrackPageOf(menu: Page)
      modifies this
      ensures Snapshot() == TrackPage(old(Snapshot()), menu)
    {
      if lastPage.None? {
        lastPage := Some(menu);
      }
      if lastPage == Some(ResumeNavigator) && menu != ResumeNavigator {
        if currentChat.Some? {
          currentChat := Some([]);
        }
      }
      lastPage := Some(menu);
    }

    method ChooseCategoryOf(click: Option<string>)
      modifies this
      ensures Snapshot() == ChooseCategory(old(Snapshot()), click)
    {
      if selectedCategory.None? {
        selectedCategory := Some(Projects.All);
      }
      if click.Some? {
        selectedCategory := click;
      }
    }

    method OpenNavigatorPage()
      modifies this
      ensures Snapshot() == OpenNavigator(old(Snapshot()))
    {
      if currentChat.None? {
        currentChat := Some([]);
      }
      if activePage.None? {
        activePage := Some(ResumeNavigator);
      }
      if activePage != Some(ResumeNavigator) {
        currentChat := Some([]);
        activePage := Some(ResumeNavigator);
      }
    }

    /** Append the question, then the answer if the chain gives one. */
    method AskQuestion(input: Option<string>, storeLoaded: bool, answer: Option<string>)
      requires currentChat.Some?
      modifies this
      ensures Snapshot() == old(Snapshot()).(currentChat := Some(Ask(old(currentChat.value), input, storeLoaded, answer)))
    {
      if storeLoaded && input.Some? && input.value != "" {
        currentChat := Some(currentChat.value + [Turn(User, input.value)]);
        if answer.Some? {
          currentChat := Some(currentChat.value + [Turn(Assistant, answer.value)]);
        }
      }
    }

    /** One rerun of the script; returns the visitor count it displays. */
    method Rerun(file: CounterFile, i: Interaction) returns (viewCount: nat)
      modifies this, file
      ensures (file.stored, Snapshot()) == Step(old(file.stored), old(Snapshot()), i)
      ensures file.stored == Some(viewCount)
    {
      file.CreateIfMissing();
      CountVisitIn(file);
      viewCount := file.stored.value;
      TrackPageOf(i.menu);
      if i.menu == TechShowcase {
        ChooseCategoryOf(i.chipClicked);
      } else if i.menu == ResumeNavigator {
        OpenNavigatorPage();
        AskQuestion(i.chatInput, i.storeLoaded, i.answer);
      }
    }
  }
}
