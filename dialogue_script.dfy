/**
 * The dialogue box (`DialogueScript`): touching it starts the dialogue at
 * page 0, each "next" press first completes a page still being typed and
 * otherwise moves to the next page, ending the dialogue past the last one,
 * and walking away ends it. The `TypeText` coroutine becomes a handle
 * holding the page, the letters typed so far and whether it still runs;
 * `Tick` is one `letterDelay` elapsing. The handle is only cleared by a
 * "next" press, never by the coroutine finishing. An index outside `pages`
 * throws in the source; here it is reported as `thrown`, with the state
 * changes made before the throw kept. The panel is display only.
 */
module Dialogue {

  /** The `typingCoroutine` handle: none, or a coroutine typing `page`, `typed` letters in. */
  datatype Typing = NoHandle | Handle(page: string, typed: nat, running: bool)

  datatype State = State(isDialogueActive: bool, currentPage: int, typing: Typing, text: string)

  const Initial := State(false, 0, NoHandle, "")

  /**
   * While the dialogue is shown its page exists, and a running coroutine
   * has typed a prefix of its page, which is what the box shows.
   */
  predicate Inv(pages: seq<string>, s: State)
  {
    && 0 <= s.currentPage
    && (s.isDialogueActive ==> s.currentPage < |pages|)
    && (s.typing.Handle? ==> s.typing.typed <= |s.typing.page|)
    && (s.typing.Handle? && s.typing.running ==> s.text == s.typing.page[..s.typing.typed])
  }

  /** `StopCoroutine`: the handle is kept but its coroutine no longer runs. */
  function Stop(t: Typing): (r: Typing)
    ensures t.NoHandle? ==> r.NoHandle?
    ensures t.Handle? ==> r == t.(running := false)
  {
    if t.Handle? then t.(running := false) else t
  }

  /**
   * `StartCoroutine(TypeText(page))` up to its first wait: the box is
   * cleared and the first letter typed; an empty page finishes at once.
   */
  function BeginTyping(s: State, page: string): (r: State)
    ensures r.typing.Handle? && r.typing.page == page
    ensures |page| > 0 ==> r.typing == Handle(page, 1, true) && r.text == page[..1]
    ensures |page| == 0 ==> r.typing == Handle(page, 0, false) && r.text == ""
    ensures r.isDialogueActive == s.isDialogueActive && r.currentPage == s.currentPage
  {
    if |page| > 0 then s.(typing := Handle(page, 1, true), text := page[..1])
    else s.(typing := Handle(page, 0, false), text := "")
  }

  /**
   * `ShowPage`: any coroutine is stopped and the current page starts
   * typing; a current page outside `pages` throws after the stop.
   * The second result says whether it threw.
   */
  function ShowPageStep(pages: seq<string>, s: State): (r: (State, bool))
    ensures r.1 <==> !(0 <= s.currentPage < |pages|)
    ensures !r.1 ==> r.0 == BeginTyping(s, pages[s.currentPage])
    ensures r.1 ==> r.0 == s.(typing := Stop(s.typing))
  {
    if 0 <= s.currentPage < |pages| then (BeginTyping(s, pages[s.currentPage]), false)
    else (s.(typing := Stop(s.typing)), true)
  }

  /**
   * `StartDialogue`: the dialogue becomes active at page 0, which starts
   * typing. With no pages at all it throws, leaving the dialogue active on
   * a page that does not exist.
   */
  function StartDialogueStep(pages: seq<string>, s: State): (r: (State, bool))
    ensures r.0.isDialogueActive && r.0.currentPage == 0
    ensures r.1 <==> |pages| == 0
    ensures |pages| > 0 ==> r.0.typing.Handle? && r.0.typing.page == pages[0]
    ensures Inv(pages, s) && |pages| > 0 ==> Inv(pages, r.0)
  {
    ShowPageStep(pages, s.(isDialogueActive := true, currentPage := 0))
  }

  /** `EndDialogue`: the dialogue is no longer active; the page and any typing are left as they are. */
  function EndDialogueStep(s: State): (r: State)
    ensures !r.isDialogueActive
    ensures r == s.(isDialogueActive := false)
  {
    s.(isDialogueActive := false)
  }

  /**
   * `OnNextDialogue`: ignored while inactive. With a typing handle, the
   * whole current page is shown and the handle cleared, without moving on.
   * Without one, the next page starts typing, or the dialogue ends when
   * there is none. The second result says whether it threw.
   */
  function OnNextStep(pages: seq<string>, s: State): (r: (State, bool))
    ensures !s.isDialogueActive ==> r == (s, false)
    ensures s.isDialogueActive && s.typing.Handle? && 0 <= s.currentPage < |pages| ==>
              r == (s.(typing := NoHandle, text := pages[s.currentPage]), false)
    ensures s.isDialogueActive && s.typing.NoHandle? && 0 <= s.currentPage + 1 < |pages| ==>
              r.0 == BeginTyping(s.(currentPage := s.currentPage + 1), pages[s.currentPage + 1]) && !r.1
    ensures s.isDialogueActive && s.typing.NoHandle? && s.currentPage + 1 >= |pages| ==>
              r == (s.(isDialogueActive := false, currentPage := s.currentPage + 1), false)
    ensures Inv(pages, s) ==> Inv(pages, r.0) && !r.1
  {
    if !s.isDialogueActive then (s, false)
    else if s.typing.Handle? then
      if 0 <= s.currentPage < |pages| then (s.(typing := NoHandle, text := pages[s.currentPage]), false)
      else (s.(typing := Stop(s.typing)), true)
    else
      var s1 := s.(currentPage := s.currentPage + 1);
      if s1.currentPage < |pages| then ShowPageStep(pages, s1)
      else (EndDialogueStep(s1), false)
  }

  /**
   * `OnTriggerEnter2D`: the player starts the dialogue only when it is not
   * already active. The second result says whether it threw.
   */
  function TriggerEnterStep(pages: seq<string>, s: State, isPlayer: bool): (r: (State, bool))
    ensures isPlayer && !s.isDialogueActive ==> r == StartDialogueStep(pages, s)
    ensures !(isPlayer && !s.isDialogueActive) ==> r == (s, false)
  {
    if isPlayer && !s.isDialogueActive then StartDialogueStep(pages, s) else (s, false)
  }

  /** `OnTriggerExit2D`: the player leaving ends the dialogue only when it is active. */
  function TriggerExitStep(s: State, isPlayer: bool): (r: State)
    ensures isPlayer && s.isDialogueActive ==> r == EndDialogueStep(s)
    ensures !(isPlayer && s.isDialogueActive) ==> r == s
  {
    if isPlayer && s.isDialogueActive then EndDialogueStep(s) else s
  }

  /**
   * One `letterDelay` of `TypeText`: a running coroutine types the next
   * letter, or finishes once the page is complete; the handle stays.
   */
  function TickStep(s: State): (r: State)
    ensures !(s.typing.Handle? && s.typing.running) ==> r == s
    ensures s.typing.Handle? && s.typing.running && s.typing.typed < |s.typing.page| ==>
              r == s.(typing := s.typing.(typed := s.typing.typed + 1),
                      text := s.text + [s.typing.page[s.typing.typed]])
    ensures s.typing.Handle? && s.typing.running && s.typing.typed >= |s.typing.page| ==>
              r == s.(typing := s.typing.(running := false))
    ensures r.typing.Handle? == s.typing.Handle?
    ensures r.isDialogueActive == s.isDialogueActive && r.currentPage == s.currentPage
    ensures forall pages :: Inv(pages, s) ==> Inv(pages, r)
  {
    if s.typing.Handle? && s.typing.running then
      var t := s.typing;
      if t.typed < |t.page| then s.(typing := t.(typed := t.typed + 1), text := s.text + [t.page[t.typed]])
      else s.(typing := t.(running := false))
    else s
  }

  /** `k` letter delays. */
  function Ticks(s: State, k: nat): State
    decreases k
  {
    if k == 0 then s else Ticks(TickStep(s), k - 1)
  }

  /**
   * Left alone, a running coroutine types the rest of its page and then
   * finishes, but the handle is not cleared.
   */
  lemma {:induction false} TypingCompletes(pages: seq<string>, s: State)
    requires Inv(pages, s) && s.typing.Handle? && s.typing.running
    decreases |s.typing.page| - s.typing.typed
    ensures var r := Ticks(s, |s.typing.page| - s.typing.typed + 1);
            r.typing == Handle(s.typing.page, |s.typing.page|, false) && r.text == s.typing.page
  {
    var t := s.typing;
    if t.typed < |t.page| {
      var s1 := TickStep(s);
      assert t.page[..t.typed] + [t.page[t.typed]] == t.page[..t.typed + 1];
      assert Ticks(s, |t.page| - t.typed + 1) == Ticks(s1, |t.page| - t.typed);
      TypingCompletes(pages, s1);
    } else {
      assert t.page[..t.typed] == t.page;
      assert Ticks(s, 1) == Ticks(TickStep(s), 0);
    }
  }

  /**
   * Because the handle survives the coroutine finishing, a page typed out
   * in full still takes two presses to leave: the first only shows the page
   * again and clears the handle, the second moves on.
   */
  lemma FinishedPageNeedsTwoPresses(pages: seq<string>, s: State)
    requires Inv(pages, s) && s.isDialogueActive && s.typing.Handle? && !s.typing.running
    ensures var (s1, _) := OnNextStep(pages, s);
            s1.currentPage == s.currentPage && s1.isDialogueActive && s1.typing.NoHandle?
            && s1.text == pages[s.currentPage]
    ensures var (s1, _) := OnNextStep(pages, s);
            var (s2, _) := OnNextStep(pages, s1);
            s2.currentPage == s.currentPage + 1
  {
  }

  /** With no pages, starting the dialogue throws and leaves it active past the end of `pages`. */
  lemma EmptyPagesBreakTheDialogue(s: State)
    ensures StartDialogueStep([], s).1
    ensures !Inv([], StartDialogueStep([], s).0)
  {
  }

  /** A player event or one letter delay. */
  datatype Event = Enter(isPlayer: bool) | Exit(isPlayer: bool) | Next | Tick

  function Step(pages: seq<string>, s: State, e: Event): (State, bool)
  {
    match e
    case Enter(p) => TriggerEnterStep(pages, s, p)
    case Exit(p) => (TriggerExitStep(s, p), false)
    case Next => OnNextStep(pages, s)
    case Tick => (TickStep(s), false)
  }

  /** Applies events in order; the second result says whether any of them threw. */
  function Run(pages: seq<string>, s: State, events: seq<Event>): (State, bool)
    decreases |events|
  {
    if events == [] then (s, false)
    else
      var (s1, t1) := Step(pages, s, events[0]);
      var (s2, t2) := Run(pages, s1, events[1..]);
      (s2, t1 || t2)
  }

  /**
   * With at least one page, no sequence of events throws, and whenever the
   * dialogue is active its current page exists.
   */
  lemma {:induction false} DialogueStaysOnAPage(pages: seq<string>, s: State, events: seq<Event>)
    requires |pages| > 0 && Inv(pages, s)
    decreases |events|
    ensures Inv(pages, Run(pages, s, events).0) && !Run(pages, s, events).1
  {
    if events != [] {
      var (s1, t1) := Step(pages, s, events[0]);
      assert Inv(pages, s1) && !t1;
      DialogueStaysOnAPage(pages, s1, events[1..]);
    }
  }

  class DialogueScript {
    const pages: seq<string>
    var isDialogueActive: bool
    var currentPage: int
    var typing: Typing
    /** What `dialogueText` shows. */
    var text: string

    function Model(): State
      reads this
    {
      State(isDialogueActive, currentPage, typing, text)
    }

    constructor (dialoguePages: seq<string>)
      ensures pages == dialoguePages && Model() == Initial
    {
      pages := dialoguePages;
      isDialogueActive, currentPage, typing, text := false, 0, NoHandle, "";
    }

    /** Returns whether the source would have thrown. */
    method OnTriggerEnter(isPlayer: bool) returns (thrown: bool)
      modifies this
      ensures (Model(), thrown) == TriggerEnterStep(pages, old(Model()), isPlayer)
    {
      thrown := false;
      if isPlayer && !isDialogueActive {
        thrown := StartDialogue();
      }
    }

    method OnTriggerExit(isPlayer: bool)
      modifies this
      ensures Model() == TriggerExitStep(old(Model()), isPlayer)
    {
      if isPlayer && isDialogueActive {
        EndDialogue();
      }
    }

    method StartDialogue() returns (thrown: bool)
      modifies this
      ensures (Model(), thrown) == StartDialogueStep(pages, old(Model()))
    {
      isDialogueActive := true;
      currentPage := 0;
      thrown := ShowPage();
    }

    method ShowPage() returns (thrown: bool)
      modifies this
      ensures (Model(), thrown) == ShowPageStep(pages, old(Model()))
    {
      if typing.Handle? {
        typing := typing.(running := false);
      }
      if !(0 <= currentPage < |pages|) {
        return true;
      }
      thrown := false;
      var page := pages[currentPage];
      if |page| > 0 {
        typing, text := Handle(page, 1, true), page[..1];
      } else {
        typing, text := Handle(page, 0, false), "";
      }
    }

    /** One `letterDelay` elapsing for the typing coroutine. */
    method Tick()
      modifies this
      ensures Model() == TickStep(old(Model()))
    {
      if typing.Handle? && typing.running {
        if typing.typed < |typing.page| {
          text := text + [typing.page[typing.typed]];
          typing := typing.(typed := typing.typed + 1);
        } else {
          typing := typing.(running := false);
        }
      }
    }

    method OnNextDialogue() returns (thrown: bool)
      modifies this
      ensures (Model(), thrown) == OnNextStep(pages, old(Model()))
    {
      thrown := false;
      if !isDialogueActive {
        return;
      }
      if typing.Handle? {
        typing := typing.(running := false);
        if !(0 <= currentPage < |pages|) {
          return true;
        }
        text := pages[currentPage];
        typing := NoHandle;
      } else {
        currentPage := currentPage + 1;
        if currentPage < |pages| {
          thrown := ShowPage();
        } else {
          EndDialogue();
        }
      }
    }

    method EndDialogue()
      modifies this
      ensures Model() == EndDialogueStep(old(Model()))
    {
      isDialogueActive := false;
    }
  }
}
