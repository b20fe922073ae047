/**
 * The tutorial's guide. It types its lines one by one; the first two and the
 * last wait for the continue button, line 2 waits until both players have
 * pressed a move key, line 3 until both have pressed jump, and line 4 until
 * both tutorial acorns have been picked up. Continuing on the last line opens
 * the shop.
 */
module Tutorial {
  import opened Common
  import opened Typing
  import Scenes

  /** Player one moved this frame (A or D) and player two moved (left or right arrow). */
  predicate PlayerOneMoves(input: Input) { A in input.down || D in input.down }
  predicate PlayerTwoMoves(input: Input) { LeftArrow in input.down || RightArrow in input.down }
  predicate PlayerOneJumps(input: Input) { W in input.down }
  predicate PlayerTwoJumps(input: Input) { UpArrow in input.down }

  class NPCDialogue {
    const dialogueLines: seq<string>
    const wordSpeed: real
    const sceneChanger: Scenes.SceneChanger
    const acorn1: GameObject?
    const acorn2: GameObject?

    /** Start found every reference and wired the continue button. */
    var enabled: bool
    var panelActive: bool
    var continueShown: bool
    var dialogueText: string
    var currentIndex: int
    var isTyping: bool
    /** The running TypeLine coroutine. */
    var typewriter: Option<Typewriter>
    var p1Moved: bool
    var p2Moved: bool
    var p1Jumped: bool
    var p2Jumped: bool

    /**
     * While a line is being typed the text is a prefix of it and the continue
     * button is hidden; once it is typed the text is the whole current line.
     */
    ghost predicate Valid()
      reads this
    {
      && currentIndex >= 0
      && (typewriter.Some? ==>
            && isTyping && !continueShown && currentIndex < |dialogueLines|
            && 1 <= typewriter.value.typed <= |dialogueLines[currentIndex]|
            && dialogueText == dialogueLines[currentIndex][..typewriter.value.typed])
      && (isTyping && typewriter.None? ==> dialogueLines == [])
      && (enabled && !isTyping && currentIndex < |dialogueLines| ==> dialogueText == dialogueLines[currentIndex])
    }

    /** The tutorial acorns are both in the scene and both picked up. */
    predicate AcornsCollected()
      reads acorn1, acorn2
    {
      acorn1 != null && !acorn1.activeSelf && acorn2 != null && !acorn2.activeSelf
    }

    /** Neither tutorial acorn was switched. */
    twostate predicate AcornsUnchanged()
      reads this, acorn1, acorn2
    {
      (acorn1 != null ==> unchanged(acorn1)) && (acorn2 != null ==> unchanged(acorn2))
    }

    /**
     * Start: without its UI or script references the component disables
     * itself; otherwise it opens the panel, hides the acorns and types line 0.
     */
    constructor (lines: seq<string>, referencesAssigned: bool, changer: Scenes.SceneChanger,
                 a1: GameObject?, a2: GameObject?)
      modifies a1, a2
      ensures dialogueLines == lines && wordSpeed == 0.05 && sceneChanger == changer
      ensures acorn1 == a1 && acorn2 == a2 && currentIndex == 0
      ensures enabled == referencesAssigned && Valid()
      ensures enabled ==> panelActive && isTyping == (lines != [] ==> lines[0] != [])
      ensures enabled && a1 != null && a1 != a2 ==> !a1.activeSelf
      ensures enabled && a2 != null ==> !a2.activeSelf
    {
      dialogueLines, wordSpeed, sceneChanger := lines, 0.05, changer;
      acorn1, acorn2 := a1, a2;
      currentIndex, isTyping, typewriter := 0, false, None;
      dialogueText, panelActive, continueShown := "", false, false;
      p1Moved, p2Moved, p1Jumped, p2Jumped := false, false, false, false;
      enabled := false;
      new;
      if !referencesAssigned {
        return;
      }
      enabled := true;
      panelActive := true;
      if a1 != null {
        a1.SetActive(false);
      }
      if a2 != null {
        a2.SetActive(false);
      }
      TypeLine();
    }

    /**
     * The part of TypeLine that runs when it starts: the text is cleared, the
     * button hidden and the first character typed; an empty line completes at
     * once. With no lines at all, reading line 0 throws and the dialogue stays
     * typing.
     */
    method TypeLine()
      requires currentIndex >= 0 && typewriter.None?
      requires currentIndex >= |dialogueLines| ==> dialogueLines == []
      modifies this`isTyping, this`dialogueText, this`continueShown, this`typewriter, acorn1, acorn2
      ensures Valid()
      ensures currentIndex < |dialogueLines| && dialogueLines[currentIndex] != [] ==>
        isTyping && typewriter == Some(Typewriter(1, wordSpeed)) && dialogueText == dialogueLines[currentIndex][..1]
      ensures currentIndex < |dialogueLines| && dialogueLines[currentIndex] == [] ==> !isTyping && dialogueText == []
      ensures currentIndex >= |dialogueLines| ==> isTyping && typewriter.None? && dialogueText == []
      ensures currentIndex != 4 ==> AcornsUnchanged()
    {
      isTyping := true;
      dialogueText := "";
      continueShown := false;
      if currentIndex >= |dialogueLines| {
        return;
      }
      var line := dialogueLines[currentIndex];
      if line == [] {
        FinishLine();
        return;
      }
      dialogueText := line[..1];
      typewriter := Some(Typewriter(1, wordSpeed));
    }

    /**
     * The end of TypeLine: typing is over, the continue button shows on lines
     * 0 and 1 and on the last line, and line 4 brings out the two acorns.
     */
    method FinishLine()
      requires 0 <= currentIndex < |dialogueLines|
      modifies this`isTyping, this`typewriter, this`continueShown, acorn1, acorn2
      ensures !isTyping && typewriter.None?
      ensures continueShown == (currentIndex < 2 || currentIndex == |dialogueLines| - 1)
      ensures currentIndex == 4 && acorn1 != null && acorn2 != null ==> acorn2.activeSelf
      ensures currentIndex == 4 && acorn1 != null && acorn2 != acorn1 ==> acorn1.activeSelf
      ensures currentIndex != 4 ==> AcornsUnchanged()
    {
      isTyping := false;
      typewriter := None;
      continueShown := currentIndex < 2 || currentIndex == |dialogueLines| - 1;
      if currentIndex == 4 {
        if acorn1 == null {
          return;
        }
        acorn1.SetActive(true);
        if acorn2 == null {
          return;
        }
        acorn2.SetActive(true);
      }
    }

    /** A frame of dt for the typewriter: the next character, or the end of the line. */
    method ResumeCoroutines(dt: real)
      requires Valid()
      modifies this`isTyping, this`dialogueText, this`continueShown, this`typewriter, acorn1, acorn2
      ensures Valid()
      ensures old(typewriter).None? ==> typewriter.None? && isTyping == old(isTyping) && dialogueText == old(dialogueText)
      ensures old(typewriter).Some? ==>
        var line := dialogueLines[currentIndex];
        typewriter == Tick(line, old(typewriter).value, dt, wordSpeed)
        && (typewriter.Some? ==> dialogueText == line[..typewriter.value.typed])
        && (typewriter.None? ==> !isTyping && dialogueText == line)
    {
      if typewriter.None? {
        return;
      }
      var t := typewriter.value;
      var line := dialogueLines[currentIndex];
      var next := Tick(line, t, dt, wordSpeed);
      if next.None? {
        assert line[..t.typed] == line;
        FinishLine();
        return;
      }
      if next.value.typed != t.typed {
        dialogueText := dialogueText + [line[t.typed]];
        assert dialogueText == line[..t.typed + 1];
      }
      typewriter := next;
    }

    /** What Advance leaves: the index one further, and the next line started or the panel closed after the last. */
    twostate predicate Advanced()
      reads this
    {
      && currentIndex == old(currentIndex) + 1
      && (0 <= currentIndex < |dialogueLines| ==>
            && dialogueText == dialogueLines[currentIndex][..if dialogueLines[currentIndex] == [] then 0 else 1]
            && isTyping == (dialogueLines[currentIndex] != [])
            && panelActive == old(panelActive))
      && (currentIndex >= |dialogueLines| ==> !panelActive && !isTyping && dialogueText == old(dialogueText))
    }

    /** The line on show, its typing state and the panel are as they were. */
    twostate predicate LineUnchanged()
      reads this
    {
      && dialogueText == old(dialogueText) && isTyping == old(isTyping) && typewriter == old(typewriter)
      && continueShown == old(continueShown) && panelActive == old(panelActive)
    }

    /** Stops the typewriter and moves to the next line, or closes the panel after the last. */
    method Advance()
      requires Valid() && !isTyping
      modifies this`currentIndex, this`isTyping, this`dialogueText, this`continueShown, this`typewriter,
               this`panelActive, acorn1, acorn2
      ensures Valid()
      ensures Advanced()
      ensures currentIndex != 4 ==> AcornsUnchanged()
    {
      typewriter := None;
      currentIndex := currentIndex + 1;
      if currentIndex < |dialogueLines| {
        TypeLine();
      } else {
        panelActive := false;
      }
    }

    /**
     * Update: nothing while a line is typing. On line 2 each player's move
     * key is remembered until both have moved, on line 3 likewise for jumps,
     * and on line 4 the dialogue waits for both acorns to be picked up.
     */
    method Update(input: Input)
      requires Valid()
      modifies this, acorn1, acorn2
      ensures Valid()
      ensures var idx := old(currentIndex);
        var acts := old(enabled) && !old(isTyping);
        && (!acts || idx !in {2, 3, 4} ==> unchanged(this))
        && (acts && idx == 2 ==>
              var m1, m2 := old(p1Moved) || PlayerOneMoves(input), old(p2Moved) || PlayerTwoMoves(input);
              && currentIndex == idx + (if m1 && m2 then 1 else 0)
              && p1Moved == (m1 && !m2) && p2Moved == (m2 && !m1))
        && (acts && idx == 3 ==>
              var j1, j2 := old(p1Jumped) || PlayerOneJumps(input), old(p2Jumped) || PlayerTwoJumps(input);
              && currentIndex == idx + (if j1 && j2 then 1 else 0)
              && p1Jumped == (j1 && !j2) && p2Jumped == (j2 && !j1))
        && (acts && idx == 4 ==> currentIndex == idx + if old(AcornsCollected()) then 1 else 0)
      ensures enabled == old(enabled)
      ensures currentIndex == old(currentIndex) + 1 ==> Advanced()
      ensures currentIndex == old(currentIndex) ==> LineUnchanged() && AcornsUnchanged()
      ensures old(currentIndex) != 3 ==> AcornsUnchanged()
      ensures old(currentIndex) != 2 ==> p1Moved == old(p1Moved) && p2Moved == old(p2Moved)
      ensures old(currentIndex) != 3 ==> p1Jumped == old(p1Jumped) && p2Jumped == old(p2Jumped)
    {
      if !enabled || isTyping {
        return;
      }
      if currentIndex == 2 {
        MoveStep(input);
      } else if currentIndex == 3 {
        JumpStep(input);
      } else if currentIndex == 4 {
        AcornStep();
      }
    }

    /** Either Advance ran, touching the acorns only on the way to line 4, or the line, the panel and the acorns are kept. */
    twostate predicate AdvancedOrKept(advance: bool)
      reads this, acorn1, acorn2
    {
      if advance then Advanced() && (currentIndex != 4 ==> AcornsUnchanged())
      else currentIndex == old(currentIndex) && LineUnchanged() && AcornsUnchanged()
    }

    /** Line 2 of Update: each player's move key is remembered until both have moved. */
    method MoveStep(input: Input)
      requires Valid() && !isTyping && currentIndex == 2
      modifies this`p1Moved, this`p2Moved, this`currentIndex, this`isTyping, this`dialogueText,
               this`continueShown, this`typewriter, this`panelActive, acorn1, acorn2
      ensures Valid()
      ensures var m1, m2 := old(p1Moved) || PlayerOneMoves(input), old(p2Moved) || PlayerTwoMoves(input);
        && AdvancedOrKept(m1 && m2)
        && p1Moved == (m1 && !m2) && p2Moved == (m2 && !m1)
    {
      if A in input.down || D in input.down {
        p1Moved := true;
      }
      if LeftArrow in input.down || RightArrow in input.down {
        p2Moved := true;
      }
      if p1Moved && p2Moved {
        p1Moved, p2Moved := false, false;
        Advance();
      }
    }

    /** Line 3 of Update: each player's jump key is remembered until both have jumped. */
    method JumpStep(input: Input)
      requires Valid() && !isTyping && currentIndex == 3
      modifies this`p1Jumped, this`p2Jumped, this`currentIndex, this`isTyping, this`dialogueText,
               this`continueShown, this`typewriter, this`panelActive, acorn1, acorn2
      ensures Valid()
      ensures var j1, j2 := old(p1Jumped) || PlayerOneJumps(input), old(p2Jumped) || PlayerTwoJumps(input);
        && AdvancedOrKept(j1 && j2)
        && p1Jumped == (j1 && !j2) && p2Jumped == (j2 && !j1)
    {
      if W in input.down {
        p1Jumped := true;
      }
      if UpArrow in input.down {
        p2Jumped := true;
      }
      if p1Jumped && p2Jumped {
        p1Jumped, p2Jumped := false, false;
        Advance();
      }
    }

    /** Line 4 of Update: the dialogue moves on once both acorns are picked up. */
    method AcornStep()
      requires Valid() && !isTyping && currentIndex == 4
      modifies this`currentIndex, this`isTyping, this`dialogueText, this`continueShown, this`typewriter,
               this`panelActive, acorn1, acorn2
      ensures Valid()
      ensures AdvancedOrKept(old(AcornsCollected()))
    {
      if acorn1 != null && !acorn1.activeSelf && acorn2 != null && !acorn2.activeSelf {
        Advance();
      }
    }

    /** Continue: ignored while typing; on the last line it opens the shop, otherwise it advances. */
    method OnContinueClicked()
      requires Valid()
      modifies this, acorn1, acorn2, sceneChanger, sceneChanger.gm
      ensures Valid()
      ensures !old(enabled) || old(isTyping) ==> unchanged(this) && unchanged(sceneChanger)
      ensures old(enabled) && !old(isTyping) && old(currentIndex) == |dialogueLines| - 1 ==>
        && currentIndex == old(currentIndex)
        && sceneChanger.events == old(sceneChanger.events) + [Scenes.PlayMusic(Scenes.ShopTrack), Scenes.TransitionTo(Scenes.ShopSceneName)]
        && sceneChanger.gm.currentShop == old(sceneChanger.gm.currentShop) + 1
      ensures old(enabled) && !old(isTyping) && old(currentIndex) != |dialogueLines| - 1 ==>
        currentIndex == old(currentIndex) + 1 && unchanged(sceneChanger)
    {
      if !enabled || isTyping {
        return;
      }
      if currentIndex == |dialogueLines| - 1 {
        sceneChanger.LoadShop();
      } else {
        Advance();
      }
    }
  }
}
