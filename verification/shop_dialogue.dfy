/**
 * The shopkeeper's greeting. It plays only while the shop counter is 1, that
 * is on the first shop visit of a fresh game (the visit raises the counter
 * from 0 to 1); a restart sets the counter to 1, so the visit after it raises
 * it to 2 and the greeting stays silent. Each line is typed out, the continue
 * button then shows, and continuing on the last line closes the panel.
 */
module ShopTalk {
  import opened Common
  import opened Typing
  import Registry

  class ShopDialogue {
    const dialogueLines: seq<string>
    const wordSpeed: real

    /** Start wired the continue button to OnContinueClicked. */
    var listening: bool
    var enabled: bool
    var panelActive: bool
    var continueShown: bool
    var dialogueText: string
    var currentIndex: int
    var isTyping: bool
    /** The running TypeLine coroutine. */
    var typewriter: Option<Typewriter>

    /**
     * While a line is being typed the text is a prefix of it and the button
     * is hidden; once typed, the text is the whole line and the button shows.
     */
    ghost predicate Valid()
      reads this
    {
      && currentIndex >= 0
      && (typewriter.Some? ==>
            && isTyping && !continueShown && currentIndex < |dialogueLines|
            && 1 <= typewriter.value.typed <= |dialogueLines[currentIndex]|
            && dialogueText == dialogueLines[currentIndex][..typewriter.value.typed])
      && (isTyping && typewriter.None? ==> dialogueLines == [])
      && (listening && !isTyping && currentIndex < |dialogueLines| ==>
            dialogueText == dialogueLines[currentIndex] && continueShown)
    }

    /**
     * Start: unless the shop counter is 1 (the first visit of a fresh game) nothing happens.
     * On that visit, a missing UI reference disables the component; otherwise
     * the panel opens and line 0 starts typing.
     */
    constructor (lines: seq<string>, uiAssigned: bool, gm: Registry.GameManager)
      ensures dialogueLines == lines && wordSpeed == 0.035 && currentIndex == 0
      ensures Valid()
      ensures gm.currentShop != 1 ==> enabled && !listening && !panelActive && !isTyping
      ensures gm.currentShop == 1 ==> enabled == uiAssigned && listening == uiAssigned
      ensures gm.currentShop == 1 && uiAssigned ==>
        panelActive && isTyping == (lines != [] ==> lines[0] != [])
    {
      dialogueLines, wordSpeed := lines, 0.035;
      currentIndex, isTyping, typewriter := 0, false, None;
      dialogueText, panelActive, continueShown := "", false, false;
      listening, enabled := false, true;
      new;
      if gm.currentShop == 1 {
        if !uiAssigned {
          enabled := false;
          return;
        }
        listening := true;
        panelActive := true;
        TypeLine();
      }
    }

    /**
     * The part of TypeLine that runs when it starts: the text is cleared, the
     * button hidden and the first character typed; an empty line completes at
     * once. With no lines at all, reading line 0 throws and the dialogue stays
     * typing.
     */
    method TypeLine()
      requires currentIndex >= 0 && typewriter.None?
      requires currentIndex >= |dialogueLines| ==> dialogueLines == []
      modifies this`isTyping, this`dialogueText, this`continueShown, this`typewriter
      ensures Valid()
      ensures currentIndex < |dialogueLines| && dialogueLines[currentIndex] != [] ==>
        isTyping && typewriter == Some(Typewriter(1, wordSpeed)) && dialogueText == dialogueLines[currentIndex][..1]
      ensures currentIndex < |dialogueLines| && dialogueLines[currentIndex] == [] ==>
        !isTyping && dialogueText == [] && continueShown
      ensures currentIndex >= |dialogueLines| ==> isTyping && typewriter.None? && dialogueText == [] && !continueShown
    {
      isTyping := true;
      dialogueText := "";
      continueShown := false;
      if currentIndex >= |dialogueLines| {
        return;
      }
      var line := dialogueLines[currentIndex];
      if line == [] {
        isTyping, continueShown := false, true;
        return;
      }
      dialogueText := line[..1];
      typewriter := Some(Typewriter(1, wordSpeed));
    }

    /** A frame of dt for the typewriter: the next character, or the end of the line and the button. */
    method ResumeCoroutines(dt: real)
      requires Valid()
      modifies this`isTyping, this`dialogueText, this`continueShown, this`typewriter
      ensures Valid()
      ensures old(typewriter).None? ==> unchanged(this)
      ensures old(typewriter).Some? ==>
        var line := dialogueLines[currentIndex];
        typewriter == Tick(line, old(typewriter).value, dt, wordSpeed)
        && (typewriter.Some? ==> dialogueText == line[..typewriter.value.typed] && !continueShown)
        && (typewriter.None? ==> !isTyping && dialogueText == line && continueShown)
    {
      if typewriter.None? {
        return;
      }
      var t := typewriter.value;
      var line := dialogueLines[currentIndex];
      var next := Tick(line, t, dt, wordSpeed);
      if next.None? {
        assert line[..t.typed] == line;
        isTyping, typewriter, continueShown := false, None, true;
        return;
      }
      if next.value.typed != t.typed {
        dialogueText := dialogueText + [line[t.typed]];
        assert dialogueText == line[..t.typed + 1];
      }
      typewriter := next;
    }

    /** Stops the typewriter and types the next line, or closes the panel after the last. */
    method Advance()
      requires Valid() && !isTyping
      modifies this`currentIndex, this`isTyping, this`dialogueText, this`continueShown, this`typewriter,
               this`panelActive
      ensures Valid()
      ensures currentIndex == old(currentIndex) + 1
      ensures currentIndex < |dialogueLines| ==>
        && panelActive == old(panelActive)
        && isTyping == (dialogueLines[currentIndex] != [])
        && dialogueText == dialogueLines[currentIndex][..if dialogueLines[currentIndex] == [] then 0 else 1]
      ensures currentIndex >= |dialogueLines| ==> !panelActive && !isTyping && dialogueText == old(dialogueText)
    {
      typewriter := None;
      currentIndex := currentIndex + 1;
      if currentIndex < |dialogueLines| {
        TypeLine();
      } else {
        panelActive := false;
      }
    }

    /** Continue: ignored while typing; on the last line it closes the panel, otherwise it advances. */
    method OnContinueClicked()
      requires Valid()
      modifies this
      ensures Valid()
      ensures !old(listening) || old(isTyping) ==> unchanged(this)
      ensures old(listening) && !old(isTyping) && old(currentIndex) == |dialogueLines| - 1 ==>
        !panelActive && currentIndex == old(currentIndex) && dialogueText == old(dialogueText)
      ensures old(listening) && !old(isTyping) && old(currentIndex) != |dialogueLines| - 1 ==>
        currentIndex == old(currentIndex) + 1
    {
      if !listening || isTyping {
        return;
      }
      if currentIndex == |dialogueLines| - 1 {
        panelActive := false;
      } else {
        Advance();
      }
    }
  }
}
