/**
 * The backstory slideshow: the advance key hides the current slide and shows
 * the next; after the last slide the tutorial is loaded.
 */
module Slideshow {
  import opened Common
  import Scenes

  /** The slide objects of an (optional) slide array. */
  function Elements(slides: array?<GameObject>): set<GameObject>
    reads slides
  {
    if slides == null then {} else set i | 0 <= i < slides.Length :: slides[i]
  }

  /** No object is two slides. */
  ghost predicate Distinct(slides: array<GameObject>)
    reads slides
  {
    forall i, j :: 0 <= i < j < slides.Length ==> slides[i] != slides[j]
  }

  /** Slide k is the one shown: it is active and every other slide is not. */
  ghost predicate OnlyShown(slides: array<GameObject>, k: int)
    reads slides, Elements(slides)
  {
    forall i :: 0 <= i < slides.Length ==> (slides[i].activeSelf <==> i == k)
  }

  class BackstoryManager {
    const slides: array?<GameObject>
    const advanceKey: KeyCode
    const sceneChanger: Scenes.SceneChanger?
    var currentIndex: int

    /**
     * Once started with slides, exactly slide currentIndex is active (none
     * after the last); without slides nothing is ever shown or advanced.
     */
    ghost predicate Valid()
      reads this, slides, Elements(slides)
    {
      if slides == null || slides.Length == 0 then currentIndex == 0
      else Distinct(slides) && 0 <= currentIndex <= slides.Length && OnlyShown(slides, currentIndex)
    }

    /** No scene was loaded. */
    twostate predicate ChangerUnchanged()
      reads this, sceneChanger
    {
      sceneChanger != null ==> unchanged(sceneChanger)
    }

    /**
     * Start: with no slides it only reports the error; otherwise slide 0 is
     * made the one active slide.
     */
    constructor (s: array?<GameObject>, changer: Scenes.SceneChanger?)
      requires s != null ==> Distinct(s)
      modifies Elements(s)
      ensures slides == s && sceneChanger == changer && advanceKey == Space && currentIndex == 0
      ensures Valid()
      ensures s == null || s.Length == 0 ==> unchanged(Elements(s))
    {
      slides, sceneChanger, advanceKey := s, changer, Space;
      currentIndex := 0;
      new;
      if s == null || s.Length == 0 {
        return;
      }
      var i := 0;
      while i < s.Length
        invariant 0 <= i <= s.Length && currentIndex == 0
        invariant forall j :: 0 <= j < i ==> (s[j].activeSelf <==> j == 0)
      {
        s[i].SetActive(i == 0);
        i := i + 1;
      }
    }

    /**
     * AdvanceSlide: the shown slide is hidden and the next one shown; after
     * the last slide the tutorial is loaded. Indexing past the end (a press
     * after the last slide, or no slides) throws before anything changes; a
     * missing scene changer throws after the index has moved.
     */
    method AdvanceSlide()
      requires Valid()
      modifies this`currentIndex, Elements(slides), sceneChanger
      ensures Valid()
      ensures slides == null || old(currentIndex) >= slides.Length ==>
        currentIndex == old(currentIndex) && unchanged(Elements(slides)) && ChangerUnchanged()
      ensures slides != null && old(currentIndex) < slides.Length ==>
        currentIndex == old(currentIndex) + 1 && OnlyShown(slides, currentIndex)
      ensures slides != null && currentIndex < slides.Length ==> ChangerUnchanged()
      ensures slides != null && old(currentIndex) + 1 == slides.Length && sceneChanger != null ==>
        && sceneChanger.sceneName == Scenes.SceneName(Scenes.Tutorial)
        && sceneChanger.events == old(sceneChanger.events) + Scenes.LoadEvents(Scenes.Tutorial)
    {
      if slides == null || currentIndex >= slides.Length {
        return;
      }
      slides[currentIndex].SetActive(false);
      currentIndex := currentIndex + 1;
      if currentIndex < slides.Length {
        slides[currentIndex].SetActive(true);
      } else {
        if sceneChanger == null {
          return;
        }
        sceneChanger.Load(Scenes.Tutorial);
      }
    }

    /** Update: the advance key moves the slideshow on. */
    method Update(input: Input)
      requires Valid()
      modifies this`currentIndex, Elements(slides), sceneChanger
      ensures Valid()
      ensures advanceKey !in input.down ==>
        currentIndex == old(currentIndex) && unchanged(Elements(slides)) && ChangerUnchanged()
      ensures advanceKey in input.down && slides != null && old(currentIndex) < slides.Length ==>
        currentIndex == old(currentIndex) + 1
    {
      if advanceKey in input.down {
        AdvanceSlide();
      }
    }
  }
}
