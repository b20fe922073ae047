/**
 * Scene flow: every loader names a scene and, for most, a music track; the
 * shop loader also advances the shop counter that decides which level comes
 * after the shop and banks the level's acorns.
 *
 * The circle-shrink transition is abstracted: a load is recorded as the
 * request to transition to the named scene, in order with the music calls.
 */
module Scenes {
  import opened Common
  import Registry
  import Collecting

  /** The loaders other than the shop's. */
  datatype Destination = StartScreen | Backstory | Tutorial | Forest | Pavilion | Factory | Office | Ending

  function SceneName(d: Destination): (s: string)
    ensures |s| > 0
  {
    match d
    case StartScreen => "Start"
    case Backstory => "Backstory"
    case Tutorial => "Tutorial"
    case Forest => "Forest"
    case Pavilion => "Pavilion"
    case Factory => "Factory"
    case Office => "Office"
    case Ending => "End"
  }

  const ShopSceneName: string := "Shop"
  const ShopTrack: nat := 7

  /** The music each loader starts; the start screen keeps whatever plays. */
  function Track(d: Destination): (t: Option<nat>)
    ensures t.None? <==> d == StartScreen
    ensures t.Some? ==> t.value < ShopTrack
  {
    match d
    case StartScreen => None
    case Backstory => Some(0)
    case Tutorial => Some(1)
    case Forest => Some(2)
    case Pavilion => Some(3)
    case Factory => Some(4)
    case Office => Some(5)
    case Ending => Some(6)
  }

  /** Each track belongs to one loader, and none is the shop's. */
  lemma TracksIdentifyLoaders(d: Destination, e: Destination)
    requires Track(d).Some? && Track(d) == Track(e)
    ensures d == e
  {
  }

  /** The level loaded after the shop, by the shop counter. */
  function MapAfterShop(currentShop: int): (d: Destination)
    ensures currentShop == 0 <==> d == Tutorial
    ensures currentShop == 1 <==> d == Forest
    ensures currentShop == 2 <==> d == Pavilion
    ensures currentShop == 3 <==> d == Factory
    ensures !(0 <= currentShop <= 3) <==> d == Office
  {
    if currentShop == 0 then Tutorial
    else if currentShop == 1 then Forest
    else if currentShop == 2 then Pavilion
    else if currentShop == 3 then Factory
    else Office
  }

  /**
   * The levels a run of shop visits leads to, from a given counter: each
   * visit raises the counter (`LoadShop`) and then loads the level it names
   * (`LoadMapAfterShop`).
   */
  function Route(currentShop: int, visits: nat): seq<Destination>
    decreases visits
  {
    if visits == 0 then []
    else [MapAfterShop(currentShop + 1)] + Route(currentShop + 1, visits - 1)
  }

  /** The i-th visit of a run reads the counter raised i + 1 times. */
  lemma {:induction false} RouteFromCounter(currentShop: int, visits: nat)
    decreases visits
    ensures |Route(currentShop, visits)| == visits
    ensures forall i :: 0 <= i < visits ==> Route(currentShop, visits)[i] == MapAfterShop(currentShop + i + 1)
  {
    if visits > 0 {
      RouteFromCounter(currentShop + 1, visits - 1);
    }
  }

  /**
   * A fresh game reaches the first shop from the tutorial with the counter
   * at 0, so its shop visits lead through the levels in order and stay in the
   * office from the fourth on. After a restart the counter is reset to 1, so
   * the tutorial's shop visit leads straight to the pavilion and the forest
   * is never reached again.
   */
  lemma {:induction false} ShopVisitsLeadThroughLevels(visits: nat)
    ensures |Route(0, visits)| == |Route(1, visits)| == visits
    ensures forall i :: 0 <= i < visits ==>
      Route(0, visits)[i] == if i < 3 then [Forest, Pavilion, Factory][i] else Office
    ensures forall i :: 0 <= i < visits ==>
      Route(1, visits)[i] == if i < 2 then [Pavilion, Factory][i] else Office
  {
    RouteFromCounter(0, visits);
    RouteFromCounter(1, visits);
  }

  /** What the changer has asked of the engine, in order. */
  datatype Event = TransitionTo(scene: string) | PlayMusic(track: nat)

  /** The events one loader call produces: scene-first for the backstory and tutorial, music-first elsewhere. */
  function LoadEvents(d: Destination): (r: seq<Event>)
    ensures TransitionTo(SceneName(d)) in r
    ensures |r| == if d == StartScreen then 1 else 2
    ensures forall t: nat :: PlayMusic(t) in r <==> Track(d) == Some(t)
  {
    match Track(d)
    case None => [TransitionTo(SceneName(d))]
    case Some(t) =>
      if d == Backstory || d == Tutorial then [TransitionTo(SceneName(d)), PlayMusic(t)]
      else [PlayMusic(t), TransitionTo(SceneName(d))]
  }

  class SceneChanger {
    const gm: Registry.GameManager
    const collectorOne: Collecting.AcornCollector?
    const collectorTwo: Collecting.AcornCollector?
    var sceneName: string
    var events: seq<Event>

    constructor (manager: Registry.GameManager, one: Collecting.AcornCollector?, two: Collecting.AcornCollector?)
      ensures gm == manager && collectorOne == one && collectorTwo == two
      ensures sceneName == "" && events == []
    {
      gm, collectorOne, collectorTwo := manager, one, two;
      sceneName, events := "", [];
    }

    /** Starts the transition to the remembered scene, unless no scene is named. */
    method LoadScene()
      modifies this`events
      ensures events == if sceneName == "" then old(events) else old(events) + [TransitionTo(sceneName)]
    {
      if sceneName == "" {
        return;
      }
      events := events + [TransitionTo(sceneName)];
    }

    /** loadStart, loadBackstory, loadTutorial, loadForest, loadPavilion, loadFactory, loadOffice and loadEnd. */
    method Load(d: Destination)
      modifies this`sceneName, this`events
      ensures sceneName == SceneName(d) && events == old(events) + LoadEvents(d)
    {
      match Track(d)
      case None =>
        sceneName := SceneName(d);
        LoadScene();
      case Some(t) =>
        if d == Backstory || d == Tutorial {
          sceneName := SceneName(d);
          LoadScene();
          events := events + [PlayMusic(t)];
        } else {
          events := events + [PlayMusic(t)];
          sceneName := SceneName(d);
          LoadScene();
        }
    }

    /**
     * The shop: music, the counter advanced, the transition, then, except on
     * the way to the first shop, each player's acorns banked. A missing
     * collector throws at its read, so what follows it is not banked.
     */
    method LoadShop()
      modifies this`sceneName, this`events, gm`currentShop, gm`acornsCollectedOne, gm`acornsCollectedTwo
      ensures sceneName == ShopSceneName
      ensures events == old(events) + [PlayMusic(ShopTrack), TransitionTo(ShopSceneName)]
      ensures gm.currentShop == old(gm.currentShop) + 1
      ensures var banks := gm.currentShop != 1;
        && gm.acornsCollectedOne == old(gm.acornsCollectedOne)
             + (if banks && collectorOne != null then collectorOne.acornCount else 0)
        && gm.acornsCollectedTwo == old(gm.acornsCollectedTwo)
             + (if banks && collectorOne != null && collectorTwo != null then collectorTwo.acornCount else 0)
    {
      events := events + [PlayMusic(ShopTrack)];
      gm.currentShop := gm.currentShop + 1;
      sceneName := ShopSceneName;
      LoadScene();
      if gm.currentShop != 1 {
        if collectorOne == null {
          return;
        }
        gm.acornsCollectedOne := gm.acornsCollectedOne + collectorOne.acornCount;
        if collectorTwo == null {
          return;
        }
        gm.acornsCollectedTwo := gm.acornsCollectedTwo + collectorTwo.acornCount;
      }
    }

    /** The level after the shop, chosen by the counter. */
    method LoadMapAfterShop()
      modifies this`sceneName, this`events
      ensures sceneName == SceneName(MapAfterShop(gm.currentShop))
      ensures events == old(events) + LoadEvents(MapAfterShop(gm.currentShop))
    {
      var d: Destination;
      if gm.currentShop == 0 {
        d := Tutorial;
      } else if gm.currentShop == 1 {
        d := Forest;
      } else if gm.currentShop == 2 {
        d := Pavilion;
      } else if gm.currentShop == 3 {
        d := Factory;
      } else {
        d := Office;
      }
      Load(d);
    }

    /** Back to the start screen, with the game state reset. */
    method Restart()
      modifies this`sceneName, this`events, gm
      ensures sceneName == SceneName(StartScreen)
      ensures events == old(events) + [TransitionTo(SceneName(StartScreen))]
      ensures gm.currentShop == 1 && gm.Valid() && gm.winner == old(gm.winner)
      ensures gm.purchasedItemsOne == gm.purchasedItemsTwo == gm.equippedItemsOne == gm.equippedItemsTwo == []
      ensures gm.acornsCollectedOne == 0 && gm.acornsCollectedTwo == 0
    {
      Load(StartScreen);
      gm.ResetGameState();
    }
  }
}
