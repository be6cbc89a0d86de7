/**
  The demo's link showcase: every link of the current page is an entity; a
  shuffled order of them is walked one step per timer period, the selected
  link's address is shown, and the space key navigates to it. The physics and
  the sprite colours are not part of this model; the random draws are
  parameters.
*/
module Links {
  import opened Wrappers
  import Br = Bridge

  type Entity = nat

  /** The link entities on screen with their addresses, and the two text sections. */
  class Scene {
    var targets: map<Entity, string>
    var nextEntity: Entity
    var heading: string
    var shown: string

    constructor (nextEntity: Entity)
      ensures targets == map[] && this.nextEntity == nextEntity
      ensures heading == "Links in current webpage" && shown == ""
    {
      targets := map[];
      this.nextEntity := nextEntity;
      heading := "Links in current webpage";
      shown := "";
    }
  }

  /** The showcase order of the link entities, and the position of the selected one. */
  class LinkSelection {
    var order: seq<Entity>
    var idx: nat

    constructor ()
      ensures order == [] && idx == 0
    {
      order := [];
      idx := 0;
    }
  }

  /** Whether the showcase has started, that is, the heading has been switched. */
  class SelectionState {
    var hasTriggered: bool

    constructor ()
      ensures !hasTriggered
    {
      hasTriggered := false;
    }
  }

  /** The events queued for the page. */
  class Outbox {
    var events: seq<Br.PageEvent>

    constructor ()
      ensures events == []
    {
      events := [];
    }
  }

  /** The `count` entities from `first` on, in order. */
  function Range(first: Entity, count: nat): (r: seq<Entity>)
    ensures |r| == count && forall i | 0 <= i < count :: r[i] == first + i
  {
    seq(count, i requires 0 <= i < count => first + i)
  }

  /** The entities of a range are exactly those between its ends. */
  lemma RangeMembers(first: Entity, count: nat)
    ensures forall e :: e in Range(first, count) <==> first <= e < first + count
  {
    forall e | first <= e < first + count
      ensures e in Range(first, count)
    {
      assert Range(first, count)[e - first] == e;
    }
  }

  // ---------------------------------------------------------------------------
  // A new page

  /** The links of a page on the entities from `first` on, the i-th link on entity `first + i`. */
  function Spawned(first: Entity, links: seq<string>): (m: map<Entity, string>)
    ensures forall e :: e in m <==> first <= e < first + |links|
    ensures forall i | 0 <= i < |links| :: m[first + i] == links[i]
  {
    RangeMembers(first, |links|);
    var keys := Range(first, |links|);
    map e | e in keys :: assert first <= e < first + |links|; links[e - first]
  }

  /** Spawning one more link extends both the order and the map by that link's entity. */
  lemma SpawnStep(first: Entity, links: seq<string>, i: nat)
    requires i < |links|
    ensures Range(first, i) + [first + i] == Range(first, i + 1)
    ensures Spawned(first, links[..i])[first + i := links[i]] == Spawned(first, links[..i + 1])
  {
    assert Range(first, i) + [first + i] == Range(first, i + 1);
    var m := Spawned(first, links[..i])[first + i := links[i]];
    var m' := Spawned(first, links[..i + 1]);
    assert m.Keys == m'.Keys;
    forall e | e in m
      ensures m[e] == m'[e]
    {
      assert links[..i + 1][e - first] == links[e - first];
    }
  }

  /**
    Shuffles the order in place, the way a Fisher-Yates shuffle does: from the
    back, each position is swapped with one drawn at or before it; `draw`
    supplies the random draws.
  */
  method Shuffle(selection: LinkSelection, draw: nat -> nat)
    modifies selection
    ensures multiset(selection.order) == multiset(old(selection.order))
    ensures |selection.order| == |old(selection.order)| && selection.idx == old(selection.idx)
  {
    var k := |selection.order|;
    while k > 1
      invariant 0 <= k <= |selection.order| == |old(selection.order)|
      invariant multiset(selection.order) == multiset(old(selection.order))
      invariant selection.idx == old(selection.idx)
    {
      var i := k - 1;
      var j := draw(i) % k;
      var order := selection.order;
      selection.order := order[i := order[j]][j := order[i]];
      k := k - 1;
    }
  }

  /**
    Spawns the links of the first unread page, if there is one: the old links
    go, one fresh entity per link comes, and the order is the new entities
    shuffled. The selected position is left as it was.
  */
  method SpawnLinks(page: Option<Br.NewPage>, scene: Scene, selection: LinkSelection, draw: nat -> nat)
    modifies scene, selection
    ensures page.None? ==> unchanged(scene, selection)
    ensures page.Some? ==>
      && scene.nextEntity == old(scene.nextEntity) + |page.value.links|
      && scene.targets == Spawned(old(scene.nextEntity), page.value.links)
      && multiset(selection.order) == multiset(Range(old(scene.nextEntity), |page.value.links|))
      && selection.idx == old(selection.idx)
      && scene.heading == old(scene.heading) && scene.shown == old(scene.shown)
  {
    if page.None? {
      return;
    }
    var links := page.value.links;
    var first := scene.nextEntity;
    scene.targets := map[];
    selection.order := [];
    var i := 0;
    while i < |links|
      invariant 0 <= i <= |links|
      invariant scene.nextEntity == first + i
      invariant selection.order == Range(first, i)
      invariant scene.targets == Spawned(first, links[..i])
      invariant selection.idx == old(selection.idx)
      invariant scene.heading == old(scene.heading) && scene.shown == old(scene.shown)
    {
      SpawnStep(first, links, i);
      var entity := scene.nextEntity;
      scene.nextEntity := scene.nextEntity + 1;
      scene.targets := scene.targets[entity := links[i]];
      selection.order := selection.order + [entity];
      i := i + 1;
    }
    assert links[..i] == links;
    Shuffle(selection, draw);
  }

  /** After a new page every entity in the order is a link on screen, and every link is in the order. */
  lemma OrderCoversLinks(order: seq<Entity>, first: Entity, links: seq<string>)
    requires multiset(order) == multiset(Range(first, |links|))
    ensures forall e :: e in order <==> e in Spawned(first, links)
  {
    forall e
      ensures e in order <==> e in Spawned(first, links)
    {
      calc {
        e in order;
        e in multiset(order);
        e in multiset(Range(first, |links|));
        e in Range(first, |links|);
      }
      if e in Range(first, |links|) {
        var i :| 0 <= i < |links| && Range(first, |links|)[i] == e;
        assert first + i == e;
      }
      if e in Spawned(first, links) {
        assert Range(first, |links|)[e - first] == e;
      }
    }
  }

  // ---------------------------------------------------------------------------
  // The showcase

  /**
    On a timer period, with a link selected, moves the selection one step on,
    wrapping at the end, and shows the newly selected link's address; the
    first time, the heading is switched.
  */
  method SelectNext(selection: LinkSelection, state: SelectionState, scene: Scene, timerFinished: bool)
    modifies selection, state, scene
    ensures selection.order == old(selection.order) && scene.targets == old(scene.targets)
    ensures scene.nextEntity == old(scene.nextEntity)
    ensures old(selection.idx) >= |selection.order| || !timerFinished ==> unchanged(selection, state, scene)
    ensures old(selection.idx) < |selection.order| && timerFinished ==>
      && selection.idx == (old(selection.idx) + 1) % |selection.order|
      && state.hasTriggered
      && scene.heading == (if old(state.hasTriggered) then old(scene.heading) else "Link: ")
      && scene.shown == (match Navigation(true, selection.order, selection.idx, scene.targets)
                         case Some(event) => event.page
                         case None => old(scene.shown))
  {
    if selection.idx >= |selection.order| {
      return;
    }
    if !timerFinished {
      return;
    }
    if !state.hasTriggered {
      scene.heading := "Link: ";
      state.hasTriggered := true;
    }
    if selection.idx + 1 < |selection.order| {
      selection.idx := selection.idx + 1;
    } else {
      selection.idx := 0;
    }
    var entity := selection.order[selection.idx];
    if entity in scene.targets {
      scene.shown := scene.targets[entity];
    }
  }

  /** Once a selection is within the order it stays within it, so the showcase keeps going. */
  lemma StepStaysInOrder(idx: nat, count: nat)
    requires idx < count
    ensures (idx + 1) % count < count
    ensures count > 1 ==> (idx + 1) % count != idx
  {
  }

  // ---------------------------------------------------------------------------
  // Navigation

  /** What the navigation system does when it runs, in the form it has in the source. */
  datatype NavigateResult = Panic | Sent(event: Option<Br.PageEvent>)

  /**
    The navigation step as written: on space, it indexes the order at the
    selected position without a bounds check.
  */
  function NavigateAsWritten(spacePressed: bool, order: seq<Entity>, idx: nat, targets: map<Entity, string>): (r: NavigateResult)
    ensures r.Panic? <==> spacePressed && idx >= |order|
  {
    if !spacePressed then Sent(None)
    else if idx >= |order| then Panic
    else if order[idx] in targets then Sent(Some(Br.NavigateToPage(targets[order[idx]])))
    else Sent(None)
  }

  /** Pressing space before the first page has arrived stops the program. */
  lemma NavigateBeforeFirstPagePanics()
    ensures NavigateAsWritten(true, [], 0, map[]) == Panic
  {
  }

  /**
    A page with fewer links than the selected position leaves the selection
    outside the new order, and space then stops the program.
  */
  lemma NavigateAfterShorterPagePanics(targets: map<Entity, string>)
    ensures NavigateAsWritten(true, [7, 8], 2, targets) == Panic
  {
  }

  /**
    The navigation event on space: the selected link's address, when the
    selection is within the order and the entity is still a link; none
    otherwise.
  */
  function Navigation(spacePressed: bool, order: seq<Entity>, idx: nat, targets: map<Entity, string>): (r: Option<Br.PageEvent>)
    ensures r.Some? <==> spacePressed && idx < |order| && order[idx] in targets
    ensures r.Some? ==> r.value.page == targets[order[idx]]
  {
    if spacePressed && idx < |order| && order[idx] in targets then
      Some(Br.NavigateToPage(targets[order[idx]]))
    else
      None
  }

  /** Wherever the written step does not stop the program, the corrected one does the same. */
  lemma NavigationAgreesWhereDefined(spacePressed: bool, order: seq<Entity>, idx: nat, targets: map<Entity, string>)
    ensures NavigateAsWritten(spacePressed, order, idx, targets).Sent? ==>
      NavigateAsWritten(spacePressed, order, idx, targets).event == Navigation(spacePressed, order, idx, targets)
  {
  }

  /** Queues the navigation event for the selected link, if there is one. */
  method Navigate(selection: LinkSelection, scene: Scene, spacePressed: bool, outbox: Outbox)
    modifies outbox
    ensures outbox.events == old(outbox.events) +
      (match Navigation(spacePressed, selection.order, selection.idx, scene.targets)
       case Some(event) => [event]
       case None => [])
  {
    if !spacePressed {
      return;
    }
    if selection.idx < |selection.order| && selection.order[selection.idx] in scene.targets {
      var target := scene.targets[selection.order[selection.idx]];
      outbox.events := outbox.events + [Br.NavigateToPage(target)];
    }
  }
}
