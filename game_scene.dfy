/** The Phaser scene of the shape-matching game
    (frontend/src/components/GameCanvas.js, class `GameScene`) as an object
    whose methods update its score, error count, level and entities in
    place. Drawing, tints, tweens' timing and texture generation are not
    modelled; the random colour and shape picks, the random surprise
    offsets and the clock are inputs. */
module GameScene {
  import opened GameRules

  /** The record passed to `onInteraction` after a drop. `reactionTime` is
      `None` where JavaScript would compute `NaN` (a drop with no drag
      start recorded). */
  datatype Interaction =
    | CorrectMatch(reactionTime: Option<int>, shape: Identity, score: int)
    | IncorrectMatch(reactionTime: Option<int>, shape: Identity, errors: int)

  class Scene {
    var score: int
    var errors: int
    /** `gameConfig.level` and `gameConfig.difficulty`, possibly absent. */
    var level: Option<int>
    var difficulty: Option<string>
    /** `gameObjects`: the shapes come first, then one target per shape. */
    var shapes: seq<ShapeObj>
    var targets: seq<TargetObj>
    var isPaused: bool

    function Snapshot(): Board
      reads this
    {
      Board(shapes, targets, score, errors)
    }

    /** Targets on their row, one per shape, each wanting its shape's
        identity. */
    ghost predicate Valid()
      reads this
    {
      Laid(Snapshot()) && Paired(Snapshot())
    }

    /** `constructor` followed by `init(data)`: nothing on the board yet. */
    constructor (level: Option<int>, difficulty: Option<string>)
      ensures Valid()
      ensures score == 0 && errors == 0 && shapes == [] && targets == [] && !isPaused
      ensures this.level == level && this.difficulty == difficulty
    {
      score, errors := 0, 0;
      this.level, this.difficulty := level, difficulty;
      shapes, targets := [], [];
      isPaused := false;
    }

    /** `createDraggableShapes(count)`: shape `i` gets the i-th picked
        identity and starts at `(100 + 120 i, 200)`. */
    method CreateDraggableShapes(count: int, picks: seq<Identity>)
      requires |picks| == Created(count) && shapes == []
      modifies this`shapes
      ensures |shapes| == Created(count)
      ensures forall i :: 0 <= i < |shapes| ==> shapes[i] == NewShape(picks[i], i)
    {
      var i := 0;
      while i < count
        invariant 0 <= i <= Created(count) && |shapes| == i
        invariant forall j :: 0 <= j < i ==> shapes[j] == NewShape(picks[j], j)
      {
        shapes := shapes + [NewShape(picks[i], i)];
        i := i + 1;
      }
    }

    /** `createDropTargets(count)`: target `i` copies the colour and shape
        kind of shape `i`, sits at `(100 + 120 i, 450)` and is unfilled. */
    method CreateDropTargets(count: int)
      requires |shapes| == Created(count) && targets == []
      modifies this`targets
      ensures |targets| == |shapes|
      ensures forall i :: 0 <= i < |targets| ==> targets[i] == TargetFor(shapes[i], i)
    {
      var i := 0;
      while i < count
        invariant 0 <= i <= Created(count) && |targets| == i
        invariant forall j :: 0 <= j < i ==> targets[j] == TargetFor(shapes[j], j)
      {
        if i < |shapes| {
          targets := targets + [TargetFor(shapes[i], i)];
        }
        i := i + 1;
      }
    }

    /** `setupLevel()`: clear the board and build the shapes and the
        targets of the current level. Score, errors and level are kept. */
    method SetupLevel(picks: seq<Identity>)
      requires |picks| == Created(ShapeCount(level, difficulty))
      modifies this
      ensures Valid() && FreshLevel(Snapshot())
      ensures |shapes| == |picks| == Created(ShapeCount(level, difficulty))
      ensures forall i :: 0 <= i < |shapes| ==> shapes[i] == NewShape(picks[i], i)
      ensures score == old(score) && errors == old(errors) && isPaused == old(isPaused)
      ensures level == old(level) && difficulty == old(difficulty)
    {
      shapes, targets := [], [];
      var count := ShapeCount(level, difficulty);
      CreateDraggableShapes(count, picks);
      CreateDropTargets(count);
    }

    /** The `dragstart` handler: remember the clock reading for this shape. */
    method DragStart(k: nat, now: int)
      requires k < |shapes|
      modifies this`shapes
      ensures shapes == old(shapes)[k := old(shapes[k]).(dragStartedAt := Some(now))]
      ensures old(Valid()) ==> Valid()
    {
      shapes := shapes[k := shapes[k].(dragStartedAt := Some(now))];
    }

    /** The `drag` handler: the shape follows the pointer. */
    method DragTo(k: nat, x: real, y: real)
      requires k < |shapes|
      modifies this`shapes
      ensures shapes == old(shapes)[k := old(shapes[k]).(x := x, y := y)]
      ensures old(Valid()) ==> Valid()
    {
      shapes := shapes[k := shapes[k].(x := x, y := y)];
    }

    /** The `dragend` handler for shape `k`. A target found by
        `getDropTarget` and not yet filled takes the shape, is filled, and
        adds 10 to the score; the level is then checked for completion.
        Otherwise the shape goes back home and one error is counted. */
    method DragEnd(k: nat, now: int) returns (interaction: Interaction, completed: bool)
      requires k < |shapes|
      modifies this`shapes, this`targets, this`score, this`errors
      ensures Snapshot() == Resolve(old(Snapshot()), k).board
      ensures completed == Resolve(old(Snapshot()), k).completed
      ensures interaction.CorrectMatch? == Resolve(old(Snapshot()), k).correct
      ensures interaction.shape == old(shapes[k]).id
      ensures interaction.reactionTime == (if old(shapes[k]).dragStartedAt.Some?
                                           then Some(now - old(shapes[k]).dragStartedAt.value) else None)
      ensures interaction.CorrectMatch? ==> interaction.score == score
      ensures interaction.IncorrectMatch? ==> interaction.errors == errors
      ensures old(Valid()) ==> Valid()
    {
      var s := shapes[k];
      var reactionTime := if s.dragStartedAt.Some? then Some(now - s.dragStartedAt.value) else None;
      var found := DropTarget(targets, s.x, s.y, s.id);
      if found.Some? && !targets[found.value].filled {
        var t := targets[found.value];
        shapes := shapes[k := s.(x := t.x, y := t.y)];
        targets := targets[found.value := t.(filled := true)];
        score := score + MatchReward;
        interaction := CorrectMatch(reactionTime, s.id, score);
        completed := CheckLevelComplete();
      } else {
        shapes := shapes[k := s.(x := s.originalX, y := s.originalY)];
        errors := errors + 1;
        interaction := IncorrectMatch(reactionTime, s.id, errors);
        completed := false;
      }
    }

    /** `checkLevelComplete()`: true when the filled targets are all the
        targets. */
    method CheckLevelComplete() returns (complete: bool)
      ensures complete <==> AllFilled(targets)
    {
      complete := true;
      var i := 0;
      while i < |targets|
        invariant 0 <= i <= |targets|
        invariant complete <==> forall j :: 0 <= j < i ==> targets[j].filled
      {
        if !targets[i].filled {
          complete := false;
        }
        i := i + 1;
      }
    }

    /** The delayed step of `showLevelComplete()`: the level goes up by one
        (from `level || 1`) and the board is rebuilt; score and errors
        carry over. */
    method AdvanceLevel(picks: seq<Identity>)
      requires |picks| == Created(ShapeCount(Some(EffectiveLevel(level) + 1), difficulty))
      modifies this
      ensures level == Some(EffectiveLevel(old(level)) + 1)
      ensures Valid() && FreshLevel(Snapshot())
      ensures |shapes| == |picks| == Created(ShapeCount(level, difficulty))
      ensures forall i :: 0 <= i < |shapes| ==> shapes[i] == NewShape(picks[i], i)
      ensures score == old(score) && errors == old(errors) && difficulty == old(difficulty)
    {
      level := Some(EffectiveLevel(level) + 1);
      SetupLevel(picks);
    }

    /** `surprisePositionChange()`: every shape moves by its random offset
        (`Between(-50, 50)`, `Between(-30, 30)`). The source skips shapes
        whose `input.isDragging` is truthy, but nothing sets that property
        (Phaser's interactive object reports drags through `dragState`), so
        the test never skips a shape. */
    method SurprisePositionChange(offsets: seq<(int, int)>)
      requires |offsets| == |shapes|
      modifies this`shapes
      ensures |shapes| == |old(shapes)|
      ensures forall i :: 0 <= i < |shapes| ==>
                shapes[i] == Shifted(old(shapes[i]), offsets[i])
    {
      var i := 0;
      while i < |shapes|
        invariant 0 <= i <= |shapes| == |old(shapes)|
        invariant forall j :: 0 <= j < i ==> shapes[j] == Shifted(old(shapes[j]), offsets[j])
        invariant forall j :: i <= j < |shapes| ==> shapes[j] == old(shapes[j])
      {
        shapes := shapes[i := Shifted(shapes[i], offsets[i])];
        i := i + 1;
      }
    }

    /** `triggerSurprise(surpriseType)`: only `position_change` moves
        anything, and then every shape moves by its offset and keeps its
        identity and home; `color_change`, `size_change` and
        `sound_change` are visual only and an unknown kind does nothing.
        No surprise touches the score, the errors or any target. */
    method TriggerSurprise(kind: string, offsets: seq<(int, int)>)
      requires |offsets| == |shapes|
      requires forall i :: 0 <= i < |offsets| ==> -50 <= offsets[i].0 <= 50 && -30 <= offsets[i].1 <= 30
      requires Valid()
      modifies this`shapes
      ensures Valid()
      ensures kind != "position_change" ==> shapes == old(shapes)
      ensures |shapes| == |old(shapes)|
      ensures kind == "position_change" ==>
                forall i :: 0 <= i < |shapes| ==> shapes[i] == Shifted(old(shapes[i]), offsets[i])
      ensures forall i :: 0 <= i < |shapes| ==>
                shapes[i].id == old(shapes[i]).id && shapes[i].originalX == old(shapes[i]).originalX
                && shapes[i].originalY == old(shapes[i]).originalY
                && old(shapes[i]).x - 50.0 <= shapes[i].x <= old(shapes[i]).x + 50.0
                && old(shapes[i]).y - 30.0 <= shapes[i].y <= old(shapes[i]).y + 30.0
    {
      if kind == "position_change" {
        SurprisePositionChange(offsets);
      }
    }

    /** `pauseGame()` / `resumeGame()`: only the flag changes here (physics
        and animations are the engine's). Dragging is not blocked. */
    method PauseGame()
      modifies this`isPaused
      ensures isPaused
    {
      isPaused := true;
    }

    method ResumeGame()
      modifies this`isPaused
      ensures !isPaused
    {
      isPaused := false;
    }
  }
}
