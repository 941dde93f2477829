/** The rules of the shape-matching game (frontend/src/components/GameCanvas.js,
    class `GameScene`) stated on values: how many shapes a level has, where
    shapes and targets sit, which target a drop lands on, and what a drop
    does to the score, the error count and the targets. The class in
    game_scene.dfy is proved to follow these rules. */
module GameRules {

  /** A colour and a shape kind, as picked at random for each shape. */
  datatype Identity = Identity(color: string, shape: string)

  /** A draggable shape: its identity, where it is now, where it started,
      and the clock reading of its last drag start (`undefined` before the
      first). */
  datatype ShapeObj = ShapeObj(id: Identity, x: real, y: real, originalX: real, originalY: real,
                               dragStartedAt: Option<int>)

  /** A drop target: the identity it wants, its position, whether it has
      been filled. */
  datatype TargetObj = TargetObj(id: Identity, x: real, y: real, filled: bool)

  datatype Option<+T> = None | Some(value: T)

  /** The part of the scene the rules act on. */
  datatype Board = Board(shapes: seq<ShapeObj>, targets: seq<TargetObj>, score: int, errors: int)

  const ShapeRowY: real := 200.0
  const TargetRowY: real := 450.0
  /** 60 units, squared: a drop counts when the distance is below 60. */
  const DropRadiusSquared: real := 3600.0
  const MatchReward: int := 10

  /** `x = 100 + i * 120` for the i-th shape and the i-th target. */
  function RowX(i: nat): real {
    100.0 + 120.0 * (i as real)
  }

  /** `gameConfig.level || 1`: a missing or zero level counts as 1. */
  function EffectiveLevel(level: Option<int>): (r: int)
    ensures r != 0
    ensures level.Some? && level.value != 0 ==> r == level.value
    ensures !(level.Some? && level.value != 0) ==> r == 1
  {
    if level.Some? && level.value != 0 then level.value else 1
  }

  /** `gameConfig.difficulty || 'easy'`: a missing or empty difficulty is
      easy. */
  function EffectiveDifficulty(difficulty: Option<string>): (r: string)
    ensures r != ""
    ensures difficulty.Some? && difficulty.value != "" ==> r == difficulty.value
    ensures !(difficulty.Some? && difficulty.value != "") ==> r == "easy"
  {
    if difficulty.Some? && difficulty.value != "" then difficulty.value else "easy"
  }

  function Min(a: int, b: int): int {
    if a <= b then a else b
  }

  /** `numberOfShapes` in `setupLevel`: `min(3 + level, 6)` on easy,
      `min(4 + level, 8)` on any other difficulty. */
  function ShapeCount(level: Option<int>, difficulty: Option<string>): (n: int)
    ensures EffectiveDifficulty(difficulty) == "easy" ==>
              n <= 6 && n <= 3 + EffectiveLevel(level) && (n == 6 || n == 3 + EffectiveLevel(level))
    ensures EffectiveDifficulty(difficulty) != "easy" ==>
              n <= 8 && n <= 4 + EffectiveLevel(level) && (n == 8 || n == 4 + EffectiveLevel(level))
  {
    var lv := EffectiveLevel(level);
    if EffectiveDifficulty(difficulty) == "easy" then Min(3 + lv, 6) else Min(4 + lv, 8)
  }

  /** How many shapes the creation loops actually make: `for (i = 0; i <
      count; i++)` makes none for a count below one. */
  function Created(count: int): (n: nat)
    ensures count >= 0 ==> n == count
    ensures count < 0 ==> n == 0
  {
    if count < 0 then 0 else count
  }

  /** The i-th shape of a fresh level. */
  function NewShape(id: Identity, i: nat): ShapeObj {
    ShapeObj(id, RowX(i), ShapeRowY, RowX(i), ShapeRowY, None)
  }

  /** A shape moved by a surprise offset: only its position changes. */
  function Shifted(s: ShapeObj, offset: (int, int)): ShapeObj {
    s.(x := s.x + offset.0 as real, y := s.y + offset.1 as real)
  }

  /** The i-th target, copied from the i-th shape. */
  function TargetFor(s: ShapeObj, i: nat): TargetObj {
    TargetObj(s.id, RowX(i), TargetRowY, false)
  }

  /** Targets sit on one row, 120 apart, in creation order, and there is
      one per shape. */
  ghost predicate Laid(b: Board) {
    && |b.shapes| == |b.targets|
    && (forall i :: 0 <= i < |b.targets| ==> b.targets[i].x == RowX(i) && b.targets[i].y == TargetRowY)
    && (forall i :: 0 <= i < |b.shapes| ==> b.shapes[i].originalX == RowX(i) && b.shapes[i].originalY == ShapeRowY)
  }

  /** Each target wants the identity of the shape it was copied from. */
  ghost predicate Paired(b: Board) {
    |b.shapes| == |b.targets| && forall i :: 0 <= i < |b.targets| ==> b.targets[i].id == b.shapes[i].id
  }

  /** The state `setupLevel` leaves: laid out, paired, nothing filled. */
  ghost predicate FreshLevel(b: Board) {
    Laid(b) && Paired(b) && forall i :: 0 <= i < |b.targets| ==> !b.targets[i].filled
  }

  function SqDist(x: real, y: real, tx: real, ty: real): real {
    (x - tx) * (x - tx) + (y - ty) * (y - ty)
  }

  /** `Distance.Between(x, y, t.x, t.y) < 60`, compared squared. */
  predicate InRange(x: real, y: real, t: TargetObj) {
    SqDist(x, y, t.x, t.y) < DropRadiusSquared
  }

  /** The test inside `getDropTarget`: close enough and the same colour and
      shape kind. The `filled` flag is not consulted. */
  predicate Accepts(t: TargetObj, x: real, y: real, id: Identity) {
    InRange(x, y, t) && t.id.color == id.color && t.id.shape == id.shape
  }

  /** `getDropTarget(x, y, shapeData)` searching from index `from`: the
      first target in creation order that accepts the drop. */
  function DropTargetFrom(targets: seq<TargetObj>, x: real, y: real, id: Identity, from: nat): (r: Option<nat>)
    requires from <= |targets|
    ensures r.Some? ==> from <= r.value < |targets| && Accepts(targets[r.value], x, y, id)
    ensures r.Some? ==> forall j :: from <= j < r.value ==> !Accepts(targets[j], x, y, id)
    ensures r.None? ==> forall j :: from <= j < |targets| ==> !Accepts(targets[j], x, y, id)
    decreases |targets| - from
  {
    if from == |targets| then None
    else if Accepts(targets[from], x, y, id) then Some(from)
    else DropTargetFrom(targets, x, y, id, from + 1)
  }

  /** `getDropTarget(x, y, shapeData)`, as an index into the targets. */
  function DropTarget(targets: seq<TargetObj>, x: real, y: real, id: Identity): Option<nat> {
    DropTargetFrom(targets, x, y, id, 0)
  }

  /** Every target is filled: the test of `checkLevelComplete`. */
  predicate AllFilled(targets: seq<TargetObj>) {
    forall i :: 0 <= i < |targets| ==> targets[i].filled
  }

  /** What one drop did. */
  datatype DropResult = DropResult(board: Board, correct: bool, completed: bool)

  /** The `dragend` handler for shape `k`, dropped where it now is. A found,
      unfilled target takes the shape, is filled and scores 10; then the
      level is complete when every target is filled. Anything else sends
      the shape home and counts one error. */
  function Resolve(b: Board, k: nat): (r: DropResult)
    requires k < |b.shapes|
    ensures |r.board.shapes| == |b.shapes| && |r.board.targets| == |b.targets|
    ensures r.correct <==> (var t := DropTarget(b.targets, b.shapes[k].x, b.shapes[k].y, b.shapes[k].id);
                           t.Some? && !b.targets[t.value].filled)
    ensures r.correct ==>
              && var t := DropTarget(b.targets, b.shapes[k].x, b.shapes[k].y, b.shapes[k].id).value;
              && !b.targets[t].filled
              && r.board.shapes == b.shapes[k := b.shapes[k].(x := b.targets[t].x, y := b.targets[t].y)]
              && r.board.targets == b.targets[t := b.targets[t].(filled := true)]
              && r.board.score == b.score + MatchReward && r.board.errors == b.errors
    ensures !r.correct ==>
              && r.board.shapes == b.shapes[k := b.shapes[k].(x := b.shapes[k].originalX, y := b.shapes[k].originalY)]
              && r.board.targets == b.targets
              && r.board.score == b.score && r.board.errors == b.errors + 1
    ensures r.completed <==> r.correct && AllFilled(r.board.targets)
  {
    var s := b.shapes[k];
    var found := DropTarget(b.targets, s.x, s.y, s.id);
    if found.Some? && !b.targets[found.value].filled then
      var t := b.targets[found.value];
      var shapes' := b.shapes[k := s.(x := t.x, y := t.y)];
      var targets' := b.targets[found.value := t.(filled := true)];
      DropResult(Board(shapes', targets', b.score + MatchReward, b.errors), true, AllFilled(targets'))
    else
      var shapes' := b.shapes[k := s.(x := s.originalX, y := s.originalY)];
      DropResult(Board(shapes', b.targets, b.score, b.errors + 1), false, false)
  }

  /** One user gesture: shape `k` dragged to `(x, y)` and let go. */
  datatype Drop = Drop(k: nat, x: real, y: real)

  /** The `drag` handler moves the shape to the pointer; then `dragend`. */
  function DropAt(b: Board, d: Drop): DropResult
    requires d.k < |b.shapes|
  {
    Resolve(b.(shapes := b.shapes[d.k := b.shapes[d.k].(x := d.x, y := d.y)]), d.k)
  }

  predicate ValidDrops(b: Board, drops: seq<Drop>) {
    forall i :: 0 <= i < |drops| ==> drops[i].k < |b.shapes|
  }

  /** The board after a run of drops, and how many of them completed the
      level (each completion is one `showLevelComplete`). */
  function Play(b: Board, drops: seq<Drop>): (r: (Board, nat))
    requires ValidDrops(b, drops)
    ensures |r.0.shapes| == |b.shapes|
    decreases |drops|
  {
    if drops == [] then (b, 0)
    else
      var step := DropAt(b, drops[0]);
      var rest := Play(step.board, drops[1..]);
      (rest.0, rest.1 + (if step.completed then 1 else 0))
  }
}

module GameRulesProps {
  import opened GameRules

  /** A number at least 60 away from zero has a square of at least 3600. */
  lemma SquareAtLeast(a: real)
    ensures a >= 60.0 || a <= -60.0 ==> a * a >= DropRadiusSquared
  {
    if a >= 60.0 {
      assert a * a >= 60.0 * a;
    } else if a <= -60.0 {
      assert a * a >= -60.0 * a;
    }
  }

  lemma InRangeColumn(x: real, y: real, t: TargetObj)
    requires InRange(x, y, t)
    ensures -60.0 < x - t.x < 60.0
  {
    var dx, dy := x - t.x, y - t.y;
    assert SqDist(x, y, t.x, t.y) == dx * dx + dy * dy;
    assert dy * dy >= 0.0;
    SquareAtLeast(dx);
  }

  /** Two different targets are at least 120 apart along the row. */
  lemma RowGap(i: nat, j: nat)
    ensures i < j ==> RowX(j) - RowX(i) >= 120.0
    ensures j < i ==> RowX(i) - RowX(j) >= 120.0
  {
    if i < j {
      assert RowX(j) - RowX(i) == 120.0 * ((j - i) as real);
    } else if j < i {
      assert RowX(i) - RowX(j) == 120.0 * ((i - j) as real);
    }
  }

  /** Targets sit 120 apart on one row, so no point is within 60 of two of
      them. */
  lemma AtMostOneTargetInRange(b: Board, x: real, y: real, i: nat, j: nat)
    requires Laid(b) && i < |b.targets| && j < |b.targets|
    requires InRange(x, y, b.targets[i]) && InRange(x, y, b.targets[j])
    ensures i == j
  {
    InRangeColumn(x, y, b.targets[i]);
    InRangeColumn(x, y, b.targets[j]);
    RowGap(i, j);
  }

  /** So the "first" target `getDropTarget` returns is the only one in
      range of the drop point. */
  lemma DropTargetIsOnlyOneInRange(b: Board, x: real, y: real, id: Identity, j: nat)
    requires Laid(b) && j < |b.targets|
    requires DropTarget(b.targets, x, y, id).Some? && j != DropTarget(b.targets, x, y, id).value
    ensures !InRange(x, y, b.targets[j])
  {
    var t := DropTarget(b.targets, x, y, id).value;
    if InRange(x, y, b.targets[j]) {
      AtMostOneTargetInRange(b, x, y, t, j);
    }
  }

  /** Number of filled targets. */
  function FilledCount(targets: seq<TargetObj>): (n: nat)
    ensures n <= |targets|
  {
    if targets == [] then 0 else (if targets[0].filled then 1 else 0) + FilledCount(targets[1..])
  }

  lemma {:induction false} FillOne(targets: seq<TargetObj>, t: nat)
    requires t < |targets| && !targets[t].filled
    ensures FilledCount(targets[t := targets[t].(filled := true)]) == FilledCount(targets) + 1
    decreases |targets|
  {
    var u := targets[t := targets[t].(filled := true)];
    if t == 0 {
      assert u[1..] == targets[1..];
    } else {
      assert u[1..] == targets[1..][t - 1 := targets[t].(filled := true)];
      FillOne(targets[1..], t - 1);
    }
  }

  lemma {:induction false} AllFilledCount(targets: seq<TargetObj>)
    ensures AllFilled(targets) <==> FilledCount(targets) == |targets|
    decreases |targets|
  {
    if targets != [] {
      AllFilledCount(targets[1..]);
      if FilledCount(targets) == |targets| {
        assert targets[0].filled;
        forall i | 0 <= i < |targets| ensures targets[i].filled {
          if i > 0 { assert targets[1..][i - 1] == targets[i]; }
        }
      }
      if AllFilled(targets) {
        assert AllFilled(targets[1..]) by {
          forall i | 0 <= i < |targets| - 1 ensures targets[1..][i].filled {
            assert targets[1..][i] == targets[i + 1];
          }
        }
      }
    }
  }

  /** A drop changes the filled count by exactly its correctness: a correct
      match fills one more target, anything else fills none. */
  lemma ResolveFillCount(b: Board, k: nat)
    requires k < |b.shapes|
    ensures var r := Resolve(b, k);
            FilledCount(r.board.targets) == FilledCount(b.targets) + (if r.correct then 1 else 0)
  {
    var r := Resolve(b, k);
    if r.correct {
      var s := b.shapes[k];
      FillOne(b.targets, DropTarget(b.targets, s.x, s.y, s.id).value);
    }
  }

  /** A drop keeps the layout and the pairing: shapes keep their identity
      and home, targets their identity and position. */
  lemma ResolveKeepsLayout(b: Board, k: nat)
    requires k < |b.shapes|
    ensures Laid(b) ==> Laid(Resolve(b, k).board)
    ensures Paired(b) ==> Paired(Resolve(b, k).board)
  {
  }

  lemma DropAtKeepsLayout(b: Board, d: Drop)
    requires d.k < |b.shapes|
    ensures Laid(b) ==> Laid(DropAt(b, d).board)
    ensures Paired(b) ==> Paired(DropAt(b, d).board)
    ensures FilledCount(DropAt(b, d).board.targets) == FilledCount(b.targets) + (if DropAt(b, d).correct then 1 else 0)
  {
    var moved := b.(shapes := b.shapes[d.k := b.shapes[d.k].(x := d.x, y := d.y)]);
    ResolveKeepsLayout(moved, d.k);
    ResolveFillCount(moved, d.k);
  }

  /** Once every target is filled no drop can be correct, so nothing
      changes the targets any more and the level cannot complete again. */
  lemma {:induction false} NoCompletionWhenAllFilled(b: Board, drops: seq<Drop>)
    requires ValidDrops(b, drops) && AllFilled(b.targets)
    ensures Play(b, drops).1 == 0
    ensures Play(b, drops).0.targets == b.targets
    decreases |drops|
  {
    if drops != [] {
      var step := DropAt(b, drops[0]);
      assert !step.correct;
      assert ValidDrops(step.board, drops[1..]) by {
        forall i | 0 <= i < |drops[1..]| ensures drops[1..][i].k < |step.board.shapes| {
          assert drops[1..][i] == drops[i + 1];
        }
      }
      NoCompletionWhenAllFilled(step.board, drops[1..]);
    }
  }

  lemma ValidDropsTail(b: Board, drops: seq<Drop>, b': Board)
    requires ValidDrops(b, drops) && drops != [] && |b'.shapes| == |b.shapes|
    ensures ValidDrops(b', drops[1..])
  {
    forall i | 0 <= i < |drops[1..]| ensures drops[1..][i].k < |b'.shapes| {
      assert drops[1..][i] == drops[i + 1];
    }
  }

  /** Level completion fires at most once per level, whatever the drops. */
  lemma {:induction false} CompletesAtMostOnce(b: Board, drops: seq<Drop>)
    requires ValidDrops(b, drops)
    ensures Play(b, drops).1 <= 1
    decreases |drops|
  {
    if drops != [] {
      var step := DropAt(b, drops[0]);
      ValidDropsTail(b, drops, step.board);
      if step.completed {
        NoCompletionWhenAllFilled(step.board, drops[1..]);
      } else {
        CompletesAtMostOnce(step.board, drops[1..]);
      }
    }
  }

  /** Over any run of drops on a laid-out level, the score rises by exactly
      10 per newly filled target and every other drop is one error. */
  lemma {:induction false} ScoreAndErrorsAccount(b: Board, drops: seq<Drop>)
    requires ValidDrops(b, drops)
    ensures var fin := Play(b, drops).0;
            var gained := FilledCount(fin.targets) - FilledCount(b.targets);
            gained >= 0
            && fin.score == b.score + MatchReward * gained
            && fin.errors == b.errors + |drops| - gained
    decreases |drops|
  {
    if drops != [] {
      var step := DropAt(b, drops[0]);
      DropAtKeepsLayout(b, drops[0]);
      ValidDropsTail(b, drops, step.board);
      ScoreAndErrorsAccount(step.board, drops[1..]);
    }
  }

  /** Dropping each shape on its own target, in order. */
  function OwnTargetDrops(from: nat, n: nat): (drops: seq<Drop>)
    requires from <= n
    ensures |drops| == n - from
    ensures forall i :: 0 <= i < |drops| ==> drops[i] == Drop(from + i, RowX(from + i), TargetRowY)
    decreases n - from
  {
    if from == n then [] else [Drop(from, RowX(from), TargetRowY)] + OwnTargetDrops(from + 1, n)
  }

  /** Laid out and paired, with exactly the targets before `from` filled. */
  ghost predicate FilledUpTo(b: Board, from: nat) {
    Laid(b) && Paired(b) && from <= |b.targets|
    && forall i :: 0 <= i < |b.targets| ==> (b.targets[i].filled <==> i < from)
  }

  /** Shape `i` dropped exactly on target `i` is accepted there. */
  lemma OwnTargetFound(b: Board, i: nat)
    requires Laid(b) && Paired(b) && i < |b.targets|
    ensures DropTarget(b.targets, RowX(i), TargetRowY, b.shapes[i].id) == Some(i)
  {
    var t := b.targets[i];
    assert SqDist(RowX(i), TargetRowY, t.x, t.y) == 0.0;
    assert Accepts(t, RowX(i), TargetRowY, b.shapes[i].id);
    var r := DropTarget(b.targets, RowX(i), TargetRowY, b.shapes[i].id);
    if r.value != i {
      AtMostOneTargetInRange(b, RowX(i), TargetRowY, r.value, i);
    }
  }

  lemma {:induction false} OwnDropsComplete(b: Board, from: nat)
    requires FilledUpTo(b, from) && from < |b.targets|
    ensures ValidDrops(b, OwnTargetDrops(from, |b.targets|))
    ensures var r := Play(b, OwnTargetDrops(from, |b.targets|));
            r.1 == 1 && AllFilled(r.0.targets)
            && r.0.score == b.score + MatchReward * (|b.targets| - from) && r.0.errors == b.errors
    decreases |b.targets| - from
  {
    var n := |b.targets|;
    var drops := OwnTargetDrops(from, n);
    assert drops[0] == Drop(from, RowX(from), TargetRowY);
    var moved := b.(shapes := b.shapes[from := b.shapes[from].(x := RowX(from), y := TargetRowY)]);
    assert Laid(moved) && Paired(moved);
    OwnTargetFound(moved, from);
    var step := DropAt(b, drops[0]);
    assert step.correct;
    assert step.board.targets == b.targets[from := b.targets[from].(filled := true)];
    assert drops[1..] == OwnTargetDrops(from + 1, n);
    DropAtKeepsLayout(b, drops[0]);
    if from + 1 == n {
      assert AllFilled(step.board.targets);
      assert drops[1..] == [];
    } else {
      assert !step.completed by { assert !step.board.targets[from + 1].filled; }
      assert FilledUpTo(step.board, from + 1);
      OwnDropsComplete(step.board, from + 1);
    }
  }

  /** A level of 1 or more always has shapes (at least four), so the
      completion lemma below applies to it. */
  lemma PositiveLevelHasShapes(level: Option<int>, difficulty: Option<string>)
    requires EffectiveLevel(level) >= 1
    ensures Created(ShapeCount(level, difficulty)) >= 4
  {
  }

  /** Every level can be completed: on a freshly set-up level with at least
      one target, dropping each shape on its own target completes the level
      exactly once, scoring 10 per target and no error. */
  lemma LevelCompletable(b: Board)
    requires FreshLevel(b) && |b.targets| > 0
    ensures ValidDrops(b, OwnTargetDrops(0, |b.targets|))
    ensures var r := Play(b, OwnTargetDrops(0, |b.targets|));
            r.1 == 1 && AllFilled(r.0.targets)
            && r.0.score == b.score + MatchReward * |b.targets| && r.0.errors == b.errors
  {
    OwnDropsComplete(b, 0);
  }
}
