/** The puzzle game's level table and its lookup by id. */
module Levels {
  import opened Wrappers

  datatype Difficulty = Easy | Medium | Hard

  datatype Point = Point(x: int, y: int)

  datatype GridSize = GridSize(rows: int, cols: int)

  /** A connection joins two points, named by their index in `points`. */
  type Connection = (nat, nat)

  datatype Level = Level(id: int, difficulty: Difficulty, gridSize: GridSize,
                         points: seq<Point>, connections: seq<Connection>)

  /** The fifteen sample levels, five per difficulty. */
  const LEVELS: seq<Level> := [
    LEVEL_1, LEVEL_2, LEVEL_3, LEVEL_4, LEVEL_5,
    LEVEL_6, LEVEL_7, LEVEL_8, LEVEL_9, LEVEL_10,
    LEVEL_11, LEVEL_12, LEVEL_13, LEVEL_14, LEVEL_15
  ]

  const LEVEL_1: Level :=
    Level(1, Easy, GridSize(3, 3),
      [Point(0, 0), Point(1, 0), Point(0, 1), Point(1, 1)],
      [(0, 1), (1, 3), (3, 2), (2, 0)])

  const LEVEL_2: Level :=
    Level(2, Easy, GridSize(3, 3),
      [Point(0, 0), Point(1, 0), Point(2, 0)],
      [(0, 1), (1, 2)])

  const LEVEL_3: Level :=
    Level(3, Easy, GridSize(3, 3),
      [Point(0, 0), Point(1, 1), Point(0, 2), Point(1, 0), Point(1, 2)],
      [(0, 1), (1, 2), (1, 3), (1, 4)])

  const LEVEL_4: Level :=
    Level(4, Easy, GridSize(4, 3),
      [Point(0, 0), Point(1, 0), Point(0, 1), Point(1, 1), Point(0, 2), Point(1, 2)],
      [(0, 1), (0, 2), (1, 3), (2, 3), (2, 4), (3, 5), (4, 5)])

  const LEVEL_5: Level :=
    Level(5, Easy, GridSize(3, 3),
      [Point(0, 0), Point(1, 0), Point(2, 0), Point(1, 1)],
      [(0, 1), (1, 2), (1, 3)])

  const LEVEL_6: Level :=
    Level(6, Medium, GridSize(4, 4),
      [Point(0, 0), Point(1, 0), Point(2, 0), Point(0, 1), Point(1, 1), Point(2, 1)],
      [(0, 1), (1, 2), (2, 5), (5, 4), (4, 3), (3, 0), (1, 4)])

  const LEVEL_7: Level :=
    Level(7, Medium, GridSize(4, 4),
      [Point(0, 0), Point(1, 0), Point(2, 0), Point(0, 1), Point(1, 1), Point(2, 1), Point(1, 2)],
      [(0, 1), (1, 2), (2, 5), (5, 4), (4, 3), (3, 0), (1, 4), (4, 6)])

  const LEVEL_8: Level :=
    Level(8, Medium, GridSize(4, 4),
      [Point(0, 1), Point(1, 0), Point(2, 0), Point(3, 1), Point(1, 2), Point(2, 2)],
      [(0, 1), (1, 2), (2, 3), (3, 5), (5, 4), (4, 0), (1, 4), (2, 5)])

  const LEVEL_9: Level :=
    Level(9, Medium, GridSize(3, 4),
      [Point(0, 0), Point(1, 0), Point(2, 0), Point(3, 0), Point(0, 1), Point(1, 1), Point(2, 1), Point(3, 1)],
      [(0, 1), (1, 2), (2, 3), (3, 7), (7, 6), (6, 5), (5, 4), (4, 0), (1, 5), (2, 6)])

  const LEVEL_10: Level :=
    Level(10, Medium, GridSize(4, 4),
      [Point(0, 0), Point(1, 0), Point(0, 1), Point(1, 1), Point(2, 1), Point(0, 2), Point(1, 2)],
      [(0, 1), (0, 2), (1, 3), (2, 3), (2, 5), (3, 4), (3, 6), (5, 6)])

  const LEVEL_11: Level :=
    Level(11, Hard, GridSize(5, 5),
      [Point(0, 0), Point(2, 0), Point(1, 1), Point(0, 2), Point(2, 2)],
      [(0, 1), (1, 4), (4, 3), (3, 0), (0, 2), (1, 2), (4, 2), (3, 2)])

  const LEVEL_12: Level :=
    Level(12, Hard, GridSize(5, 5),
      [Point(0, 0), Point(1, 0), Point(2, 0), Point(3, 0), Point(0, 1), Point(1, 1), Point(2, 1), Point(3, 1), Point(0, 2), Point(1, 2), Point(2, 2), Point(3, 2)],
      [(0, 1), (1, 2), (2, 3), (3, 7), (7, 6), (6, 5), (5, 4), (4, 0), (4, 8), (5, 9), (6, 10), (7, 11), (8, 9), (9, 10), (10, 11)])

  const LEVEL_13: Level :=
    Level(13, Hard, GridSize(4, 4),
      [Point(0, 0), Point(1, 0), Point(2, 0), Point(0, 1), Point(1, 1), Point(2, 1), Point(0, 2), Point(1, 2), Point(2, 2)],
      [(0, 1), (1, 2), (0, 3), (1, 4), (2, 5), (3, 4), (4, 5), (3, 6), (4, 7), (5, 8), (6, 7), (7, 8)])

  const LEVEL_14: Level :=
    Level(14, Hard, GridSize(5, 5),
      [Point(2, 0), Point(0, 1), Point(1, 1), Point(2, 1), Point(3, 1), Point(4, 1), Point(1, 2), Point(3, 2), Point(2, 3)],
      [(0, 2), (0, 3), (0, 4), (1, 2), (2, 3), (3, 4), (4, 5), (1, 6), (2, 6), (3, 7), (4, 7), (5, 7), (6, 8), (7, 8)])

  const LEVEL_15: Level :=
    Level(15, Hard, GridSize(4, 5),
      [Point(0, 1), Point(1, 0), Point(2, 0), Point(3, 0), Point(4, 1), Point(1, 2), Point(2, 2), Point(3, 2)],
      [(0, 1), (1, 2), (2, 3), (3, 4), (0, 5), (1, 5), (2, 6), (3, 7), (4, 7), (5, 6), (6, 7)])

  /** `levels.find(level => level.id === id)` over any table. */
  function Find(table: seq<Level>, id: int): (r: Option<Level>)
    ensures r.None? <==> forall k :: 0 <= k < |table| ==> table[k].id != id
    ensures r.Some? ==> exists k :: 0 <= k < |table| && table[k] == r.value &&
                          table[k].id == id && forall j :: 0 <= j < k ==> table[j].id != id
  {
    if table == [] then None
    else if table[0].id == id then Some(table[0])
    else
      var rest := Find(table[1..], id);
      assert forall k :: 0 < k < |table| ==> table[k] == table[1..][k - 1];
      rest
  }

  /** `getLevelById`. */
  function GetLevelById(id: int): (r: Option<Level>)
    ensures r.None? <==> forall k :: 0 <= k < |LEVELS| ==> LEVELS[k].id != id
    ensures r.Some? ==> r.value in LEVELS && r.value.id == id
  {
    Find(LEVELS, id)
  }

  // ---- well-formedness of a level ----

  predicate EndpointsExist(level: Level) {
    forall k :: 0 <= k < |level.connections| ==>
      level.connections[k].0 < |level.points| && level.connections[k].1 < |level.points|
  }

  predicate NoSelfLoops(level: Level) {
    forall k :: 0 <= k < |level.connections| ==> level.connections[k].0 != level.connections[k].1
  }

  /** Two connections join the same two points, in either direction. */
  predicate SamePair(c: Connection, d: Connection) {
    (c.0 == d.0 && c.1 == d.1) || (c.0 == d.1 && c.1 == d.0)
  }

  predicate NoDuplicatePairs(connections: seq<Connection>) {
    forall j, k :: 0 <= j < k < |connections| ==> !SamePair(connections[j], connections[k])
  }

  predicate PointsInGrid(level: Level) {
    forall k :: 0 <= k < |level.points| ==>
      0 <= level.points[k].x < level.gridSize.cols && 0 <= level.points[k].y < level.gridSize.rows
  }

  predicate WellFormed(level: Level) {
    EndpointsExist(level) && NoSelfLoops(level) && NoDuplicatePairs(level.connections) && PointsInGrid(level)
  }

  function DifficultyOf(id: int): Difficulty {
    if id <= 5 then Easy else if id <= 10 then Medium else Hard
  }

  // ---- the same checks as recursions over an index, which the verifier can evaluate on the table ----

  /**
   * All the checks on one level as a single walk over the index `k`: connection `k` is
   * between two distinct existing points and joins other points than every later
   * connection, and point `k` lies in the grid.
   */
  predicate CheckedFrom(l: Level, k: nat)
    decreases |l.connections| + |l.points| - k
  {
    if k >= |l.connections| && k >= |l.points| then true
    else
      (k < |l.connections| ==>
        l.connections[k].0 < |l.points| && l.connections[k].1 < |l.points| &&
        l.connections[k].0 != l.connections[k].1 && UnpairedFrom(l.connections[k], l.connections, k + 1)) &&
      (k < |l.points| ==>
        0 <= l.points[k].x < l.gridSize.cols && 0 <= l.points[k].y < l.gridSize.rows) &&
      CheckedFrom(l, k + 1)
  }

  predicate UnpairedFrom(c: Connection, cs: seq<Connection>, k: nat)
    decreases |cs| - k
  {
    if k >= |cs| then true else !SamePair(c, cs[k]) && UnpairedFrom(c, cs, k + 1)
  }

  // ---- from the walks to the stated properties ----

  lemma {:induction false} UnpairedSound(c: Connection, cs: seq<Connection>, k: nat)
    requires UnpairedFrom(c, cs, k)
    ensures forall m :: k <= m < |cs| ==> !SamePair(c, cs[m])
    decreases |cs| - k
  {
    if k < |cs| {
      UnpairedSound(c, cs, k + 1);
    }
  }

  lemma {:induction false} CheckedSound(l: Level, k: nat)
    requires CheckedFrom(l, k)
    ensures forall j :: k <= j < |l.connections| ==>
              l.connections[j].0 < |l.points| && l.connections[j].1 < |l.points| &&
              l.connections[j].0 != l.connections[j].1
    ensures forall j, m :: k <= j < m < |l.connections| ==> !SamePair(l.connections[j], l.connections[m])
    ensures forall j :: k <= j < |l.points| ==>
              0 <= l.points[j].x < l.gridSize.cols && 0 <= l.points[j].y < l.gridSize.rows
    decreases |l.connections| + |l.points| - k
  {
    if k < |l.connections| || k < |l.points| {
      CheckedSound(l, k + 1);
      if k < |l.connections| {
        UnpairedSound(l.connections[k], l.connections, k + 1);
      }
    }
  }

  // ---- the table itself: one lemma per level keeps each evaluation small ----

  lemma Level1WellFormed()
    ensures WellFormed(LEVEL_1)
  {
    assert CheckedFrom(LEVEL_1, 0);
    CheckedSound(LEVEL_1, 0);
  }

  lemma Level2WellFormed()
    ensures WellFormed(LEVEL_2)
  {
    assert CheckedFrom(LEVEL_2, 0);
    CheckedSound(LEVEL_2, 0);
  }

  lemma Level3WellFormed()
    ensures WellFormed(LEVEL_3)
  {
    assert CheckedFrom(LEVEL_3, 0);
    CheckedSound(LEVEL_3, 0);
  }

  lemma Level4WellFormed()
    ensures WellFormed(LEVEL_4)
  {
    assert CheckedFrom(LEVEL_4, 0);
    CheckedSound(LEVEL_4, 0);
  }

  lemma Level5WellFormed()
    ensures WellFormed(LEVEL_5)
  {
    assert CheckedFrom(LEVEL_5, 0);
    CheckedSound(LEVEL_5, 0);
  }

  lemma Level6WellFormed()
    ensures WellFormed(LEVEL_6)
  {
    assert CheckedFrom(LEVEL_6, 0);
    CheckedSound(LEVEL_6, 0);
  }

  lemma Level7WellFormed()
    ensures WellFormed(LEVEL_7)
  {
    assert CheckedFrom(LEVEL_7, 0);
    CheckedSound(LEVEL_7, 0);
  }

  lemma Level8WellFormed()
    ensures WellFormed(LEVEL_8)
  {
    assert CheckedFrom(LEVEL_8, 0);
    CheckedSound(LEVEL_8, 0);
  }

  lemma Level9WellFormed()
    ensures WellFormed(LEVEL_9)
  {
    Level9TailChecked();
    assert CheckedFrom(LEVEL_9, 0);
    CheckedSound(LEVEL_9, 0);
  }

  lemma Level9TailChecked()
    ensures CheckedFrom(LEVEL_9, 5)
  {
  }

  lemma Level10WellFormed()
    ensures WellFormed(LEVEL_10)
  {
    Level10TailChecked();
    assert CheckedFrom(LEVEL_10, 0);
    CheckedSound(LEVEL_10, 0);
  }

  lemma Level10TailChecked()
    ensures CheckedFrom(LEVEL_10, 4)
  {
  }

  lemma Level11WellFormed()
    ensures WellFormed(LEVEL_11)
  {
    assert CheckedFrom(LEVEL_11, 0);
    CheckedSound(LEVEL_11, 0);
  }

  lemma Level12WellFormed()
    ensures WellFormed(LEVEL_12)
  {
    Level12Checked();
    CheckedSound(LEVEL_12, 0);
  }

  lemma Level12Checked()
    ensures CheckedFrom(LEVEL_12, 0)
  {
    Level12MiddleChecked();
  }

  lemma Level12MiddleChecked()
    ensures CheckedFrom(LEVEL_12, 4)
  {
    Level12TailChecked();
  }

  lemma Level12TailChecked()
    ensures CheckedFrom(LEVEL_12, 9)
  {
  }

  lemma Level13WellFormed()
    ensures WellFormed(LEVEL_13)
  {
    Level13Checked();
    CheckedSound(LEVEL_13, 0);
  }

  lemma Level13Checked()
    ensures CheckedFrom(LEVEL_13, 0)
  {
    Level13TailChecked();
  }

  lemma Level13TailChecked()
    ensures CheckedFrom(LEVEL_13, 5)
  {
  }

  lemma Level14WellFormed()
    ensures WellFormed(LEVEL_14)
  {
    Level14Checked();
    CheckedSound(LEVEL_14, 0);
  }

  lemma Level14Checked()
    ensures CheckedFrom(LEVEL_14, 0)
  {
    Level14TailChecked();
  }

  lemma Level14TailChecked()
    ensures CheckedFrom(LEVEL_14, 5)
  {
  }

  lemma Level15WellFormed()
    ensures WellFormed(LEVEL_15)
  {
    Level15TailChecked();
    assert CheckedFrom(LEVEL_15, 0);
    CheckedSound(LEVEL_15, 0);
  }

  lemma Level15TailChecked()
    ensures CheckedFrom(LEVEL_15, 5)
  {
  }

  /** Every level's endpoints exist, no level has a loop or a repeated pair, and every point is in its grid. */
  lemma LevelsWellFormed()
    ensures forall i :: 0 <= i < |LEVELS| ==> WellFormed(LEVELS[i])
  {
    Level1WellFormed(); Level2WellFormed(); Level3WellFormed(); Level4WellFormed(); Level5WellFormed();
    Level6WellFormed(); Level7WellFormed(); Level8WellFormed(); Level9WellFormed(); Level10WellFormed();
    Level11WellFormed(); Level12WellFormed(); Level13WellFormed(); Level14WellFormed(); Level15WellFormed();
  }

  /** The ids run 1..15 in table order, and the difficulty follows the id. */
  lemma LevelIds()
    ensures |LEVELS| == 15
    ensures forall i :: 0 <= i < |LEVELS| ==> LEVELS[i].id == i + 1 && LEVELS[i].difficulty == DifficultyOf(i + 1)
  {
  }

  /** Because the ids are 1..15 in order, the lookup is plain indexing. */
  lemma GetLevelByIdIndexes(id: int)
    ensures 1 <= id <= 15 ==> GetLevelById(id) == Some(LEVELS[id - 1])
    ensures !(1 <= id <= 15) ==> GetLevelById(id) == None
  {
    LevelIds();
    var r := GetLevelById(id);
    if r.Some? {
      var k :| 0 <= k < |LEVELS| && LEVELS[k] == r.value && LEVELS[k].id == id;
      assert k == id - 1;
    }
  }
}
