/**
 * The line-drawing board: the player presses on a point and drags through the
 * level's connections, each at most once; the level is complete when as many
 * different connections are drawn as the level has.
 */
module GameGrid {
  import opened JsString
  import opened JsNumber
  import opened Levels

  /**
   * `[a, b].sort().join('-')`. The default comparator of `sort` compares the
   * decimal strings of the numbers, so "10" sorts before "9".
   */
  function EdgeKey(a: nat, b: nat): (key: string)
    ensures var sa, sb := NatToString(a), NatToString(b);
            || (key == sa + "-" + sb && CodeUnitLessEq(sa, sb))
            || (key == sb + "-" + sa && CodeUnitLessEq(sb, sa))
  {
    var sa := NatToString(a);
    var sb := NatToString(b);
    if CodeUnitLessEq(sa, sb) then sa + "-" + sb
    else
      CodeUnitOrderTotal(sa, sb);
      sb + "-" + sa
  }

  function ConnectionKey(c: Connection): string {
    EdgeKey(c.0, c.1)
  }

  /** The key does not depend on the direction in which a connection is walked. */
  lemma EdgeKeySymmetric(a: nat, b: nat)
    ensures EdgeKey(a, b) == EdgeKey(b, a)
  {
    var sa, sb := NatToString(a), NatToString(b);
    CodeUnitOrderTotal(sa, sb);
    if CodeUnitLessEq(sa, sb) && CodeUnitLessEq(sb, sa) {
      CodeUnitOrderAntisymmetric(sa, sb);
    }
  }

  lemma DashAt(x: string, y: string)
    ensures (x + "-" + y)[|x|] == '-'
  {
  }

  /** A key made of two digit strings has only one place to split at the dash. */
  lemma SplitAtDash(x1: string, y1: string, x2: string, y2: string)
    requires AllDigits(x1) && AllDigits(x2)
    requires x1 + "-" + y1 == x2 + "-" + y2
    ensures x1 == x2 && y1 == y2
  {
    var s := x1 + "-" + y1;
    if |x1| < |x2| {
      DashAt(x1, y1);
      assert false;
    } else if |x2| < |x1| {
      DashAt(x2, y2);
      assert false;
    }
    assert x1 == s[..|x1|] == x2;
    assert y1 == s[|x1| + 1..] == y2;
  }

  /** Two keys are equal exactly when they name the same two points. */
  lemma EdgeKeyInjective(a: nat, b: nat, c: nat, d: nat)
    ensures EdgeKey(a, b) == EdgeKey(c, d) <==> SamePair((a, b), (c, d))
  {
    if SamePair((a, b), (c, d)) {
      EdgeKeySymmetric(a, b);
    }
    if EdgeKey(a, b) == EdgeKey(c, d) {
      var sa, sb, sc, sd := NatToString(a), NatToString(b), NatToString(c), NatToString(d);
      var x1 := if CodeUnitLessEq(sa, sb) then sa else sb;
      var y1 := if CodeUnitLessEq(sa, sb) then sb else sa;
      var x2 := if CodeUnitLessEq(sc, sd) then sc else sd;
      var y2 := if CodeUnitLessEq(sc, sd) then sd else sc;
      SplitAtDash(x1, y1, x2, y2);
      if x1 == sa {
        if x2 == sc {
          NatToStringInjective(a, c);
          NatToStringInjective(b, d);
        } else {
          NatToStringInjective(a, d);
          NatToStringInjective(b, c);
        }
      } else {
        if x2 == sc {
          NatToStringInjective(b, c);
          NatToStringInjective(a, d);
        } else {
          NatToStringInjective(b, d);
          NatToStringInjective(a, c);
        }
      }
    }
  }

  /** The keys of a list of connections, as a set. */
  function KeysOf(cs: seq<Connection>): set<string> {
    set k | 0 <= k < |cs| :: ConnectionKey(cs[k])
  }

  /** The consecutive pairs of a path; a path of one point has none. */
  function Steps(path: seq<nat>): (steps: seq<Connection>)
    ensures |steps| == if path == [] then 0 else |path| - 1
    ensures forall i :: 0 <= i < |steps| ==> steps[i] == (path[i], path[i + 1])
  {
    if |path| <= 1 then [] else [(path[0], path[1])] + Steps(path[1..])
  }

  /** `drawnConnections`: the keys of the path's consecutive pairs. */
  function DrawnKeys(path: seq<nat>): set<string> {
    KeysOf(Steps(path))
  }

  lemma KeysOfAppend(cs: seq<Connection>, c: Connection)
    ensures KeysOf(cs + [c]) == KeysOf(cs) + {ConnectionKey(c)}
  {
    var ext := cs + [c];
    forall key | key in KeysOf(ext)
      ensures key in KeysOf(cs) + {ConnectionKey(c)}
    {
      var k :| 0 <= k < |ext| && ConnectionKey(ext[k]) == key;
      if k < |cs| {
        assert ConnectionKey(cs[k]) == key;
      }
    }
    forall key | key in KeysOf(cs)
      ensures key in KeysOf(ext)
    {
      var k :| 0 <= k < |cs| && ConnectionKey(cs[k]) == key;
      assert ext[k] == cs[k];
    }
    assert ext[|cs|] == c;
  }

  /** Connections that never join the same two points have as many keys as there are connections. */
  lemma {:induction false} KeysCount(cs: seq<Connection>)
    requires NoDuplicatePairs(cs)
    ensures |KeysOf(cs)| == |cs|
    decreases |cs|
  {
    if cs != [] {
      var init, c := cs[..|cs| - 1], cs[|cs| - 1];
      assert cs == init + [c];
      assert NoDuplicatePairs(init) by {
        forall j, k | 0 <= j < k < |init|
          ensures !SamePair(init[j], init[k])
        {
          assert init[j] == cs[j] && init[k] == cs[k];
        }
      }
      KeysCount(init);
      KeysOfAppend(init, c);
      if ConnectionKey(c) in KeysOf(init) {
        var k :| 0 <= k < |init| && ConnectionKey(init[k]) == ConnectionKey(c);
        assert cs[k] == init[k];
        EdgeKeyInjective(init[k].0, init[k].1, c.0, c.1);
        assert false;
      }
    }
  }

  /**
   * The board's invariant on a path: every step follows a connection of the
   * level, and no two steps join the same two points.
   */
  predicate IsTrail(level: Level, path: seq<nat>) {
    (forall i :: 0 <= i < |Steps(path)| ==> ConnectionKey(Steps(path)[i]) in KeysOf(level.connections)) &&
    NoDuplicatePairs(Steps(path))
  }

  /** On a trail each step draws a new key: the drawn set has one key fewer than the path has points. */
  lemma DrawnCount(level: Level, path: seq<nat>)
    requires IsTrail(level, path) && path != []
    ensures |DrawnKeys(path)| == |path| - 1
  {
    KeysCount(Steps(path));
  }

  /** What a trail has drawn is among the level's connections. */
  lemma DrawnAreConnections(level: Level, path: seq<nat>)
    requires IsTrail(level, path)
    ensures DrawnKeys(path) <= KeysOf(level.connections)
  {
    forall key | key in DrawnKeys(path)
      ensures key in KeysOf(level.connections)
    {
      var k :| 0 <= k < |Steps(path)| && ConnectionKey(Steps(path)[k]) == key;
    }
  }

  lemma SubsetOfSameSize<T>(a: set<T>, b: set<T>)
    requires a <= b && |a| == |b|
    ensures a == b
  {
    if a != b {
      var x :| x in b && x !in a;
      SubsetSize(a, b - {x});
    }
  }

  lemma {:induction false} SubsetSize<T>(a: set<T>, b: set<T>)
    requires a <= b
    ensures |a| <= |b|
    decreases |a|
  {
    if a != {} {
      var x :| x in a;
      SubsetSize(a - {x}, b - {x});
    }
  }

  /**
   * The completion test `drawnConnections.size === connections.length` holds on a
   * trail exactly when every connection of the level has been drawn, provided
   * the level repeats no pair; the path then has one point more than the level
   * has connections.
   */
  lemma CompleteIffAllDrawn(level: Level, path: seq<nat>)
    ensures IsTrail(level, path) && path != [] && NoDuplicatePairs(level.connections) ==>
              && (|DrawnKeys(path)| == |level.connections| <==> DrawnKeys(path) == KeysOf(level.connections))
              && (|DrawnKeys(path)| == |level.connections| ==> |path| == |level.connections| + 1)
  {
    if IsTrail(level, path) && path != [] && NoDuplicatePairs(level.connections) {
      KeysCount(level.connections);
      DrawnAreConnections(level, path);
      DrawnCount(level, path);
      if |DrawnKeys(path)| == |level.connections| {
        SubsetOfSameSize(DrawnKeys(path), KeysOf(level.connections));
      }
    }
  }

  /** The hit-test's answer: the index of the point under the pointer, or -1. */
  predicate IsHit(level: Level, hit: int) {
    hit == -1 || 0 <= hit < |level.points|
  }

  /**
   * The path after a drag over `hit`: the point is appended when the player is
   * drawing, it is a point other than the last one, the pair is a connection of
   * the level and that pair is not drawn yet.
   */
  function Moved(level: Level, drawing: bool, path: seq<nat>, hit: int): (r: seq<nat>)
    requires drawing ==> path != []
    requires IsHit(level, hit)
    ensures path <= r && |r| <= |path| + 1
    ensures !drawing || hit == -1 ==> r == path
    ensures |r| > |path| ==>
              && r[|path|] == hit && r[|path|] != path[|path| - 1]
              && EdgeKey(path[|path| - 1], r[|path|]) in KeysOf(level.connections)
              && EdgeKey(path[|path| - 1], r[|path|]) !in DrawnKeys(path)
  {
    if drawing && hit != -1 && hit != path[|path| - 1] &&
       EdgeKey(path[|path| - 1], hit) in KeysOf(level.connections) &&
       EdgeKey(path[|path| - 1], hit) !in DrawnKeys(path)
    then path + [hit]
    else path
  }

  lemma {:induction false} StepsAppend(path: seq<nat>, p: nat)
    requires path != []
    ensures Steps(path + [p]) == Steps(path) + [(path[|path| - 1], p)]
  {
    if |path| > 1 {
      assert (path + [p])[1..] == path[1..] + [p];
      StepsAppend(path[1..], p);
    }
  }

  /** A drag keeps the path a trail. */
  lemma MovedKeepsTrail(level: Level, drawing: bool, path: seq<nat>, hit: int)
    requires drawing ==> path != []
    requires IsTrail(level, path) && IsHit(level, hit)
    ensures IsTrail(level, Moved(level, drawing, path, hit))
  {
    var next := Moved(level, drawing, path, hit);
    if next != path {
      var last := path[|path| - 1];
      var p: nat := hit;
      StepsAppend(path, p);
      var steps := Steps(path);
      assert Steps(next) == steps + [(last, p)];
      forall j | 0 <= j < |steps|
        ensures !SamePair(steps[j], (last, p))
      {
        assert ConnectionKey(steps[j]) in DrawnKeys(path);
        EdgeKeyInjective(steps[j].0, steps[j].1, last, p);
      }
      assert ConnectionKey((last, p)) == EdgeKey(last, p);
    }
  }

  class GameGrid {
    const level: Level
    var path: seq<nat>
    var isDrawing: bool

    ghost predicate Valid()
      reads this
    {
      (isDrawing ==> path != []) &&
      (forall i :: 0 <= i < |path| ==> path[i] < |level.points|) &&
      IsTrail(level, path)
    }

    constructor (level: Level)
      ensures this.level == level && path == [] && !isDrawing
      ensures Valid()
    {
      this.level := level;
      path := [];
      isDrawing := false;
    }

    /** `drawnConnections`, built by the loop over consecutive pairs. */
    method DrawnConnections() returns (drawn: set<string>)
      ensures drawn == DrawnKeys(path)
    {
      drawn := {};
      var steps := Steps(path);
      var i := 0;
      while i < |path| - 1
        invariant 0 <= i <= |steps|
        invariant drawn == KeysOf(steps[..i])
      {
        assert steps[..i + 1] == steps[..i] + [steps[i]];
        KeysOfAppend(steps[..i], steps[i]);
        drawn := drawn + {EdgeKey(path[i], path[i + 1])};
        i := i + 1;
      }
      assert steps[..i] == steps;
    }

    /**
     * The completion effect's test. On the board's paths it holds exactly when
     * every connection is drawn, provided the level repeats no pair.
     */
    function IsComplete(): (complete: bool)
      reads this
      ensures Valid() && path != [] && NoDuplicatePairs(level.connections) ==>
                && (complete <==> DrawnKeys(path) == KeysOf(level.connections))
                && (complete ==> |path| == |level.connections| + 1)
    {
      CompleteIffAllDrawn(level, path);
      |DrawnKeys(path)| == |level.connections|
    }

    /** `handleInteractionStart`: a press on a point starts a new path there. */
    method InteractionStart(hit: int)
      requires Valid() && IsHit(level, hit)
      modifies this
      ensures Valid()
      ensures hit == -1 ==> path == old(path) && isDrawing == old(isDrawing)
      ensures hit != -1 ==> path == [hit] && isDrawing
    {
      if hit != -1 {
        isDrawing := true;
        path := [hit];
      }
    }

    /** `handleInteractionMove`: extend the path along an undrawn connection. */
    method InteractionMove(hit: int)
      requires Valid() && IsHit(level, hit)
      modifies this
      ensures Valid()
      ensures isDrawing == old(isDrawing)
      ensures path == Moved(level, isDrawing, old(path), hit)
    {
      if !isDrawing {
        return;
      }
      var drawn := DrawnConnections();
      var lastPoint := path[|path| - 1];
      if hit != -1 && hit != lastPoint {
        var connectionKey := EdgeKey(lastPoint, hit);
        var isValidConnection := connectionKey in KeysOf(level.connections);
        var isAlreadyDrawn := connectionKey in drawn;
        if isValidConnection && !isAlreadyDrawn {
          MovedKeepsTrail(level, isDrawing, path, hit);
          path := path + [hit];
        }
      }
    }

    /** `handleInteractionEnd`: stop drawing, keep the path. */
    method InteractionEnd()
      requires Valid()
      modifies this
      ensures Valid()
      ensures !isDrawing && path == old(path)
    {
      isDrawing := false;
    }
  }
}
