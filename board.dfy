/** The occupancy grid and the cubes that wander on it (Main.c:37-73, 222-250, 274-277,
    400-484, 541-548, 584-649). Each cell of the 6x6 grid is a binary semaphore whose
    value is 1 while the cell is free and 0 while a cube holds it; a cube claims its
    destination before it frees its source. */
module Board {
  import opened Lfsr
  import opened Lifecycle
  import Collision

  const Width := 6           // HORIZONAL_NUM_BLOCKS
  const Height := 6          // VERTICAL_NUM_BLOCKS
  const NumCubes := 5        // NUM_CUBES
  const MaxCubeLifetime := 20
  const MaxAttempts := 50    // placement attempts before the game halts

  datatype Option<T> = None | Some(value: T)

  /** enum Direction: the value is also the slot in valid_directions. */
  type Direction = d: int | 0 <= d < 4
  const Up: Direction := 0
  const Down: Direction := 1
  const Left: Direction := 2
  const Right: Direction := 3

  /** struct Cube without its drawing colour and its lock. */
  datatype Cube = Cube(x: int, y: int, dir: Direction, dead: bool, life: int, powerup: PowerUp)

  predicate InGrid(x: int, y: int)
  {
    0 <= x < Width && 0 <= y < Height
  }

  /** The cell one step from (x, y) towards d; row 0 is the top row. */
  function Neighbour(x: int, y: int, d: Direction): (n: (int, int))
    ensures d == Up || d == Down <==> n.0 == x
    ensures d == Left || d == Right <==> n.1 == y
    ensures (if n.0 < x then x - n.0 else n.0 - x) + (if n.1 < y then y - n.1 else n.1 - y) == 1
  {
    if d == Up then (x, y - 1)
    else if d == Down then (x, y + 1)
    else if d == Left then (x - 1, y)
    else (x + 1, y)
  }

  /** The power-up a draw `r % 10` assigns at spawn time (Main.c:626-645). */
  function PowerUpOf(r: int): (p: PowerUp)
    ensures p == NoPowerUp <==> r < 0 || r > 4
  {
    if r == 0 then ExtraLife
    else if r == 1 then BigCrosshair
    else if r == 2 then SpeedUp
    else if r == 3 then Freeze
    else if r == 4 then SlowDown
    else NoPowerUp
  }

  /** The heading, life and power-up three successive draws from s give a new cube. */
  function Traits(s: Lfsrs): (r: (Direction, int, PowerUp))
    ensures 1 <= r.1 < MaxCubeLifetime
  {
    (Roll(s, 4), 1 + Roll(Advance(s), MaxCubeLifetime - 1), PowerUpOf(Roll(Advance(Advance(s)), 10)))
  }

  /** How many flags are set. */
  function CountTrue(s: seq<bool>): (n: nat)
    ensures n <= |s|
  {
    if s == [] then 0 else CountTrue(s[..|s| - 1]) + (if s[|s| - 1] then 1 else 0)
  }

  lemma CountTruePrefix(s: seq<bool>, i: int)
    requires 0 <= i < |s|
    ensures CountTrue(s[..i + 1]) == CountTrue(s[..i]) + (if s[i] then 1 else 0)
  {
    assert s[..i + 1][..i] == s[..i];
  }

  function Flag(b: bool): nat
  {
    if b then 1 else 0
  }

  /** How many of four flags are set. */
  function Total(s: seq<bool>): nat
    requires |s| == 4
  {
    Flag(s[0]) + Flag(s[1]) + Flag(s[2]) + Flag(s[3])
  }

  lemma CountTrueOfFour(s: seq<bool>)
    requires |s| == 4
    ensures CountTrue(s) == Total(s)
  {
    CountTruePrefix(s, 0);
    CountTruePrefix(s, 1);
    CountTruePrefix(s, 2);
    CountTruePrefix(s, 3);
    assert s[..0] == [] && s[..4] == s;
  }

  /** Past a set flag the count of set flags is strictly larger. */
  lemma {:induction false} CountTrueGrows(s: seq<bool>, a: int, b: int)
    requires 0 <= a < b <= |s| && s[a]
    ensures CountTrue(s[..b]) >= CountTrue(s[..a]) + 1
    decreases b - a
  {
    CountTruePrefix(s, b - 1);
    if b - 1 > a {
      CountTrueGrows(s, a, b - 1);
    }
  }

  /** The selection loop of MoveCube (Main.c:447-458): the (k+1)-th valid direction in enum
      order, where k = rand % total. The loop always finds it, so the Fatal call after the
      loop is unreachable. */
  method ChooseDirection(dirs: seq<bool>, total: int, rand: bv32) returns (d: Direction)
    requires |dirs| == 4 && total == CountTrue(dirs) && total > 0
    ensures dirs[d]
    ensures CountTrue(dirs[..d]) == rand as int % total
    ensures forall j :: 0 <= j < 4 && dirs[j] && CountTrue(dirs[..j]) == rand as int % total ==> j == d
  {
    var k := rand as int % total;
    assert dirs[..4] == dirs;
    var i := 0;
    while i < 4
      invariant 0 <= i <= 4
      invariant k == rand as int % total - CountTrue(dirs[..i])
      invariant k >= 0
    {
      CountTruePrefix(dirs, i);
      if dirs[i] {
        k := k - 1;
        if k < 0 {
          d := i;
          forall j | 0 <= j < 4 && dirs[j] && CountTrue(dirs[..j]) == rand as int % total
            ensures j == i
          {
            if j < i {
              CountTrueGrows(dirs, j, i);
            } else if j > i {
              CountTrueGrows(dirs, i, j);
            }
          }
          return;
        }
      }
      i := i + 1;
    }
    assert false;  // Fatal("Couldn't find dir", "")
  }

  /** How MoveCube settles its heading: keep `keep` when it is valid, and the registers
      do not move; otherwise take the valid direction with exactly `Draw(before) % total`
      valid directions before it, and the registers advance by one draw. */
  predicate HeadingRule(dirs: seq<bool>, keep: Direction, d: Direction, before: Lfsrs, after: Lfsrs)
    requires |dirs| == 4 && Total(dirs) > 0
  {
    && dirs[d]
    && (dirs[keep] ==> d == keep && after == before)
    && (!dirs[keep] ==>
          CountTrue(dirs[..d]) == Draw(before) as int % Total(dirs) && after == Advance(before))
  }

  ghost function LiveIndices(cs: seq<Cube>): set<int>
  {
    set i | 0 <= i < |cs| && !cs[i].dead
  }

  ghost function LivePositions(cs: seq<Cube>): set<(int, int)>
  {
    set i | 0 <= i < |cs| && !cs[i].dead :: (cs[i].x, cs[i].y)
  }

  /** No two live cubes share a cell. */
  ghost predicate DistinctLive(cs: seq<Cube>)
  {
    forall i, j :: 0 <= i < |cs| && 0 <= j < |cs| && i != j && !cs[i].dead && !cs[j].dead ==>
      cs[i].x != cs[j].x || cs[i].y != cs[j].y
  }

  lemma DistinctLiveInit(cs: seq<Cube>)
    requires cs != [] && DistinctLive(cs)
    ensures DistinctLive(cs[..|cs| - 1])
  {
    var init := cs[..|cs| - 1];
    forall i, j | 0 <= i < |init| && 0 <= j < |init| && i != j && !init[i].dead && !init[j].dead
      ensures init[i].x != init[j].x || init[i].y != init[j].y
    {
      assert init[i] == cs[i] && init[j] == cs[j];
    }
  }

  lemma LiveSetsOfLast(cs: seq<Cube>)
    requires cs != []
    ensures var n := |cs| - 1;
            var c := cs[n];
            && LivePositions(cs) == LivePositions(cs[..n]) + (if c.dead then {} else {(c.x, c.y)})
            && LiveIndices(cs) == LiveIndices(cs[..n]) + (if c.dead then {} else {n})
  {
    var n := |cs| - 1;
    var init := cs[..n];
    assert forall k :: 0 <= k < n ==> init[k] == cs[k];
  }

  /** Live cubes on distinct cells cover exactly as many cells as there are live cubes. */
  lemma {:induction false} LivePositionsCount(cs: seq<Cube>)
    requires DistinctLive(cs)
    ensures |LivePositions(cs)| == |LiveIndices(cs)|
  {
    if cs != [] {
      var n := |cs| - 1;
      var init := cs[..n];
      var c := cs[n];
      DistinctLiveInit(cs);
      LivePositionsCount(init);
      LiveSetsOfLast(cs);
      if !c.dead {
        assert (c.x, c.y) !in LivePositions(init) by {
          forall k | 0 <= k < n && !init[k].dead
            ensures (init[k].x, init[k].y) != (c.x, c.y)
          {
            assert init[k] == cs[k];
          }
        }
        assert n !in LiveIndices(init);
      }
    }
  }

  /** The grid `blocks` and the array `cubes`. */
  class World {
    /** blocks[y, x] is the cell semaphore's value: true (1) while the cell is free. */
    var blocks: array2<bool>
    var cubes: array<Cube>
    /** num_last_created: how many cubes the last InitCubes made. */
    var numLastCreated: int

    ghost predicate Shaped()
      reads this
    {
      blocks.Length0 == Height && blocks.Length1 == Width && cubes.Length == NumCubes
    }

    /** Cube i is alive and sits on cell (x, y). */
    ghost predicate Holds(i: int, x: int, y: int)
      reads this, cubes
    {
      0 <= i < cubes.Length && !cubes[i].dead && cubes[i].x == x && cubes[i].y == y
    }

    /** The grid agrees with cubes 0 .. n-1: each live one lies in the grid on an occupied
        cell, no two share a cell, and every occupied cell is held by one of them. */
    ghost predicate ConsistentUpTo(n: int)
      reads this, blocks, cubes
    {
      && Shaped() && 0 <= n <= NumCubes
      && (forall i :: 0 <= i < n && !cubes[i].dead ==>
            InGrid(cubes[i].x, cubes[i].y) && !blocks[cubes[i].y, cubes[i].x])
      && (forall i, j :: 0 <= i < n && 0 <= j < n && i != j && !cubes[i].dead && !cubes[j].dead ==>
            cubes[i].x != cubes[j].x || cubes[i].y != cubes[j].y)
      && (forall y, x :: 0 <= y < Height && 0 <= x < Width && !blocks[y, x] ==>
            exists i :: 0 <= i < n && Holds(i, x, y))
    }

    ghost predicate Valid()
      reads this, blocks, cubes
    {
      ConsistentUpTo(NumCubes)
    }

    /** Every live cube has at least one move left. */
    ghost predicate Lively()
      reads this, cubes
    {
      forall i :: 0 <= i < cubes.Length && !cubes[i].dead ==> cubes[i].life >= 1
    }

    /** Cubes 0 .. n-1 have been placed, alive with 1 to 19 moves, the grid is consistent
        with them, and the cubes from n on are as in `orig`. */
    ghost predicate SpawnedUpTo(n: int, orig: seq<Cube>)
      reads this, blocks, cubes
    {
      && ConsistentUpTo(n) && |orig| == NumCubes
      && (forall j :: 0 <= j < n ==> !cubes[j].dead && 1 <= cubes[j].life < MaxCubeLifetime)
      && (forall j :: n <= j < NumCubes ==> cubes[j] == orig[j])
    }

    /** Consistency with the first n cubes is consistency with all of them when the rest
        are dead, as after InitCubes(NUM_CUBES) or once the cubes of an earlier round died. */
    lemma ConsistentWhenRestDead(n: int)
      requires ConsistentUpTo(n)
      requires forall j :: 0 <= j < n ==> cubes[j].life >= 1
      requires forall j :: n <= j < NumCubes ==> cubes[j].dead
      ensures Valid() && Lively()
    {
      forall y, x | 0 <= y < Height && 0 <= x < Width && !blocks[y, x]
        ensures exists i :: 0 <= i < NumCubes && Holds(i, x, y)
      {
        var i :| 0 <= i < n && Holds(i, x, y);
      }
    }

    ghost function OccupiedCells(): set<(int, int)>
      reads this, blocks
      requires Shaped()
    {
      set x, y | 0 <= x < Width && 0 <= y < Height && !blocks[y, x] :: (x, y)
    }

    /** The number of occupied cells equals the number of live cubes. */
    lemma OccupiedCountIsLiveCount()
      requires Valid()
      ensures |OccupiedCells()| == |LiveIndices(cubes[..])|
    {
      var cs := cubes[..];
      assert DistinctLive(cs);
      forall p | p in OccupiedCells()
        ensures p in LivePositions(cs)
      {
        var k :| 0 <= k < NumCubes && Holds(k, p.0, p.1);
        assert cs[k] == cubes[k];
      }
      forall p | p in LivePositions(cs)
        ensures p in OccupiedCells()
      {
        var k :| 0 <= k < |cs| && !cs[k].dead && p == (cs[k].x, cs[k].y);
        assert cs[k] == cubes[k];
      }
      assert OccupiedCells() == LivePositions(cs);
      LivePositionsCount(cs);
    }

    /** Cube i could step towards d: the neighbour is inside the grid and free. */
    predicate CanMove(x: int, y: int, d: Direction): (ok: bool)
      reads this, blocks
      requires Shaped()
      ensures ok ==> InGrid(Neighbour(x, y, d).0, Neighbour(x, y, d).1)
    {
      var (nx, ny) := Neighbour(x, y, d);
      InGrid(nx, ny) && blocks[ny, nx]
    }

    /** The four flags of valid_directions, in enum order. */
    function ValidDirections(x: int, y: int): (dirs: seq<bool>)
      reads this, blocks
      requires Shaped()
      ensures |dirs| == 4
    {
      [CanMove(x, y, Up), CanMove(x, y, Down), CanMove(x, y, Left), CanMove(x, y, Right)]
    }

    /** The four flags spelled out for a cell of the grid. */
    lemma ValidDirectionsAt(x: int, y: int)
      requires Shaped() && InGrid(x, y)
      ensures ValidDirections(x, y) ==
                [y > 0 && blocks[y - 1, x], y < Height - 1 && blocks[y + 1, x],
                 x > 0 && blocks[y, x - 1], x < Width - 1 && blocks[y, x + 1]]
    {
    }

    /** get_movable_directions (Main.c:223-250): the flags of the four directions, in
        the order the source tests them, and how many are set; the grid is only read. */
    method GetMovableDirections(i: int) returns (dirs: seq<bool>, total: int)
      requires Shaped() && 0 <= i < NumCubes && InGrid(cubes[i].x, cubes[i].y)
      ensures dirs == ValidDirections(cubes[i].x, cubes[i].y)
      ensures total == Total(dirs)
    {
      var x, y := cubes[i].x, cubes[i].y;
      ValidDirectionsAt(x, y);
      dirs := [false, false, false, false];
      total := 0;
      if x > 0 && blocks[y, x - 1] {
        total := total + 1;
        dirs := dirs[Left := true];
      } else {
        dirs := dirs[Left := false];
      }
      if x < Width - 1 && blocks[y, x + 1] {
        total := total + 1;
        dirs := dirs[Right := true];
      } else {
        dirs := dirs[Right := false];
      }
      if y > 0 && blocks[y - 1, x] {
        total := total + 1;
        dirs := dirs[Up := true];
      } else {
        dirs := dirs[Up := false];
      }
      if y < Height - 1 && blocks[y + 1, x] {
        total := total + 1;
        dirs := dirs[Down := true];
      } else {
        dirs := dirs[Down := false];
      }
    }

    /** Between the two states cube i, which was c, stepped one cell towards d: it now
        holds that neighbour, which lies in the grid and was free, its old cell is free,
        and no other cell changed. */
    twostate predicate Stepped(i: int, c: Cube, d: Direction)
      reads this, blocks, cubes
      requires Shaped() && old(blocks) == blocks && 0 <= i < NumCubes && InGrid(c.x, c.y)
    {
      var (nx, ny) := Neighbour(c.x, c.y, d);
      && InGrid(nx, ny)
      && cubes[i] == c.(x := nx, y := ny, dir := d)
      && old(blocks[ny, nx]) && !blocks[ny, nx]
      && !old(blocks[c.y, c.x]) && blocks[c.y, c.x]
      && (forall y, x :: 0 <= y < Height && 0 <= x < Width && (x, y) != (nx, ny) && (x, y) != (c.x, c.y) ==>
            blocks[y, x] == old(blocks[y, x]))
    }

    /** The claim-then-release at the end of MoveCube (Main.c:461-483): cube i, heading d,
        takes the free neighbour towards d and frees the cell it leaves. */
    method Relocate(i: int, d: Direction)
      requires Valid() && 0 <= i < NumCubes && !cubes[i].dead
      requires CanMove(cubes[i].x, cubes[i].y, d)
      modifies cubes, blocks
      ensures Valid()
      ensures Stepped(i, old(cubes[i]), d)
      ensures forall j :: 0 <= j < NumCubes && j != i ==> cubes[j] == old(cubes[j])
    {
      var c := cubes[i];
      var (nx, ny) := Neighbour(c.x, c.y, d);
      assert blocks[ny, nx];               // the claim below never blocks
      blocks[ny, nx] := false;             // OS_bWait(&blocks[new_y][new_x])
      blocks[c.y, c.x] := true;            // OS_bSignal(&blocks[cube->y][cube->x])
      cubes[i] := c.(x := nx, y := ny, dir := d);
      forall j | 0 <= j < NumCubes && j != i && !cubes[j].dead
        ensures (cubes[j].x, cubes[j].y) != (nx, ny)
      {
        assert old(cubes[j]) == cubes[j];
        assert !old(blocks[cubes[j].y, cubes[j].x]);
      }
      forall y, x | 0 <= y < Height && 0 <= x < Width && !blocks[y, x]
        ensures exists k :: 0 <= k < NumCubes && Holds(k, x, y)
      {
        if (x, y) == (nx, ny) {
          assert Holds(i, x, y);
        } else {
          assert !old(blocks[y, x]);
          var k :| 0 <= k < NumCubes && old(Holds(k, x, y));
          assert k != i;
          assert Holds(k, x, y);
        }
      }
    }

    /** The heading block of MoveCube (Main.c:440-459): keep the heading `c.dir` when its
        neighbour is free, otherwise draw and choose among the valid directions. */
    method PickHeading(c: Cube, dirs: seq<bool>, total: int, rng: Rng) returns (d: Direction)
      requires rng.Valid() && |dirs| == 4 && total == Total(dirs) && total > 0
      modifies rng.lfsr32, rng.lfsr31
      ensures HeadingRule(dirs, c.dir, d, old(rng.State()), rng.State())
    {
      d := c.dir;
      if !dirs[d] {
        CountTrueOfFour(dirs);
        var r := rng.GetRand();
        d := ChooseDirection(dirs, total, r);
      }
    }

    /** MoveCube (Main.c:421-484): a dead cube, or one with no free neighbour, stays put.
        Otherwise the cube keeps its heading if that neighbour is free, else draws a random
        number and takes the (k+1)-th valid direction with k = rand % total; then it claims
        the neighbour in its heading and frees its old cell. */
    method MoveCube(i: int, rng: Rng)
      requires Valid() && rng.Valid() && 0 <= i < NumCubes
      modifies cubes, blocks, rng.lfsr32, rng.lfsr31
      ensures Valid()
      ensures forall j :: 0 <= j < NumCubes && j != i ==> cubes[j] == old(cubes[j])
      ensures cubes[i].dead == old(cubes[i].dead) && cubes[i].life == old(cubes[i].life)
      ensures cubes[i].powerup == old(cubes[i].powerup)
      ensures old(cubes[i].dead) || Total(old(ValidDirections(cubes[i].x, cubes[i].y))) == 0 ==>
                cubes[i] == old(cubes[i]) && unchanged(blocks) && rng.State() == old(rng.State())
      ensures !old(cubes[i].dead) && Total(old(ValidDirections(cubes[i].x, cubes[i].y))) > 0 ==>
                var c := old(cubes[i]);
                && HeadingRule(old(ValidDirections(c.x, c.y)), c.dir, cubes[i].dir, old(rng.State()), rng.State())
                && Stepped(i, c, cubes[i].dir)
    {
      if cubes[i].dead {
        return;
      }
      var dirs, total := GetMovableDirections(i);
      if total == 0 {
        return;
      }
      var dir := PickHeading(cubes[i], dirs, total, rng);
      Relocate(i, dir);
    }

    /** KillCube (Main.c:274-277): the cube is marked dead and its cell freed. */
    method KillCube(i: int)
      requires Valid() && 0 <= i < NumCubes && !cubes[i].dead
      modifies cubes, blocks
      ensures Valid()
      ensures cubes[i] == old(cubes[i]).(dead := true)
      ensures forall j :: 0 <= j < NumCubes && j != i ==> cubes[j] == old(cubes[j])
      ensures blocks[cubes[i].y, cubes[i].x]
      ensures forall y, x :: 0 <= y < Height && 0 <= x < Width && (x, y) != (cubes[i].x, cubes[i].y) ==>
                blocks[y, x] == old(blocks[y, x])
    {
      var c := cubes[i];
      cubes[i] := c.(dead := true);
      blocks[c.y, c.x] := true;            // OS_bSignal(&blocks[cube->y][cube->x])
      forall y, x | 0 <= y < Height && 0 <= x < Width && !blocks[y, x]
        ensures exists k :: 0 <= k < NumCubes && Holds(k, x, y)
      {
        assert !old(blocks[y, x]);
        var k :| 0 <= k < NumCubes && old(Holds(k, x, y));
        assert k != i;
        assert Holds(k, x, y);
      }
    }

    /** CheckBlockIntersection (Main.c:400-419) on a live cube: when the crosshair box
        overlaps the cube's cell, the cube is killed, its cell freed, the score incremented
        and its power-up applied; otherwise nothing changes. */
    method CheckBlockIntersection(i: int, s: Session) returns (hit: bool)
      requires Valid() && s.Valid() && 0 <= i < NumCubes && !cubes[i].dead
      modifies cubes, blocks, s
      ensures Valid() && s.Valid()
      ensures hit == Collision.Hits(old(s.x), old(s.y), old(s.crosshair.value),
                                    old(cubes[i].x) * Collision.BlockWidth,
                                    old(cubes[i].y) * Collision.BlockHeight)
      ensures hit ==>
                && cubes[i] == old(cubes[i]).(dead := true)
                && blocks[cubes[i].y, cubes[i].x]
                && s.Snapshot() == Rewarded(old(s.Snapshot()), old(cubes[i].powerup))
      ensures hit ==> forall y, x :: 0 <= y < Height && 0 <= x < Width && (x, y) != (cubes[i].x, cubes[i].y) ==>
                blocks[y, x] == old(blocks[y, x])
      ensures !hit ==> cubes[i] == old(cubes[i]) && unchanged(blocks) && s.Snapshot() == old(s.Snapshot())
      ensures forall j :: 0 <= j < NumCubes && j != i ==> cubes[j] == old(cubes[j])
    {
      var px := cubes[i].x * Collision.BlockWidth;
      var py := cubes[i].y * Collision.BlockHeight;
      var size := s.crosshair.value;
      if s.x + size >= px && s.x - size <= px + Collision.BlockWidth {
        if s.y + size >= py && s.y - size <= py + Collision.BlockHeight {
          var p := cubes[i].powerup;
          KillCube(i);
          s.Reward(p);
          return true;
        }
      }
      return false;
    }

    /** get_random_direction (Main.c:185): one draw, reduced modulo 4. */
    method RandomDirection(rng: Rng) returns (d: Direction)
      requires rng.Valid()
      modifies rng.lfsr32, rng.lfsr31
      ensures rng.State() == Advance(old(rng.State()))
      ensures d == Roll(old(rng.State()), 4)
    {
      var r := rng.GetRand();
      d := r as int % 4;
    }

    /** The placement loop of InitCubes (Main.c:603-616) from registers s, on attempt
        number `attempt`: each attempt draws x, then y; once more than MaxAttempts attempts
        have been made the game halts (None); a free cell ends the search. The result
        carries the cell and the registers after the draws. */
    function Placement(s: Lfsrs, attempt: int): (r: Option<(int, int, Lfsrs)>)
      reads this, blocks
      requires Shaped() && 0 <= attempt <= MaxAttempts + 1
      ensures r.Some? ==> InGrid(r.value.0, r.value.1) && blocks[r.value.1, r.value.0]
      decreases MaxAttempts + 1 - attempt
    {
      var x := Roll(s, Width);
      var s1 := Advance(s);
      var y := Roll(s1, Height);
      var s2 := Advance(s1);
      if attempt > MaxAttempts then None
      else if blocks[y, x] then Some((x, y, s2))
      else Placement(s2, attempt + 1)
    }

    /** The do-while placement loop itself; `found` is false where the source calls
        Fatal("Ran out of attempts"). */
    method PlaceCube(rng: Rng) returns (found: bool, x: int, y: int)
      requires Shaped() && rng.Valid()
      modifies rng.lfsr32, rng.lfsr31
      ensures var p := old(Placement(rng.State(), 0));
              found == p.Some? && (found ==> (x, y, rng.State()) == p.value)
    {
      ghost var start := rng.State();
      var attempt := 0;
      while true
        invariant 0 <= attempt <= MaxAttempts + 1
        invariant Placement(rng.State(), attempt) == Placement(start, 0)
        decreases MaxAttempts + 1 - attempt
      {
        var rx := rng.GetRand();
        x := rx as int % Width;
        var ry := rng.GetRand();
        y := ry as int % Height;
        if attempt > MaxAttempts {
          return false, x, y;
        }
        attempt := attempt + 1;
        if blocks[y, x] {
          return true, x, y;
        }
      }
    }

    /** The first loop of InitCubes (Main.c:592-597): every cell semaphore back to 1. */
    method FreeAllCells()
      requires Shaped()
      modifies blocks
      ensures forall y, x :: 0 <= y < Height && 0 <= x < Width ==> blocks[y, x]
    {
      for y := 0 to Height
        invariant forall y', x' :: 0 <= y' < y && 0 <= x' < Width ==> blocks[y', x']
      {
        for x := 0 to Width
          invariant forall y', x' :: 0 <= y' < y && 0 <= x' < Width ==> blocks[y', x']
          invariant forall x' :: 0 <= x' < x ==> blocks[y, x']
        {
          blocks[y, x] := true;            // OS_InitSemaphore(&blocks[y][x], 1)
        }
      }
    }

    /** The draws that give a new cube its heading, its life of 1 to 19 moves and its
        power-up, in the order of Main.c:621-645. */
    method DrawTraits(rng: Rng) returns (d: Direction, life: int, powerup: PowerUp)
      requires rng.Valid()
      modifies rng.lfsr32, rng.lfsr31
      ensures (d, life, powerup) == Traits(old(rng.State()))
      ensures rng.State() == Advance(Advance(Advance(old(rng.State()))))
    {
      d := RandomDirection(rng);
      var rl := rng.GetRand();
      life := 1 + rl as int % (MaxCubeLifetime - 1);
      var rp := rng.GetRand();
      powerup := PowerUpOf(rp as int % 10);
    }

    /** Cube i becomes c, alive on the free cell it names, and claims that cell. */
    method Occupy(i: int, c: Cube, ghost orig: seq<Cube>)
      requires SpawnedUpTo(i, orig) && i < NumCubes
      requires !c.dead && 1 <= c.life < MaxCubeLifetime && InGrid(c.x, c.y) && blocks[c.y, c.x]
      modifies blocks, cubes
      ensures SpawnedUpTo(i + 1, orig)
      ensures cubes[i] == c && !blocks[c.y, c.x]
      ensures forall j :: 0 <= j < NumCubes && j != i ==> cubes[j] == old(cubes[j])
      ensures forall y, x :: 0 <= y < Height && 0 <= x < Width && (x, y) != (c.x, c.y) ==>
                blocks[y, x] == old(blocks[y, x])
    {
      assert forall j :: 0 <= j < i && !cubes[j].dead ==> (cubes[j].x, cubes[j].y) != (c.x, c.y);
      blocks[c.y, c.x] := false;           // OS_bWait(&blocks[y][x])
      cubes[i] := c;
      forall y, x | 0 <= y < Height && 0 <= x < Width && !blocks[y, x]
        ensures exists k :: 0 <= k < i + 1 && Holds(k, x, y)
      {
        if (x, y) == (c.x, c.y) {
          assert Holds(i, x, y);
        } else {
          assert !old(blocks[y, x]);
          var k :| 0 <= k < i && old(Holds(k, x, y));
          assert Holds(k, x, y);
        }
      }
    }

    /** One pass of the second loop of InitCubes (Main.c:602-647): cube i is placed on a
        free cell, which it claims, and given a random heading, a life of 1 to 19 moves
        and a random power-up, drawn in that order. `ok` is false where placement halts
        the game. The cell is claimed after the draws here rather than before them; the
        draws do not touch the grid, so the outcome is the same. */
    method SpawnCube(i: int, rng: Rng, ghost orig: seq<Cube>) returns (ok: bool)
      requires SpawnedUpTo(i, orig) && i < NumCubes && rng.Valid()
      modifies blocks, cubes, rng.lfsr32, rng.lfsr31
      ensures ok ==> SpawnedUpTo(i + 1, orig)
      ensures var p := old(Placement(rng.State(), 0));
              ok == p.Some? &&
              (ok ==> var (x, y, s) := p.value;
                      var (d, life, powerup) := Traits(s);
                      && cubes[i] == Cube(x, y, d, false, life, powerup)
                      && rng.State() == Advance(Advance(Advance(s))))
      ensures forall j :: 0 <= j < NumCubes && j != i ==> cubes[j] == old(cubes[j])
    {
      var found, x, y := PlaceCube(rng);
      if !found {
        return false;                      // Fatal("Ran out of attempts", "RNG is broken")
      }
      var d, life, powerup := DrawTraits(rng);
      Occupy(i, Cube(x, y, d, false, life, powerup), orig);
      ok := true;
    }

    /** The second loop of InitCubes (Main.c:602-648): cubes 0 .. numCubes-1 spawned one
        after the other on a grid consistent with none of them. */
    method SpawnCubes(numCubes: int, rng: Rng) returns (ok: bool)
      requires ConsistentUpTo(0) && rng.Valid() && 0 <= numCubes <= NumCubes
      modifies blocks, cubes, rng.lfsr32, rng.lfsr31
      ensures ok ==> SpawnedUpTo(numCubes, old(cubes[..]))
    {
      ghost var orig := cubes[..];
      var i := 0;
      while i < numCubes
        invariant 0 <= i <= numCubes
        invariant SpawnedUpTo(i, orig)
      {
        ok := SpawnCube(i, rng, orig);
        if !ok {
          return;
        }
        i := i + 1;
      }
      ok := true;
    }

    /** InitCubes (Main.c:584-649): frees every cell, then places `numCubes` cubes one
        after the other. `ok` is false where placement halts the game. */
    method InitCubes(numCubes: int, rng: Rng) returns (ok: bool)
      requires Shaped() && rng.Valid() && 0 <= numCubes <= NumCubes
      modifies this`numLastCreated, blocks, cubes, rng.lfsr32, rng.lfsr31
      ensures numLastCreated == numCubes
      ensures ok ==> SpawnedUpTo(numCubes, old(cubes[..]))
      ensures ok && (forall j :: numCubes <= j < NumCubes ==> old(cubes[j]).dead) ==> Valid() && Lively()
    {
      numLastCreated := numCubes;
      FreeAllCells();
      ok := SpawnCubes(numCubes, rng);
      if ok && forall j :: numCubes <= j < NumCubes ==> old(cubes[j]).dead {
        ConsistentWhenRestDead(numCubes);
      }
    }

    /** `cube->life--` on a live cube: its cell and everything else stay as they were. */
    method SpendMove(i: int)
      requires Valid() && 0 <= i < NumCubes && !cubes[i].dead
      modifies cubes
      ensures Valid()
      ensures cubes[i] == old(cubes[i]).(life := old(cubes[i].life) - 1)
      ensures forall j :: 0 <= j < NumCubes && j != i ==> cubes[j] == old(cubes[j])
    {
      cubes[i] := cubes[i].(life := cubes[i].life - 1);
      forall y, x | 0 <= y < Height && 0 <= x < Width && !blocks[y, x]
        ensures exists k :: 0 <= k < NumCubes && Holds(k, x, y)
      {
        var k :| 0 <= k < NumCubes && old(Holds(k, x, y));
        assert Holds(k, x, y);
      }
    }

    /** What follows the move in a worker's turn (Main.c:543-547): the cube uses up one
        move; when that was its last one it dies and, unless it carried SlowDown, the
        player loses a life. */
    method Expend(i: int, s: Session)
      requires Valid() && s.Valid() && 0 <= i < NumCubes && !cubes[i].dead && cubes[i].life >= 1
      modifies cubes, blocks, s
      ensures Valid() && s.Valid()
      ensures forall j :: 0 <= j < NumCubes && j != i ==> cubes[j] == old(cubes[j])
      ensures cubes[i] == old(cubes[i]).(life := old(cubes[i].life) - 1, dead := old(cubes[i].life) == 1)
      ensures s.Snapshot() == (if old(cubes[i].life) == 1 && cubes[i].powerup != SlowDown
                               then old(s.Snapshot()).(life := LoseLife(old(s.life)).0)
                               else old(s.Snapshot()))
    {
      SpendMove(i);
      if cubes[i].life == 0 {
        KillCube(i);
        if cubes[i].powerup != SlowDown {
          var _ := s.DecLife();
        }
      }
    }

    /** A cube worker's turn in a movement round (Main.c:541-548): unless the cube is dead
        or the cubes are frozen, it moves as MoveCube does (staying put when boxed in), uses
        up one move of its life, and when that was its last move it dies and, unless it
        carried SlowDown, costs the player a life. */
    method AgeCube(i: int, rng: Rng, s: Session)
      requires Valid() && Lively() && rng.Valid() && s.Valid() && 0 <= i < NumCubes
      modifies cubes, blocks, rng.lfsr32, rng.lfsr31, s
      ensures Valid() && Lively() && s.Valid()
      ensures forall j :: 0 <= j < NumCubes && j != i ==> cubes[j] == old(cubes[j])
      ensures old(cubes[i].dead) || old(s.freeze.value) != 0 ==>
                cubes[i] == old(cubes[i]) && unchanged(blocks) && rng.State() == old(rng.State()) &&
                s.Snapshot() == old(s.Snapshot())
      ensures !old(cubes[i].dead) && old(s.freeze.value) == 0 ==>
                && cubes[i].life == old(cubes[i].life) - 1
                && (cubes[i].dead <==> old(cubes[i].life) == 1)
                && cubes[i].powerup == old(cubes[i].powerup)
                && s.Snapshot() == (if cubes[i].dead && cubes[i].powerup != SlowDown
                                    then old(s.Snapshot()).(life := LoseLife(old(s.life)).0)
                                    else old(s.Snapshot()))
      ensures !old(cubes[i].dead) && old(s.freeze.value) == 0 ==>
                var c := old(cubes[i]);
                var dirs := old(ValidDirections(c.x, c.y));
                && (Total(dirs) > 0 ==>
                      && HeadingRule(dirs, c.dir, cubes[i].dir, old(rng.State()), rng.State())
                      && (cubes[i].x, cubes[i].y) == Neighbour(c.x, c.y, cubes[i].dir))
                && (Total(dirs) == 0 ==>
                      && (cubes[i].x, cubes[i].y, cubes[i].dir) == (c.x, c.y, c.dir)
                      && rng.State() == old(rng.State()))
    {
      if !cubes[i].dead && s.freeze.value == 0 {
        MoveCube(i, rng);
        Expend(i, s);
      }
    }
  }
}
