/** The arithmetic and naming inside `create_environment` (define_geometry.py):
    which perches, obstacles and planes are built from the geometry table, the
    names and pass indices they receive, the points they are built between,
    the lamp locations, and the material colours from hex strings. Blender's
    own object creation is not modelled; each object is described by the
    values handed to it. */
module Geometry {
  import opened Wrappers
  import opened Text
  import opened Numbers

  /** The geometry table: `csv_to_dict_keys_per_row` of the geometry file. */
  type Table = map<string, seq<Num>>

  /** A point whose coordinates may be NaN. */
  datatype Point = Point(x: Num, y: Num, z: Num)

  datatype GeometryError =
    | MissingKey(key: string)            // KeyError on the geometry table
    | BadShape(key: string)              // numpy cannot broadcast the point against (0, 0, offset)
    | NoThirdUnderscore(key: string)     // obstacle key with at most two `_`
    | TooFewUnderscores(base: string)    // plane base with fewer than two `_`
    | MissingIndex(name: string)         // KeyError on an object-index dictionary
    | LampListsTooShort                  // fewer rotations or strengths than locations
    | NotHex(text: string)               // `int(text, 16)` raises

  /** The geometry settings of the configuration. */
  datatype Params = Params(
    perchRadius: real,
    perchOffset: real,
    obsRadius: real,
    obsOffset: real,
    verticesPerPlane: int,
    obstacleIdAsIndex: bool,
    perchIndex: map<string, int>,
    obstacleIndex: map<string, int>,
    planeIndex: map<string, int>,
    lampLocations: seq<seq<real>>,
    lampRotations: seq<seq<real>>,
    lampStrengths: seq<real>,
    colours: map<string, (string, real)>)

  /** The defaults of config.py for the geometry settings. */
  const DefaultParams: Params := Params(
    40.0, 40.0, 150.0, 14.0, 4, true,
    map["ini_perch" := 5, "end_perch" := 6],
    map["high_obs_1" := 1, "high_obs_2" := 2, "high_obs_3" := 3, "high_obs_4" := 4],
    map["wall_ymax" := 7, "wall_xmax" := 8, "wall_ymin" := 9, "wall_xmin" := 10, "floor" := 11, "ceiling" := 12],
    [[0.0, 2000.0, 3000.0], [0.0, -3500.0, 3000.0], [0.0, -9000.0, 3000.0]],
    [[0.0, -Pi, 0.0], [0.0, -Pi, 0.0], [0.0, -Pi, 0.0]],
    [1.0, 2.0, 1.0],
    map["floor" := ("629E1D", 1.0),
        "wall_xmax" := ("B49857", 1.0), "wall_xmin" := ("B49857", 1.0),
        "wall_ymax" := ("B49857", 1.0), "wall_ymin" := ("B49857", 1.0),
        "high_obs_1" := ("CFCFCF", 1.0), "high_obs_2" := ("CFCFCF", 1.0),
        "high_obs_3" := ("CFCFCF", 1.0), "high_obs_4" := ("CFCFCF", 1.0),
        "ceiling" := ("D5D5D5", 1.0), "ini_perch" := ("A8493C", 1.0), "end_perch" := ("3535E7", 1.0)])

  // ---------------------------------------------------------------------
  // Point arithmetic
  // ---------------------------------------------------------------------

  /** numpy's `p - np.array([0, 0, offset])`: a three-element array is lowered
      in z; a one-element array is broadcast to three; any other length
      cannot be broadcast. */
  function Lower(p: seq<Num>, offset: real): (r: Option<Point>)
    ensures r.Some? <==> |p| == 3 || |p| == 1
    ensures |p| == 3 && r.Some? ==> r.value.x == p[0] && r.value.y == p[1]
    ensures r.Some? ==> (r.value.z.NaN? <==> p[|p| - 1].NaN?)
    ensures r.Some? && r.value.z.Val? ==> r.value.z.v + offset == p[|p| - 1].v
  {
    if |p| == 3 then Some(Point(p[0], p[1], Minus(p[2], offset)))
    else if |p| == 1 then Some(Point(p[0], p[0], Minus(p[0], offset)))
    else None
  }

  /** A point multiplied by `k`, NaN staying NaN. */
  function ScalePoint(p: Point, k: real): (q: Point)
    ensures (q.x.NaN? <==> p.x.NaN?) && (q.y.NaN? <==> p.y.NaN?) && (q.z.NaN? <==> p.z.NaN?)
    ensures k != 0.0 && q.x.Val? ==> q.x.v / k == p.x.v
    ensures k != 0.0 && q.y.Val? ==> q.y.v / k == p.y.v
    ensures k != 0.0 && q.z.Val? ==> q.z.v / k == p.z.v
  {
    Point(Times(p.x, k), Times(p.y, k), Times(p.z, k))
  }

  /** `m` lies halfway between `a` and `b`, and is NaN when either is. */
  predicate Midway(m: Num, a: Num, b: Num)
  {
    && (m.NaN? <==> a.NaN? || b.NaN?)
    && (m.Val? && a.Val? && b.Val? ==> m.v - a.v == b.v - m.v)
  }

  /** `a + (b - a) / 2`, the cylinder location along one axis. */
  function Halfway(a: Num, b: Num): (m: Num)
    ensures Midway(m, a, b)
  {
    if a.NaN? || b.NaN? then NaN else Val(a.v + (b.v - a.v) / 2.0)
  }

  /** A cylinder as `create_cylinder_between_points` receives it: the
      centres of its two bases, its radius and the location it is placed at;
      plus the name and pass index assigned afterwards. `passIndex` is None
      when the source leaves Blender's default index in place. */
  datatype Cylinder = Cylinder(name: string, p1: Point, p2: Point, radius: real, location: Point, passIndex: Option<int>)

  /** `create_cylinder_between_points(P1, P2, R)`, then the name and index. */
  function CylinderBetween(name: string, p1: Point, p2: Point, radius: real, index: Option<int>): (c: Cylinder)
    ensures c.name == name && c.p1 == p1 && c.p2 == p2 && c.radius == radius && c.passIndex == index
    ensures Midway(c.location.x, p1.x, p2.x) && Midway(c.location.y, p1.y, p2.y) && Midway(c.location.z, p1.z, p2.z)
  {
    Cylinder(name, p1, p2, radius, Point(Halfway(p1.x, p2.x), Halfway(p1.y, p2.y), Halfway(p1.z, p2.z)), index)
  }

  // ---------------------------------------------------------------------
  // Perches
  // ---------------------------------------------------------------------

  predicate IsPerchKey(k: string)
  {
    Contains(k, "perch")
  }

  /** `list(set([k[0:9] for k in keys if 'perch' in k]))`. */
  function PerchNames(g: Table): (names: set<string>)
  {
    set k | k in g && IsPerchKey(k) :: Prefix(k, 9)
  }

  /** Each perch name is the nine-character start of a perch key, and every
      perch key contributes its start. */
  lemma PerchNamesAreKeyStarts(g: Table)
    ensures forall n | n in PerchNames(g) :: |n| <= 9 && exists k | k in g && IsPerchKey(k) :: |n| <= |k| && n == k[..|n|]
    ensures forall k | k in g && IsPerchKey(k) :: Prefix(k, 9) in PerchNames(g)
  {
    forall n | n in PerchNames(g)
      ensures |n| <= 9 && exists k | k in g && IsPerchKey(k) :: |n| <= |k| && n == k[..|n|]
    {
      var k :| k in g && IsPerchKey(k) && Prefix(k, 9) == n;
    }
  }

  /** `geometry_dict[key][0:3] - (0, 0, offset)`, in metres. */
  function PerchEnd(g: Table, key: string, offset: real): (r: Result<Point, GeometryError>)
    ensures key !in g ==> r == Failure(MissingKey(key))
    ensures key in g ==> (r.Success? <==> |g[key]| >= 3 || |g[key]| == 1)
    ensures r.Success? ==>
              var p := g[key][..Min(3, |g[key]|)];
              r.value == ScalePoint(Lower(p, offset).value, MmToM)
  {
    if key !in g then Failure(MissingKey(key))
    else
      var p := g[key][..Min(3, |g[key]|)];
      match Lower(p, offset)
      case None => Failure(BadShape(key))
      case Some(q) => Success(ScalePoint(q, MmToM))
  }

  /** The perch cylinder between the `_xmax_` and `_xmin_` edge centroids. */
  function Perch(g: Table, params: Params, name: string): (r: Result<Cylinder, GeometryError>)
    ensures r.Success? <==>
              && PerchEnd(g, name + "_xmax_edge_centroid_XYZ", params.perchOffset).Success?
              && PerchEnd(g, name + "_xmin_edge_centroid_XYZ", params.perchOffset).Success?
              && name in params.perchIndex
    ensures r.Success? ==>
              && r.value.name == name
              && r.value.passIndex == Some(params.perchIndex[name])
              && r.value.radius == params.perchRadius * MmToM
              && Success(r.value.p1) == PerchEnd(g, name + "_xmax_edge_centroid_XYZ", params.perchOffset)
              && Success(r.value.p2) == PerchEnd(g, name + "_xmin_edge_centroid_XYZ", params.perchOffset)
  {
    var p1 :- PerchEnd(g, name + "_xmax_edge_centroid_XYZ", params.perchOffset);
    var p2 :- PerchEnd(g, name + "_xmin_edge_centroid_XYZ", params.perchOffset);
    if name !in params.perchIndex then Failure(MissingIndex(name))
    else Success(CylinderBetween(name, p1, p2, params.perchRadius * MmToM, Some(params.perchIndex[name])))
  }

  // ---------------------------------------------------------------------
  // Obstacles
  // ---------------------------------------------------------------------

  predicate IsObstacleKey(k: string)
  {
    Contains(k, "obs")
  }

  /** Obstacles are built only when some `obs` entry has a coordinate that
      is not NaN. */
  predicate ObstaclesPresent(g: Table)
  {
    exists k | k in g && IsObstacleKey(k) :: !AllNaN(g[k])
  }

  /** `key[0:index of the third '_']`. */
  function ObstacleName(key: string): (r: Result<string, GeometryError>)
    ensures r.Failure? <==> Count(key, '_') <= 2
    ensures r.Failure? ==> r.error == NoThirdUnderscore(key)
    ensures r.Success? ==>
              var n := r.value;
              |n| < |key| && key[..|n|] == n && key[|n|] == '_' && Count(n, '_') == 2
  {
    match BeforeNth(key, '_', 2)
    case None => Failure(NoThirdUnderscore(key))
    case Some(n) =>
      BeforeNthPrefix(key, '_', 2);
      Success(n)
  }

  /** The value of the last all-digit field, as the loop over
      `key.split('_')` leaves it; None when no field is all digits. */
  function LastNumber(fields: seq<string>): (r: Option<nat>)
  {
    if |fields| == 0 then None
    else if IsDigits(fields[|fields| - 1]) then Some(DigitsValue(fields[|fields| - 1]))
    else LastNumber(fields[..|fields| - 1])
  }

  /** `LastNumber` finds the last digit field, and nothing when there is none. */
  lemma {:induction false} LastNumberIsLastDigitField(fields: seq<string>)
    ensures LastNumber(fields).None? <==> forall i | 0 <= i < |fields| :: !IsDigits(fields[i])
    ensures LastNumber(fields).Some? ==>
              exists i | 0 <= i < |fields| ::
                && IsDigits(fields[i]) && LastNumber(fields) == Some(DigitsValue(fields[i]))
                && forall j | i < j < |fields| :: !IsDigits(fields[j])
    decreases |fields|
  {
    if |fields| > 0 {
      var init := fields[..|fields| - 1];
      var last := |fields| - 1;
      if !IsDigits(fields[last]) {
        LastNumberIsLastDigitField(init);
        assert forall i | 0 <= i < |init| :: init[i] == fields[i];
        if LastNumber(init).Some? {
          var i :| 0 <= i < |init| && IsDigits(init[i]) && LastNumber(init) == Some(DigitsValue(init[i]))
                   && forall j | i < j < |init| :: !IsDigits(init[j]);
          assert forall j | i < j < |fields| :: !IsDigits(fields[j]) by {
            forall j | i < j < |fields|
              ensures !IsDigits(fields[j])
            {
              if j < last { assert fields[j] == init[j]; }
            }
          }
        }
      }
    }
  }

  /** The pass index of an obstacle: with `flag_use_obstacle_ID_as_object_index`
      the last numeric field of its key, otherwise the index dictionary's
      entry for its name. */
  function ObstacleIndex(params: Params, key: string, name: string): (r: Result<Option<int>, GeometryError>)
    ensures params.obstacleIdAsIndex ==> r == Success(LastNumber(Split(key, '_')))
    ensures !params.obstacleIdAsIndex ==>
              (r.Success? <==> name in params.obstacleIndex)
              && (r.Success? ==> r.value == Some(params.obstacleIndex[name]))
  {
    if params.obstacleIdAsIndex then Success(LastNumber(Split(key, '_')))
    else if name in params.obstacleIndex then Success(Some(params.obstacleIndex[name]))
    else Failure(MissingIndex(name))
  }

  /** The obstacle cylinder of one `obs` entry: from its top, the marker
      lowered by the offset, down to the floor point below it. */
  function Obstacle(g: Table, params: Params, key: string): (r: Result<Cylinder, GeometryError>)
    requires key in g
    ensures Lower(g[key], params.obsOffset).None? ==> r == Failure(BadShape(key))
    ensures r.Success? ==>
              var top := Lower(g[key], params.obsOffset).value;
              && r.value.p1 == ScalePoint(top, MmToM)
              && r.value.p2 == ScalePoint(Point(top.x, top.y, Val(0.0)), MmToM)
              && r.value.radius == params.obsRadius * MmToM
              && ObstacleName(key) == Success(r.value.name)
              && ObstacleIndex(params, key, r.value.name) == Success(r.value.passIndex)
  {
    match Lower(g[key], params.obsOffset)
    case None => Failure(BadShape(key))
    case Some(top) =>
      var bottom := Point(top.x, top.y, Val(0.0));
      var name :- ObstacleName(key);
      var index :- ObstacleIndex(params, key, name);
      Success(CylinderBetween(name, ScalePoint(top, MmToM), ScalePoint(bottom, MmToM), params.obsRadius * MmToM, index))
  }

  /** The base of an obstacle lies in the floor plane, straight below its top. */
  lemma ObstacleStandsOnFloor(g: Table, params: Params, key: string)
    requires key in g && Obstacle(g, params, key).Success?
    ensures var c := Obstacle(g, params, key).value;
            c.p2.x == c.p1.x && c.p2.y == c.p1.y && c.p2.z == Val(0.0)
  {
  }

  // ---------------------------------------------------------------------
  // Planes
  // ---------------------------------------------------------------------

  predicate IsPlaneKey(k: string)
  {
    Contains(k, "wall") || Contains(k, "floor") || Contains(k, "ceiling")
  }

  /** Python's `k[0:-1]`. */
  function DropLast(k: string): (b: string)
    ensures |k| > 0 ==> |b| == |k| - 1 && k == b + [k[|k| - 1]]
    ensures |k| == 0 ==> b == ""
  {
    if |k| == 0 then "" else k[..|k| - 1]
  }

  /** `list(set([k[0:-1] for k in keys if 'wall' in k or ...]))`. */
  function PlaneBases(g: Table): (bases: set<string>)
  {
    set k | k in g && IsPlaneKey(k) :: DropLast(k)
  }

  /** Every plane base, followed by one more character, is a key of the
      table, and every plane key contributes its base. */
  lemma PlaneBasesAreKeyStarts(g: Table)
    ensures forall b | b in PlaneBases(g) :: exists k | k in g && IsPlaneKey(k) :: |k| == |b| + 1 && k[..|b|] == b
    ensures forall k | k in g && IsPlaneKey(k) :: DropLast(k) in PlaneBases(g)
  {
    forall b | b in PlaneBases(g)
      ensures exists k | k in g && IsPlaneKey(k) :: |k| == |b| + 1 && k[..|b|] == b
    {
      var k :| k in g && IsPlaneKey(k) && DropLast(k) == b;
    }
  }

  /** `base[0:index of the second-to-last '_']`. */
  function PlaneName(base: string): (r: Result<string, GeometryError>)
    ensures r.Failure? <==> Count(base, '_') < 2
    ensures r.Failure? ==> r.error == TooFewUnderscores(base)
    ensures r.Success? ==>
              var n := r.value;
              |n| < |base| && base[..|n|] == n && base[|n|] == '_' && Count(n, '_') == Count(base, '_') - 2
  {
    if Count(base, '_') < 2 then Failure(TooFewUnderscores(base))
    else
      var k := Count(base, '_') - 2;
      BeforeNthPrefix(base, '_', k);
      Success(BeforeNth(base, '_', k).value)
  }

  /** The vertex keys `base + str(kk)` for `kk in range(1, n + 1)`. */
  function VertexKeys(base: string, n: int): (keys: seq<string>)
    ensures |keys| == if n < 0 then 0 else n
    ensures forall i | 0 <= i < |keys| :: |keys[i]| > |base| && keys[i][..|base|] == base
    decreases if n < 0 then 0 else n
  {
    if n <= 0 then [] else VertexKeys(base, n - 1) + [base + NatToString(n)]
  }

  /** Vertex key `i` (0-based) ends in the decimal digits of `i + 1`. */
  lemma {:induction false} VertexKeyNumbers(base: string, n: int, i: nat)
    requires i < n
    ensures var k := VertexKeys(base, n)[i];
            IsDigits(k[|base|..]) && DigitsValue(k[|base|..]) == i + 1
    decreases n
  {
    var keys := VertexKeys(base, n);
    if i == n - 1 {
      assert keys[i] == base + NatToString(n);
      assert keys[i][|base|..] == NatToString(n);
      NatToStringRoundTrip(n);
    } else {
      VertexKeyNumbers(base, n - 1, i);
      assert keys[i] == VertexKeys(base, n - 1)[i];
    }
  }

  /** The vertices `geometry_dict[key] * mm_to_m`, in key order; the first
      missing key is the error. */
  function Vertices(g: Table, keys: seq<string>): (r: Result<seq<seq<Num>>, GeometryError>)
    ensures r.Success? <==> forall i | 0 <= i < |keys| :: keys[i] in g
    ensures r.Success? ==> |r.value| == |keys|
    ensures r.Success? ==> forall i | 0 <= i < |keys| :: |r.value[i]| == |g[keys[i]]|
    ensures r.Success? ==> forall i, j | 0 <= i < |keys| && 0 <= j < |r.value[i]| ::
              r.value[i][j] == Times(g[keys[i]][j], MmToM)
    ensures r.Failure? ==> exists i | 0 <= i < |keys| :: keys[i] !in g && r.error == MissingKey(keys[i])
  {
    if |keys| == 0 then Success([])
    else if keys[0] !in g then Failure(MissingKey(keys[0]))
    else
      var rest :- Vertices(g, keys[1..]);
      var p := g[keys[0]];
      Success([seq(|p|, j requires 0 <= j < |p| => Times(p[j], MmToM))] + rest)
  }

  /** A plane as `create_plane_between_vertices` receives it, with the name
      and pass index assigned afterwards. */
  datatype Plane = Plane(name: string, vertices: seq<seq<Num>>, passIndex: int)

  function PlaneOf(g: Table, params: Params, base: string): (r: Result<Plane, GeometryError>)
    ensures r.Success? <==>
              && Vertices(g, VertexKeys(base, params.verticesPerPlane)).Success?
              && PlaneName(base).Success?
              && PlaneName(base).value in params.planeIndex
    ensures r.Success? ==>
              && Success(r.value.vertices) == Vertices(g, VertexKeys(base, params.verticesPerPlane))
              && Success(r.value.name) == PlaneName(base)
              && r.value.passIndex == params.planeIndex[r.value.name]
  {
    var vertices :- Vertices(g, VertexKeys(base, params.verticesPerPlane));
    var name :- PlaneName(base);
    if name !in params.planeIndex then Failure(MissingIndex(name))
    else Success(Plane(name, vertices, params.planeIndex[name]))
  }

  // ---------------------------------------------------------------------
  // Lamps
  // ---------------------------------------------------------------------

  /** A sun lamp as `create_lamps_wo_shadow` sets it up. */
  datatype Lamp = Lamp(name: string, location: seq<real>, rotation: seq<real>, strength: real)

  /** One lamp per location, named `Lamp_<i>`, the location converted to
      metres; a shorter rotation or strength list is an IndexError. */
  function Lamps(params: Params): (r: Result<seq<Lamp>, GeometryError>)
    ensures r.Success? <==> |params.lampRotations| >= |params.lampLocations| && |params.lampStrengths| >= |params.lampLocations|
    ensures r.Success? ==> |r.value| == |params.lampLocations|
    ensures r.Success? ==> forall i | 0 <= i < |r.value| ::
              && r.value[i].name == "Lamp_" + NatToString(i)
              && |r.value[i].location| == |params.lampLocations[i]|
              && (forall j | 0 <= j < |r.value[i].location| :: r.value[i].location[j] * 1000.0 == params.lampLocations[i][j])
              && r.value[i].rotation == params.lampRotations[i]
              && r.value[i].strength == params.lampStrengths[i]
  {
    var n := |params.lampLocations|;
    if |params.lampRotations| < n || |params.lampStrengths| < n then Failure(LampListsTooShort)
    else
      Success(seq(n, i requires 0 <= i < n =>
        var loc := params.lampLocations[i];
        Lamp("Lamp_" + NatToString(i), seq(|loc|, j requires 0 <= j < |loc| => loc[j] * MmToM),
             params.lampRotations[i], params.lampStrengths[i])))
  }

  /** Different lamps get different names. */
  lemma LampNamesDistinct(params: Params)
    requires Lamps(params).Success?
    ensures var lamps := Lamps(params).value;
            forall i, j | 0 <= i < j < |lamps| :: lamps[i].name != lamps[j].name
  {
    var lamps := Lamps(params).value;
    forall i, j | 0 <= i < j < |lamps|
      ensures lamps[i].name != lamps[j].name
    {
      var prefix := "Lamp_";
      assert lamps[i].name[|prefix|..] == NatToString(i);
      assert lamps[j].name[|prefix|..] == NatToString(j);
      NatToStringRoundTrip(i);
      NatToStringRoundTrip(j);
    }
  }

  // ---------------------------------------------------------------------
  // Colours
  // ---------------------------------------------------------------------

  /** `(h & 0xff0000) >> 16`, `(h & 0x00ff00) >> 8` and `h & 0x0000ff` on
      Python integers (two's complement for negative `h`). */
  function Channels(h: int): (rgb: (int, int, int))
    ensures 0 <= rgb.0 < 256 && 0 <= rgb.1 < 256 && 0 <= rgb.2 < 256
    ensures rgb.0 * 65536 + rgb.1 * 256 + rgb.2 == h % 0x100_0000
  {
    var low := h % 0x100_0000;
    LowBytes(h);
    (low / 0x1_0000, (low / 0x100) % 0x100, low % 0x100)
  }

  /** Masking before shifting only keeps the low 24 bits. */
  lemma LowBytes(h: int)
    ensures var low := h % 0x100_0000;
            && 0 <= low / 0x1_0000 < 256
            && low == (low / 0x1_0000) * 65536 + ((low / 0x100) % 0x100) * 256 + low % 0x100
  {
    var low := h % 0x100_0000;
    var hi, rest := low / 0x1_0000, low % 0x1_0000;
    assert low == hi * 0x1_0000 + rest;
    assert rest / 0x100 < 0x100;
    assert low / 0x100 == hi * 0x100 + rest / 0x100;
    assert (low / 0x100) % 0x100 == rest / 0x100;
    assert low % 0x100 == rest % 0x100;
  }

  /** Three bytes pack into a colour from which `Channels` gets them back,
      and no other three bytes give the same colour. */
  lemma ChannelsRoundTrip(r: int, g: int, b: int)
    requires 0 <= r < 256 && 0 <= g < 256 && 0 <= b < 256
    ensures Channels(r * 65536 + g * 256 + b) == (r, g, b)
  {
    var h := r * 65536 + g * 256 + b;
    assert 0 <= h < 0x100_0000;
    assert h % 0x100_0000 == h;
    var c := Channels(h);
    ChannelsUnique(c.0, c.1, c.2, r, g, b);
  }

  lemma ChannelsUnique(r: int, g: int, b: int, r': int, g': int, b': int)
    requires 0 <= r < 256 && 0 <= g < 256 && 0 <= b < 256
    requires 0 <= r' < 256 && 0 <= g' < 256 && 0 <= b' < 256
    requires r * 65536 + g * 256 + b == r' * 65536 + g' * 256 + b'
    ensures r == r' && g == g' && b == b'
  {
    var x, x' := g * 256 + b, g' * 256 + b';
    assert 0 <= x < 65536 && 0 <= x' < 65536;
    assert (r - r') * 65536 == x' - x;
    assert r == r';
    assert (g - g') * 256 == b' - b;
    assert g == g';
  }

  /** `srgb_to_linearrgb(c)`; `gamma` stands for `((c + 0.055) / 1.055) ** 2.4`. */
  function SrgbToLinear(c: real, gamma: real -> real): (l: real)
    ensures c < 0.0 ==> l == 0.0
    ensures 0.0 <= c < 0.04045 ==> 0.0 <= l <= c && l * 12.92 == c
    ensures 0.04045 <= c ==> l == gamma(c)
  {
    if c < 0.0 then 0.0
    else if c < 0.04045 then c / 12.92
    else gamma(c)
  }

  /** On its linear part the conversion preserves order. */
  lemma LinearPartMonotone(a: real, b: real, gamma: real -> real)
    requires a <= b < 0.04045
    ensures SrgbToLinear(a, gamma) <= SrgbToLinear(b, gamma)
  {
  }

  /** A channel takes the linear branch exactly when it is at most 10. */
  lemma LinearChannels(c: int)
    requires 0 <= c < 256
    ensures (c as real / 255.0 < 0.04045) <==> c <= 10
  {
  }

  /** `hex_to_rgb(h, alpha)`: the three converted channels, then alpha. */
  function HexToRgb(h: int, alpha: real, gamma: real -> real): (rgba: seq<real>)
    ensures |rgba| == 4 && rgba[3] == alpha
    ensures var (r, g, b) := Channels(h);
            && rgba[0] == SrgbToLinear(r as real / 255.0, gamma)
            && rgba[1] == SrgbToLinear(g as real / 255.0, gamma)
            && rgba[2] == SrgbToLinear(b as real / 255.0, gamma)
  {
    var (r, g, b) := Channels(h);
    [SrgbToLinear(r as real / 255.0, gamma), SrgbToLinear(g as real / 255.0, gamma),
     SrgbToLinear(b as real / 255.0, gamma), alpha]
  }

  /** Black stays black. */
  lemma BlackIsBlack(alpha: real, gamma: real -> real)
    ensures HexToRgb(0, alpha, gamma) == [0.0, 0.0, 0.0, alpha]
  {
    assert Channels(0) == (0, 0, 0) by { ChannelsRoundTrip(0, 0, 0); }
  }

  function HexDigit(ch: char): Option<nat>
  {
    if '0' <= ch <= '9' then Some(ch as nat - '0' as nat)
    else if 'a' <= ch <= 'f' then Some(ch as nat - 'a' as nat + 10)
    else if 'A' <= ch <= 'F' then Some(ch as nat - 'A' as nat + 10)
    else None
  }

  /** `int(s, 16)` for a plain string of hex digits. */
  function HexValue(s: string): (r: Option<nat>)
    ensures r.Some? <==> |s| > 0 && forall i | 0 <= i < |s| :: HexDigit(s[i]).Some?
    ensures r.Some? ==> r.value < Power16(|s|)
    decreases |s|
  {
    if |s| == 0 then None
    else
      var d := HexDigit(s[|s| - 1]);
      if d.None? then None
      else if |s| == 1 then d
      else
        match HexValue(s[..|s| - 1])
        case None => None
        case Some(v) => Some(v * 16 + d.value)
  }

  function Power16(n: nat): (p: nat)
    ensures p >= 1
  {
    if n == 0 then 1 else 16 * Power16(n - 1)
  }

  /** The digit `d < 16` as an upper-case hex character. */
  function HexChar(d: nat): char
    requires d < 16
  {
    if d < 10 then ('0' as int + d) as char else ('A' as int + d - 10) as char
  }

  /** An upper-case hex digit, the alphabet the colour dictionary uses. */
  predicate UpperHexDigit(ch: char)
  {
    '0' <= ch <= '9' || 'A' <= ch <= 'F'
  }

  /** `n` printed as `k` upper-case hex digits, leading zeros included
      (`'%0kX' % n`); the reference printer that `int(s, 16)` inverts. */
  function HexDigits(n: nat, k: nat): (s: string)
    ensures |s| == k
    ensures forall i | 0 <= i < k :: UpperHexDigit(s[i])
  {
    if k == 0 then "" else HexDigits(n / 16, k - 1) + [HexChar(n % 16)]
  }

  /** Parsing a printed colour gives back its value, whenever the value
      fits in the width. */
  lemma {:induction false} HexRoundTrip(n: nat, k: nat)
    requires 1 <= k && n < Power16(k)
    ensures HexValue(HexDigits(n, k)) == Some(n)
  {
    var s := HexDigits(n, k);
    assert s[..k - 1] == HexDigits(n / 16, k - 1);
    assert HexDigit(s[k - 1]) == Some(n % 16);
    if k > 1 {
      HexRoundTrip(n / 16, k - 1);
    }
  }

  /** Printing a parsed upper-case hex string at its own width gives back
      the string: `int(s, 16)` loses nothing on such strings. */
  lemma {:induction false} HexPrintRoundTrip(s: string)
    requires |s| > 0 && forall i | 0 <= i < |s| :: UpperHexDigit(s[i])
    ensures HexValue(s).Some? && HexDigits(HexValue(s).value, |s|) == s
  {
    var k := |s|;
    var d := HexDigit(s[k - 1]).value;
    assert HexChar(d) == s[k - 1];
    if k == 1 {
      assert HexDigits(d, 1) == [HexChar(d)];
    } else {
      var p := s[..k - 1];
      HexPrintRoundTrip(p);
      var v := HexValue(p).value;
      assert (v * 16 + d) / 16 == v && (v * 16 + d) % 16 == d;
      assert s == p + [s[k - 1]];
    }
  }

  /** The material of an object named in the colour dictionary:
      `hex_to_rgb(int(hex, 16), alpha)`. None for other objects. */
  function Material(params: Params, name: string, gamma: real -> real): (r: Option<Result<seq<real>, GeometryError>>)
    ensures r.Some? <==> name in params.colours
    ensures r.Some? ==>
              var (text, alpha) := params.colours[name];
              && (r.value.Success? <==> HexValue(text).Some?)
              && (r.value.Success? ==> r.value.value == HexToRgb(HexValue(text).value, alpha, gamma))
  {
    if name !in params.colours then None
    else
      var (text, alpha) := params.colours[name];
      match HexValue(text)
      case None => Some(Failure(NotHex(text)))
      case Some(h) => Some(Success(HexToRgb(h, alpha, gamma)))
  }

  // ---------------------------------------------------------------------
  // The environment
  // ---------------------------------------------------------------------

  /** What `create_environment` builds, object by object. Each entry holds
      the object or the error that building it raises. */
  datatype Scene = Scene(
    perches: map<string, Result<Cylinder, GeometryError>>,
    obstacles: map<string, Result<Cylinder, GeometryError>>,
    planes: map<string, Result<Plane, GeometryError>>,
    lamps: Result<seq<Lamp>, GeometryError>)

  function Environment(g: Table, params: Params): (s: Scene)
    ensures s.perches.Keys == PerchNames(g)
    ensures ObstaclesPresent(g) ==> s.obstacles.Keys == set k | k in g && IsObstacleKey(k)
    ensures !ObstaclesPresent(g) ==> s.obstacles == map[]
    ensures s.planes.Keys == PlaneBases(g)
    ensures forall n | n in s.perches :: s.perches[n] == Perch(g, params, n)
    ensures forall k | k in s.obstacles :: k in g && s.obstacles[k] == Obstacle(g, params, k)
    ensures forall b | b in s.planes :: s.planes[b] == PlaneOf(g, params, b)
  {
    Scene(
      map n | n in PerchNames(g) :: Perch(g, params, n),
      if ObstaclesPresent(g) then map k | k in g && IsObstacleKey(k) :: Obstacle(g, params, k) else map[],
      map b | b in PlaneBases(g) :: PlaneOf(g, params, b),
      Lamps(params))
  }

  /** A table whose every obstacle entry is all NaN builds no obstacle. */
  lemma NoObstaclesWhenAllNaN(g: Table, params: Params)
    requires forall k | k in g && IsObstacleKey(k) :: AllNaN(g[k])
    ensures Environment(g, params).obstacles == map[]
  {
  }

  /** The default floor colour `629E1D` splits into the bytes 0x62, 0x9E
      and 0x1D. */
  lemma DefaultFloorColour()
    ensures HexValue("629E1D") == Some(0x629E1D)
    ensures Channels(0x629E1D) == (0x62, 0x9E, 0x1D)
  {
    var s := "629E1D";
    assert s[..5] == "629E1";
    assert HexValue("62") == Some(0x62) by { assert "62"[..1] == "6"; }
    assert HexValue("629") == Some(0x629) by { assert "629"[..2] == "62"; }
    assert HexValue("629E") == Some(0x629E) by { assert "629E"[..3] == "629"; assert HexDigit('E') == Some(14); }
    assert HexValue("629E1") == Some(0x629E1) by { assert "629E1"[..4] == "629E"; }
    ChannelsRoundTrip(0x62, 0x9E, 0x1D);
  }

  /** The default settings give three lamps, converted to metres. */
  lemma DefaultLamps()
    ensures Lamps(DefaultParams).Success?
    ensures |Lamps(DefaultParams).value| == 3
    ensures Lamps(DefaultParams).value[1].location == [0.0, -3.5, 3.0]
  {
  }
}
