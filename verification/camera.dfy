/** The camera animation of `insert_camera_keyframes`: for every frame of the
    animation range, one location keyframe (the tracked translation in
    metres) and one rotation keyframe (the tracked rotation composed with the
    fixed world-to-camera rotation, and with the head-to-eyes calibration when
    the camera tracks the eyes). Blender's keyframe store becomes the returned
    sequence of per-frame keys; a `sys.exit` or a Python exception becomes a
    `Failure`. Values read from data may be NaN, and Blender stores NaN keys
    as readily as any other. */
module Camera {

  import opened Wrappers
  import opened Text
  import opened Numbers
  import opened Quaternions
  import LoadData

  /** The reference frame the camera follows. */
  datatype Mode = TrajectoryRF | HeadRF | WorldRF | EyesRF

  /** The transforms dictionary of `csv_transforms_concatenated_to_dict`:
      the `frame` column and the stacked pose fields, among others. */
  type Transforms = map<string, LoadData.Field>

  /** The translation field the loop reads, interpolated or raw. */
  function LocationField(useInterp: bool): string
  {
    if useInterp then "transform_t_interp_XYZ" else "transform_t_XYZ"
  }

  /** The rotation field the loop reads, interpolated or raw. */
  function RotationField(useInterp: bool): string
  {
    if useInterp then "transform_q_interp_WXYZ" else "transform_q_WXYZ"
  }

  /** The configuration values the camera reads. `worldToCamera` is the
      quaternion of the fixed world-to-camera Euler rotation. */
  datatype CameraConfig = CameraConfig(
    frameStart: int,
    frameEnd: int,
    useInterp: bool,
    tracksTrajectory: bool,
    tracksHead: bool,
    tracksWorld: bool,
    transformsPath: string,
    pair: string,
    eyesQuats: map<string, seq<Num>>,
    worldToCamera: Quat)

  datatype CameraError =
    | MissingCalibration(pair: string)    // KeyError on the head-to-eyes dictionary
    | BadCalibration(pair: string)        // neither three nor four numbers
    | MissingField(name: string)          // KeyError on the transforms dictionary
    | NoSingleRow(frame: int, rows: nat)  // the frame matches no row, or several
    | BadShape(name: string)              // a field Blender cannot take at that row
    | NotTrajectoryPath                   // the trajectory check's `sys.exit`

  /** The keys inserted at one frame: location first, then rotation. */
  datatype FrameKeys = FrameKeys(frame: int, location: Vec3, rotation: NumQuat)

  /** The first set flag wins, in the order trajectory, head, world; with no
      flag set the camera tracks the eyes. */
  function ModeOf(trajectory: bool, head: bool, world: bool): Mode
  {
    if trajectory then TrajectoryRF
    else if head then HeadRF
    else if world then WorldRF
    else EyesRF
  }

  function ModeOfConfig(cfg: CameraConfig): Mode
  {
    ModeOf(cfg.tracksTrajectory, cfg.tracksHead, cfg.tracksWorld)
  }

  /** At most one of the three flags is set (the configuration rejects more). */
  predicate AtMostOne(a: bool, b: bool, c: bool)
  {
    (if a then 1 else 0) + (if b then 1 else 0) + (if c then 1 else 0) <= 1
  }

  /** Under the configuration's exclusivity check the precedence among the
      flags is immaterial: each set flag selects its own mode. */
  lemma ModeOfExclusive(trajectory: bool, head: bool, world: bool)
    requires AtMostOne(trajectory, head, world)
    ensures ModeOf(trajectory, head, world) == TrajectoryRF <==> trajectory
    ensures ModeOf(trajectory, head, world) == HeadRF <==> head
    ensures ModeOf(trajectory, head, world) == WorldRF <==> world
    ensures ModeOf(trajectory, head, world) == EyesRF <==> !trajectory && !head && !world
  {
  }

  /** The camera rotation for one frame: `measured @ align` when tracking the
      trajectory or the head, `align` alone when parallel to the world, and
      `measured @ calib @ align` (grouped from the left, as Python's `@`)
      when tracking the eyes. */
  function Orientation(mode: Mode, measured: NumQuat, calib: NumQuat, align: Quat): NumQuat
  {
    match mode
    case TrajectoryRF => NumMul(measured, Lift(align))
    case HeadRF => NumMul(measured, Lift(align))
    case WorldRF => Lift(align)
    case EyesRF => NumMul(NumMul(measured, calib), Lift(align))
  }

  /** Parallel to the world, the camera ignores the measured rotation and the
      calibration, NaN or not. */
  lemma WorldIgnoresMeasurements(m1: NumQuat, m2: NumQuat, c1: NumQuat, c2: NumQuat, align: Quat)
    ensures Orientation(WorldRF, m1, c1, align) == Orientation(WorldRF, m2, c2, align) == Lift(align)
  {
  }

  /** Tracking the eyes is tracking the head with the alignment pre-rotated
      by the head-to-eyes calibration. */
  lemma EyesIsHeadWithCalibratedAlignment(measured: NumQuat, calib: Quat, align: Quat)
    ensures Orientation(EyesRF, measured, Lift(calib), align)
         == Orientation(HeadRF, measured, Lift(calib), Mul(calib, align))
  {
    NumMulAssociative(measured, Lift(calib), Lift(align));
    LiftRealRoundTrip(calib, Lift(calib));
    LiftRealRoundTrip(align, Lift(align));
  }

  /** A NaN in the measured rotation blanks the rotation key in every mode
      that uses it; a NaN in the calibration blanks it only when tracking
      the eyes. */
  lemma NaNRotations(mode: Mode, measured: NumQuat, calib: NumQuat, align: Quat)
    ensures !IsReal(measured) && mode != WorldRF ==> Orientation(mode, measured, calib, align) == NaNQuat
    ensures !IsReal(calib) && mode == EyesRF ==> Orientation(mode, measured, calib, align) == NaNQuat
    ensures mode != EyesRF ==> Orientation(mode, measured, calib, align) == Orientation(mode, measured, NaNQuat, align)
  {
  }

  /** With the identity calibration the eyes coincide with the head; with
      the identity measurement (the reference pose) the head-tracking camera
      sits at the alignment rotation, and so does the eye-tracking camera when
      the calibration is the identity too. Trajectory and head tracking
      compose alike. */
  lemma IdentityRotations(measured: NumQuat, calib: NumQuat, align: Quat)
    ensures Orientation(EyesRF, measured, Lift(Identity), align) == Orientation(HeadRF, measured, calib, align)
    ensures Orientation(HeadRF, Lift(Identity), calib, align) == Lift(align)
    ensures Orientation(TrajectoryRF, measured, calib, align) == Orientation(HeadRF, measured, calib, align)
    ensures Orientation(EyesRF, Lift(Identity), Lift(Identity), align) == Lift(align)
  {
    NumMulIdentity(measured);
    NumMulIdentity(Lift(align));
    NumMulIdentity(Lift(Identity));
  }

  /** A cell as a number; an integer cell holds its value. */
  function CellNum(c: LoadData.Cell): Num
  {
    match c
    case IntCell(i) => Val(i as real)
    case NumCell(n) => n
  }

  /** numpy's elementwise `frames == f` at one cell: NaN equals nothing. */
  predicate AtFrame(c: LoadData.Cell, f: int)
  {
    CellNum(c) == Val(f as real)
  }

  /** numpy's `np.where(frames == f)`: the increasing indices of the cells
      holding frame `f`. */
  function Where(frames: seq<LoadData.Cell>, f: int): (ix: seq<nat>)
    ensures forall k | 0 <= k < |ix| :: ix[k] < |frames| && AtFrame(frames[ix[k]], f)
    ensures forall i | 0 <= i < |frames| && AtFrame(frames[i], f) :: i in ix
    ensures forall k, l | 0 <= k < l < |ix| :: ix[k] < ix[l]
  {
    if |frames| == 0 then []
    else
      var n := |frames| - 1;
      var ix := Where(frames[..n], f);
      if AtFrame(frames[n], f) then ix + [n] else ix
  }

  /** `transforms_dict['frame']`: a KeyError when absent. A stacked `frame`
      field is not a frame column and fails. */
  function FrameColumn(tr: Transforms): (r: Result<seq<LoadData.Cell>, CameraError>)
    ensures r.Success? <==> "frame" in tr && tr["frame"].Column?
    ensures r.Success? ==> r.value == tr["frame"].cells
    ensures "frame" !in tr ==> r == Failure(MissingField("frame"))
  {
    if "frame" !in tr then Failure(MissingField("frame"))
    else
      match tr["frame"]
      case Column(cells) => Success(cells)
      case Stacked(_) => Failure(BadShape("frame"))
  }

  /** The cells as numbers. */
  function Nums(cells: seq<LoadData.Cell>): (v: seq<Num>)
    ensures |v| == |cells| && forall j | 0 <= j < |cells| :: v[j] == CellNum(cells[j])
  {
    seq(|cells|, j requires 0 <= j < |cells| => CellNum(cells[j]))
  }

  /** `transforms_dict[name][idx_frame].squeeze()` for a frame whose single
      row is `i`: that row of a stacked field, as numbers. A single column
      squeezes to a scalar, and a row past the field's end is numpy's
      IndexError; both give None. */
  function RowAt(tr: Transforms, name: string, i: nat): (r: Option<seq<Num>>)
    requires name in tr
    ensures r.Some? <==> tr[name].Stacked? && i < |tr[name].rows|
    ensures r.Some? ==> r.value == Nums(tr[name].rows[i])
  {
    match tr[name]
    case Column(_) => None
    case Stacked(rows) => if i < |rows| then Some(Nums(rows[i])) else None
  }

  /** `camera_object.location` takes three numbers only. */
  predicate LocationShape(row: Option<seq<Num>>)
  {
    row.Some? && |row.value| == 3
  }

  /** `mathutils.Quaternion` takes three numbers or four. */
  predicate RotationShape(row: Option<seq<Num>>)
  {
    row.Some? && (|row.value| == 3 || |row.value| == 4)
  }

  /** `mathutils.Quaternion(v)`: four numbers are (w, x, y, z); three are a
      rotation vector, converted by the exponential map. */
  function QuatOf(v: seq<Num>, expMap: ExpMap): (q: NumQuat)
    requires |v| == 3 || |v| == 4
    ensures |v| == 4 ==> q.w == v[0] && q.x == v[1] && q.y == v[2] && q.z == v[3]
    ensures |v| == 3 ==> q == expMap(Vec3(v[0], v[1], v[2]))
  {
    if |v| == 4 then NumQuat(v[0], v[1], v[2], v[3]) else expMap(Vec3(v[0], v[1], v[2]))
  }

  /** `mathutils.Quaternion(eyesRF_quat_dict[pair])`, read once before the
      frame loop whatever the mode. NaN coordinates are accepted. */
  function Calibration(cfg: CameraConfig, expMap: ExpMap): (r: Result<NumQuat, CameraError>)
    ensures r == Failure(MissingCalibration(cfg.pair)) <==> cfg.pair !in cfg.eyesQuats
    ensures r.Success? <==> cfg.pair in cfg.eyesQuats
                            && (|cfg.eyesQuats[cfg.pair]| == 3 || |cfg.eyesQuats[cfg.pair]| == 4)
    ensures r.Success? ==> r.value == QuatOf(cfg.eyesQuats[cfg.pair], expMap)
  {
    if cfg.pair !in cfg.eyesQuats then Failure(MissingCalibration(cfg.pair))
    else
      var v := cfg.eyesQuats[cfg.pair];
      if |v| == 3 || |v| == 4 then Success(QuatOf(v, expMap))
      else Failure(BadCalibration(cfg.pair))
  }

  /** The first check that fails at frame `f`, in the order the loop body
      meets them: the frame column, the translation field, the frame's
      single row, the translation's shape, the rotation field and its
      shape, and last the trajectory path. */
  function FrameError(cfg: CameraConfig, tr: Transforms, f: int): Option<CameraError>
  {
    match FrameColumn(tr)
    case Failure(e) => Some(e)
    case Success(frames) =>
      var ix := Where(frames, f);
      var t, q := LocationField(cfg.useInterp), RotationField(cfg.useInterp);
      if t !in tr then Some(MissingField(t))
      else if |ix| != 1 then Some(NoSingleRow(f, |ix|))
      else if !LocationShape(RowAt(tr, t, ix[0])) then Some(BadShape(t))
      else if q !in tr then Some(MissingField(q))
      else if !RotationShape(RowAt(tr, q, ix[0])) then Some(BadShape(q))
      else if ModeOfConfig(cfg) == TrajectoryRF && !Contains(cfg.transformsPath, "trajectoryRF") then Some(NotTrajectoryPath)
      else None
  }

  predicate FrameOk(cfg: CameraConfig, tr: Transforms, f: int)
  {
    FrameError(cfg, tr, f).None?
  }

  /** `g` is the first frame from `lo` on that fails, and `e` its error. */
  predicate FirstFailure(cfg: CameraConfig, tr: Transforms, lo: int, g: int, e: CameraError)
  {
    lo <= g <= cfg.frameEnd && FrameError(cfg, tr, g) == Some(e)
    && forall h | lo <= h < g :: FrameOk(cfg, tr, h)
  }

  /** The row of the frame, once its checks pass. */
  function RowIndex(cfg: CameraConfig, tr: Transforms, f: int): nat
    requires FrameOk(cfg, tr, f)
  {
    Where(FrameColumn(tr).value, f)[0]
  }

  /** The translation at a frame whose checks pass, interpolated or raw as
      the configuration selects. */
  function SelectedLocation(cfg: CameraConfig, tr: Transforms, f: int): Vec3
    requires FrameOk(cfg, tr, f)
  {
    var t := RowAt(tr, LocationField(cfg.useInterp), RowIndex(cfg, tr, f)).value;
    Vec3(t[0], t[1], t[2])
  }

  /** The measured rotation at a frame whose checks pass. */
  function SelectedRotation(cfg: CameraConfig, tr: Transforms, expMap: ExpMap, f: int): NumQuat
    requires FrameOk(cfg, tr, f)
  {
    QuatOf(RowAt(tr, RotationField(cfg.useInterp), RowIndex(cfg, tr, f)).value, expMap)
  }

  /** The keys for frame `f`: the translation from millimetres to metres,
      and the rotation for the configured mode. */
  function KeysAt(cfg: CameraConfig, tr: Transforms, expMap: ExpMap, calib: NumQuat, f: int): FrameKeys
    requires FrameOk(cfg, tr, f)
  {
    FrameKeys(f, Scale(SelectedLocation(cfg, tr, f), MmToM),
              Orientation(ModeOfConfig(cfg), SelectedRotation(cfg, tr, expMap, f), calib, cfg.worldToCamera))
  }

  /** Number of frames from `lo` to `hi` inclusive, as Python's
      `range(lo, hi + 1)`. */
  function Span(lo: int, hi: int): nat
  {
    if lo <= hi then hi - lo + 1 else 0
  }

  /** Every frame from `f` on passes its checks. */
  predicate AllOk(cfg: CameraConfig, tr: Transforms, f: int)
  {
    forall g | f <= g <= cfg.frameEnd :: FrameOk(cfg, tr, g)
  }

  /** `k` holds the keys for frame `f`: the selected translation converted
      from millimetres to metres, and the rotation for the configured mode. */
  predicate KeysFor(cfg: CameraConfig, tr: Transforms, expMap: ExpMap, calib: NumQuat, f: int, k: FrameKeys)
  {
    && FrameOk(cfg, tr, f)
    && k.frame == f
    && k.location == Scale(SelectedLocation(cfg, tr, f), MmToM)
    && k.rotation == Orientation(ModeOfConfig(cfg), SelectedRotation(cfg, tr, expMap, f), calib, cfg.worldToCamera)
  }

  /** `keys` holds the keys of the frames from `f` on, one per frame. */
  predicate KeysMatch(cfg: CameraConfig, tr: Transforms, expMap: ExpMap, calib: NumQuat, f: int, keys: seq<FrameKeys>)
  {
    && |keys| == Span(f, cfg.frameEnd)
    && forall i | 0 <= i < |keys| :: KeysFor(cfg, tr, expMap, calib, f + i, keys[i])
  }

  /** The loop from frame `f` to the end frame. */
  function KeysFrom(cfg: CameraConfig, tr: Transforms, expMap: ExpMap, calib: NumQuat, f: int): (r: Result<seq<FrameKeys>, CameraError>)
    ensures r.Success? <==> AllOk(cfg, tr, f)
    ensures r.Failure? ==> exists g :: FirstFailure(cfg, tr, f, g, r.error)
    ensures r.Success? ==> KeysMatch(cfg, tr, expMap, calib, f, r.value)
    decreases cfg.frameEnd - f
  {
    if f > cfg.frameEnd then Success([])
    else
      match FrameError(cfg, tr, f)
      case Some(e) =>
        assert FirstFailure(cfg, tr, f, f, e);
        assert !FrameOk(cfg, tr, f);
        Failure(e)
      case None =>
        match KeysFrom(cfg, tr, expMap, calib, f + 1)
        case Failure(e) =>
          FirstFailureEarlier(cfg, tr, f, f + 1, e);
          Failure(e)
        case Success(rest) =>
          KeysFromStep(cfg, tr, expMap, calib, f, rest);
          Success([KeysAt(cfg, tr, expMap, calib, f)] + rest)
  }

  /** A first failure after a passing frame is a first failure from that frame. */
  lemma FirstFailureEarlier(cfg: CameraConfig, tr: Transforms, f: int, next: int, e: CameraError)
    requires FrameOk(cfg, tr, f) && next == f + 1
    requires exists g :: FirstFailure(cfg, tr, next, g, e)
    ensures exists g :: FirstFailure(cfg, tr, f, g, e)
    ensures !AllOk(cfg, tr, f)
  {
    var g :| FirstFailure(cfg, tr, next, g, e);
    forall h | f <= h < g
      ensures FrameOk(cfg, tr, h)
    {
      if h != f {
        assert next <= h < g;
      }
    }
    assert FirstFailure(cfg, tr, f, g, e);
    assert !FrameOk(cfg, tr, g);
  }

  lemma KeysFromStep(cfg: CameraConfig, tr: Transforms, expMap: ExpMap, calib: NumQuat, f: int, rest: seq<FrameKeys>)
    requires f <= cfg.frameEnd && FrameOk(cfg, tr, f) && AllOk(cfg, tr, f + 1)
    requires KeysMatch(cfg, tr, expMap, calib, f + 1, rest)
    ensures AllOk(cfg, tr, f)
    ensures KeysMatch(cfg, tr, expMap, calib, f, [KeysAt(cfg, tr, expMap, calib, f)] + rest)
  {
    var keys := [KeysAt(cfg, tr, expMap, calib, f)] + rest;
    forall i | 0 <= i < |keys|
      ensures KeysFor(cfg, tr, expMap, calib, f + i, keys[i])
    {
      if i > 0 {
        assert keys[i] == rest[i - 1];
        assert f + 1 + (i - 1) == f + i;
      }
    }
  }

  /** `insert_camera_keyframes`: the calibration is read first; then every
      frame of the range must pass its checks, and the first frame that does
      not decides the error. On success there is one entry per frame, in
      frame order. */
  function Keyframes(cfg: CameraConfig, tr: Transforms, expMap: ExpMap): (r: Result<seq<FrameKeys>, CameraError>)
    ensures r.Success? <==> Calibration(cfg, expMap).Success?
                            && forall g | cfg.frameStart <= g <= cfg.frameEnd :: FrameOk(cfg, tr, g)
    ensures Calibration(cfg, expMap).Failure? ==> r == Failure(Calibration(cfg, expMap).error)
    ensures Calibration(cfg, expMap).Success? && r.Failure? ==> exists g :: FirstFailure(cfg, tr, cfg.frameStart, g, r.error)
    ensures r.Success? ==> |r.value| == Span(cfg.frameStart, cfg.frameEnd)
    ensures r.Success? ==> forall i | 0 <= i < |r.value| ::
              KeysFor(cfg, tr, expMap, Calibration(cfg, expMap).value, cfg.frameStart + i, r.value[i])
  {
    var calib :- Calibration(cfg, expMap);
    KeysFrom(cfg, tr, expMap, calib, cfg.frameStart)
  }

  /** Tracking the trajectory with a transforms path that does not name the
      trajectory frame stops the run as soon as the range holds a frame. */
  lemma TrajectoryNeedsTrajectoryPath(cfg: CameraConfig, tr: Transforms, expMap: ExpMap)
    requires cfg.tracksTrajectory && cfg.frameStart <= cfg.frameEnd
    requires !Contains(cfg.transformsPath, "trajectoryRF")
    ensures Keyframes(cfg, tr, expMap).Failure?
  {
    assert !FrameOk(cfg, tr, cfg.frameStart);
  }

  /** Only the trajectory mode with a path lacking `trajectoryRF` exits. */
  lemma OnlyTrajectoryPathExits(cfg: CameraConfig, tr: Transforms, f: int)
    ensures FrameError(cfg, tr, f) == Some(NotTrajectoryPath)
            ==> ModeOfConfig(cfg) == TrajectoryRF && !Contains(cfg.transformsPath, "trajectoryRF")
  {
  }

  /** An empty range inserts no keys and needs no transforms, but the
      calibration is still read. */
  lemma EmptyRange(cfg: CameraConfig, tr: Transforms, expMap: ExpMap)
    requires cfg.frameStart > cfg.frameEnd
    ensures Keyframes(cfg, tr, expMap)
         == (if Calibration(cfg, expMap).Success? then Success([]) else Failure(Calibration(cfg, expMap).error))
  {
  }

  /** Parallel to the world, every rotation key is the world-to-camera
      rotation, whatever the transforms hold. */
  lemma WorldModeRotations(cfg: CameraConfig, tr: Transforms, expMap: ExpMap)
    requires !cfg.tracksTrajectory && !cfg.tracksHead && cfg.tracksWorld
    requires Keyframes(cfg, tr, expMap).Success?
    ensures forall i | 0 <= i < |Keyframes(cfg, tr, expMap).value| ::
              Keyframes(cfg, tr, expMap).value[i].rotation == Lift(cfg.worldToCamera)
  {
  }

  /** Outside eye tracking the calibration is read but never used: any
      two calibrations give the same keys, from any frame on. */
  lemma {:induction false} CalibrationUnusedOutsideEyes(cfg: CameraConfig, tr: Transforms, expMap: ExpMap,
                                                        c1: NumQuat, c2: NumQuat, f: int)
    requires ModeOfConfig(cfg) != EyesRF
    ensures KeysFrom(cfg, tr, expMap, c1, f) == KeysFrom(cfg, tr, expMap, c2, f)
    decreases cfg.frameEnd - f
  {
    if f <= cfg.frameEnd && FrameOk(cfg, tr, f) {
      CalibrationUnusedOutsideEyes(cfg, tr, expMap, c1, c2, f + 1);
      KeysAtIgnoreCalibration(cfg, tr, expMap, c1, c2, f);
    }
  }

  lemma KeysAtIgnoreCalibration(cfg: CameraConfig, tr: Transforms, expMap: ExpMap, c1: NumQuat, c2: NumQuat, f: int)
    requires ModeOfConfig(cfg) != EyesRF && FrameOk(cfg, tr, f)
    ensures KeysAt(cfg, tr, expMap, c1, f) == KeysAt(cfg, tr, expMap, c2, f)
  {
    var measured := SelectedRotation(cfg, tr, expMap, f);
    NaNRotations(ModeOfConfig(cfg), measured, c1, cfg.worldToCamera);
    NaNRotations(ModeOfConfig(cfg), measured, c2, cfg.worldToCamera);
  }

  /** A four-number calibration is accepted whatever it holds, NaN
      included; outside eye tracking the keys are then those of the
      identity calibration. */
  lemma NaNCalibrationAccepted(cfg: CameraConfig, tr: Transforms, expMap: ExpMap)
    requires cfg.pair in cfg.eyesQuats && |cfg.eyesQuats[cfg.pair]| == 4
    requires ModeOfConfig(cfg) != EyesRF
    ensures Calibration(cfg, expMap).Success?
    ensures Keyframes(cfg, tr, expMap) == KeysFrom(cfg, tr, expMap, Lift(Identity), cfg.frameStart)
  {
    CalibrationUnusedOutsideEyes(cfg, tr, expMap, Calibration(cfg, expMap).value, Lift(Identity), cfg.frameStart);
  }
}
