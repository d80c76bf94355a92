/** The `config` object of the analysis: the input JSON, read in the order
    `config.__init__` reads it, with every default, derived path and fatal
    check, into one record. The clock, the files on disk and the float
    parser are parameters. */
module Config {

  import opened Wrappers
  import opened Text
  import opened Numbers
  import opened ConfigRules
  import LoadData
  import Camera
  import Quaternions

  /** What the run takes from outside the JSON: the default parent directory
      (two levels above the script), the `%Y%m%d%H%M` timestamp, the CSV
      files by path, already split into cells, and Python's `float`. */
  datatype Env = Env(
    parentDir: string,
    timestamp: string,
    files: map<string, seq<LoadData.Row>>,
    parseFloat: FloatParser)

  /** The values of the required keys. */
  datatype Required = Required(
    trial: string,
    suffix: string,
    pair: string,
    geometryDate: string,
    transformsDate: string,
    tracksTrajectory: bool,
    eyesFile: string,
    framesFile: string,
    framesFolder: string,
    tracksHead: bool,
    tracksWorld: bool,
    saveJson: bool)

  // ---------------------------------------------------------------------
  // Typed `json.get(key, default)`: an absent key gives the default, a
  // present one must have the type the code uses.

  function Str(json: map<string, Json>, key: string, default: string): (r: Result<string, ConfigError>)
    ensures key !in json ==> r == Success(default)
    ensures key in json ==> (r.Success? <==> json[key].JStr?)
    ensures key in json && r.Success? ==> r.value == json[key].s
  {
    if key !in json then Success(default)
    else if json[key].JStr? then Success(json[key].s)
    else Failure(WrongType(key))
  }

  function Bool(json: map<string, Json>, key: string, default: bool): (r: Result<bool, ConfigError>)
    ensures key !in json ==> r == Success(default)
    ensures key in json ==> (r.Success? <==> json[key].JBool?)
    ensures key in json && r.Success? ==> r.value == json[key].b
  {
    if key !in json then Success(default)
    else if json[key].JBool? then Success(json[key].b)
    else Failure(WrongType(key))
  }

  /** A count of header rows: `range(n)` skips nothing for a negative `n`. */
  function SkipCount(json: map<string, Json>, key: string, default: nat): (r: Result<nat, ConfigError>)
    ensures key !in json ==> r == Success(default)
    ensures key in json && r.Success? ==> json[key].JInt? && r.value == Max0(json[key].i)
  {
    if key !in json then Success(default)
    else if json[key].JInt? then Success(Max0(json[key].i))
    else Failure(WrongType(key))
  }

  function Max0(i: int): nat
  {
    if i < 0 then 0 else i
  }

  /** A column index. */
  function ColumnIndex(json: map<string, Json>, key: string, default: nat): (r: Result<nat, ConfigError>)
    ensures key !in json ==> r == Success(default)
    ensures key in json && r.Success? ==> json[key] == Json.JInt(r.value)
  {
    if key !in json then Success(default)
    else if json[key].JInt? && json[key].i >= 0 then Success(json[key].i)
    else Failure(WrongType(key))
  }

  function AsNumber(j: Json): Option<PyNum>
  {
    match j
    case JInt(i) => Some(PyInt(i))
    case JFloat(x) => Some(PyFloat(x))
    case _ => None
  }

  function Number(json: map<string, Json>, key: string, default: PyNum): (r: Result<PyNum, ConfigError>)
    ensures key !in json ==> r == Success(default)
    ensures key in json && r.Success? ==> AsNumber(json[key]) == Some(r.value)
  {
    if key !in json then Success(default)
    else match AsNumber(json[key])
      case Some(n) => Success(n)
      case None => Failure(WrongType(key))
  }

  function AllNumbers(items: seq<Json>): (r: Option<seq<PyNum>>)
    ensures r.Some? <==> forall i | 0 <= i < |items| :: AsNumber(items[i]).Some?
    ensures r.Some? ==> |r.value| == |items|
    ensures r.Some? ==> forall i | 0 <= i < |items| :: AsNumber(items[i]) == Some(r.value[i])
  {
    if |items| == 0 then Some([])
    else
      match AsNumber(items[0])
      case None => None
      case Some(n) =>
        match AllNumbers(items[1..])
        case None => None
        case Some(rest) =>
          assert forall i | 1 <= i < |items| :: items[1..][i - 1] == items[i];
          Some([n] + rest)
  }

  /** A list of numbers. */
  function NumberList(json: map<string, Json>, key: string, default: seq<PyNum>): (r: Result<seq<PyNum>, ConfigError>)
    ensures key !in json ==> r == Success(default)
    ensures key in json ==> (r.Success? <==> json[key].JList? && forall i | 0 <= i < |json[key].items| :: AsNumber(json[key].items[i]).Some?)
    ensures key in json && r.Success? ==>
              && |r.value| == |json[key].items|
              && forall i | 0 <= i < |r.value| :: AsNumber(json[key].items[i]) == Some(r.value[i])
  {
    if key !in json then Success(default)
    else if json[key].JList? && AllNumbers(json[key].items).Some? then Success(AllNumbers(json[key].items).value)
    else Failure(WrongType(key))
  }

  /** A `[min, max]` pair of angles; `np.diff(...).item()` needs exactly two. */
  function Angles(json: map<string, Json>, key: string, default: Interval): (r: Result<Interval, ConfigError>)
    ensures key !in json ==> r == Success(default)
    ensures key in json && r.Success? ==>
              && json[key].JList? && |json[key].items| == 2
              && AsNumber(json[key].items[0]).Some? && r.value.lo == ValueOf(AsNumber(json[key].items[0]).value)
              && AsNumber(json[key].items[1]).Some? && r.value.hi == ValueOf(AsNumber(json[key].items[1]).value)
  {
    var xs :- NumberList(json, key, [PyFloat(default.lo), PyFloat(default.hi)]);
    if |xs| == 2 then Success(Interval(ValueOf(xs[0]), ValueOf(xs[1])))
    else Failure(WrongType(key))
  }

  /** An optional `[start, end]` pair of frame numbers. */
  function FramePair(json: map<string, Json>, key: string): (r: Result<Option<(int, int)>, ConfigError>)
    ensures key !in json ==> r == Success(None)
    ensures key in json && r.Success? ==>
              && r.value.Some? && json[key].JList? && |json[key].items| == 2
              && json[key].items[0] == JInt(r.value.value.0) && json[key].items[1] == JInt(r.value.value.1)
  {
    if key !in json then Success(None)
    else
      var j := json[key];
      if j.JList? && |j.items| == 2 && j.items[0].JInt? && j.items[1].JInt? then
        Success(Some((j.items[0].i, j.items[1].i)))
      else Failure(WrongType(key))
  }

  function IntValues(members: seq<(string, Json)>): (r: Option<seq<int>>)
    ensures r.Some? <==> forall i | 0 <= i < |members| :: members[i].1.JInt?
    ensures r.Some? ==> |r.value| == |members| && forall i | 0 <= i < |members| :: members[i].1 == JInt(r.value[i])
  {
    if |members| == 0 then Some([])
    else if !members[0].1.JInt? then None
    else
      match IntValues(members[1..])
      case None => None
      case Some(rest) => Some([members[0].1.i] + rest)
  }

  /** The values of a name-to-index dictionary, in order. */
  function IndexValues(json: map<string, Json>, key: string, default: seq<int>): (r: Result<seq<int>, ConfigError>)
    ensures key !in json ==> r == Success(default)
    ensures key in json ==> (r.Success? <==> json[key].JObject? && IntValues(json[key].members).Some?)
    ensures key in json && r.Success? ==> |r.value| == |json[key].members|
  {
    if key !in json then Success(default)
    else if json[key].JObject? && IntValues(json[key].members).Some? then Success(IntValues(json[key].members).value)
    else Failure(WrongType(key))
  }

  /** A required string or flag: present and non-null after the required-key
      check, so only its type can be wrong. */
  function ReqStr(json: map<string, Json>, key: string): (r: Result<string, ConfigError>)
    ensures r.Success? ==> Holds(json, key, JStr(r.value))
  {
    if key in json && json[key].JStr? then Success(json[key].s) else Failure(WrongType(key))
  }

  function ReqBool(json: map<string, Json>, key: string): (r: Result<bool, ConfigError>)
    ensures r.Success? ==> Holds(json, key, JBool(r.value))
  {
    if key in json && json[key].JBool? then Success(json[key].b) else Failure(WrongType(key))
  }

  /** The JSON holds `v` at `key`. */
  predicate Holds(json: map<string, Json>, key: string, v: Json)
  {
    key in json && json[key] == v
  }

  /** Reads the required keys, after checking none is missing. */
  function ReadRequired(json: map<string, Json>): (r: Result<Required, ConfigError>)
    ensures CheckRequired(json).Fail? ==> r == Failure(MissingRequired)
    ensures r.Success? ==> CheckRequired(json).Pass?
    ensures r.Success? ==>
              var q := r.value;
              && Holds(json, "trial_str", JStr(q.trial))
              && Holds(json, "render_output_suffix", JStr(q.suffix))
              && Holds(json, "date_bird_HP_pair_str", JStr(q.pair))
              && Holds(json, "geometry_csv_date_str", JStr(q.geometryDate))
              && Holds(json, "transforms_csv_date_str", JStr(q.transformsDate))
              && Holds(json, "flag_camera_tracks_trajectoryRF", JBool(q.tracksTrajectory))
              && Holds(json, "eyesRF_csv_file_str", JStr(q.eyesFile))
              && Holds(json, "frames_TO_L_csv_file_str", JStr(q.framesFile))
              && Holds(json, "TO_L_csv_folder_path", JStr(q.framesFolder))
              && Holds(json, "flag_camera_tracks_headRF", JBool(q.tracksHead))
              && Holds(json, "flag_camera_tracks_worldRF", JBool(q.tracksWorld))
              && Holds(json, "flag_save_config_as_json", JBool(q.saveJson))
  {
    if CheckRequired(json).Fail? then Failure(MissingRequired)
    else
      var trial :- ReqStr(json, "trial_str");
      var suffix :- ReqStr(json, "render_output_suffix");
      var pair :- ReqStr(json, "date_bird_HP_pair_str");
      var geometryDate :- ReqStr(json, "geometry_csv_date_str");
      var transformsDate :- ReqStr(json, "transforms_csv_date_str");
      var trajectory :- ReqBool(json, "flag_camera_tracks_trajectoryRF");
      var eyesFile :- ReqStr(json, "eyesRF_csv_file_str");
      var framesFile :- ReqStr(json, "frames_TO_L_csv_file_str");
      var framesFolder :- ReqStr(json, "TO_L_csv_folder_path");
      var head :- ReqBool(json, "flag_camera_tracks_headRF");
      var world :- ReqBool(json, "flag_camera_tracks_worldRF");
      var saveJson :- ReqBool(json, "flag_save_config_as_json");
      Success(Required(trial, suffix, pair, geometryDate, transformsDate, trajectory,
                       eyesFile, framesFile, framesFolder, head, world, saveJson))
  }

  /** Opens a CSV file. */
  function Open(env: Env, path: string): (r: Result<seq<LoadData.Row>, ConfigError>)
    ensures r.Success? <==> path in env.files
    ensures r.Success? ==> r.value == env.files[path]
  {
    if path in env.files then Success(env.files[path]) else Failure(FileNotFound(path))
  }

  function FromLoad<T>(r: Result<T, LoadData.LoadError>): (o: Result<T, ConfigError>)
    ensures o.Success? <==> r.Success?
    ensures o.Success? ==> o.value == r.value
  {
    match r
    case Success(v) => Success(v)
    case Failure(e) => Failure(Load(e))
  }

  function Check(o: Outcome<ConfigError>): (r: Result<(), ConfigError>)
    ensures r.Success? <==> o.Pass?
    ensures r.Failure? ==> r.error == o.error
  {
    if o.Fail? then Failure(o.error) else Success(())
  }

  /** The input and output folders. */
  datatype Folders = Folders(data: string, output: string, matlab: string)

  /** The folder defaults: data and output folders under the parent
      directory, the MATLAB output beside it. */
  function ReadFolders(json: map<string, Json>, env: Env): (r: Result<Folders, ConfigError>)
    ensures "parent_dir_path" !in json && "data_folder_path" !in json && r.Success? ==>
              r.value.data == PathJoin(env.parentDir, "00_data")
    ensures "parent_dir_path" !in json && "output_folder_path" !in json && r.Success? ==>
              r.value.output == PathJoin(env.parentDir, "02_output")
  {
    var parent :- Str(json, "parent_dir_path", env.parentDir);
    var data :- Str(json, "data_folder_path", PathJoin(parent, "00_data"));
    var output :- Str(json, "output_folder_path", PathJoin(parent, "02_output"));
    var matlab :- Str(json, "matlab_output_folder_path",
                      PathJoinAll([Dirname(parent), "Analysis in Matlab", "02_output"]));
    Success(Folders(data, output, matlab))
  }

  /** The render output directory: its name and its path. */
  function ReadOutputDir(json: map<string, Json>, env: Env, req: Required, dirs: Folders): (r: Result<(string, string), ConfigError>)
    ensures r.Success? && "render_output_parent_dir_str" !in json ==>
              r.value.0 == OutputDirName(req.trial, req.suffix, env.timestamp)
    ensures r.Success? && "render_output_parent_dir_path" !in json ==>
              var p := r.value.1;
              p == "" || p[|p| - 1] == '/'
  {
    var name :- Str(json, "render_output_parent_dir_str", OutputDirName(req.trial, req.suffix, env.timestamp));
    var path :- Str(json, "render_output_parent_dir_path", PathJoinAll([dirs.output, name, ""]));
    DirectoryPathEndsWithSlash(dirs.output, name);
    Success((name, path))
  }

  /** The CSV paths before the transforms: the head-to-eyes file, the TO/L
      file and the geometry file. */
  function ReadInputPaths(json: map<string, Json>, req: Required, dirs: Folders): (r: Result<(string, string, string), ConfigError>)
    ensures r.Success? && "frames_TO_L_csv_path_to_file" !in json ==>
              r.value.1 == PathJoin(req.framesFolder, req.framesFile)
  {
    var eyesPath :- Str(json, "eyesRF_csv_path_to_file", PathJoin(dirs.matlab, req.eyesFile));
    var framesPath :- Str(json, "frames_TO_L_csv_path_to_file", PathJoin(req.framesFolder, req.framesFile));
    var geometryFile :- Str(json, "geometry_csv_file_str", GeometryFileName(req.trial, req.geometryDate));
    var geometryPath :- Str(json, "geometry_csv_path_to_file",
                            PathJoinAll([dirs.data, "Geometry", req.geometryDate, req.pair, geometryFile]));
    Success((eyesPath, framesPath, geometryPath))
  }

  /** The transforms path, which follows the trajectory flag. */
  function ReadTransformsPath(json: map<string, Json>, req: Required, dirs: Folders): (r: Result<string, ConfigError>)
    ensures r.Success? && req.tracksTrajectory
              && "transforms_csv_file_str" !in json && "transforms_csv_path_to_file" !in json ==>
              Contains(r.value, "trajectoryRF")
  {
    var file :- Str(json, "transforms_csv_file_str",
                    TransformsFileName(req.trial, req.transformsDate, req.tracksTrajectory));
    var path :- Str(json, "transforms_csv_path_to_file",
                    TransformsPath(dirs.data, req.transformsDate, req.pair, file, req.tracksTrajectory));
    TrajectoryDefaultPathNamesTrajectory(dirs.data, req.transformsDate, req.pair, req.trial);
    Success(path)
  }

  /** Header rows to skip and first data column of each CSV. */
  datatype Layout = Layout(skip: nat, idx: nat)

  function ReadLayout(json: map<string, Json>, skipKey: string, skipDefault: nat, idxKey: string, idxDefault: nat): (r: Result<Layout, ConfigError>)
    ensures skipKey !in json && idxKey !in json ==> r == Success(Layout(skipDefault, idxDefault))
  {
    var skip :- SkipCount(json, skipKey, skipDefault);
    var idx :- ColumnIndex(json, idxKey, idxDefault);
    Success(Layout(skip, idx))
  }

  /** Files, paths and CSV layout. */
  datatype Paths = Paths(
    outputDirName: string,
    outputDirPath: string,
    eyesPath: string,
    framesPath: string,
    geometryPath: string,
    geometry: Layout,
    transformsPath: string,
    transformsSkip: nat,
    concat: seq<LoadData.Combination>,
    eyes: Layout,
    frames: Layout)

  /** The output directory, the CSV paths and the loader parameters, each
      from the JSON or its default. */
  function ReadPaths(json: map<string, Json>, env: Env, req: Required, dirs: Folders): (r: Result<Paths, ConfigError>)
    ensures r.Success? && "render_output_parent_dir_str" !in json ==>
              r.value.outputDirName == OutputDirName(req.trial, req.suffix, env.timestamp)
    ensures r.Success? && req.tracksTrajectory
              && "transforms_csv_file_str" !in json && "transforms_csv_path_to_file" !in json ==>
              Contains(r.value.transformsPath, "trajectoryRF")
    ensures r.Success? ==> r.value.concat == Combinations(req.tracksTrajectory)
  {
    var outputDir :- ReadOutputDir(json, env, req, dirs);
    var inputs :- ReadInputPaths(json, req, dirs);
    var geometry :- ReadLayout(json, "geometry_csv_n_header_rows_to_skip", 1, "geometry_csv_idx_col_start_data", 1);
    var transformsPath :- ReadTransformsPath(json, req, dirs);
    var transformsSkip :- SkipCount(json, "transforms_csv_n_header_rows_to_skip", 1);
    var eyes :- ReadLayout(json, "eyesRF_csv_n_header_rows_to_skip", 4, "eyesRF_csv_idx_col_start_data", 2);
    var frames :- ReadLayout(json, "frames_csv_n_header_rows_to_skip", 5, "frames_csv_idx_col_start_data", 8);
    Success(Paths(outputDir.0, outputDir.1, inputs.0, inputs.1, inputs.2, geometry,
                  transformsPath, transformsSkip, Combinations(req.tracksTrajectory), eyes, frames))
  }

  /** The TO/L frames and the head-to-eyes quaternions, loaded from their
      files. */
  function ReadTables(env: Env, p: Paths): (r: Result<(map<string, map<string, Num>>, map<string, seq<Num>>), ConfigError>)
    ensures r.Success? <==>
              && p.framesPath in env.files
              && LoadData.ToLFrames(env.files[p.framesPath], p.frames.skip, p.frames.idx, env.parseFloat).Success?
              && p.eyesPath in env.files
              && LoadData.KeysPerRow(env.files[p.eyesPath], p.eyes.skip, p.eyes.idx, env.parseFloat).Success?
    ensures r.Success? ==>
              && r.value.0 == LoadData.ToLFrames(env.files[p.framesPath], p.frames.skip, p.frames.idx, env.parseFloat).value
              && r.value.1 == LoadData.KeysPerRow(env.files[p.eyesPath], p.eyes.skip, p.eyes.idx, env.parseFloat).value
  {
    var framesRows :- Open(env, p.framesPath);
    var toL :- FromLoad(LoadData.ToLFrames(framesRows, p.frames.skip, p.frames.idx, env.parseFloat));
    var eyesRows :- Open(env, p.eyesPath);
    var eyesQuats :- FromLoad(LoadData.KeysPerRow(eyesRows, p.eyes.skip, p.eyes.idx, env.parseFloat));
    Success((toL, eyesQuats))
  }

  /** The pixel grid: pixels per degree, the angle ranges and the
      resolution, which defaults to the ranges times pixels per degree. */
  function ReadGrid(json: map<string, Json>): (r: Result<Grid, ConfigError>)
    ensures r.Success? ==> AllIntegerValued(r.value.resolution)
    ensures "pixels_per_deg" !in json && "camera_longitude_min_max_in_rad" !in json
            && "camera_latitude_min_max_in_rad" !in json && "render_resolution_x_y_in_pixels" !in json ==>
              var lon, lat := Interval(-Pi, Pi), Interval(-0.5 * Pi, 0.5 * Pi);
              r == Success(Grid([PyFloat(1800.0), PyFloat(900.0)], 360.0, 180.0, lon, lat))
  {
    var ppd :- Number(json, "pixels_per_deg", PyInt(5));
    var lon :- Angles(json, "camera_longitude_min_max_in_rad", Interval(-Pi, Pi));
    var lat :- Angles(json, "camera_latitude_min_max_in_rad", Interval(-0.5 * Pi, 0.5 * Pi));
    var res :- NumberList(json, "render_resolution_x_y_in_pixels",
                          [PyFloat(RangeDeg(lon) * ValueOf(ppd)), PyFloat(RangeDeg(lat) * ValueOf(ppd))]);
    DefaultGridIsKept();
    RoundResolution(res, ValueOf(ppd), lon, lat)
  }

  /** The object indices, checked for repeats. */
  function ReadIndices(json: map<string, Json>): (r: Result<(seq<int>, seq<int>, seq<int>), ConfigError>)
    ensures r.Success? ==> LoadData.Distinct(r.value.0 + r.value.1 + r.value.2)
    ensures r.Failure? ==> r.error == DuplicateIndices || r.error.WrongType?
  {
    var perch :- IndexValues(json, "dict_perch_str_to_object_index", DefaultPerchIndices);
    var obstacles :- IndexValues(json, "dict_obs_ID_to_object_index", DefaultObstacleIndices);
    var planes :- IndexValues(json, "dict_planes_str_to_object_index", DefaultPlaneIndices);
    CheckIndicesIffDistinct(perch, obstacles, planes);
    if CheckIndices(perch, obstacles, planes).Fail? then Failure(DuplicateIndices)
    else Success((perch, obstacles, planes))
  }

  /** The index check reads its three dictionaries and nothing else: in
      particular the resolution and its guard play no part in it. */
  lemma IndicesReadOnlyIndexKeys(json: map<string, Json>, key: string, v: Json)
    requires key != "dict_perch_str_to_object_index" && key != "dict_obs_ID_to_object_index"
             && key != "dict_planes_str_to_object_index"
    ensures ReadIndices(json[key := v]) == ReadIndices(json)
  {
    var json' := json[key := v];
    assert IndexValues(json', "dict_perch_str_to_object_index", DefaultPerchIndices)
        == IndexValues(json, "dict_perch_str_to_object_index", DefaultPerchIndices);
    assert IndexValues(json', "dict_obs_ID_to_object_index", DefaultObstacleIndices)
        == IndexValues(json, "dict_obs_ID_to_object_index", DefaultObstacleIndices);
    assert IndexValues(json', "dict_planes_str_to_object_index", DefaultPlaneIndices)
        == IndexValues(json, "dict_planes_str_to_object_index", DefaultPlaneIndices);
  }

  /** The configuration the rest of the analysis reads. */
  datatype Settings = Settings(
    required: Required,
    paths: Paths,
    toL: map<string, map<string, Num>>,
    eyesQuats: map<string, seq<Num>>,
    grid: Grid,
    frameRange: (int, int),
    useInterp: bool,
    perchIndices: seq<int>,
    obstacleIndices: seq<int>,
    planeIndices: seq<int>)

  /** The tables in the settings are what the loaders give for the
      configured files and layouts. */
  predicate Loaded(env: Env, c: Settings)
  {
    && c.paths.framesPath in env.files && c.paths.eyesPath in env.files
    && LoadData.ToLFrames(env.files[c.paths.framesPath], c.paths.frames.skip, c.paths.frames.idx, env.parseFloat)
       == Success(c.toL)
    && LoadData.KeysPerRow(env.files[c.paths.eyesPath], c.paths.eyes.skip, c.paths.eyes.idx, env.parseFloat)
       == Success(c.eyesQuats)
  }

  /** The animation range is `[int(frame_TO_1), int(frame_L_2)]` of the
      trial's TO/L entry. */
  predicate DefaultRange(c: Settings)
  {
    && c.required.trial in c.toL
    && var entry := c.toL[c.required.trial];
       && "frame_TO_1" in entry && entry["frame_TO_1"].Val?
       && "frame_L_2" in entry && entry["frame_L_2"].Val?
       && c.frameRange == (Trunc(entry["frame_TO_1"].v), Trunc(entry["frame_L_2"].v))
  }

  /** The steps after the paths: loading the tables, the pixel grid, the
      animation range, the flag check and the index check. */
  function ReadScene(json: map<string, Json>, env: Env, req: Required, paths: Paths): (r: Result<Settings, ConfigError>)
    ensures r.Success? ==>
              var c := r.value;
              && c.required == req && c.paths == paths
              && Loaded(env, c)
              && req.trial in c.toL
              && AllIntegerValued(c.grid.resolution)
              && Camera.AtMostOne(req.tracksTrajectory, req.tracksHead, req.tracksWorld)
              && LoadData.Distinct(c.perchIndices + c.obstacleIndices + c.planeIndices)
    ensures r.Success? && "animation_frame_start_end" !in json ==> DefaultRange(r.value)
  {
    var tables :- ReadTables(env, paths);
    var grid :- ReadGrid(json);
    var override :- FramePair(json, "animation_frame_start_end");
    var frameRange :- AnimationRange(tables.0, req.trial, override);
    var useInterp :- Bool(json, "flag_use_transform_interp", true);
    // The head and world flags are read again with their required values as
    // defaults, which gives the same values.
    var _ :- Check(CheckFlags(req.tracksTrajectory, req.tracksHead, req.tracksWorld));
    var indices :- ReadIndices(json);
    Success(Settings(req, paths, tables.0, tables.1, grid, frameRange, useInterp,
                     indices.0, indices.1, indices.2))
  }

  /** `config.__init__`: every step in source order; the first failing step
      ends the run. */
  function Build(json: map<string, Json>, env: Env): (r: Result<Settings, ConfigError>)
    ensures CheckRequired(json).Fail? ==> r == Failure(MissingRequired)
    ensures r.Success? ==>
              var c := r.value;
              var req := c.required;
              && CheckRequired(json).Pass?
              && Holds(json, "trial_str", JStr(req.trial))
              && Holds(json, "date_bird_HP_pair_str", JStr(req.pair))
              && PairPrefix(req.pair) == TrialStem(req.trial)
              && Camera.AtMostOne(req.tracksTrajectory, req.tracksHead, req.tracksWorld)
              && LoadData.Distinct(c.perchIndices + c.obstacleIndices + c.planeIndices)
              && AllIntegerValued(c.grid.resolution)
              && req.trial in c.toL
              && Loaded(env, c)
    ensures r.Success? && "animation_frame_start_end" !in json ==> DefaultRange(r.value)
    ensures r.Success? && "render_output_parent_dir_str" !in json ==>
              r.value.paths.outputDirName == OutputDirName(r.value.required.trial, r.value.required.suffix, env.timestamp)
    ensures r.Success? && r.value.required.tracksTrajectory
              && "transforms_csv_file_str" !in json && "transforms_csv_path_to_file" !in json ==>
              Contains(r.value.paths.transformsPath, "trajectoryRF")
  {
    var req :- ReadRequired(json);
    var dirs :- ReadFolders(json, env);
    var _ :- Check(CheckPair(req.pair, req.trial));
    var paths :- ReadPaths(json, env, req, dirs);
    ReadScene(json, env, req, paths)
  }

  /** The values `insert_camera_keyframes` reads from the configuration.
      `worldToCamera` is the quaternion of `eul_worldRF_to_cameraRF`, whose
      Euler conversion is Blender's. */
  function CameraSettings(c: Settings, worldToCamera: Quaternions.Quat): Camera.CameraConfig
  {
    Camera.CameraConfig(c.frameRange.0, c.frameRange.1, c.useInterp,
                        c.required.tracksTrajectory, c.required.tracksHead, c.required.tracksWorld,
                        c.paths.transformsPath, c.required.pair, c.eyesQuats, worldToCamera)
  }

  /** A built configuration selects exactly the camera mode whose flag it set. */
  lemma BuiltModeIsTheSetFlag(json: map<string, Json>, env: Env, worldToCamera: Quaternions.Quat)
    requires Build(json, env).Success?
    ensures var c := Build(json, env).value;
            var mode := Camera.ModeOfConfig(CameraSettings(c, worldToCamera));
            && (mode == Camera.TrajectoryRF <==> c.required.tracksTrajectory)
            && (mode == Camera.HeadRF <==> c.required.tracksHead)
            && (mode == Camera.WorldRF <==> c.required.tracksWorld)
  {
    var req := Build(json, env).value.required;
    Camera.ModeOfExclusive(req.tracksTrajectory, req.tracksHead, req.tracksWorld);
  }

  /** With the default transforms file, the camera's trajectory-path check
      never stops the keyframe loop. */
  lemma DefaultTransformsPassCameraCheck(json: map<string, Json>, env: Env, worldToCamera: Quaternions.Quat,
                                         tr: Camera.Transforms, f: int)
    requires Build(json, env).Success?
    requires "transforms_csv_file_str" !in json && "transforms_csv_path_to_file" !in json
    ensures Camera.FrameError(CameraSettings(Build(json, env).value, worldToCamera), tr, f) != Some(Camera.NotTrajectoryPath)
  {
    var c := Build(json, env).value;
    var cfg := CameraSettings(c, worldToCamera);
    assert c.required.tracksTrajectory ==> Contains(cfg.transformsPath, "trajectoryRF");
    assert Camera.ModeOfConfig(cfg) == Camera.TrajectoryRF ==> c.required.tracksTrajectory;
    Camera.OnlyTrajectoryPathExits(cfg, tr, f);
  }
}
