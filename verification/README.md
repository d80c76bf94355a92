# hawk-eyes obstacle-avoidance analysis: a Dafny model of the camera, configuration, loaders and scene naming

This project models the non-Blender core of the `obstacle-avoidance/01_analysis`
pipeline. That pipeline renders what a flying bird sees from motion-capture data.
It covers four parts:

- **Configuration** (`config.py`, `config.__init__`). The model reads a JSON
  object, checks the required keys, and checks that the headpack-bird pair
  string agrees with the trial string. It then derives the output directory
  and the CSV paths, with their defaults and the `trajectoryRF` variants. It
  builds the field concatenation map and loads the TO/L frames and the
  head-to-eyes quaternions. It rounds a non-integral render resolution up and
  adjusts the angle ranges to match. It picks the animation range, rejects
  inconsistent tracking flags, and rejects repeated object indices. The steps
  run in source order, and the first failing step ends construction. Each
  failure is a `ConfigError` value where the source calls `sys.exit` or
  raises. The one departure is the resolution guard of config.py:354.
  Construction uses the corrected guard, so a resolution given as integers
  is kept where the code raises (see "## Findings" and "## Left out").
- **Loaders** (`load_data.py`). These are the row-keyed, column-keyed,
  concatenating and TO/L CSV readers. Each takes the rows of the file as
  already-split sequences of cells.
- **Camera keyframes** (`define_camera.py`, `insert_camera_keyframes`). This
  is the frame loop with one location keyframe and one rotation keyframe per
  frame. It reads the transforms dictionary the concatenating loader returns.
  It includes the choice between interpolated and raw data, the dispatch
  between trajectory, head, world and eye tracking, and the trajectory-path
  check. Poses and the calibration may hold NaN, which Blender keys like any
  other value.
- **Scene naming and colours** (`define_geometry.py`). This covers the
  perch, obstacle and plane names, their pass indices and the points they
  are built between, the lamp locations, and `hex_to_rgb` and
  `srgb_to_linearrgb`.

Modules, one per file:

- `Wrappers`: `Option`, `Result` and `Outcome`.
- `Text`: Python string operations such as `split`, `join`, slicing up to
  the n-th separator, `isdigit`/`int` and `str(n)`.
- `Numbers`: NaN-aware numbers and vectors, `math.ceil`, `int()` truncation
  and `mm_to_m`.
- `Quaternions`: the Hamilton product, over reals and over coordinates that
  may be NaN.
- `LoadData`: the loaders.
- `ConfigRules`: the pure checks and derivations of `config.py`.
- `Config`: JSON to settings, in source order.
- `Camera`: the keyframe loop.
- `Geometry`: the scene naming and colours.

Blender, the file system, the clock and number parsing are outside the model.
They enter as parameters:

- `Env` holds the files as rows of cells, the parent directory, the timestamp
  string and the float parser.
- the world-to-camera quaternion;
- the exponential map that `mathutils.Quaternion` applies to three numbers;
- the power-law branch of the sRGB conversion.

## Model

| member | source | states |
|---|---|---|
| ConfigRules.AnyMissing | obstacle-avoidance/01_analysis/config.py:59 | a required value is missing exactly when some listed key is absent or null |
| ConfigRules.CheckRequired | obstacle-avoidance/01_analysis/config.py:34-60 | construction may proceed exactly when all twelve required keys are present and not null; otherwise the error is the missing-parameter exit |
| ConfigRules.BisRunMaximal | obstacle-avoidance/01_analysis/config.py:109 | the run of `b`/`i`/`s` letters counted back from a position is all such letters and cannot be extended |
| ConfigRules.DigitRunMaximal | obstacle-avoidance/01_analysis/config.py:109 | the run of digits counted back from a position is all digits and cannot be extended |
| ConfigRules.TrialStemLeftmostMatch | obstacle-avoidance/01_analysis/config.py:109 | `re.sub(r'\d+([bis]+)?$', '', trial)` removes the leftmost tail matching digits-then-optional-`bis`-letters and keeps the whole trial when no tail matches |
| ConfigRules.MatchesOnlyAfterStem | obstacle-avoidance/01_analysis/config.py:109 | every position where a matching tail starts lies at or after the stem's end |
| ConfigRules.PairPrefixShape | obstacle-avoidance/01_analysis/config.py:109 | `'_'.join(pair.split('_')[0:2])` is the prefix of the pair before its second `_` (the whole pair when it has fewer) and holds exactly one `_` |
| ConfigRules.CheckPair | obstacle-avoidance/01_analysis/config.py:106-110 | the pair check passes exactly when the pair's first two fields equal the trial stem |
| ConfigRules.OutputDirEndsWithTimestamp | obstacle-avoidance/01_analysis/config.py:113-117 | the default output directory name is `trial_suffix_timestamp`, and its last `_` field is the timestamp |
| ConfigRules.PathJoin | obstacle-avoidance/01_analysis/config.py:118-120 | POSIX `os.path.join(a, b)` ends with `b`, is `b` when `b` is absolute, and otherwise starts with `a` |
| ConfigRules.Dirname | obstacle-avoidance/01_analysis/config.py:95 | `os.path.dirname` is a prefix of the path and is empty for a path without `/` |
| ConfigRules.DirnameOfJoin | obstacle-avoidance/01_analysis/config.py:87-95 | `dirname(join(a, b)) == a` when `a` is non-empty without a trailing slash and `b` is a plain name |
| ConfigRules.DirectoryPathEndsWithSlash | obstacle-avoidance/01_analysis/config.py:118-120 | joining with a final `''` gives a path ending in `/` |
| ConfigRules.TrajectoryDefaultPathNamesTrajectory | obstacle-avoidance/01_analysis/config.py:180-187 | with the trajectory flag, the default transforms folder and file name both contain `trajectoryRF` |
| ConfigRules.ExpandField | obstacle-avoidance/01_analysis/config.py:200-203 | a field expands into one name per character of its last `_` field, and fails (IndexError) exactly when a non-empty field has no `_` |
| ConfigRules.ExpandFieldNames | obstacle-avoidance/01_analysis/config.py:200-203 | each expanded name is the field up to and including its last `_`, followed by one axis letter, and its own last field is that letter |
| ConfigRules.ConcatSpec | obstacle-avoidance/01_analysis/config.py:200-203 | the concatenation map pairs every field with its expansion and exists exactly when every field expands |
| ConfigRules.ConcatSpecBuilds | obstacle-avoidance/01_analysis/config.py:193-203 | both field lists, raw-and-interpolated and trajectory-only, expand without error |
| ConfigRules.CombinedFieldsDistinct | obstacle-avoidance/01_analysis/config.py:193-199 | the fields after concatenating are pairwise different, so the dict comprehension loses none |
| ConfigRules.Combinations | obstacle-avoidance/01_analysis/config.py:193-203 | the concatenation map is the expansion of the field list the trajectory flag selects |
| ConfigRules.TrajectoryCombinesOnlyInterpolated | obstacle-avoidance/01_analysis/config.py:198-199 | in trajectory mode only `interp` fields are concatenated |
| ConfigRules.RadDegRoundTrip | obstacle-avoidance/01_analysis/config.py:372-380 | converting degrees to radians and back, or the other way, returns the input |
| ConfigRules.RoundResolution | obstacle-avoidance/01_analysis/config.py:342-380 | an integral resolution is kept with the original ranges. Otherwise each entry is rounded up to the least integer not below it, each range becomes resolution over pixels per degree, and each interval keeps its minimum and spans that range. The result is always integral, and it fails exactly when rounding needs a missing second entry or a zero pixels per degree. A zero pixels per degree is the error reported, because the first entry is divided before the second is read |
| ConfigRules.AllIntegerAsWritten | obstacle-avoidance/01_analysis/config.py:354 | the `x.is_integer()` guard as written: a JSON integer raises; otherwise the guard agrees with integrality |
| ConfigRules.RoundResolutionAsWritten | obstacle-avoidance/01_analysis/config.py:354-380 | the resolution step behind the as-written guard agrees with the corrected step whenever the guard does not raise |
| ConfigRules.IntegerResolutionRejectedAsWritten | obstacle-avoidance/01_analysis/config.py:347-354 | a resolution given as the JSON integers [1800, 900] stops the run as written, while the corrected step keeps it |
| ConfigRules.DefaultGridIsKept | obstacle-avoidance/01_analysis/config.py:304-349 | the defaults (5 pixels per degree, longitude ±π, latitude ±π/2) give the integral resolution 1800 × 900, which is kept |
| ConfigRules.AnimationRange | obstacle-avoidance/01_analysis/config.py:400-443 | the range exists exactly when the trial and its four TO/L keys are present and `frame_TO_1` and `frame_L_2` are numbers. It is the override when one is given, else `[int(frame_TO_1), int(frame_L_2)]`. A missing trial is reported as such |
| ConfigRules.OverrideKeepsLookups | obstacle-avoidance/01_analysis/config.py:400-443 | an explicit animation range does not skip the lookups: it fails exactly when, and with the same error as, the default |
| ConfigRules.CheckFlags | obstacle-avoidance/01_analysis/config.py:518-521 | the flag check passes exactly when no two of the trajectory, head and world flags are set |
| ConfigRules.ElementsSizeIffDistinct | obstacle-avoidance/01_analysis/config.py:553 | `len(set(xs)) == len(xs)` exactly when the list has no repeated value |
| ConfigRules.CheckIndicesIffDistinct | obstacle-avoidance/01_analysis/config.py:550-554 | the index check passes exactly when the concatenated perch, obstacle and plane indices are pairwise different |
| ConfigRules.DefaultIndicesPass | obstacle-avoidance/01_analysis/config.py:526-554 | the default indices {5, 6}, {1, 2, 3, 4} and {7, …, 12} pass the check |
| Config.Str | obstacle-avoidance/01_analysis/config.py:135-137 | `json.get(key, default)` for a string: the default when absent, the value when it is a string, a type error otherwise |
| Config.Bool | obstacle-avoidance/01_analysis/config.py:492-493 | `json.get(key, default)` for a flag: the default when absent, the value when it is a boolean |
| Config.SkipCount | obstacle-avoidance/01_analysis/config.py:205-215 | a header-row count is the default when absent; a given integer skips that many rows, none when negative (`range(n)`) |
| Config.ColumnIndex | obstacle-avoidance/01_analysis/config.py:208-209 | a first-data-column index is the default when absent, else the given non-negative integer |
| Config.Number | obstacle-avoidance/01_analysis/config.py:338-339 | a number setting is the default when absent, else the given integer or float, keeping which of the two it was |
| Config.AllNumbers | obstacle-avoidance/01_analysis/config.py:347-349 | a JSON list reads as numbers exactly when each item is a number, item by item |
| Config.NumberList | obstacle-avoidance/01_analysis/config.py:347-349 | a list setting is the default when absent, else the given list read item by item as numbers |
| Config.Angles | obstacle-avoidance/01_analysis/config.py:304-309 | an angle interval is the default when absent, else the two given numbers as minimum and maximum |
| Config.FramePair | obstacle-avoidance/01_analysis/config.py:441-443 | the animation-range override is absent unless the key is given, and then it is the two given integers |
| Config.IntValues | obstacle-avoidance/01_analysis/config.py:550-552 | a JSON object's values read as integers exactly when all are integers, in order |
| Config.IndexValues | obstacle-avoidance/01_analysis/config.py:526-549 | an index dictionary is the default list when absent, else one value per member of the given object |
| Config.ReqStr | obstacle-avoidance/01_analysis/config.py:97-104 | a required string is read back as the value the JSON holds under its key |
| Config.ReqBool | obstacle-avoidance/01_analysis/config.py:131 | a required flag is read back as the value the JSON holds under its key |
| Config.ReadRequired | obstacle-avoidance/01_analysis/config.py:34-60 | a missing required key stops construction with that error; when the required values are read, each equals the JSON's value under its key |
| Config.Open | obstacle-avoidance/01_analysis/config.py:220-227 | opening a CSV succeeds exactly when the file exists, and yields its rows |
| Config.ReadFolders | obstacle-avoidance/01_analysis/config.py:87-95 | the default data and output folders are `00_data` and `02_output` under the parent directory |
| Config.ReadOutputDir | obstacle-avoidance/01_analysis/config.py:113-120 | the default output directory name is `trial_suffix_timestamp`, and the default output path ends with `/` |
| Config.ReadInputPaths | obstacle-avoidance/01_analysis/config.py:133-163 | the default TO/L path is the TO/L folder joined with the TO/L file name |
| Config.ReadTransformsPath | obstacle-avoidance/01_analysis/config.py:171-187 | with the trajectory flag and no override, the transforms path contains `trajectoryRF` |
| Config.ReadLayout | obstacle-avoidance/01_analysis/config.py:205-215 | with neither key given, the layout is the default header count and first data column |
| Config.ReadPaths | obstacle-avoidance/01_analysis/config.py:113-215 | the output name default, the `trajectoryRF` transforms default and the concatenation map of the trajectory flag all hold in the paths read |
| Config.ReadTables | obstacle-avoidance/01_analysis/config.py:218-227 | the TO/L frames and head-to-eyes quaternions load exactly when both files exist and both loaders succeed, and they are those loaders' results |
| Config.ReadGrid | obstacle-avoidance/01_analysis/config.py:304-380 | the resolution read is always integral; with no grid keys it is the default 1800 × 900 grid |
| Config.ReadIndices | obstacle-avoidance/01_analysis/config.py:526-554 | the indices read are pairwise different; the only failures are a repeat or a wrongly typed dictionary |
| Config.IndicesReadOnlyIndexKeys | obstacle-avoidance/01_analysis/config.py:526-554 | the index check reads its three dictionaries and no other key |
| Config.ReadScene | obstacle-avoidance/01_analysis/config.py:218-554 | after the paths: the tables are the loaders' results, the trial is among the TO/L trials, and the resolution is integral. At most one tracking flag is set and the indices are distinct. The range defaults to the truncated TO/L frames |
| Config.Build | obstacle-avoidance/01_analysis/config.py:34-554 | a configuration that is built satisfies every check of `config.__init__`: the required keys, the pair, the flags, the indices and the integral resolution. Its tables are the loaders' results. Its defaults are the output name, the `trajectoryRF` path and the animation range. A missing required key is reported first |
| Config.BuiltModeIsTheSetFlag | obstacle-avoidance/01_analysis/define_camera.py:342-361 | a built configuration drives the camera in exactly the mode whose flag it sets |
| Config.DefaultTransformsPassCameraCheck | obstacle-avoidance/01_analysis/define_camera.py:343-346 | with the default transforms path, the camera's trajectory-path check never fires |
| LoadData.ToMap | obstacle-avoidance/01_analysis/load_data.py:36-41 | a dict filled in order has the keys written and holds, for each key, the value written last |
| LoadData.ParseAll | obstacle-avoidance/01_analysis/load_data.py:41 | a row's cells parse exactly when each parses, cell by cell |
| LoadData.RowValue | obstacle-avoidance/01_analysis/load_data.py:38-41 | a row's value is its cells from the data column on: all NaN, one per cell, when any cell is empty; otherwise each cell parsed, and missing exactly when some cell does not parse |
| LoadData.RowEntries | obstacle-avoidance/01_analysis/load_data.py:37-41 | the rows load exactly when each row has a key and parses; each entry is keyed by its row's first cell |
| LoadData.KeysPerRow | obstacle-avoidance/01_analysis/load_data.py:15-43 | skipping more rows than the file has is an error; otherwise loading succeeds exactly when every later row loads |
| LoadData.KeysPerRowKeys | obstacle-avoidance/01_analysis/load_data.py:36-41 | the keys are the first cells of the rows after the skipped ones |
| LoadData.KeysPerRowLastWins | obstacle-avoidance/01_analysis/load_data.py:36-41 | a repeated key holds the value of its last row |
| LoadData.ParseCell | obstacle-avoidance/01_analysis/load_data.py:73-77 | a cell under a key containing `frame` is parsed as an integer, any other as a float |
| LoadData.ParseRow | obstacle-avoidance/01_analysis/load_data.py:72-77 | a data row parses exactly when it has a cell for every header key and each parses |
| LoadData.ParseTable | obstacle-avoidance/01_analysis/load_data.py:64-77 | the data rows parse exactly when each row does |
| LoadData.KeysPerCol | obstacle-avoidance/01_analysis/load_data.py:46-82 | skipping too much or leaving no header row is an error; the keys are the header's cells |
| LoadData.KeysPerColColumns | obstacle-avoidance/01_analysis/load_data.py:64-80 | with distinct header cells, each key's column lists its cell from every data row, in order |
| LoadData.Stack | obstacle-avoidance/01_analysis/load_data.py:110-113 | stacking component columns succeeds exactly when all exist with equal lengths; row i holds each component's i-th value |
| LoadData.Concatenate | obstacle-avoidance/01_analysis/load_data.py:98-113 | the result has the uncombined columns unchanged plus one stacked field per combined name, and exists exactly when every combination can be stacked |
| LoadData.ParseOrNaN | obstacle-avoidance/01_analysis/load_data.py:164-167 | an empty TO/L cell is NaN; any other is parsed |
| LoadData.ParsePairs | obstacle-avoidance/01_analysis/load_data.py:163-167 | a trial row's subkey-value pairs parse exactly when each value does |
| LoadData.TrialValues | obstacle-avoidance/01_analysis/load_data.py:162-167 | a trial's dict pairs the subkeys with the row's cells from the data column on, as far as the shorter goes, each cell parsed or NaN when empty, a repeated subkey keeping its last value |
| LoadData.TrialEntries | obstacle-avoidance/01_analysis/load_data.py:158-168 | the trial rows load exactly when each does; each entry is keyed by the row's first cell |
| LoadData.ToLFrames | obstacle-avoidance/01_analysis/load_data.py:135-170 | skipping too much is an error; a file with no row after the skip is empty; otherwise loading succeeds exactly when every trial row loads |
| LoadData.ToLFramesKeys | obstacle-avoidance/01_analysis/load_data.py:158-168 | the trials are the first cells of the rows after the subkey row |
| LoadData.ToLFramesLastWins | obstacle-avoidance/01_analysis/load_data.py:157-168 | a repeated trial holds the values of its last row |
| Camera.ModeOfExclusive | obstacle-avoidance/01_analysis/define_camera.py:342-361 | with at most one flag set, the camera tracks the trajectory, head or world exactly when that flag is set, and the eyes when none is |
| Camera.WorldIgnoresMeasurements | obstacle-avoidance/01_analysis/define_camera.py:353-355 | parallel to the world, the rotation is the alignment whatever the measurement and calibration, NaN or not |
| Camera.NaNRotations | obstacle-avoidance/01_analysis/define_camera.py:342-361 | a NaN in the measured rotation makes the rotation key all NaN in every mode but world; a NaN in the calibration does so only when tracking the eyes, and outside eye tracking the calibration does not matter |
| Camera.EyesIsHeadWithCalibratedAlignment | obstacle-avoidance/01_analysis/define_camera.py:357-361 | tracking the eyes is tracking the head with the alignment pre-rotated by the calibration |
| Camera.IdentityRotations | obstacle-avoidance/01_analysis/define_camera.py:342-361 | trajectory and head tracking compose alike; identity calibration makes eyes equal head; the reference pose gives the alignment |
| Camera.Where | obstacle-avoidance/01_analysis/define_camera.py:315 | `np.where(frames == f)` lists, in increasing order, exactly the rows whose frame cell equals `f`; a NaN cell matches no frame |
| Camera.FrameColumn | obstacle-avoidance/01_analysis/define_camera.py:315 | the frame column is the dictionary's `frame` field; without it the loop raises a KeyError |
| Camera.RowAt | obstacle-avoidance/01_analysis/define_camera.py:320-324 | `field[idx_frame].squeeze()` for a single matching row is that row of a stacked field, cell by cell as numbers; a plain column or a row past the field's end gives nothing |
| Camera.QuatOf | obstacle-avoidance/01_analysis/define_camera.py:306-308 | `mathutils.Quaternion` of four numbers keeps them as (w, x, y, z), NaN included; three numbers go through the exponential map |
| Camera.Calibration | obstacle-avoidance/01_analysis/define_camera.py:306-308 | the head-to-eyes quaternion is the pair's entry; a missing pair is a KeyError, an entry of three or four numbers is accepted whatever they hold, and any other length is rejected |
| Camera.NaNCalibrationAccepted | obstacle-avoidance/01_analysis/define_camera.py:306-308 | a four-number calibration holding NaN is accepted, and outside eye tracking the keys are those of the identity calibration |
| Camera.CalibrationUnusedOutsideEyes | obstacle-avoidance/01_analysis/define_camera.py:342-355 | outside eye tracking, any two calibrations give the same keys from any frame on |
| Camera.KeysFrom | obstacle-avoidance/01_analysis/define_camera.py:311-365 | from a frame on, keyframes are produced exactly when every frame passes its checks; the first failing frame gives the error; each entry is that frame's keys |
| Camera.FirstFailureEarlier | obstacle-avoidance/01_analysis/define_camera.py:312-346 | a frame that passes does not change which later frame fails first |
| Camera.Keyframes | obstacle-avoidance/01_analysis/define_camera.py:300-365 | one location and one rotation keyframe per frame from start to end inclusive, in order. The location is the interpolated or raw row in metres, NaN staying NaN, and the rotation follows the mode. Errors come from the calibration first, then from the first failing frame: a missing field, a frame without exactly one row, a row Blender cannot take, or the trajectory path |
| Camera.TrajectoryNeedsTrajectoryPath | obstacle-avoidance/01_analysis/define_camera.py:343-346 | tracking the trajectory over a non-empty range with a path lacking `trajectoryRF` fails |
| Camera.EmptyRange | obstacle-avoidance/01_analysis/define_camera.py:306-313 | an empty frame range inserts nothing and can only fail on the calibration, never on the path check |
| Camera.WorldModeRotations | obstacle-avoidance/01_analysis/define_camera.py:353-355 | in world mode every rotation keyframe is the alignment quaternion |
| Camera.OnlyTrajectoryPathExits | obstacle-avoidance/01_analysis/define_camera.py:343-346 | the `sys.exit` happens only when tracking the trajectory with a path lacking `trajectoryRF` |
| Quaternions.MulAssociative | obstacle-avoidance/01_analysis/define_camera.py:361 | the quaternion product is associative, so the grouping of `q @ c @ a` does not matter |
| Quaternions.MulIdentity | obstacle-avoidance/01_analysis/define_camera.py:361 | the identity quaternion is neutral on both sides |
| Quaternions.NumMul | obstacle-avoidance/01_analysis/define_camera.py:347-361 | the product of quaternions from data is NaN-free exactly when both factors are, and then it is the Hamilton product; otherwise every coordinate is NaN |
| Quaternions.NumMulAssociative | obstacle-avoidance/01_analysis/define_camera.py:361 | regrouping `q @ c @ a` is sound with NaN coordinates too |
| Quaternions.NumMulIdentity | obstacle-avoidance/01_analysis/define_camera.py:361 | the identity is neutral for NaN-free quaternions and a NaN factor still blanks the product |
| Quaternions.LiftRealRoundTrip | obstacle-avoidance/01_analysis/define_camera.py:335-339 | a real quaternion survives the trip through data, and a NaN-free quaternion from data is a real one |
| Numbers.Scale | obstacle-avoidance/01_analysis/define_camera.py:320-324 | `v * mm_to_m` scales each coordinate, NaN staying NaN, and dividing by the factor gives the coordinate back |
| Numbers.Ceil | obstacle-avoidance/01_analysis/config.py:368-369 | `math.ceil(x)` is the least integer not below `x`, and equals `x` exactly when `x` is integral |
| Numbers.Trunc | obstacle-avoidance/01_analysis/config.py:442-443 | `int(x)` truncates toward zero |
| Text.JoinSplit | obstacle-avoidance/01_analysis/config.py:109 | `c.join(s.split(c)) == s` |
| Text.SplitJoin | obstacle-avoidance/01_analysis/config.py:109 | splitting the join of separator-free fields gives the fields back |
| Text.JoinFirstFields | obstacle-avoidance/01_analysis/config.py:109 | joining the first n fields gives the prefix before the n-th separator, or the whole string when it has fewer |
| Text.LastFieldAfterLastSeparator | obstacle-avoidance/01_analysis/config.py:201-202 | a string with a separator is the text before its last separator, the separator, and the last field |
| Text.BeforeNthPrefix | obstacle-avoidance/01_analysis/define_geometry.py:75 | the text before the n-th separator is a prefix followed by that separator and holds n separators |
| Text.NatToStringRoundTrip | obstacle-avoidance/01_analysis/define_geometry.py:92-93 | `int(str(n)) == n`, and `str(n)` is all digits |
| Geometry.Lower | obstacle-avoidance/01_analysis/define_geometry.py:69 | `p - [0, 0, offset]` broadcasts a one- or three-element point, keeps x and y, and lowers z by the offset |
| Geometry.CylinderBetween | obstacle-avoidance/01_analysis/define_geometry.py:158-171 | the cylinder is placed halfway between its two base centres on each axis |
| Geometry.PerchNamesAreKeyStarts | obstacle-avoidance/01_analysis/define_geometry.py:46-47 | perch names are the distinct nine-character starts of the keys containing `perch` |
| Geometry.PerchEnd | obstacle-avoidance/01_analysis/define_geometry.py:50-53 | a perch end is the first three coordinates lowered by the offset, in metres; a missing key is a KeyError |
| Geometry.Perch | obstacle-avoidance/01_analysis/define_geometry.py:48-59 | a perch is built exactly when both edge centroids are usable and its name has an index; it joins the `_xmax_` and `_xmin_` ends |
| Geometry.ObstacleName | obstacle-avoidance/01_analysis/define_geometry.py:75 | an obstacle's name is its key before the third `_`, and a key with at most two `_` raises |
| Geometry.LastNumberIsLastDigitField | obstacle-avoidance/01_analysis/define_geometry.py:78-81 | the ID index is the value of the last all-digit `_` field, and none is assigned when there is none |
| Geometry.ObstacleIndex | obstacle-avoidance/01_analysis/define_geometry.py:77-83 | with the ID flag the index is the last numeric field; otherwise the dictionary entry of the name, a KeyError when missing |
| Geometry.Obstacle | obstacle-avoidance/01_analysis/define_geometry.py:67-83 | an obstacle runs from its lowered top marker to the point below it at z = 0, both in metres, with its name and index |
| Geometry.ObstacleStandsOnFloor | obstacle-avoidance/01_analysis/define_geometry.py:70 | an obstacle's base has its top's x and y and z = 0 |
| Geometry.PlaneBasesAreKeyStarts | obstacle-avoidance/01_analysis/define_geometry.py:87-89 | plane bases are the wall/floor/ceiling keys without their last character |
| Geometry.PlaneName | obstacle-avoidance/01_analysis/define_geometry.py:97 | a plane's name is its base before the second-to-last `_`, and fewer than two `_` raise |
| Geometry.VertexKeys | obstacle-avoidance/01_analysis/define_geometry.py:92-93 | one vertex key per vertex, each the base followed by more characters |
| Geometry.VertexKeyNumbers | obstacle-avoidance/01_analysis/define_geometry.py:92-93 | vertex key i ends in the decimal digits of i + 1 |
| Geometry.Vertices | obstacle-avoidance/01_analysis/define_geometry.py:92-93 | the vertices exist exactly when every key is present, each scaled to metres; a missing key is reported |
| Geometry.PlaneOf | obstacle-avoidance/01_analysis/define_geometry.py:90-100 | a plane is built exactly when its vertices exist, its name can be cut and the name has an index |
| Geometry.Lamps | obstacle-avoidance/01_analysis/define_geometry.py:110-116 | one lamp per location, named `Lamp_i`, located in metres, with its rotation and strength; shorter lists raise |
| Geometry.LampNamesDistinct | obstacle-avoidance/01_analysis/define_geometry.py:231-232 | different lamps get different names |
| Geometry.Channels | obstacle-avoidance/01_analysis/define_geometry.py:267-269 | each channel is a byte, and r·65536 + g·256 + b is `h` modulo 2^24 |
| Geometry.ChannelsRoundTrip | obstacle-avoidance/01_analysis/define_geometry.py:267-269 | packing three bytes and masking them out gives the same bytes |
| Geometry.ChannelsUnique | obstacle-avoidance/01_analysis/define_geometry.py:267-269 | no two different byte triples pack to the same colour |
| Geometry.SrgbToLinear | obstacle-avoidance/01_analysis/define_geometry.py:256-262 | negative input gives 0; below 0.04045 the result is the input over 12.92; above, the power law |
| Geometry.LinearPartMonotone | obstacle-avoidance/01_analysis/define_geometry.py:256-260 | the linear part preserves order |
| Geometry.HexToRgb | obstacle-avoidance/01_analysis/define_geometry.py:265-270 | four components: the three converted channels over 255, then alpha unchanged |
| Geometry.BlackIsBlack | obstacle-avoidance/01_analysis/define_geometry.py:265-270 | colour 0 converts to black with the given alpha |
| Geometry.HexValue | obstacle-avoidance/01_analysis/define_geometry.py:127-128 | `int(s, 16)` exists exactly for non-empty strings of hex digits and is below 16^len |
| Geometry.HexRoundTrip | obstacle-avoidance/01_analysis/define_geometry.py:127-128 | `int(s, 16)` of a value printed as k upper-case hex digits gives the value back, for every value below 16^k |
| Geometry.HexPrintRoundTrip | obstacle-avoidance/01_analysis/define_geometry.py:127-128 | an upper-case hex string parses, and printing its value at the same width gives the string back |
| Geometry.Material | obstacle-avoidance/01_analysis/define_geometry.py:121-133 | only objects in the colour dictionary get a material, whose colour is `hex_to_rgb(int(hex, 16), alpha)` |
| Geometry.DefaultFloorColour | obstacle-avoidance/01_analysis/define_geometry.py:127-130 | the default floor colour `629E1D` has bytes 0x62, 0x9E, 0x1D |
| Geometry.Environment | obstacle-avoidance/01_analysis/define_geometry.py:44-116 | one perch per perch name and one plane per plane base. One obstacle per `obs` key, but only when some `obs` entry is not all NaN. Each entry is built as above |
| Geometry.NoObstaclesWhenAllNaN | obstacle-avoidance/01_analysis/define_geometry.py:64-65 | when every `obs` entry is all NaN no obstacle is built |
| Geometry.DefaultLamps | obstacle-avoidance/01_analysis/define_geometry.py:110-112 | the default settings give three lamps, the second at (0, −3.5, 3) m |

## Left out

- Blender (`bpy`, `mathutils`). This covers object, mesh, lamp and material creation, keyframe insertion as a side effect, `scene.camera`, and the render settings. The model describes the values handed to Blender, not what Blender does with them.
- Euler-to-quaternion conversion of `eul_worldRF_to_cameraRF_rad`. It is Blender's, so the world-to-camera quaternion is a parameter.
- `sqrt`, `acos` and `atan2` in the cylinder orientation and depth. They are transcendental, so only the cylinder's location (the midpoint) is modelled.
- The power branch `((c + 0.055) / 1.055) ** 2.4` of the sRGB conversion. It is a function parameter.
- Floating-point rounding. Reals are exact, so `np.rad2deg` and `np.deg2rad` are exact inverses here, and π is its double value taken as exact.
- File I/O, CSV tokenising and number parsing. The files are rows of cells, and float and integer parsing are parameters.
- `datetime.today()`. The timestamp is a parameter.
- `os.path.abspath(__file__)`. The parent directory default is a parameter.
- `main.py`, which only calls the modelled operations.
- The printed messages. This includes the suggested-frame-range warnings, which change nothing (config.py:409-432).
- The JSON dump of the configuration (`flag_save_config_as_json`). The flag is read and required, but the writing is I/O.
- The render, material and camera settings of `config.py` that are read with `json.get` and never checked (render passes, stamps, file format and the like).
- The geometry settings are taken as a `Geometry.Params` record rather than read in `Config`. These are the radii, offsets, vertex count, ID flag, index dictionaries, lamp lists and colour dictionary. Their defaults are `Geometry.DefaultParams`.
- Python's truthiness and duck typing of JSON values. A value of the wrong JSON type is the error `WrongType`, where Python might accept it or fail later.
- Config.ColumnIndex: a negative first-data-column index is rejected. Python's negative slicing is not modelled.
- Duplicate keys inside one JSON object. The model's JSON object is a map, and index dictionaries are member lists in file order.
- Unicode digits. `isdigit`, `\d` and `int` are modelled on ASCII digits only.
- Python's `$` matching before a final newline in `re.sub`. Trial strings are taken without a trailing newline.
- Python `int(s, 16)` accepting a sign, a `0x` prefix, underscores or surrounding spaces. `Geometry.HexValue` accepts hex digits only.
- Config.ReadGrid: uses the corrected resolution guard (`ConfigRules.RoundResolution`), so a resolution given as JSON integers, such as `[1800, 900]`, is kept where config.py:354 raises AttributeError on Python 3.9. The guard as written is `ConfigRules.RoundResolutionAsWritten` (see "## Findings").
- Config.ReadScene: inherits the corrected resolution guard of `Config.ReadGrid`, so it succeeds on an integer resolution where config.py:354 raises.
- Config.Build: inherits the corrected resolution guard of `Config.ReadGrid`, so it builds configurations with an integer resolution that config.py:354 rejects.
- Camera.FrameError: a frame matching several rows fails as `NoSingleRow` even when a field's row index is also past its end, where numpy raises an IndexError first. Both are failures; only the error named differs.
- Camera.FrameError: a `frame` field of stacked rows fails as `BadShape`. The loader never builds one, since only the combined pose fields are stacked.
- Camera.RowAt: a stacked field of one component, whose `squeeze()` over several matching rows yields a flat vector, is not modelled. The loader stacks three or four components.
- numpy dtypes, and the 32-bit floats that `mathutils` stores.
- Blender's renaming of objects whose names clash (`.001`) and its 63-byte name limit. An index lookup after such a renaming is not modelled.
- The order in which `create_environment` meets a failing object. Dictionary and set iteration order is not modelled, so `Geometry.Environment` records each object's own outcome.
- `create_plane_between_vertices` uses the face (0, 1, 2, 3). A vertex count other than four is passed through without the mesh error Blender would raise.
- The head and world flags are read a second time with their required values as defaults (config.py:505-511). This gives the same values, so it is folded into the required read.

## Findings

| source | as written | input that shows it | evidently intended | confidence | as-written member | corrected member |
|---|---|---|---|---|---|---|
| obstacle-avoidance/01_analysis/config.py:354 | `all(x.is_integer() for x in resolution)` calls `is_integer` on each entry; Python 3.9 integers have no such method (it arrived in 3.12), so a resolution given as JSON integers raises AttributeError | `"render_resolution_x_y_in_pixels": [1800, 900]` | an integral resolution, given as integers or floats, is kept unchanged | not executed; high for the Python 3.9 the file declares | ConfigRules.IntegerResolutionRejectedAsWritten | ConfigRules.RoundResolution |

The configuration requires twelve keys (config.py:37-56). The model follows
the code, so `flag_save_config_as_json` is one of them.
