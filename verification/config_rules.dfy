/** The checks and derivations `config.__init__` applies to its inputs:
    the required keys, the trial/headpack-pair consistency check, default
    file names and paths, the expansion of concatenated field names, the
    rounding of the pixel resolution, the animation frame range, the
    exclusivity of the camera-tracking flags and the uniqueness of the object
    indices. Each fatal `sys.exit` or exception is a `ConfigError`. */
module ConfigRules {

  import opened Wrappers
  import opened Text
  import opened Numbers
  import LoadData

  /** The JSON values `json.load` produces. Objects keep their members in
      text order. */
  datatype Json =
    | JNull
    | JBool(b: bool)
    | JInt(i: int)
    | JFloat(x: real)
    | JStr(s: string)
    | JList(items: seq<Json>)
    | JObject(members: seq<(string, Json)>)

  datatype ConfigError =
    | MissingRequired                    // a required key is absent or null
    | PairMismatch                       // pair and trial strings disagree
    | WrongType(key: string)             // a value of a type the code cannot use
    | NoUnderscore(field: string)        // a field name without `_` to expand
    | FileNotFound(path: string)         // `open` of a file that does not exist
    | Load(error: LoadData.LoadError)    // a loader failed
    | IntHasNoIsInteger                  // `int.is_integer` does not exist
    | ResolutionTooShort                 // fewer than two resolution entries
    | ZeroPixelsPerDegree                // division by a zero pixels-per-degree
    | MissingTrial(trial: string)        // the trial has no TO/L entry
    | MissingFrameKey(key: string)       // the TO/L entry lacks a frame
    | NaNFrame(key: string)              // `int` of a NaN frame
    | InconsistentFlags                  // more than one tracking flag set
    | DuplicateIndices                   // object indices are not unique

  // ---------------------------------------------------------------------
  // Required keys

  /** The keys the input JSON must give a non-null value. */
  const RequiredKeys: seq<string> := [
    "trial_str", "render_output_suffix", "date_bird_HP_pair_str",
    "geometry_csv_date_str", "transforms_csv_date_str", "flag_camera_tracks_trajectoryRF",
    "eyesRF_csv_file_str", "frames_TO_L_csv_file_str", "TO_L_csv_folder_path",
    "flag_camera_tracks_headRF", "flag_camera_tracks_worldRF", "flag_save_config_as_json"]

  /** `json.get(key) is not None`. */
  predicate Given(json: map<string, Json>, key: string)
  {
    key in json && !json[key].JNull?
  }

  /** Python's `any(elem is None for elem in values)` over the given keys. */
  function AnyMissing(json: map<string, Json>, keys: seq<string>): (missing: bool)
    ensures missing <==> exists i | 0 <= i < |keys| :: !Given(json, keys[i])
  {
    if |keys| == 0 then false
    else
      var rest := AnyMissing(json, keys[1..]);
      assert forall i | 1 <= i < |keys| :: keys[1..][i - 1] == keys[i];
      !Given(json, keys[0]) || rest
  }

  function CheckRequired(json: map<string, Json>): (o: Outcome<ConfigError>)
    ensures o.Pass? <==> forall i | 0 <= i < |RequiredKeys| :: Given(json, RequiredKeys[i])
    ensures o.Fail? ==> o.error == MissingRequired
  {
    Need(!AnyMissing(json, RequiredKeys), MissingRequired)
  }

  // ---------------------------------------------------------------------
  // Trial string versus headpack-bird pair

  predicate IsBis(ch: char)
  {
    ch == 'b' || ch == 'i' || ch == 's'
  }

  predicate AllBis(s: string)
  {
    forall i | 0 <= i < |s| :: IsBis(s[i])
  }

  /** `t` matches the regular expression `\d+([bis]+)?` in full. */
  predicate TailMatches(t: string)
  {
    exists k | 1 <= k <= |t| :: AllDigits(t[..k]) && AllBis(t[k..])
  }

  predicate DigitsOn(s: string, lo: nat, hi: nat)
    requires lo <= hi <= |s|
  {
    forall i | lo <= i < hi :: IsDigit(s[i])
  }

  predicate BisOn(s: string, lo: nat, hi: nat)
    requires lo <= hi <= |s|
  {
    forall i | lo <= i < hi :: IsBis(s[i])
  }

  /** Number of `b`, `i`, `s` letters that end at position `end` of `s`. */
  function BisRunBefore(s: string, end: nat): (n: nat)
    requires end <= |s|
    ensures n <= end
  {
    if end == 0 || !IsBis(s[end - 1]) then 0
    else BisRunBefore(s, end - 1) + 1
  }

  /** The run counts letters only, and all of them. */
  lemma {:induction false} BisRunMaximal(s: string, end: nat)
    requires end <= |s|
    ensures var n := BisRunBefore(s, end);
            BisOn(s, end - n, end) && (n < end ==> !IsBis(s[end - n - 1]))
    decreases end
  {
    if end > 0 && IsBis(s[end - 1]) {
      BisRunMaximal(s, end - 1);
    }
  }

  /** Number of digits that end at position `end` of `s`. */
  function DigitRunBefore(s: string, end: nat): (n: nat)
    requires end <= |s|
    ensures n <= end
  {
    if end == 0 || !IsDigit(s[end - 1]) then 0
    else DigitRunBefore(s, end - 1) + 1
  }

  /** The run counts digits only, and all of them. */
  lemma {:induction false} DigitRunMaximal(s: string, end: nat)
    requires end <= |s|
    ensures var n := DigitRunBefore(s, end);
            DigitsOn(s, end - n, end) && (n < end ==> !IsDigit(s[end - n - 1]))
    decreases end
  {
    if end > 0 && IsDigit(s[end - 1]) {
      DigitRunMaximal(s, end - 1);
    }
  }

  /** Python's `re.sub(r'\d+([bis]+)?$', '', trial)`: the trial string without
      its trailing run of digits and any `b`, `i`, `s` letters after it. */
  function TrialStem(trial: string): string
  {
    var letters := |trial| - BisRunBefore(trial, |trial|);
    var d := DigitRunBefore(trial, letters);
    if d == 0 then trial else trial[..letters - d]
  }

  /** `TrialStem` removes exactly the leftmost tail that matches the pattern,
      and nothing when no tail matches: the semantics of `re.sub` with a
      pattern anchored at the end. */
  lemma TrialStemLeftmostMatch(trial: string)
    ensures var stem := TrialStem(trial);
            && |stem| <= |trial| && stem == trial[..|stem|]
            && (|stem| < |trial| ==> TailMatches(trial[|stem|..]))
            && (forall j | 0 <= j < |stem| :: !TailMatches(trial[j..]))
            && (|stem| == |trial| ==> !TailMatches(trial[|trial|..]))
  {
    var stem := TrialStem(trial);
    if |stem| < |trial| {
      StemTailMatches(trial);
    }
    forall j | 0 <= j <= |trial|
      ensures TailMatches(trial[j..]) ==> |stem| <= j < |trial|
    {
      MatchesOnlyAfterStem(trial, j);
    }
  }

  /** What `TrialStem` removes, when anything, matches the pattern. */
  lemma StemTailMatches(trial: string)
    requires |TrialStem(trial)| < |trial|
    ensures TailMatches(trial[|TrialStem(trial)|..])
  {
    var letters := |trial| - BisRunBefore(trial, |trial|);
    var d := DigitRunBefore(trial, letters);
    BisRunMaximal(trial, |trial|);
    DigitRunMaximal(trial, letters);
    TailFromRuns(trial, letters - d, letters);
  }

  /** Digits followed by letters to the end make a matching tail. */
  lemma TailFromRuns(trial: string, lo: nat, mid: nat)
    requires lo < mid <= |trial| && DigitsOn(trial, lo, mid) && BisOn(trial, mid, |trial|)
    ensures TailMatches(trial[lo..])
  {
    var t, k := trial[lo..], mid - lo;
    forall i | 0 <= i < k ensures IsDigit(t[..k][i]) {
      assert t[..k][i] == trial[lo + i];
    }
    forall i | 0 <= i < |t| - k ensures IsBis(t[k..][i]) {
      assert t[k..][i] == trial[mid + i];
    }
    assert AllDigits(t[..k]) && AllBis(t[k..]);
  }

  /** No tail that starts before the stem ends matches the pattern: a
      matching tail starts inside the trailing digits, which precede the
      trailing `b`, `i`, `s` letters. */
  lemma MatchesOnlyAfterStem(trial: string, j: nat)
    requires j <= |trial|
    ensures TailMatches(trial[j..]) ==> |TrialStem(trial)| <= j < |trial|
  {
    if TailMatches(trial[j..]) {
      var e := MatchSplit(trial, j);
      MatchEndsAtLetters(trial, e);
      MatchInDigits(trial, j, e);
    }
  }

  /** Where a matching tail switches from digits to letters. */
  lemma MatchSplit(trial: string, j: nat) returns (e: nat)
    requires j <= |trial| && TailMatches(trial[j..])
    ensures j < e <= |trial| && DigitsOn(trial, j, e) && BisOn(trial, e, |trial|)
  {
    var t := trial[j..];
    var k :| 1 <= k <= |t| && AllDigits(t[..k]) && AllBis(t[k..]);
    e := j + k;
    forall i | j <= i < e ensures IsDigit(trial[i]) {
      assert t[..k][i - j] == trial[i];
    }
    forall i | e <= i < |trial| ensures IsBis(trial[i]) {
      assert t[k..][i - e] == trial[i];
    }
  }

  /** A digit followed by letters only ends where the trailing letters start. */
  lemma MatchEndsAtLetters(trial: string, e: nat)
    requires 0 < e <= |trial| && IsDigit(trial[e - 1]) && BisOn(trial, e, |trial|)
    ensures e == |trial| - BisRunBefore(trial, |trial|)
  {
    BisRunMaximal(trial, |trial|);
    assert !IsBis(trial[e - 1]);
  }

  /** Digits that run up to `e` lie within the digit run ending there. */
  lemma MatchInDigits(trial: string, j: nat, e: nat)
    requires j < e <= |trial| && DigitsOn(trial, j, e)
    ensures var d := DigitRunBefore(trial, e); d >= 1 && e - d <= j
  {
    DigitRunMaximal(trial, e);
  }

  /** Python's `'_'.join(pair.split('_')[0:2])`: the date and bird name of a
      `date_bird_headpack` string. */
  function PairPrefix(pair: string): string
  {
    JoinFirst(pair, '_', 2)
  }

  /** The pair prefix is the pair up to its second `_`, or the whole pair
      when it has fewer than two. */
  lemma PairPrefixShape(pair: string)
    ensures var p := PairPrefix(pair);
            && |p| <= |pair| && p == pair[..|p|]
            && (if Count(pair, '_') >= 2 then |p| < |pair| && pair[|p|] == '_' && Count(p, '_') == 1
                else p == pair)
  {
    JoinFirstFields(pair, '_', 2);
  }

  /** The consistency check between the pair string and the trial string. */
  function CheckPair(pair: string, trial: string): (o: Outcome<ConfigError>)
    ensures o.Pass? <==> PairPrefix(pair) == TrialStem(trial)
    ensures o.Fail? ==> o.error == PairMismatch
  {
    Need(PairPrefix(pair) == TrialStem(trial), PairMismatch)
  }

  // ---------------------------------------------------------------------
  // Names and paths

  /** The render output directory name `trial_suffix_timestamp`. */
  function OutputDirName(trial: string, suffix: string, timestamp: string): string
  {
    Join([trial, suffix, timestamp], '_')
  }

  /** The timestamp is the last `_`-field of the directory name. */
  lemma OutputDirEndsWithTimestamp(trial: string, suffix: string, timestamp: string)
    requires Count(timestamp, '_') == 0
    ensures var name := OutputDirName(trial, suffix, timestamp);
            && LastField(name, '_') == timestamp
            && name == trial + "_" + suffix + "_" + timestamp
  {
    var name := OutputDirName(trial, suffix, timestamp);
    assert [trial, suffix, timestamp][1..] == [suffix, timestamp];
    assert [suffix, timestamp][1..] == [timestamp];
    assert Join([suffix, timestamp], '_') == suffix + "_" + timestamp;
    assert name == trial + "_" + (suffix + "_" + timestamp);
    assert name == (trial + "_" + suffix) + ['_'] + timestamp;
    LastFieldAfterSeparator(trial + "_" + suffix, timestamp, '_');
  }

  /** POSIX `os.path.join(a, b)`: an absolute `b` replaces `a`; otherwise one
      `/` separates them unless `a` is empty or already ends with one. */
  function PathJoin(a: string, b: string): (p: string)
    ensures |b| <= |p| && p[|p| - |b|..] == b
    ensures |b| > 0 && b[0] == '/' ==> p == b
    ensures !(|b| > 0 && b[0] == '/') ==> |a| <= |p| && p[..|a|] == a
  {
    if |b| > 0 && b[0] == '/' then b
    else if |a| == 0 || a[|a| - 1] == '/' then a + b
    else a + "/" + b
  }

  /** Position of the last `/` in `p`, or -1 when it has none. */
  function LastSlash(p: string): (k: int)
    ensures -1 <= k < |p|
    ensures k >= 0 ==> p[k] == '/'
    ensures forall i | k < i < |p| :: p[i] != '/'
  {
    if |p| == 0 then -1
    else if p[|p| - 1] == '/' then |p| - 1
    else LastSlash(p[..|p| - 1])
  }

  predicate AllSlashes(s: string)
  {
    forall i | 0 <= i < |s| :: s[i] == '/'
  }

  /** `s.rstrip('/')`. */
  function StripSlashes(s: string): (t: string)
    ensures |t| <= |s| && t == s[..|t|] && AllSlashes(s[|t|..])
    ensures |t| > 0 ==> t[|t| - 1] != '/'
  {
    if |s| == 0 || s[|s| - 1] != '/' then s
    else
      var t := StripSlashes(s[..|s| - 1]);
      assert s[|t|..] == s[..|s| - 1][|t|..] + ['/'];
      t
  }

  /** POSIX `os.path.dirname(p)`: `p` up to its last `/`, without trailing
      slashes unless it is made of slashes only. */
  function Dirname(p: string): (d: string)
    ensures |d| <= |p| && d == p[..|d|]
    ensures '/' !in p ==> d == ""
  {
    var head := p[..LastSlash(p) + 1];
    if AllSlashes(head) then head else StripSlashes(head)
  }

  /** The directory of a path joined with a relative name is the path again,
      when the path has no trailing slash: `dirname(join(a, b)) == a`. */
  lemma DirnameOfJoin(a: string, b: string)
    requires |a| > 0 && a[|a| - 1] != '/' && '/' !in b
    ensures Dirname(PathJoin(a, b)) == a
  {
    var p := PathJoin(a, b);
    assert p == a + "/" + b;
    assert LastSlash(p) == |a| by {
      assert p[|a|] == '/';
      forall i | |a| < i < |p| ensures p[i] != '/' {
        assert p[i] == b[i - |a| - 1];
      }
      LastSlashIsLast(p, |a|);
    }
    var head := p[..|a| + 1];
    assert head == a + "/";
    assert !AllSlashes(head) by {
      assert head[|a| - 1] == a[|a| - 1];
    }
    assert head[..|head| - 1] == a;
  }

  /** A `/` with none after it is the last one. */
  lemma {:induction false} LastSlashIsLast(p: string, k: nat)
    requires k < |p| && p[k] == '/'
    requires forall i | k < i < |p| :: p[i] != '/'
    ensures LastSlash(p) == k
    decreases |p|
  {
    if k < |p| - 1 {
      var init := p[..|p| - 1];
      assert init[k] == p[k];
      forall i | k < i < |init| ensures init[i] != '/' {
        assert init[i] == p[i];
      }
      LastSlashIsLast(init, k);
    }
  }

  /** `os.path.join(parts[0], parts[1], ...)`. */
  function PathJoinAll(parts: seq<string>): (p: string)
    requires |parts| > 0
    ensures var last := parts[|parts| - 1]; |last| <= |p| && p[|p| - |last|..] == last
  {
    if |parts| == 1 then parts[0]
    else PathJoin(PathJoinAll(parts[..|parts| - 1]), parts[|parts| - 1])
  }

  /** Joining an empty last component adds the trailing slash of a
      directory path. */
  lemma DirectoryPathEndsWithSlash(output: string, name: string)
    ensures var p := PathJoinAll([output, name, ""]);
            p == "" || p[|p| - 1] == '/'
  {
    assert [output, name, ""][..2] == [output, name];
    assert [output, name][..1] == [output];
  }

  /** A substring of a suffix is a substring of the whole. */
  lemma ContainsViaSuffix(s: string, t: string, sub: string)
    requires |t| <= |s| && s[|s| - |t|..] == t
    requires Contains(t, sub)
    ensures Contains(s, sub)
  {
    var i :| 0 <= i <= |t| - |sub| && OccursAt(t, sub, i);
    var off := |s| - |t|;
    assert s[off + i..off + i + |sub|] == t[i..i + |sub|];
    assert OccursAt(s, sub, off + i);
  }

  /** The default transforms file name; tracking the trajectory selects the
      trajectory-frame export. */
  function TransformsFileName(trial: string, date: string, trajectory: bool): string
  {
    trial + (if trajectory then "_transforms_trajectoryRF_export_" else "_transforms_export_") + date + ".csv"
  }

  /** The default transforms path `data/Transforms[_trajectoryRF]/date/pair/file`. */
  function TransformsPath(dataFolder: string, date: string, pair: string, file: string, trajectory: bool): string
  {
    PathJoinAll([dataFolder, if trajectory then "Transforms_trajectoryRF" else "Transforms", date, pair, file])
  }

  /** With the default file name, the trajectory transforms path names the
      trajectory frame, so the camera's path check passes. */
  lemma TrajectoryDefaultPathNamesTrajectory(dataFolder: string, date: string, pair: string, trial: string)
    ensures Contains(TransformsFileName(trial, date, true), "trajectoryRF")
    ensures Contains(TransformsPath(dataFolder, date, pair, TransformsFileName(trial, date, true), true), "trajectoryRF")
  {
    var file := TransformsFileName(trial, date, true);
    assert file == (trial + "_transforms_") + "trajectoryRF" + ("_export_" + date + ".csv");
    ContainsInfix(trial + "_transforms_", "trajectoryRF", "_export_" + date + ".csv");
    var path := TransformsPath(dataFolder, date, pair, file, true);
    ContainsViaSuffix(path, file, "trajectoryRF");
  }

  /** The default geometry file name. */
  function GeometryFileName(trial: string, date: string): string
  {
    trial + "_geometry_export_" + date + ".csv"
  }

  // ---------------------------------------------------------------------
  // Field names to concatenate

  /** `[k[0:last_underscore + 1] + x for x in list(k.split('_')[-1])]`: one
      name per letter of the last `_`-field, each the key up to and including
      its last `_` followed by that letter. A key without `_` fails on the
      index unless it is empty, when the comprehension has nothing to do. */
  function ExpandField(k: string): (r: Result<seq<string>, ConfigError>)
    ensures r.Failure? <==> '_' !in k && |k| > 0
    ensures r.Success? ==> |r.value| == |LastField(k, '_')|
  {
    var axes := LastField(k, '_');
    CountZeroIffAbsent(k, '_');
    if Count(k, '_') == 0 then
      if |k| == 0 then
        assert Split(k, '_') == [""];
        Success([])
      else Failure(NoUnderscore(k))
    else
      var head := BeforeNth(k, '_', Count(k, '_') - 1).value + "_";
      Success(seq(|axes|, i requires 0 <= i < |axes| => head + [axes[i]]))
  }

  /** Each expanded name keeps the key up to its last `_` and ends with one
      letter of the last field, which is then its own last field. */
  lemma ExpandFieldNames(k: string)
    requires ExpandField(k).Success?
    ensures |LastField(k, '_')| <= |k|
    ensures var names, axes := ExpandField(k).value, LastField(k, '_');
            var stem := k[..|k| - |axes|];
            && (|names| > 0 ==> |stem| > 0 && stem[|stem| - 1] == '_')
            && forall i | 0 <= i < |names| ::
                 names[i] == stem + [axes[i]] && LastField(names[i], '_') == [axes[i]]
  {
    var names, axes := ExpandField(k).value, LastField(k, '_');
    if |names| > 0 {
      var n := Count(k, '_');
      LastFieldAfterLastSeparator(k, '_');
      var p := BeforeNth(k, '_', n - 1).value;
      assert k == p + ['_'] + axes;
      var stem := k[..|k| - |axes|];
      assert stem == p + "_";
      LastFieldHasNoSeparator(k, '_');
      forall i | 0 <= i < |names|
        ensures names[i] == stem + [axes[i]] && LastField(names[i], '_') == [axes[i]]
      {
        assert names[i] == p + ['_'] + [axes[i]];
        assert axes[i] != '_' by {
          if axes[i] == '_' {
            CountPositive(axes, '_', i);
          }
        }
        assert Count([axes[i]], '_') == 0;
        LastFieldAfterSeparator(p, [axes[i]], '_');
      }
    }
  }

  /** The last field never holds the separator. */
  lemma LastFieldHasNoSeparator(s: string, c: char)
    ensures Count(LastField(s, c), c) == 0
  {
    if Count(s, c) == 0 {
      SplitNoSeparator(s, c);
    } else {
      LastFieldAfterLastSeparator(s, c);
      var p := BeforeNth(s, c, Count(s, c) - 1).value;
      BeforeNthPrefix(s, c, Count(s, c) - 1);
      CountConcatParts(p, c, LastField(s, c));
    }
  }

  /** Separators in `p + [c] + t` add up. */
  lemma {:induction false} CountConcatParts(p: string, c: char, t: string)
    ensures Count(p + [c] + t, c) == Count(p, c) + 1 + Count(t, c)
    decreases |p|
  {
    var s := p + [c] + t;
    if |p| == 0 {
      assert s[1..] == t;
    } else {
      assert s[1..] == p[1..] + [c] + t;
      CountConcatParts(p[1..], c, t);
      CountUnfold(s, c);
      CountUnfold(p, c);
    }
  }

  /** The combined transforms fields: the raw and interpolated translation
      and rotation, or only the interpolated ones when tracking the
      trajectory. */
  function FieldsAfterConcatenating(trajectory: bool): seq<string>
  {
    if trajectory then ["transform_t_interp_XYZ", "transform_q_interp_WXYZ"]
    else ["transform_t_XYZ", "transform_t_interp_XYZ", "transform_q_WXYZ", "transform_q_interp_WXYZ"]
  }

  /** The combined field names with their component columns. */
  function ConcatSpec(fields: seq<string>): (r: Result<seq<LoadData.Combination>, ConfigError>)
    ensures r.Success? <==> forall i | 0 <= i < |fields| :: ExpandField(fields[i]).Success?
    ensures r.Success? ==> |r.value| == |fields|
    ensures r.Success? ==> forall i | 0 <= i < |fields| :: r.value[i] == (fields[i], ExpandField(fields[i]).value)
  {
    if |fields| == 0 then Success([])
    else
      match ExpandField(fields[0])
      case Failure(e) => Failure(e)
      case Success(names) =>
        match ConcatSpec(fields[1..])
        case Failure(e) =>
          assert forall i | 1 <= i < |fields| :: fields[1..][i - 1] == fields[i];
          Failure(e)
        case Success(rest) =>
          assert forall i | 1 <= i < |fields| :: fields[1..][i - 1] == fields[i];
          Success([(fields[0], names)] + rest)
  }

  /** Every combined field expands, so the concatenation spec is built. */
  lemma ConcatSpecBuilds(trajectory: bool)
    ensures ConcatSpec(FieldsAfterConcatenating(trajectory)).Success?
  {
    var fields := FieldsAfterConcatenating(trajectory);
    forall i | 0 <= i < |fields|
      ensures '_' in fields[i]
    {
      assert fields[i][9] == '_';
    }
    UnderscoredFieldsBuild(fields);
  }

  lemma UnderscoredFieldsBuild(fields: seq<string>)
    requires forall i | 0 <= i < |fields| :: '_' in fields[i]
    ensures ConcatSpec(fields).Success?
  {
    forall i | 0 <= i < |fields|
      ensures ExpandField(fields[i]).Success?
    {
      assert '_' in fields[i];
    }
  }

  /** The combined fields are distinct, as the concatenation needs. */
  lemma CombinedFieldsDistinct(trajectory: bool)
    ensures LoadData.Distinct(FieldsAfterConcatenating(trajectory))
  {
  }

  /** The concatenation spec of the configuration: each combined field
      with its component columns. */
  function Combinations(trajectory: bool): (spec: seq<LoadData.Combination>)
    ensures ConcatSpec(FieldsAfterConcatenating(trajectory)) == Success(spec)
  {
    ConcatSpecBuilds(trajectory);
    ConcatSpec(FieldsAfterConcatenating(trajectory)).value
  }

  /** Tracking the trajectory, only interpolated fields are combined. */
  lemma TrajectoryCombinesOnlyInterpolated()
    ensures forall i | 0 <= i < |FieldsAfterConcatenating(true)| ::
              Contains(FieldsAfterConcatenating(true)[i], "interp")
  {
    ContainsInfix("transform_t_", "interp", "_XYZ");
    ContainsInfix("transform_q_", "interp", "_WXYZ");
    assert "transform_t_interp_XYZ" == "transform_t_" + "interp" + "_XYZ";
    assert "transform_q_interp_WXYZ" == "transform_q_" + "interp" + "_WXYZ";
  }

  // ---------------------------------------------------------------------
  // Pixel resolution

  /** A JSON number as Python holds it: `int` or `float`. */
  datatype PyNum = PyInt(i: int) | PyFloat(x: real)

  function ValueOf(n: PyNum): real
  {
    match n
    case PyInt(i) => i as real
    case PyFloat(x) => x
  }

  /** The value is a whole number (of either Python type). */
  predicate IntegerValued(n: PyNum)
  {
    IsInteger(ValueOf(n))
  }

  predicate AllIntegerValued(xs: seq<PyNum>)
  {
    forall i | 0 <= i < |xs| :: IntegerValued(xs[i])
  }

  function RadToDeg(x: real): real
  {
    x * 180.0 / Pi
  }

  function DegToRad(x: real): real
  {
    x * Pi / 180.0
  }

  lemma RadDegRoundTrip(x: real)
    ensures RadToDeg(DegToRad(x)) == x && DegToRad(RadToDeg(x)) == x
  {
  }

  /** A `[min, max]` pair of angles in radians. */
  datatype Interval = Interval(lo: real, hi: real)

  /** The image grid: resolution in pixels, the longitude and latitude ranges
      in degrees, and the angle intervals in radians. */
  datatype Grid = Grid(resolution: seq<PyNum>, lonRangeDeg: real, latRangeDeg: real, lon: Interval, lat: Interval)

  /** The ranges in degrees the intervals cover. */
  function RangeDeg(iv: Interval): real
  {
    RadToDeg(Abs(iv.hi - iv.lo))
  }

  /** The resolution check and its rounding: a resolution with a fractional
      entry is rounded up entry by entry, the ranges become pixels over
      pixels-per-degree, and each interval keeps its minimum and gets the
      maximum that spans the new range. An integral resolution is kept.
      The first entry is divided before the second is read, so a zero
      pixels-per-degree fails before a one-entry resolution does. */
  function RoundResolution(res: seq<PyNum>, ppd: real, lon: Interval, lat: Interval): (r: Result<Grid, ConfigError>)
    ensures r.Failure? <==> !AllIntegerValued(res) && (|res| < 2 || ppd == 0.0)
    ensures r.Failure? ==> r.error == (if ppd == 0.0 then ZeroPixelsPerDegree else ResolutionTooShort)
    ensures r.Success? ==> AllIntegerValued(r.value.resolution) && |r.value.resolution| == |res|
    ensures r.Success? && AllIntegerValued(res) ==>
              r.value == Grid(res, RangeDeg(lon), RangeDeg(lat), lon, lat)
    ensures r.Success? && !AllIntegerValued(res) ==>
              var g := r.value;
              && (forall i | 0 <= i < |res| ::
                    g.resolution[i].PyInt? && ValueOf(res[i]) <= ValueOf(g.resolution[i]) < ValueOf(res[i]) + 1.0)
              && g.lonRangeDeg * ppd == ValueOf(g.resolution[0])
              && g.latRangeDeg * ppd == ValueOf(g.resolution[1])
              && g.lon.lo == lon.lo && RadToDeg(g.lon.hi - g.lon.lo) == g.lonRangeDeg
              && g.lat.lo == lat.lo && RadToDeg(g.lat.hi - g.lat.lo) == g.latRangeDeg
  {
    if AllIntegerValued(res) then Success(Grid(res, RangeDeg(lon), RangeDeg(lat), lon, lat))
    else
      var rounded := seq(|res|, i requires 0 <= i < |res| => PyInt(Ceil(ValueOf(res[i]))));
      if ppd == 0.0 then Failure(ZeroPixelsPerDegree)
      else if |res| < 2 then Failure(ResolutionTooShort)
      else
        var lonRange := ValueOf(rounded[0]) / ppd;
        var latRange := ValueOf(rounded[1]) / ppd;
        RadDegRoundTrip(lonRange);
        RadDegRoundTrip(latRange);
        assert lon.lo + DegToRad(lonRange) - lon.lo == DegToRad(lonRange);
        assert lat.lo + DegToRad(latRange) - lat.lo == DegToRad(latRange);
        Success(Grid(rounded, lonRange, latRange,
                     Interval(lon.lo, lon.lo + DegToRad(lonRange)),
                     Interval(lat.lo, lat.lo + DegToRad(latRange))))
  }

  /** The guard as written: `all(x.is_integer() for x in res)`. It stops at
      the first fractional float, but an `int` reached before that has no
      `is_integer` method on the Python the scripts target (3.9). */
  function AllIntegerAsWritten(res: seq<PyNum>): (r: Result<bool, ConfigError>)
    ensures r.Success? ==> r.value == AllIntegerValued(res)
    ensures r.Failure? ==> r.error == IntHasNoIsInteger
  {
    if |res| == 0 then Success(true)
    else
      match res[0]
      case PyInt(_) => Failure(IntHasNoIsInteger)
      case PyFloat(x) =>
        if !IsInteger(x) then Success(false)
        else
          var rest := AllIntegerAsWritten(res[1..]);
          assert forall i | 1 <= i < |res| :: res[1..][i - 1] == res[i];
          rest
  }

  /** The resolution step as written, with the guard above. */
  function RoundResolutionAsWritten(res: seq<PyNum>, ppd: real, lon: Interval, lat: Interval): (r: Result<Grid, ConfigError>)
    ensures AllIntegerAsWritten(res).Success? ==> r == RoundResolution(res, ppd, lon, lat)
  {
    var _ :- AllIntegerAsWritten(res);
    RoundResolution(res, ppd, lon, lat)
  }

  /** An integral resolution given as JSON integers, say [1800, 900], stops
      the run as written, where the check evidently means to keep it. */
  lemma IntegerResolutionRejectedAsWritten(ppd: real, lon: Interval, lat: Interval)
    ensures RoundResolutionAsWritten([PyInt(1800), PyInt(900)], ppd, lon, lat) == Failure(IntHasNoIsInteger)
    ensures RoundResolution([PyInt(1800), PyInt(900)], ppd, lon, lat).Success?
    ensures RoundResolution([PyInt(1800), PyInt(900)], ppd, lon, lat).value.resolution == [PyInt(1800), PyInt(900)]
  {
    assert IsInteger(1800.0) && IsInteger(900.0);
    assert AllIntegerValued([PyInt(1800), PyInt(900)]);
  }

  /** The default grid: 5 pixels per degree over the whole sphere gives an
      integral 1800 x 900 resolution, which is kept. */
  lemma DefaultGridIsKept()
    ensures var lon, lat := Interval(-Pi, Pi), Interval(-0.5 * Pi, 0.5 * Pi);
            var res := [PyFloat(RangeDeg(lon) * 5.0), PyFloat(RangeDeg(lat) * 5.0)];
            && res == [PyFloat(1800.0), PyFloat(900.0)]
            && RoundResolution(res, 5.0, lon, lat) == Success(Grid(res, 360.0, 180.0, lon, lat))
  {
    var lon, lat := Interval(-Pi, Pi), Interval(-0.5 * Pi, 0.5 * Pi);
    assert RangeDeg(lon) == 360.0;
    assert RangeDeg(lat) == 180.0;
    assert IsInteger(1800.0) && IsInteger(900.0);
  }

  // ---------------------------------------------------------------------
  // Animation frame range

  /** The animation range: the four TO/L frames of the trial are looked up
      and the default `[int(TO_1), int(L_2)]` is built before the JSON
      override is consulted, so the lookups and conversions can fail even
      when an override is given. */
  function AnimationRange(toL: map<string, map<string, Num>>, trial: string, override: Option<(int, int)>): (r: Result<(int, int), ConfigError>)
    ensures r.Success? <==> && trial in toL
                            && "frame_TO_1" in toL[trial] && "frame_L_1" in toL[trial]
                            && "frame_TO_2" in toL[trial] && "frame_L_2" in toL[trial]
                            && toL[trial]["frame_TO_1"].Val? && toL[trial]["frame_L_2"].Val?
    ensures r.Failure? && trial !in toL ==> r.error == MissingTrial(trial)
    ensures r.Success? && override.Some? ==> r.value == override.value
    ensures r.Success? && override.None? ==>
              r.value == (Trunc(toL[trial]["frame_TO_1"].v), Trunc(toL[trial]["frame_L_2"].v))
  {
    if trial !in toL then Failure(MissingTrial(trial))
    else
      var e := toL[trial];
      if "frame_TO_1" !in e then Failure(MissingFrameKey("frame_TO_1"))
      else if "frame_L_1" !in e then Failure(MissingFrameKey("frame_L_1"))
      else if "frame_TO_2" !in e then Failure(MissingFrameKey("frame_TO_2"))
      else if "frame_L_2" !in e then Failure(MissingFrameKey("frame_L_2"))
      else if e["frame_TO_1"].NaN? then Failure(NaNFrame("frame_TO_1"))
      else if e["frame_L_2"].NaN? then Failure(NaNFrame("frame_L_2"))
      else Success(if override.Some? then override.value else (Trunc(e["frame_TO_1"].v), Trunc(e["frame_L_2"].v)))
  }

  /** An override does not bypass the TO/L lookups: the range fails with or
      without one, with the same error. */
  lemma OverrideKeepsLookups(toL: map<string, map<string, Num>>, trial: string, range: (int, int))
    ensures AnimationRange(toL, trial, Some(range)).Failure? <==> AnimationRange(toL, trial, None).Failure?
    ensures AnimationRange(toL, trial, Some(range)).Failure? ==>
              AnimationRange(toL, trial, Some(range)).error == AnimationRange(toL, trial, None).error
  {
  }

  // ---------------------------------------------------------------------
  // Tracking flags and object indices

  /** `sum([trajectory, head, world]) > 1` stops the run: at most one of the
      camera-tracking flags may be set. */
  function CheckFlags(trajectory: bool, head: bool, world: bool): (o: Outcome<ConfigError>)
    ensures o.Pass? <==> !(trajectory && head) && !(trajectory && world) && !(head && world)
    ensures o.Fail? ==> o.error == InconsistentFlags
  {
    var sum := (if trajectory then 1 else 0) + (if head then 1 else 0) + (if world then 1 else 0);
    Need(sum <= 1, InconsistentFlags)
  }

  /** The elements of a list, Python's `set(xs)`. */
  function Elements(xs: seq<int>): set<int>
  {
    set i | 0 <= i < |xs| :: xs[i]
  }

  /** `len(set(indices)) != len(indices)` stops the run; the indices are the
      perch, obstacle and plane index values in that order. */
  function CheckIndices(perch: seq<int>, obstacles: seq<int>, planes: seq<int>): (o: Outcome<ConfigError>)
    ensures o.Fail? ==> o.error == DuplicateIndices
  {
    var xs := perch + obstacles + planes;
    Need(|Elements(xs)| == |xs|, DuplicateIndices)
  }

  /** The set of a list is as large as the list exactly when the list has no
      repeated element. */
  lemma {:induction false} ElementsSizeIffDistinct(xs: seq<int>)
    ensures |Elements(xs)| <= |xs|
    ensures |Elements(xs)| == |xs| <==> LoadData.Distinct(xs)
    decreases |xs|
  {
    if |xs| > 0 {
      var n := |xs| - 1;
      var init := xs[..n];
      ElementsSizeIffDistinct(init);
      assert Elements(xs) == Elements(init) + {xs[n]} by {
        forall v | v in Elements(xs) ensures v in Elements(init) + {xs[n]} {
          var i :| 0 <= i < |xs| && xs[i] == v;
          if i < n {
            assert init[i] == v;
          }
        }
      }
      if xs[n] in Elements(init) {
        var i :| 0 <= i < n && init[i] == xs[n];
        assert xs[i] == xs[n];
      } else {
        if LoadData.Distinct(init) {
          forall i, j | 0 <= i < j < |xs| ensures xs[i] != xs[j] {
            if j < n {
              assert xs[i] == init[i] && xs[j] == init[j];
            } else {
              assert init[i] in Elements(init);
            }
          }
        } else {
          var i, j :| 0 <= i < j < n && init[i] == init[j];
          assert xs[i] == xs[j];
        }
      }
    }
  }

  /** The index check passes exactly when no index value repeats. */
  lemma CheckIndicesIffDistinct(perch: seq<int>, obstacles: seq<int>, planes: seq<int>)
    ensures CheckIndices(perch, obstacles, planes).Pass? <==> LoadData.Distinct(perch + obstacles + planes)
  {
    ElementsSizeIffDistinct(perch + obstacles + planes);
  }

  /** The default indices: perches 5 and 6, obstacles 1 to 4, planes 7 to 12. */
  const DefaultPerchIndices: seq<int> := [5, 6]
  const DefaultObstacleIndices: seq<int> := [1, 2, 3, 4]
  const DefaultPlaneIndices: seq<int> := [7, 8, 9, 10, 11, 12]

  lemma DefaultIndicesPass()
    ensures CheckIndices(DefaultPerchIndices, DefaultObstacleIndices, DefaultPlaneIndices).Pass?
  {
    var xs := DefaultPerchIndices + DefaultObstacleIndices + DefaultPlaneIndices;
    assert xs == [5, 6, 1, 2, 3, 4, 7, 8, 9, 10, 11, 12];
    forall i, j | 0 <= i < j < |xs| ensures xs[i] != xs[j] {
    }
    CheckIndicesIffDistinct(DefaultPerchIndices, DefaultObstacleIndices, DefaultPlaneIndices);
  }
}
