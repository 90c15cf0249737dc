// datagrowth/utils/io.py: the directories where computer models, media and
// dumps are kept, built with POSIX `os.path.join` and stripped of trailing
// separators. The two settings directories are parameters.

module IoPaths {
  import opened Text

  /** `os.path.join(path, b)` for POSIX paths: an absolute `b` replaces the
      path, otherwise a separator is put in unless the path is empty or
      already ends in one. */
  function Join2(path: string, b: string): (r: string)
    ensures StartsWith(b, "/") ==> r == b
    ensures !StartsWith(b, "/") && (path == [] || path[|path| - 1] == '/') ==> r == path + b
    ensures !StartsWith(b, "/") && path != [] && path[|path| - 1] != '/' ==> r == path + "/" + b
  {
    if StartsWith(b, "/") then b
    else if path == [] || path[|path| - 1] == '/' then path + b
    else path + "/" + b
  }

  /** `s.rstrip(os.sep)`: every trailing "/" removed. */
  function RStripSep(s: string): (r: string)
    ensures |r| <= |s| && r == s[..|r|]
    ensures r == [] || r[|r| - 1] != '/'
    ensures forall k :: |r| <= k < |s| ==> s[k] == '/'
  {
    if s != [] && s[|s| - 1] == '/' then RStripSep(s[..|s| - 1]) else s
  }

  /** A path without a trailing separator is left alone. */
  lemma RStripSepNoTrailing(s: string)
    requires s == [] || s[|s| - 1] != '/'
    ensures RStripSep(s) == s
  {
  }

  /** Joining an empty part only adds a separator, which the strip takes
      away again. */
  lemma {:induction false} RStripSepJoinEmpty(path: string)
    ensures RStripSep(Join2(path, "")) == RStripSep(path)
  {
    if !(path == [] || path[|path| - 1] == '/') {
      assert Join2(path, "") == path + "/";
      assert (path + "/")[..|path|] == path;
    } else {
      assert path + "" == path;
    }
  }

  /** A plain path segment: not empty and without separators. */
  predicate Segment(s: string)
  {
    |s| > 0 && '/' !in s
  }

  /** `get_model_path(app_label, model_type)`. */
  function GetModelPath(dataDir: string, appLabel: string, modelType: string): (r: string)
    ensures r == [] || r[|r| - 1] != '/'
  {
    RStripSep(Join2(Join2(dataDir, appLabel), modelType))
  }

  /** With plain segments the model path is DATA_DIR/app_label, followed by
      /model_type when one is given. */
  lemma ModelPathShape(dataDir: string, appLabel: string, modelType: string)
    requires |dataDir| > 0 && dataDir[|dataDir| - 1] != '/' && Segment(appLabel)
    requires modelType == "" || Segment(modelType)
    ensures GetModelPath(dataDir, appLabel, modelType)
      == if modelType == "" then dataDir + "/" + appLabel else dataDir + "/" + appLabel + "/" + modelType
  {
    var base := Join2(dataDir, appLabel);
    assert base == dataDir + "/" + appLabel by { assert !StartsWith(appLabel, "/") by { assert appLabel[0] != '/'; } }
    assert base[|base| - 1] == appLabel[|appLabel| - 1];
    if modelType == "" {
      RStripSepJoinEmpty(base);
      RStripSepNoTrailing(base);
    } else {
      assert !StartsWith(modelType, "/") by { assert modelType[0] != '/'; }
      var full := base + "/" + modelType;
      assert full[|full| - 1] == modelType[|modelType| - 1];
      RStripSepNoTrailing(full);
    }
  }

  /** `get_media_path(app_label, media_type, absolute)`: under MEDIA_ROOT when
      absolute, relative to the app label otherwise. */
  function GetMediaPath(mediaRoot: string, appLabel: string, mediaType: string, absolute: bool): (r: string)
    ensures r == [] || r[|r| - 1] != '/'
  {
    if absolute then RStripSep(Join2(Join2(mediaRoot, appLabel), mediaType))
    else RStripSep(Join2(appLabel, mediaType))
  }

  /** Without a media type the media path is the path of the app label
      alone. */
  lemma MediaPathWithoutType(mediaRoot: string, appLabel: string, absolute: bool)
    ensures GetMediaPath(mediaRoot, appLabel, "", absolute)
      == if absolute then RStripSep(Join2(mediaRoot, appLabel)) else RStripSep(appLabel)
  {
    if absolute {
      RStripSepJoinEmpty(Join2(mediaRoot, appLabel));
    } else {
      RStripSepJoinEmpty(appLabel);
    }
  }

  /** `get_dumps_path(model)`: DATA_DIR/app_label/dumps/name. */
  function GetDumpsPath(dataDir: string, appLabel: string, name: string): string
  {
    Join2(Join2(Join2(dataDir, appLabel), "dumps"), name)
  }

  lemma DumpsPathShape(dataDir: string, appLabel: string, name: string)
    requires |dataDir| > 0 && dataDir[|dataDir| - 1] != '/' && Segment(appLabel) && Segment(name)
    ensures GetDumpsPath(dataDir, appLabel, name) == dataDir + "/" + appLabel + "/dumps/" + name
  {
    assert !StartsWith(appLabel, "/") by { assert appLabel[0] != '/'; }
    assert !StartsWith(name, "/") by { assert name[0] != '/'; }
    var a := dataDir + "/" + appLabel;
    assert Join2(dataDir, appLabel) == a;
    assert a[|a| - 1] == appLabel[|appLabel| - 1];
    var b := a + "/" + "dumps";
    assert Join2(a, "dumps") == b;
    assert b[|b| - 1] == 's';
    assert Join2(b, name) == b + "/" + name;
  }
}
