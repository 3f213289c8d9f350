/**
 * rust-native/build.rs: where the build script looks for the Discord Social SDK's
 * `lib/release` directory. The file system is a value: the set of paths that exist and, for
 * each directory that can be listed, its entries in the order `read_dir` yields them. A path
 * is the sequence of its components, so `join` is concatenation.
 */
module SdkLocator {
  import opened Wrappers
  import opened TextOrder

  type Path = seq<string>

  /** A listed entry; `isDir` is false also when its metadata could not be read. */
  datatype DirEntry = DirEntry(name: string, isDir: bool)

  datatype FileSystem = FileSystem(existing: set<Path>, listings: map<Path, seq<DirEntry>>)

  datatype TargetOs = Linux | Windows | OtherOs

  /** A found SDK: its version key and its library directory. */
  type Candidate = (string, Path)

  const VERSIONED_PREFIX: string := "DiscordSocialSdk-"
  const UNVERSIONED_DIR: string := "discord_social_sdk"
  /** The key an unversioned `discord_social_sdk` folder sorts under. */
  const UNVERSIONED_KEY: string := "999.999.999"
  const LIB_RELEASE: Path := ["lib", "release"]

  predicate Exists(fs: FileSystem, p: Path) { p in fs.existing }

  /** `read_dir`: the entries, or none when the directory cannot be read. */
  function Entries(fs: FileSystem, dir: Path): seq<DirEntry>
  {
    if dir in fs.listings then fs.listings[dir] else []
  }

  /** `is_valid_sdk`: the path, its `include` and its `lib` all exist. */
  predicate IsValidSdk(fs: FileSystem, p: Path)
  {
    Exists(fs, p) && Exists(fs, p + ["include"]) && Exists(fs, p + ["lib"])
  }

  /** What one entry of the searched directory contributes (build.rs:60-80). */
  function CandidateOf(fs: FileSystem, dir: Path, e: DirEntry): Option<Candidate>
  {
    if !e.isDir then None
    else if VERSIONED_PREFIX <= e.name then
      var lib := dir + [e.name] + [UNVERSIONED_DIR] + LIB_RELEASE;
      if Exists(fs, lib) then Some((e.name[|VERSIONED_PREFIX|..], lib)) else None
    else if e.name == UNVERSIONED_DIR then
      var lib := dir + [e.name] + LIB_RELEASE;
      if Exists(fs, lib) then Some((UNVERSIONED_KEY, lib)) else None
    else None
  }

  /** `sdk_paths` after the loop over `es`, in push order. */
  function Candidates(fs: FileSystem, dir: Path, es: seq<DirEntry>): seq<Candidate>
  {
    if es == [] then []
    else
      var last := CandidateOf(fs, dir, es[|es| - 1]);
      Candidates(fs, dir, es[..|es| - 1]) + (if last.Some? then [last.value] else [])
  }

  /**
   * The index of the element that a stable sort by descending key puts first: the earliest
   * candidate among those with the greatest key.
   */
  function FirstGreatest(c: seq<Candidate>): (r: nat)
    requires |c| > 0
    ensures r < |c|
  {
    if |c| == 1 then 0
    else
      var j := FirstGreatest(c[..|c| - 1]);
      if LexLess(c[j].0, c[|c| - 1].0) then |c| - 1 else j
  }

  /** `find_sdk_in_directory` (build.rs:54-91). */
  function FindIn(fs: FileSystem, dir: Path): Option<Path>
  {
    var c := Candidates(fs, dir, Entries(fs, dir));
    if c == [] then None else Some(c[FirstGreatest(c)].1)
  }

  /** `~/.discord-sdk`; an unset `HOME` formats as the empty string, giving `/.discord-sdk`. */
  function HomeSdk(home: Option<Path>): Path
  {
    (if home.Some? then home.value else ["/"]) + [".discord-sdk"]
  }

  /** The fixed fallback locations of build.rs:25-41, in the order they are tried. */
  function SystemLocations(os: TargetOs, home: Option<Path>): seq<Path>
  {
    match os
    case Linux => [["/", "opt", "discord-sdk"], ["/", "usr", "local", "discord-sdk"], HomeSdk(home)]
    case Windows => [["C:\\", "Discord SDK"], ["C:\\", "Program Files", "Discord SDK"]]
    case OtherOs => [["/", "opt", "discord-sdk"], HomeSdk(home)]
  }

  /** The loop of build.rs:43-49: the first existing location that holds an SDK. */
  function FirstInLocations(fs: FileSystem, locs: seq<Path>): Option<Path>
  {
    if locs == [] then None
    else if Exists(fs, locs[0]) && FindIn(fs, locs[0]).Some? then FindIn(fs, locs[0])
    else FirstInLocations(fs, locs[1..])
  }

  /** What `DISCORD_SDK_PATH` yields: the path itself or its `discord_social_sdk` subdirectory. */
  function FromEnv(fs: FileSystem, env: Option<Path>): Option<Path>
  {
    if env.None? then None
    else if IsValidSdk(fs, env.value) then Some(env.value + LIB_RELEASE)
    else if IsValidSdk(fs, env.value + [UNVERSIONED_DIR]) then Some(env.value + [UNVERSIONED_DIR] + LIB_RELEASE)
    else None
  }

  /** `find_discord_sdk_lib_path` (build.rs:5-52). */
  function LibPath(fs: FileSystem, env: Option<Path>, parentDir: Path, os: TargetOs, home: Option<Path>): Option<Path>
  {
    if FromEnv(fs, env).Some? then FromEnv(fs, env)
    else if FindIn(fs, parentDir).Some? then FindIn(fs, parentDir)
    else FirstInLocations(fs, SystemLocations(os, home))
  }

  // ---------------------------------------------------------------- the selection

  /** The chosen index holds a greatest key, and every earlier candidate's key is strictly smaller. */
  lemma {:induction false} FirstGreatestIsFirstMaximal(c: seq<Candidate>)
    requires |c| > 0
    ensures var r := FirstGreatest(c);
            (forall i :: 0 <= i < |c| ==> !LexLess(c[r].0, c[i].0)) &&
            (forall i :: 0 <= i < r ==> LexLess(c[i].0, c[r].0))
  {
    if |c| == 1 {
      LexLessIrreflexive(c[0].0);
    } else {
      var init := c[..|c| - 1];
      var j := FirstGreatest(init);
      var last := |c| - 1;
      FirstGreatestIsFirstMaximal(init);
      assert forall i :: 0 <= i < last ==> c[i] == init[i];
      if LexLess(c[j].0, c[last].0) {
        forall i | 0 <= i < last
          ensures LexLess(c[i].0, c[last].0)
        {
          LexLessTotal(c[i].0, c[j].0);
          if c[i].0 != c[j].0 {
            LexLessTransitive(c[i].0, c[j].0, c[last].0);
          }
        }
        LexLessIrreflexive(c[last].0);
        forall i | 0 <= i < |c|
          ensures !LexLess(c[last].0, c[i].0)
        {
          if i < last {
            LexLessTotal(c[i].0, c[last].0);
          }
        }
      }
    }
  }

  /** Every candidate comes from one entry, and every qualifying entry gives one. */
  lemma {:induction false} CandidatesFromEntries(fs: FileSystem, dir: Path, es: seq<DirEntry>, x: Candidate)
    ensures x in Candidates(fs, dir, es) <==> exists i :: 0 <= i < |es| && CandidateOf(fs, dir, es[i]) == Some(x)
  {
    if es != [] {
      var init := es[..|es| - 1];
      CandidatesFromEntries(fs, dir, init, x);
      assert forall i :: 0 <= i < |init| ==> init[i] == es[i];
      if exists i :: 0 <= i < |es| && CandidateOf(fs, dir, es[i]) == Some(x) {
        var i :| 0 <= i < |es| && CandidateOf(fs, dir, es[i]) == Some(x);
        if i < |init| {
          assert CandidateOf(fs, dir, init[i]) == Some(x);
        }
      }
    }
  }

  /** A candidate's library directory exists, and it lies inside the directory searched. */
  lemma CandidateShape(fs: FileSystem, dir: Path, e: DirEntry)
    ensures CandidateOf(fs, dir, e).Some? ==>
              var p := CandidateOf(fs, dir, e).value.1;
              Exists(fs, p) && p[..|dir|] == dir && p[|dir|] == e.name && p[|p| - 2..] == LIB_RELEASE
    ensures CandidateOf(fs, dir, e).Some? <==>
              (e.isDir && (VERSIONED_PREFIX <= e.name || e.name == UNVERSIONED_DIR) &&
               Exists(fs, dir + [e.name] + (if VERSIONED_PREFIX <= e.name then [UNVERSIONED_DIR] else []) + LIB_RELEASE))
  {
    if CandidateOf(fs, dir, e).Some? && VERSIONED_PREFIX <= e.name {
      assert [UNVERSIONED_DIR] + LIB_RELEASE == [UNVERSIONED_DIR, "lib", "release"];
    }
    if e.isDir && !(VERSIONED_PREFIX <= e.name) {
      assert dir + [e.name] + [] + LIB_RELEASE == dir + [e.name] + LIB_RELEASE;
    }
  }

  /** Nothing is found exactly when no entry qualifies. */
  lemma NoneIffNoCandidate(fs: FileSystem, dir: Path)
    ensures FindIn(fs, dir).None? <==> forall i :: 0 <= i < |Entries(fs, dir)| ==> CandidateOf(fs, dir, Entries(fs, dir)[i]).None?
  {
    var es := Entries(fs, dir);
    var c := Candidates(fs, dir, es);
    if c != [] {
      CandidatesFromEntries(fs, dir, es, c[0]);
    } else {
      forall i | 0 <= i < |es|
        ensures CandidateOf(fs, dir, es[i]).None?
      {
        if CandidateOf(fs, dir, es[i]).Some? {
          CandidatesFromEntries(fs, dir, es, CandidateOf(fs, dir, es[i]).value);
        }
      }
    }
  }

  /**
   * What is found comes from a qualifying entry whose key no other qualifying entry exceeds,
   * and it is an existing directory.
   */
  lemma ChosenIsGreatest(fs: FileSystem, dir: Path)
    requires FindIn(fs, dir).Some?
    ensures var c := Candidates(fs, dir, Entries(fs, dir));
            var k := c[FirstGreatest(c)].0;
            Exists(fs, FindIn(fs, dir).value) &&
            (exists i :: 0 <= i < |Entries(fs, dir)| && CandidateOf(fs, dir, Entries(fs, dir)[i]) == Some((k, FindIn(fs, dir).value))) &&
            forall i :: 0 <= i < |Entries(fs, dir)| && CandidateOf(fs, dir, Entries(fs, dir)[i]).Some? ==>
              !LexLess(k, CandidateOf(fs, dir, Entries(fs, dir)[i]).value.0)
  {
    var es := Entries(fs, dir);
    var c := Candidates(fs, dir, es);
    var r := FirstGreatest(c);
    FirstGreatestIsFirstMaximal(c);
    CandidatesFromEntries(fs, dir, es, c[r]);
    var i :| 0 <= i < |es| && CandidateOf(fs, dir, es[i]) == Some(c[r]);
    CandidateShape(fs, dir, es[i]);
    forall i | 0 <= i < |es| && CandidateOf(fs, dir, es[i]).Some?
      ensures !LexLess(c[r].0, CandidateOf(fs, dir, es[i]).value.0)
    {
      CandidatesFromEntries(fs, dir, es, CandidateOf(fs, dir, es[i]).value);
    }
  }

  /** Keys compare as text, not as versions: "1.10" sorts below "1.9". */
  lemma VersionsCompareAsText()
    ensures LexLess("1.10", "1.9")
  {
    assert "1.10"[1..] == ".10" && "1.9"[1..] == ".9";
    assert ".10"[1..] == "10" && ".9"[1..] == "9";
  }

  /** So of `DiscordSocialSdk-1.10` and `DiscordSocialSdk-1.9`, the 1.9 SDK is chosen. */
  lemma NineBeatsTen(dir: Path)
    ensures var v10 := dir + ["DiscordSocialSdk-1.10", UNVERSIONED_DIR, "lib", "release"];
            var v9 := dir + ["DiscordSocialSdk-1.9", UNVERSIONED_DIR, "lib", "release"];
            var fs := FileSystem({v10, v9}, map[dir := [DirEntry("DiscordSocialSdk-1.10", true), DirEntry("DiscordSocialSdk-1.9", true)]]);
            FindIn(fs, dir) == Some(v9)
  {
    var v10 := dir + ["DiscordSocialSdk-1.10", UNVERSIONED_DIR, "lib", "release"];
    var v9 := dir + ["DiscordSocialSdk-1.9", UNVERSIONED_DIR, "lib", "release"];
    var e10, e9 := DirEntry("DiscordSocialSdk-1.10", true), DirEntry("DiscordSocialSdk-1.9", true);
    var fs := FileSystem({v10, v9}, map[dir := [e10, e9]]);
    assert VERSIONED_PREFIX <= e10.name && e10.name[|VERSIONED_PREFIX|..] == "1.10";
    assert VERSIONED_PREFIX <= e9.name && e9.name[|VERSIONED_PREFIX|..] == "1.9";
    assert dir + [e10.name] + [UNVERSIONED_DIR] + LIB_RELEASE == v10;
    assert dir + [e9.name] + [UNVERSIONED_DIR] + LIB_RELEASE == v9;
    assert CandidateOf(fs, dir, e10) == Some(("1.10", v10));
    assert CandidateOf(fs, dir, e9) == Some(("1.9", v9));
    assert [e10, e9][..1] == [e10];
    assert [e10][..0] == [];
    assert Candidates(fs, dir, []) == [];
    assert Candidates(fs, dir, [e10]) == [("1.10", v10)];
    var c := Candidates(fs, dir, [e10, e9]);
    assert c == [("1.10", v10), ("1.9", v9)];
    VersionsCompareAsText();
    assert c[..1] == [("1.10", v10)];
  }

  /** The unversioned folder outranks every version key that starts below '9'. */
  lemma UnversionedOutranks(v: string)
    requires v != [] && v[0] < '9'
    ensures LexLess(v, UNVERSIONED_KEY)
  {
  }

  // ---------------------------------------------------------------- the priority order

  /** Priority 1: a valid `DISCORD_SDK_PATH`, or its valid subdirectory, wins over everything. */
  lemma EnvironmentFirst(fs: FileSystem, env: Option<Path>, parentDir: Path, os: TargetOs, home: Option<Path>)
    ensures env.Some? && IsValidSdk(fs, env.value) ==> LibPath(fs, env, parentDir, os, home) == Some(env.value + LIB_RELEASE)
    ensures env.Some? && !IsValidSdk(fs, env.value) && IsValidSdk(fs, env.value + [UNVERSIONED_DIR]) ==>
              LibPath(fs, env, parentDir, os, home) == Some(env.value + [UNVERSIONED_DIR] + LIB_RELEASE)
  {
  }

  /** Priority 2: without a usable variable, an SDK in the project root wins over the system locations. */
  lemma ProjectRootSecond(fs: FileSystem, env: Option<Path>, parentDir: Path, os: TargetOs, home: Option<Path>)
    requires FromEnv(fs, env).None?
    ensures FindIn(fs, parentDir).Some? ==> LibPath(fs, env, parentDir, os, home) == FindIn(fs, parentDir)
    ensures FindIn(fs, parentDir).None? ==> LibPath(fs, env, parentDir, os, home) == FirstInLocations(fs, SystemLocations(os, home))
  {
  }

  /** Priority 3: the first system location, in order, that exists and holds an SDK; nothing if none does. */
  lemma {:induction false} SystemLocationsInOrder(fs: FileSystem, locs: seq<Path>)
    ensures FirstInLocations(fs, locs).None? <==>
              forall i :: 0 <= i < |locs| ==> !Exists(fs, locs[i]) || FindIn(fs, locs[i]).None?
    ensures forall i :: (0 <= i < |locs| && Exists(fs, locs[i]) && FindIn(fs, locs[i]).Some? &&
                         (forall j :: 0 <= j < i ==> !Exists(fs, locs[j]) || FindIn(fs, locs[j]).None?)) ==>
              FirstInLocations(fs, locs) == FindIn(fs, locs[i])
  {
    if locs != [] {
      SystemLocationsInOrder(fs, locs[1..]);
      assert forall i :: 1 <= i < |locs| ==> locs[i] == locs[1..][i - 1];
      if !(Exists(fs, locs[0]) && FindIn(fs, locs[0]).Some?) {
        forall i | 1 <= i < |locs| && Exists(fs, locs[i]) && FindIn(fs, locs[i]).Some? &&
                   (forall j :: 0 <= j < i ==> !Exists(fs, locs[j]) || FindIn(fs, locs[j]).None?)
          ensures FirstInLocations(fs, locs) == FindIn(fs, locs[i])
        {
          assert forall j :: 0 <= j < i - 1 ==> locs[1..][j] == locs[j + 1];
        }
      }
    }
  }

  /**
   * Only the variable's path is taken on trust: the project root and the system locations
   * return an existing `lib/release`, while `DISCORD_SDK_PATH` is accepted when `lib` exists
   * even if `lib/release` does not.
   */
  lemma FoundPathsExist(fs: FileSystem, parentDir: Path, locs: seq<Path>)
    ensures FindIn(fs, parentDir).Some? ==> Exists(fs, FindIn(fs, parentDir).value)
    ensures FirstInLocations(fs, locs).Some? ==> Exists(fs, FirstInLocations(fs, locs).value)
  {
    if FindIn(fs, parentDir).Some? {
      ChosenIsGreatest(fs, parentDir);
    }
    FirstExists(fs, locs);
  }

  lemma {:induction false} FirstExists(fs: FileSystem, locs: seq<Path>)
    ensures FirstInLocations(fs, locs).Some? ==> Exists(fs, FirstInLocations(fs, locs).value)
  {
    if locs != [] {
      if Exists(fs, locs[0]) && FindIn(fs, locs[0]).Some? {
        ChosenIsGreatest(fs, locs[0]);
      } else {
        FirstExists(fs, locs[1..]);
      }
    }
  }

  lemma EnvironmentNotChecked()
    ensures var sdk: Path := ["/", "sdk"];
            var fs := FileSystem({sdk, sdk + ["include"], sdk + ["lib"]}, map[]);
            LibPath(fs, Some(sdk), ["/", "project"], Linux, None) == Some(sdk + LIB_RELEASE) &&
            !Exists(fs, sdk + LIB_RELEASE)
  {
    var sdk: Path := ["/", "sdk"];
    assert sdk + LIB_RELEASE == ["/", "sdk", "lib", "release"];
    assert sdk + ["lib"] == ["/", "sdk", "lib"];
    assert sdk + ["include"] == ["/", "sdk", "include"];
  }

  // ---------------------------------------------------------------- the build script's loops

  /** `find_sdk_in_directory` with its entry loop. */
  method FindSdkInDirectory(fs: FileSystem, searchDir: Path) returns (r: Option<Path>)
    ensures r == FindIn(fs, searchDir)
  {
    var sdkPaths: seq<Candidate> := [];
    var entries := Entries(fs, searchDir);
    var i := 0;
    while i < |entries|
      invariant 0 <= i <= |entries|
      invariant sdkPaths == Candidates(fs, searchDir, entries[..i])
    {
      var entry := entries[i];
      assert entries[..i + 1][..i] == entries[..i];
      if entry.isDir {
        var name := entry.name;
        if VERSIONED_PREFIX <= name {
          var version := name[|VERSIONED_PREFIX|..];
          var libPath := searchDir + [name] + [UNVERSIONED_DIR] + LIB_RELEASE;
          if libPath in fs.existing {
            sdkPaths := sdkPaths + [(version, libPath)];
          }
        } else if name == UNVERSIONED_DIR {
          var libPath := searchDir + [name] + LIB_RELEASE;
          if libPath in fs.existing {
            sdkPaths := sdkPaths + [(UNVERSIONED_KEY, libPath)];
          }
        }
      }
      i := i + 1;
    }
    assert entries[..|entries|] == entries;
    if sdkPaths != [] {
      // a stable sort by descending key puts this candidate at index 0
      var first := FirstGreatest(sdkPaths);
      return Some(sdkPaths[first].1);
    }
    r := None;
  }

  /** `find_discord_sdk_lib_path` with its loop over the system locations. */
  method FindDiscordSdkLibPath(fs: FileSystem, env: Option<Path>, parentDir: Path, os: TargetOs, home: Option<Path>)
    returns (r: Option<Path>)
    ensures r == LibPath(fs, env, parentDir, os, home)
  {
    if env.Some? {
      var path := env.value;
      if IsValidSdk(fs, path) {
        return Some(path + LIB_RELEASE);
      }
      var sdkDir := path + [UNVERSIONED_DIR];
      if IsValidSdk(fs, sdkDir) {
        return Some(sdkDir + LIB_RELEASE);
      }
    }
    var inRoot := FindSdkInDirectory(fs, parentDir);
    if inRoot.Some? {
      return inRoot;
    }
    var locations := SystemLocations(os, home);
    var k := 0;
    while k < |locations|
      invariant 0 <= k <= |locations|
      invariant FirstInLocations(fs, locations) == FirstInLocations(fs, locations[k..])
    {
      assert locations[k..][1..] == locations[k + 1..];
      var location := locations[k];
      if location in fs.existing {
        var found := FindSdkInDirectory(fs, location);
        if found.Some? {
          return found;
        }
      }
      k := k + 1;
    }
    r := None;
  }
}
