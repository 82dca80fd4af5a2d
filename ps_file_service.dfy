/** PSFileService: locates scripts across several configured directories. The "scriptpath"
    setting is split into directories once, at construction; every lookup then re-reads the
    filesystem, here a snapshot passed to each call. */
module FileService {
  import opened Wrappers
  import opened AsciiText
  import opened Configuration
  import opened ScriptNames
  import opened FileSystem

  const NoDirectoriesMessage: string := "No script directories exist"

  /** What one piece contributes: nothing when it is blank, else its trimmed self. */
  function Entry(piece: string): seq<string> {
    if IsBlank(piece) then [] else [Trim(piece)]
  }

  /** The pieces that are not blank, each trimmed, in their original order. */
  function NonBlankTrimmed(pieces: seq<string>): (r: seq<string>)
    ensures |r| <= |pieces|
  {
    if pieces == [] then []
    else NonBlankTrimmed(pieces[..|pieces| - 1]) + Entry(pieces[|pieces| - 1])
  }

  /** Nothing is lost: every non-blank piece survives, trimmed. */
  lemma {:induction false} NonBlankTrimmedKeepsEach(pieces: seq<string>)
    ensures forall i :: 0 <= i < |pieces| && !IsBlank(pieces[i]) ==> Trim(pieces[i]) in NonBlankTrimmed(pieces)
  {
    if pieces != [] {
      var n := |pieces| - 1;
      var init := pieces[..n];
      NonBlankTrimmedKeepsEach(init);
      forall i | 0 <= i < |pieces| && !IsBlank(pieces[i])
        ensures Trim(pieces[i]) in NonBlankTrimmed(pieces)
      {
        if i < n {
          assert init[i] == pieces[i];
        }
      }
    }
  }

  /** Nothing is made up: every entry is some non-blank piece, trimmed. */
  lemma {:induction false} NonBlankTrimmedComesFromPieces(pieces: seq<string>)
    ensures forall q :: q in NonBlankTrimmed(pieces) ==>
              exists i :: 0 <= i < |pieces| && !IsBlank(pieces[i]) && q == Trim(pieces[i])
  {
    if pieces != [] {
      var n := |pieces| - 1;
      var init := pieces[..n];
      NonBlankTrimmedComesFromPieces(init);
      forall q | q in NonBlankTrimmed(pieces)
        ensures exists i :: 0 <= i < |pieces| && !IsBlank(pieces[i]) && q == Trim(pieces[i])
      {
        if q in NonBlankTrimmed(init) {
          var j :| 0 <= j < |init| && !IsBlank(init[j]) && q == Trim(init[j]);
          assert pieces[j] == init[j];
        } else {
          assert q in Entry(pieces[n]);
        }
      }
    }
  }

  /** Every entry is non-empty and has no whitespace at either end. */
  lemma NonBlankTrimmedWellFormed(pieces: seq<string>)
    ensures forall q :: q in NonBlankTrimmed(pieces) ==> q != [] && !IsWhiteSpace(q[0]) && !IsWhiteSpace(q[|q| - 1])
  {
    NonBlankTrimmedComesFromPieces(pieces);
    forall q | q in NonBlankTrimmed(pieces)
      ensures q != [] && !IsWhiteSpace(q[0]) && !IsWhiteSpace(q[|q| - 1])
    {
      var i :| 0 <= i < |pieces| && !IsBlank(pieces[i]) && q == Trim(pieces[i]);
    }
  }

  /** The outputs of `f` on each element of `xs`, concatenated in order. */
  function ConcatMap<A, B>(f: A -> seq<B>, xs: seq<A>): seq<B> {
    if xs == [] then [] else ConcatMap(f, xs[..|xs| - 1]) + f(xs[|xs| - 1])
  }

  lemma {:induction false} ConcatMapAppend<A, B>(f: A -> seq<B>, a: seq<A>, b: seq<A>)
    ensures ConcatMap(f, a + b) == ConcatMap(f, a) + ConcatMap(f, b)
  {
    if b == [] {
      assert a + b == a;
    } else {
      var n := |b| - 1;
      assert (a + b)[|a + b| - 1] == b[n] && (a + b)[..|a + b| - 1] == a + b[..n];
      ConcatMapAppend(f, a, b[..n]);
    }
  }

  lemma {:induction false} NonBlankTrimmedIsConcatMap(pieces: seq<string>)
    ensures NonBlankTrimmed(pieces) == ConcatMap(Entry, pieces)
  {
    if pieces != [] {
      NonBlankTrimmedIsConcatMap(pieces[..|pieces| - 1]);
    }
  }

  /** Filtering works piece by piece: the entries of two runs of pieces are those of the first
      run followed by those of the second. */
  lemma NonBlankTrimmedAppend(a: seq<string>, b: seq<string>)
    ensures NonBlankTrimmed(a + b) == NonBlankTrimmed(a) + NonBlankTrimmed(b)
  {
    NonBlankTrimmedIsConcatMap(a + b);
    NonBlankTrimmedIsConcatMap(a);
    NonBlankTrimmedIsConcatMap(b);
    ConcatMapAppend(Entry, a, b);
  }

  /** The configured script directories: the setting split on ',' and ';', blank pieces
      dropped, the others trimmed, in their original order. */
  function ScriptPathList(setting: string): seq<string> {
    NonBlankTrimmed(Split(setting))
  }

  /** Trimming and dropping pieces never introduces a character: pieces without separators
      give entries without separators. */
  lemma {:induction false} NonBlankTrimmedKeepsSeparatorsOut(pieces: seq<string>)
    requires forall k, i :: 0 <= k < |pieces| && 0 <= i < |pieces[k]| ==> !IsSeparator(pieces[k][i])
    ensures forall k, i :: 0 <= k < |NonBlankTrimmed(pieces)| && 0 <= i < |NonBlankTrimmed(pieces)[k]|
              ==> !IsSeparator(NonBlankTrimmed(pieces)[k][i])
  {
    if pieces != [] {
      var n := |pieces| - 1;
      assert forall k :: 0 <= k < n ==> pieces[..n][k] == pieces[k];
      NonBlankTrimmedKeepsSeparatorsOut(pieces[..n]);
      var p := pieces[n];
      var t := Trim(p);
      forall i | 0 <= i < |t| ensures !IsSeparator(t[i]) {
        assert t[i] == p[LeadingWhiteSpace(p) + i];
      }
    }
  }

  /** Every configured directory is a non-empty string with no surrounding whitespace and no
      ',' or ';' inside it. */
  lemma ScriptPathListWellFormed(setting: string)
    ensures forall p :: p in ScriptPathList(setting) ==>
              p != [] && !IsWhiteSpace(p[0]) && !IsWhiteSpace(p[|p| - 1])
    ensures forall k, i :: 0 <= k < |ScriptPathList(setting)| && 0 <= i < |ScriptPathList(setting)[k]|
              ==> !IsSeparator(ScriptPathList(setting)[k][i])
  {
    SplitPiecesHaveNoSeparator(setting);
    NonBlankTrimmedWellFormed(Split(setting));
    NonBlankTrimmedKeepsSeparatorsOut(Split(setting));
  }

  /** The configured directories that exist, in configured order. */
  function ExistingPaths(paths: seq<string>, fs: Snapshot): (r: seq<string>)
    ensures |r| <= |paths|
    ensures forall d :: d in r <==> d in paths && d in fs.listing
  {
    if paths == [] then []
    else
      var last := paths[|paths| - 1];
      ExistingPaths(paths[..|paths| - 1], fs) + (if last in fs.listing then [last] else [])
  }

  /** The existence filter works directory by directory: on two lists one after the other it
      keeps the existing directories of the first, then those of the second, repeats included. */
  lemma {:induction false} ExistingPathsAppend(a: seq<string>, b: seq<string>, fs: Snapshot)
    ensures ExistingPaths(a + b, fs) == ExistingPaths(a, fs) + ExistingPaths(b, fs)
  {
    if b == [] {
      assert a + b == a;
    } else {
      var last := b[|b| - 1];
      var tail := if last in fs.listing then [last] else [];
      assert (a + b)[|a + b| - 1] == last && (a + b)[..|a + b| - 1] == a + b[..|b| - 1];
      assert ExistingPaths(a + b, fs) == ExistingPaths(a + b[..|b| - 1], fs) + tail;
      ExistingPathsAppend(a, b[..|b| - 1], fs);
      assert ExistingPaths(b, fs) == ExistingPaths(b[..|b| - 1], fs) + tail;
    }
  }

  /** The outcome of GetScript: a path, or one of three error messages. */
  datatype Lookup = Found(path: ScriptPath) | Failed(error: string)

  /** Every file of the existing configured directories, directory by directory. */
  function Candidates(scriptPaths: seq<string>, fs: Snapshot): seq<ScriptPath> {
    EnumerateAll(fs, ExistingPaths(scriptPaths, fs))
  }

  /** The candidates come in configured order: the files of the existing directories among the
      first paths, then those among the rest. */
  lemma CandidatesAppend(a: seq<string>, b: seq<string>, fs: Snapshot)
    ensures Candidates(a + b, fs) == Candidates(a, fs) + Candidates(b, fs)
  {
    ExistingPathsAppend(a, b, fs);
    EnumerateAllAppend(fs, ExistingPaths(a, fs), ExistingPaths(b, fs));
  }

  /** What GetScript computes: normalise the name, reject it if invalid before looking at any
      directory, fail if no configured directory exists, otherwise take the first enumerated
      file whose name equals the normalised name ignoring case, provided File.Exists holds. */
  function Locate(scriptPaths: seq<string>, fs: Snapshot, name: string): Lookup {
    var scriptName := Normalize(name);
    if !IsValidScriptName(scriptName) then Failed(InvalidNameMessage)
    else if |ExistingPaths(scriptPaths, fs)| < 1 then Failed(NoDirectoriesMessage)
    else
      var candidates := Candidates(scriptPaths, fs);
      var k := FirstNamed(candidates, scriptName);
      if k == |candidates| || candidates[k] !in fs.files then Failed(NotFoundMessage)
      else Found(candidates[k])
  }

  /** What ListAvailableScripts computes: nothing when no directory exists, else the names of
      all enumerated files that match the pattern, directory by directory. */
  function AvailableScripts(scriptPaths: seq<string>, fs: Snapshot): seq<string> {
    if |ExistingPaths(scriptPaths, fs)| < 1 then []
    else ValidNames(FileNames(Candidates(scriptPaths, fs)))
  }

  /** The listing goes directory by directory in configured order: the scripts listed for two
      runs of configured paths are those of the first run followed by those of the second. */
  lemma AvailableScriptsAppend(a: seq<string>, b: seq<string>, fs: Snapshot)
    ensures AvailableScripts(a + b, fs) == AvailableScripts(a, fs) + AvailableScripts(b, fs)
  {
    forall x: seq<string> ensures AvailableScripts(x, fs) == ValidNames(FileNames(Candidates(x, fs))) {
      if ExistingPaths(x, fs) == [] {
        assert Candidates(x, fs) == [];
      }
    }
    CandidatesAppend(a, b, fs);
    FileNamesAppend(Candidates(a, fs), Candidates(b, fs));
    ValidNamesAppend(FileNames(Candidates(a, fs)), FileNames(Candidates(b, fs)));
  }

  /** A found script is a file, still present, of an existing configured directory, and its
      name equals the normalised request ignoring case. */
  lemma LocateFoundIsExistingFile(scriptPaths: seq<string>, fs: Snapshot, name: string)
    requires Locate(scriptPaths, fs, name).Found?
    ensures var p := Locate(scriptPaths, fs, name).path;
            && p.directory in scriptPaths && p.directory in fs.listing
            && p.fileName in fs.listing[p.directory]
            && EqualsIgnoreCase(p.fileName, Normalize(name))
            && p in fs.files
  {
    var candidates := Candidates(scriptPaths, fs);
    var k := FirstNamed(candidates, Normalize(name));
    assert candidates[k] in candidates;
  }

  /** The found script is the first match: no file enumerated before it (earlier directories
      first, then enumeration order) has the requested name. */
  lemma LocateFoundIsFirstMatch(scriptPaths: seq<string>, fs: Snapshot, name: string)
    requires Locate(scriptPaths, fs, name).Found?
    ensures exists k :: 0 <= k < |Candidates(scriptPaths, fs)|
              && Candidates(scriptPaths, fs)[k] == Locate(scriptPaths, fs, name).path
              && forall j :: 0 <= j < k ==> !EqualsIgnoreCase(Candidates(scriptPaths, fs)[j].fileName, Normalize(name))
  {
    var k := FirstNamed(Candidates(scriptPaths, fs), Normalize(name));
    assert Candidates(scriptPaths, fs)[k] == Locate(scriptPaths, fs, name).path;
  }

  /** A script that GetScript finds is one that ListAvailableScripts lists. */
  lemma LocateFoundIsListed(scriptPaths: seq<string>, fs: Snapshot, name: string)
    requires Locate(scriptPaths, fs, name).Found?
    ensures Locate(scriptPaths, fs, name).path.fileName in AvailableScripts(scriptPaths, fs)
  {
    var scriptName := Normalize(name);
    var candidates := Candidates(scriptPaths, fs);
    var k := FirstNamed(candidates, scriptName);
    var names := FileNames(candidates);
    var fileName := candidates[k].fileName;
    ValidityIgnoresCase(fileName, scriptName);
    assert names[k] == fileName;
    ValidNamesCounts(names);
    assert multiset(names)[fileName] > 0;
  }

  /** A valid request for a file that an existing configured directory lists (under any case)
      is never answered with an invalid name or a missing directory: some enumerated file
      matches, and the lookup finds the first match unless File.Exists denies that one. */
  lemma LocatePresentIsFound(scriptPaths: seq<string>, fs: Snapshot, name: string, directory: string, fileName: string)
    requires IsValidScriptName(Normalize(name))
    requires directory in scriptPaths && directory in fs.listing && fileName in fs.listing[directory]
    requires EqualsIgnoreCase(fileName, Normalize(name))
    ensures FirstNamed(Candidates(scriptPaths, fs), Normalize(name)) < |Candidates(scriptPaths, fs)|
    ensures var candidates := Candidates(scriptPaths, fs);
            var first := candidates[FirstNamed(candidates, Normalize(name))];
            && (first in fs.files ==> Locate(scriptPaths, fs, name) == Found(first))
            && (first !in fs.files ==> Locate(scriptPaths, fs, name) == Failed(NotFoundMessage))
  {
    var candidates := Candidates(scriptPaths, fs);
    assert directory in ExistingPaths(scriptPaths, fs);
    EnumerateAllComplete(fs, ExistingPaths(scriptPaths, fs));
    assert ScriptPath(directory, fileName) in candidates;
    var j :| 0 <= j < |candidates| && candidates[j] == ScriptPath(directory, fileName);
    assert EqualsIgnoreCase(candidates[j].fileName, Normalize(name));
  }

  /** "Script file does not exist" is reported exactly when the name is valid, some configured
      directory exists, and no enumerated file has the name or the first one that has it is
      gone by the time File.Exists is asked. */
  lemma LocateNotFound(scriptPaths: seq<string>, fs: Snapshot, name: string)
    ensures Locate(scriptPaths, fs, name) == Failed(NotFoundMessage) <==>
              && IsValidScriptName(Normalize(name))
              && ExistingPaths(scriptPaths, fs) != []
              && var candidates := Candidates(scriptPaths, fs);
                 || (forall j :: 0 <= j < |candidates| ==> !EqualsIgnoreCase(candidates[j].fileName, Normalize(name)))
                 || candidates[FirstNamed(candidates, Normalize(name))] !in fs.files
  {
  }

  class PSFileService {
    const scriptPaths: seq<string>

    /** Reads "scriptpath", defaulting to the directory of the executable, and splits it. */
    constructor (config: map<string, string>, assemblyDirectory: string)
      ensures scriptPaths == ScriptPathList(GetSettingOr(config, "scriptpath", assemblyDirectory))
    {
      var scriptPath := GetSettingOr(config, "scriptpath", assemblyDirectory);
      scriptPaths := ScriptPathList(scriptPath);
    }

    /** The configured directories that exist, in configured order; a missing one is skipped
        (and only logged). */
    method GetValidScriptPaths(fs: Snapshot) returns (valid: seq<string>)
      ensures valid == ExistingPaths(scriptPaths, fs)
      ensures forall d :: d in valid <==> d in scriptPaths && d in fs.listing
    {
      valid := [];
      for i := 0 to |scriptPaths|
        invariant valid == ExistingPaths(scriptPaths[..i], fs)
      {
        assert scriptPaths[..i + 1][..i] == scriptPaths[..i];
        if scriptPaths[i] in fs.listing {
          valid := valid + [scriptPaths[i]];
        }
      }
      assert scriptPaths[..|scriptPaths|] == scriptPaths;
    }

    /** Finds a script by name. Exactly one of the two results is non-null, and the checks run
        in a fixed order: invalid name, then no directory, then no such file. */
    method GetScript(name: string, fs: Snapshot) returns (path: Option<ScriptPath>, error: Option<string>)
      ensures path.Some? <==> error.None?
      ensures path.Some? ==> Locate(scriptPaths, fs, name) == Found(path.value)
      ensures error.Some? ==> Locate(scriptPaths, fs, name) == Failed(error.value)
      ensures !IsValidScriptName(Normalize(name)) ==> error == Some(InvalidNameMessage)
      ensures IsValidScriptName(Normalize(name)) && ExistingPaths(scriptPaths, fs) == [] ==>
                error == Some(NoDirectoriesMessage)
    {
      var scriptName := name;
      if !EndsWithIgnoreCase(scriptName, Extension) {
        scriptName := scriptName + Extension;
      }
      if !IsValidScriptName(scriptName) {
        return None, Some(InvalidNameMessage);
      }
      var validScriptPaths := GetValidScriptPaths(fs);
      if |validScriptPaths| < 1 {
        return None, Some(NoDirectoriesMessage);
      }
      var candidates := EnumerateAll(fs, validScriptPaths);
      var k := FirstNamed(candidates, scriptName);
      if k == |candidates| || candidates[k] !in fs.files {
        return None, Some(NotFoundMessage);
      }
      return Some(candidates[k]), None;
    }

    /** Lists the scripts of all existing configured directories: an empty list when none
        exists, otherwise every pattern-matching file name, duplicates kept. */
    method ListAvailableScripts(fs: Snapshot) returns (scripts: seq<string>)
      ensures scripts == AvailableScripts(scriptPaths, fs)
      ensures ExistingPaths(scriptPaths, fs) == [] ==> scripts == []
      ensures forall n :: n in scripts ==> IsValidScriptName(n)
    {
      var validScriptPaths := GetValidScriptPaths(fs);
      if |validScriptPaths| < 1 {
        return [];
      }
      scripts := ValidNames(FileNames(EnumerateAll(fs, validScriptPaths)));
    }
  }
}
