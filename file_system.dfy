/** A snapshot of the filesystem as the script lookups see it, and the queries both lookups run
    over it: enumerating "*.ps1" files, picking the first file whose name equals a requested
    name ignoring case, and keeping the file names that match the script-name pattern. */
module FileSystem {
  import opened AsciiText
  import opened ScriptNames

  /** A file found by enumeration: the directory it was enumerated from and its file name. */
  datatype ScriptPath = ScriptPath(directory: string, fileName: string)

  /** `listing` holds one entry per existing directory (Directory.Exists), giving the file
      names Directory.EnumerateFiles(directory, "*.ps1") yields, in enumeration order;
      `files` is the set of paths File.Exists answers true for. */
  datatype Snapshot = Snapshot(listing: map<string, seq<string>>, files: set<ScriptPath>)

  /** Directory.EnumerateFiles(directory, "*.ps1") on an existing directory. */
  function EnumerateFiles(fs: Snapshot, directory: string): (r: seq<ScriptPath>)
    requires directory in fs.listing
    ensures |r| == |fs.listing[directory]|
    ensures forall i :: 0 <= i < |r| ==> r[i] == ScriptPath(directory, fs.listing[directory][i])
  {
    seq(|fs.listing[directory]|, i requires 0 <= i < |fs.listing[directory]| =>
      ScriptPath(directory, fs.listing[directory][i]))
  }

  /** directories.SelectMany(d => Directory.EnumerateFiles(d, "*.ps1")): the files of each
      directory in turn, directories in the given order. */
  function EnumerateAll(fs: Snapshot, directories: seq<string>): (r: seq<ScriptPath>)
    requires forall d :: d in directories ==> d in fs.listing
    ensures forall p :: p in r ==> p.directory in directories && p.fileName in fs.listing[p.directory]
  {
    if directories == [] then []
    else EnumerateFiles(fs, directories[0]) + EnumerateAll(fs, directories[1..])
  }

  /** Nothing is skipped: every listed file of every given directory is enumerated. */
  lemma {:induction false} EnumerateAllComplete(fs: Snapshot, directories: seq<string>)
    requires forall d :: d in directories ==> d in fs.listing
    ensures forall d, n :: d in directories && n in fs.listing[d] ==> ScriptPath(d, n) in EnumerateAll(fs, directories)
  {
    if directories != [] {
      EnumerateAllComplete(fs, directories[1..]);
      var first := EnumerateFiles(fs, directories[0]);
      forall n | n in fs.listing[directories[0]]
        ensures ScriptPath(directories[0], n) in first
      {
        var i :| 0 <= i < |fs.listing[directories[0]]| && fs.listing[directories[0]][i] == n;
        assert first[i] == ScriptPath(directories[0], n);
      }
      assert forall d :: d in directories ==> d == directories[0] || d in directories[1..];
    }
  }

  /** Enumeration goes directory by directory: enumerating two lists of directories one after
      the other gives the files of the first list, then those of the second. */
  lemma {:induction false} EnumerateAllAppend(fs: Snapshot, a: seq<string>, b: seq<string>)
    requires forall d :: d in a + b ==> d in fs.listing
    ensures EnumerateAll(fs, a + b) == EnumerateAll(fs, a) + EnumerateAll(fs, b)
  {
    if a != [] {
      assert (a + b)[0] == a[0] && (a + b)[1..] == a[1..] + b;
      EnumerateAllAppend(fs, a[1..], b);
    } else {
      assert a + b == b;
    }
  }

  /** The index of the first candidate whose file name equals name ignoring case, or
      |candidates| when there is none: .Where(...).FirstOrDefault(). */
  function FirstNamed(candidates: seq<ScriptPath>, name: string): (k: nat)
    ensures k <= |candidates|
    ensures forall j :: 0 <= j < k ==> !EqualsIgnoreCase(candidates[j].fileName, name)
    ensures k < |candidates| ==> EqualsIgnoreCase(candidates[k].fileName, name)
  {
    if candidates == [] then 0
    else if EqualsIgnoreCase(candidates[0].fileName, name) then 0
    else 1 + FirstNamed(candidates[1..], name)
  }

  /** No file of a directory is named like the request exactly when the search runs off the end
      of its enumeration. */
  lemma NoneNamedIffNoListedName(fs: Snapshot, directory: string, name: string)
    requires directory in fs.listing
    ensures FirstNamed(EnumerateFiles(fs, directory), name) == |fs.listing[directory]| <==>
              forall f :: f in fs.listing[directory] ==> !EqualsIgnoreCase(f, name)
  {
    var candidates := EnumerateFiles(fs, directory);
    var k := FirstNamed(candidates, name);
    if k < |candidates| {
      assert candidates[k].fileName == fs.listing[directory][k];
    } else {
      forall f | f in fs.listing[directory] ensures !EqualsIgnoreCase(f, name) {
        var j :| 0 <= j < |fs.listing[directory]| && fs.listing[directory][j] == f;
        assert candidates[j].fileName == f;
      }
    }
  }

  /** The file names of a sequence of files, in order: .Select(Path.GetFileName). */
  function FileNames(paths: seq<ScriptPath>): (r: seq<string>)
    ensures |r| == |paths|
    ensures forall i :: 0 <= i < |paths| ==> r[i] == paths[i].fileName
  {
    seq(|paths|, i requires 0 <= i < |paths| => paths[i].fileName)
  }

  /** .Where(VaildPSScriptName.IsMatch): the names that match the script-name pattern, in order,
      repeated names included. */
  function ValidNames(names: seq<string>): (r: seq<string>)
    ensures |r| <= |names|
    ensures forall n :: n in r ==> IsValidScriptName(n)
  {
    if names == [] then []
    else (if IsValidScriptName(names[0]) then [names[0]] else []) + ValidNames(names[1..])
  }

  /** The filter drops the names the pattern rejects and keeps every occurrence of the others:
      a name found in two directories is listed twice. */
  lemma {:induction false} ValidNamesCounts(names: seq<string>)
    ensures forall n :: multiset(ValidNames(names))[n] == if IsValidScriptName(n) then multiset(names)[n] else 0
  {
    if names != [] {
      ValidNamesCounts(names[1..]);
      assert names == [names[0]] + names[1..];
    }
  }
  /** The filter keeps enumeration order: the valid names of two runs of names are those of the
      first run followed by those of the second. */
  lemma {:induction false} ValidNamesAppend(a: seq<string>, b: seq<string>)
    ensures ValidNames(a + b) == ValidNames(a) + ValidNames(b)
  {
    if a == [] {
      assert a + b == b;
    } else {
      assert (a + b)[0] == a[0] && (a + b)[1..] == a[1..] + b;
      ValidNamesAppend(a[1..], b);
    }
  }

  /** Taking file names keeps order: the names of two runs of files are those of the first run
      followed by those of the second. */
  lemma FileNamesAppend(a: seq<ScriptPath>, b: seq<ScriptPath>)
    ensures FileNames(a + b) == FileNames(a) + FileNames(b)
  {
    assert forall i :: 0 <= i < |a + b| ==> FileNames(a + b)[i] == (FileNames(a) + FileNames(b))[i];
  }

}
