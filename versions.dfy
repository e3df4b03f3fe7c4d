/**
 * The version manager of the test runner: the supported specification
 * versions are the subdirectories of the specs directory, and loading a
 * version reads the requirement text of each category whose file exists.
 * The file system is given data: whether the specs directory exists, its
 * entries in listing order, and the contents of the files inside it.
 */
module Versions {
  import opened JsonData
  import Text

  /** An entry of the specs directory. */
  datatype DirEntry = DirEntry(name: string, isDir: bool)

  /**
   * The specs directory: whether it exists, its entries in listing order,
   * and the text of each file, keyed by version and file name.
   */
  datatype SpecsDir = SpecsDir(present: bool, entries: seq<DirEntry>, files: map<(string, string), string>)

  /** What `load_requirements` ends with: the categories read, or a ValueError. */
  datatype LoadResult = Loaded(categories: map<string, string>) | ValueError(message: string)

  const Suffix := "_requirements.txt"

  /** The requirement files a version may hold, in the order they are read. */
  const RequirementFiles := [
    "prompts_requirements.txt",
    "resources_requirements.txt",
    "tools_requirements.txt",
    "utilities_requirements.txt"
  ]

  /** The categories the requirement files stand for. */
  const Categories := ["prompts", "resources", "tools", "utilities"]

  /** The names of the subdirectories among the entries, in listing order. */
  function DirNames(entries: seq<DirEntry>): (names: seq<string>)
    ensures forall v :: v in names <==> exists i :: 0 <= i < |entries| && entries[i].isDir && entries[i].name == v
    decreases |entries|
  {
    if entries == [] then []
    else
      var rest := DirNames(entries[1..]);
      assert forall i :: 0 <= i < |entries[1..]| ==> entries[1..][i] == entries[i + 1];
      (if entries[0].isDir then [entries[0].name] else []) + rest
  }

  /** The supported versions: the subdirectory names, or none when the specs directory is missing. */
  function SupportedVersions(specs: SpecsDir): (vs: seq<string>)
    ensures !specs.present ==> vs == []
    ensures forall v :: v in vs <==>
              (specs.present && exists i :: 0 <= i < |specs.entries| && specs.entries[i].isDir && specs.entries[i].name == v)
  {
    if specs.present then DirNames(specs.entries) else []
  }

  /** The category of a requirement file: its name with the suffix deleted wherever it occurs. */
  function Category(file: string): string
  {
    Text.Replace(file, Suffix, "")
  }

  /** The category of a file named after a category is that category. */
  lemma FileOfCategory(c: string, file: string)
    requires file == c + Suffix && '_' !in c
    ensures Category(file) == c
  {
    Text.ReplaceSuffix(c, Suffix);
  }

  /** The categories read from the given files of a version, later files overriding earlier ones. */
  function LoadedFrom(specs: SpecsDir, version: string, files: seq<string>): map<string, string>
    decreases |files|
  {
    if files == [] then map[]
    else
      var before := LoadedFrom(specs, version, files[..|files| - 1]);
      var file := files[|files| - 1];
      if (version, file) in specs.files then before[Category(file) := specs.files[(version, file)]] else before
  }

  /**
   * Each file is named after the category at the same position, no category
   * holds an underscore, and the categories are distinct.
   */
  predicate NamedAfter(files: seq<string>, categories: seq<string>)
  {
    |files| == |categories| &&
    (forall i :: 0 <= i < |files| ==> files[i] == categories[i] + Suffix && '_' !in categories[i]) &&
    (forall i, j :: 0 <= i < j < |categories| ==> categories[i] != categories[j])
  }

  /**
   * Reading files named after distinct categories gives exactly the
   * categories whose file exists, each mapped to that file's text.
   */
  lemma {:induction false} LoadedByCategory(specs: SpecsDir, version: string, files: seq<string>, categories: seq<string>)
    requires NamedAfter(files, categories)
    ensures forall i :: 0 <= i < |files| ==>
              (categories[i] in LoadedFrom(specs, version, files) <==> (version, files[i]) in specs.files)
    ensures forall i :: 0 <= i < |files| && (version, files[i]) in specs.files ==>
              LoadedFrom(specs, version, files)[categories[i]] == specs.files[(version, files[i])]
    ensures forall c :: c in LoadedFrom(specs, version, files) ==> c in categories
    decreases |files|
  {
    if files != [] {
      var n := |files| - 1;
      assert NamedAfter(files[..n], categories[..n]);
      LoadedByCategory(specs, version, files[..n], categories[..n]);
      FileOfCategory(categories[n], files[n]);
    }
  }

  /** The requirement files are named after the categories. */
  lemma FilesNamed(files: seq<string>, categories: seq<string>)
    requires files == RequirementFiles && categories == Categories
    ensures |files| == |categories| == 4
    ensures forall i :: 0 <= i < |files| ==> files[i] == categories[i] + Suffix
  {
  }

  /** No category name contains an underscore. */
  lemma NoUnderscore(categories: seq<string>)
    requires categories == Categories
    ensures forall i :: 0 <= i < |categories| ==> '_' !in categories[i]
  {
  }

  /** The four categories are distinct. */
  lemma CategoriesDistinct(categories: seq<string>)
    requires categories == Categories
    ensures forall i, j :: 0 <= i < j < |categories| ==> categories[i] != categories[j]
  {
    assert |categories[0]| == 7 && |categories[1]| == 9 && |categories[2]| == 5 && |categories[3]| == 9;
    assert categories[1][0] != categories[3][0];
  }

  /** The requirement files are named after the four distinct categories. */
  lemma RequirementFilesNamedAfterCategories(files: seq<string>, categories: seq<string>)
    requires files == RequirementFiles && categories == Categories
    ensures NamedAfter(files, categories)
  {
    FilesNamed(files, categories);
    NoUnderscore(categories);
    CategoriesDistinct(categories);
  }

  /**
   * Loading a version gives exactly the categories whose requirement file
   * exists, each mapped to that file's text.
   */
  lemma LoadedCategories(specs: SpecsDir, version: string, files: seq<string>)
    requires files == RequirementFiles
    ensures forall i :: 0 <= i < 4 ==>
              (Categories[i] in LoadedFrom(specs, version, files) <==> (version, RequirementFiles[i]) in specs.files)
    ensures forall i :: 0 <= i < 4 && (version, RequirementFiles[i]) in specs.files ==>
              LoadedFrom(specs, version, files)[Categories[i]] == specs.files[(version, RequirementFiles[i])]
    ensures forall c :: c in LoadedFrom(specs, version, files) ==> c in Categories
  {
    RequirementFilesNamedAfterCategories(files, Categories);
    LoadedByCategory(specs, version, files, Categories);
  }

  class VersionManager {
    const specs: SpecsDir
    const supportedVersions: seq<string>
    var currentVersion: Option<string>
    var requirements: map<string, string>

    constructor(specs: SpecsDir)
      ensures this.specs == specs && supportedVersions == SupportedVersions(specs)
      ensures currentVersion == None && requirements == map[]
    {
      this.specs := specs;
      supportedVersions := if specs.present then DirNames(specs.entries) else [];
      currentVersion := None;
      requirements := map[];
    }

    /** `validate_version`: a version is valid exactly when it is one of the supported versions. */
    method ValidateVersion(version: string) returns (ok: bool)
      requires supportedVersions == SupportedVersions(specs)
      ensures ok <==>
                (specs.present && exists i :: 0 <= i < |specs.entries| && specs.entries[i].isDir && specs.entries[i].name == version)
    {
      ok := version in supportedVersions;
    }

    /**
     * `load_requirements`: an unsupported version is refused with a
     * ValueError and changes nothing; otherwise the version becomes current
     * and the categories whose file exists become the requirements.
     */
    method LoadRequirements(version: string) returns (r: LoadResult)
      requires supportedVersions == SupportedVersions(specs)
      modifies this
      ensures r.ValueError? <==> version !in SupportedVersions(specs)
      ensures r.ValueError? ==> r.message == "Cannot load requirements for unsupported version: " + version
                                && currentVersion == old(currentVersion) && requirements == old(requirements)
      ensures r.Loaded? ==> currentVersion == Some(version) && requirements == r.categories
                            && r.categories == LoadedFrom(specs, version, RequirementFiles)
    {
      var ok := ValidateVersion(version);
      if !ok {
        return ValueError("Cannot load requirements for unsupported version: " + version);
      }
      currentVersion := Some(version);
      var loaded: map<string, string> := map[];
      for i := 0 to |RequirementFiles|
        invariant loaded == LoadedFrom(specs, version, RequirementFiles[..i])
      {
        var file := RequirementFiles[i];
        assert RequirementFiles[..i + 1][..i] == RequirementFiles[..i];
        if (version, file) in specs.files {
          loaded := loaded[Category(file) := specs.files[(version, file)]];
        }
      }
      assert RequirementFiles[..|RequirementFiles|] == RequirementFiles;
      requirements := loaded;
      r := Loaded(loaded);
    }

    /** `get_current_version`. */
    function CurrentVersion(): Option<string>
      reads this
    {
      currentVersion
    }

    /** `get_current_requirements`. */
    function CurrentRequirements(): map<string, string>
      reads this
    {
      requirements
    }
  }

  /**
   * The entry point as far as its validation: an unsupported version ends
   * the run with exit status 1 before anything is loaded; a supported one is
   * loaded and the run goes on (status 0).
   */
  method RunMain(specs: SpecsDir, version: string) returns (status: int, loaded: Option<map<string, string>>)
    ensures status == 1 <==> version !in SupportedVersions(specs)
    ensures status == 1 ==> loaded == None
    ensures status != 1 ==> status == 0 && loaded == Some(LoadedFrom(specs, version, RequirementFiles))
  {
    var manager := new VersionManager(specs);
    var ok := manager.ValidateVersion(version);
    if !ok {
      return 1, None;
    }
    var r := manager.LoadRequirements(version);
    if r.ValueError? {
      return 1, None;
    }
    return 0, Some(r.categories);
  }
}
