/**
 * The project generator script: given a menu selection and a project name it
 * creates the project directory, its source sub-directories and three files
 * filled from text templates.
 *
 * The file system is a map from path strings to entries.  Each primitive the
 * script calls (os.mkdir, open with "x", open with "a" followed by write) is
 * a function from the old map to an Outcome: the new map, or the unchanged map
 * together with the error Python would raise.  An error ends the script, so
 * the effects that happened before it stay in place.
 */
module ProjectGenerator {
  import opened Wrappers

  datatype Entry = Directory | File(contents: string)

  type FileTree = map<string, Entry>

  datatype FsError =
    | FileExists(path: string)
    | FileNotFound(path: string)
    | NotADirectory(path: string)
    | IsADirectory(path: string)

  datatype Outcome = Outcome(tree: FileTree, error: Option<FsError>)

  datatype RunResult = RunResult(tree: FileTree, error: Option<FsError>, message: string)

  const QuitSelection := "0"
  const EmptyProjectSelection := "1"
  const GeneratedMessage := "Empty Project Generation\n"
  const QuitMessage := "Quit Project Generator"

  // ---------------------------------------------------------------------
  // Paths
  // ---------------------------------------------------------------------

  /** The part of a path before its last '/', or "" (the working directory) when there is none. */
  function DirName(path: string): string
  {
    if path == [] then []
    else if path[|path| - 1] == '/' then path[..|path| - 1]
    else DirName(path[..|path| - 1])
  }

  /** os.path.join for a directory name that does not end with '/'. */
  function Join(dir: string, name: string): string
  {
    dir + "/" + name
  }

  /** A project name that is a single path component. */
  predicate IsSegment(name: string)
  {
    name != [] && name != "." && name != ".." && '/' !in name
  }

  /** path is non-empty and its parent is the working directory or a directory entry of tree. */
  predicate Parented(tree: FileTree, path: string)
  {
    path != [] && (DirName(path) == [] || (DirName(path) in tree && tree[DirName(path)] == Directory))
  }

  /** Every entry sits in a directory that exists: the shape of any real file tree. */
  ghost predicate WellFormed(tree: FileTree)
  {
    forall p {:trigger Parented(tree, p)} :: p in tree ==> Parented(tree, p)
  }

  lemma {:induction false} DirNameOfJoin(dir: string, name: string)
    requires '/' !in name
    ensures DirName(Join(dir, name)) == dir
  {
    if name == [] {
      assert Join(dir, name)[..|Join(dir, name)| - 1] == dir;
    } else {
      var shorter := name[..|name| - 1];
      assert '/' !in shorter by {
        forall i | 0 <= i < |shorter| ensures shorter[i] != '/' {
          assert shorter[i] == name[i];
        }
      }
      assert Join(dir, name)[..|Join(dir, name)| - 1] == Join(dir, shorter);
      DirNameOfJoin(dir, shorter);
    }
  }

  // ---------------------------------------------------------------------
  // File-system primitives
  // ---------------------------------------------------------------------

  /** The error raised when the parent of path cannot hold a new entry, if any. */
  function ParentError(tree: FileTree, path: string): Option<FsError>
  {
    var parent := DirName(path);
    if path == [] then Some(FileNotFound(path))
    else if parent == [] then None
    else if parent !in tree then Some(FileNotFound(path))
    else if tree[parent].File? then Some(NotADirectory(path))
    else None
  }

  /** os.mkdir(path). */
  function MkdirEffect(tree: FileTree, path: string): (o: Outcome)
    ensures o.error.None? <==> path !in tree && ParentError(tree, path).None?
    ensures o.error.None? ==> o.tree == tree[path := Directory]
    ensures o.error.Some? ==> o.tree == tree
  {
    if path in tree then Outcome(tree, Some(FileExists(path)))
    else if ParentError(tree, path).Some? then Outcome(tree, ParentError(tree, path))
    else Outcome(tree[path := Directory], None)
  }

  /** open(path, "x"): exclusive creation of an empty file. */
  function CreateExclusiveEffect(tree: FileTree, path: string): (o: Outcome)
    ensures o.error.None? <==> path !in tree && ParentError(tree, path).None?
    ensures o.error.None? ==> o.tree == tree[path := File("")]
    ensures o.error.Some? ==> o.tree == tree
  {
    if path in tree then Outcome(tree, Some(FileExists(path)))
    else if ParentError(tree, path).Some? then Outcome(tree, ParentError(tree, path))
    else Outcome(tree[path := File("")], None)
  }

  /** open(path, "a") followed by write(text) and close(). */
  function AppendEffect(tree: FileTree, path: string, text: string): (o: Outcome)
    ensures o.error.None? <==> if path in tree then tree[path].File? else ParentError(tree, path).None?
    ensures o.error.None? ==> o.tree == tree[path := File(ContentsOrEmpty(tree, path) + text)]
    ensures o.error.Some? ==> o.tree == tree
  {
    if path in tree then
      match tree[path]
      case Directory => Outcome(tree, Some(IsADirectory(path)))
      case File(existing) => Outcome(tree[path := File(existing + text)], None)
    else if ParentError(tree, path).Some? then Outcome(tree, ParentError(tree, path))
    else
      assert "" + text == text;
      Outcome(tree[path := File(text)], None)
  }

  /** What reading the file at path gives: its contents, or "" when there is no such file. */
  function ContentsOrEmpty(tree: FileTree, path: string): string
  {
    if path in tree && tree[path].File? then tree[path].contents else ""
  }

  lemma {:induction false} MkdirPreservesWellFormed(tree: FileTree, path: string)
    requires WellFormed(tree)
    ensures WellFormed(MkdirEffect(tree, path).tree)
  {
    var o := MkdirEffect(tree, path);
    forall p | p in o.tree ensures Parented(o.tree, p) {
      if p != path {
        assert Parented(tree, p);
      }
    }
  }

  lemma {:induction false} CreateExclusivePreservesWellFormed(tree: FileTree, path: string)
    requires WellFormed(tree)
    ensures WellFormed(CreateExclusiveEffect(tree, path).tree)
  {
    var o := CreateExclusiveEffect(tree, path);
    forall p | p in o.tree ensures Parented(o.tree, p) {
      if p != path {
        assert Parented(tree, p);
      }
    }
  }

  lemma {:induction false} AppendPreservesWellFormed(tree: FileTree, path: string, text: string)
    requires WellFormed(tree)
    ensures WellFormed(AppendEffect(tree, path, text).tree)
  {
    var o := AppendEffect(tree, path, text);
    forall p | p in o.tree ensures Parented(o.tree, p) {
      if p in tree {
        assert Parented(tree, p);
      }
    }
  }

  /** In a well-formed tree nothing lies below a path that is absent. */
  lemma AbsentParent(tree: FileTree, path: string)
    requires WellFormed(tree) && DirName(path) != [] && DirName(path) !in tree
    ensures path !in tree
  {
    assert path in tree ==> Parented(tree, path);
  }

  // ---------------------------------------------------------------------
  // Templates
  // ---------------------------------------------------------------------

  function CMakeHead(projectName: string): string
  {
    "add_executable(" + projectName + " src/" + projectName + ".cpp src/" + projectName + ".hpp)"
  }

  /** The part of CMakeLists.txt that follows the add_executable line; no project name occurs in it. */
  const CMakeTail: string :=
    "\ntarget_link_libraries(${CMAKE_PROJECT_NAME} PRIVATE BladeEngine)\n"
    + "\n"
    + "target_include_directories(${CMAKE_PROJECT_NAME} PRIVATE \"${CMAKE_SOURCE_DIR}/BladeEngine/src\")\n"
    + "target_include_directories(${CMAKE_PROJECT_NAME} PRIVATE \"${CMAKE_SOURCE_DIR}/BladeEngine/vendor/flecs\") #TEMP\n"
    + "target_include_directories(${CMAKE_PROJECT_NAME} PRIVATE \"${CMAKE_SOURCE_DIR}/BladeEngine/vendor/miniaudio\") #TEMP\n"
    + "target_include_directories(${CMAKE_PROJECT_NAME} PRIVATE \"${CMAKE_SOURCE_DIR}/BladeEngine/vendor/glm\") #TEMP\n"
    + "target_include_directories(${CMAKE_PROJECT_NAME} PRIVATE \"${CMAKE_SOURCE_DIR}/BladeEngine/vendor/spdlog/include\")\n"
    + "\n"
    + "set(ASSETS_SPRITES_DIR assets/sprites)\n"
    + "file(COPY ${ASSETS_SPRITES_DIR}\n"
    + "    DESTINATION ${CMAKE_CURRENT_BINARY_DIR}/assets)\n"
    + "\n"
    + "set(ASSETS_AUDIOS_DIR assets/audio)\n"
    + "file(COPY ${ASSETS_AUDIOS_DIR}\n"
    + "    DESTINATION ${CMAKE_CURRENT_BINARY_DIR}/assets)\n"
    + "\n"
    + "set(ASSETS_SHADERS_DIR assets/shaders)\n"
    + "\n"
    + "file(GLOB files ${ASSETS_SHADERS_DIR}/*)\n"
    + "file(MAKE_DIRECTORY ${CMAKE_CURRENT_BINARY_DIR}/assets/shaders)\n"
    + "\n"
    + "foreach(file ${files})\n"
    + "\tget_filename_component(FILENAME ${file} NAME)\n"
    + "\texecute_process(\n"
    + "\t    COMMAND glslangValidator -V ${file} -o ${CMAKE_CURRENT_BINARY_DIR}/assets/shaders/${FILENAME}.spv\n"
    + "\t)\n"
    + "endforeach()\n"
    + "\n"
    + "target_compile_definitions(${CMAKE_PROJECT_NAME} PRIVATE\n"
    + "    $<$<CONFIG:DEBUG>:BLADE_DEBUG>\n"
    + "    $<$<CONFIG:RELEASE>:BLADE_RELEASE>\n"
    + "    $<$<CONFIG:RELWITHDEBINFO>:BLADE_DEBUG>\n"
    + "    $<$<CONFIG:MINSIZEREL>:BLADE_RELEASE>)"

  /** The text written to CMakeLists.txt. */
  function CMakeText(projectName: string): string
  {
    CMakeHead(projectName) + CMakeTail
  }

  const HppPrologue := "#pragma once\n\n#include \"Core/Game.hpp\"\n\nnamespace BladeEngine\n{"
  const HppLoad := "virtual void LoadGameResources() override;"
  const HppUnload := "virtual void UnloadGameResources() override;"
  const HppSetup := "virtual void SetupWorld() override;"

  const HppOpen := "\n    private:\n        "
  const HppSeparator := "\n        "
  const HppGap := "\n\n        "
  const HppClose := "\n    };\n}"

  /** The class body that follows the class head, starting with its opening brace. */
  function HppBody(): string
  {
    "{" + HppOpen + HppLoad + HppSeparator + HppUnload + HppGap + HppSetup + HppClose
  }

  function HppClassHead(projectName: string): string
  {
    "class " + projectName + " : public Game"
  }

  /** The text written to src/<name>.hpp. */
  function HppText(projectName: string): string
  {
    HppPrologue + HppClassHead(projectName) + HppBody()
  }

  const CppIncludes :=
    "#include \"Audio/AudioClip.hpp\"\n#include \"Audio/AudioManager.hpp\"\n"
    + "#include \"Audio/AudioSource.hpp\"\n#include \"BladeEngine.hpp\"\n"
    + "#include \"Utils/Random.hpp\"\n#include <sstream>\n\nnamespace BladeEngine {\n"

  /** The first line of src/<name>.cpp: an include of the header whose name is not quoted. */
  function CppIncludeLine(projectName: string): string
  {
    "#include " + projectName + ".hpp\n"
  }

  function CppDefinitions(projectName: string): string
  {
    "void " + projectName + "::LoadGameResources(){}\n"
    + "void " + projectName + "::UnloadGameResources(){}\n"
    + "void " + projectName + "::SetupWorld(){}\n"
    + "Game* CreateGameInstance() { "
  }

  function CppClosing(projectName: string): string
  {
    "return new " + projectName + "();}\n}"
  }

  /** The text written to src/<name>.cpp. */
  function CppText(projectName: string): string
  {
    CppIncludeLine(projectName) + CppIncludes + CppDefinitions(projectName) + CppClosing(projectName)
  }

  predicate MatchesAt(pattern: string, text: string, i: nat)
  {
    i + |pattern| <= |text| && text[i..i + |pattern|] == pattern
  }

  /** pattern occurs somewhere in text. */
  ghost predicate Occurs(pattern: string, text: string)
  {
    exists i: nat :: MatchesAt(pattern, text, i)
  }

  lemma OccursBetween(before: string, pattern: string, after: string)
    ensures Occurs(pattern, before + pattern + after)
  {
    var text := before + pattern + after;
    assert text[|before|..|before| + |pattern|] == pattern;
    assert MatchesAt(pattern, text, |before|);
  }

  /** Where the pieces of a class declaration occur in a text assembled from them. */
  lemma OccursInDeclaration(prologue: string, head: string, brace: string, open: string, load: string, sep1: string,
                            unload: string, sep2: string, setup: string, close: string)
    ensures var text := prologue + head + (brace + open + load + sep1 + unload + sep2 + setup + close);
      && Occurs(head + brace, text)
      && Occurs(load, text) && Occurs(unload, text) && Occurs(setup, text)
  {
    var body := brace + open + load + sep1 + unload + sep2 + setup + close;
    var text := prologue + head + body;
    assert text == prologue + (head + brace) + (open + load + sep1 + unload + sep2 + setup + close);
    OccursBetween(prologue, head + brace, open + load + sep1 + unload + sep2 + setup + close);
    var open := brace + open;
    assert text == (prologue + head + open) + load + (sep1 + unload + sep2 + setup + close);
    OccursBetween(prologue + head + open, load, sep1 + unload + sep2 + setup + close);
    assert text == (prologue + head + open + load + sep1) + unload + (sep2 + setup + close);
    OccursBetween(prologue + head + open + load + sep1, unload, sep2 + setup + close);
    assert text == (prologue + head + open + load + sep1 + unload + sep2) + setup + close;
    OccursBetween(prologue + head + open + load + sep1 + unload + sep2, setup, close);
  }

  /** The header declares the class deriving from Game, its brace straight after, and the three overrides. */
  lemma HppTextShape(projectName: string)
    ensures Occurs(HppClassHead(projectName) + "{", HppText(projectName))
    ensures Occurs(HppLoad, HppText(projectName))
    ensures Occurs(HppUnload, HppText(projectName))
    ensures Occurs(HppSetup, HppText(projectName))
  {
    OccursInDeclaration(HppPrologue, HppClassHead(projectName), "{", HppOpen, HppLoad, HppSeparator,
                        HppUnload, HppGap, HppSetup, HppClose);
  }

  lemma PrefixOfConcat(a: string, b: string)
    ensures (a + b)[..|a|] == a
  {
  }

  lemma SuffixOfConcat(a: string, b: string)
    ensures (a + b)[|a|..] == b
  {
  }

  /**
   * CMakeLists.txt starts with the add_executable line for the project, and
   * what follows it is the same for every project name.
   */
  lemma CMakeTextShape(projectName: string, otherName: string)
    ensures var text := CMakeText(projectName);
      && |CMakeHead(projectName)| <= |text| && text[..|CMakeHead(projectName)|] == CMakeHead(projectName)
      && text[|CMakeHead(projectName)|..] == CMakeText(otherName)[|CMakeHead(otherName)|..]
  {
    PrefixOfConcat(CMakeHead(projectName), CMakeTail);
    SuffixOfConcat(CMakeHead(projectName), CMakeTail);
    SuffixOfConcat(CMakeHead(otherName), CMakeTail);
  }

  /** The .cpp starts with an include of the header written without quotes and ends by creating the game. */
  lemma CppTextShape(projectName: string)
    ensures var text := CppText(projectName);
      && |CppIncludeLine(projectName)| <= |text| && text[..|CppIncludeLine(projectName)|] == CppIncludeLine(projectName)
      && |CppClosing(projectName)| <= |text| && text[|text| - |CppClosing(projectName)|..] == CppClosing(projectName)
  {
    var first := CppIncludeLine(projectName);
    var middle := CppIncludes + CppDefinitions(projectName);
    var last := CppClosing(projectName);
    assert CppText(projectName) == first + (middle + last);
    PrefixOfConcat(first, middle + last);
    assert CppText(projectName) == (first + middle) + last;
    SuffixOfConcat(first + middle, last);
  }

  // ---------------------------------------------------------------------
  // The script's steps, as functions of the file tree
  // ---------------------------------------------------------------------

  function SrcDir(n: string): string { Join(n, "src") }
  function ComponentsDir(n: string): string { Join(n, "src/components") }
  function SystemsDir(n: string): string { Join(n, "src/systems") }
  function CMakePath(n: string): string { n + "/CMakeLists.txt" }
  function CppPath(n: string): string { n + "/src/" + n + ".cpp" }
  function HppPath(n: string): string { n + "/src/" + n + ".hpp" }

  /** GenerateBaseDirectories: three mkdir calls; the assets path is computed but never created. */
  function BaseDirectoriesEffect(tree: FileTree, n: string): Outcome
  {
    var o1 := MkdirEffect(tree, SrcDir(n));
    if o1.error.Some? then o1 else
    var o2 := MkdirEffect(o1.tree, ComponentsDir(n));
    if o2.error.Some? then o2 else
    MkdirEffect(o2.tree, SystemsDir(n))
  }

  /** GenerateBaseFiles: three exclusive creations. */
  function BaseFilesEffect(tree: FileTree, n: string): Outcome
  {
    var o1 := CreateExclusiveEffect(tree, CMakePath(n));
    if o1.error.Some? then o1 else
    var o2 := CreateExclusiveEffect(o1.tree, CppPath(n));
    if o2.error.Some? then o2 else
    CreateExclusiveEffect(o2.tree, HppPath(n))
  }

  /** LoadEmptyBaseFiles: the three templates appended in the order CMake, header, source. */
  function LoadTemplatesEffect(tree: FileTree, n: string): Outcome
  {
    var o1 := AppendEffect(tree, CMakePath(n), CMakeText(n));
    if o1.error.Some? then o1 else
    var o2 := AppendEffect(o1.tree, HppPath(n), HppText(n));
    if o2.error.Some? then o2 else
    AppendEffect(o2.tree, CppPath(n), CppText(n))
  }

  /** The project body that selection "1" generates once the project directory exists. */
  function GenerateEffect(tree: FileTree, n: string): Outcome
  {
    var o1 := BaseDirectoriesEffect(tree, n);
    if o1.error.Some? then o1 else
    var o2 := BaseFilesEffect(o1.tree, n);
    if o2.error.Some? then o2 else
    LoadTemplatesEffect(o2.tree, n)
  }

  /** The whole script for a selection and a project name. */
  function RunEffect(tree: FileTree, selection: string, n: string): RunResult
  {
    if selection == QuitSelection then RunResult(tree, None, QuitMessage)
    else
      var root := MkdirEffect(tree, n);
      if root.error.Some? || selection != EmptyProjectSelection then RunResult(root.tree, root.error, "")
      else
        var o := GenerateEffect(root.tree, n);
        RunResult(o.tree, o.error, if o.error.None? then GeneratedMessage else "")
  }

  /** The seven entries a successful generation adds. */
  function ProjectEntries(n: string): FileTree
  {
    map[n := Directory, SrcDir(n) := Directory, ComponentsDir(n) := Directory, SystemsDir(n) := Directory,
        CMakePath(n) := File(CMakeText(n)), CppPath(n) := File(CppText(n)), HppPath(n) := File(HppText(n))]
  }

  // ---------------------------------------------------------------------
  // Properties of the script
  // ---------------------------------------------------------------------

  /** Selecting "0" touches nothing and only reports that the generator quits. */
  lemma QuitChangesNothing(tree: FileTree, n: string)
    ensures RunEffect(tree, QuitSelection, n) == RunResult(tree, None, QuitMessage)
  {
  }

  /** With any selection but "0", an existing project path stops the script at its first mkdir. */
  lemma ExistingProjectFailsAtRoot(tree: FileTree, selection: string, n: string)
    requires selection != QuitSelection && n in tree
    ensures RunEffect(tree, selection, n) == RunResult(tree, Some(FileExists(n)), "")
  {
  }

  /** A selection other than "0" and "1" creates the project directory and nothing else. */
  lemma OtherSelectionCreatesOnlyRoot(tree: FileTree, selection: string, n: string)
    requires WellFormed(tree) && IsSegment(n) && n !in tree
    requires selection != QuitSelection && selection != EmptyProjectSelection
    ensures RunEffect(tree, selection, n) == RunResult(tree[n := Directory], None, "")
  {
    assert DirName(n) == [] by { DirNameNoSlash(n); }
  }

  lemma {:induction false} DirNameNoSlash(s: string)
    requires '/' !in s
    ensures DirName(s) == []
  {
    if s != [] {
      var shorter := s[..|s| - 1];
      assert '/' !in shorter by {
        forall i | 0 <= i < |shorter| ensures shorter[i] != '/' {
          assert shorter[i] == s[i];
        }
      }
      DirNameNoSlash(shorter);
    }
  }

  /** GenerateBaseDirectories creates exactly src, src/components and src/systems below an existing project directory. */
  lemma {:induction false} BaseDirectoriesCreateThree(tree: FileTree, n: string)
    requires WellFormed(tree) && IsSegment(n) && n in tree && tree[n] == Directory
    requires SrcDir(n) !in tree
    ensures BaseDirectoriesEffect(tree, n)
      == Outcome(tree[SrcDir(n) := Directory][ComponentsDir(n) := Directory][SystemsDir(n) := Directory], None)
  {
    DirNameOfJoin(n, "src");
    assert ComponentsDir(n) == Join(SrcDir(n), "components");
    assert SystemsDir(n) == Join(SrcDir(n), "systems");
    DirNameOfJoin(SrcDir(n), "components");
    DirNameOfJoin(SrcDir(n), "systems");
    AbsentParent(tree, ComponentsDir(n));
    AbsentParent(tree, SystemsDir(n));
    assert ComponentsDir(n) != SystemsDir(n) by {
      assert ComponentsDir(n)[|ComponentsDir(n)| - 1] == 's';
      assert |ComponentsDir(n)| != |SystemsDir(n)|;
    }
  }

  /**
   * GenerateBaseFiles succeeds exactly when none of its three files exists, and
   * then adds exactly those three empty files.
   */
  lemma {:induction false} BaseFilesExclusive(tree: FileTree, n: string)
    requires IsSegment(n)
    requires n in tree && tree[n] == Directory && SrcDir(n) in tree && tree[SrcDir(n)] == Directory
    ensures BaseFilesEffect(tree, n).error.None?
      <==> CMakePath(n) !in tree && CppPath(n) !in tree && HppPath(n) !in tree
    ensures BaseFilesEffect(tree, n).error.None? ==>
      BaseFilesEffect(tree, n).tree == tree[CMakePath(n) := File("")][CppPath(n) := File("")][HppPath(n) := File("")]
  {
    FilePathFacts(n);
  }

  /** The parents of the three generated files, and that the generated paths are pairwise distinct. */
  lemma {:induction false} FilePathFacts(n: string)
    requires IsSegment(n)
    ensures DirName(CMakePath(n)) == n
    ensures DirName(CppPath(n)) == SrcDir(n) && DirName(HppPath(n)) == SrcDir(n)
    ensures CppPath(n) != HppPath(n)
    ensures CMakePath(n) != CppPath(n) && CMakePath(n) != HppPath(n)
    ensures CppPath(n) != ComponentsDir(n) && CppPath(n) != SystemsDir(n)
    ensures HppPath(n) != ComponentsDir(n) && HppPath(n) != SystemsDir(n)
    ensures CMakePath(n) != SrcDir(n) && CppPath(n) != SrcDir(n) && HppPath(n) != SrcDir(n)
  {
    assert '/' !in "CMakeLists.txt";
    assert CMakePath(n) == Join(n, "CMakeLists.txt");
    DirNameOfJoin(n, "CMakeLists.txt");
    assert '/' !in n + ".cpp" && '/' !in n + ".hpp" by {
      assert forall i | 0 <= i < |n + ".cpp"| :: (n + ".cpp")[i] != '/' by {
        forall i | 0 <= i < |n + ".cpp"| ensures (n + ".cpp")[i] != '/' {
          if i < |n| { assert (n + ".cpp")[i] == n[i]; }
        }
      }
      assert forall i | 0 <= i < |n + ".hpp"| :: (n + ".hpp")[i] != '/' by {
        forall i | 0 <= i < |n + ".hpp"| ensures (n + ".hpp")[i] != '/' {
          if i < |n| { assert (n + ".hpp")[i] == n[i]; }
        }
      }
    }
    assert CppPath(n) == Join(SrcDir(n), n + ".cpp");
    assert HppPath(n) == Join(SrcDir(n), n + ".hpp");
    DirNameOfJoin(SrcDir(n), n + ".cpp");
    DirNameOfJoin(SrcDir(n), n + ".hpp");
    var c, h := CppPath(n), HppPath(n);
    assert c[|c| - 3] == 'c' && h[|h| - 3] == 'h';
    assert c[|c| - 1] == 'p' && h[|h| - 1] == 'p';
    var m := CMakePath(n);
    assert m[|m| - 1] == 't';
    assert ComponentsDir(n)[|ComponentsDir(n)| - 1] == 's';
    assert SystemsDir(n)[|SystemsDir(n)| - 1] == 's';
    assert SrcDir(n)[|SrcDir(n)| - 1] == 'c';
    assert c[|c| - 4] == '.';
    assert SrcDir(n)[|SrcDir(n)| - 4] == '/';
    assert h[|h| - 4] == '.';
  }

  /** Appending the templates to three existing empty files leaves each holding exactly its template. */
  lemma {:induction false} LoadTemplatesIntoEmptyFiles(tree: FileTree, n: string)
    requires IsSegment(n)
    requires CMakePath(n) in tree && tree[CMakePath(n)] == File("")
    requires CppPath(n) in tree && tree[CppPath(n)] == File("")
    requires HppPath(n) in tree && tree[HppPath(n)] == File("")
    ensures LoadTemplatesEffect(tree, n)
      == Outcome(tree[CMakePath(n) := File(CMakeText(n))][HppPath(n) := File(HppText(n))][CppPath(n) := File(CppText(n))], None)
  {
    FilePathFacts(n);
    AppendToEmpty(tree, CMakePath(n), CMakeText(n));
    var t1 := tree[CMakePath(n) := File(CMakeText(n))];
    AppendToEmpty(t1, HppPath(n), HppText(n));
    var t2 := t1[HppPath(n) := File(HppText(n))];
    AppendToEmpty(t2, CppPath(n), CppText(n));
  }

  lemma AppendToEmpty(tree: FileTree, path: string, text: string)
    requires path in tree && tree[path] == File("")
    ensures AppendEffect(tree, path, text) == Outcome(tree[path := File(text)], None)
  {
    assert "" + text == text;
  }

  /** Creating the three files in a tree that has the project's directories, then filling them from the templates. */
  lemma {:induction false} FilesAfterDirectories(tree: FileTree, n: string)
    requires IsSegment(n)
    requires n in tree && tree[n] == Directory && SrcDir(n) in tree && tree[SrcDir(n)] == Directory
    requires CMakePath(n) !in tree && CppPath(n) !in tree && HppPath(n) !in tree
    ensures var files := BaseFilesEffect(tree, n);
      files.error.None? && LoadTemplatesEffect(files.tree, n) == Outcome(tree[CMakePath(n) := File(CMakeText(n))][CppPath(n) := File(CppText(n))][HppPath(n) := File(HppText(n))], None)
  {
    FilePathFacts(n);
    BaseFilesExclusive(tree, n);
    var t2 := tree[CMakePath(n) := File("")][CppPath(n) := File("")][HppPath(n) := File("")];
    LoadTemplatesIntoEmptyFiles(t2, n);
    var t3 := t2[CMakePath(n) := File(CMakeText(n))][HppPath(n) := File(HppText(n))][CppPath(n) := File(CppText(n))];
    Overwrite(tree, CMakePath(n), CppPath(n), HppPath(n), File(""), File(""), File(""),
              File(CMakeText(n)), File(CppText(n)), File(HppText(n)));
  }

  /** Writing three distinct keys and then rewriting them in another order keeps only the second values. */
  lemma Overwrite<K, V>(tree: map<K, V>, a: K, b: K, c: K, x: V, y: V, z: V, x': V, y': V, z': V)
    requires a != b && b != c && a != c
    ensures tree[a := x][b := y][c := z][a := x'][c := z'][b := y'] == tree[a := x'][b := y'][c := z']
  {
  }

  /** Seven successive updates are the same as merging the map of those seven entries. */
  lemma UpdatesAsMerge<K, V>(tree: map<K, V>, k1: K, v1: V, k2: K, v2: V, k3: K, v3: V, k4: K, v4: V,
                             k5: K, v5: V, k6: K, v6: V, k7: K, v7: V)
    ensures tree[k1 := v1][k2 := v2][k3 := v3][k4 := v4][k5 := v5][k6 := v6][k7 := v7]
      == tree + map[k1 := v1, k2 := v2, k3 := v3, k4 := v4, k5 := v5, k6 := v6, k7 := v7]
  {
  }

  /**
   * On a fresh project name, selection "1" succeeds, adds exactly the seven
   * project entries, and every file holds its template text in full.
   */
  lemma {:induction false} FreshProjectGeneration(tree: FileTree, n: string)
    requires WellFormed(tree) && IsSegment(n) && n !in tree
    ensures RunEffect(tree, EmptyProjectSelection, n) == RunResult(tree + ProjectEntries(n), None, GeneratedMessage)
  {
    DirNameNoSlash(n);
    var t0 := tree[n := Directory];
    assert MkdirEffect(tree, n) == Outcome(t0, None);
    DirNameOfJoin(n, "src");
    AbsentParent(tree, SrcDir(n));
    MkdirPreservesWellFormed(tree, n);
    BaseDirectoriesCreateThree(t0, n);
    var t1 := t0[SrcDir(n) := Directory][ComponentsDir(n) := Directory][SystemsDir(n) := Directory];
    FilePathFacts(n);
    assert CMakePath(n) !in t1 && CppPath(n) !in t1 && HppPath(n) !in t1 by {
      AbsentParent(tree, CMakePath(n));
      AbsentParent(tree, CppPath(n));
      AbsentParent(tree, HppPath(n));
      assert CMakePath(n) != n && CppPath(n) != n && HppPath(n) != n;
      var m := CMakePath(n);
      assert m[|m| - 1] == 't';
      assert ComponentsDir(n)[|ComponentsDir(n)| - 1] == 's';
      assert SystemsDir(n)[|SystemsDir(n)| - 1] == 's';
    }
    FilesAfterDirectories(t1, n);
    UpdatesAsMerge(tree, n, Directory, SrcDir(n), Directory, ComponentsDir(n), Directory, SystemsDir(n), Directory,
                   CMakePath(n), File(CMakeText(n)), CppPath(n), File(CppText(n)), HppPath(n), File(HppText(n)));
  }

  // ---------------------------------------------------------------------
  // The script as it runs: each call changes the file system in place
  // ---------------------------------------------------------------------

  /** The file system the script works on. */
  class FileSystem {
    var tree: FileTree

    constructor (initial: FileTree)
      ensures tree == initial
    {
      tree := initial;
    }

    /** os.mkdir(path). */
    method Mkdir(path: string) returns (error: Option<FsError>)
      modifies this
      ensures Outcome(tree, error) == MkdirEffect(old(tree), path)
    {
      var o := MkdirEffect(tree, path);
      tree, error := o.tree, o.error;
    }

    /** open(path, "x"). */
    method CreateExclusive(path: string) returns (error: Option<FsError>)
      modifies this
      ensures Outcome(tree, error) == CreateExclusiveEffect(old(tree), path)
    {
      var o := CreateExclusiveEffect(tree, path);
      tree, error := o.tree, o.error;
    }

    /** open(path, "a"), write(text), close(). */
    method AppendWrite(path: string, text: string) returns (error: Option<FsError>)
      modifies this
      ensures Outcome(tree, error) == AppendEffect(old(tree), path, text)
    {
      var o := AppendEffect(tree, path, text);
      tree, error := o.tree, o.error;
    }
  }

  method GenerateBaseDirectories(fs: FileSystem, projectName: string) returns (error: Option<FsError>)
    modifies fs
    ensures Outcome(fs.tree, error) == BaseDirectoriesEffect(old(fs.tree), projectName)
  {
    var src := Join(projectName, "src");
    var components := Join(projectName, "src/components");
    var systems := Join(projectName, "src/systems");
    var assets := Join(projectName, "assets");
    error := fs.Mkdir(src);
    if error.Some? { return; }
    error := fs.Mkdir(components);
    if error.Some? { return; }
    error := fs.Mkdir(systems);
  }

  method GenerateBaseFiles(fs: FileSystem, projectName: string) returns (error: Option<FsError>)
    modifies fs
    ensures Outcome(fs.tree, error) == BaseFilesEffect(old(fs.tree), projectName)
  {
    var cppPath := Join(projectName, "src");
    var hppPath := Join(projectName, "src");
    error := fs.CreateExclusive(projectName + "/CMakeLists.txt");
    if error.Some? { return; }
    assert cppPath + "/" + projectName + ".cpp" == CppPath(projectName);
    assert hppPath + "/" + projectName + ".hpp" == HppPath(projectName);
    error := fs.CreateExclusive(cppPath + "/" + projectName + ".cpp");
    if error.Some? { return; }
    error := fs.CreateExclusive(hppPath + "/" + projectName + ".hpp");
  }

  method LoadEmptyBaseFiles(fs: FileSystem, projectName: string) returns (error: Option<FsError>)
    modifies fs
    ensures Outcome(fs.tree, error) == LoadTemplatesEffect(old(fs.tree), projectName)
  {
    error := fs.AppendWrite(projectName + "/CMakeLists.txt", CMakeText(projectName));
    if error.Some? { return; }
    error := fs.AppendWrite(projectName + "/src/" + projectName + ".hpp", HppText(projectName));
    if error.Some? { return; }
    error := fs.AppendWrite(projectName + "/src/" + projectName + ".cpp", CppText(projectName));
  }

  /** The script's top level: the menu selection and the project name are its two inputs. */
  method RunGenerator(fs: FileSystem, projectType: string, projectName: string)
    returns (error: Option<FsError>, message: string)
    modifies fs
    ensures RunResult(fs.tree, error, message) == RunEffect(old(fs.tree), projectType, projectName)
  {
    message := "";
    error := None;
    if projectType != QuitSelection {
      error := fs.Mkdir(projectName);
      if error.Some? { return; }
      if projectType == EmptyProjectSelection {
        error := GenerateBaseDirectories(fs, projectName);
        if error.Some? { return; }
        error := GenerateBaseFiles(fs, projectName);
        if error.Some? { return; }
        error := LoadEmptyBaseFiles(fs, projectName);
        if error.Some? { return; }
        message := GeneratedMessage;
      }
    } else {
      message := QuitMessage;
    }
  }
}
