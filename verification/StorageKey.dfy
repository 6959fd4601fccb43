/**
 Upload file names and the storage keys made from them: the name check, the key, the parser of the local-upload
 endpoint, and the route from a name's extension to one converter.
 */
module StorageKey {
  import opened Wrappers
  import Uuid

  datatype NameError = Invalid | Traversal | NoStem | InvalidCharacters | UnsupportedExtension(ext: string)

  /** What `\w` and `str.strip` make of characters outside ASCII. */
  datatype Unicode = Unicode(word: char -> bool, space: char -> bool)

  predicate IsAscii(c: char) {
    c < 128 as char
  }

  predicate IsAlnum(c: char) {
    'a' <= c <= 'z' || 'A' <= c <= 'Z' || '0' <= c <= '9'
  }

  /** `[\w\-. ()]` */
  predicate Allowed(u: Unicode, c: char) {
    if IsAscii(c) then IsAlnum(c) || c in "_-. ()" else u.word(c)
  }

  /** The characters of the pattern, one by one. */
  lemma AllowedAre(u: Unicode, c: char)
    requires IsAscii(c)
    ensures Allowed(u, c) <==>
              || 'a' <= c <= 'z' || 'A' <= c <= 'Z' || '0' <= c <= '9'
              || c == '_' || c == '-' || c == '.' || c == ' ' || c == '(' || c == ')'
  {
    var marks := "_-. ()";
    assert c in marks <==> c in ['_', '-', '.', ' ', '(', ')'];
  }

  predicate AllAllowed(u: Unicode, s: string) {
    forall i | 0 <= i < |s| :: Allowed(u, s[i])
  }

  predicate IsSpace(u: Unicode, c: char) {
    if IsAscii(c) then 9 as char <= c <= 13 as char || 28 as char <= c <= 32 as char else u.space(c)
  }

  predicate Blank(u: Unicode, s: string) {
    forall i | 0 <= i < |s| :: IsSpace(u, s[i])
  }

  predicate HasDotDot(s: string) {
    exists i | 0 <= i < |s| - 1 :: s[i] == '.' && s[i + 1] == '.'
  }

  /** `re.match(r"^[\w\-. ()]+$", s)`: `$` also matches before a newline that ends the text. */
  predicate Matches(u: Unicode, s: string) {
    || (s != "" && AllAllowed(u, s))
    || (|s| > 1 && s[|s| - 1] == '\n' && AllAllowed(u, s[..|s| - 1]))
  }

  function Lower(s: string): (r: string)
    ensures |r| == |s|
  {
    if s == "" then ""
    else [if 'A' <= s[0] <= 'Z' then (s[0] as int + 32) as char else s[0]] + Lower(s[1..])
  }

  /** `s.rsplit(".", 1)[-1]` */
  function AfterLastDot(s: string): string {
    if s == "" then ""
    else if '.' in s[1..] then AfterLastDot(s[1..])
    else if s[0] == '.' then s[1..]
    else s
  }

  function Extension(s: string): string {
    "." + Lower(AfterLastDot(s))
  }

  const ALLOWED_EXTENSIONS := [".ifc", ".gltf", ".glb", ".step", ".stp", ".obj", ".stl"]

  function ValidateFilename(u: Unicode, filename: string): Result<string, NameError> {
    if filename == "" || '\0' in filename then Err(Invalid)
    else if HasDotDot(filename) || '/' in filename || '\\' in filename then Err(Traversal)
    else if filename == "." || filename == ".." || Blank(u, filename) then Err(Invalid)
    else if filename[0] == '.' then Err(NoStem)
    else if !Matches(u, filename) then Err(InvalidCharacters)
    else
      var ext := if '.' in filename then Extension(filename) else "";
      if ext !in ALLOWED_EXTENSIONS then Err(UnsupportedExtension(ext)) else Ok(filename)
  }

  // ---- what is accepted ----

  /** A stem that does not start with a dot, allowed characters, no "..", and a known extension: nothing else matters. */
  predicate Acceptable(u: Unicode, filename: string) {
    && filename != "" && filename[0] != '.'
    && AllAllowed(u, filename) && !HasDotDot(filename)
    && Extension(filename) in ALLOWED_EXTENSIONS
  }

  lemma {:induction false} DotBeforeExtension(s: string)
    requires '.' in s
    ensures |AfterLastDot(s)| < |s| && s[|s| - |AfterLastDot(s)| - 1] == '.'
    ensures s[|s| - |AfterLastDot(s)|..] == AfterLastDot(s)
    decreases |s|
  {
    if '.' in s[1..] { DotBeforeExtension(s[1..]); }
  }

  lemma {:induction false} NoDotNoExtension(s: string)
    requires '.' !in s
    ensures AfterLastDot(s) == s
  {
  }

  lemma {:induction false} LowerAt(s: string, i: nat)
    requires i < |s|
    ensures Lower(s)[i] == if 'A' <= s[i] <= 'Z' then (s[i] as int + 32) as char else s[i]
    decreases |s|
  {
    if i > 0 { LowerAt(s[1..], i - 1); }
  }

  lemma NoNewlineAtEnd(s: string)
    requires Extension(s) in ALLOWED_EXTENSIONS && s != ""
    ensures s[|s| - 1] != '\n'
  {
    var tail := AfterLastDot(s);
    var ext := Extension(s);
    assert ext[|ext| - 1] != '\n';
    assert |tail| > 0;
    LowerAt(tail, |tail| - 1);
    if '.' in s { DotBeforeExtension(s); } else { NoDotNoExtension(s); }
    assert tail[|tail| - 1] == s[|s| - 1];
  }

  lemma NotBlank(u: Unicode, s: string)
    requires '.' in s
    ensures !Blank(u, s)
  {
    var i :| 0 <= i < |s| && s[i] == '.';
    assert !IsSpace(u, s[i]);
  }

  /** The check accepts a name unchanged, and exactly the acceptable names that hold a dot. */
  lemma AcceptsExactly(u: Unicode, filename: string)
    ensures ValidateFilename(u, filename).Ok? <==> Acceptable(u, filename) && '.' in filename
    ensures ValidateFilename(u, filename).Ok? ==> ValidateFilename(u, filename).value == filename
  {
    if Acceptable(u, filename) && '.' in filename {
      NotBlank(u, filename);
      NoBadCharacters(u, filename);
      assert filename != "." && filename != "..";
    }
    if ValidateFilename(u, filename).Ok? {
      assert '.' in filename by { if '.' !in filename { EmptyIsNotAllowed(); } }
      NoNewlineAtEnd(filename);
    }
  }

  lemma EmptyIsNotAllowed()
    ensures "" !in ALLOWED_EXTENSIONS
  {
  }

  lemma NoBadCharacters(u: Unicode, s: string)
    requires AllAllowed(u, s)
    ensures '\0' !in s && '/' !in s && '\\' !in s
  {
    assert !Allowed(u, '\0') && !Allowed(u, '/') && !Allowed(u, '\\');
  }

  // ---- keys ----

  function BuildStorageKey(user: Uuid.Id, model: Uuid.Id, filename: string): string {
    Uuid.Print(user) + "/" + Uuid.Print(model) + "/" + filename
  }

  function Split(s: string): (parts: seq<string>)
    ensures parts != []
  {
    if s == "" then [""]
    else
      var rest := Split(s[1..]);
      if s[0] == '/' then [""] + rest else [[s[0]] + rest[0]] + rest[1..]
  }

  /** The endpoint's checks, as far as the model id that it authorises the request for. */
  function LocalUploadModel(key: string): Option<Uuid.Id> {
    if HasDotDot(key) || (key != "" && key[0] == '/') then None
    else
      var parts := Split(key);
      if |parts| != 3 then None else Uuid.Parse(parts[1])
  }

  lemma {:induction false} SplitWhole(s: string)
    requires '/' !in s
    ensures Split(s) == [s]
    decreases |s|
  {
    if s != "" {
      SplitWhole(s[1..]);
      assert s[0] in s && [s[0]] + s[1..] == s;
    }
  }

  lemma {:induction false} SplitAt(a: string, b: string)
    requires '/' !in a
    ensures Split(a + "/" + b) == [a] + Split(b)
    decreases |a|
  {
    var s := a + "/" + b;
    if a == "" {
      assert s[1..] == b;
    } else {
      SplitAt(a[1..], b);
      assert a[0] in a && s[0] == a[0] && s[1..] == a[1..] + "/" + b;
      assert [a[0]] + a[1..] == a;
    }
  }

  /** Only hexadecimal digits and hyphens. */
  lemma IdText(id: Uuid.Id)
    ensures |Uuid.Print(id)| == 36 && '/' !in Uuid.Print(id) && '.' !in Uuid.Print(id)
  {
    Uuid.PrintedForm(id);
    hide Uuid.Print;
  }

  lemma NoDotDotIn(a: string, b: string, c: string)
    requires '.' !in a && '.' !in b && !HasDotDot(c)
    ensures !HasDotDot(a + "/" + b + "/" + c)
  {
    var s := a + "/" + b + "/" + c;
    var n := |a| + |b| + 2;
    forall i | 0 <= i < |s| - 1 ensures !(s[i] == '.' && s[i + 1] == '.') {
      if i < |a| {
        assert s[i] == a[i] && a[i] in a;
      } else if i == |a| {
        assert s[i] == '/';
      } else if i < |a| + 1 + |b| {
        assert s[i] == b[i - |a| - 1] && b[i - |a| - 1] in b;
      } else if i == n - 1 {
        assert s[i] == '/';
      } else {
        assert s[i] == c[i - n] && s[i + 1] == c[i + 1 - n];
      }
    }
  }

  /** The key of an accepted name passes the endpoint, splits into its three parts, and parses to the same model. */
  lemma KeyRoundTrip(u: Unicode, user: Uuid.Id, model: Uuid.Id, filename: string)
    requires ValidateFilename(u, filename).Ok?
    ensures var key := BuildStorageKey(user, model, filename);
            && LocalUploadModel(key) == Some(model)
            && Split(key) == [Uuid.Print(user), Uuid.Print(model), filename]
            && Uuid.Parse(Split(key)[0]) == Some(user)
  {
    AcceptsExactly(u, filename);
    NoBadCharacters(u, filename);
    var a, b := Uuid.Print(user), Uuid.Print(model);
    hide Uuid.Print, Uuid.Parse, ValidateFilename, Acceptable;
    IdText(user);
    IdText(model);
    Uuid.ParsePrinted(model);
    Uuid.ParsePrinted(user);
    SplitWhole(filename);
    SplitAt(b, filename);
    SplitAt(a, b + "/" + filename);
    var key := BuildStorageKey(user, model, filename);
    assert key == a + "/" + (b + "/" + filename);
    NoDotDotIn(a, b, filename);
    assert key[0] == a[0] && a[0] in a;
  }

  /** Different uploads have different keys. */
  lemma KeyInjective(u: Unicode, user: Uuid.Id, model: Uuid.Id, name: string, user2: Uuid.Id, model2: Uuid.Id, name2: string)
    requires ValidateFilename(u, name).Ok? && ValidateFilename(u, name2).Ok?
    requires BuildStorageKey(user, model, name) == BuildStorageKey(user2, model2, name2)
    ensures user == user2 && model == model2 && name == name2
  {
    KeyRoundTrip(u, user, model, name);
    KeyRoundTrip(u, user2, model2, name2);
    hide BuildStorageKey, LocalUploadModel, ValidateFilename, Uuid.Parse, Uuid.Print;
  }

  // ---- routing ----

  const EXT_TO_FORMAT := map[
    ".ifc" := "ifc", ".gltf" := "gltf", ".glb" := "glb", ".step" := "step", ".stp" := "stp", ".obj" := "obj",
    ".stl" := "stl"]

  const IFC_TASK := "app.tasks.ifc.process_model"

  const MESH_ROUTER := "app.tasks.mesh.generate_chunks"

  const FORMAT_TO_TASK := map[
    "step" := "app.tasks.step.process_step", "stp" := "app.tasks.step.process_step",
    "gltf" := "app.tasks.gltf.process_gltf", "glb" := "app.tasks.gltf.process_gltf",
    "obj" := "app.tasks.obj.process_obj", "stl" := "app.tasks.stl.process_stl"]

  /** `initiate_upload`: None is UnsupportedFormatException. */
  function FormatOf(filename: string): Option<string> {
    var ext := Extension(filename);
    if ext in EXT_TO_FORMAT then Some(EXT_TO_FORMAT[ext]) else None
  }

  /** The task that a clean scan sends a model to. */
  function AfterScan(format: string): string {
    if format == "ifc" then IFC_TASK else MESH_ROUTER
  }

  /** The task that the mesh router sends a model to; None is the "no processor registered" failure. */
  function AfterRouter(format: string): Option<string> {
    var f := Lower(format);
    if f in FORMAT_TO_TASK then Some(FORMAT_TO_TASK[f]) else None
  }

  /** The converter that a model of this format reaches. */
  function Converter(format: string): Option<string> {
    if AfterScan(format) == MESH_ROUTER then AfterRouter(format) else Some(AfterScan(format))
  }

  const CONVERTERS := [
    IFC_TASK, "app.tasks.step.process_step", "app.tasks.gltf.process_gltf", "app.tasks.obj.process_obj",
    "app.tasks.stl.process_stl"]

  lemma {:induction false} LowerOfLower(s: string)
    requires forall i | 0 <= i < |s| :: !('A' <= s[i] <= 'Z')
    ensures Lower(s) == s
    decreases |s|
  {
    if s != "" { LowerOfLower(s[1..]); }
  }

  /** The task named after the kind of file: the IFC task for ".ifc", and one mesh task for each other kind. */
  function TaskFor(ext: string): string
    requires ext != ""
  {
    if ext == ".ifc" then "app.tasks.ifc.process_model"
    else
      var kind := if ext == ".glb" then "gltf" else if ext == ".stp" then "step" else ext[1..];
      "app.tasks." + kind + ".process_" + kind
  }

  lemma RouteOf(ext: string)
    requires ext in ALLOWED_EXTENSIONS
    ensures ext in EXT_TO_FORMAT && ext != ""
    ensures Converter(EXT_TO_FORMAT[ext]) == Some(TaskFor(ext)) && TaskFor(ext) in CONVERTERS
  {
    FormatIsLower(ext);
    TasksNamed();
    hide Lower;
    assert ext[1..] == EXT_TO_FORMAT[ext] || ext == ".ifc";
    if ext == ".ifc" {
      hide AfterRouter;
    } else {
      assert AfterScan(EXT_TO_FORMAT[ext]) == MESH_ROUTER;
    }
  }

  lemma TasksNamed()
    ensures "app.tasks." + "gltf" + ".process_" + "gltf" == "app.tasks.gltf.process_gltf"
    ensures "app.tasks." + "step" + ".process_" + "step" == "app.tasks.step.process_step"
    ensures "app.tasks." + "obj" + ".process_" + "obj" == "app.tasks.obj.process_obj"
    ensures "app.tasks." + "stl" + ".process_" + "stl" == "app.tasks.stl.process_stl"
  {
  }

  lemma FormatIsLower(ext: string)
    requires ext in ALLOWED_EXTENSIONS
    ensures ext in EXT_TO_FORMAT && Lower(EXT_TO_FORMAT[ext]) == EXT_TO_FORMAT[ext]
  {
    hide Lower;
    LowerOfLower(EXT_TO_FORMAT[ext]);
  }

  /** An accepted name always has a format, and the format reaches one converter: no unsupported branch is taken. */
  lemma AcceptedIsRouted(u: Unicode, filename: string)
    requires ValidateFilename(u, filename).Ok?
    ensures FormatOf(filename).Some? && Extension(filename) != ""
    ensures Converter(FormatOf(filename).value) == Some(TaskFor(Extension(filename)))
  {
    AcceptsExactly(u, filename);
    hide ValidateFilename, Converter, Extension, TaskFor;
    RouteOf(Extension(filename));
  }
}
