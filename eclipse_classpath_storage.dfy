/** Eclipse classpath storage for a module: whether a module's configuration
    can be kept in Eclipse's `.classpath`/`.project` format, which files that
    storage keeps, and the choices made when the module's roots are read from
    and written to those files. Every query the IDE answers (libraries, content
    roots, the compiler output, path macros, which files exist) is a field of a
    record or of an object here. */
module EclipseClasspathStorage {
  import opened Wrappers

  /** File names of the Eclipse storage and of the IDEA-specific settings. */
  const ClasspathFile: string := ".classpath"
  const ProjectFile: string := ".project"
  const PluginXmlFile: string := "plugin.xml"
  const IdeaSettingsPostfix: string := ".eml"

  /** Root tags of the documents written to `.classpath`, to the `.eml` file
      and to `.project`. */
  const ClasspathTag: string := "classpath"
  const ComponentTag: string := "component"
  const ProjectDescriptionTag: string := "projectDescription"

  /** The IDEA-specific settings file of a module. */
  function EmlName(moduleName: string): string
  {
    moduleName + IdeaSettingsPostfix
  }

  /** A module's `.eml` file never collides with the three Eclipse files. */
  lemma EmlNameIsDistinct(moduleName: string)
    ensures EmlName(moduleName) != ClasspathFile
    ensures EmlName(moduleName) != ProjectFile
    ensures EmlName(moduleName) != PluginXmlFile
  {
    var eml := EmlName(moduleName);
    var n := |eml|;
    assert eml[n - 1] == 'l' && eml[n - 3] == 'e';
    assert ClasspathFile[|ClasspathFile| - 1] == 'h';
    assert ProjectFile[|ProjectFile| - 1] == 't';
    assert PluginXmlFile[|PluginXmlFile| - 3] == 'x';
  }

  // ---------------------------------------------------------------------------
  // Compatibility of a module with the Eclipse format
  // ---------------------------------------------------------------------------

  /** A library: its classes root URLs and the URLs it treats as jar directories. */
  datatype Library = Library(classesUrls: seq<string>, jarDirectories: set<string>)

  /** An order entry of a module: a library dependency (module-level or not,
      its library possibly unresolved) or any other kind of entry. The entry's
      classes root URLs are its library's. */
  datatype OrderEntry =
    | LibraryEntry(presentableName: string, isModuleLevel: bool, library: Option<Library>)
    | OtherEntry(presentableName: string)

  /** The module's compiler output: its URL, that URL as a file path, and the
      URL after path macros are collapsed. */
  datatype CompilerOutput = CompilerOutput(url: string, path: string, collapsedUrl: string)

  /** What the checks ask of a module's root model. `ePathContentRoot` is the
      content root the Eclipse path utilities pick, if any. */
  datatype RootModel = RootModel(
    moduleName: string,
    orderEntries: seq<OrderEntry>,
    contentRoots: seq<string>,
    ePathContentRoot: Option<string>,
    compilerOutput: Option<CompilerOutput>,
    sourceRoots: seq<string>)

  /** The content root picked by the path utilities is one of the module's. */
  predicate WellFormed(m: RootModel)
  {
    m.ePathContentRoot.Some? ==> m.ePathContentRoot.value in m.contentRoots
  }

  /** Why a module cannot be stored in the Eclipse format. */
  datatype ConfigurationError =
    | IncompatibleLibrary(libraryName: string, moduleName: string)
    | NoContentRoots(moduleName: string)
    | IncompatibleOutput(moduleName: string)

  /** A module-level library entry is refused when its library is unresolved,
      when it has other than exactly one classes root, or when that one root is
      a jar directory. The root count is tested first, so the first root is
      only looked at when there is exactly one. */
  predicate RejectsLibrary(e: OrderEntry): (r: bool)
    ensures r ==> e.LibraryEntry? && e.isModuleLevel
  {
    e.LibraryEntry? && e.isModuleLevel &&
    (e.library.None? ||
     |e.library.value.classesUrls| != 1 ||
     e.library.value.classesUrls[0] in e.library.value.jarDirectories)
  }

  /** The first refused library entry, if any. */
  function FirstRejectedLibrary(entries: seq<OrderEntry>): (r: Option<nat>)
    ensures r.Some? ==> r.value < |entries| && RejectsLibrary(entries[r.value])
    ensures r.Some? ==> forall j :: 0 <= j < r.value ==> !RejectsLibrary(entries[j])
    ensures r.None? ==> forall j :: 0 <= j < |entries| ==> !RejectsLibrary(entries[j])
  {
    if entries == [] then None
    else if RejectsLibrary(entries[0]) then Some(0)
    else
      match FirstRejectedLibrary(entries[1..])
      case None => None
      case Some(j) => Some(j + 1)
  }

  /** `getContentRoot`: the path utilities' content root when there is one,
      otherwise the first content root; absent when the module has neither
      (the source then fails indexing an empty array). */
  function GetContentRoot(m: RootModel): (r: Option<string>)
    ensures m.ePathContentRoot.Some? ==> r == m.ePathContentRoot
    ensures m.ePathContentRoot.None? && |m.contentRoots| > 0 ==> r == Some(m.contentRoots[0])
    ensures |m.contentRoots| > 0 ==> r.Some?
    ensures WellFormed(m) ==> (r.Some? <==> |m.contentRoots| > 0)
    ensures WellFormed(m) && r.Some? ==> r.value in m.contentRoots
  {
    if m.ePathContentRoot.Some? then m.ePathContentRoot
    else if |m.contentRoots| > 0 then Some(m.contentRoots[0])
    else None
  }

  /** The output is refused when there is none, or when its path does not start
      with the content root and collapsing path macros leaves its URL as is. */
  predicate RejectsOutput(output: Option<CompilerOutput>, contentRoot: string): (r: bool)
    ensures output.None? ==> r
    ensures output.Some? && contentRoot <= output.value.path ==> !r
    ensures output.Some? && output.value.collapsedUrl != output.value.url ==> !r
  {
    output.None? ||
    (!(contentRoot <= output.value.path) && output.value.collapsedUrl == output.value.url)
  }

  /** The verdict of `assertCompatible`: libraries first (the first refused
      entry is reported), then content roots, then the compiler output. */
  function Compatibility(m: RootModel): (r: Outcome<ConfigurationError>)
    ensures r.Fail? ==> r.error.moduleName == m.moduleName
    ensures r.Fail? && r.error.IncompatibleLibrary? ==>
      exists i :: 0 <= i < |m.orderEntries| && RejectsLibrary(m.orderEntries[i]) &&
                  r.error.libraryName == m.orderEntries[i].presentableName
    ensures r.Pass? ==> |m.contentRoots| > 0 && m.compilerOutput.Some?
  {
    match FirstRejectedLibrary(m.orderEntries)
    case Some(i) => Fail(IncompatibleLibrary(m.orderEntries[i].presentableName, m.moduleName))
    case None =>
      if |m.contentRoots| == 0 then Fail(NoContentRoots(m.moduleName))
      else if RejectsOutput(m.compilerOutput, GetContentRoot(m).value) then Fail(IncompatibleOutput(m.moduleName))
      else Pass
  }

  /** `assertCompatible`: walks the order entries, then checks content roots and
      the compiler output, throwing the first configuration error it meets. */
  method AssertCompatible(m: RootModel) returns (r: Outcome<ConfigurationError>)
    ensures r == Compatibility(m)
  {
    var i := 0;
    while i < |m.orderEntries|
      invariant i <= |m.orderEntries|
      invariant forall j :: 0 <= j < i ==> !RejectsLibrary(m.orderEntries[j])
    {
      var entry := m.orderEntries[i];
      if entry.LibraryEntry? && entry.isModuleLevel {
        var library := entry.library;
        if library.None? ||
           |library.value.classesUrls| != 1 ||
           library.value.classesUrls[0] in library.value.jarDirectories
        {
          return Fail(IncompatibleLibrary(entry.presentableName, m.moduleName));
        }
      }
      i := i + 1;
    }
    if |m.contentRoots| == 0 {
      return Fail(NoContentRoots(m.moduleName));
    }
    var output := m.compilerOutput;
    var contentRoot := GetContentRoot(m).value;
    if output.None? ||
       (!(contentRoot <= output.value.path) && output.value.collapsedUrl == output.value.url)
    {
      return Fail(IncompatibleOutput(m.moduleName));
    }
    return Pass;
  }

  /** A module is compatible exactly when no module-level library is refused,
      it has a content root, and its output is acceptable under that root. */
  lemma CompatibleExactlyWhen(m: RootModel)
    ensures Compatibility(m).Pass? <==>
      (forall j :: 0 <= j < |m.orderEntries| ==> !RejectsLibrary(m.orderEntries[j])) &&
      |m.contentRoots| > 0 &&
      !RejectsOutput(m.compilerOutput, GetContentRoot(m).value)
  {
  }

  /** A refused library is reported whatever else is wrong with the module
      (content roots and output are checked later), and the entry reported is
      the first refused one. */
  lemma LibraryCheckedFirst(m: RootModel, i: nat)
    requires i < |m.orderEntries| && RejectsLibrary(m.orderEntries[i])
    requires forall j :: 0 <= j < i ==> !RejectsLibrary(m.orderEntries[j])
    ensures Compatibility(m) == Fail(IncompatibleLibrary(m.orderEntries[i].presentableName, m.moduleName))
  {
  }

  /** Entries that are not module-level libraries never cause a refusal:
      inserting one anywhere leaves the verdict as it was. */
  lemma IgnoredEntryInsertion(m: RootModel, k: nat, e: OrderEntry)
    requires k <= |m.orderEntries|
    requires !e.LibraryEntry? || !e.isModuleLevel
    ensures !RejectsLibrary(e)
    ensures Compatibility(m.(orderEntries := m.orderEntries[..k] + [e] + m.orderEntries[k..])) == Compatibility(m)
  {
    var es := m.orderEntries;
    var es' := es[..k] + [e] + es[k..];
    var m' := m.(orderEntries := es');
    assert forall j :: 0 <= j < k ==> es'[j] == es[j];
    assert es'[k] == e;
    assert forall j :: k < j < |es'| ==> es'[j] == es[j - 1];
    match FirstRejectedLibrary(es)
    case None =>
      assert forall j :: 0 <= j < |es'| ==> !RejectsLibrary(es'[j]) by {
        forall j | 0 <= j < |es'| ensures !RejectsLibrary(es'[j]) {
          if j > k { assert es'[j] == es[j - 1]; }
        }
      }
      assert FirstRejectedLibrary(es').None?;
    case Some(i) =>
      var i' := if i < k then i else i + 1;
      assert es'[i'] == es[i];
      forall j | 0 <= j < i' ensures !RejectsLibrary(es'[j]) {
        if j > k { assert es'[j] == es[j - 1]; }
      }
      LibraryCheckedFirst(m', i');
  }

  /** With no refused library, a module without content roots is refused for
      that reason. */
  lemma NoContentRootsRejected(m: RootModel)
    requires forall j :: 0 <= j < |m.orderEntries| ==> !RejectsLibrary(m.orderEntries[j])
    requires |m.contentRoots| == 0
    ensures Compatibility(m) == Fail(NoContentRoots(m.moduleName))
  {
  }

  /** With libraries and content roots in order, the verdict rests on the
      output alone: refused when it is missing, or outside the content root and
      not expressible with a path macro; accepted otherwise. */
  lemma OutputDecides(m: RootModel)
    requires forall j :: 0 <= j < |m.orderEntries| ==> !RejectsLibrary(m.orderEntries[j])
    requires |m.contentRoots| > 0
    ensures var root := GetContentRoot(m).value;
      Compatibility(m) == if m.compilerOutput.None? ||
                             (!(root <= m.compilerOutput.value.path) &&
                              m.compilerOutput.value.collapsedUrl == m.compilerOutput.value.url)
                          then Fail(IncompatibleOutput(m.moduleName)) else Pass
  {
  }

  // ---------------------------------------------------------------------------
  // The file cache and the storage's files
  // ---------------------------------------------------------------------------

  /** A parsed XML document (its root tag), or a file that does not parse. */
  datatype Document = Parsed(rootTag: string) | Malformed

  /** The cache of a module's storage files: the directory each file name is
      registered under, and the files that exist with their documents. */
  class CachedXmlDocumentSet {
    var parents: map<string, string>
    var documents: map<string, Document>

    constructor ()
      ensures parents == map[] && documents == map[]
    {
      parents := map[];
      documents := map[];
    }

    /** The file exists. */
    predicate Exists(name: string)
      reads this
    {
      name in documents
    }

    /** The file exists and parses. */
    predicate Readable(name: string)
      reads this
    {
      name in documents && documents[name].Parsed?
    }

    method Register(name: string, root: string)
      modifies this`parents
      ensures parents == old(parents)[name := root]
    {
      parents := parents[name := root];
    }

    method Write(document: Document, name: string)
      modifies this`documents
      ensures documents == old(documents)[name := document]
    {
      documents := documents[name := document];
    }

    method Delete(name: string)
      modifies this`documents
      ensures documents == old(documents) - {name}
    {
      documents := documents - {name};
    }
  }

  /** The registrations `registerFiles` makes: `.classpath`, `.project` and
      `plugin.xml` under the storage root, the module's `.eml` file under the
      module root, and nothing else. */
  function EclipseFileRoots(moduleName: string, moduleRoot: string, storageRoot: string): (r: map<string, string>)
    ensures r.Keys == {ClasspathFile, ProjectFile, PluginXmlFile, EmlName(moduleName)}
    ensures |r| == 4
    ensures r[ClasspathFile] == storageRoot && r[ProjectFile] == storageRoot && r[PluginXmlFile] == storageRoot
    ensures r[EmlName(moduleName)] == moduleRoot
  {
    EmlNameIsDistinct(moduleName);
    map[ClasspathFile := storageRoot, ProjectFile := storageRoot, PluginXmlFile := storageRoot,
        EmlName(moduleName) := moduleRoot]
  }

  /** `registerFiles`: registers the four storage files; other registrations
      are kept. */
  method RegisterFiles(fileCache: CachedXmlDocumentSet, moduleName: string, moduleRoot: string, storageRoot: string)
    modifies fileCache`parents
    ensures fileCache.parents == old(fileCache.parents) + EclipseFileRoots(moduleName, moduleRoot, storageRoot)
  {
    fileCache.Register(ClasspathFile, storageRoot);
    fileCache.Register(ProjectFile, storageRoot);
    fileCache.Register(PluginXmlFile, storageRoot);
    fileCache.Register(EmlName(moduleName), moduleRoot);
  }

  /** `.classpath` is written when one could be read before, or the module has
      a source root, or it has more than two order entries. */
  predicate WritesClasspath(classpathReadable: bool, m: RootModel): (r: bool)
    ensures classpathReadable ==> r
    ensures |m.sourceRoots| == 0 && |m.orderEntries| <= 2 ==> (r <==> classpathReadable)
  {
    classpathReadable || |m.sourceRoots| > 0 || |m.orderEntries| > 2
  }

  /** The files after `setClasspath`, in the order it touches them:
      `.classpath` written or left alone by the rule above; `.project` saved
      when it could not be read and left alone otherwise; the `.eml` file
      written when there are IDEA-specific settings and deleted otherwise;
      every other file untouched. */
  function DocumentsAfterSave(docs: map<string, Document>, m: RootModel, hasIdeaSettings: bool): (r: map<string, Document>)
    ensures var writes := WritesClasspath(ClasspathFile in docs && docs[ClasspathFile].Parsed?, m);
      (writes ==> ClasspathFile in r && r[ClasspathFile] == Parsed(ClasspathTag)) &&
      (!writes ==> (ClasspathFile in r <==> ClasspathFile in docs) &&
                   (ClasspathFile in docs ==> r[ClasspathFile] == docs[ClasspathFile]))
    ensures ProjectFile in r && r[ProjectFile].Parsed?
    ensures ProjectFile in docs && docs[ProjectFile].Parsed? ==> r[ProjectFile] == docs[ProjectFile]
    ensures !(ProjectFile in docs && docs[ProjectFile].Parsed?) ==> r[ProjectFile] == Parsed(ProjectDescriptionTag)
    ensures hasIdeaSettings <==> EmlName(m.moduleName) in r
    ensures hasIdeaSettings ==> r[EmlName(m.moduleName)] == Parsed(ComponentTag)
    ensures forall name :: name != ClasspathFile && name != ProjectFile && name != EmlName(m.moduleName) ==>
      (name in r <==> name in docs) && (name in docs ==> r[name] == docs[name])
  {
    EmlNameIsDistinct(m.moduleName);
    var classpathReadable := ClasspathFile in docs && docs[ClasspathFile].Parsed?;
    var withClasspath := if WritesClasspath(classpathReadable, m) then docs[ClasspathFile := Parsed(ClasspathTag)] else docs;
    var projectReadable := ProjectFile in docs && docs[ProjectFile].Parsed?;
    var withProject := if projectReadable then withClasspath else withClasspath[ProjectFile := Parsed(ProjectDescriptionTag)];
    var eml := EmlName(m.moduleName);
    if hasIdeaSettings then withProject[eml := Parsed(ComponentTag)] else withProject - {eml}
  }

  /** Why reading the classpath failed. */
  datatype ClasspathError = InvalidData(fileName: string)

  /** The part of a modifiable root model that reading the classpath sets. */
  class ModifiableRootModel {
    const moduleName: string
    var compilerOutputUrl: Option<string>
    var excludeOutput: bool

    constructor (moduleName: string, compilerOutputUrl: Option<string>, excludeOutput: bool)
      ensures this.moduleName == moduleName
      ensures this.compilerOutputUrl == compilerOutputUrl && this.excludeOutput == excludeOutput
    {
      this.moduleName := moduleName;
      this.compilerOutputUrl := compilerOutputUrl;
      this.excludeOutput := excludeOutput;
    }
  }

  /** Converts between a module's root model and its Eclipse files. */
  class EclipseClasspathConverter {
    const fileSet: CachedXmlDocumentSet

    constructor (fileSet: CachedXmlDocumentSet)
      ensures this.fileSet == fileSet
    {
      this.fileSet := fileSet;
    }

    /** `getClasspath`. What the foreign readers do is given: the classpath
        reader reports `classpathVariables` as used path variables and leaves
        `classpathOutputUrl` as the output; the IDEA-specific settings reader
        leaves `emlExcludeOutput` as the exclude flag. `readerRoot` is the
        directory the classpath reader is created for. With neither `.project`
        nor `.classpath` there is nothing to read. Otherwise the directory is
        `.project`'s, or `.classpath`'s when `.project` is missing; a
        `.classpath` that does not parse fails the read; with no `.classpath`
        the output becomes `/bin` under that directory and no variable is used;
        with no `.eml` file the output is not excluded. */
    method GetClasspath(model: ModifiableRootModel, classpathVariables: set<string>,
                        classpathOutputUrl: Option<string>, emlExcludeOutput: bool)
      returns (r: Result<set<string>, ClasspathError>, readerRoot: Option<string>)
      requires ProjectFile in fileSet.parents && ClasspathFile in fileSet.parents
      modifies model
      ensures !fileSet.Exists(ProjectFile) && !fileSet.Exists(ClasspathFile) ==>
        r == Ok({}) && readerRoot == None && unchanged(model)
      ensures fileSet.Exists(ProjectFile) ==> readerRoot == Some(fileSet.parents[ProjectFile])
      ensures !fileSet.Exists(ProjectFile) && fileSet.Exists(ClasspathFile) ==>
        readerRoot == Some(fileSet.parents[ClasspathFile])
      ensures fileSet.Exists(ClasspathFile) && !fileSet.Readable(ClasspathFile) ==>
        r == Err(InvalidData(ClasspathFile)) && unchanged(model)
      ensures fileSet.Readable(ClasspathFile) ==>
        r == Ok(classpathVariables) && model.compilerOutputUrl == classpathOutputUrl
      ensures fileSet.Exists(ProjectFile) && !fileSet.Exists(ClasspathFile) ==>
        r == Ok({}) && model.compilerOutputUrl == Some(fileSet.parents[ProjectFile] + "/bin")
      ensures r.Ok? && readerRoot.Some? ==>
        model.excludeOutput == (fileSet.Exists(EmlName(model.moduleName)) && emlExcludeOutput)
    {
      var path := fileSet.parents[ProjectFile];
      if !fileSet.Exists(ProjectFile) {
        if !fileSet.Exists(ClasspathFile) {
          return Ok({}), None;
        }
        path := fileSet.parents[ClasspathFile];
      }
      readerRoot := Some(path);
      var usedVariables: set<string>;
      if fileSet.Exists(ClasspathFile) {
        if !fileSet.Readable(ClasspathFile) {
          return Err(InvalidData(ClasspathFile)), readerRoot;
        }
        model.compilerOutputUrl := classpathOutputUrl;
        usedVariables := classpathVariables;
      } else {
        model.compilerOutputUrl := Some(path + "/bin");
        usedVariables := {};
      }
      if fileSet.Exists(EmlName(model.moduleName)) {
        model.excludeOutput := emlExcludeOutput;
      } else {
        model.excludeOutput := false;
      }
      r := Ok(usedVariables);
    }

    /** `setClasspath`. `hasIdeaSettings` is whether the IDEA-specific writer
        produced anything; `dotProjectSavedTo` is the directory a `.project`
        that could not be read is saved to, and that file exists afterwards. */
    method SetClasspath(model: RootModel, hasIdeaSettings: bool) returns (dotProjectSavedTo: Option<string>)
      requires ProjectFile in fileSet.parents
      modifies fileSet`documents
      ensures fileSet.documents == DocumentsAfterSave(old(fileSet.documents), model, hasIdeaSettings)
      ensures dotProjectSavedTo == if old(fileSet.Readable(ProjectFile)) then None
                                   else Some(fileSet.parents[ProjectFile])
    {
      EmlNameIsDistinct(model.moduleName);
      var classpathReadable := fileSet.Readable(ClasspathFile);
      if classpathReadable || |model.sourceRoots| > 0 || |model.orderEntries| > 2 {
        fileSet.Write(Parsed(ClasspathTag), ClasspathFile);
      }
      if fileSet.Readable(ProjectFile) {
        dotProjectSavedTo := None;
      } else {
        dotProjectSavedTo := Some(fileSet.parents[ProjectFile]);
        fileSet.Write(Parsed(ProjectDescriptionTag), ProjectFile);
      }
      var eml := EmlName(model.moduleName);
      if hasIdeaSettings {
        fileSet.Write(Parsed(ComponentTag), eml);
      } else {
        fileSet.Delete(eml);
      }
    }
  }
}
