# Before-run artifact builds, Eclipse classpath storage and the Java rename veto

A Dafny model of three small pieces of the IntelliJ IDEA platform and its plugins:

- **The "Build Artifacts" before-run task** (`BuildArtifacts`, `build_artifacts.dfy`).
  A run configuration can rebuild some packaging artifacts before it starts.
  The task keeps an ordered list of artifact pointers:
  - `addArtifact` adds a pointer only if it is absent;
  - `removeArtifact` drops the first occurrence;
  - `setArtifactPointers` and `clone` take copies;
  - the task writes one `<artifact name="...">` child per pointer and reads them back.

  The task is a class whose `artifactPointers` field (a `seq`) the methods change in place.
  The JDOM element is a small class that children are appended to.
  List `contains` is Dafny's membership test `in` on sequences. List `remove` (`RemoveFirst`) and `equals` (`ListEquals`) are specification functions, with lemmas about order, multiplicity, duplicates and the write/read round trip.
- **Eclipse classpath storage** (`EclipseClasspathStorage`, `eclipse_classpath_storage.dfy`).
  A module can keep its roots in Eclipse's `.classpath`/`.project` files, with IDEA-only settings in `<module>.eml`.
  - `assertCompatible` decides whether a module fits that format. It is modelled as a loop method proved equal to the specification function `Compatibility`, with lemmas on check order and on which entries matter.
  - `getContentRoot` is a function.
  - `registerFiles`, `getClasspath` and `setClasspath` are methods over the file cache (a class holding a map from file name to directory and a map from file name to document) and over the root model.

  Every platform query is a field of a record, or a parameter: library roots, jar directories, content roots, the output URL as a path, the URL after path macros are collapsed, which files exist and parse, and what the foreign readers and writers report and set.
- **The Java rename veto** (`JavaVetoRename`, `java_veto_rename.dfy`).
  The veto is a pure predicate over an element datatype: a light method with its containing class, a Java file with its three facts, or anything else.

`Wrappers` (`wrappers.dfy`) holds `Option`, `Outcome` and `Result`.

The constants of the Eclipse format are `.classpath`, `.project`, `plugin.xml` and `.eml`, with root tags `classpath` and `component`. They are the values of the plugin's `EclipseXml`/`IdeaXml` constants. Those classes are not part of this model. A `.project` file the model saves is given the Eclipse root tag `projectDescription`.

## Model

| member | source | states |
|---|---|---|
| `BuildArtifacts.BuildArtifactsBeforeRunTask.constructor` | java/compiler/impl/src/com/intellij/packaging/impl/run/BuildArtifactsBeforeRunTask.java:37-43 | a new task belongs to its project and starts with an empty pointer list |
| `BuildArtifacts.PointerForName` | java/compiler/impl/src/com/intellij/packaging/impl/run/BuildArtifactsBeforeRunTask.java:51 | the pointer created for a child's name names that artifact |
| `BuildArtifacts.PointerFor` | java/compiler/impl/src/com/intellij/packaging/impl/run/BuildArtifactsBeforeRunTask.java:84 | the pointer created for an artifact names that artifact |
| `BuildArtifacts.AddIfAbsent` | java/compiler/impl/src/com/intellij/packaging/impl/run/BuildArtifactsBeforeRunTask.java:85-87 | add-if-absent keeps the old list as a prefix, contains the pointer, grows by one exactly when the pointer was absent, and never introduces a duplicate |
| `BuildArtifacts.BuildArtifactsBeforeRunTask.AddArtifact` | java/compiler/impl/src/com/intellij/packaging/impl/run/BuildArtifactsBeforeRunTask.java:83-88 | the new list is the old one with the artifact's pointer added if absent |
| `BuildArtifacts.FirstIndex` | java/compiler/impl/src/com/intellij/packaging/impl/run/BuildArtifactsBeforeRunTask.java:94-96 | the position `remove` acts on holds the pointer and no earlier position does |
| `BuildArtifacts.RemoveFirst` | java/compiler/impl/src/com/intellij/packaging/impl/run/BuildArtifactsBeforeRunTask.java:95 | removal shortens the list by one exactly when the pointer is in it, and leaves the length alone otherwise |
| `BuildArtifacts.RemoveFirstMultiset` | java/compiler/impl/src/com/intellij/packaging/impl/run/BuildArtifactsBeforeRunTask.java:94-96 | removal takes away exactly one occurrence when there is one, and nothing otherwise |
| `BuildArtifacts.RemoveFirstCutsFirstOccurrence` | java/compiler/impl/src/com/intellij/packaging/impl/run/BuildArtifactsBeforeRunTask.java:94-96 | removal cuts out the first occurrence and keeps everything else in order |
| `BuildArtifacts.RemoveFirstAbsent` | java/compiler/impl/src/com/intellij/packaging/impl/run/BuildArtifactsBeforeRunTask.java:94-96 | removing an absent pointer leaves the list unchanged |
| `BuildArtifacts.RemoveFirstOfDistinct` | java/compiler/impl/src/com/intellij/packaging/impl/run/BuildArtifactsBeforeRunTask.java:83-96 | in a duplicate-free list (what `addArtifact` alone builds) removal removes the pointer entirely and keeps the list duplicate-free |
| `BuildArtifacts.BuildArtifactsBeforeRunTask.RemoveArtifact` | java/compiler/impl/src/com/intellij/packaging/impl/run/BuildArtifactsBeforeRunTask.java:90-92 | removing an artifact removes the first occurrence of its pointer |
| `BuildArtifacts.BuildArtifactsBeforeRunTask.RemovePointer` | java/compiler/impl/src/com/intellij/packaging/impl/run/BuildArtifactsBeforeRunTask.java:94-96 | the new list is the old one with the first occurrence of the pointer removed |
| `BuildArtifacts.BuildArtifactsBeforeRunTask.GetItemsCount` | java/compiler/impl/src/com/intellij/packaging/impl/run/BuildArtifactsBeforeRunTask.java:70-73 | the item count is the length of the pointer list |
| `BuildArtifacts.BuildArtifactsBeforeRunTask.GetArtifactPointers` | java/compiler/impl/src/com/intellij/packaging/impl/run/BuildArtifactsBeforeRunTask.java:75-77 | the view returned is the task's list, and reading it changes nothing |
| `BuildArtifacts.BuildArtifactsBeforeRunTask.SetArtifactPointers` | java/compiler/impl/src/com/intellij/packaging/impl/run/BuildArtifactsBeforeRunTask.java:79-81 | afterwards the task's list equals the given list, held as a value of its own |
| `BuildArtifacts.BuildArtifactsBeforeRunTask.Clone` | java/compiler/impl/src/com/intellij/packaging/impl/run/BuildArtifactsBeforeRunTask.java:63-68 | the clone is a new object with the same project, base state and an equal pointer list |
| `BuildArtifacts.AddToClone` | java/compiler/impl/src/com/intellij/packaging/impl/run/BuildArtifactsBeforeRunTask.java:63-68 | adding to a clone changes the clone's list only; the original task is unchanged |
| `BuildArtifacts.Element.AddContent` | java/compiler/impl/src/com/intellij/packaging/impl/run/BuildArtifactsBeforeRunTask.java:59 | adding content appends the child after the element's existing children |
| `BuildArtifacts.ArtifactChildren` | java/compiler/impl/src/com/intellij/packaging/impl/run/BuildArtifactsBeforeRunTask.java:58-60 | one `artifact` child per pointer, in list order, each with a `name` attribute holding that pointer's artifact name |
| `BuildArtifacts.BuildArtifactsBeforeRunTask.WriteExternal` | java/compiler/impl/src/com/intellij/packaging/impl/run/BuildArtifactsBeforeRunTask.java:55-61 | the element's content becomes its old content followed by the artifact children of the list |
| `BuildArtifacts.ChildrenNamedSelects` | java/compiler/impl/src/com/intellij/packaging/impl/run/BuildArtifactsBeforeRunTask.java:48 | the children selected by tag are exactly the children carrying that tag |
| `BuildArtifacts.ChildrenNamedAppend` | java/compiler/impl/src/com/intellij/packaging/impl/run/BuildArtifactsBeforeRunTask.java:48 | selecting by tag after appending children selects the old ones, then the appended ones |
| `BuildArtifacts.ChildrenNamedAllTagged` | java/compiler/impl/src/com/intellij/packaging/impl/run/BuildArtifactsBeforeRunTask.java:48 | children that all carry the tag are all selected, in order |
| `BuildArtifacts.NamedPrefix` | java/compiler/impl/src/com/intellij/packaging/impl/run/BuildArtifactsBeforeRunTask.java:50-52 | the children read before the first one lacking a name are all named, and the next one (if any) lacks a name |
| `BuildArtifacts.PointersRead` | java/compiler/impl/src/com/intellij/packaging/impl/run/BuildArtifactsBeforeRunTask.java:50-52 | one pointer per child, in child order, each for that child's name |
| `BuildArtifacts.BuildArtifactsBeforeRunTask.ReadExternal` | java/compiler/impl/src/com/intellij/packaging/impl/run/BuildArtifactsBeforeRunTask.java:45-53 | the existing pointers are kept, then one pointer is appended per `artifact` child, in order. Reading succeeds exactly when every such child is named, and stops at the first child without a name |
| `BuildArtifacts.WriteReadRoundTrip` | java/compiler/impl/src/com/intellij/packaging/impl/run/BuildArtifactsBeforeRunTask.java:46-61 | if an element has no `artifact` child before writing, the children written for a list are all named and read back as that list |
| `BuildArtifacts.WriteThenRead` | java/compiler/impl/src/com/intellij/packaging/impl/run/BuildArtifactsBeforeRunTask.java:46-61 | writing a task and reading the element into an empty task succeeds and reproduces the pointer list, hence the name sequence |
| `BuildArtifacts.ListEquals` | java/compiler/impl/src/com/intellij/packaging/impl/run/BuildArtifactsBeforeRunTask.java:105 | lists that compare equal have the same length |
| `BuildArtifacts.ListEqualsIsSeqEquality` | java/compiler/impl/src/com/intellij/packaging/impl/run/BuildArtifactsBeforeRunTask.java:105 | element-wise, in-order list equality holds exactly when the lists are equal |
| `BuildArtifacts.BuildArtifactsBeforeRunTask.Equals` | java/compiler/impl/src/com/intellij/packaging/impl/run/BuildArtifactsBeforeRunTask.java:98-109 | two tasks are equal exactly when the other is non-null with the same base state and project and an equal pointer list |
| `EclipseClasspathStorage.EmlNameIsDistinct` | plugins/eclipse/src/org/jetbrains/idea/eclipse/config/EclipseClasspathStorageProvider.java:136-139 | a module's `.eml` name never equals `.classpath`, `.project` or `plugin.xml` |
| `EclipseClasspathStorage.RejectsLibrary` | plugins/eclipse/src/org/jetbrains/idea/eclipse/config/EclipseClasspathStorageProvider.java:76-82 | only a module-level library entry is ever refused |
| `EclipseClasspathStorage.FirstRejectedLibrary` | plugins/eclipse/src/org/jetbrains/idea/eclipse/config/EclipseClasspathStorageProvider.java:75-92 | finds the first module-level library entry that is unresolved, has other than one classes root, or whose only root is a jar directory; none is found exactly when no entry is refused |
| `EclipseClasspathStorage.GetContentRoot` | plugins/eclipse/src/org/jetbrains/idea/eclipse/config/EclipseClasspathStorageProvider.java:117-122 | returns the path utilities' content root when present, otherwise the first content root. It is present whenever the module has a content root, and is one of the module's content roots |
| `EclipseClasspathStorage.RejectsOutput` | plugins/eclipse/src/org/jetbrains/idea/eclipse/config/EclipseClasspathStorageProvider.java:98-100 | a missing output is refused; an output whose path starts with the content root, or one that collapsing path macros changes, is accepted |
| `EclipseClasspathStorage.Compatibility` | plugins/eclipse/src/org/jetbrains/idea/eclipse/config/EclipseClasspathStorageProvider.java:73-105 | every refusal names the module; a refused library names a refused entry of the module; a module that passes has a content root and an output |
| `EclipseClasspathStorage.AssertCompatible` | plugins/eclipse/src/org/jetbrains/idea/eclipse/config/EclipseClasspathStorageProvider.java:72-105 | the loop over order entries and the two later checks produce exactly the verdict `Compatibility` gives |
| `EclipseClasspathStorage.CompatibleExactlyWhen` | plugins/eclipse/src/org/jetbrains/idea/eclipse/config/EclipseClasspathStorageProvider.java:73-105 | a module passes exactly when no library entry is refused, it has a content root, and its output is not refused under that root |
| `EclipseClasspathStorage.LibraryCheckedFirst` | plugins/eclipse/src/org/jetbrains/idea/eclipse/config/EclipseClasspathStorageProvider.java:75-92 | a refused library is reported whatever the content roots and output are, naming the first refused entry and the module |
| `EclipseClasspathStorage.IgnoredEntryInsertion` | plugins/eclipse/src/org/jetbrains/idea/eclipse/config/EclipseClasspathStorageProvider.java:75-78 | a non-library entry or a library entry that is not module-level is never refused, and inserting one anywhere leaves the verdict unchanged |
| `EclipseClasspathStorage.NoContentRootsRejected` | plugins/eclipse/src/org/jetbrains/idea/eclipse/config/EclipseClasspathStorageProvider.java:93-95 | with no refused library, a module without content roots is refused for that reason |
| `EclipseClasspathStorage.OutputDecides` | plugins/eclipse/src/org/jetbrains/idea/eclipse/config/EclipseClasspathStorageProvider.java:96-104 | with libraries and content roots in order, the output is refused exactly when it is missing, or outside the content root and unchanged by collapsing path macros; otherwise the module passes |
| `EclipseClasspathStorage.CachedXmlDocumentSet.Register` | plugins/eclipse/src/org/jetbrains/idea/eclipse/config/EclipseClasspathStorageProvider.java:136-139 | registering a name records its directory, overriding an earlier registration of that name |
| `EclipseClasspathStorage.CachedXmlDocumentSet.Write` | plugins/eclipse/src/org/jetbrains/idea/eclipse/config/EclipseClasspathStorageProvider.java:258 | writing a document makes it the file's document, whether or not the file existed |
| `EclipseClasspathStorage.CachedXmlDocumentSet.Delete` | plugins/eclipse/src/org/jetbrains/idea/eclipse/config/EclipseClasspathStorageProvider.java:274 | deleting a name removes its file and no other |
| `EclipseClasspathStorage.EclipseFileRoots` | plugins/eclipse/src/org/jetbrains/idea/eclipse/config/EclipseClasspathStorageProvider.java:132-140 | exactly four names are registered: the three Eclipse files under the storage root and `<module>.eml` under the module root |
| `EclipseClasspathStorage.RegisterFiles` | plugins/eclipse/src/org/jetbrains/idea/eclipse/config/EclipseClasspathStorageProvider.java:132-140 | the cache's registrations become the old ones overridden by those four, and nothing else changes |
| `EclipseClasspathStorage.WritesClasspath` | plugins/eclipse/src/org/jetbrains/idea/eclipse/config/EclipseClasspathStorageProvider.java:256 | a readable `.classpath` is always rewritten; without source roots and with at most two order entries it is rewritten only then |
| `EclipseClasspathStorage.DocumentsAfterSave` | plugins/eclipse/src/org/jetbrains/idea/eclipse/config/EclipseClasspathStorageProvider.java:256-275 | `.classpath` is written if one was readable, or there is a source root, or more than two order entries, and is left as it was otherwise. `.project` exists and parses afterwards: it is left as it was when it could be read, and is saved as a new project description otherwise. The `.eml` file exists afterwards exactly when there are IDEA-specific settings. Every other file is untouched |
| `EclipseClasspathStorage.EclipseClasspathConverter.GetClasspath` | plugins/eclipse/src/org/jetbrains/idea/eclipse/config/EclipseClasspathStorageProvider.java:194-239 | with neither file, the result is empty and nothing changes. Otherwise the reader gets `.project`'s directory, or `.classpath`'s when `.project` is missing. An unparsable `.classpath` is invalid data. A readable `.classpath` yields the reader's used variables and sets the output to the URL the reader sets. With no `.classpath` the output is `<dir>/bin` and no variables are used. The exclude-output flag becomes the settings reader's when the `.eml` file exists, and false otherwise |
| `EclipseClasspathStorage.EclipseClasspathConverter.SetClasspath` | plugins/eclipse/src/org/jetbrains/idea/eclipse/config/EclipseClasspathStorageProvider.java:241-280 | the files become `DocumentsAfterSave` of the old ones, so an unreadable `.project` is saved and exists afterwards; the directory it is saved to is its registered one, and nothing is saved when it could be read |
| `JavaVetoRename.Value` | java/java-impl/src/com/intellij/refactoring/rename/JavaVetoRenameCondition.java:25-35 | a light method is vetoed exactly when its containing class is an enum. A Java file is vetoed exactly when it is not in a server page, not outside a Java source root, and declares a class, so one with no class never is. Any other element is never vetoed |

## Left out

- The generic before-run task's own state and its `readExternal`/`writeExternal` are not part of this model. That state is a value that the task carries, copies on clone and compares in `Equals`, but never changes.
- `hashCode` is left out: it does arithmetic on hash codes of platform objects that are not modelled.
- The artifact pointer manager is not part of this model. The model assumes that a pointer is identified by its artifact name: one pointer per name, so pointer equality is name equality. Pointers that track artifact renames are not modelled.
- BuildArtifacts.BuildArtifactsBeforeRunTask.ReadExternal: a child without a `name` attribute would make the source pass a null name to the pointer manager. The model treats that as a failure that stops reading and keeps the pointers created before it, because what the manager does with a null name is not visible.
- Aliasing of Java lists is not modelled: the pointer list is a `seq` value. The defensive copies made by `setArtifactPointers` and `clone` are therefore exact by construction.
- BuildArtifacts.BuildArtifactsBeforeRunTask.GetArtifactPointers: `getArtifactPointers` returns a live unmodifiable view, which later shows the task's later changes. The model returns a snapshot of the list at the time of the call, so it does not capture that later changes show through the view.
- Library root URLs: the source counts the entry's classes root URLs and then asks whether the library's first classes URL is a jar directory. The model assumes the two lists agree and keeps one list, `classesUrls`, per library.
- The text of the configuration error messages is not modelled. The error's kind and the names it carries (the module, and the library for a refused library) are.
- `getID`, `getDescription`, `detach`, `createConverter` and `modulePathChanged` only return constants or clear a cache reference, so they are left out. `moduleRenamed` renames a real file, refreshes the file system and swallows I/O errors, so it is left out too.
- `getFileCache` and `getFileSet` are left out: they find or create the cache and preload it from disk. The converter holds its cache directly.
- The Eclipse classpath reader and writer, the IDEA-specific settings reader and writer, the `.project` helper and the root model's own serialisation are not part of this model. Their results are parameters: the used variables and output URL the classpath reader produces (`classpathVariables`, `classpathOutputUrl`), the exclude flag the settings reader sets (`emlExcludeOutput`), and whether the settings writer produced anything (`hasIdeaSettings`). The directory handed to them is an out-parameter (`readerRoot`, `dotProjectSavedTo`). The `.project` file the helper saves is modelled by its root tag only.
- EclipseClasspathStorage.EclipseClasspathConverter.GetClasspath: the root model is reduced to its output URL and exclude flag. What the readers change beyond those two (roots, order entries, libraries) and the root model's serialisation into the element are not modelled.
- The conversion and serialisation errors those foreign calls may throw are left out of `GetClasspath` and `SetClasspath`.
- Converting the output URL to a path and collapsing path macros are not modelled. Their results are fields of `CompilerOutput`.
