/** The "Build Artifacts" before-run task: an ordered list of artifact pointers
    that a run configuration rebuilds before it starts, with its XML form
    (one `<artifact name="...">` child per pointer). */
module BuildArtifacts {

  /** Element and attribute names of the XML form. */
  const ArtifactElement: string := "artifact"
  const NameAttribute: string := "name"

  /** An artifact of the project; only its name matters here. */
  datatype Artifact = Artifact(name: string)

  /** A pointer to an artifact, resolved lazily by name. The project's pointer
      manager hands out one pointer per artifact name, so two pointers are equal
      exactly when they name the same artifact. */
  datatype ArtifactPointer = ArtifactPointer(artifactName: string)

  /** The project a task belongs to. Projects are compared by identity; `id`
      stands for that identity, so equal ids mean the same project object. */
  datatype Project = Project(id: nat)

  /** What the generic before-run task keeps (provider id, enabled flag); it is
      compared as one value and never changed by this task. */
  datatype TaskBase = TaskBase(providerId: string, enabled: bool)

  /** The pointer manager's `createPointer(name)`. */
  function PointerForName(name: string): (p: ArtifactPointer)
    ensures p.artifactName == name
  {
    ArtifactPointer(name)
  }

  /** The pointer manager's `createPointer(artifact)`. */
  function PointerFor(artifact: Artifact): (p: ArtifactPointer)
    ensures p.artifactName == artifact.name
  {
    PointerForName(artifact.name)
  }

  // ---------------------------------------------------------------------------
  // The list operations the task performs on its pointer list
  // ---------------------------------------------------------------------------

  /** No element occurs twice. */
  predicate NoDuplicates<T(==)>(s: seq<T>)
  {
    forall i, j :: 0 <= i < j < |s| ==> s[i] != s[j]
  }

  /** `if (!list.contains(x)) list.add(x)`: the list grows by `x` at the end
      unless `x` is already there, keeps its old entries in order as a prefix,
      and never gains a duplicate. */
  function AddIfAbsent<T(==)>(s: seq<T>, x: T): (r: seq<T>)
    ensures s <= r && x in r
    ensures |r| == if x in s then |s| else |s| + 1
    ensures NoDuplicates(s) ==> NoDuplicates(r)
  {
    if x in s then s else s + [x]
  }

  /** Position of the first occurrence of `x` in `s`. */
  function FirstIndex<T(==)>(s: seq<T>, x: T): (i: nat)
    requires x in s
    ensures i < |s| && s[i] == x && x !in s[..i]
  {
    if s[0] == x then 0
    else
      var j := FirstIndex(s[1..], x);
      assert s[..j + 1] == [s[0]] + s[1..][..j];
      j + 1
  }

  /** `list.remove(x)`: drops the first element equal to `x`, if there is one. */
  function RemoveFirst<T(==)>(s: seq<T>, x: T): (r: seq<T>)
    ensures |r| == if x in s then |s| - 1 else |s|
  {
    if s == [] then []
    else if s[0] == x then s[1..]
    else [s[0]] + RemoveFirst(s[1..], x)
  }

  /** Exactly one occurrence of `x` goes, and only when there is one. */
  lemma {:induction false} RemoveFirstMultiset<T>(s: seq<T>, x: T)
    ensures multiset(RemoveFirst(s, x)) == multiset(s) - multiset{x}
  {
    if s != [] {
      assert s == [s[0]] + s[1..];
      if s[0] != x {
        RemoveFirstMultiset(s[1..], x);
      }
    }
  }

  /** Removing keeps the order of the rest: the result is the list with the
      first occurrence of `x` cut out. */
  lemma {:induction false} RemoveFirstCutsFirstOccurrence<T>(s: seq<T>, x: T)
    requires x in s
    ensures RemoveFirst(s, x) == s[..FirstIndex(s, x)] + s[FirstIndex(s, x) + 1..]
  {
    if s[0] != x {
      var t := s[1..];
      assert x in t by { assert s == [s[0]] + t; }
      RemoveFirstCutsFirstOccurrence(t, x);
      var i := FirstIndex(t, x);
      var k := FirstIndex(s, x);
      assert k == i + 1;
      assert RemoveFirst(s, x) == [s[0]] + (t[..i] + t[i + 1..]);
      assert s[..k] == [s[0]] + t[..i];
      assert s[k + 1..] == t[i + 1..];
      assert [s[0]] + (t[..i] + t[i + 1..]) == ([s[0]] + t[..i]) + t[i + 1..];
    } else {
      assert FirstIndex(s, x) == 0;
      assert s[..0] + s[1..] == s[1..];
    }
  }

  /** Removing a pointer that is not in the list changes nothing. */
  lemma {:induction false} RemoveFirstAbsent<T>(s: seq<T>, x: T)
    requires x !in s
    ensures RemoveFirst(s, x) == s
  {
    if s != [] {
      RemoveFirstAbsent(s[1..], x);
      assert s == [s[0]] + s[1..];
    }
  }

  /** In a list without duplicates, removing a pointer removes it entirely and
      keeps the list free of duplicates. */
  lemma RemoveFirstOfDistinct<T>(s: seq<T>, x: T)
    requires NoDuplicates(s)
    ensures x !in RemoveFirst(s, x)
    ensures NoDuplicates(RemoveFirst(s, x))
  {
    if x in s {
      RemoveFirstCutsFirstOccurrence(s, x);
    } else {
      RemoveFirstAbsent(s, x);
    }
  }

  /** `AbstractList.equals`: walks both lists in step and compares element by
      element; equal only when both run out together. */
  function ListEquals<T(==)>(a: seq<T>, b: seq<T>): (r: bool)
    ensures r ==> |a| == |b|
  {
    if a == [] || b == [] then a == [] && b == []
    else a[0] == b[0] && ListEquals(a[1..], b[1..])
  }

  /** Element-wise list equality is sequence equality. */
  lemma {:induction false} ListEqualsIsSeqEquality<T>(a: seq<T>, b: seq<T>)
    ensures ListEquals(a, b) <==> a == b
  {
    if a != [] && b != [] {
      ListEqualsIsSeqEquality(a[1..], b[1..]);
      assert a == [a[0]] + a[1..];
      assert b == [b[0]] + b[1..];
    }
  }

  // ---------------------------------------------------------------------------
  // XML form
  // ---------------------------------------------------------------------------

  /** A child element: its tag and its attributes. */
  datatype XmlChild = XmlChild(tag: string, attributes: map<string, string>)

  /** An XML element that children are appended to in place. */
  class Element {
    const tag: string
    var content: seq<XmlChild>

    constructor (tag: string)
      ensures this.tag == tag && content == []
    {
      this.tag := tag;
      content := [];
    }

    method AddContent(child: XmlChild)
      modifies this`content
      ensures content == old(content) + [child]
    {
      content := content + [child];
    }
  }

  /** `element.getChildren(tag)`: the children with that tag, in document order. */
  function ChildrenNamed(content: seq<XmlChild>, tag: string): (r: seq<XmlChild>)
  {
    if content == [] then []
    else (if content[0].tag == tag then [content[0]] else []) + ChildrenNamed(content[1..], tag)
  }

  /** The selected children are exactly the children that carry the tag. */
  lemma {:induction false} ChildrenNamedSelects(content: seq<XmlChild>, tag: string, c: XmlChild)
    ensures c in ChildrenNamed(content, tag) <==> c in content && c.tag == tag
  {
    if content != [] {
      ChildrenNamedSelects(content[1..], tag, c);
      assert content == [content[0]] + content[1..];
    }
  }

  /** Selecting children by tag distributes over concatenation. */
  lemma {:induction false} ChildrenNamedAppend(a: seq<XmlChild>, b: seq<XmlChild>, tag: string)
    ensures ChildrenNamed(a + b, tag) == ChildrenNamed(a, tag) + ChildrenNamed(b, tag)
  {
    if a != [] {
      var head := if a[0].tag == tag then [a[0]] else [];
      assert (a + b)[0] == a[0];
      assert (a + b)[1..] == a[1..] + b;
      ChildrenNamedAppend(a[1..], b, tag);
      calc {
        ChildrenNamed(a + b, tag);
        head + ChildrenNamed(a[1..] + b, tag);
        head + (ChildrenNamed(a[1..], tag) + ChildrenNamed(b, tag));
        (head + ChildrenNamed(a[1..], tag)) + ChildrenNamed(b, tag);
        ChildrenNamed(a, tag) + ChildrenNamed(b, tag);
      }
    } else {
      assert a + b == b;
    }
  }

  /** Children that all carry the tag are all selected, in order. */
  lemma {:induction false} ChildrenNamedAllTagged(cs: seq<XmlChild>, tag: string)
    requires forall i :: 0 <= i < |cs| ==> cs[i].tag == tag
    ensures ChildrenNamed(cs, tag) == cs
  {
    if cs != [] {
      ChildrenNamedAllTagged(cs[1..], tag);
      assert cs == [cs[0]] + cs[1..];
    }
  }

  /** The `<artifact name="...">` child written for one pointer. */
  function ArtifactChild(p: ArtifactPointer): XmlChild
  {
    XmlChild(ArtifactElement, map[NameAttribute := p.artifactName])
  }

  /** The children written for a pointer list: one per pointer, in list order,
      each an `artifact` element carrying that pointer's artifact name. */
  function ArtifactChildren(ps: seq<ArtifactPointer>): (r: seq<XmlChild>)
    ensures |r| == |ps|
    ensures forall i :: 0 <= i < |ps| ==>
      r[i].tag == ArtifactElement && r[i].attributes == map[NameAttribute := ps[i].artifactName]
  {
    if ps == [] then [] else ArtifactChildren(ps[..|ps| - 1]) + [ArtifactChild(ps[|ps| - 1])]
  }

  /** A child carries the artifact name the reader asks for. */
  predicate Named(c: XmlChild)
  {
    NameAttribute in c.attributes
  }

  /** The artifact name a named child carries. */
  function NameOf(c: XmlChild): string
    requires Named(c)
  {
    c.attributes[NameAttribute]
  }

  /** How many leading children carry a name: the reader creates pointers for
      these and stops at the first child without one. */
  function NamedPrefix(cs: seq<XmlChild>): (n: nat)
    ensures n <= |cs|
    ensures forall i :: 0 <= i < n ==> Named(cs[i])
    ensures n < |cs| ==> !Named(cs[n])
  {
    if cs == [] || !Named(cs[0]) then 0 else 1 + NamedPrefix(cs[1..])
  }

  /** The pointers created for named children: one per child, in child order,
      each for the child's `name` attribute. */
  function PointersRead(cs: seq<XmlChild>): (ps: seq<ArtifactPointer>)
    requires forall i :: 0 <= i < |cs| ==> Named(cs[i])
    ensures |ps| == |cs|
    ensures forall i :: 0 <= i < |cs| ==> ps[i].artifactName == NameOf(cs[i])
  {
    if cs == [] then []
    else PointersRead(cs[..|cs| - 1]) + [PointerForName(NameOf(cs[|cs| - 1]))]
  }

  /** The named prefix ends at the first child without a name, or at the end. */
  lemma NamedPrefixStopsAt(cs: seq<XmlChild>, i: nat)
    requires i <= |cs|
    requires forall k :: 0 <= k < i ==> Named(cs[k])
    requires i < |cs| ==> !Named(cs[i])
    ensures NamedPrefix(cs) == i
  {
  }

  /** Reading one more named child appends the pointer for its name. */
  lemma PointersReadStep(cs: seq<XmlChild>, i: nat)
    requires i < |cs|
    requires forall k :: 0 <= k <= i ==> Named(cs[k])
    ensures PointersRead(cs[..i + 1]) == PointersRead(cs[..i]) + [PointerForName(NameOf(cs[i]))]
  {
  }

  /** Reading back what was written: if the element held no `artifact` child
      before, the `artifact` children after writing `ps` are all named and read
      back as exactly `ps`. */
  lemma WriteReadRoundTrip(before: seq<XmlChild>, ps: seq<ArtifactPointer>)
    requires ChildrenNamed(before, ArtifactElement) == []
    ensures var cs := ChildrenNamed(before + ArtifactChildren(ps), ArtifactElement);
      NamedPrefix(cs) == |cs| && PointersRead(cs) == ps
  {
    var written := ArtifactChildren(ps);
    assert ChildrenNamed(before + written, ArtifactElement) == written by {
      ChildrenNamedAppend(before, written, ArtifactElement);
      ChildrenNamedAllTagged(written, ArtifactElement);
    }
    assert forall i :: 0 <= i < |written| ==> Named(written[i]);
    assert PointersRead(written) == ps by {
      var back := PointersRead(written);
      assert forall i :: 0 <= i < |ps| ==> back[i] == ps[i];
    }
  }

  // ---------------------------------------------------------------------------
  // The task
  // ---------------------------------------------------------------------------

  class BuildArtifactsBeforeRunTask {
    const project: Project
    var base: TaskBase
    var artifactPointers: seq<ArtifactPointer>

    constructor (project: Project, base: TaskBase)
      ensures this.project == project && this.base == base && artifactPointers == []
    {
      this.project := project;
      this.base := base;
      artifactPointers := [];
    }

    /** Appends one pointer per `artifact` child of `element`, in child order,
        keeping the pointers already in the list. A child without a `name`
        attribute stops the reading (`ok` is false); the pointers created for
        the children before it stay in the list. */
    method ReadExternal(element: Element) returns (ok: bool)
      modifies this`artifactPointers
      ensures var cs := ChildrenNamed(element.content, ArtifactElement);
        ok == (NamedPrefix(cs) == |cs|) &&
        artifactPointers == old(artifactPointers) + PointersRead(cs[..NamedPrefix(cs)])
    {
      var children := ChildrenNamed(element.content, ArtifactElement);
      var i := 0;
      while i < |children|
        invariant i <= |children|
        invariant forall k :: 0 <= k < i ==> Named(children[k])
        invariant artifactPointers == old(artifactPointers) + PointersRead(children[..i])
      {
        if NameAttribute !in children[i].attributes {
          NamedPrefixStopsAt(children, i);
          ok := false;
          return;
        }
        PointersReadStep(children, i);
        artifactPointers := artifactPointers + [PointerForName(NameOf(children[i]))];
        i := i + 1;
      }
      NamedPrefixStopsAt(children, i);
      assert children[..i] == children;
      ok := true;
    }

    /** Appends one `artifact` child per pointer to `element`, in list order,
        after whatever the element already holds. */
    method WriteExternal(element: Element)
      modifies element`content
      ensures element.content == old(element.content) + ArtifactChildren(artifactPointers)
    {
      var i := 0;
      while i < |artifactPointers|
        invariant i <= |artifactPointers|
        invariant element.content == old(element.content) + ArtifactChildren(artifactPointers[..i])
      {
        assert artifactPointers[..i + 1][..i] == artifactPointers[..i];
        element.AddContent(ArtifactChild(artifactPointers[i]));
        i := i + 1;
      }
      assert artifactPointers[..i] == artifactPointers;
    }

    /** A new task with the same project and base state and its own copy of
        the pointer list. */
    method Clone() returns (task: BuildArtifactsBeforeRunTask)
      ensures fresh(task)
      ensures task.project == project && task.base == base
      ensures task.artifactPointers == artifactPointers
    {
      task := new BuildArtifactsBeforeRunTask(project, base);
      task.artifactPointers := artifactPointers;
    }

    /** The number of pointers in the list. */
    method GetItemsCount() returns (n: nat)
      ensures n == |artifactPointers|
    {
      n := |artifactPointers|;
    }

    /** A read-only view of the pointer list. */
    method GetArtifactPointers() returns (ps: seq<ArtifactPointer>)
      ensures ps == artifactPointers
    {
      ps := artifactPointers;
    }

    /** Replaces the list by a copy of `ps`. */
    method SetArtifactPointers(ps: seq<ArtifactPointer>)
      modifies this`artifactPointers
      ensures artifactPointers == ps
    {
      artifactPointers := ps;
    }

    /** Adds the pointer for `artifact` at the end unless it is already there. */
    method AddArtifact(artifact: Artifact)
      modifies this`artifactPointers
      ensures artifactPointers == AddIfAbsent(old(artifactPointers), PointerFor(artifact))
    {
      var pointer := PointerFor(artifact);
      if pointer !in artifactPointers {
        artifactPointers := artifactPointers + [pointer];
      }
    }

    /** Removes the first occurrence of the pointer for `artifact`. */
    method RemoveArtifact(artifact: Artifact)
      modifies this`artifactPointers
      ensures artifactPointers == RemoveFirst(old(artifactPointers), PointerFor(artifact))
    {
      RemovePointer(PointerFor(artifact));
    }

    /** Removes the first occurrence of `pointer`, if any. */
    method RemovePointer(pointer: ArtifactPointer)
      modifies this`artifactPointers
      ensures artifactPointers == RemoveFirst(old(artifactPointers), pointer)
    {
      artifactPointers := RemoveFirst(artifactPointers, pointer);
    }

    /** Equality of tasks: the same object, or a non-null task with equal base
        state, element-wise equal pointer lists and the same project. */
    function Equals(o: BuildArtifactsBeforeRunTask?): (r: bool)
      reads this, o
      ensures r <==> o != null && base == o.base && project == o.project &&
                     artifactPointers == o.artifactPointers
    {
      if this == o then true
      else if o == null then false
      else if base != o.base then false
      else
        ListEqualsIsSeqEquality(artifactPointers, o.artifactPointers);
        ListEquals(artifactPointers, o.artifactPointers) && project == o.project
    }
  }

  /** Changing a clone leaves the original alone: after cloning `task` and
      adding an artifact to the clone, the original's list is as it was and
      the clone's list is the original's with the pointer added. */
  method AddToClone(task: BuildArtifactsBeforeRunTask, artifact: Artifact)
    returns (copy: BuildArtifactsBeforeRunTask)
    ensures fresh(copy) && unchanged(task)
    ensures copy.artifactPointers == AddIfAbsent(task.artifactPointers, PointerFor(artifact))
  {
    copy := task.Clone();
    copy.AddArtifact(artifact);
  }

  /** Writing a task into a fresh element and reading that element into a new
      task for the same project reproduces the pointer list, hence its names. */
  method WriteThenRead(task: BuildArtifactsBeforeRunTask, tag: string)
    returns (copy: BuildArtifactsBeforeRunTask, ok: bool)
    ensures ok
    ensures copy.project == task.project
    ensures copy.artifactPointers == task.artifactPointers
  {
    var element := new Element(tag);
    task.WriteExternal(element);
    copy := new BuildArtifactsBeforeRunTask(task.project, task.base);
    ok := copy.ReadExternal(element);
    WriteReadRoundTrip([], task.artifactPointers);
    assert [] + ArtifactChildren(task.artifactPointers) == ArtifactChildren(task.artifactPointers);
  }
}
