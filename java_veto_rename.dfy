/** The rename veto for Java elements: renaming is refused for methods the IDE
    synthesises for enums and for Java files whose name is tied to the classes
    they declare. */
module JavaVetoRename {
  import opened Wrappers

  /** A class, as far as the veto asks about it. */
  datatype PsiClass = PsiClass(isEnum: bool)

  /** The element a rename is asked for: a light (synthesised) method and its
      containing class, a Java file with what is known about it, or anything
      else. */
  datatype PsiElement =
    | LightMethod(containingClass: Option<PsiClass>)
    | JavaFile(inServerPageFile: bool, outsideJavaSourceRoot: bool, classCount: nat)
    | OtherElement

  /** True when renaming `element` is vetoed. A light method is vetoed exactly
      when its containing class is an enum; a Java file exactly when it is not
      part of a server page, lies under a Java source root and declares a
      class; nothing else is vetoed. */
  function Value(element: PsiElement): (vetoed: bool)
    ensures element.LightMethod? ==>
      (vetoed <==> element.containingClass.Some? && element.containingClass.value.isEnum)
    ensures element.JavaFile? ==>
      (vetoed <==> !element.inServerPageFile && !element.outsideJavaSourceRoot && element.classCount > 0)
    ensures element.OtherElement? ==> !vetoed
    ensures element.JavaFile? && element.classCount == 0 ==> !vetoed
  {
    if element.LightMethod? && element.containingClass.Some? && element.containingClass.value.isEnum then true
    else
      element.JavaFile? &&
      !element.inServerPageFile &&
      !element.outsideJavaSourceRoot &&
      element.classCount > 0
  }
}
