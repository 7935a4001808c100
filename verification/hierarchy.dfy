/**
 * Logger naming: a canonical dotted name built from the fixed root, an
 * optional application segment and the caller's category.
 */
module Hierarchies {
  import opened JavaLang

  /** The name of LogService.DEFAULT_ROOT_LOG_HIERARCHY, the prefix of every logger. */
  const DefaultRootName: string := "OpenRemote"

  /** A segment takes part in the name only when it is neither null nor empty. */
  predicate Present(segment: JString)
  {
    segment.Some? && segment.value != ""
  }

  /** The segments that follow the root, in order: application, then category. */
  function Segments(app: JString, internal: JString): (segments: seq<string>)
    ensures |segments| <= 2
    ensures forall i | 0 <= i < |segments| :: segments[i] != ""
  {
    (if Present(app) then [app.value] else []) + (if Present(internal) then [internal.value] else [])
  }

  /** The canonical log hierarchy name (InternalHierarchy.getCanonicalLogHierarchyName). */
  function CanonicalNameOf(root: string, app: JString, internal: JString): (name: string)
    ensures StartsWith(name, root)
    ensures Present(internal) ==>
              |name| > |internal.value| && name[|name| - |internal.value| - 1..] == "." + internal.value
    ensures !Present(app) && !Present(internal) ==> name == root
  {
    root + (if Present(app) then "." + app.value else "") + (if Present(internal) then "." + internal.value else "")
  }

  // ---------------------------------------------------------------------------
  // Reference definition: joining with dots, and splitting at dots
  // ---------------------------------------------------------------------------

  /** `head` followed by each element of `tail`, each preceded by a dot. */
  function DottedPath(head: string, tail: seq<string>): string
    decreases |tail|
  {
    if tail == [] then head else head + "." + DottedPath(tail[0], tail[1..])
  }

  /** The pieces of `s` between dots (one more piece than `s` has dots). */
  function Split(s: string): (parts: seq<string>)
    ensures |parts| >= 1
    decreases |s|
  {
    if |s| == 0 then [""]
    else
      var rest := Split(s[1..]);
      if s[0] == '.' then [""] + rest else [[s[0]] + rest[0]] + rest[1..]
  }

  predicate DotFree(s: string)
  {
    '.' !in s
  }

  /** The canonical name is the root joined by dots with the present segments. */
  lemma CanonicalNameIsDottedPath(root: string, app: JString, internal: JString)
    ensures CanonicalNameOf(root, app, internal) == DottedPath(root, Segments(app, internal))
  {
    var segments := Segments(app, internal);
    if Present(app) && Present(internal) {
      assert segments[1..] == [internal.value];
      assert DottedPath(app.value, [internal.value]) == app.value + "." + internal.value;
    } else if Present(app) || Present(internal) {
      assert segments[1..] == [];
    }
  }

  lemma {:induction false} SplitDotFree(x: string)
    requires DotFree(x)
    ensures Split(x) == [x]
    decreases |x|
  {
    if |x| > 0 {
      SplitDotFree(x[1..]);
      assert [x[0]] + x[1..] == x;
    }
  }

  lemma {:induction false} SplitAfterDotFree(x: string, rest: string)
    requires DotFree(x)
    ensures Split(x + "." + rest) == [x] + Split(rest)
    decreases |x|
  {
    var s := x + "." + rest;
    if |x| == 0 {
      assert s[0] == '.' && s[1..] == rest;
    } else {
      assert s[0] == x[0] && s[1..] == x[1..] + "." + rest;
      SplitAfterDotFree(x[1..], rest);
      assert [x[0]] + x[1..] == x;
    }
  }

  /** Splitting a dotted path of dot-free pieces gives the pieces back. */
  lemma {:induction false} SplitDottedPath(head: string, tail: seq<string>)
    requires DotFree(head) && forall i | 0 <= i < |tail| :: DotFree(tail[i])
    ensures Split(DottedPath(head, tail)) == [head] + tail
    decreases |tail|
  {
    if tail == [] {
      SplitDotFree(head);
    } else {
      SplitDottedPath(tail[0], tail[1..]);
      SplitAfterDotFree(head, DottedPath(tail[0], tail[1..]));
      assert [tail[0]] + tail[1..] == tail;
    }
  }

  /** When no segment contains a dot, the name splits back into root and segments. */
  lemma CanonicalNameSplits(root: string, app: JString, internal: JString)
    requires DotFree(root)
    requires app.Some? ==> DotFree(app.value)
    requires internal.Some? ==> DotFree(internal.value)
    ensures Split(CanonicalNameOf(root, app, internal)) == [root] + Segments(app, internal)
  {
    CanonicalNameIsDottedPath(root, app, internal);
    SplitDottedPath(root, Segments(app, internal));
  }

  /**
   * Loggers under one root with dot-free segments have the same canonical
   * name only when they have the same present segments.
   */
  lemma CanonicalNameInjective(root: string, app1: JString, internal1: JString, app2: JString, internal2: JString)
    requires DotFree(root)
    requires app1.Some? ==> DotFree(app1.value)
    requires internal1.Some? ==> DotFree(internal1.value)
    requires app2.Some? ==> DotFree(app2.value)
    requires internal2.Some? ==> DotFree(internal2.value)
    requires CanonicalNameOf(root, app1, internal1) == CanonicalNameOf(root, app2, internal2)
    ensures Segments(app1, internal1) == Segments(app2, internal2)
  {
    CanonicalNameSplits(root, app1, internal1);
    CanonicalNameSplits(root, app2, internal2);
    assert ([root] + Segments(app1, internal1))[1..] == Segments(app1, internal1);
    assert ([root] + Segments(app2, internal2))[1..] == Segments(app2, internal2);
  }

  /** The name the facade tests expect for application "manna" and category "custom". */
  lemma DefaultApplicationName()
    ensures CanonicalNameOf(DefaultRootName, Some("manna"), Some("custom")) == "OpenRemote.manna.custom"
    ensures CanonicalNameOf(DefaultRootName, Some(""), Some("custom")) == "OpenRemote.custom"
    ensures CanonicalNameOf(DefaultRootName, None, Some("custom")) == "OpenRemote.custom"
  {
    assert Present(Some("manna")) && Present(Some("custom"));
    assert DefaultRootName + "." + "manna" + "." + "custom" == "OpenRemote.manna.custom";
    assert DefaultRootName + "." + "custom" == "OpenRemote.custom";
  }

  /**
   * A logger's place in the log tree (LogService.InternalHierarchy). The root
   * and the category are fixed at construction; the application segment can
   * be replaced afterwards.
   */
  class InternalHierarchy {
    const root: string
    var app: JString
    const internal: JString

    /** A hierarchy that is only a root name, as DEFAULT_ROOT_LOG_HIERARCHY is. */
    constructor Root(root: string)
      ensures this.root == root && app == None && internal == None
      ensures CanonicalName() == root
    {
      this.root := root;
      app := None;
      internal := None;
    }

    /** A hierarchy below `root`: the root's canonical name, an application segment and a category. */
    constructor Nested(root: InternalHierarchy, app: JString, internal: JString)
      ensures this.root == root.CanonicalName() && this.app == app && this.internal == internal
    {
      this.root := root.CanonicalName();
      this.app := app;
      this.internal := internal;
    }

    function CanonicalName(): string
      reads this
    {
      CanonicalNameOf(root, app, internal)
    }

    /** Replaces the application segment only. */
    method SetApplicationHierarchy(str: JString)
      modifies this
      ensures app == str
      ensures CanonicalName() == CanonicalNameOf(root, str, internal)
    {
      app := str;
    }
  }
}
