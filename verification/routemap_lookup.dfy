/** The route-table lookup `routeMap[segment]` of src/App.tsx as JavaScript
    evaluates it: the table is a plain object literal, so besides its twelve
    own keys a lookup also finds the properties every object inherits from
    `Object.prototype`. All of those are truthy (functions, or the prototype
    object itself for `__proto__`), so the matching loop pushes them too. */
module RouteMapLookup {
  import opened Wrappers
  import opened Routes
  import opened DeepLink

  /** The names `Object.prototype` provides to every object literal. */
  const InheritedKeys: set<string> := {
    "constructor", "hasOwnProperty", "isPrototypeOf", "propertyIsEnumerable",
    "toLocaleString", "toString", "valueOf", "__proto__",
    "__defineGetter__", "__defineSetter__", "__lookupGetter__", "__lookupSetter__"
  }

  /** What a lookup yields: one of the table's screens, or an inherited
      property that is not a screen at all. */
  datatype RouteValue = Own(screen: Screen) | Inherited(key: string)

  /** No inherited name is a key of the table: the two kinds of hit never
      overlap. */
  lemma InheritedAreNotKeys(segment: string)
    ensures segment in InheritedKeys ==> RouteOf(segment).None?
  {
  }

  /** `routeMap[segment]` when it is truthy. */
  function LookupAsWritten(segment: string): (v: Option<RouteValue>)
    ensures RouteOf(segment).Some? ==> v == Some(Own(RouteOf(segment).value))
    ensures segment in InheritedKeys ==> v == Some(Inherited(segment))
    ensures v.None? <==> RouteOf(segment).None? && segment !in InheritedKeys
  {
    InheritedAreNotKeys(segment);
    match RouteOf(segment)
    case Some(screen) => Some(Own(screen))
    case None => if segment in InheritedKeys then Some(Inherited(segment)) else None
  }

  /** The matching loop as written: every truthy lookup is pushed. */
  function MatchAsWritten(segments: seq<string>): (r: seq<RouteValue>)
    ensures |r| <= |segments|
    ensures forall i :: 0 <= i < |r| ==> r[i].Own? || r[i].key in InheritedKeys
    decreases |segments|
  {
    if |segments| == 0 then []
    else
      var tail := MatchAsWritten(segments[1..]);
      match LookupAsWritten(segments[0])
      case Some(v) => [v] + tail
      case None => tail
  }

  /** The screens of a match, each wrapped as an own-key hit. */
  function AsOwn(screens: seq<Screen>): (r: seq<RouteValue>)
    ensures |r| == |screens|
    ensures forall i :: 0 <= i < |r| ==> r[i] == Own(screens[i])
    decreases |screens|
  {
    if |screens| == 0 then [] else [Own(screens[0])] + AsOwn(screens[1..])
  }

  /** Away from the inherited names the lookup as written and the table
      agree: the loop pushes exactly the screens the table matches. */
  lemma {:induction false} AsWrittenAgreesOffPrototype(segments: seq<string>)
    requires forall i :: 0 <= i < |segments| ==> segments[i] !in InheritedKeys
    ensures MatchAsWritten(segments) == AsOwn(MatchRoutes(segments))
    decreases |segments|
  {
    if |segments| > 0 {
      AsWrittenAgreesOffPrototype(segments[1..]);
      var head := ImageOf(segments[0]);
      var tail := MatchRoutes(segments[1..]);
      assert MatchRoutes(segments) == head + tail;
      assert AsOwn(head + tail) == AsOwn(head) + AsOwn(tail);
    }
  }

  /** As written, the segment `constructor` (from a link such as
      `myapp://constructor`) pushes a value that is not a screen, while the
      twelve-key table matches nothing. */
  lemma ConstructorSegmentAsWritten()
    ensures MatchAsWritten(["constructor"]) == [Inherited("constructor")]
    ensures MatchRoutes(["constructor"]) == []
  {
    assert "constructor" in InheritedKeys;
    InheritedAreNotKeys("constructor");
    assert ["constructor"][1..] == [];
  }
}
