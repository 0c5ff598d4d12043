/** The timing formatters of the panel in `index.tsx`: `formatTimingValue`
    renders a dataset timing entry as text and `addTimingUnits` appends the
    unit a bare timing lacks. */
module Timing {
  import opened Strings
  import opened Types

  // ---------------------------------------------------------------------------
  // formatTimingValue

  /** The argument of `formatTimingValue`: a string, a non-null object (its
      keys and string values in key order), or anything else (null, undefined,
      a number, a boolean). */
  datatype TimingValue = TimingText(text: string) | TimingObject(fields: Table) | TimingOther

  /** The keys listed as routes: all but `_unit` and `value`. */
  predicate IsRouteKey(k: string) {
    k != "_unit" && k != "value"
  }

  /** The entries whose key is a route key, in key order. */
  function RouteFields(fields: Table): Table {
    if fields == [] then []
    else
      var init, e := fields[..|fields| - 1], fields[|fields| - 1];
      RouteFields(init) + (if IsRouteKey(e.0) then [e] else [])
  }

  /** `route.replace(/_/g, " ")`. */
  function Spaced(route: string): (r: string)
    ensures |r| == |route| && '_' !in r
  {
    seq(|route|, i requires 0 <= i < |route| => if route[i] == '_' then ' ' else route[i])
  }

  /** The length of the longest run of ASCII capitals ending `s`: what
      `/([A-Z]+)$/` captures, when it is not 0. */
  function TrailingCaps(s: string): (n: nat)
    ensures n <= |s|
    ensures forall i :: |s| - n <= i < |s| ==> IsUpperAscii(s[i])
    ensures n < |s| ==> !IsUpperAscii(s[|s| - n - 1])
  {
    if s != "" && IsUpperAscii(s[|s| - 1]) then TrailingCaps(s[..|s| - 1]) + 1 else 0
  }

  /** `s.replace(/([A-Z]+)$/, " ($1)")`: a trailing run of capitals `RUN`
      becomes ` (RUN)`. */
  function MarkTrailingCaps(s: string): string {
    var n := TrailingCaps(s);
    if n == 0 then s else s[..|s| - n] + " (" + s[|s| - n..] + ")"
  }

  /** The display name of a route: underscores become spaces and a trailing
      run of capitals `RUN` becomes ` (RUN)`. */
  function CleanRoute(route: string): string {
    MarkTrailingCaps(Spaced(route))
  }

  /** One rendered route: `${cleanRoute}: ${value[route]}`. */
  function RouteLine(e: (string, string)): string {
    CleanRoute(e.0) + ": " + e.1
  }

  function RouteLines(entries: Table): (lines: seq<string>)
    ensures |lines| == |entries|
  {
    seq(|entries|, i requires 0 <= i < |entries| => RouteLine(entries[i]))
  }

  /** `formatTimingValue(value)`. */
  function FormatTimingValue(v: TimingValue): (r: string)
    ensures v.TimingText? ==> r == v.text
    ensures v.TimingOther? ==> r == "Unknown"
    ensures v.TimingObject? && v.fields == [] ==> r == "Unknown"
    ensures v.TimingObject? && Truthy(Lookup(v.fields, "value")) ==> r == Lookup(v.fields, "value").value
  {
    match v
    case TimingText(text) => text
    case TimingOther => "Unknown"
    case TimingObject(fields) =>
      var value := Lookup(fields, "value");
      if Truthy(value) then value.value
      else
        var routes := RouteFields(fields);
        if |routes| > 0 then Join(RouteLines(routes), ", ")
        else if |fields| > 0 && fields[0].0 != "" then fields[0].1
        else "Unknown"
  }

  /** The route entries are exactly the entries with a route key. */
  lemma {:induction false} RouteFieldsMembers(fields: Table, e: (string, string))
    ensures e in RouteFields(fields) <==> e in fields && IsRouteKey(e.0)
  {
    if fields != [] {
      var init := fields[..|fields| - 1];
      assert fields == init + [fields[|fields| - 1]];
      RouteFieldsMembers(init, e);
    }
  }

  /** Filtering keeps key order: it distributes over concatenation. */
  lemma {:induction false} RouteFieldsAppend(a: Table, b: Table)
    ensures RouteFields(a + b) == RouteFields(a) + RouteFields(b)
    decreases |b|
  {
    if b == [] {
      assert a + b == a;
    } else {
      var init := b[..|b| - 1];
      assert a + b == (a + init) + [b[|b| - 1]];
      assert b == init + [b[|b| - 1]];
      RouteFieldsAppend(a, init);
    }
  }

  /** An object without a truthy `value` but with some route key renders one
      `cleanRoute: value` line per route entry, in key order, joined by ", ". */
  lemma RouteKeyedTiming(fields: Table, i: nat)
    requires !Truthy(Lookup(fields, "value"))
    requires i < |fields| && IsRouteKey(fields[i].0)
    ensures var routes := RouteFields(fields);
      FormatTimingValue(TimingObject(fields)) == Join(RouteLines(routes), ", ") &&
      forall j :: 0 <= j < |routes| ==>
        RouteLines(routes)[j] == CleanRoute(routes[j].0) + ": " + routes[j].1 && IsRouteKey(routes[j].0)
  {
    RouteFieldsMembers(fields, fields[i]);
    forall j | 0 <= j < |RouteFields(fields)|
      ensures IsRouteKey(RouteFields(fields)[j].0)
    {
      RouteFieldsMembers(fields, RouteFields(fields)[j]);
    }
  }

  /** An object whose keys are only `_unit` and `value` (the latter falsy)
      falls back to the value of its first key. */
  lemma FallbackTiming(fields: Table)
    requires !Truthy(Lookup(fields, "value")) && fields != []
    requires forall i :: 0 <= i < |fields| ==> !IsRouteKey(fields[i].0)
    ensures FormatTimingValue(TimingObject(fields)) == fields[0].1
    ensures fields[0].0 == "_unit" || fields[0].0 == "value"
  {
    if |RouteFields(fields)| > 0 {
      RouteFieldsMembers(fields, RouteFields(fields)[0]);
    }
  }

  /** Marking brings in no underscore. */
  lemma MarkTrailingCapsNoUnderscore(s: string)
    requires '_' !in s
    ensures '_' !in MarkTrailingCaps(s)
  {
    var n := TrailingCaps(s);
    if n > 0 {
      var kept, run := s[..|s| - n], s[|s| - n..];
      assert '_' !in kept && '_' !in run by {
        assert s == kept + run;
      }
      assert '_' !in " (" && '_' !in ")";
    }
  }

  /** No underscore survives in a cleaned route name. */
  lemma CleanRouteNoUnderscore(route: string)
    ensures '_' !in CleanRoute(route)
  {
    MarkTrailingCapsNoUnderscore(Spaced(route));
  }

  lemma CleanRouteOralIR()
    ensures CleanRoute("Oral_IR") == "Oral  (IR)"
  {
    var spaced := Spaced("Oral_IR");
    assert spaced == "Oral IR";
    assert TrailingCaps("Oral I") == 1 by {
      assert "Oral I"[..5] == "Oral ";
      assert TrailingCaps("Oral ") == 0;
    }
    assert "Oral IR"[..6] == "Oral I";
    assert TrailingCaps(spaced) == 2;
  }

  lemma RouteFieldsExample()
    ensures RouteFields([("_unit", "minutes"), ("Oral_IR", "30-120")]) == [("Oral_IR", "30-120")]
  {
    var fields := [("_unit", "minutes"), ("Oral_IR", "30-120")];
    assert fields[..1] == [("_unit", "minutes")];
    assert [("_unit", "minutes")][..0] == [];
  }

  /** `formatTimingValue({ _unit: "minutes", Oral_IR: "30-120" })`. */
  lemma RouteTimingExample()
    ensures FormatTimingValue(TimingObject([("_unit", "minutes"), ("Oral_IR", "30-120")])) == "Oral  (IR): 30-120"
  {
    var fields := [("_unit", "minutes"), ("Oral_IR", "30-120")];
    assert Lookup(fields, "value") == None by {
      assert fields[1..] == [("Oral_IR", "30-120")];
      assert fields[1..][1..] == [];
    }
    RouteFieldsExample();
    CleanRouteOralIR();
    assert RouteLine(("Oral_IR", "30-120")) == "Oral  (IR)" + ": " + "30-120";
    assert "Oral  (IR)" + ": " + "30-120" == "Oral  (IR): 30-120";
    assert RouteLines([("Oral_IR", "30-120")]) == ["Oral  (IR): 30-120"];
  }

  // ---------------------------------------------------------------------------
  // addTimingUnits

  /** The `type` argument of `addTimingUnits`. */
  datatype TimingKind = Onset | Duration | Aftereffects

  /** The unit each kind appends. */
  function UnitOf(kind: TimingKind): string {
    match kind
    case Onset => " minutes"
    case Duration => " hours"
    case Aftereffects => " hours"
  }

  /** The test by which `addTimingUnits` decides a unit is already present. */
  predicate HasUnit(s: string) {
    Contains(s, "hour") || Contains(s, "min") || Contains(s, "day") || Contains(s, "minutes")
  }

  /** A part with a colon: `${route}: ${timing}${unit}` from the first two
      pieces of `part.split(": ")`; `timing` is `undefined` when there is no
      second piece. */
  function RebuildPart(part: string, kind: TimingKind): string {
    var pieces := Split(part, ": ");
    pieces[0] + ": " + (if |pieces| > 1 then pieces[1] else "undefined") + UnitOf(kind)
  }

  function FormatPart(part: string, kind: TimingKind): string {
    if Contains(part, ":") then RebuildPart(part, kind) else part
  }

  function FormatParts(parts: seq<string>, kind: TimingKind): (r: seq<string>)
    ensures |r| == |parts|
  {
    seq(|parts|, i requires 0 <= i < |parts| => FormatPart(parts[i], kind))
  }

  /** `addTimingUnits(value, type)`. */
  function AddTimingUnits(value: string, kind: TimingKind): (r: string)
    ensures value == "Unknown" || HasUnit(value) ==> r == value
    ensures value != "Unknown" && !HasUnit(value) && !Contains(value, ":") ==> r == value + UnitOf(kind)
  {
    if value == "Unknown" then value
    else if HasUnit(value) then value
    else if Contains(value, ":") then Join(FormatParts(Split(value, ", "), kind), ", ")
    else value + UnitOf(kind)
  }

  lemma UnitIsMarked(kind: TimingKind)
    ensures HasUnit(UnitOf(kind))
  {
    match kind
    case Onset =>
      assert " minutes"[1..] == "minutes";
      assert "min" <= "minutes";
    case Duration =>
      assert " hours"[1..] == "hours";
      assert "hour" <= "hours";
    case Aftereffects =>
      assert " hours"[1..] == "hours";
      assert "hour" <= "hours";
  }

  lemma HasUnitRight(a: string, b: string)
    requires HasUnit(b)
    ensures HasUnit(a + b)
  {
    if Contains(b, "hour") {
      ContainsRight(a, b, "hour");
    } else if Contains(b, "min") {
      ContainsRight(a, b, "min");
    } else if Contains(b, "day") {
      ContainsRight(a, b, "day");
    } else {
      ContainsRight(a, b, "minutes");
    }
  }

  lemma HasUnitJoin(parts: seq<string>, sep: string, k: nat)
    requires k < |parts| && HasUnit(parts[k])
    ensures HasUnit(Join(parts, sep))
  {
    if Contains(parts[k], "hour") {
      JoinContains(parts, sep, k, "hour");
    } else if Contains(parts[k], "min") {
      JoinContains(parts, sep, k, "min");
    } else if Contains(parts[k], "day") {
      JoinContains(parts, sep, k, "day");
    } else {
      JoinContains(parts, sep, k, "minutes");
    }
  }

  /** A string with a colon has a `", "`-piece with a colon. */
  lemma ColonPart(value: string) returns (k: nat)
    requires Contains(value, ":")
    ensures k < |Split(value, ", ")| && Contains(Split(value, ", ")[k], ":")
  {
    var parts := Split(value, ", ");
    SplitJoin(value, ", ", "");
    ContainsChar(value, ':');
    if forall i :: 0 <= i < |parts| ==> ':' !in parts[i] {
      JoinAvoids(parts, ", ", ':');
      assert false;
    }
    k :| 0 <= k < |parts| && ':' in parts[k];
    ContainsChar(parts[k], ':');
  }

  /** Except for `"Unknown"`, every output carries a unit word: the reason a
      second pass adds nothing. */
  lemma AddTimingUnitsMarked(value: string, kind: TimingKind)
    ensures var r := AddTimingUnits(value, kind); r == "Unknown" || HasUnit(r)
  {
    if value != "Unknown" && !HasUnit(value) {
      if Contains(value, ":") {
        var k := ColonPart(value);
        var parts := Split(value, ", ");
        var route := Split(parts[k], ": ");
        var timing := if |route| > 1 then route[1] else "undefined";
        UnitIsMarked(kind);
        HasUnitRight(route[0] + ": " + timing, UnitOf(kind));
        HasUnitJoin(FormatParts(parts, kind), ", ", k);
      } else {
        UnitIsMarked(kind);
        HasUnitRight(value, UnitOf(kind));
      }
    }
  }

  /** `addTimingUnits` is idempotent. */
  lemma AddTimingUnitsIdempotent(value: string, kind: TimingKind)
    ensures AddTimingUnits(AddTimingUnits(value, kind), kind) == AddTimingUnits(value, kind)
  {
    AddTimingUnitsMarked(value, kind);
  }

  /** With a colon, the value is cut at every `", "` (the pieces rejoin to the
      value), each piece with a colon is rebuilt with the unit and every other
      piece is kept, in order. */
  lemma AddTimingUnitsRouted(value: string, kind: TimingKind)
    requires value != "Unknown" && !HasUnit(value) && Contains(value, ":")
    ensures var parts := Split(value, ", ");
      Join(parts, ", ") == value &&
      AddTimingUnits(value, kind) == Join(FormatParts(parts, kind), ", ") &&
      forall i :: 0 <= i < |parts| ==>
        FormatParts(parts, kind)[i] == if Contains(parts[i], ":") then RebuildPart(parts[i], kind) else parts[i]
  {
    SplitJoin(value, ", ", "");
  }

  /** A string without an occurrence of `sep` is one piece. */
  lemma {:induction false} SplitWhole(s: string, sep: string, piece: string)
    requires sep != "" && !Contains(s, sep)
    ensures SplitFrom(s, sep, piece) == [piece + s]
    decreases |s|
  {
    if s == "" {
      assert piece + s == piece;
    } else {
      SplitWhole(s[1..], sep, piece + [s[0]]);
      assert piece + [s[0]] + s[1..] == piece + s;
    }
  }

  /** A route free of `sep`'s first character ends the first piece. */
  lemma {:induction false} SplitAfter(r: string, rest: string, sep: string, piece: string)
    requires sep != "" && sep[0] !in r
    ensures SplitFrom(r + sep + rest, sep, piece) == [piece + r] + SplitFrom(rest, sep, "")
    decreases |r|
  {
    if r == "" {
      assert r + sep + rest == sep + rest;
      assert sep <= sep + rest;
      assert (sep + rest)[|sep|..] == rest;
      assert piece + r == piece;
    } else {
      var s := r + sep + rest;
      assert s[0] == r[0];
      assert !(sep <= s);
      assert s[1..] == r[1..] + sep + rest;
      SplitAfter(r[1..], rest, sep, piece + [r[0]]);
      assert piece + [r[0]] + r[1..] == piece + r;
    }
  }

  /** A well-formed part `route: timing` (no colon in the route, no `": "` in
      the timing) just gets the unit appended. */
  lemma RebuildRoutePart(route: string, timing: string, kind: TimingKind)
    requires ':' !in route && !Contains(timing, ": ")
    ensures RebuildPart(route + ": " + timing, kind) == route + ": " + timing + UnitOf(kind)
  {
    SplitAfter(route, timing, ": ", "");
    SplitWhole(timing, ": ", "");
    assert "" + route == route && "" + timing == timing;
  }
}
