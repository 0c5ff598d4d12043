/** The normaliser of `database.ts`: turns one raw record of the dataset into
    a `SubstanceResponse` (`processSubstanceData`), synthesising a placeholder
    for empty records (`createPlaceholderSubstance`, `formatSubstanceName`). */
module Normalizer {
  import opened Strings
  import opened Types

  const FullSource := "TripSit Database"
  const LimitedSource := "TripSit Database (Limited Data)"
  const PlaceholderSummarySuffix := " is a substance listed in the database with limited available information. Always research thoroughly and exercise extreme caution."
  const FallbackSummarySuffix := " is a substance with limited available information."
  const Caution := "Limited information available. Exercise extreme caution. Always test substances and start with minimal doses if choosing to use."

  // ---------------------------------------------------------------------------
  // formatSubstanceName

  /** The separators of `key.split(/[-_\s]/)`: one character each. */
  predicate IsNameSeparator(c: char) {
    c == '-' || c == '_' || IsSpace(c)
  }

  /** `s.split(/[-_\s]/)`, with `word` the part of the current word read so far. */
  function WordsFrom(s: string, word: string): (words: seq<string>)
    ensures |words| >= 1
    decreases |s|
  {
    if s == "" then [word]
    else if IsNameSeparator(s[0]) then [word] + WordsFrom(s[1..], "")
    else WordsFrom(s[1..], word + [s[0]])
  }

  /** `word.charAt(0).toUpperCase() + word.slice(1)`. */
  function Capitalize(word: string): string {
    if word == "" then "" else [UpperChar(word[0])] + word[1..]
  }

  /** `formatSubstanceName(key)`: split on single separator characters,
      capitalise each word, join with single spaces. */
  function FormatSubstanceName(key: string): string {
    var words := WordsFrom(key, "");
    Join(seq(|words|, i requires 0 <= i < |words| => Capitalize(words[i])), " ")
  }

  /** What `formatSubstanceName` does to the character at position `i`. */
  function TitleCaseAt(s: string, i: nat): char
    requires i < |s|
  {
    if IsNameSeparator(s[i]) then ' '
    else if i == 0 || IsNameSeparator(s[i - 1]) then UpperChar(s[i])
    else s[i]
  }

  /** The character-wise reading of `formatSubstanceName`. */
  function TitleCase(s: string): string {
    seq(|s|, i requires 0 <= i < |s| => TitleCaseAt(s, i))
  }

  lemma TitleCaseWord(w: string)
    requires forall i :: 0 <= i < |w| ==> !IsNameSeparator(w[i])
    ensures Capitalize(w) == TitleCase(w)
  {
  }

  lemma TitleCaseSplit(w: string, s: string)
    requires s != "" && IsNameSeparator(s[0])
    ensures TitleCase(w + s) == TitleCase(w) + " " + TitleCase(s[1..])
  {
    var l, r := TitleCase(w + s), TitleCase(w) + " " + TitleCase(s[1..]);
    assert |l| == |r|;
    forall i | 0 <= i < |l| ensures l[i] == r[i] {
      if i > |w| {
        assert (w + s)[i] == s[1..][i - |w| - 1];
        assert (w + s)[i - 1] == if i - 1 == |w| then s[0] else s[1..][i - |w| - 2];
      }
    }
  }

  lemma {:induction false} WordsFromTitleCase(s: string, word: string)
    requires forall i :: 0 <= i < |word| ==> !IsNameSeparator(word[i])
    ensures var words := WordsFrom(s, word);
            Join(seq(|words|, i requires 0 <= i < |words| => Capitalize(words[i])), " ")
              == TitleCase(word + s)
    decreases |s|
  {
    var words := WordsFrom(s, word);
    var caps := seq(|words|, i requires 0 <= i < |words| => Capitalize(words[i]));
    if s == "" {
      assert word + s == word;
      TitleCaseWord(word);
    } else if IsNameSeparator(s[0]) {
      var rest := WordsFrom(s[1..], "");
      var restCaps := seq(|rest|, i requires 0 <= i < |rest| => Capitalize(rest[i]));
      WordsFromTitleCase(s[1..], "");
      assert "" + s[1..] == s[1..];
      assert caps[1..] == restCaps;
      TitleCaseWord(word);
      TitleCaseSplit(word, s);
    } else {
      WordsFromTitleCase(s[1..], word + [s[0]]);
      assert word + [s[0]] + s[1..] == word + s;
    }
  }

  /** `formatSubstanceName` replaces each separator by one space and
      upper-cases the first character of every word, leaving the rest as is. */
  lemma FormatSubstanceNameCharwise(key: string)
    ensures FormatSubstanceName(key) == TitleCase(key)
  {
    WordsFromTitleCase(key, "");
    assert "" + key == key;
  }

  /** The formatted name is exactly as long as the key, so it is non-empty
      whenever the key is. */
  lemma FormatSubstanceNameLength(key: string)
    ensures |FormatSubstanceName(key)| == |key|
  {
    FormatSubstanceNameCharwise(key);
  }

  /** Formatting an already formatted name changes nothing. */
  lemma FormatSubstanceNameIdempotent(key: string)
    ensures FormatSubstanceName(FormatSubstanceName(key)) == FormatSubstanceName(key)
  {
    FormatSubstanceNameCharwise(key);
    var t := TitleCase(key);
    FormatSubstanceNameCharwise(t);
    forall i | 0 <= i < |t| ensures IsNameSeparator(t[i]) <==> IsNameSeparator(key[i]) {
    }
    forall i | 0 <= i < |t| ensures TitleCaseAt(t, i) == t[i] {
    }
  }

  // ---------------------------------------------------------------------------
  // createPlaceholderSubstance

  /** An entry of the fixed table of well-known substances. */
  datatype Curated = Curated(aliases: seq<string>, categories: seq<string>, summary: string)

  /** The curated summaries of the seven well-known substances. */
  const MethamphetamineSummary := "A powerful central nervous system stimulant. Highly addictive and illegal in most jurisdictions. Associated with serious health risks including cardiovascular problems, psychosis, and addiction."
  const HeroinSummary := "An illegal opioid derived from morphine. Extremely addictive and dangerous, with high overdose risk. Associated with respiratory depression and death."
  const CocaineSummary := "A powerful stimulant derived from coca plants. Highly addictive and illegal. Associated with cardiovascular risks, addiction, and various health complications."
  const MdmaSummary := "A psychoactive drug primarily used recreationally. Known for its empathogenic and stimulant effects. Illegal in most jurisdictions with potential for addiction and adverse effects."
  const LsdSummary := "A potent psychedelic drug. Known for causing altered states of consciousness and hallucinations. Long duration (8-12 hours). Illegal in most jurisdictions."
  const CannabisSummary := "A psychoactive drug from the Cannabis plant. Effects include relaxation, altered perception, and appetite increase. Legal status varies by jurisdiction."
  const AlcoholSummary := "A central nervous system depressant. Legal in most jurisdictions for adults. Can be addictive and cause serious health problems with chronic use."

  /** `commonSubstances[key]`: the curated data for the seven known keys. */
  function CommonSubstance(key: string): Option<Curated> {
    if key == "methamphetamine" then
      Some(Curated(["meth", "crystal", "ice", "glass"], ["stimulant", "habit-forming"], MethamphetamineSummary))
    else if key == "heroin" then
      Some(Curated(["smack", "h", "dope", "junk"], ["depressant", "habit-forming"], HeroinSummary))
    else if key == "cocaine" then
      Some(Curated(["coke", "blow", "snow", "powder"], ["stimulant", "habit-forming"], CocaineSummary))
    else if key == "mdma" then
      Some(Curated(["ecstasy", "molly", "x", "e"], ["empathogen", "stimulant"], MdmaSummary))
    else if key == "lsd" then
      Some(Curated(["acid", "lucy", "tabs", "doses"], ["psychedelic"], LsdSummary))
    else if key == "cannabis" then
      Some(Curated(["marijuana", "weed", "pot", "grass"], ["depressant", "psychedelic"], CannabisSummary))
    else if key == "alcohol" then
      Some(Curated(["ethanol", "booze", "liquor"], ["depressant", "habit-forming"], AlcoholSummary))
    else None
  }

  /** `createPlaceholderSubstance(key)`. */
  function Placeholder(key: string): (s: Substance)
    ensures s.name == FormatSubstanceName(key)
    ensures key != "" ==> s.name != ""
    ensures s.summary != ""
    ensures s.source == LimitedSource && s.warnings == Some(Caution) && s.roas == None
    ensures CommonSubstance(key).Some? ==>
              var c := CommonSubstance(key).value;
              s.aliases == c.aliases && s.categories == c.categories && s.summary == c.summary
    ensures CommonSubstance(key).None? ==>
              s.aliases == [] && s.categories == ["research-chemical"]
  {
    FormatSubstanceNameLength(key);
    var name := FormatSubstanceName(key);
    match CommonSubstance(key)
    case Some(c) =>
      Substance(name, c.aliases, c.summary, c.categories, Some(Caution), None, LimitedSource)
    case None =>
      Substance(name, [], name + PlaceholderSummarySuffix,
                ["research-chemical"], Some(Caution), None, LimitedSource)
  }

  // ---------------------------------------------------------------------------
  // processSubstanceData: the specification

  /** `!data || Object.keys(data).length === 0`. */
  predicate IsEmptyRecord(data: RawRecord) {
    || data.Missing?
    || (&& data.name.None? && data.prettyName.None? && data.aliases.None?
        && data.categories.None? && data.properties.None? && data.formattedEffects.None?
        && data.formattedDose.None? && data.formattedOnset.None? && data.formattedDuration.None?
        && data.doseNote.None? && data.otherFields == [])
  }

  /** `data.formatted_onset?.[route]`. */
  function OnsetAt(data: RawRecord, route: string): Option<string>
    requires data.Record?
  {
    if data.formattedOnset.Some? then Lookup(data.formattedOnset.value, route) else None
  }

  /** `data.formatted_duration?.[route]`. */
  function DurationAt(data: RawRecord, route: string): Option<string>
    requires data.Record?
  {
    if data.formattedDuration.Some? then Lookup(data.formattedDuration.value, route) else None
  }

  function OnsetText(minutes: string): string { "Onset: " + minutes + " minutes" }

  function DurationText(hours: string): string { "Duration: " + hours + " hours" }

  /** The notes of a route: onset text, duration text, or both joined by ", ". */
  function RouteNotes(onset: Option<string>, duration: Option<string>): (notes: Option<string>)
    ensures notes.Some? <==> Truthy(onset) || Truthy(duration)
    ensures notes.Some? ==> notes.value != ""
  {
    if Truthy(onset) && Truthy(duration) then Some(OnsetText(onset.value) + ", " + DurationText(duration.value))
    else if Truthy(onset) then Some(OnsetText(onset.value))
    else if Truthy(duration) then Some(DurationText(duration.value))
    else None
  }

  /** The route described by one `formatted_dose` entry, if its value is an object. */
  function RouteEntry(data: RawRecord, entry: (string, DoseValue)): seq<Route>
    requires data.Record?
  {
    if entry.1.DoseObject? then [Route(entry.0, RouteNotes(OnsetAt(data, entry.0), DurationAt(data, entry.0)))] else []
  }

  /** The per-route entries built from `formatted_dose`, in key order. */
  function RouteEntries(data: RawRecord, dose: seq<(string, DoseValue)>): (routes: seq<Route>)
    requires data.Record?
    ensures routes == [] <==> forall i :: 0 <= i < |dose| ==> dose[i].1.NonObject?
    ensures forall r :: r in routes <==>
              exists i :: 0 <= i < |dose| && dose[i].1.DoseObject? && r == RouteEntry(data, dose[i])[0]
  {
    if dose == [] then []
    else
      var init := dose[..|dose| - 1];
      assert forall i :: 0 <= i < |init| ==> init[i] == dose[i];
      RouteEntries(data, init) + RouteEntry(data, dose[|dose| - 1])
  }

  /** The routes of administration before the `roas.length > 0` test: the
      per-route entries, else one "General" entry from the scalar timings. */
  function RoutesOf(data: RawRecord): (routes: seq<Route>)
    requires data.Record?
  {
    var perRoute := if data.formattedDose.Some? then RouteEntries(data, data.formattedDose.value) else [];
    if perRoute != [] then perRoute
    else
      var onset, duration := OnsetAt(data, "value"), DurationAt(data, "value");
      if Truthy(onset) || Truthy(duration) then [Route("General", RouteNotes(onset, duration))] else []
  }

  /** `/NOTE:/i` matches at position `i` (ASCII case folding, as for a regular
      expression without the `u` flag). */
  predicate MarkerAt(s: string, i: nat) {
    i + 5 <= |s| && Upper(s[i..i + 5]) == "NOTE:"
  }

  /** The leftmost position at or after `from` where the marker matches. */
  function FindMarker(s: string, from: nat): (r: Option<nat>)
    ensures r.Some? ==> from <= r.value && MarkerAt(s, r.value)
    ensures forall j :: from <= j && (r.None? || j < r.value) ==> !MarkerAt(s, j)
    decreases |s| - from
  {
    if from + 5 > |s| then None
    else if MarkerAt(s, from) then Some(from)
    else FindMarker(s, from + 1)
  }

  /** `note.replace(/NOTE:\s*\/i, "")`: removes the first marker and the white
      space after it. */
  function RemoveMarker(note: string): string {
    match FindMarker(note, 0)
    case None => note
    case Some(i) => note[..i] + TrimStart(note[i + 5..])
  }

  /** The `warnings` field of a full record. */
  function WarningsOf(data: RawRecord): (w: Option<string>)
    requires data.Record?
    ensures w.Some? ==> data.doseNote.Some? && Contains(data.doseNote.value, "NOTE:")
    ensures w.Some? ==> w.value != "" && !IsSpace(w.value[0]) && !IsSpace(w.value[|w.value| - 1])
  {
    if Truthy(data.doseNote) && Contains(data.doseNote.value, "NOTE:") then
      var text := Trim(RemoveMarker(data.doseNote.value));
      if text != "" then Some(text) else None
    else None
  }

  /** The summary computed before the fallback (`""` when there is none). */
  function SummaryOf(data: RawRecord): string
    requires data.Record?
  {
    if data.properties.Some? && Truthy(data.properties.value.summary) then data.properties.value.summary.value
    else if data.formattedEffects.Some? then "Effects include: " + Join(data.formattedEffects.value, ", ")
    else ""
  }

  /** `a || b` on strings. */
  function Or(a: Option<string>, b: string): string {
    if Truthy(a) then a.value else b
  }

  /** `processSubstanceData(key, data)`. */
  function Processed(key: string, data: RawRecord): Substance {
    if IsEmptyRecord(data) then Placeholder(key)
    else
      var summary := SummaryOf(data);
      var routes := RoutesOf(data);
      Substance(
        Or(data.prettyName, Or(data.name, key)),
        if data.aliases.Some? then data.aliases.value else [],
        if summary != "" then summary else Or(data.prettyName, key) + FallbackSummarySuffix,
        if data.categories.Some? then data.categories.value else [],
        WarningsOf(data),
        if |routes| > 0 then Some(routes) else None,
        FullSource)
  }

  // ---------------------------------------------------------------------------
  // processSubstanceData: the step-by-step computation

  /** The routes of `processSubstanceData`: one pushed per object-valued
      `formatted_dose` route while walking its keys, then the "General" entry
      when none was pushed. */
  method CollectRoutes(data: RawRecord) returns (roas: seq<Route>)
    requires data.Record?
    ensures roas == RoutesOf(data)
  {
    roas := [];
    if data.formattedDose.Some? {
      var dose := data.formattedDose.value;
      for i := 0 to |dose|
        invariant roas == RouteEntries(data, dose[..i])
      {
        var (route, routeData) := dose[i];
        if routeData.DoseObject? {
          var notes: Option<string> := None;
          var onset := OnsetAt(data, route);
          if Truthy(onset) {
            notes := Some(OnsetText(onset.value));
          }
          var duration := DurationAt(data, route);
          if Truthy(duration) {
            var existing := if notes.Some? then notes.value else "";
            notes := if existing != "" then Some(existing + ", " + DurationText(duration.value))
                     else Some(DurationText(duration.value));
          }
          assert notes == RouteNotes(onset, duration);
          roas := roas + [Route(route, notes)];
        }
        assert dose[..i + 1][..i] == dose[..i];
        assert RouteEntries(data, dose[..i + 1]) == RouteEntries(data, dose[..i]) + RouteEntry(data, dose[i]);
      }
      assert dose[..|dose|] == dose;
    }

    if |roas| == 0 {
      var onset, duration := OnsetAt(data, "value"), DurationAt(data, "value");
      if Truthy(onset) || Truthy(duration) {
        var notes := "";
        if Truthy(onset) {
          notes := notes + OnsetText(onset.value);
          assert notes == OnsetText(onset.value);
        }
        if Truthy(duration) {
          if notes != "" {
            notes := notes + ", ";
          }
          assert notes == "" ==> notes + DurationText(duration.value) == DurationText(duration.value);
          notes := notes + DurationText(duration.value);
        }
        assert Some(notes) == RouteNotes(onset, duration);
        if notes != "" {
          roas := roas + [Route("General", Some(notes))];
        }
      }
    }
  }

  /** `processSubstanceData(key, data)` as the source computes it, reassigning
      the summary and the warnings step by step. */
  method ProcessSubstanceData(key: string, data: RawRecord) returns (s: Substance)
    ensures s == Processed(key, data)
  {
    if IsEmptyRecord(data) {
      return Placeholder(key);
    }
    var aliases := if data.aliases.Some? then data.aliases.value else [];
    var categories := if data.categories.Some? then data.categories.value else [];

    var summary := "";
    if data.properties.Some? && Truthy(data.properties.value.summary) {
      summary := data.properties.value.summary.value;
    } else if data.formattedEffects.Some? {
      summary := "Effects include: " + Join(data.formattedEffects.value, ", ");
    }

    var roas := CollectRoutes(data);

    var warnings := "";
    if Truthy(data.doseNote) && Contains(data.doseNote.value, "NOTE:") {
      warnings := Trim(RemoveMarker(data.doseNote.value));
    }

    s := Substance(
      Or(data.prettyName, Or(data.name, key)),
      aliases,
      if summary != "" then summary else Or(data.prettyName, key) + FallbackSummarySuffix,
      categories,
      if warnings != "" then Some(warnings) else None,
      if |roas| > 0 then Some(roas) else None,
      FullSource);
  }

  // ---------------------------------------------------------------------------
  // Properties of the normaliser

  /** Every record, empty or not, yields a substance with a non-empty summary,
      and a non-empty name unless the key itself is empty. */
  lemma ProcessedNameAndSummary(key: string, data: RawRecord)
    ensures Processed(key, data).summary != ""
    ensures key != "" ==> Processed(key, data).name != ""
  {
  }

  /** Empty records are exactly the ones that get the placeholder. */
  lemma ProcessedEmpty(key: string, data: RawRecord)
    ensures IsEmptyRecord(data) ==> Processed(key, data) == Placeholder(key)
    ensures !IsEmptyRecord(data) ==> Processed(key, data).source == FullSource
  {
  }

  /** The fields of a full record: name from `pretty_name || name || key`,
      aliases and categories defaulting to `[]`, and the summary from
      `properties.summary`, else the joined `formatted_effects`, else the
      generated sentence about `pretty_name || key` (which skips `name`). */
  lemma ProcessedFull(key: string, data: RawRecord)
    requires !IsEmptyRecord(data)
    ensures var s := Processed(key, data);
      && s.name == (if Truthy(data.prettyName) then data.prettyName.value
                    else if Truthy(data.name) then data.name.value else key)
      && (data.aliases.None? ==> s.aliases == []) && (data.aliases.Some? ==> s.aliases == data.aliases.value)
      && (data.categories.None? ==> s.categories == []) && (data.categories.Some? ==> s.categories == data.categories.value)
      && (data.properties.Some? && Truthy(data.properties.value.summary) ==> s.summary == data.properties.value.summary.value)
      && (!(data.properties.Some? && Truthy(data.properties.value.summary)) && data.formattedEffects.Some? ==>
            s.summary == "Effects include: " + Join(data.formattedEffects.value, ", "))
      && (!(data.properties.Some? && Truthy(data.properties.value.summary)) && data.formattedEffects.None? ==>
            s.summary == Or(data.prettyName, key) + FallbackSummarySuffix)
  {
  }

  /** The warnings of a full record appear only when the dose note contains
      "NOTE:" and are the trimmed, non-empty text left once the first marker
      (in any case) and the white space after it are removed. */
  lemma ProcessedWarnings(key: string, data: RawRecord)
    requires data.Record? && !IsEmptyRecord(data)
    ensures var w := Processed(key, data).warnings;
      && (w.Some? <==> (&& data.doseNote.Some? && Contains(data.doseNote.value, "NOTE:")
                        && Trim(RemoveMarker(data.doseNote.value)) != ""))
      && (w.Some? ==> w.value == Trim(RemoveMarker(data.doseNote.value)))
      && (w.Some? ==> FindMarker(data.doseNote.value, 0).Some?)
      && (w.Some? ==> !IsSpace(w.value[0]) && !IsSpace(w.value[|w.value| - 1]))
  {
    if data.doseNote.Some? && Contains(data.doseNote.value, "NOTE:") {
      MarkerFound(data.doseNote.value, 0);
    }
  }

  /** The case-sensitive presence test implies that the case-insensitive
      marker is found, no later than the exact occurrence. */
  lemma {:induction false} MarkerFound(s: string, from: nat)
    requires from <= |s| && Contains(s[from..], "NOTE:")
    ensures FindMarker(s, from).Some?
    decreases |s| - from
  {
    if "NOTE:" <= s[from..] {
      assert s[from..from + 5] == "NOTE:";
      assert MarkerAt(s, from);
    } else {
      assert s[from..][1..] == s[from + 1..];
      MarkerFound(s, from + 1);
    }
  }

  /** Routes of a full record: none exactly when there is no object-valued
      dose route and no scalar onset or duration; the per-route entries when
      any route is object-valued; otherwise a single "General" entry. */
  lemma ProcessedRoutes(key: string, data: RawRecord)
    requires data.Record? && !IsEmptyRecord(data)
    ensures var roas := Processed(key, data).roas;
      var dose := if data.formattedDose.Some? then data.formattedDose.value else [];
      var anyRoute := exists i :: 0 <= i < |dose| && dose[i].1.DoseObject?;
      var general := Truthy(OnsetAt(data, "value")) || Truthy(DurationAt(data, "value"));
      && (roas.None? <==> !anyRoute && !general)
      && (roas.Some? ==> roas.value != [])
      && (anyRoute ==> roas == Some(RouteEntries(data, dose)))
      && (!anyRoute && general ==>
            roas == Some([Route("General", RouteNotes(OnsetAt(data, "value"), DurationAt(data, "value")))]))
      && (roas.Some? ==> forall r :: r in roas.value ==> r.name == "General" || exists i :: 0 <= i < |dose| && dose[i].0 == r.name && dose[i].1.DoseObject?)
  {
    var dose := if data.formattedDose.Some? then data.formattedDose.value else [];
    var perRoute := RouteEntries(data, dose);
    forall r | r in perRoute ensures exists i :: 0 <= i < |dose| && dose[i].0 == r.name && dose[i].1.DoseObject? {
      var i :| 0 <= i < |dose| && dose[i].1.DoseObject? && r == RouteEntry(data, dose[i])[0];
    }
  }

  /** An entry of the curated table: an empty `methamphetamine` record gives
      the curated placeholder with the limited-data label. */
  lemma PlaceholderMethamphetamine()
    ensures var s := Processed("methamphetamine", Missing);
      "meth" in s.aliases && "stimulant" in s.categories && s.source == LimitedSource
  {
  }
}
