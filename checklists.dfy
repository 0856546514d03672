/** Choosing the checklist to show: the key built from the aircraft and the
    mode, and the lookup in the registry of bundled checklists by language,
    falling back to German. */
module Checklists {
  import opened Common

  /** A bundled checklist, named by the file it is loaded from. */
  datatype ChecklistData = ChecklistData(file: string)

  type LanguageTable = map<string, ChecklistData>

  /** The registry: per language, the checklists by key. */
  const Registry: map<string, LanguageTable> := map[
    "de" := map[
      "a330-normal" := ChecklistData("de/a330-normal.json"),
      "a330-career" := ChecklistData("de/a330-career.json"),
      "pc12-career" := ChecklistData("de/pc12-career.json")],
    "en" := map[
      "a330-normal" := ChecklistData("en/a330-normal.json"),
      "a330-career" := ChecklistData("en/a330-career.json"),
      "pc12-career" := ChecklistData("en/pc12-career.json")]
  ]

  datatype Aircraft = Aircraft(id: string, name: string, hasNormal: bool, hasCareer: bool)

  const AvailableAircraft: seq<Aircraft> := [
    Aircraft("a330", "Airbus A330-200", true, true),
    Aircraft("pc12", "Pilatus PC-12 NGX", false, true)
  ]

  function ModeName(isCareerMode: bool): string {
    if isCareerMode then "career" else "normal"
  }

  /** `${aircraft}-${mode}`: the aircraft id, a dash and the mode. */
  function ChecklistKey(aircraft: string, isCareerMode: bool): (k: string)
    ensures |k| == |aircraft| + 7
    ensures k[..|aircraft|] == aircraft
    ensures k[|aircraft|..] == (if isCareerMode then "-career" else "-normal")
  {
    aircraft + "-" + ModeName(isCareerMode)
  }

  /** Different aircraft or modes never share a key. */
  lemma KeyInjective(a1: string, c1: bool, a2: string, c2: bool)
    requires ChecklistKey(a1, c1) == ChecklistKey(a2, c2)
    ensures a1 == a2 && c1 == c2
  {
    var k := ChecklistKey(a1, c1);
    assert |a1| == |a2|;
    assert k[|a1|..] == (if c1 then "-career" else "-normal");
    assert k[|a2|..] == (if c2 then "-career" else "-normal");
  }

  /** The interface language, German when unset or empty. */
  function EffectiveLanguage(language: Option<string>): string {
    if language.Some? && language.value != "" then language.value else "de"
  }

  /** The checklist for the language, or the German one when the language
      has no table or its table lacks the key; nothing when neither has it. */
  function GetChecklist(language: Option<string>, aircraft: string, isCareerMode: bool): (r: Option<ChecklistData>)
    ensures var lang := EffectiveLanguage(language);
      var key := ChecklistKey(aircraft, isCareerMode);
      var table := if lang in Registry then Registry[lang] else Registry["de"];
      (key in table ==> r == Some(table[key]))
      && (key !in table && key in Registry["de"] ==> r == Some(Registry["de"][key]))
      && (key !in table && key !in Registry["de"] ==> r == None)
  {
    var lang := EffectiveLanguage(language);
    var key := ChecklistKey(aircraft, isCareerMode);
    var langChecklists := if lang in Registry then Registry[lang] else Registry["de"];
    if key in langChecklists then Some(langChecklists[key])
    else if key in Registry["de"] then Some(Registry["de"][key])
    else None
  }

  /** A language without a table shows exactly what German shows. */
  lemma UnknownLanguageIsGerman(language: string, aircraft: string, isCareerMode: bool)
    requires language !in Registry
    ensures GetChecklist(Some(language), aircraft, isCareerMode) == GetChecklist(Some("de"), aircraft, isCareerMode)
  {
  }

  /** The flags of the aircraft list say exactly which checklists the
      registry has, in every language. */
  lemma AircraftFlagsMatchRegistry()
    ensures forall lang, i :: lang in Registry && 0 <= i < |AvailableAircraft| ==>
      (AvailableAircraft[i].hasNormal <==> ChecklistKey(AvailableAircraft[i].id, false) in Registry[lang])
      && (AvailableAircraft[i].hasCareer <==> ChecklistKey(AvailableAircraft[i].id, true) in Registry[lang])
  {
    assert ChecklistKey("a330", false) == "a330-normal";
    assert ChecklistKey("a330", true) == "a330-career";
    assert ChecklistKey("pc12", false) == "pc12-normal";
    assert ChecklistKey("pc12", true) == "pc12-career";
    assert Registry.Keys == {"de", "en"};
  }

  /** Every flagged checklist is found, whatever the interface language. */
  lemma FlaggedChecklistsFound(language: Option<string>, i: nat, isCareerMode: bool)
    requires i < |AvailableAircraft|
    requires if isCareerMode then AvailableAircraft[i].hasCareer else AvailableAircraft[i].hasNormal
    ensures GetChecklist(language, AvailableAircraft[i].id, isCareerMode).Some?
  {
    AircraftFlagsMatchRegistry();
  }
}
