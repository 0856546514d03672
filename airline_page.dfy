/** The airline page: validation of the create form, the airline icon, the
    flight-hours text and which membership actions are offered. */
module AirlinePage {
  import opened Common
  import opened TimeText

  // ---------------------------------------------------------------------------
  // Icons

  /** The fifteen predefined icons as (id, emoji) pairs. */
  const AirlineIcons: seq<(string, string)> := [
    ("plane", "\U{2708}\U{FE0F}"),
    ("turbine", "\U{1F300}"),
    ("jet", "\U{1F6E9}\U{FE0F}"),
    ("takeoff", "\U{1F6EB}"),
    ("landing", "\U{1F6EC}"),
    ("rocket", "\U{1F680}"),
    ("globe", "\U{1F30D}"),
    ("star", "\U{2B50}"),
    ("crown", "\U{1F451}"),
    ("eagle", "\U{1F985}"),
    ("lightning", "\U{26A1}"),
    ("shield", "\U{1F6E1}\U{FE0F}"),
    ("diamond", "\U{1F48E}"),
    ("fire", "\U{1F525}"),
    ("wing", "\U{1FABD}")
  ]

  /** The icon shown for an unknown id: the plane. */
  const DefaultIcon: string := "\U{2708}\U{FE0F}"

  /** The emoji of the first entry with the id, as `find` returns it. */
  function FindIcon(icons: seq<(string, string)>, iconId: string): (r: Option<string>)
    ensures r.None? <==> forall k :: 0 <= k < |icons| ==> icons[k].0 != iconId
    ensures r.Some? ==> exists k :: 0 <= k < |icons| && icons[k] == (iconId, r.value)
  {
    if icons == [] then None
    else if icons[0].0 == iconId then Some(icons[0].1)
    else
      var r := FindIcon(icons[1..], iconId);
      assert r.Some? ==> exists k :: 0 <= k < |icons[1..]| && icons[1..][k] == (iconId, r.value);
      r
  }

  /** The matching emoji, or the plane for an id not in the table. */
  function GetIconEmoji(iconId: string): (r: string)
    ensures (forall k :: 0 <= k < |AirlineIcons| ==> AirlineIcons[k].0 != iconId) ==> r == DefaultIcon
    ensures forall k :: 0 <= k < |AirlineIcons| && AirlineIcons[k].0 == iconId ==> r == AirlineIcons[k].1
  {
    IconIdsDistinct();
    var found := FindIcon(AirlineIcons, iconId);
    if found.Some? then found.value else DefaultIcon
  }

  /** Every id appears once, so the first match is the only one. */
  lemma IconIdsDistinct()
    ensures |AirlineIcons| == 15
    ensures forall i, j :: 0 <= i < j < |AirlineIcons| ==> AirlineIcons[i].0 != AirlineIcons[j].0
  {
  }

  // ---------------------------------------------------------------------------
  // Flight hours

  /** '0h' for a missing or zero time, otherwise the whole hours. For a
      non-negative time the text reads back as the hour in which that many
      seconds fall. */
  function FormatHours(seconds: Option<real>): (r: string)
    ensures seconds.None? || seconds.value == 0.0 ==> r == "0h"
    ensures seconds.Some? && seconds.value >= 0.0 ==>
      ParseHours(r).Some?
      && (ParseHours(r).value * 3600) as real <= seconds.value < (ParseHours(r).value * 3600 + 3600) as real
  {
    if seconds.None? || seconds.value == 0.0 then "0h"
    else
      var s := seconds.value;
      if s >= 0.0 then
        WholeHours(s);
        HoursText(Hours(s))
      else HoursText(Hours(s))
  }

  lemma WholeHours(s: real)
    requires s >= 0.0
    ensures Hours(s) >= 0 && ParseHours(HoursText(Hours(s))) == Some(Hours(s))
    ensures (Hours(s) * 3600) as real <= s < (Hours(s) * 3600 + 3600) as real
  {
    HoursMinutesBounds(s);
    HoursRoundTrip(Hours(s));
  }

  // ---------------------------------------------------------------------------
  // Create form

  /** Outcome of the checks run before an airline is created. */
  datatype CreateCheck = Accepted | NameMissing | BadCode

  /** The checks as written: a name blank after trimming is rejected first;
      then the code is rejected when it is blank after trimming or when its
      untrimmed length is outside 2..4. */
  function ValidateCreateFormAsWritten(name: string, code: string): (r: CreateCheck)
    ensures r == NameMissing <==> Trim(name) == []
    ensures r == Accepted <==> Trim(name) != [] && Trim(code) != [] && 2 <= |code| <= 4
  {
    if Trim(name) == [] then NameMissing
    else if Trim(code) == [] || |code| < 2 || |code| > 4 then BadCode
    else Accepted
  }

  /** The length check counts surrounding blanks, so a one-character code
      followed by a space passes it, as "A " does. */
  lemma {:induction false} OneLetterCodeAccepted(name: string, c: char)
    requires !AllWhiteSpace(name) && !IsWhiteSpace(c)
    ensures ValidateCreateFormAsWritten(name, [c, ' ']) == Accepted
    ensures |Trim([c, ' '])| == 1
  {
    var code := [c, ' '];
    assert TrimStart(code) == code;
    assert code[..1] == [c];
    assert TrimEnd(code) == TrimEnd([c]);
    assert TrimEnd([c]) == [c];
  }

  /** The checks with the length taken after trimming, which the form's own
      label ("2-4 characters") asks for. */
  function ValidateCreateForm(name: string, code: string): (r: CreateCheck)
    ensures r == NameMissing <==> Trim(name) == []
    ensures r == Accepted <==> Trim(name) != [] && 2 <= |Trim(code)| <= 4
  {
    if Trim(name) == [] then NameMissing
    else if |Trim(code)| < 2 || |Trim(code)| > 4 then BadCode
    else Accepted
  }

  /** The corrected checks accept exactly the codes of two to four
      characters once trimmed, and on a code without surrounding blanks they
      agree with the checks as written. */
  lemma {:induction false} CorrectedCheckAgreesOnTrimmedCodes(name: string, code: string)
    requires code == [] || (!IsWhiteSpace(code[0]) && !IsWhiteSpace(code[|code| - 1]))
    ensures ValidateCreateForm(name, code) == ValidateCreateFormAsWritten(name, code)
  {
    TrimOfUntrimmed(code);
    ChecksAgreeWhenTrimmed(name, code);
  }

  /** The corrected checks reject the one-character code the written ones
      let through. */
  lemma {:induction false} CorrectedRejectsOneLetterCode(name: string, c: char)
    requires !AllWhiteSpace(name) && !IsWhiteSpace(c)
    ensures ValidateCreateForm(name, [c, ' ']) == BadCode
  {
    OneLetterCodeAccepted(name, c);
  }

  lemma ChecksAgreeWhenTrimmed(name: string, code: string)
    requires Trim(code) == code
    ensures ValidateCreateForm(name, code) == ValidateCreateFormAsWritten(name, code)
  {
    if Trim(name) != [] && code == [] {
      assert ValidateCreateForm(name, code) == BadCode;
    }
  }

  // ---------------------------------------------------------------------------
  // Membership actions

  /** The signed-in pilot's membership as the page loads it. */
  datatype Membership = Membership(role: string, memberCount: int)

  predicate IsCeo(myAirline: Option<Membership>) {
    myAirline.Some? && myAirline.value.role == "ceo"
  }

  /** Which of the buttons "leave" and "delete" the page shows. */
  function MembershipActions(myAirline: Option<Membership>): (r: (bool, bool))
    ensures r.0 <==> !IsCeo(myAirline)
    ensures r.1 <==> IsCeo(myAirline) && myAirline.value.memberCount <= 1
  {
    var isCeo := IsCeo(myAirline);
    (!isCeo, isCeo && myAirline.value.memberCount <= 1)
  }

  /** Never both buttons at once, and a CEO with other members can neither
      leave nor delete the airline. */
  lemma ActionsExclusive(myAirline: Option<Membership>)
    ensures !(MembershipActions(myAirline).0 && MembershipActions(myAirline).1)
    ensures IsCeo(myAirline) && myAirline.value.memberCount > 1 ==> MembershipActions(myAirline) == (false, false)
  {
  }
}
