/** The classifier: which events deserve a penalty alert, and under which of
    the three rules. */
module Rules {
  import opened Feed
  import opened Strings

  /** The canned fragments of the exact-addition vocabulary (their emoji and
      wording are not modelled). */
  datatype Notice = PenaltyConfirmedByVar | FoulInBox | CardInBox | RedCardInBox

  /** `EVENTOS_CAPTURADOS`: the additions captured verbatim, case-sensitively. */
  const Captured: map<string, Notice> := map[
    "Penalty confirmed" := PenaltyConfirmedByVar,
    "Foul" := FoulInBox,
    "Yellow Card" := CardInBox,
    "Red Card" := RedCardInBox]

  /** The event types the in-box rule looks at. */
  const BoxTypes: seq<string> := ["Foul", "Yellow Card", "Red Card"]

  /** Every type the in-box rule accepts has a canned fragment, so looking its
      fragment up cannot fail. */
  lemma BoxTypesAreCaptured()
    ensures forall t :: t in BoxTypes ==> t in Captured
  {
  }

  // ------------------------------------------- `^\d+(st|nd|rd|th) Penalty$`

  const Suffixes: set<string> := {"st", "nd", "rd", "th"}

  /** " Penalty" in lower case, with or without the one final newline that
      Python's `$` lets through. */
  const Tails: set<string> := {" penalty", " penalty\n"}

  /** Length of the run of ASCII digits at the front of `s`. */
  function LeadingDigits(s: string): (k: nat)
    ensures k <= |s|
    ensures forall i :: 0 <= i < k ==> IsDigit(s[i])
    ensures k == |s| || !IsDigit(s[k])
  {
    if s != [] && IsDigit(s[0]) then 1 + LeadingDigits(s[1..]) else 0
  }

  /** The recogniser for the ordinal-penalty pattern, matched case-insensitively
      and anchored at both ends: read the digits, then a two-letter suffix,
      then " Penalty". */
  predicate IsOrdinalPenalty(s: string)
  {
    var k := LeadingDigits(s);
    1 <= k && k + 2 <= |s| && Lower(s[k..k + 2]) in Suffixes && Lower(s[k + 2..]) in Tails
  }

  /** The pattern read as a regular expression: `s` splits after a non-empty
      prefix of digits into a suffix and the " Penalty" tail, in any case. */
  ghost predicate OrdinalSplit(s: string, k: int)
  {
    1 <= k && k + 2 <= |s|
    && (forall i :: 0 <= i < k ==> IsDigit(s[i]))
    && Lower(s[k..k + 2]) in Suffixes
    && Lower(s[k + 2..]) in Tails
  }

  /** The character-by-character recogniser accepts exactly the strings the
      pattern matches. */
  lemma OrdinalPenaltyMeansSplit(s: string)
    ensures IsOrdinalPenalty(s) <==> exists k :: OrdinalSplit(s, k)
  {
    if IsOrdinalPenalty(s) {
      assert OrdinalSplit(s, LeadingDigits(s));
    }
    if k :| OrdinalSplit(s, k) {
      var c := s[k];
      assert Lower(s[k..k + 2])[0] == LowerChar(c);
      assert !IsDigit(c);
      assert LeadingDigits(s) == k;
    }
  }

  /** A stripped addition never ends in a newline, so on the additions the
      classifier sees, `$` means the very end of the text. */
  lemma StrippedTailIsExact(s: string)
    requires IsOrdinalPenalty(Strip(s))
    ensures Lower(Strip(s)[LeadingDigits(Strip(s)) + 2..]) == " penalty"
  {
    var t := Strip(s);
    var tail := t[LeadingDigits(t) + 2..];
    assert Lower(tail) in Tails;
    assert tail != [] && tail[|tail| - 1] == t[|t| - 1];
    assert !IsSpace(t[|t| - 1]);
    assert Lower(tail)[|tail| - 1] != '\n';
    assert Lower(tail) != " penalty\n" by {
      assert " penalty\n"[8] == '\n';
    }
  }

  /** "2nd Penalty" is an ordinal penalty. */
  lemma OrdinalAcceptsSecond()
    ensures IsOrdinalPenalty("2nd Penalty")
  {
    assert LeadingDigits("2nd Penalty") == 1 by {
      assert "2nd Penalty"[1..] == "nd Penalty";
    }
    assert "2nd Penalty"[1..3] == "nd";
    assert "2nd Penalty"[3..] == " Penalty";
    LowerLiteral("nd", "nd");
    LowerLiteral(" Penalty", " penalty");
  }

  /** The match ignores case: "2ND PENALTY" is one too. */
  lemma OrdinalAcceptsUpperCase()
    ensures IsOrdinalPenalty("2ND PENALTY")
  {
    assert LeadingDigits("2ND PENALTY") == 1 by {
      assert "2ND PENALTY"[1..] == "ND PENALTY";
    }
    assert "2ND PENALTY"[1..3] == "ND";
    assert "2ND PENALTY"[3..] == " PENALTY";
    LowerLiteral("ND", "nd");
    LowerLiteral(" PENALTY", " penalty");
  }

  /** Anchored at the end: whatever the digits and the suffix, a string whose
      last character is neither "y" nor "Y" nor a newline is not one. */
  lemma OrdinalNeedsPenaltyEnding(s: string)
    requires s != [] && LowerChar(s[|s| - 1]) != 'y' && s[|s| - 1] != '\n'
    ensures !IsOrdinalPenalty(s)
  {
    var k := LeadingDigits(s);
    if 1 <= k && k + 2 < |s| {
      var tail := Lower(s[k + 2..]);
      assert tail[|tail| - 1] == LowerChar(s[|s| - 1]);
      assert " penalty"[7] == 'y' && " penalty\n"[8] == '\n';
    }
  }

  /** "22nd Penaltyx" is not one. */
  lemma OrdinalRejectsTrailingText()
    ensures !IsOrdinalPenalty("22nd Penaltyx")
  {
    OrdinalNeedsPenaltyEnding("22nd Penaltyx");
  }

  /** At least one digit, and nothing before it: "nd Penalty" and
      "x2nd Penalty" are not ordinal penalties. */
  lemma OrdinalRejectsMissingNumber()
    ensures !IsOrdinalPenalty("nd Penalty")
    ensures !IsOrdinalPenalty("x2nd Penalty")
  {
    assert LeadingDigits("nd Penalty") == 0;
    assert LeadingDigits("x2nd Penalty") == 0;
  }

  // ------------------------------------------------------ in-box heuristic

  /** `ocorreu_dentro_da_area`: lower-cased `meta.location`, `meta.zone` and
      `description` (absent fields read as empty) searched for "18 yds",
      "18-yard", defensive zone with "box", or attacking zone with
      "opposition box". */
  predicate OccurredInBox(ev: Event)
  {
    var location := Lower(FieldText(ev.location, ""));
    var zone := Lower(FieldText(ev.zone, ""));
    var description := Lower(FieldText(ev.description, ""));
    Contains(location, "18 yds") || Contains(location, "18-yard")
    || (Contains(zone, "defensive") && Contains(description, "box"))
    || (Contains(zone, "attacking") && Contains(description, "opposition box"))
  }

  function Situated(location: string, zone: string, description: string): Event
  {
    Event(None, None, None, None, Some(Text(location)), Some(Text(zone)), Some(Text(description)))
  }

  /** A location that mentions "18 yds" or "18-yard" anywhere, in any case,
      puts the event in the box, whatever its zone and description say. */
  lemma InBoxEighteenYards(location: string, zone: string, description: string, marker: string, i: int)
    requires marker == "18 yds" || marker == "18-yard"
    requires 0 <= i && i + |marker| <= |location| && Lower(location[i..i + |marker|]) == marker
    ensures OccurredInBox(Situated(location, zone, description))
  {
    var lowered := Lower(FieldText(Some(Text(location)), ""));
    assert lowered[i..i + |marker|] == Lower(location[i..i + |marker|]);
    ContainsAt(lowered, marker, i);
  }

  /** A zone that mentions "defensive" and a description that mentions "box",
      anywhere and in any case, put the event in the box, whatever its
      location says. */
  lemma InBoxDefensiveZone(location: string, zone: string, description: string, i: int, j: int)
    requires 0 <= i && i + 9 <= |zone| && Lower(zone[i..i + 9]) == "defensive"
    requires 0 <= j && j + 3 <= |description| && Lower(description[j..j + 3]) == "box"
    ensures OccurredInBox(Situated(location, zone, description))
  {
    var z := Lower(FieldText(Some(Text(zone)), ""));
    var d := Lower(FieldText(Some(Text(description)), ""));
    assert z[i..i + 9] == Lower(zone[i..i + 9]);
    assert d[j..j + 3] == Lower(description[j..j + 3]);
    ContainsAt(z, "defensive", i);
    ContainsAt(d, "box", j);
  }

  /** With no location and zone "attacking", a description that is just
      "box" does not put the event in the box. */
  lemma InBoxAttackingBareBox()
    ensures !OccurredInBox(Situated("", "attacking", "box"))
  {
    LowerLiteral("", "");
    LowerLiteral("attacking", "attacking");
    LowerLiteral("box", "box");
    assert "attacking"[0..9][0] != "defensive"[0];
    assert !Contains("attacking", "defensive");
    assert !Contains("box", "opposition box");
  }

  /** A zone that mentions "attacking" and a description that mentions
      "opposition box", anywhere and in any case, put the event in the box,
      whatever its location says. */
  lemma InBoxAttackingOppositionBox(location: string, zone: string, description: string, i: int, j: int)
    requires 0 <= i && i + 9 <= |zone| && Lower(zone[i..i + 9]) == "attacking"
    requires 0 <= j && j + 14 <= |description| && Lower(description[j..j + 14]) == "opposition box"
    ensures OccurredInBox(Situated(location, zone, description))
  {
    var z := Lower(FieldText(Some(Text(zone)), ""));
    var d := Lower(FieldText(Some(Text(description)), ""));
    assert z[i..i + 9] == Lower(zone[i..i + 9]);
    assert d[j..j + 14] == Lower(description[j..j + 14]);
    ContainsAt(z, "attacking", i);
    ContainsAt(d, "opposition box", j);
  }

  /** The other direction: a location with neither 18-yard marker, a zone
      that does not mention "defensive" and a description that does not
      mention "opposition box" (in any case) leave the event outside the box,
      whatever else they say. In particular an attacking zone with a bare
      "box" does not count. */
  lemma InBoxOnlyIf(location: string, zone: string, description: string)
    requires !Contains(Lower(location), "18 yds") && !Contains(Lower(location), "18-yard")
    requires !Contains(Lower(zone), "defensive")
    requires !Contains(Lower(description), "opposition box")
    ensures !OccurredInBox(Situated(location, zone, description))
  {
  }

  // ---------------------------------------------------------- classification

  /** `str(evento.get('addition', '')).strip()` */
  function Addition(ev: Event): string
  {
    Strip(FieldText(ev.addition, ""))
  }

  /** `str(evento.get('type', '')).strip()` */
  function Kind(ev: Event): string
  {
    Strip(FieldText(ev.kind, ""))
  }

  /** Which rule an event falls under, with the fragment its alert carries. */
  datatype Verdict = Exact(notice: Notice) | Ordinal | InBox(notice: Notice) | Ignored

  /** The three rules, tried in order; the first that applies wins. */
  function Classify(ev: Event): Verdict
  {
    var addition := Addition(ev);
    if addition in Captured then Exact(Captured[addition])
    else if IsOrdinalPenalty(addition) then Ordinal
    else if Kind(ev) in BoxTypes && OccurredInBox(ev) then
      BoxTypesAreCaptured();
      InBox(Captured[Kind(ev)])
    else Ignored
  }

  /** First match wins: each verdict holds exactly when its rule applies and
      no earlier rule does. */
  lemma ClassifyFirstMatchWins(ev: Event)
    ensures Classify(ev).Exact? <==> Addition(ev) in Captured
    ensures Classify(ev).Ordinal? <==> Addition(ev) !in Captured && IsOrdinalPenalty(Addition(ev))
    ensures Classify(ev).InBox? <==>
      Addition(ev) !in Captured && !IsOrdinalPenalty(Addition(ev))
      && Kind(ev) in BoxTypes && OccurredInBox(ev)
    ensures Classify(ev).Exact? ==> Classify(ev).notice == Captured[Addition(ev)]
    ensures Classify(ev).InBox? ==> Kind(ev) in Captured && Classify(ev).notice == Captured[Kind(ev)]
  {
  }

  /** An event whose addition is exactly "Foul" is handled by the vocabulary
      rule, never by the in-box rule, wherever it happened. */
  lemma FoulAdditionNeverInBox(ev: Event)
    requires ev.addition == Some(Text("Foul"))
    ensures Classify(ev) == Exact(FoulInBox)
  {
    StripKeepsTrimmed("Foul");
    FoulIsCaptured();
    ClassifyFirstMatchWins(ev);
  }

  lemma FoulIsCaptured()
    ensures "Foul" in Captured && Captured["Foul"] == FoulInBox
  {
  }

}
