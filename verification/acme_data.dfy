/**
 * The survey dataset the microsite renders (the `ACME_DATA` literal), restricted
 * to the parts the page logic reads: zip-code responses, the top-ten themes, the
 * grant programs, the pie-chart and program-comparison series and the share of
 * voice. Percentages are integer tenths of a percent (18.1 is 181); coordinates
 * are integer ten-thousandths of a degree (30.2729 is 302729).
 */
module AcmeData {
  import opened Wrappers

  /** One entry of `zipcodeData`: the key and its record. */
  datatype ZipEntry = ZipEntry(zip: string, responses: int, lat: int, lng: int, area: string)

  /** A theme of `themes`; its description is `ThemeDescription(rank)`. */
  datatype Theme = Theme(
    rank: int,
    name: string,
    frequency: int,
    percentage: int,
    keywords: seq<string>,
    sentiment: string,
    urgency: string)

  /** A strength or challenge listed for a program (its description text is not modelled). */
  datatype Insight = Insight(title: string, frequency: int)

  datatype Program = Program(
    programName: string,
    awarenessCount: int,
    awarenessPercentage: int,
    responseCount: int,
    strengths: seq<Insight>,
    challenges: seq<Insight>)

  /** One property of the `programs` object, in declaration order. */
  datatype ProgramEntry = ProgramEntry(key: string, program: Program)

  datatype PieChart = PieChart(labels: seq<string>, values: seq<int>, colors: seq<string>)

  /** `satisfaction` is in tenths of a point (3.8 is 38). */
  datatype ProgramComparison = ProgramComparison(programs: seq<string>, awareness: seq<int>, satisfaction: seq<int>)

  datatype RoleShare = RoleShare(count: int, percentage: int)

  datatype ShareOfVoice = ShareOfVoice(
    creatives: RoleShare,
    organizationalStaff: RoleShare,
    communityMembersPatrons: RoleShare)

  // ----- the literal -----

  /** `zipcodeData`, in the order `Object.entries` yields it (ascending, as the keys are integer-like). */
  const ZipcodeData: seq<ZipEntry> :=
    [
      ZipEntry("78701", 82, 302729, -977444, "Downtown"),
      ZipEntry("78702", 45, 302607, -977144, "East Austin"),
      ZipEntry("78703", 68, 302872, -977677, "West Austin"),
      ZipEntry("78704", 72, 302453, -977609, "South Austin"),
      ZipEntry("78705", 51, 302933, -977422, "University"),
      ZipEntry("78723", 35, 303037, -976814, "Northeast"),
      ZipEntry("78724", 17, 302965, -976536, "Far East"),
      ZipEntry("78725", 8, 302417, -976608, "Southeast"),
      ZipEntry("78726", 21, 304407, -978407, "Four Points"),
      ZipEntry("78727", 28, 304189, -977055, "North"),
      ZipEntry("78728", 15, 304465, -976844, "North"),
      ZipEntry("78729", 32, 304479, -977739, "Northwest"),
      ZipEntry("78730", 7, 303664, -978217, "Northwest Hills"),
      ZipEntry("78731", 42, 303429, -977766, "Northwest"),
      ZipEntry("78732", 5, 303777, -978972, "Steiner Ranch"),
      ZipEntry("78733", 13, 303215, -978673, "West Lake Hills"),
      ZipEntry("78734", 4, 303828, -979495, "Lakeway"),
      ZipEntry("78735", 18, 302486, -978255, "Barton Creek"),
      ZipEntry("78736", 9, 302147, -979336, "Bee Cave"),
      ZipEntry("78737", 13, 301987, -979392, "Dripping Springs"),
      ZipEntry("78738", 11, 303175, -979853, "Bee Cave"),
      ZipEntry("78739", 26, 301682, -978712, "Driftwood"),
      ZipEntry("78741", 40, 302308, -977334, "Southeast"),
      ZipEntry("78742", 48, 302332, -976984, "Southeast"),
      ZipEntry("78744", 22, 301974, -977470, "South Austin"),
      ZipEntry("78745", 95, 302063, -977954, "South Austin"),
      ZipEntry("78746", 15, 302634, -978046, "West Lake Hills"),
      ZipEntry("78747", 18, 301354, -977468, "Far South"),
      ZipEntry("78748", 29, 301679, -978236, "Southwest"),
      ZipEntry("78749", 31, 302161, -978486, "Southwest"),
      ZipEntry("78751", 54, 303097, -977204, "Hyde Park"),
      ZipEntry("78752", 37, 303356, -977000, "North Central"),
      ZipEntry("78753", 41, 303701, -976743, "North"),
      ZipEntry("78754", 22, 303556, -976567, "Windsor Park"),
      ZipEntry("78756", 43, 303072, -977417, "Brentwood"),
      ZipEntry("78757", 38, 303511, -977333, "Allandale"),
      ZipEntry("78758", 24, 303700, -977122, "North Austin"),
      ZipEntry("78759", 35, 304018, -977514, "Great Hills")
    ]

  const Themes: seq<Theme> :=
    [
      Theme(1, "Affordability and Cost Barriers",
            1800, 181, ["cost of tickets", "admission fees", "affordability", "venue rental", "cost of living"],
            "overwhelmingly negative", "critical"),
      Theme(2, "Access to Venues, Spaces, and Geographic Equity",
            1400, 141, ["lack of nearby venues", "affordable spaces", "performance space", "geographic access"],
            "strongly negative", "critical"),
      Theme(3, "Equity, Diversity, and Inclusion (DEI)",
            1300, 131, ["equity", "diversity", "inclusion", "representation", "BIPOC", "LGBTQIA+"],
            "mixed (mostly positive, some concerns)", "critical"),
      Theme(4, "Awareness, Communication, and Outreach",
            1200, 121, ["lack of awareness", "communication", "outreach", "marketing", "visibility"],
            "strongly negative", "high"),
      Theme(5, "Grant/Application Process Complexity and Barriers",
            1100, 111, ["application process", "complexity", "bureaucracy", "grant writing", "simplify"],
            "overwhelmingly negative", "critical"),
      Theme(6, "Funding Levels, Distribution, and Sustainability",
            1050, 106, ["funding", "grants", "multi-year", "sustainability", "operational support"],
            "strongly negative", "critical"),
      Theme(7, "Transparency, Accountability, and Fairness in Funding",
            900, 91, ["transparency", "accountability", "clear criteria", "decision-making", "fairness"],
            "strongly negative", "high"),
      Theme(8, "Support for Emerging, Small, and Independent Artists/Organizations",
            800, 81, ["emerging artists", "small organizations", "independent artists", "microgrants", "mentorship"],
            "strongly positive", "high"),
      Theme(9, "Transportation, Parking, and Physical Accessibility",
            700, 71, ["transportation", "parking", "accessibility", "public transportation", "ADA"],
            "strongly negative", "high"),
      Theme(10, "Collaboration, Community Engagement, and Ecosystem Building",
            650, 66, ["collaboration", "community engagement", "partnerships", "ecosystem", "networking"],
            "strongly positive", "medium-high")
    ]

  const Programs: seq<ProgramEntry> :=
    [
      ProgramEntry("nexus", Program("Nexus Grant Program", 622, 500, 59,
        [
          Insight("Accessibility for Emerging Artists", 10),
          Insight("Supporting Innovation", 8)],
        [
          Insight("Transparency and Clarity", 15),
          Insight("Timeliness and Reliability", 7)])),
      ProgramEntry("thrive", Program("Thrive Grant Program", 583, 469, 48,
        [
          Insight("Multi-year Funding Stability", 12),
          Insight("Operational Support", 9)],
        [
          Insight("Limited Funding Pool", 11),
          Insight("Application Complexity", 8)])),
      ProgramEntry("elevate", Program("Elevate Grant Program", 606, 487, 52,
        [
          Insight("Project-based Excellence", 11),
          Insight("Community Impact Focus", 9)],
        [
          Insight("Competitive Process", 13),
          Insight("Funding Amounts", 10)])),
      ProgramEntry("music", Program("Austin Live Music Fund", 498, 400, 43,
        [
          Insight("Venue Preservation", 12),
          Insight("Musician Fair Pay", 8)],
        [
          Insight("Limited Reach", 10),
          Insight("Narrow Scope", 9)])),
      ProgramEntry("space", Program("Creative Space Assistance Program", 317, 255, 38,
        [
          Insight("Addressing Critical Need", 11),
          Insight("Displacement Prevention", 7)],
        [
          Insight("Low Awareness", 14),
          Insight("Insufficient Scale", 12)])),
      ProgramEntry("aipp", Program("Art in Public Places", 610, 490, 41,
        [
          Insight("Public Art Excellence", 10),
          Insight("Community Engagement", 8)],
        [
          Insight("Selection Process Transparency", 11),
          Insight("Limited Opportunities", 9)]))
    ]

  // ----- the prose -----

  /**
   * The `description` of the theme ranked `rank` (empty for a rank no theme has).
   * The prose is kept out of the records so that facts about the figures do
   * not carry it.
   */
  function ThemeDescription(rank: int): string
  {
    match rank
    case 1 =>
      "High costs—including tickets, admission fees, venue rentals, participation, and the general cost of living—are the most frequently cited barriers to participation and sustainability for both artists and audiences."
    case 2 =>
      "There is widespread concern about the shortage, high cost, and uneven geographic distribution of affordable, accessible venues and creative spaces."
    case 3 =>
      "A strong and recurring call for more equitable funding, greater representation, and support for BIPOC, LGBTQIA+, disabled, immigrant, women, and other historically marginalized or underrepresented groups."
    case 4 =>
      "A widespread lack of awareness about available programs, events, and funding opportunities is a major barrier."
    case 5 =>
      "The grant application and reporting processes are widely seen as overly complex, time-consuming, opaque, and inaccessible."
    case 6 =>
      "There is persistent concern about insufficient, unstable, or inconsistently distributed funding."
    case 7 =>
      "There are widespread calls for greater transparency, clear criteria, and accountability in funding decisions."
    case 8 =>
      "There is a strong desire for increased opportunities, funding, mentorship, and capacity-building for emerging artists."
    case 9 =>
      "Transportation and parking challenges, as well as physical accessibility barriers, are frequently cited as obstacles to participation."
    case 10 =>
      "Respondents value collaboration among artists, organizations, and sectors, and call for more community-driven decision-making."
    case _ => ""
  }

  const PieChartData: PieChart :=
    PieChart(
      ["Affordability & Cost", "Venues & Spaces", "Equity & Inclusion", "Awareness & Outreach",
       "Application Process", "Funding Levels", "Transparency", "Emerging Artists",
       "Transportation", "Collaboration"],
      [181, 141, 131, 121, 111, 106, 91, 81, 71, 66],
      ["#6B46C1", "#3B82F6", "#F97316", "#10B981", "#F59E0B",
       "#EF4444", "#6B7280", "#8B5CF6", "#14B8A6", "#F43F5E"])

  const ProgramComparisonData: ProgramComparison :=
    ProgramComparison(
      ["Nexus", "Thrive", "Elevate", "Live Music", "Creative Space", "AIPP"],
      [500, 469, 487, 400, 255, 490],
      [38, 41, 39, 37, 35, 40])

  const ShareOfVoiceData: ShareOfVoice :=
    ShareOfVoice(RoleShare(803, 645), RoleShare(337, 271), RoleShare(749, 602))

  // ----- lookups -----

  /** `programs[key]`: the program stored under `key`, or `undefined`. */
  function FindProgram(entries: seq<ProgramEntry>, key: string): (r: Option<Program>)
    ensures r.None? <==> forall i :: 0 <= i < |entries| ==> entries[i].key != key
    ensures r.Some? ==> exists i :: 0 <= i < |entries| && entries[i].key == key && entries[i].program == r.value
  {
    if |entries| == 0 then None
    else if entries[0].key == key then Some(entries[0].program)
    else
      var r := FindProgram(entries[1..], key);
      assert forall i :: 1 <= i < |entries| ==> entries[1..][i - 1] == entries[i];
      r
  }

  // ----- well-formedness -----

  /** Counts are non-negative and keys are unique, as they are for the properties of an object. */
  ghost predicate ValidZipData(zips: seq<ZipEntry>)
  {
    (forall i :: 0 <= i < |zips| ==> zips[i].responses >= 0) &&
    (forall i, j :: 0 <= i < j < |zips| ==> zips[i].zip != zips[j].zip)
  }

  function DigitValue(c: char): int
  {
    c as int - '0' as int
  }

  /** The numeric value of a five-character zip code. */
  function ZipValue(zip: string): int
    requires |zip| == 5
  {
    DigitValue(zip[0]) * 10000 + DigitValue(zip[1]) * 1000 + DigitValue(zip[2]) * 100
      + DigitValue(zip[3]) * 10 + DigitValue(zip[4])
  }

  /** Five-character keys listed in strictly ascending numeric order. */
  ghost predicate AscendingZips(zips: seq<ZipEntry>)
  {
    (forall i :: 0 <= i < |zips| ==> |zips[i].zip| == 5) &&
    forall i :: 0 <= i < |zips| - 1 ==> ZipValue(zips[i].zip) < ZipValue(zips[i + 1].zip)
  }

  /** Keys in ascending order are pairwise distinct. */
  lemma {:induction false} AscendingZipsDistinct(zips: seq<ZipEntry>, i: nat, j: nat)
    requires AscendingZips(zips)
    requires i < j < |zips|
    ensures ZipValue(zips[i].zip) < ZipValue(zips[j].zip)
    ensures zips[i].zip != zips[j].zip
    decreases j - i
  {
    if i + 1 < j {
      AscendingZipsDistinct(zips, i + 1, j);
    }
  }

  /** Entry i is ranked i + 1 and carries a positive frequency and percentage. */
  ghost predicate RankedThemes(themes: seq<Theme>)
  {
    forall i :: 0 <= i < |themes| ==>
      themes[i].rank == i + 1 &&
      themes[i].frequency > 0 && themes[i].percentage > 0
  }

  /** The pie chart has one label, value and colour per theme, and each value is that theme's percentage. */
  ghost predicate PieMatchesThemes(pie: PieChart, themes: seq<Theme>)
  {
    |pie.labels| == |themes| && |pie.values| == |themes| && |pie.colors| == |themes| &&
    forall i :: 0 <= i < |themes| ==> pie.values[i] == themes[i].percentage
  }

  /** The comparison series run parallel to the programs, and `awareness` repeats each program's percentage. */
  ghost predicate ComparisonMatchesPrograms(cmp: ProgramComparison, programs: seq<ProgramEntry>)
  {
    |cmp.programs| == |programs| && |cmp.awareness| == |programs| && |cmp.satisfaction| == |programs| &&
    forall i :: 0 <= i < |programs| ==> cmp.awareness[i] == programs[i].program.awarenessPercentage
  }

  ghost predicate DistinctProgramKeys(programs: seq<ProgramEntry>)
  {
    forall i, j :: 0 <= i < j < |programs| ==> programs[i].key != programs[j].key
  }

  /**
   * The numeric values of the keys of `ZipcodeData`, in order. Not part of the
   * dataset: a proof aid, checked against the keys by `ZipcodeValuesMatch`, that
   * lets `ZipcodeDataAscending` compare integers instead of decoding each key twice.
   */
  const ZipcodeValues: seq<int> := [78701, 78702, 78703, 78704, 78705, 78723, 78724, 78725, 78726, 78727, 78728, 78729, 78730, 78731, 78732, 78733, 78734, 78735, 78736, 78737, 78738, 78739, 78741, 78742, 78744, 78745, 78746, 78747, 78748, 78749, 78751, 78752, 78753, 78754, 78756, 78757, 78758, 78759]

  lemma ZipcodeValuesMatch()
    ensures |ZipcodeValues| == |ZipcodeData|
    ensures forall i :: 0 <= i < |ZipcodeData| ==> |ZipcodeData[i].zip| == 5 && ZipValue(ZipcodeData[i].zip) == ZipcodeValues[i]
  {
  }

  lemma ZipcodeDataAscending()
    ensures AscendingZips(ZipcodeData)
  {
    ZipcodeValuesMatch();
    assert forall i :: 0 <= i < |ZipcodeValues| - 1 ==> ZipcodeValues[i] < ZipcodeValues[i + 1];
  }

  lemma ZipcodeDataNonNegative()
    ensures |ZipcodeData| == 38
    ensures forall i :: 0 <= i < |ZipcodeData| ==> ZipcodeData[i].responses >= 0
  {
  }

  lemma ZipcodeDataValid()
    ensures |ZipcodeData| == 38 && ValidZipData(ZipcodeData)
  {
    ZipcodeDataNonNegative();
    ZipcodeDataAscending();
    forall i, j | 0 <= i < j < |ZipcodeData|
      ensures ZipcodeData[i].zip != ZipcodeData[j].zip
    {
      AscendingZipsDistinct(ZipcodeData, i, j);
    }
  }

  lemma ThemesWellFormed()
    ensures |Themes| == 10 && RankedThemes(Themes)
  {
  }

  lemma PieChartConsistent()
    ensures PieMatchesThemes(PieChartData, Themes)
  {
  }

  lemma ProgramComparisonConsistent()
    ensures DistinctProgramKeys(Programs)
    ensures ComparisonMatchesPrograms(ProgramComparisonData, Programs)
    ensures [Programs[0].key, Programs[1].key, Programs[2].key, Programs[3].key, Programs[4].key, Programs[5].key]
         == ["nexus", "thrive", "elevate", "music", "space", "aipp"]
  {
  }

  /** Respondents could name several roles, so the three shares add up to more than 100%. */
  lemma ShareOfVoiceOverlaps()
    ensures ShareOfVoiceData.creatives.percentage + ShareOfVoiceData.organizationalStaff.percentage
          + ShareOfVoiceData.communityMembersPatrons.percentage > 1000
  {
  }

  /** The program the tab bar shows first exists. */
  lemma InitialProgramExists()
    ensures FindProgram(Programs, "nexus") == Some(Programs[0].program)
  {
  }
}
