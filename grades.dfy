/**
 * The lookup tables of the popup: the grade labels and descriptions shown in
 * the results view, and the colour the report gives the grade letter. Each is
 * an object literal keyed by the grade letter, with a fallback for any other key.
 */
module Grades {

  /** The five grades the service assigns, best first. */
  const KnownGrades: set<string> := {"A", "B", "C", "D", "F"}

  const Labels: map<string, string> := map[
    "A" := "Exemplary",
    "B" := "Good",
    "C" := "Acceptable",
    "D" := "Poor",
    "F" := "Failing"
  ]

  const Descriptions: map<string, string> := map[
    "A" := "Sets industry standard for user rights",
    "B" := "Fair terms with minor concerns",
    "C" := "Standard practice with notable issues",
    "D" := "Multiple red flags favor company",
    "F" := "Predatory or deceptive terms"
  ]

  /** `getGradeLabel`: the table's label, or `Unknown` for a key outside it. */
  function GradeLabel(grade: string): (name: string)
    ensures name == "Unknown" <==> grade !in KnownGrades
    ensures grade in KnownGrades ==> name == Labels[grade]
  {
    if grade in Labels then Labels[grade] else "Unknown"
  }

  /** `getGradeDescription`: the table's description, or the empty string for a key outside it. */
  function GradeDescription(grade: string): (description: string)
    ensures description == "" <==> grade !in KnownGrades
    ensures grade in KnownGrades ==> description == Descriptions[grade]
  {
    if grade in Descriptions then Descriptions[grade] else ""
  }

  /** The five grades are told apart by their labels and by their descriptions. */
  lemma LabelsAndDescriptionsDistinguishGrades(g: string, h: string)
    requires g in KnownGrades && h in KnownGrades
    ensures GradeLabel(g) == GradeLabel(h) ==> g == h
    ensures GradeDescription(g) == GradeDescription(h) ==> g == h
  {
  }

  datatype Rgb = Rgb(red: int, green: int, blue: int)

  const Teal := Rgb(20, 184, 166)
  const Amber := Rgb(245, 158, 11)
  const Orange := Rgb(249, 115, 22)
  const Red := Rgb(239, 68, 68)
  const Black := Rgb(0, 0, 0)

  const GradeColors: map<string, Rgb> := map[
    "A" := Teal,
    "B" := Teal,
    "C" := Amber,
    "D" := Orange,
    "F" := Red
  ]

  predicate IsColor(c: Rgb) {
    0 <= c.red < 256 && 0 <= c.green < 256 && 0 <= c.blue < 256
  }

  /**
   * `gradeColors[grade] || [0, 0, 0]`: A and B share the success hue, C, D and F
   * each have their own, and every other key is printed in black.
   */
  function GradeColor(grade: string): (c: Rgb)
    ensures IsColor(c)
    ensures c == Black <==> grade !in KnownGrades
    ensures c == Teal <==> grade == "A" || grade == "B"
    ensures c == Amber <==> grade == "C"
    ensures c == Orange <==> grade == "D"
    ensures c == Red <==> grade == "F"
  {
    if grade in GradeColors then GradeColors[grade] else Black
  }
}
