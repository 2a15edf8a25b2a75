/**
 * The nominee-name suggestion shared by
 * src/app/components/steps/StepCombinedDetails.tsx and
 * src/app/components/steps/StepNomineeDetails.tsx: a fixed first name per
 * relation, followed by the applicant's surname when one can be told apart.
 */
module Nominee {
  import opened Wrappers
  import opened Text
  import opened FormData

  /** `String(formData?.name || "")` for a name held as a string. */
  function NameOf(bag: Bag): string {
    StrOr(bag, "name", "")
  }

  /**
   * The surname: the last word of the trimmed full name when it has at least
   * two words, else the empty string.
   */
  function Surname(fullName: string): (r: string)
    ensures var parts := Words(Trim(fullName));
      && (|parts| >= 2 ==> r == parts[|parts| - 1])
      && (|parts| < 2 ==> r == "")
    ensures r == "" || NoSpace(r)
  {
    var parts := Words(Trim(fullName));
    if |parts| >= 2 then parts[|parts| - 1] else ""
  }

  /** The first name each known relation suggests. */
  function FirstNameFor(rel: string): Option<string> {
    if rel == "spouse" then Some("Aarushi")
    else if rel == "father" then Some("Rakesh")
    else if rel == "mother" then Some("Neeta")
    else if rel == "son" then Some("Ayaan")
    else if rel == "daughter" then Some("Anaya")
    else None
  }

  /**
   * `prefilledNameForRelation`: the relation's first name followed by a space
   * and the surname when there is one, the first name alone otherwise, and
   * nothing for an unknown relation. The final `trim()` never removes
   * anything.
   */
  function Suggestion(rel: string, fullName: string): (r: string)
    ensures FirstNameFor(rel).None? ==> r == ""
    ensures FirstNameFor(rel).Some? ==>
      r == FirstNameFor(rel).value + (if Surname(fullName) != "" then " " + Surname(fullName) else "")
    ensures r == "" <==> FirstNameFor(rel).None?
  {
    match FirstNameFor(rel)
    case None => ""
    case Some(first) =>
      var surname := Surname(fullName);
      var last := if surname != "" then " " + surname else "";
      var joined := first + last;
      assert joined[0] == first[0];
      assert joined[|joined| - 1] == if surname != "" then surname[|surname| - 1] else first[|first| - 1];
      TrimKeeps(joined);
      Trim(joined)
  }
}
