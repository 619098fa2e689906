/** The academic contributions list of src/components/pages/AcademicsPage.tsx, filtered by field. */
module AcademicsPage {
  import opened Json
  import opened Types
  import opened Listing

  /** The filter tags, as (key, label). */
  const Tags: seq<(string, string)> := [("all", "All"), ("Computer Science", "Computer Science"), ("Design", "Design"),
                                        ("AI Research", "AI Research"), ("Education", "Education")]

  /** The `filtered` memo: all academics, or the items whose `field` is the filter. */
  function Filtered(academics: seq<Record>, filter: string): (r: seq<Record>)
    ensures filter == "all" ==> r == academics
    ensures filter != "all" ==> forall i | 0 <= i < |r| :: Lookup(r[i], "field") == Some(Str(filter))
  {
    ByKey(academics, "field", filter)
  }

  /** The tags other than 'all' are exactly the academic fields. */
  lemma TagsAreFields()
    ensures Tags[0].0 == "all"
    ensures forall i | 1 <= i < |Tags| :: Tags[i].0 == AcademicFields[i - 1]
    ensures |Tags| == 1 + |AcademicFields|
  {
  }
}
