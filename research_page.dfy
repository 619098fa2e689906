/** The research list of src/components/pages/ResearchPage.tsx, filtered by field. */
module ResearchPage {
  import opened Json
  import opened Types
  import opened Listing

  /** The filter tags, as (key, label); the curriculum field is labelled "Design Education". */
  const Tags: seq<(string, string)> := [("all", "All"), ("Generative AI", "Generative AI"), ("AI Coding", "AI Coding"),
                                        ("AI Integration in Design Curriculum", "Design Education")]

  /** The `filtered` memo: all research, or the items whose `field` is the filter. */
  function Filtered(research: seq<Record>, filter: string): (r: seq<Record>)
    ensures filter == "all" ==> r == research
    ensures filter != "all" ==> forall i | 0 <= i < |r| :: Lookup(r[i], "field") == Some(Str(filter))
  {
    ByKey(research, "field", filter)
  }

  /** The tags other than 'all' are exactly the research fields. */
  lemma TagsAreFields()
    ensures Tags[0].0 == "all"
    ensures forall i | 1 <= i < |Tags| :: Tags[i].0 == ResearchFields[i - 1]
    ensures |Tags| == 1 + |ResearchFields|
    ensures Tags[3].1 == "Design Education"
  {
  }
}
