/** The projects list of src/components/pages/PortfolioPage.tsx, filtered by category. */
module PortfolioPage {
  import opened Json
  import opened Seqs
  import opened Types
  import opened Listing
  import ProjectsRoute
  import PM = ProjectModal

  /** The filter tags, as (key, label). */
  const Tags: seq<(string, string)> := [("all", "All"), ("branding", "Branding"), ("3d", "3D")]

  /** The `filtered` memo: all projects, or those whose `category` is the filter. */
  function Filtered(projects: seq<Record>, filter: string): (r: seq<Record>)
    ensures filter == "all" ==> r == projects
    ensures filter != "all" ==> forall i | 0 <= i < |r| :: Lookup(r[i], "category") == Some(Str(filter))
  {
    ByKey(projects, "category", filter)
  }

  /** The tags other than 'all' are exactly the project categories. */
  lemma TagsAreCategories()
    ensures Tags[0].0 == "all"
    ensures forall i | 1 <= i < |Tags| :: Tags[i].0 == ProjectCategories[i - 1]
    ensures |Tags| == 1 + |ProjectCategories|
  {
  }

  /** Projects whose category is one of the two are shared out between the two category tags. */
  lemma CategoriesPartition(projects: seq<Record>)
    requires forall i | 0 <= i < |projects| :: IsOneOf(projects[i], "category", ProjectCategories)
    ensures |Filtered(projects, "branding")| + |Filtered(projects, "3d")| == |projects|
  {
    FilterPartition(projects, Matches("category", "branding"), Matches("category", "3d"));
  }

  /** The four sample projects the site ships with: both category tags together show all of
      them, and each opens in the project layout with its cover and two images. */
  lemma SampleProjectsDisplay()
    ensures var seed := ProjectsRoute.InitialProjects();
      && |Filtered(seed, "branding")| + |Filtered(seed, "3d")| == |seed|
      && forall i | 0 <= i < |seed| :: PM.Dispatch(Some(seed[i])) == PM.ProjectBranch
                                       && PM.Gallery(seed[i]).Some? && |PM.Gallery(seed[i]).value| == 3
  {
    var seed := ProjectsRoute.InitialProjects();
    CategoriesPartition(seed);
    forall i | 0 <= i < |seed|
      ensures PM.Dispatch(Some(seed[i])) == PM.ProjectBranch
      ensures PM.Gallery(seed[i]).Some? && |PM.Gallery(seed[i]).value| == 3
    {
      PM.ProjectGallery(seed[i]);
    }
  }
}
