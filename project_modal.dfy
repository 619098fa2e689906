/** The detail modal of src/components/ProjectModal.tsx: which kind of item it shows,
    decided by the keys the item has, and what it reads from the item. */
module ProjectModal {
  import opened Json
  import opened Types

  /** `isProject`: the item has both a `brief` and a `category` key. */
  predicate IsProject(r: Record) {
    "brief" in r && "category" in r
  }

  /** `isResearch`: the item has `focus` and `field`, and `field` includes "AI". */
  predicate IsResearch(r: Record) {
    "focus" in r && "field" in r && Includes(r["field"], "AI")
  }

  /** `isAcademic`: the item has `focus` and `field`, and `field` does not include "AI". */
  predicate IsAcademic(r: Record) {
    "focus" in r && "field" in r && !Includes(r["field"], "AI")
  }

  /** An item with `focus` and `field` passes exactly one of the research and academic guards. */
  lemma ResearchOrAcademic(r: Record)
    ensures !(IsResearch(r) && IsAcademic(r))
    ensures "focus" in r && "field" in r ==> (IsResearch(r) <==> !IsAcademic(r))
    ensures IsResearch(r) || IsAcademic(r) <==> "focus" in r && "field" in r
  {
  }

  /** `getFieldOrCategory`: `field` if present, else `category`, else ''. */
  function FieldOrCategory(r: Record): (v: Value)
    ensures "field" in r ==> v == r["field"]
    ensures "field" !in r && "category" in r ==> v == r["category"]
    ensures "field" !in r && "category" !in r ==> v == Str("")
  {
    if "field" in r then r["field"] else if "category" in r then r["category"] else Str("")
  }

  /** `getStatus`: `status` if present, else ''. */
  function Status(r: Record): (v: Value)
    ensures "status" in r ==> v == r["status"]
    ensures "status" !in r ==> v == Str("")
  {
    if "status" in r then r["status"] else Str("")
  }

  /** Which part of the modal renders. */
  datatype Branch = Hidden | ProjectBranch | ResearchBranch | AcademicBranch

  /** The modal renders nothing for `null`, then tries the project guard, then the research
      guard, and shows every other item in the academic layout. */
  function Dispatch(item: Option<Record>): (b: Branch)
    ensures b == Hidden <==> item.None?
    ensures b == ProjectBranch <==> item.Some? && IsProject(item.value)
    ensures b == ResearchBranch <==> item.Some? && !IsProject(item.value) && IsResearch(item.value)
    ensures b == AcademicBranch <==> item.Some? && !IsProject(item.value) && !IsResearch(item.value)
  {
    match item
    case None => Hidden
    case Some(r) =>
      if IsProject(r) then ProjectBranch
      else if IsResearch(r) then ResearchBranch
      else AcademicBranch
  }

  /** The strings `...v` spreads into an array: the items of an array, the characters of a string. */
  function Spread(v: Value): (r: seq<Option<Value>>)
    ensures v.Strs? ==> |r| == |v.items| && forall i | 0 <= i < |r| :: r[i] == Some(Str(v.items[i]))
    ensures v.Str? ==> |r| == |v.s| && forall i | 0 <= i < |r| :: r[i] == Some(Str([v.s[i]]))
  {
    match v
    case Strs(xs) => seq(|xs|, i requires 0 <= i < |xs| => Some(Str(xs[i])))
    case Str(s) => seq(|s|, i requires 0 <= i < |s| => Some(Str([s[i]])))
  }

  /** `[project.cover, ...project.images]`; None when `images` is undefined, where spreading throws. */
  function Gallery(r: Record): (g: Option<seq<Option<Value>>>)
    ensures g.Some? <==> "images" in r
    ensures g.Some? ==> |g.value| >= 1 && g.value[0] == Lookup(r, "cover") && g.value[1..] == Spread(r["images"])
  {
    if "images" in r then Some([Lookup(r, "cover")] + Spread(r["images"])) else None
  }

  /** For a project with a cover and an array of images, the gallery is the cover followed by
      every image, in order. */
  lemma ProjectGallery(r: Record)
    requires IsText(r, "cover") && "images" in r && r["images"].Strs?
    ensures Gallery(r).Some? && |Gallery(r).value| == 1 + |r["images"].items|
    ensures Gallery(r).value[0] == Some(r["cover"])
    ensures forall i | 0 <= i < |r["images"].items| :: Gallery(r).value[i + 1] == Some(Str(r["images"].items[i]))
  {
    var g := Gallery(r).value;
    assert forall i | 0 <= i < |r["images"].items| :: g[i + 1] == g[1..][i];
  }

  /** A conforming project takes the project layout. */
  lemma ProjectsShowAsProjects(r: Record)
    requires Types.ConformsToProject(r)
    ensures Dispatch(Some(r)) == ProjectBranch
  {
    assert "brief" in ProjectKeys && "category" in ProjectKeys;
  }

  /** Every research field includes "AI", so a conforming research item takes the research layout. */
  lemma ResearchShowsAsResearch(r: Record)
    requires Types.ConformsToResearch(r)
    ensures Dispatch(Some(r)) == ResearchBranch
  {
    assert "brief" !in ResearchKeys && "focus" in ResearchKeys && "field" in ResearchKeys;
    var f := r["field"].s;
    if f == "Generative AI" {
      assert OccursAt("AI", f, 11);
    } else if f == "AI Coding" {
      assert OccursAt("AI", f, 0);
    } else {
      assert f == "AI Integration in Design Curriculum";
      assert f[0] == 'A' && f[1] == 'I';
      assert OccursAt("AI", f, 0);
    }
  }

  /** A conforming academic item takes the academic layout unless its field is "AI Research",
      which includes "AI" and so is shown in the research layout. */
  lemma AcademicBranchByField(r: Record)
    requires Types.ConformsToAcademic(r)
    ensures Dispatch(Some(r)) == (if r["field"].s == "AI Research" then ResearchBranch else AcademicBranch)
  {
    assert "brief" !in AcademicKeys + AcademicOptionalKeys;
    assert "focus" in AcademicKeys && "field" in AcademicKeys;
    var f := r["field"].s;
    if f == "AI Research" {
      assert OccursAt("AI", f, 0);
    } else if f == "Computer Science" {
      NotSubstringWithoutHead("AI", f);
    } else if f == "Design" {
      NotSubstringWithoutHead("AI", f);
    } else {
      NotSubstringWithoutHead("AI", f);
    }
  }
}
