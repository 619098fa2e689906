/** The record shapes of src/types/index.ts. TypeScript does not check them at run
    time, so the routes accept any record; these predicates say what a record that
    conforms to each interface looks like, and the field domains are the union types. */
module Types {
  import opened Json

  const ProjectCategories: seq<string> := ["branding", "3d"]
  const ResearchFields: seq<string> := ["Generative AI", "AI Coding", "AI Integration in Design Curriculum"]
  const ResearchStatuses: seq<string> := ["In Progress", "Active", "Planning", "Completed"]
  const AcademicFields: seq<string> := ["Computer Science", "Design", "AI Research", "Education"]
  const AcademicStatuses: seq<string> := ["Published", "In Review", "Draft", "Submitted"]

  const ProjectKeys: set<string> := {"id", "title", "category", "cover", "brief", "images", "image"}
  const ResearchKeys: set<string> := {"id", "title", "field", "description", "image", "status", "focus"}
  const AcademicKeys: set<string> := {"id", "title", "field", "description", "image", "status", "focus"}
  const AcademicOptionalKeys: set<string> := {"publication", "date"}

  /** The field is present and holds a string. */
  predicate IsText(r: Record, key: string) {
    key in r && r[key].Str?
  }

  /** The field is present and holds one of the strings of `domain`. */
  predicate IsOneOf(r: Record, key: string, domain: seq<string>) {
    key in r && r[key].Str? && r[key].s in domain
  }

  /** `interface Project` */
  predicate ConformsToProject(r: Record) {
    && r.Keys == ProjectKeys
    && IsText(r, "id") && IsText(r, "title") && IsOneOf(r, "category", ProjectCategories)
    && IsText(r, "cover") && IsText(r, "brief") && r["images"].Strs? && IsText(r, "image")
  }

  /** `interface Research` */
  predicate ConformsToResearch(r: Record) {
    && r.Keys == ResearchKeys
    && IsText(r, "id") && IsText(r, "title") && IsOneOf(r, "field", ResearchFields)
    && IsText(r, "description") && IsText(r, "image")
    && IsOneOf(r, "status", ResearchStatuses) && IsText(r, "focus")
  }

  /** `interface Academic`, whose `publication` and `date` are optional. */
  predicate ConformsToAcademic(r: Record) {
    && AcademicKeys <= r.Keys <= AcademicKeys + AcademicOptionalKeys
    && IsText(r, "id") && IsText(r, "title") && IsOneOf(r, "field", AcademicFields)
    && IsText(r, "description") && IsText(r, "image")
    && IsOneOf(r, "status", AcademicStatuses) && IsText(r, "focus")
    && ("publication" in r ==> IsText(r, "publication"))
    && ("date" in r ==> IsText(r, "date"))
  }

  /** `interface ContactForm` */
  datatype ContactForm = ContactForm(name: string, email: string, message: string)
}
