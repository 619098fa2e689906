# Portfolio site: JSON collections, upload naming and client decision rules

This project models the behaviour of a Next.js portfolio site in Dafny and proves properties of
that model. The site keeps three collections in JSON files: projects, research and academic
contributions. Three HTTP routes read a whole file, change the list in memory and write the
whole list back. An upload route stores files under a timestamped, sanitised name. The browser
pages then decide what to show and where to send edits.

The model covers:

- **The collection routes.** `ProjectsRoute.ProjectStore`, `ResearchRoute.ResearchStore` and
  `AcademicsRoute.AcademicStore` are classes whose `file` field is the data file. `None` means
  the file does not exist. Each request is a method returning the HTTP response and whether the
  file was written.
  - Read, parse and write failures are an input (`Collection.Faults`).
  - `Date.now()` is a parameter.
  - Records are maps from keys to values, so `'brief' in item` is key membership.
  - `===` on ids follows JavaScript: `undefined === undefined`, strings by value, arrays never.
- **The upload route.** `UploadRoute` covers the missing-file check, the character filter
  `[^a-zA-Z0-9.-]`, the stored name `${timestamp}-${name}` and the returned URL.
- **The admin dashboard.** `AdminPage` covers:
  - the save routing: endpoint, and PUT or POST;
  - the defaults of new items;
  - the edit form's field update;
  - the image update after an upload;
  - the confirmation gate before a delete;
  - the dashboard state.
- **The detail modal.** `ProjectModal` covers the type guards, the order in which the modal
  tries them, the field, category and status getters, and the gallery list.
- **The list pages.** `Listing`, `PortfolioPage`, `ResearchPage` and `AcademicsPage` cover the
  category and field filters, the filter tags, and the loading, empty and cards states.
- **The contact form (`ContactPage`).** It submits only complete forms and resets the form only
  after a submission.
- **The site shell (`PortfolioSite`).** It covers the page chosen from the URL hash, the hash
  written back on every page change, the thank-you toast, and closing the modal and the toast.
- **The helpers (`Utils`).** These are `classNames` and the carousel's index step.
- **Shared modules.** `Seqs` holds `filter` and `join`. `Decimal` holds the decimal numerals
  `Date.now().toString()` writes. `Json` holds the JavaScript value semantics. `Types` holds the
  record interfaces and their field domains.

Two behaviours of the code worth noting:

- Only the projects route generates an id on POST. The research and academics routes store the
  body exactly as received.
- DELETE removes every record carrying the id, not just one. With duplicate ids the list
  shrinks by more than one (`Collection.WithoutIdRemovesDuplicates`).

## Model

| member | source | states |
|---|---|---|
| Seqs.Filter | src/lib/utils.ts:6 | `filter` never grows the list, keeps only elements passing the test, and keeps each at most as often as the input has it |
| Seqs.FilterIsSubsequence | src/lib/utils.ts:6 | the kept elements stay in their original relative order |
| Seqs.FilterKeepsMatches | src/lib/utils.ts:6 | every element passing the test is kept exactly as often as it occurs |
| Seqs.FilterKeepsAll | src/app/api/research/route.ts:83-85 | the filtered list is as long as the input exactly when every element passes, and is then the input itself |
| Seqs.FilterAppend | src/lib/utils.ts:6 | filtering a concatenation is concatenating the filtered parts |
| Seqs.FilterIdempotent | src/app/api/upload/route.ts:19 | filtering twice with the same test is filtering once |
| Seqs.FilterEmpty | src/lib/utils.ts:6 | nothing is kept exactly when no element passes |
| Seqs.FilterPartition | src/components/pages/PortfolioPage.tsx:32 | two tests of which each element passes exactly one share the input between them |
| Seqs.Join | src/lib/utils.ts:6 | `join` of nothing is '' and of one part is that part |
| Seqs.JoinAppend | src/lib/utils.ts:6 | joining two non-empty lists puts one separator between their joins |
| Seqs.JoinEmpty | src/lib/utils.ts:6 | with non-empty parts the join is empty only when there are no parts |
| Decimal.NatToString | src/app/api/projects/route.ts:101 | the timestamp's decimal string is non-empty, all digits, and has no leading zero except for 0 |
| Decimal.ValueOfNatToString | src/app/api/projects/route.ts:101 | reading the decimal string back gives the timestamp |
| Decimal.NatToStringInjective | src/app/api/upload/route.ts:18-20 | distinct timestamps give distinct strings |
| Json.Truthy | src/app/api/projects/route.ts:100 | JavaScript truthiness of a property read: `undefined` and '' are falsy, arrays truthy; used by ProjectsRoute.WithGeneratedId and AdminPage.FieldSelectValue |
| Json.StrictEquals | src/app/api/projects/route.ts:121 | `===` on property reads; Json.StrictEqualsIsEquality states what it is |
| Json.Includes | src/components/ProjectModal.tsx:28 | `.includes` as a substring test on strings and membership on arrays; ProjectModal.ResearchShowsAsResearch and AcademicBranchByField state it on the concrete fields |
| Json.Lookup | src/app/api/projects/route.ts:119 | a property read is defined exactly when the key is present, and then it is the stored value |
| Json.StrictEqualsIsEquality | src/app/api/projects/route.ts:121 | `===` on property reads is equality restricted to `undefined` and strings |
| Json.NotSubstringWithoutHead | src/components/ProjectModal.tsx:28-32 | a string lacking the first character of the needle does not `includes` it |
| Collection.HasId | src/app/api/projects/route.ts:121 | `r.id === id`; Collection.FindIndex and Collection.WithoutId are characterised by it |
| Collection.MissingId | src/app/api/research/route.ts:78 | `!id` for the query parameter: absent or ''; the research and academics Delete methods answer 400 exactly then, before any I/O; the projects Delete reads the file first, so there a failed read answers 500 even without an id |
| Collection.FindIndex | src/app/api/projects/route.ts:121 | `findIndex` is -1 exactly when no record has the id, else the first index whose record has it |
| Collection.WithoutId | src/app/api/projects/route.ts:147 | after the filter no record has the id, and nothing is added |
| Collection.WithoutIdKeepsOthers | src/app/api/research/route.ts:83 | every record without the id survives as often as it occurred, and order is kept |
| Collection.WithoutIdSameLength | src/app/api/research/route.ts:83-85 | the length is unchanged exactly when no record has the id, and then the list is unchanged |
| Collection.WithoutIdRemovesDuplicates | src/app/api/research/route.ts:83 | with two records of the same id both go, so the length can drop by more than one |
| ProjectsRoute.InitialProjects | src/app/api/projects/route.ts:16-61 | the seed file holds exactly four projects, with ids p1, p2, p3, p4 in order, each with a brief, a category that is 'branding' or '3d', a cover and two images, and no `image` key |
| ProjectsRoute.WithGeneratedId | src/app/api/projects/route.ts:99-102 | a truthy id is kept and the body is unchanged; a falsy one becomes the timestamp string; the id ends truthy and no other key changes |
| ProjectsRoute.GeneratedIdIsTimestamp | src/app/api/projects/route.ts:101 | a generated id reads back as the timestamp it came from |
| ProjectsRoute.ProjectStore.EnsureDataFile | src/app/api/projects/route.ts:9-67 | an absent file is created with the seed projects; an existing one is left alone |
| ProjectsRoute.ProjectStore.Load | src/app/api/projects/route.ts:70-74 | a read returns the current list, or fails, and leaves the (initialised) file as it was |
| ProjectsRoute.ProjectStore.Save | src/app/api/projects/route.ts:77-80 | a write replaces the whole list unless it fails, and then the file is unchanged |
| ProjectsRoute.ProjectStore.Get | src/app/api/projects/route.ts:83-91 | GET answers 200 with the whole list, or 500 'Failed to get projects', and leaves the contents unchanged (an absent file is seeded) |
| ProjectsRoute.ProjectStore.Post | src/app/api/projects/route.ts:94-112 | POST appends the body with its generated id at the end, keeps earlier records, and answers 201 with the stored record; any failure answers 500 and leaves the list unchanged |
| ProjectsRoute.ProjectStore.Put | src/app/api/projects/route.ts:115-134 | PUT replaces only the first record with the body's id, keeping the length and every other position; an unknown id answers 404 with no write; failures answer 500 |
| ProjectsRoute.ProjectStore.Delete | src/app/api/projects/route.ts:137-155 | the list is read before the id is checked; a missing id answers 400 with no write; otherwise every record with the id goes and 200 is answered, whether or not one matched |
| ProjectsRoute.DeleteUnknownStillSucceeds | src/app/api/projects/route.ts:147-150 | deleting an id nobody has still writes the file and answers 200, with the list unchanged |
| ResearchRoute.ResearchStore.EnsureDataFile | src/app/api/research/route.ts:16-20 | an absent file is created holding the empty list (when the data directory exists; see Left out) |
| ResearchRoute.ResearchStore.Load | src/app/api/research/route.ts:23-27 | a read returns the current list, or fails, and leaves the file as it was |
| ResearchRoute.ResearchStore.Save | src/app/api/research/route.ts:29-32 | a write replaces the whole list unless it fails |
| ResearchRoute.ResearchStore.Get | src/app/api/research/route.ts:34-41 | GET answers 200 with the list, or 500 'Failed to get research' |
| ResearchRoute.ResearchStore.Post | src/app/api/research/route.ts:43-53 | POST appends the body exactly as received and answers 200 with it; failures answer 500 and change nothing |
| ResearchRoute.ResearchStore.Put | src/app/api/research/route.ts:55-71 | PUT replaces only the first record with the body's id, keeping the length and the other records; an unknown id answers 404 with no write |
| ResearchRoute.ResearchStore.Delete | src/app/api/research/route.ts:73-94 | a missing id answers 400 before any read; an id nobody has answers 404 with no write; otherwise the list without that id is written, it is shorter, and `{success: true}` is answered |
| AcademicsRoute.AcademicStore.EnsureDataFile | src/app/api/academics/route.ts:16-20 | an absent file is created holding the empty list (when the data directory exists; see Left out) |
| AcademicsRoute.AcademicStore.Load | src/app/api/academics/route.ts:23-27 | a read returns the current list, or fails, and leaves the file as it was |
| AcademicsRoute.AcademicStore.Save | src/app/api/academics/route.ts:29-32 | a write replaces the whole list unless it fails |
| AcademicsRoute.AcademicStore.Get | src/app/api/academics/route.ts:34-41 | GET answers 200 with the list, or 500 'Failed to get academics' |
| AcademicsRoute.AcademicStore.Post | src/app/api/academics/route.ts:43-53 | POST appends the body unchanged and answers 200 with it; failures answer 500 and change nothing |
| AcademicsRoute.AcademicStore.Put | src/app/api/academics/route.ts:55-71 | PUT replaces only the matching index, other records and length unchanged; an unknown id answers 404 and the list is unchanged |
| AcademicsRoute.AcademicStore.Delete | src/app/api/academics/route.ts:73-94 | a missing id answers 400 before reading; removing nothing answers 404 with no write; otherwise the filtered list is written and `{success: true}` answered |
| UploadRoute.IsAllowed | src/app/api/upload/route.ts:19 | the characters that `[^a-zA-Z0-9.-]` does not match; UploadRoute.Sanitize, SanitizeKeepsAllowed and SanitizeFixesAllowed state the filter in its terms |
| UploadRoute.Sanitize | src/app/api/upload/route.ts:19 | the sanitised name holds only ASCII letters, digits, '.' and '-' and is no longer than the original |
| UploadRoute.SanitizeKeepsAllowed | src/app/api/upload/route.ts:19 | every allowed character is kept as often as it occurs, in its original order |
| UploadRoute.SanitizeFixesAllowed | src/app/api/upload/route.ts:19 | a name is unchanged exactly when all its characters are allowed |
| UploadRoute.SanitizeIdempotent | src/app/api/upload/route.ts:19 | sanitising twice is sanitising once |
| UploadRoute.StoredFilename | src/app/api/upload/route.ts:18-23 | the stored name is the timestamp's digits, '-', then the sanitised name; it has no '/', starts with a digit and is neither '.' nor '..', so the write stays inside public/uploads |
| UploadRoute.StoredFilenameInjective | src/app/api/upload/route.ts:18-20 | the stored name determines the timestamp and the sanitised name |
| UploadRoute.Post | src/app/api/upload/route.ts:5-39 | a missing or empty `file` field answers 400 and writes nothing; a text field or a failed write answers 500; a file answers with url '/uploads/' + filename, filename the stored name, and its size and type |
| UploadRoute.UploadedUrlStaysInUploads | src/app/api/upload/route.ts:27-33 | the returned URL is '/uploads/' followed by the stored name, with no further '/' |
| ProjectModal.IsProject | src/components/ProjectModal.tsx:23-25 | the project guard: both `brief` and `category` keys; ProjectModal.Dispatch tries it first and ProjectsShowAsProjects applies it |
| ProjectModal.IsResearch | src/components/ProjectModal.tsx:27-29 | the research guard: `focus` and `field`, with `field` including "AI"; ProjectModal.ResearchOrAcademic relates it to the academic guard |
| ProjectModal.IsAcademic | src/components/ProjectModal.tsx:31-33 | the academic guard: `focus` and `field`, with `field` not including "AI"; ProjectModal.ResearchOrAcademic states the exclusion |
| ProjectModal.ResearchOrAcademic | src/components/ProjectModal.tsx:27-33 | the research and academic guards never both hold, and for an item with `focus` and `field` exactly one holds |
| ProjectModal.FieldOrCategory | src/components/ProjectModal.tsx:35-39 | `field` if present, else `category`, else '' |
| ProjectModal.Status | src/components/ProjectModal.tsx:41-44 | `status` if present, else '' |
| ProjectModal.Dispatch | src/components/ProjectModal.tsx:20-121 | null renders nothing; then the project guard, then the research guard are tried, and every other item takes the academic branch |
| ProjectModal.Spread | src/components/ProjectModal.tsx:58 | spreading an array gives its items, spreading a string gives its characters |
| ProjectModal.Gallery | src/components/ProjectModal.tsx:58 | the gallery is the cover followed by the spread images; undefined `images` throws |
| ProjectModal.ProjectGallery | src/components/ProjectModal.tsx:58 | for a project with a cover and an array of images the gallery has one entry more than the images, the cover first and then every image in order |
| ProjectModal.ProjectsShowAsProjects | src/components/ProjectModal.tsx:23-25 | a conforming project takes the project branch |
| ProjectModal.ResearchShowsAsResearch | src/components/ProjectModal.tsx:27-29 | every research field includes "AI", so a conforming research item takes the research branch |
| ProjectModal.AcademicBranchByField | src/components/ProjectModal.tsx:27-33 | a conforming academic item takes the academic branch unless its field is "AI Research", which shows it as research |
| AdminPage.TabEndpoint | src/app/admin/page.tsx:134-189 | each tab deletes from its own collection: projects, research and academics each map to their own endpoint and no other |
| AdminPage.Endpoint | src/app/admin/page.tsx:196-205 | an item with `brief` goes to /api/projects whatever its other keys; otherwise /api/research exactly when the research rule holds, else /api/academics |
| AdminPage.AnyHasId | src/app/admin/page.tsx:198 | `list.some(x => x.id === item.id)`; AdminPage.SaveTarget states that it agrees with the route's `findIndex` |
| AdminPage.SaveTarget | src/app/admin/page.tsx:191-205 | the endpoint is the one of Endpoint, and the method is PUT exactly when that endpoint's loaded list has an item with the same id, else POST; while that list matches the file, this is exactly when the route's `findIndex` finds the id |
| AdminPage.EditTitle | src/app/admin/page.tsx:507 | the editor's heading names the same kind of item as the endpoint it saves to |
| AdminPage.NewItem | src/app/admin/page.tsx:77-117 | a new item carries the timestamp id and conforms to its interface, with category 'branding', or 'Generative AI'/'Planning', or 'Computer Science'/'Draft' |
| AdminPage.NewItemSavesToItsTab | src/app/admin/page.tsx:276-280 | an item created on a tab is saved back to that tab's endpoint |
| AdminPage.ConformingItemsEndpoint | src/app/admin/page.tsx:196-204 | conforming projects and research go to their own endpoints; a conforming academic item with field "AI Research" goes to /api/research, any other to /api/academics |
| AdminPage.SetField | src/app/admin/page.tsx:454-460 | an input change sets exactly the named key to the value and leaves every other key unchanged |
| AdminPage.SetFieldTwice | src/app/admin/page.tsx:454-460 | of two changes to one key the later wins; changes to different keys commute |
| AdminPage.EditKeepsEndpoint | src/app/admin/page.tsx:454-460 | editing any key other than `brief`, `focus` and `field` never changes where the item is saved |
| AdminPage.ResearchFieldChoiceKeepsEndpoint | src/app/admin/page.tsx:559-565 | choosing any field the research editor offers keeps a research item on /api/research |
| AdminPage.FieldSelectValue | src/app/admin/page.tsx:549 | the Field select shows the same value as the modal's `getFieldOrCategory` |
| AdminPage.ImageAfterUpload | src/app/admin/page.tsx:462-491 | no pick or a refused upload changes nothing; a successful upload sets `image` to the returned url and changes nothing else |
| AdminPage.UploadSetsStoredImage | src/app/admin/page.tsx:476-481 | after an upload the item's image is '/uploads/' followed by the stored file name |
| AdminPage.DeleteRequest | src/app/admin/page.tsx:134-189 | a DELETE is sent only after confirmation, to the tab's endpoint with `?id=` and the id |
| AdminPage.Dashboard.constructor | src/app/admin/page.tsx:52-58 | the dashboard starts on the projects tab with empty lists and no editor |
| AdminPage.Dashboard.SelectTab | src/app/admin/page.tsx:258-260 | a tab click changes only the active tab |
| AdminPage.Dashboard.Loaded | src/app/admin/page.tsx:64-75 | loading replaces the three lists and nothing else |
| AdminPage.Dashboard.AddNew | src/app/admin/page.tsx:276-280 | "Add New" opens the editor on the new item of the active tab |
| AdminPage.Dashboard.Edit | src/app/admin/page.tsx:119-132 | editing opens the editor on the given item |
| AdminPage.Dashboard.Cancel | src/app/admin/page.tsx:435-438 | cancelling closes the editor and clears the item |
| AdminPage.Dashboard.Save | src/app/admin/page.tsx:191-226 | the item goes to Endpoint's endpoint with PUT exactly for a known id and POST exactly for an unknown one; an ok response reloads the lists and closes the editor, anything else changes nothing |
| Listing.ByKey | src/components/pages/PortfolioPage.tsx:31-34 | filter 'all' gives the list unchanged; otherwise every shown item's field equals the filter, and nothing is added |
| Listing.ByKeyKeepsMatches | src/components/pages/PortfolioPage.tsx:31-34 | the shown items keep their order and no item matching the filter is left out |
| Listing.View | src/components/pages/PortfolioPage.tsx:51-54 | the empty-state text shows exactly when not loading and nothing is shown |
| Listing.ListPage.constructor | src/components/pages/PortfolioPage.tsx:16-18 | a list page starts on 'all', with no items, loading |
| Listing.ListPage.SetFilter | src/components/pages/PortfolioPage.tsx:45 | a tag click changes only the filter |
| Listing.ListPage.StartLoading | src/components/pages/PortfolioPage.tsx:25 | a reload starts by showing the loading text |
| Listing.ListPage.Loaded | src/components/pages/PortfolioPage.tsx:24-29 | the fetched items are stored and loading ends, so the page shows the empty text or the cards |
| PortfolioPage.Filtered | src/components/pages/PortfolioPage.tsx:31-34 | 'all' shows every project; any other filter shows only projects of that category |
| PortfolioPage.TagsAreCategories | src/components/pages/PortfolioPage.tsx:40-44 | the filter keys are 'all' followed by exactly the project categories |
| PortfolioPage.CategoriesPartition | src/components/pages/PortfolioPage.tsx:31-44 | projects whose category is 'branding' or '3d' are shared out between those two tags |
| PortfolioPage.SampleProjectsDisplay | src/components/pages/PortfolioPage.tsx:31-44 | the four sample projects are shared out between the two category tags, and each opens in the project layout with a three-picture gallery |
| ResearchPage.Filtered | src/components/pages/ResearchPage.tsx:29-32 | 'all' shows every item; any other filter shows only items of that field |
| ResearchPage.TagsAreFields | src/components/pages/ResearchPage.tsx:39-43 | the filter keys are 'all' followed by exactly the research fields; the curriculum field is labelled 'Design Education' |
| AcademicsPage.Filtered | src/components/pages/AcademicsPage.tsx:30-33 | 'all' shows every item; any other filter shows only items of that field |
| AcademicsPage.TagsAreFields | src/components/pages/AcademicsPage.tsx:40-45 | the filter keys are 'all' followed by exactly the four academic fields |
| ContactPage.IsComplete | src/components/pages/ContactPage.tsx:24 | no field is empty; ContactPage.Form.Submit submits exactly when it holds |
| ContactPage.Form.constructor | src/components/pages/ContactPage.tsx:37-49 | the form starts empty with nothing submitted |
| ContactPage.Form.Type | src/components/pages/ContactPage.tsx:39-48 | typing sets the three inputs and submits nothing |
| ContactPage.Form.Submit | src/components/pages/ContactPage.tsx:17-31 | submission happens exactly when all three fields are non-empty; it passes exactly the three values and then resets the form; otherwise it alerts and leaves the form as it was; every submission ever made was complete |
| PortfolioSite.FirstIndex | src/components/PortfolioSite.tsx:20 | the index of the first '#': it holds '#' and nothing before it does |
| PortfolioSite.RemoveFirst | src/components/PortfolioSite.tsx:20 | `replace('#', '')` removes exactly the character at the first '#' and keeps everything else in order; without '#' the hash is unchanged |
| PortfolioSite.RemoveFirstKeepsLater | src/components/PortfolioSite.tsx:20 | a later '#' survives: "a#b#" becomes "ab#" |
| PortfolioSite.InitialPage | src/components/PortfolioSite.tsx:17-26 | the initial page is always one of the six pages: the hash without its '#' when that names one, else 'home', and 'home' without a window |
| PortfolioSite.HashRoundTrip | src/components/PortfolioSite.tsx:20-32 | the hash written for a page selects the same page on reload |
| PortfolioSite.ThanksMessage | src/components/PortfolioSite.tsx:35 | the toast is "Thanks, " + name + ". I'll get back to you shortly." |
| PortfolioSite.ThanksMessageInjective | src/components/PortfolioSite.tsx:34-36 | different names give different toasts |
| PortfolioSite.Site.constructor | src/components/PortfolioSite.tsx:17-32 | the site starts on the page from the hash, writes it back into the hash, with no modal and a hidden toast |
| PortfolioSite.Site.SetPage | src/components/PortfolioSite.tsx:30-32 | every page change writes the page into the hash, and a reload then reopens it |
| PortfolioSite.Site.OpenModal | src/components/PortfolioSite.tsx:73-75 | opening an item changes only the modal |
| PortfolioSite.Site.CloseModal | src/components/PortfolioSite.tsx:104 | closing the modal sets it to null |
| PortfolioSite.Site.ContactSubmitted | src/components/PortfolioSite.tsx:34-36 | a contact submission shows the toast thanking the visitor by name |
| PortfolioSite.Site.CloseToast | src/components/PortfolioSite.tsx:105 | closing the toast resets it to hidden with an empty message |
| Utils.ClassNames | src/lib/utils.ts:5-7 | `classes.filter(Boolean).join(' ')`; Utils.ClassNamesEmpty, ClassNamesSingle and ClassNamesAppend state its properties |
| Utils.ClassNamesEmpty | src/lib/utils.ts:5-7 | `classNames` is '' exactly when every argument is falsy |
| Utils.ClassNamesSingle | src/lib/utils.ts:6 | a single non-empty string comes back unchanged |
| Utils.ClassNamesAppend | src/lib/utils.ts:6 | falsy arguments contribute nothing, and truthy ones are joined in order with single spaces |
| Utils.JsRemainder | src/lib/utils.ts:29 | JavaScript's truncating `%`: strictly between -b and b, with the sign of the dividend, and differing from it by a multiple of b; Euclidean for a non-negative dividend |
| Utils.JsRemainderDetermined | src/lib/utils.ts:29 | those facts leave exactly one value, so JsRemainder is the truncating remainder |
| Utils.Step | src/lib/utils.ts:29 | one tick moves an index within the slides to the next one, wrapping to 0, and gives NaN with no slides |
| Utils.TicksFromZero | src/lib/utils.ts:26-29 | from the initial 0, k ticks give index k mod length |
| Utils.FullCycle | src/lib/utils.ts:29 | any whole number of rounds of `length` ticks brings the index back to 0 |
| Utils.NoSlides | src/lib/utils.ts:29 | with no slides the index becomes NaN at the first tick and stays NaN |
| Utils.Carousel.constructor | src/lib/utils.ts:26 | the index starts at 0 |
| Utils.Carousel.Tick | src/lib/utils.ts:29 | a tick applies the step, and an index within the slides stays within them |
| Utils.Carousel.Jump | src/lib/utils.ts:33 | `setIndex` sets the index as given |

## Left out

- File-system I/O. Reads, writes and `mkdir` are left out. A failing read, parse or write is the `Faults` input, and a failing write leaves the file as it was. Partial writes are not modelled.
- `ensureDataFile` treats any failing read as an absent file. When an existing file cannot be read it is overwritten: with the four sample projects (src/app/api/projects/route.ts:12-63) or with `[]` (src/app/api/research/route.ts:16-20, src/app/api/academics/route.ts:16-20). That data loss is not modelled: in the model only an absent file is initialised, and an existing file is never replaced by a read.
- The projects route's `ensureDataFile` catches its own errors (src/app/api/projects/route.ts:64-66). The model always creates the file. A failed creation shows up only as the read failure that follows.
- The research and academics routes call `writeFile` on the data directory's path (src/app/api/research/route.ts:11, src/app/api/academics/route.ts:11). When `data/` exists this fails and the failure is caught. When it does not exist, the call creates a regular file named `data`. The uncaught write of the data file at line 19 then fails, so from then on every request to that route that reaches the file answers 500. A DELETE without an id still answers 400, because it returns before reading (src/app/api/research/route.ts:78-80). The projects route's `mkdir` fails the same way; it swallows the error, and its read of the file then fails. The model assumes the data directory exists: ResearchRoute.ResearchStore.EnsureDataFile and AcademicsRoute.AcademicStore.EnsureDataFile always create the file.
- JSON parsing and serialisation are left out. So are `request.json()` and `request.formData()`: the body arrives as a value, and a malformed body (a 500) is not modelled.
- The byte write of an upload is left out. So are the `arrayBuffer`/`Buffer` conversion and the browser's size and type: those arrive as parameters.
- Concurrency between requests is left out. There is no locking, and lost updates between simultaneous requests are not modelled.
- `Date.now()` is a parameter. Time itself, and whether timestamps are unique, are not modelled.
- The fetch wrappers and fetch calls of the pages and the admin dashboard are left out. Fetched lists, the response's `ok` and the reloaded lists are inputs. A failed fetch yielding `[]` (src/app/admin/page.tsx:10-49) is not modelled. The admin page's loaded lists are not tied to the files: when a list is stale or a failed fetch left it `[]`, AdminPage.SaveTarget chooses POST for an item the file already holds, and the route stores a duplicate.
- Query-string encoding is left out. The admin page builds `?id=` without encoding the id, and parsing the URL back (`searchParams.get`) happens outside the model. The routes receive the id as `Option<string>`.
- Record values are only strings and arrays of strings. Numbers, booleans, `null` and nested objects are not modelled, though the routes accept them. These behave differently under `!id` and `===`: a numeric id 0 is falsy, so the projects POST replaces it.
- Object identity is not modelled: an array-valued id is never `===` to anything. That is right for arrays from different parsed files. It is wrong for the admin page's `projects.some(p => p.id === item.id)` when the edited item came from that same list, because then its array id is the same reference.
- `confirm` and `alert` dialogs are left out. Confirmation is a boolean input, and an alert is only counted (`ContactPage.Form.alerts`) or means "nothing changes".
- Timers are left out: the toast's `setTimeout` and the scheduling of `setInterval`. So are keyboard listeners (the modal's Escape key), `useAutoReveal`'s observer, and the re-subscription of the interval when `length` changes. The carousel's length is fixed at creation.
- Presentation is left out: JSX layout, status badge colours, image fallbacks, and the pages HomePage, AboutPage and Testimonials.
- src/middleware.ts always passes requests through, so it has no rule to model. src/app/portfolio/page.tsx and src/app/contact/page.tsx only log. src/data/index.ts holds constants.
- ProjectsRoute.InitialProjects: the contract states the ids, the order, and the keys the modal and the admin router look at. The seed texts and URLs are in the function's body, copied from the source.
- ContactPage.Form.Submit: the contract describes `handleSubmit`. The browser's constraint validation, which is not modelled, runs before it: the email input has `type="email"` (src/components/pages/ContactPage.tsx:44) and the form's `Button` submits by default, so a non-empty malformed email never reaches `handleSubmit`.
- Decimal.NatToString: it writes every timestamp in plain digits. `Number.prototype.toString` switches to exponent form from 1e21, so ProjectsRoute.WithGeneratedId and UploadRoute.StoredFilename assume timestamps below 10^21 milliseconds.
- Utils.Step: for an index outside [0, length), which only `setIndex` can produce, the contract states nothing beyond NaN propagation. The body computes JavaScript's truncating remainder.
