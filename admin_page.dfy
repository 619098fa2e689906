/** The decision rules of the admin dashboard (src/app/admin/page.tsx): which endpoint and
    HTTP method a saved item goes to, the defaults of new items, the edit form's field
    updates, the image update after an upload, and the confirmation gate before a delete. */
module AdminPage {
  import opened Json
  import opened Decimal
  import opened Types
  import opened Collection
  import UploadRoute
  import PM = ProjectModal

  const ProjectsApi: string := "/api/projects"
  const ResearchApi: string := "/api/research"
  const AcademicsApi: string := "/api/academics"

  /** The dashboard's tabs. */
  datatype Tab = ProjectsTab | ResearchTab | AcademicsTab

  /** The collection endpoint a tab lists and deletes from. */
  function TabEndpoint(tab: Tab): (e: string)
    ensures e in {ProjectsApi, ResearchApi, AcademicsApi}
    ensures tab == ProjectsTab <==> e == ProjectsApi
    ensures tab == ResearchTab <==> e == ResearchApi
    ensures tab == AcademicsTab <==> e == AcademicsApi
  {
    match tab
    case ProjectsTab => ProjectsApi
    case ResearchTab => ResearchApi
    case AcademicsTab => AcademicsApi
  }

  /** The endpoint `handleSaveItem` picks: any item with a `brief` is a project, whatever its
      other keys; otherwise the research guard decides between research and academics. */
  function Endpoint(item: Record): (e: string)
    ensures e in {ProjectsApi, ResearchApi, AcademicsApi}
    ensures e == ProjectsApi <==> "brief" in item
    ensures e == ResearchApi <==> "brief" !in item && PM.IsResearch(item)
    ensures e == AcademicsApi <==> "brief" !in item && !PM.IsResearch(item)
  {
    if "brief" in item then ProjectsApi
    else if PM.IsResearch(item) then ResearchApi
    else AcademicsApi
  }

  /** `list.some(x => x.id === id)` */
  predicate AnyHasId(rs: seq<Record>, id: Option<Value>) {
    exists j | 0 <= j < |rs| :: HasId(rs[j], id)
  }

  /** `handleSaveItem`'s choice of `endpoint` and `method`: PUT exactly when the list loaded
      for the chosen endpoint already holds an item with the same id, so that the route's
      PUT finds it, and POST otherwise. The body keeps the page's own test chain; the
      contract ties it to Endpoint, the one definition of the routing rule. */
  method SaveTarget(item: Record, projects: seq<Record>, research: seq<Record>, academics: seq<Record>)
    returns (endpoint: string, httpMethod: string)
    ensures endpoint == Endpoint(item)
    ensures var list := if endpoint == ProjectsApi then projects
                        else if endpoint == ResearchApi then research else academics;
      && (httpMethod == "PUT" <==> AnyHasId(list, Lookup(item, "id")))
      && (httpMethod == "PUT" <==> FindIndex(list, Lookup(item, "id")) != -1)
      && (httpMethod == "POST" <==> !AnyHasId(list, Lookup(item, "id")))
  {
    endpoint := "";
    httpMethod := "POST";
    var id := Lookup(item, "id");
    if "brief" in item {
      endpoint := ProjectsApi;
      httpMethod := if FindIndex(projects, id) != -1 then "PUT" else "POST";
    } else if "focus" in item && "field" in item && Includes(item["field"], "AI") {
      endpoint := ResearchApi;
      httpMethod := if FindIndex(research, id) != -1 then "PUT" else "POST";
    } else {
      endpoint := AcademicsApi;
      httpMethod := if FindIndex(academics, id) != -1 then "PUT" else "POST";
    }
  }

  /** The edit modal's heading, which names the same kind of item as the endpoint it saves to.
      The body keeps the modal's own `isProject`/`isResearch` chain; the contract ties it to Endpoint. */
  function EditTitle(form: Record): (t: string)
    ensures t == "Edit Project" <==> Endpoint(form) == ProjectsApi
    ensures t == "Edit Research" <==> Endpoint(form) == ResearchApi
    ensures t == "Edit Academic" <==> Endpoint(form) == AcademicsApi
  {
    if "brief" in form then "Edit Project"
    else if PM.IsResearch(form) then "Edit Research"
    else "Edit Academic"
  }

  /** `handleAddProject` */
  function NewProject(now: nat): Record {
    map["id" := Str(NatToString(now)), "title" := Str(""), "category" := Str("branding"),
        "cover" := Str(""), "brief" := Str(""), "images" := Strs([]), "image" := Str("")]
  }

  /** `handleAddResearch` */
  function NewResearch(now: nat): Record {
    map["id" := Str(NatToString(now)), "title" := Str(""), "field" := Str("Generative AI"),
        "description" := Str(""), "image" := Str(""), "status" := Str("Planning"), "focus" := Str("")]
  }

  /** `handleAddAcademic` */
  function NewAcademic(now: nat): Record {
    map["id" := Str(NatToString(now)), "title" := Str(""), "field" := Str("Computer Science"),
        "description" := Str(""), "image" := Str(""), "status" := Str("Draft"), "focus" := Str("")]
  }

  /** The item the "Add New" button of a tab opens in the editor. */
  function NewItem(tab: Tab, now: nat): (r: Record)
    ensures Lookup(r, "id") == Some(Str(NatToString(now)))
    ensures tab == ProjectsTab ==> Types.ConformsToProject(r) && r["category"] == Str("branding")
    ensures tab == ResearchTab ==> Types.ConformsToResearch(r) && r["field"] == Str("Generative AI") && r["status"] == Str("Planning")
    ensures tab == AcademicsTab ==> Types.ConformsToAcademic(r) && r["field"] == Str("Computer Science") && r["status"] == Str("Draft")
  {
    match tab
    case ProjectsTab => NewProject(now)
    case ResearchTab => NewResearch(now)
    case AcademicsTab => NewAcademic(now)
  }

  /** A new item is saved back to the endpoint of the tab it was created on. */
  lemma NewItemSavesToItsTab(tab: Tab, now: nat)
    ensures Endpoint(NewItem(tab, now)) == TabEndpoint(tab)
  {
    var r := NewItem(tab, now);
    if tab == ResearchTab {
      assert OccursAt("AI", r["field"].s, 11);
    } else if tab == AcademicsTab {
      NotSubstringWithoutHead("AI", r["field"].s);
    }
  }

  /** Conforming research is saved to /api/research, and a conforming academic item is saved to
      /api/academics unless its field is "AI Research", which the research rule captures. */
  lemma ConformingItemsEndpoint(r: Record)
    ensures Types.ConformsToProject(r) ==> Endpoint(r) == ProjectsApi
    ensures Types.ConformsToResearch(r) ==> Endpoint(r) == ResearchApi
    ensures Types.ConformsToAcademic(r) ==>
      Endpoint(r) == (if r["field"].s == "AI Research" then ResearchApi else AcademicsApi)
  {
    if Types.ConformsToProject(r) {
      assert "brief" in ProjectKeys;
    }
    if Types.ConformsToResearch(r) {
      PM.ResearchShowsAsResearch(r);
    }
    if Types.ConformsToAcademic(r) {
      PM.AcademicBranchByField(r);
    }
  }

  /** `handleInputChange`: the named control's key is set to its value (`value || ''` is the
      value itself for a string). */
  function SetField(form: Record, name: string, value: string): (r: Record)
    ensures r.Keys == form.Keys + {name}
    ensures r[name] == Str(value)
    ensures forall k | k in form && k != name :: r[k] == form[k]
  {
    form[name := Str(value)]
  }

  /** Of two changes to the same control the later one wins; changes to different controls commute. */
  lemma SetFieldTwice(form: Record, n1: string, v1: string, n2: string, v2: string)
    ensures n1 == n2 ==> SetField(SetField(form, n1, v1), n2, v2) == SetField(form, n2, v2)
    ensures n1 != n2 ==> SetField(SetField(form, n1, v1), n2, v2) == SetField(SetField(form, n2, v2), n1, v1)
  {
  }

  /** Editing a control other than `brief`, `focus` and `field` never changes where the item is saved. */
  lemma EditKeepsEndpoint(form: Record, name: string, value: string)
    requires name != "brief" && name != "focus" && name != "field"
    ensures Endpoint(SetField(form, name, value)) == Endpoint(form)
  {
  }

  /** Every field the research editor offers includes "AI", so choosing one keeps a research item research. */
  lemma ResearchFieldChoiceKeepsEndpoint(form: Record, value: string)
    requires Endpoint(form) == ResearchApi && value in ResearchFields
    ensures Endpoint(SetField(form, "field", value)) == ResearchApi
  {
    var r := SetField(form, "field", value);
    if value == "Generative AI" {
      assert OccursAt("AI", value, 11);
    } else if value == "AI Coding" {
      assert OccursAt("AI", value, 0);
    } else {
      assert value[0] == 'A' && value[1] == 'I';
      assert OccursAt("AI", value, 0);
    }
  }

  /** The value of the Field select: `('field' in formData ? formData.field : formData.category) || ''`. */
  function FieldSelectValue(form: Record): (v: Value)
    ensures v == PM.FieldOrCategory(form)
  {
    var picked := if "field" in form then Some(form["field"]) else Lookup(form, "category");
    if Truthy(picked) then picked.value else Str("")
  }

  /** `handleFileUpload`: nothing happens when no file was picked or the upload was refused;
      a successful upload sets `image` to the returned URL and changes nothing else. */
  function ImageAfterUpload(form: Record, upload: Option<UploadRoute.UploadResponse>): (r: Record)
    ensures upload.Some? && upload.value.Uploaded? ==>
      r.Keys == form.Keys + {"image"} && r["image"] == Str(upload.value.url)
      && forall k | k in form && k != "image" :: r[k] == form[k]
    ensures upload.None? || upload.value.Failed? ==> r == form
  {
    if upload.Some? && upload.value.Uploaded? then SetField(form, "image", upload.value.url) else form
  }

  /** After uploading a file, the item's image is the public URL of the stored file. */
  lemma UploadSetsStoredImage(form: Record, name: string, size: nat, mime: string, now: nat)
    ensures var o := UploadRoute.Post(UploadRoute.Upload(name, size, mime), now, false);
      ImageAfterUpload(form, Some(o.response))["image"].s
        == UploadRoute.UploadsPrefix + UploadRoute.StoredFilename(now, name)
  {
  }

  /** `handleDelete…`: the DELETE URL is requested only after the user confirms. */
  function DeleteRequest(tab: Tab, id: string, confirmed: bool): (url: Option<string>)
    ensures url.Some? <==> confirmed
    ensures url.Some? ==> |url.value| == |TabEndpoint(tab)| + 4 + |id|
    ensures url.Some? ==> url.value[..|TabEndpoint(tab)| + 4] == TabEndpoint(tab) + "?id="
                          && url.value[|TabEndpoint(tab)| + 4..] == id
  {
    if confirmed then Some(TabEndpoint(tab) + "?id=" + id) else None
  }

  /** The dashboard's state: the three loaded lists, the open tab and the item being edited. */
  class Dashboard {
    var tab: Tab
    var projects: seq<Record>
    var research: seq<Record>
    var academics: seq<Record>
    var editing: Option<Record>
    var modalOpen: bool

    /** Before `loadData` answers: the projects tab, empty lists and no editor. */
    constructor ()
      ensures tab == ProjectsTab && projects == [] && research == [] && academics == []
      ensures editing == None && !modalOpen
    {
      tab := ProjectsTab;
      projects, research, academics := [], [], [];
      editing, modalOpen := None, false;
    }

    /** `setActiveTab` */
    method SelectTab(t: Tab)
      modifies this
      ensures tab == t
      ensures projects == old(projects) && research == old(research) && academics == old(academics)
      ensures editing == old(editing) && modalOpen == old(modalOpen)
    {
      tab := t;
    }

    /** `loadData`: the three lists as fetched (a failed fetch yields an empty list). */
    method Loaded(p: seq<Record>, r: seq<Record>, a: seq<Record>)
      modifies this
      ensures projects == p && research == r && academics == a
      ensures tab == old(tab) && editing == old(editing) && modalOpen == old(modalOpen)
    {
      projects, research, academics := p, r, a;
    }

    /** The "Add New" button: opens the editor on a new item of the current tab. */
    method AddNew(now: nat)
      modifies this
      ensures editing == Some(NewItem(tab, now)) && modalOpen
      ensures tab == old(tab) && projects == old(projects) && research == old(research) && academics == old(academics)
    {
      editing := Some(NewItem(tab, now));
      modalOpen := true;
    }

    /** `handleEdit…`: opens the editor on an existing item. */
    method Edit(item: Record)
      modifies this
      ensures editing == Some(item) && modalOpen
      ensures tab == old(tab) && projects == old(projects) && research == old(research) && academics == old(academics)
    {
      editing := Some(item);
      modalOpen := true;
    }

    /** The editor's cancel button. */
    method Cancel()
      modifies this
      ensures editing == None && !modalOpen
      ensures tab == old(tab) && projects == old(projects) && research == old(research) && academics == old(academics)
    {
      editing := None;
      modalOpen := false;
    }

    /** `handleSaveItem`: sends the item to the chosen endpoint; when the response is ok the lists
        are reloaded and the editor is closed, otherwise (an alert) nothing changes. */
    method Save(item: Record, responseOk: bool, p: seq<Record>, r: seq<Record>, a: seq<Record>)
      returns (endpoint: string, httpMethod: string)
      modifies this
      ensures endpoint == Endpoint(item)
      ensures var list := if endpoint == ProjectsApi then old(projects)
                          else if endpoint == ResearchApi then old(research) else old(academics);
        && (httpMethod == "PUT" <==> AnyHasId(list, Lookup(item, "id")))
        && (httpMethod == "POST" <==> !AnyHasId(list, Lookup(item, "id")))
      ensures responseOk ==> projects == p && research == r && academics == a && editing == None && !modalOpen
      ensures !responseOk ==> projects == old(projects) && research == old(research) && academics == old(academics)
                              && editing == old(editing) && modalOpen == old(modalOpen)
      ensures tab == old(tab)
    {
      endpoint, httpMethod := SaveTarget(item, projects, research, academics);
      if responseOk {
        Loaded(p, r, a);
        modalOpen := false;
        editing := None;
      }
    }
  }
}
