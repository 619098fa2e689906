/** The `/api/projects` route (src/app/api/projects/route.ts): GET, POST, PUT and DELETE
    over the project list kept in data/projects.json. Each request reads the whole file,
    changes the list in memory and writes the whole list back. */
module ProjectsRoute {
  import opened Json
  import opened Decimal
  import opened Collection
  import opened Types

  // The sample projects' texts and image URLs, as `ensureDataFile` writes them.
  const AstraTitle: string := "Astra Coffee — Brand System"
  const AstraCover: string := "https://images.unsplash.com/photo-1512580770426-cbed71c40e94?q=80&w=1600&auto=format&fit=crop"
  const AstraBrief: string := "End-to-end brand identity for a specialty coffee roastery: logotype, palette, packaging, and storefront system."
  const AstraImages: seq<string> := ["https://images.unsplash.com/photo-1483058712412-4245e9b90334?q=80&w=1600&auto=format&fit=crop",
                                    "https://images.unsplash.com/photo-1530023367847-a683933f4175?q=80&w=1600&auto=format&fit=crop"]
  const MonolithTitle: string := "Monolith Lamp — 3D Product Visual"
  const MonolithCover: string := "https://images.unsplash.com/photo-1496317899792-9d7dbcd928a1?q=80&w=1600&auto=format&fit=crop"
  const MonolithBrief: string := "Photoreal 3D render exploring brushed metal, soft emissive lighting, and cinematic shadows for a concept lamp."
  const MonolithImages: seq<string> := ["https://images.unsplash.com/photo-1553925585-b929523b47fb?q=80&w=1600&auto=format&fit=crop",
                                    "https://images.unsplash.com/photo-1574701148212-8518049c7d7b?q=80&w=1600&auto=format&fit=crop"]
  const HarborTitle: string := "Harbor & Co. — Packaging Suite"
  const HarborCover: string := "https://images.unsplash.com/photo-1521577352947-9bb58764b69a?q=80&w=1600&auto=format&fit=crop"
  const HarborBrief: string := "Premium packaging direction with tactile papers, gilded foils, and modular label grid for a boutique grocer."
  const HarborImages: seq<string> := ["https://images.unsplash.com/photo-1512436991641-6745cdb1723f?q=80&w=1600&auto=format&fit=crop",
                                    "https://images.unsplash.com/photo-1513617339633-75ae9a3b342a?q=80&w=1600&auto=format&fit=crop"]
  const NebulaTitle: string := "Nebula Chair — 3D Concept"
  const NebulaCover: string := "https://images.unsplash.com/photo-1552919973-030017b86647?q=80&w=1600&auto=format&fit=crop"
  const NebulaBrief: string := "Parametric seat form with velvet microfibers; studio renders and close-up material studies for a concept chair."
  const NebulaImages: seq<string> := ["https://images.unsplash.com/photo-1524758631624-e2822e304c36?q=80&w=1600&auto=format&fit=crop",
                                    "https://images.unsplash.com/photo-1549492423-400259a2e574?q=80&w=1600&auto=format&fit=crop"]

  function SeedProject(id: string, title: string, category: string, cover: string, brief: string, images: seq<string>): Record {
    map["id" := Str(id), "title" := Str(title), "category" := Str(category),
        "cover" := Str(cover), "brief" := Str(brief), "images" := Strs(images)]
  }

  /** The four sample projects `ensureDataFile` writes when data/projects.json is absent. */
  function InitialProjects(): (r: seq<Record>)
    ensures |r| == 4
    ensures Lookup(r[0], "id") == Some(Str("p1")) && Lookup(r[1], "id") == Some(Str("p2"))
    ensures Lookup(r[2], "id") == Some(Str("p3")) && Lookup(r[3], "id") == Some(Str("p4"))
    ensures forall i | 0 <= i < 4 :: "brief" in r[i] && "category" in r[i] && "image" !in r[i]
    ensures forall i | 0 <= i < 4 :: IsOneOf(r[i], "category", ProjectCategories) && IsText(r[i], "cover")
                                     && "images" in r[i] && r[i]["images"].Strs? && |r[i]["images"].items| == 2
  {
    [ SeedProject("p1", AstraTitle, "branding", AstraCover, AstraBrief, AstraImages),
      SeedProject("p2", MonolithTitle, "3d", MonolithCover, MonolithBrief, MonolithImages),
      SeedProject("p3", HarborTitle, "branding", HarborCover, HarborBrief, HarborImages),
      SeedProject("p4", NebulaTitle, "3d", NebulaCover, NebulaBrief, NebulaImages) ]
  }

  /** POST's id rule: a falsy `id` is replaced by `Date.now().toString()`, a truthy one is kept. */
  function WithGeneratedId(body: Record, now: nat): (r: Record)
    ensures Truthy(Lookup(body, "id")) ==> r == body
    ensures !Truthy(Lookup(body, "id")) ==> Lookup(r, "id") == Some(Str(NatToString(now)))
    ensures Truthy(Lookup(r, "id"))
    ensures r.Keys == body.Keys + {"id"}
    ensures forall k | k in body && k != "id" :: r[k] == body[k]
  {
    if Truthy(Lookup(body, "id")) then body else body["id" := Str(NatToString(now))]
  }

  /** A generated id reads back as the timestamp it was made from. */
  lemma GeneratedIdIsTimestamp(body: Record, now: nat)
    requires !Truthy(Lookup(body, "id"))
    ensures NumeralValue(WithGeneratedId(body, now)["id"].s) == now
  {
    ValueOfNatToString(now);
  }

  class ProjectStore {
    /** The parsed contents of data/projects.json; None while the file does not exist. */
    var file: Option<seq<Record>>

    constructor (file: Option<seq<Record>>)
      ensures this.file == file
    {
      this.file := file;
    }

    /** The list a read returns once `ensureDataFile` has run. */
    function Contents(): seq<Record>
      reads this
    {
      if file.None? then InitialProjects() else file.value
    }

    /** `ensureDataFile`: an absent file is created holding the four sample projects. */
    method EnsureDataFile()
      modifies this
      ensures file == Some(old(Contents()))
    {
      if file.None? {
        file := Some(InitialProjects());
      }
    }

    /** `getProjects`: None when reading or parsing the file throws. */
    method Load(faults: Faults) returns (rs: Option<seq<Record>>)
      modifies this
      ensures file == Some(old(Contents()))
      ensures rs == if faults.readFails then None else Some(old(Contents()))
    {
      EnsureDataFile();
      if faults.readFails {
        return None;
      }
      rs := Some(file.value);
    }

    /** `saveProjects`: overwrites the whole file unless the write throws. */
    method Save(rs: seq<Record>, faults: Faults) returns (ok: bool)
      modifies this
      ensures ok == !faults.writeFails
      ensures file == if ok then Some(rs) else Some(old(Contents()))
    {
      EnsureDataFile();
      if faults.writeFails {
        return false;
      }
      file := Some(rs);
      ok := true;
    }

    /** GET: the whole list, or 500. */
    method Get(faults: Faults) returns (resp: Response)
      modifies this
      ensures file == Some(old(Contents()))
      ensures resp == if faults.readFails then Response(500, Error("Failed to get projects"))
                      else Response(200, Items(old(Contents())))
    {
      var loaded := Load(faults);
      if loaded.None? {
        return Response(500, Error("Failed to get projects"));
      }
      resp := Response(200, Items(loaded.value));
    }

    /** POST: appends the body, with an id generated from `now` when it has none, and answers 201. */
    method Post(body: Record, now: nat, faults: Faults) returns (resp: Response, saved: bool)
      modifies this
      ensures saved <==> !faults.readFails && !faults.writeFails
      ensures saved ==> Contents() == old(Contents()) + [WithGeneratedId(body, now)]
      ensures saved ==> resp == Response(201, Item(WithGeneratedId(body, now)))
      ensures !saved ==> file == Some(old(Contents())) && resp == Response(500, Error("Failed to create project"))
    {
      var loaded := Load(faults);
      if loaded.None? {
        return Response(500, Error("Failed to create project")), false;
      }
      var projects := loaded.value;
      var newProject := WithGeneratedId(body, now);
      projects := projects + [newProject];
      saved := Save(projects, faults);
      if !saved {
        return Response(500, Error("Failed to create project")), false;
      }
      resp := Response(201, Item(newProject));
    }

    /** PUT: replaces the first project whose id is the body's id, or answers 404 without writing. */
    method Put(body: Record, faults: Faults) returns (resp: Response, saved: bool)
      modifies this
      ensures var i := FindIndex(old(Contents()), Lookup(body, "id"));
        && (saved <==> !faults.readFails && i != -1 && !faults.writeFails)
        && (faults.readFails ==> resp == Response(500, Error("Failed to update project")))
        && (!faults.readFails && i == -1 ==> resp == Response(404, Error("Project not found")))
        && (!faults.readFails && i != -1 && faults.writeFails ==> resp == Response(500, Error("Failed to update project")))
        && (saved ==> resp == Response(200, Item(body))
                      && |Contents()| == |old(Contents())| && Contents()[i] == body
                      && forall j | 0 <= j < |Contents()| && j != i :: Contents()[j] == old(Contents())[j])
        && (!saved ==> file == Some(old(Contents())))
    {
      var loaded := Load(faults);
      if loaded.None? {
        return Response(500, Error("Failed to update project")), false;
      }
      var projects := loaded.value;
      var id := Lookup(body, "id");
      var index := FindIndex(projects, id);
      if index == -1 {
        return Response(404, Error("Project not found")), false;
      }
      projects := projects[index := body];
      saved := Save(projects, faults);
      if !saved {
        return Response(500, Error("Failed to update project")), false;
      }
      resp := Response(200, Item(body));
    }

    /** DELETE: reads first, then answers 400 to a missing id; otherwise writes the list
        without every project of that id and reports success, whether or not one matched. */
    method Delete(id: Option<string>, faults: Faults) returns (resp: Response, saved: bool)
      modifies this
      ensures saved <==> !faults.readFails && !MissingId(id) && !faults.writeFails
      ensures faults.readFails ==> resp == Response(500, Error("Failed to delete project"))
      ensures !faults.readFails && MissingId(id) ==> resp == Response(400, Error("Project ID required"))
      ensures !faults.readFails && !MissingId(id) && faults.writeFails ==> resp == Response(500, Error("Failed to delete project"))
      ensures saved ==> resp == Response(200, Message("Project deleted successfully"))
                        && Contents() == WithoutId(old(Contents()), id.value)
      ensures !saved ==> file == Some(old(Contents()))
    {
      var loaded := Load(faults);
      if loaded.None? {
        return Response(500, Error("Failed to delete project")), false;
      }
      if MissingId(id) {
        return Response(400, Error("Project ID required")), false;
      }
      var filtered := WithoutId(loaded.value, id.value);
      saved := Save(filtered, faults);
      if !saved {
        return Response(500, Error("Failed to delete project")), false;
      }
      resp := Response(200, Message("Project deleted successfully"));
    }
  }

  /** A DELETE that matches nothing still rewrites the file and answers success:
      this route never answers 404 to a DELETE. */
  method DeleteUnknownStillSucceeds(projects: seq<Record>, id: string)
    requires id != "" && FindIndex(projects, Some(Str(id))) == -1
  {
    var store := new ProjectStore(Some(projects));
    var resp, saved := store.Delete(Some(id), Faults(false, false));
    WithoutIdSameLength(projects, id);
    assert saved && resp.status == 200 && store.Contents() == projects;
  }
}
