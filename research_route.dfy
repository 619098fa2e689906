/** The `/api/research` route (src/app/api/research/route.ts): GET, POST, PUT and DELETE
    over the research list kept in data/research.json. Unlike the projects route it
    stores POST bodies as given, answers 200 to POST, checks DELETE's id before reading,
    and answers 404 to a DELETE that removes nothing. */
module ResearchRoute {
  import opened Json
  import opened Collection

  class ResearchStore {
    /** The parsed contents of data/research.json; None while the file does not exist. */
    var file: Option<seq<Record>>

    constructor (file: Option<seq<Record>>)
      ensures this.file == file
    {
      this.file := file;
    }

    /** The list a read returns once `ensureDataFile` has run: an absent file reads as empty. */
    function Contents(): seq<Record>
      reads this
    {
      if file.None? then [] else file.value
    }

    /** `ensureDataFile`: an absent file is created holding `[]`. */
    method EnsureDataFile()
      modifies this
      ensures file == Some(old(Contents()))
    {
      if file.None? {
        file := Some([]);
      }
    }

    /** `getResearch`: None when reading or parsing the file throws. */
    method Load(faults: Faults) returns (rs: Option<seq<Record>>)
      modifies this
      ensures file == Some(old(Contents()))
      ensures rs == if faults.readFails then None else Some(old(Contents()))
    {
      EnsureDataFile();
      if faults.readFails {
        return None;
      }
      rs := Some(file.value);
    }

    /** `saveResearch`: overwrites the whole file unless the write throws. */
    method Save(rs: seq<Record>, faults: Faults) returns (ok: bool)
      modifies this
      ensures ok == !faults.writeFails
      ensures file == if ok then Some(rs) else Some(old(Contents()))
    {
      EnsureDataFile();
      if faults.writeFails {
        return false;
      }
      file := Some(rs);
      ok := true;
    }

    /** GET: the whole list, or 500. */
    method Get(faults: Faults) returns (resp: Response)
      modifies this
      ensures file == Some(old(Contents()))
      ensures resp == if faults.readFails then Response(500, Error("Failed to get research"))
                      else Response(200, Items(old(Contents())))
    {
      var loaded := Load(faults);
      if loaded.None? {
        return Response(500, Error("Failed to get research"));
      }
      resp := Response(200, Items(loaded.value));
    }

    /** POST: appends the body exactly as received and echoes it with status 200. */
    method Post(body: Record, faults: Faults) returns (resp: Response, saved: bool)
      modifies this
      ensures saved <==> !faults.readFails && !faults.writeFails
      ensures saved ==> Contents() == old(Contents()) + [body] && resp == Response(200, Item(body))
      ensures !saved ==> file == Some(old(Contents())) && resp == Response(500, Error("Failed to create research"))
    {
      var loaded := Load(faults);
      if loaded.None? {
        return Response(500, Error("Failed to create research")), false;
      }
      var research := loaded.value + [body];
      saved := Save(research, faults);
      if !saved {
        return Response(500, Error("Failed to create research")), false;
      }
      resp := Response(200, Item(body));
    }

    /** PUT: replaces the first item whose id is the body's id, or answers 404 without writing. */
    method Put(body: Record, faults: Faults) returns (resp: Response, saved: bool)
      modifies this
      ensures var i := FindIndex(old(Contents()), Lookup(body, "id"));
        && (saved <==> !faults.readFails && i != -1 && !faults.writeFails)
        && (faults.readFails ==> resp == Response(500, Error("Failed to update research")))
        && (!faults.readFails && i == -1 ==> resp == Response(404, Error("Research not found")))
        && (!faults.readFails && i != -1 && faults.writeFails ==> resp == Response(500, Error("Failed to update research")))
        && (saved ==> resp == Response(200, Item(body))
                      && |Contents()| == |old(Contents())| && Contents()[i] == body
                      && forall j | 0 <= j < |Contents()| && j != i :: Contents()[j] == old(Contents())[j])
        && (!saved ==> file == Some(old(Contents())))
    {
      var loaded := Load(faults);
      if loaded.None? {
        return Response(500, Error("Failed to update research")), false;
      }
      var research := loaded.value;
      var index := FindIndex(research, Lookup(body, "id"));
      if index != -1 {
        research := research[index := body];
        saved := Save(research, faults);
        if !saved {
          return Response(500, Error("Failed to update research")), false;
        }
        return Response(200, Item(body)), true;
      }
      resp, saved := Response(404, Error("Research not found")), false;
    }

    /** DELETE: answers 400 to a missing id before touching the file; otherwise answers 404
        when no item has the id, and else writes the list without every item of that id. */
    method Delete(id: Option<string>, faults: Faults) returns (resp: Response, saved: bool)
      modifies this
      ensures MissingId(id) ==> file == old(file) && !saved && resp == Response(400, Error("ID required"))
      ensures !MissingId(id) ==>
        var found := FindIndex(old(Contents()), Some(Str(id.value))) != -1;
        && (saved <==> !faults.readFails && found && !faults.writeFails)
        && (faults.readFails ==> resp == Response(500, Error("Failed to delete research")))
        && (!faults.readFails && !found ==> resp == Response(404, Error("Research not found")))
        && (!faults.readFails && found && faults.writeFails ==> resp == Response(500, Error("Failed to delete research")))
        && (saved ==> resp == Response(200, Succeeded) && Contents() == WithoutId(old(Contents()), id.value)
                      && |Contents()| < |old(Contents())|)
        && (!saved ==> file == Some(old(Contents())))
    {
      if MissingId(id) {
        return Response(400, Error("ID required")), false;
      }
      var loaded := Load(faults);
      if loaded.None? {
        return Response(500, Error("Failed to delete research")), false;
      }
      var research := loaded.value;
      var filtered := WithoutId(research, id.value);
      WithoutIdSameLength(research, id.value);
      if |filtered| == |research| {
        return Response(404, Error("Research not found")), false;
      }
      saved := Save(filtered, faults);
      if !saved {
        return Response(500, Error("Failed to delete research")), false;
      }
      resp := Response(200, Succeeded);
    }
  }
}
