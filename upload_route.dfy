/** The `/api/upload` route (src/app/api/upload/route.ts): it takes the `file` field of
    a multipart form, stores it under public/uploads with a timestamped, sanitised name
    and answers with the public URL of the stored file. */
module UploadRoute {
  import opened Seqs
  import opened Decimal
  import opened Json

  /** What `formData.get('file')` returns: nothing, a plain text field, or an uploaded file. */
  datatype FormEntry =
    | Missing
    | Text(value: string)
    | Upload(name: string, size: nat, mime: string)

  /** The JSON answer: the stored file's description, or `{ error }` with its status. */
  datatype UploadResponse =
    | Uploaded(url: string, filename: string, size: nat, mime: string)
    | Failed(status: int, error: string)

  /** The route's answer together with the name of the file it created, if any. */
  datatype Outcome = Outcome(response: UploadResponse, stored: Option<string>)

  const UploadsPrefix: string := "/uploads/"

  /** The characters the regular expression `[^a-zA-Z0-9.-]` does not match. */
  predicate IsAllowed(c: char) {
    ('a' <= c <= 'z') || ('A' <= c <= 'Z') || ('0' <= c <= '9') || c == '.' || c == '-'
  }

  /** `name.replace(/[^a-zA-Z0-9.-]/g, '')`: the name with every other character deleted. */
  function Sanitize(name: string): (r: string)
    ensures |r| <= |name|
    ensures forall i | 0 <= i < |r| :: IsAllowed(r[i])
  {
    Filter(name, IsAllowed)
  }

  /** Sanitising keeps every allowed character, as often as it occurs and in its order. */
  lemma SanitizeKeepsAllowed(name: string, c: char)
    requires IsAllowed(c)
    ensures multiset(Sanitize(name))[c] == multiset(name)[c]
    ensures IsSubsequence(Sanitize(name), name)
  {
    FilterKeepsMatches(name, IsAllowed, c);
    FilterIsSubsequence(name, IsAllowed);
  }

  /** A name is left as it is exactly when all its characters are allowed. */
  lemma SanitizeFixesAllowed(name: string)
    ensures Sanitize(name) == name <==> forall i | 0 <= i < |name| :: IsAllowed(name[i])
  {
    FilterKeepsAll(name, IsAllowed);
  }

  /** Sanitising twice is sanitising once. */
  lemma SanitizeIdempotent(name: string)
    ensures Sanitize(Sanitize(name)) == Sanitize(name)
  {
    FilterIdempotent(name, IsAllowed);
  }

  /** `${timestamp}-${originalName}`: the name the file is written under. */
  function StoredFilename(now: nat, name: string): (r: string)
    ensures |r| == |NatToString(now)| + 1 + |Sanitize(name)|
    ensures r[..|NatToString(now)|] == NatToString(now) && r[|NatToString(now)|] == '-'
    ensures r[|NatToString(now)| + 1..] == Sanitize(name)
    ensures '/' !in r
    ensures IsDigit(r[0]) && r != "." && r != ".."
  {
    var r := NatToString(now) + "-" + Sanitize(name);
    assert forall i | 0 <= i < |r| :: IsDigit(r[i]) || IsAllowed(r[i]);
    r
  }

  /** The stored name determines the timestamp and the sanitised name it was made from. */
  lemma {:induction false} StoredFilenameInjective(t1: nat, n1: string, t2: nat, n2: string)
    requires StoredFilename(t1, n1) == StoredFilename(t2, n2)
    ensures t1 == t2 && Sanitize(n1) == Sanitize(n2)
  {
    var a, c := NatToString(t1), NatToString(t2);
    assert |a| == |c|;
    NatToStringInjective(t1, t2);
  }

  /** POST: a missing or empty `file` field is refused with 400 before anything is written; a
      non-empty text field has no `arrayBuffer`, so the call throws and the answer is 500; a
      file is written under its stored name, and a failing write also gives 500. */
  function Post(entry: FormEntry, now: nat, writeFails: bool): (o: Outcome)
    ensures (entry.Missing? || entry == Text("")) ==> o == Outcome(Failed(400, "No file received"), None)
    ensures entry.Text? && entry.value != "" ==> o == Outcome(Failed(500, "Upload failed"), None)
    ensures entry.Upload? && writeFails ==> o == Outcome(Failed(500, "Upload failed"), None)
    ensures o.response.Uploaded? <==> entry.Upload? && !writeFails
    ensures o.response.Uploaded? ==>
      && o.stored == Some(StoredFilename(now, entry.name))
      && o.response.filename == o.stored.value
      && o.response.url == UploadsPrefix + o.response.filename
      && o.response.size == entry.size && o.response.mime == entry.mime
  {
    match entry
    case Missing => Outcome(Failed(400, "No file received"), None)
    case Text(v) =>
      if v == "" then Outcome(Failed(400, "No file received"), None)
      else Outcome(Failed(500, "Upload failed"), None)
    case Upload(name, size, mime) =>
      if writeFails then Outcome(Failed(500, "Upload failed"), None)
      else
        var filename := StoredFilename(now, name);
        Outcome(Uploaded(UploadsPrefix + filename, filename, size, mime), Some(filename))
  }

  /** The returned URL names a file directly inside /uploads, and the stored name can be read back from it. */
  lemma UploadedUrlStaysInUploads(entry: FormEntry, now: nat)
    requires Post(entry, now, false).response.Uploaded?
    ensures var url := Post(entry, now, false).response.url;
      && url[..|UploadsPrefix|] == UploadsPrefix
      && url[|UploadsPrefix|..] == Post(entry, now, false).stored.value
      && '/' !in url[|UploadsPrefix|..]
  {
  }
}
