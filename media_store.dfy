/** The server's media store (server/index.js): where the base URL comes from, how an
    uploaded file is named and answered, and how the upload directory is listed.
    The clock, the network-interface table, the multipart request and the directory
    listing are inputs. */
module MediaStore {
  import opened Wrappers
  import opened Text
  import opened JsNumber
  import opened MediaRecords

  const Port: nat := 3000
  const NamePrefix: string := "audio_"
  const NameSuffix: string := ".m4a"
  const UploadsPath: string := "/uploads/"
  const FallbackHost: string := "localhost"

  // ---------------------------------------------------------------------------
  // Base URL

  /** One entry of `os.networkInterfaces()[name]`. */
  datatype NetInterface = NetInterface(family: string, internal: bool, address: string)

  /** One named interface with its addresses, in `Object.keys` order. */
  datatype InterfaceGroup = InterfaceGroup(name: string, entries: seq<NetInterface>)

  predicate IsExternalIPv4(iface: NetInterface) {
    iface.family == "IPv4" && !iface.internal
  }

  ghost predicate ExternalAt(table: seq<InterfaceGroup>, i: int, j: int) {
    0 <= i < |table| && 0 <= j < |table[i].entries| && IsExternalIPv4(table[i].entries[j])
  }

  /** No external IPv4 entry comes before entry `j` of group `i` in iteration order. */
  ghost predicate NoneEarlier(table: seq<InterfaceGroup>, i: int, j: int) {
    && (forall i', j' :: 0 <= i' < i ==> !ExternalAt(table, i', j'))
    && (forall j' :: 0 <= j' < j ==> !ExternalAt(table, i, j'))
  }

  /** `getLocalIP`: the address of the first non-internal IPv4 entry, scanning the
      groups and then their entries in order, or "localhost" when there is none. */
  method GetLocalIP(table: seq<InterfaceGroup>) returns (ip: string)
    ensures || (exists i, j :: ExternalAt(table, i, j) && NoneEarlier(table, i, j) && ip == table[i].entries[j].address)
            || ((forall i, j :: !ExternalAt(table, i, j)) && ip == FallbackHost)
  {
    for i := 0 to |table|
      invariant forall i', j' :: 0 <= i' < i ==> !ExternalAt(table, i', j')
    {
      var entries := table[i].entries;
      for j := 0 to |entries|
        invariant forall j' :: 0 <= j' < j ==> !ExternalAt(table, i, j')
      {
        if IsExternalIPv4(entries[j]) {
          assert ExternalAt(table, i, j) && NoneEarlier(table, i, j);
          return entries[j].address;
        }
      }
    }
    return FallbackHost;
  }

  /** `BASE_URL`: `http://<ip>:3000`. */
  function BaseUrl(ip: string): string {
    "http://" + ip + ":" + Decimal(Port)
  }

  /** `LOCAL_IP` and `BASE_URL` as the server computes them once at start-up. */
  method ServerBaseUrl(table: seq<InterfaceGroup>) returns (url: string)
    ensures || (exists i, j :: ExternalAt(table, i, j) && NoneEarlier(table, i, j) &&
                               url == "http://" + table[i].entries[j].address + ":3000")
            || ((forall i, j :: !ExternalAt(table, i, j)) && url == "http://localhost:3000")
  {
    var ip := GetLocalIP(table);
    url := BaseUrl(ip);
    BaseUrlText(ip);
    if exists i, j :: ExternalAt(table, i, j) && NoneEarlier(table, i, j) && ip == table[i].entries[j].address {
      ghost var i, j :| ExternalAt(table, i, j) && NoneEarlier(table, i, j) && ip == table[i].entries[j].address;
      assert url == "http://" + table[i].entries[j].address + ":3000";
    }
  }

  lemma BaseUrlText(ip: string)
    ensures BaseUrl(ip) == "http://" + ip + ":3000"
  {
    assert Decimal(Port) == "3000";
  }

  /** The public URL of a stored file, used both by the upload answer and by the listing. */
  function FileUrl(baseUrl: string, filename: string): string {
    baseUrl + UploadsPath + filename
  }

  /** Distinct stored files are published under distinct URLs. */
  lemma FileUrlInjective(baseUrl: string, a: string, b: string)
    requires FileUrl(baseUrl, a) == FileUrl(baseUrl, b)
    ensures a == b
  {
    var n := |baseUrl + UploadsPath|;
    assert a == FileUrl(baseUrl, a)[n..];
    assert b == FileUrl(baseUrl, b)[n..];
  }

  // ---------------------------------------------------------------------------
  // Upload

  /** `Date.now()`: milliseconds since the epoch, inside the range of valid time values. */
  type EpochMs = t: nat | t <= MaxTimeMs

  predicate IsMediaName(name: string) {
    StartsWith(name, NamePrefix) && EndsWith(name, NameSuffix)
  }

  /** The disk-storage `filename` callback: `audio_<now>.m4a`. */
  function GeneratedFilename(now: EpochMs): (name: string)
    ensures IsMediaName(name)
  {
    var name := NamePrefix + Decimal(now) + NameSuffix;
    assert name[..|NamePrefix|] == NamePrefix;
    assert name[|name| - |NameSuffix|..] == NameSuffix;
    name
  }

  /** One file part of the multipart body, with the form field it was sent under. */
  datatype FilePart = FilePart(field: string, size: nat)

  /** The JSON body of a successful upload. */
  datatype UploadBody = UploadBody(success: bool, filename: string, url: string, size: nat)

  datatype UploadResponse =
    | Uploaded(body: UploadBody)
      /** The route's own JSON error answer. */
    | UploadRejected(status: nat, error: string)
      /** The upload middleware refused the request before the route ran; the
          framework's default error handler answers with the status. */
    | MiddlewareFailed(status: nat, code: string)

  /** `POST /upload` behind `upload.single(field)`: the middleware accepts at most one
      file part, under `field`; the route answers 400 when no file arrived, and
      otherwise names the file after the clock and returns its URL. */
  function Upload(field: string, parts: seq<FilePart>, now: EpochMs, baseUrl: string): (r: UploadResponse)
    ensures r.Uploaded? <==> |parts| == 1 && parts[0].field == field
    ensures r.UploadRejected? <==> parts == []
    ensures r.UploadRejected? ==> r.status == 400 && r.error == "No file uploaded"
    ensures r.MiddlewareFailed? ==> r.status == 500 && r.code == "LIMIT_UNEXPECTED_FILE"
    ensures r.Uploaded? ==>
      && r.body.success
      && r.body.filename == GeneratedFilename(now)
      && r.body.url == FileUrl(baseUrl, r.body.filename)
      && r.body.size == parts[0].size
  {
    if |parts| >= 1 && parts[0].field != field then MiddlewareFailed(500, "LIMIT_UNEXPECTED_FILE")
    else if |parts| >= 2 then MiddlewareFailed(500, "LIMIT_UNEXPECTED_FILE")
    else if parts == [] then UploadRejected(400, "No file uploaded")
    else
      var name := GeneratedFilename(now);
      Uploaded(UploadBody(true, name, FileUrl(baseUrl, name), parts[0].size))
  }

  /** A file sent under any other form field than the one the server accepts is never stored. */
  lemma MismatchedFieldNeverUploads(field: string, sent: string, size: nat, now: EpochMs, baseUrl: string)
    requires sent != field
    ensures Upload(field, [FilePart(sent, size)], now, baseUrl).MiddlewareFailed?
  {
  }

  // ---------------------------------------------------------------------------
  // Listing

  /** The upload directory as `existsSync` and `readdir` find it. */
  datatype Directory = Missing | Unreadable | Entries(names: seq<string>)

  datatype FilesResponse =
    | Files(files: seq<MediaRecord>)
    | FilesRejected(status: nat, error: string)
      /** `toISOString` threw inside the `readdir` callback: no answer is sent and
          the exception escapes to the process. */
    | Crashed(filename: string)

  /** The `filter` step: the media names, in directory order. */
  function MediaNames(names: seq<string>): (kept: seq<string>)
    ensures forall n :: multiset(kept)[n] == if IsMediaName(n) then multiset(names)[n] else 0
  {
    if names == [] then []
    else
      assert names == [names[0]] + names[1..];
      (if IsMediaName(names[0]) then [names[0]] else []) + MediaNames(names[1..])
  }

  /** `file.split('_')[1]`; reading past the pieces gives `undefined`, which
      `parseInt` reads as the string "undefined". */
  function TimestampField(name: string): string {
    var parts := Split(name, '_');
    if |parts| >= 2 then parts[1] else "undefined"
  }

  /** `createdAt`: the time value of `new Date(parseInt(field))`, `None` where `toISOString` throws. */
  function CreatedAt(name: string): Option<int> {
    TimeClip(ParseInt(TimestampField(name)))
  }

  /** The server's own names parse back to the instant they were generated at. */
  lemma GeneratedNameRoundTrip(now: EpochMs)
    ensures TimestampField(GeneratedFilename(now)) == Decimal(now) + NameSuffix
    ensures CreatedAt(GeneratedFilename(now)) == Some(now)
  {
    var d := Decimal(now);
    var parts := ["audio", d + NameSuffix];
    assert GeneratedFilename(now) == Join(parts, '_');
    assert '_' !in d + NameSuffix by {
      assert !IsDigit('_', 10);
      assert forall k :: 0 <= k < |d| ==> d[k] != '_';
    }
    SplitJoin(parts, '_');
    ParseIntOfDecimal(now, NameSuffix);
  }

  /** A media name whose timestamp field starts with a letter makes the listing throw. */
  lemma NonNumericNameCrashesListing(baseUrl: string)
    ensures ListFiles(baseUrl, Entries(["audio_abc.m4a"])) == Crashed("audio_abc.m4a")
  {
    NonNumericNameHasNoDate();
    ListingCrashes(baseUrl, ["audio_abc.m4a"]);
  }

  lemma NonNumericNameHasNoDate()
    ensures IsMediaName("audio_abc.m4a") && CreatedAt("audio_abc.m4a").None?
  {
    var name := "audio_abc.m4a";
    assert IsMediaName(name) by {
      assert name[..6] == NamePrefix;
      assert name[|name| - 4..] == NameSuffix;
    }
    assert TimestampField(name) == "abc.m4a" by {
      assert name == Join(["audio", "abc.m4a"], '_');
      SplitJoin(["audio", "abc.m4a"], '_');
    }
    ParseIntWithoutDigits("abc.m4a");
  }

  /** The date each name carries, in order. */
  function DatesOf(names: seq<string>): (dates: seq<Option<int>>)
  {
    seq(|names|, k requires 0 <= k < |names| => CreatedAt(names[k]))
  }

  /** The `map` step over the kept names, given the date each one carries; it stops at
      the first name whose date is invalid, and fails with that name's index. */
  function ToRecords(baseUrl: string, names: seq<string>, dates: seq<Option<int>>): (r: Result<seq<MediaRecord>, nat>)
    requires |dates| == |names|
    ensures r.Success? ==>
      && |r.value| == |names|
      && forall k :: 0 <= k < |names| ==>
           dates[k].Some? && r.value[k] == MediaRecord(names[k], FileUrl(baseUrl, names[k]), dates[k].value)
    ensures r.Failure? ==>
      && r.error < |names| && dates[r.error].None?
      && forall k :: 0 <= k < r.error ==> dates[k].Some?
  {
    if names == [] then Success([])
    else match dates[0]
      case None => Failure(0)
      case Some(t) =>
        match ToRecords(baseUrl, names[1..], dates[1..])
        case Failure(k) =>
          assert forall j :: 0 < j < k + 1 ==> dates[j] == dates[1..][j - 1];
          Failure(k + 1)
        case Success(rest) =>
          var out := [MediaRecord(names[0], FileUrl(baseUrl, names[0]), t)] + rest;
          forall j | 0 < j < |names|
            ensures dates[j].Some? && out[j] == MediaRecord(names[j], FileUrl(baseUrl, names[j]), dates[j].value)
          {
            assert names[j] == names[1..][j - 1] && dates[j] == dates[1..][j - 1] && out[j] == rest[j - 1];
          }
          Success(out)
  }

  /** `GET /files`: an empty list when the directory is missing, 500 when it cannot be
      read, otherwise the media names turned into records and sorted newest first. */
  function ListFiles(baseUrl: string, dir: Directory): (r: FilesResponse)
    ensures dir.Missing? ==> r == Files([])
    ensures dir.Unreadable? ==> r == FilesRejected(500, "Failed to read files")
    ensures dir.Entries? ==> r.Files? || r.Crashed?
    ensures r.Files? ==> NewestFirst(r.files)
  {
    match dir
    case Missing => Files([])
    case Unreadable => FilesRejected(500, "Failed to read files")
    case Entries(names) =>
      var kept := MediaNames(names);
      match ToRecords(baseUrl, kept, DatesOf(kept))
      case Failure(k) => Crashed(kept[k])
      case Success(records) => Files(SortNewestFirst(records))
  }

  /** The listing throws exactly when some media name carries an invalid date, and
      then names such a file. */
  lemma ListingCrashes(baseUrl: string, names: seq<string>)
    ensures ListFiles(baseUrl, Entries(names)).Crashed? <==> exists n :: n in names && IsMediaName(n) && CreatedAt(n).None?
    ensures ListFiles(baseUrl, Entries(names)).Files? <==> forall n :: n in names && IsMediaName(n) ==> CreatedAt(n).Some?
    ensures ListFiles(baseUrl, Entries(names)).Crashed? ==>
      var n := ListFiles(baseUrl, Entries(names)).filename;
      n in names && IsMediaName(n) && CreatedAt(n).None?
  {
    var kept := MediaNames(names);
    var dates := DatesOf(kept);
    var r := ToRecords(baseUrl, kept, dates);
    if r.Failure? {
      var k := r.error;
      assert ListFiles(baseUrl, Entries(names)) == Crashed(kept[k]);
      assert dates[k] == CreatedAt(kept[k]);
      assert kept[k] in multiset(kept);
    } else {
      assert ListFiles(baseUrl, Entries(names)).Files?;
      forall n | n in names && IsMediaName(n) ensures CreatedAt(n).Some? {
        assert n in multiset(kept);
        var k :| 0 <= k < |kept| && kept[k] == n;
        assert dates[k] == CreatedAt(kept[k]);
      }
    }
  }

  /** A listing that answers holds one record per media name and no other. */
  lemma ListingPermutesNames(baseUrl: string, names: seq<string>)
    ensures ListFiles(baseUrl, Entries(names)).Files? ==>
      multiset(Filenames(ListFiles(baseUrl, Entries(names)).files)) == multiset(MediaNames(names))
  {
    var kept := MediaNames(names);
    var dates := DatesOf(kept);
    assert |dates| == |kept|;
    match ToRecords(baseUrl, kept, dates)
    case Failure(k) =>
    case Success(records) =>
      SortNewestFirstFilenames(records);
      assert Filenames(records) == kept;
  }

  /** Each listed record is a media name with its URL and the date its name carries. */
  lemma ListedRecordsAreWellFormed(baseUrl: string, names: seq<string>)
    ensures ListFiles(baseUrl, Entries(names)).Files? ==>
      forall f :: f in ListFiles(baseUrl, Entries(names)).files ==>
        IsMediaName(f.filename) && f.url == FileUrl(baseUrl, f.filename) && CreatedAt(f.filename) == Some(f.createdAt)
  {
    var kept := MediaNames(names);
    var r := ToRecords(baseUrl, kept, DatesOf(kept));
    if r.Success? {
      forall n | n in kept ensures IsMediaName(n) {
        assert n in multiset(kept);
      }
      RecordsOfMediaNames(baseUrl, kept, r.value);
      SortNewestFirstMembers(r.value);
    }
  }

  lemma RecordsOfMediaNames(baseUrl: string, kept: seq<string>, records: seq<MediaRecord>)
    requires forall n :: n in kept ==> IsMediaName(n)
    requires ToRecords(baseUrl, kept, DatesOf(kept)) == Success(records)
    ensures forall f :: f in records ==>
      IsMediaName(f.filename) && f.url == FileUrl(baseUrl, f.filename) && CreatedAt(f.filename) == Some(f.createdAt)
  {
    var dates := DatesOf(kept);
    forall f | f in records
      ensures IsMediaName(f.filename) && CreatedAt(f.filename) == Some(f.createdAt)
    {
      var k :| 0 <= k < |records| && records[k] == f;
      assert dates[k] == CreatedAt(kept[k]);
      assert kept[k] in kept;
    }
  }

  /** A file stored by an upload appears in every later listing that answers, with the
      URL the upload returned and the upload instant as its creation time. */
  lemma UploadedFileIsListed(field: string, part: FilePart, now: EpochMs, baseUrl: string, names: seq<string>)
    requires part.field == field
    requires GeneratedFilename(now) in names
    ensures Upload(field, [part], now, baseUrl).Uploaded?
    ensures ListFiles(baseUrl, Entries(names)).Files? ==>
      MediaRecord(GeneratedFilename(now), Upload(field, [part], now, baseUrl).body.url, now) in ListFiles(baseUrl, Entries(names)).files
  {
    var name := GeneratedFilename(now);
    GeneratedNameRoundTrip(now);
    ListingPermutesNames(baseUrl, names);
    ListedRecordsAreWellFormed(baseUrl, names);
    var r := ListFiles(baseUrl, Entries(names));
    if r.Files? {
      assert name in multiset(MediaNames(names));
      assert name in multiset(Filenames(r.files));
      var k :| 0 <= k < |r.files| && Filenames(r.files)[k] == name;
      assert r.files[k] in r.files;
    }
  }
}
