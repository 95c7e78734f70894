/** src/taskpane/utils/shared.js: the sharing id Microsoft Graph expects
    for a shared-folder link, the filter that keeps the notebooks of the
    folder, and the loop that turns each notebook's first cell into a
    shared function. HTTP requests and the stored token are left out; the
    responses are parameters. */
module SharedFiles {
  import opened Wrappers
  import opened Strings
  import opened JsValues

  type Byte = x: int | 0 <= x < 256
  /** A six-bit group, the value one base64 character encodes. */
  type Sextet = x: int | 0 <= x < 64

  /** The base64 alphabet of section 4 of RFC 4648. */
  function StdDigit(k: Sextet): char {
    if k < 26 then ('A' as int + k) as char
    else if k < 52 then ('a' as int + (k - 26)) as char
    else if k < 62 then ('0' as int + (k - 52)) as char
    else if k == 62 then '+'
    else '/'
  }

  /** The URL- and filename-safe alphabet of section 5 of RFC 4648. */
  function UrlDigit(k: Sextet): char {
    if k < 62 then StdDigit(k) else if k == 62 then '-' else '_'
  }

  /** The inverse of `UrlDigit`. */
  function UrlValue(c: char): (r: Option<Sextet>)
    ensures r.Some? ==> UrlDigit(r.value) == c
  {
    if 'A' <= c <= 'Z' then Some(c as int - 'A' as int)
    else if 'a' <= c <= 'z' then Some(c as int - 'a' as int + 26)
    else if '0' <= c <= '9' then Some(c as int - '0' as int + 52)
    else if c == '-' then Some(62)
    else if c == '_' then Some(63)
    else None
  }

  lemma UrlValueOfDigit(k: Sextet)
    ensures UrlValue(UrlDigit(k)) == Some(k)
  {
  }

  /** Base64 splits each three bytes into four sextets; a final group of
      one or two bytes gives two or three, padded with zero bits. */
  function Sextets(b: seq<Byte>): (r: seq<Sextet>)
    ensures |r| == (4 * |b| + 2) / 3
  {
    if |b| >= 3 then
      [b[0] / 4, (b[0] % 4) * 16 + b[1] / 16, (b[1] % 16) * 4 + b[2] / 64, b[2] % 64] + Sextets(b[3..])
    else if |b| == 2 then [b[0] / 4, (b[0] % 4) * 16 + b[1] / 16, (b[1] % 16) * 4]
    else if |b| == 1 then [b[0] / 4, (b[0] % 4) * 16]
    else []
  }

  /** Reassembles the bytes from sextets; a dangling single sextet carries
      no whole byte. */
  function Bytes(s: seq<Sextet>): seq<Byte> {
    if |s| >= 4 then
      var s0: int, s1: int, s2: int, s3: int := s[0], s[1], s[2], s[3];
      [s0 * 4 + s1 / 16, (s1 % 16) * 16 + s2 / 4, (s2 % 4) * 64 + s3] + Bytes(s[4..])
    else if |s| == 3 then
      var s0: int, s1: int, s2: int := s[0], s[1], s[2];
      [s0 * 4 + s1 / 16, (s1 % 16) * 16 + s2 / 4]
    else if |s| == 2 then
      var s0: int, s1: int := s[0], s[1];
      [s0 * 4 + s1 / 16]
    else []
  }

  lemma ByteSplit(b0: Byte, b1: Byte)
    ensures ((b0 % 4) * 16 + b1 / 16) / 16 == b0 % 4
    ensures ((b0 % 4) * 16 + b1 / 16) % 16 == b1 / 16
  {
  }

  lemma {:induction false} BytesOfSextets(b: seq<Byte>)
    ensures Bytes(Sextets(b)) == b
    decreases |b|
  {
    if |b| >= 3 {
      var g := [b[0] / 4, (b[0] % 4) * 16 + b[1] / 16, (b[1] % 16) * 4 + b[2] / 64, b[2] % 64];
      ByteSplit(b[0], b[1]);
      ByteSplit(b[1] % 16 * 16, b[2] * 0 + b[2]);
      assert ((b[1] % 16) * 4 + b[2] / 64) / 4 == b[1] % 16;
      assert ((b[1] % 16) * 4 + b[2] / 64) % 4 == b[2] / 64;
      assert (g + Sextets(b[3..]))[4..] == Sextets(b[3..]);
      BytesOfSextets(b[3..]);
      assert b == [b[0], b[1], b[2]] + b[3..];
    } else if |b| == 2 {
      ByteSplit(b[0], b[1]);
      assert ((b[1] % 16) * 4) / 4 == b[1] % 16;
    }
  }

  function Render(s: seq<Sextet>, digit: Sextet -> char): (r: string)
    ensures |r| == |s| && forall k :: 0 <= k < |s| ==> r[k] == digit(s[k])
  {
    seq(|s|, k requires 0 <= k < |s| => digit(s[k]))
  }

  function Padding(n: nat): (r: string)
    ensures forall k :: 0 <= k < |r| ==> r[k] == '='
    ensures |r| == (3 - n % 3) % 3
  {
    if n % 3 == 1 then "==" else if n % 3 == 2 then "=" else ""
  }

  predicate IsLatin1(s: string) {
    forall k :: 0 <= k < |s| ==> s[k] as int < 256
  }

  function Latin1(s: string): (b: seq<Byte>)
    requires IsLatin1(s)
    ensures |b| == |s| && forall k :: 0 <= k < |s| ==> b[k] == s[k] as int
  {
    seq(|s|, k requires 0 <= k < |s| => s[k] as int)
  }

  /** `btoa`: padded base64 of the string read as Latin-1 bytes; `None`
      stands for the exception it throws on a character above U+00FF. */
  function Btoa(s: string): (r: Option<string>)
    ensures r.None? <==> !IsLatin1(s)
  {
    if IsLatin1(s) then
      Some(Render(Sextets(Latin1(s)), StdDigit) + Padding(|s|))
    else None
  }

  /** `encodeSharingUrl`, as its replace chain is written; `None` when
      `btoa` throws. */
  function EncodeSharingUrl(url: string): (r: Option<string>)
    ensures r.None? <==> !IsLatin1(url)
  {
    match Btoa(url)
    case None => None
    case Some(b64) => Some("u!" + ReplaceChar(ReplaceChar(RemoveChar(b64, '='), '/', '_'), '+', '-'))
  }

  lemma {:induction false} RemovePadding(s: string, n: nat)
    requires '=' !in s
    ensures RemoveChar(s + Padding(n), '=') == s
  {
    RemoveCharConcat(s, Padding(n), '=');
    RemoveCharAbsent(s, '=');
    var p := RemoveChar(Padding(n), '=');
    assert |p| == 0 by {
      assert CountChar(Padding(n), '=') == |Padding(n)|;
    }
  }

  /** The sharing id is "u!" and the unpadded base64url encoding of the
      link's bytes (sections 5 and 3.2 of RFC 4648). */
  lemma SharingIdIsUnpaddedBase64Url(url: string)
    requires IsLatin1(url)
    ensures EncodeSharingUrl(url) == Some("u!" + Render(Sextets(Latin1(url)), UrlDigit))
  {
    var s := Sextets(Latin1(url));
    var std := Render(s, StdDigit);
    assert '=' !in std by {
      forall k | 0 <= k < |std| ensures std[k] != '=' {
        assert std[k] == StdDigit(s[k]);
      }
    }
    RemovePadding(std, |url|);
    var mapped := ReplaceChar(ReplaceChar(std, '/', '_'), '+', '-');
    var url64 := Render(s, UrlDigit);
    forall k | 0 <= k < |std| ensures mapped[k] == url64[k] {
      assert std[k] == StdDigit(s[k]);
    }
    assert mapped == url64;
  }

  /** The sharing id has exactly ceil(4n/3) characters after "u!". */
  lemma SharingIdLength(url: string)
    requires IsLatin1(url)
    ensures |EncodeSharingUrl(url).value| == 2 + (4 * |url| + 2) / 3
  {
    SharingIdIsUnpaddedBase64Url(url);
  }

  /** After "u!" only letters, digits, '-' and '_' occur. */
  lemma SharingIdAlphabet(url: string)
    requires IsLatin1(url)
    ensures var e := EncodeSharingUrl(url).value;
            forall k :: 2 <= k < |e| ==> UrlValue(e[k]).Some?
  {
    SharingIdIsUnpaddedBase64Url(url);
    var s := Sextets(Latin1(url));
    forall k | 0 <= k < |s| ensures UrlValue(Render(s, UrlDigit)[k]).Some? {
      UrlValueOfDigit(s[k]);
    }
  }

  function SextetsOf(t: string): (r: Option<seq<Sextet>>)
    ensures r.Some? ==> |r.value| == |t|
  {
    if t == [] then Some([])
    else
      match (UrlValue(t[0]), SextetsOf(t[1..]))
      case (Some(v), Some(rest)) => Some([v] + rest)
      case _ => None
  }

  lemma {:induction false} SextetsOfRender(s: seq<Sextet>)
    ensures SextetsOf(Render(s, UrlDigit)) == Some(s)
  {
    if s != [] {
      var t := Render(s, UrlDigit);
      assert t[1..] == Render(s[1..], UrlDigit);
      UrlValueOfDigit(s[0]);
      SextetsOfRender(s[1..]);
      assert s == [s[0]] + s[1..];
    }
  }

  /** Recovers the link from a sharing id. */
  function DecodeSharingId(e: string): Option<string> {
    if !StartsWith(e, "u!") then None
    else
      match SextetsOf(e[2..])
      case None => None
      case Some(s) =>
        var b := Bytes(s);
        Some(seq(|b|, k requires 0 <= k < |b| => b[k] as char))
  }

  /** Re-padding and mapping the alphabet back recovers the link, so
      distinct links get distinct sharing ids. */
  lemma SharingIdRoundTrip(url: string)
    requires IsLatin1(url)
    ensures DecodeSharingId(EncodeSharingUrl(url).value) == Some(url)
  {
    SharingIdIsUnpaddedBase64Url(url);
    var s := Sextets(Latin1(url));
    var e := "u!" + Render(s, UrlDigit);
    assert e[2..] == Render(s, UrlDigit);
    assert e[..2] == "u!";
    SextetsOfRender(s);
    BytesOfSextets(Latin1(url));
    var b := Latin1(url);
    assert seq(|b|, k requires 0 <= k < |b| => b[k] as char) == url;
  }

  lemma SharingIdInjective(u: string, v: string)
    requires IsLatin1(u) && IsLatin1(v)
    requires EncodeSharingUrl(u) == EncodeSharingUrl(v)
    ensures u == v
  {
    SharingIdRoundTrip(u);
    SharingIdRoundTrip(v);
  }

  /** A child of the shared folder, as the drive item lists it. */
  datatype DriveItem = DriveItem(id: string, name: string, isFolder: bool)

  predicate IsNotebookFile(f: DriveItem) {
    !f.isFolder && EndsWith(f.name, ".ipynb")
  }

  /** `data.children?.filter(...) || []`. */
  function ListedFiles(children: Option<seq<DriveItem>>): (r: seq<DriveItem>)
    ensures children.None? ==> r == []
    ensures children.Some? ==> |r| <= |children.value|
    ensures forall f :: f in r <==> children.Some? && f in children.value && IsNotebookFile(f)
  {
    match children
    case None => []
    case Some(items) => FilterNotebooks(items)
  }

  function FilterNotebooks(items: seq<DriveItem>): (r: seq<DriveItem>)
    ensures |r| <= |items|
    ensures forall f :: f in r <==> f in items && IsNotebookFile(f)
  {
    if items == [] then []
    else
      assert items == [items[0]] + items[1..];
      if IsNotebookFile(items[0]) then [items[0]] + FilterNotebooks(items[1..])
      else FilterNotebooks(items[1..])
  }

  lemma {:induction false} FilterKeepsOrder(a: seq<DriveItem>, b: seq<DriveItem>)
    ensures FilterNotebooks(a + b) == FilterNotebooks(a) + FilterNotebooks(b)
  {
    if a == [] {
      assert a + b == b;
    } else {
      assert (a + b)[0] == a[0];
      assert (a + b)[1..] == a[1..] + b;
      FilterKeepsOrder(a[1..], b);
    }
  }

  datatype GraphFolder = GraphFolder(name: string, children: Option<seq<DriveItem>>, parentReference: string)

  /** The outcome of the Graph request for a sharing id. */
  datatype GraphResponse = GraphOk(folder: GraphFolder) | GraphFailed(status: int, statusText: string) | GraphThrew(error: JsError)

  datatype Listing = Listing(files: seq<DriveItem>, folderUrl: string, folderName: string, parentReference: string)

  const InvalidLinkMessage: string := "Please provide a valid OneDrive or SharePoint sharing link"
  /** The message of the exception `btoa` throws; it is browser specific. */
  const BtoaMessage: string := "The string to be encoded contains characters outside of the Latin1 range."

  function RewriteListError(e: JsError): (r: JsError)
    ensures Contains(e.message, "Invalid sharing URL") ==> r == Error(InvalidLinkMessage)
    ensures !Contains(e.message, "Invalid sharing URL") ==> r == e
  {
    if Contains(e.message, "Invalid sharing URL") then Error(InvalidLinkMessage) else e
  }

  /** `listSharedFiles`: `graph` answers the request for a sharing id. */
  function ListSharedFiles(url: string, graph: string -> GraphResponse): (r: Completion<Listing>)
    ensures r.Normal? ==> r.value.folderUrl == Trim(url)
    ensures r.Normal? ==> EncodeSharingUrl(Trim(url)).Some? && graph(EncodeSharingUrl(Trim(url)).value).GraphOk?
    ensures r.Normal? ==> r.value.files == ListedFiles(graph(EncodeSharingUrl(Trim(url)).value).folder.children)
    ensures r.Normal? ==> var folder := graph(EncodeSharingUrl(Trim(url)).value).folder;
      r.value.folderName == (if folder.name == "" then "Shared Library" else folder.name)
      && r.value.parentReference == folder.parentReference
    ensures EncodeSharingUrl(Trim(url)).None? ==> r == Throw(RewriteListError(Error(BtoaMessage)))
    ensures EncodeSharingUrl(Trim(url)).Some? ==> var answer := graph(EncodeSharingUrl(Trim(url)).value);
      && (answer.GraphThrew? ==> r == Throw(RewriteListError(answer.error)))
      && (answer.GraphFailed? ==>
            r == Throw(RewriteListError(Error("Request failed: " + IntToString(answer.status) + " - " + answer.statusText))))
      && (answer.GraphOk? ==> r.Normal?)
  {
    var cleanUrl := Trim(url);
    match EncodeSharingUrl(cleanUrl)
    case None => Throw(RewriteListError(Error(BtoaMessage)))
    case Some(id) =>
      match graph(id)
      case GraphThrew(e) => Throw(RewriteListError(e))
      case GraphFailed(status, statusText) =>
        Throw(RewriteListError(Error("Request failed: " + IntToString(status) + " - " + statusText)))
      case GraphOk(folder) =>
        Normal(Listing(ListedFiles(folder.children), cleanUrl,
                       if folder.name == "" then "Shared Library" else folder.name,
                       folder.parentReference))
  }

  datatype CellMetadata = CellMetadata(name: JsValue, signature: JsValue, description: JsValue, resultLine: JsValue, formula: JsValue)
  datatype SharedCell = SharedCell(metadata: Option<CellMetadata>, source: seq<string>)

  /** What reading one file gives: a failure (caught and skipped), or a
      notebook whose `cells` may be missing. */
  datatype ReadOutcome = ReadFailed(error: JsError) | Notebook(cells: Option<seq<SharedCell>>)

  datatype SharedFunction = SharedFunction(
    name: JsValue, code: string, signature: JsValue, description: JsValue,
    resultLine: JsValue, formula: JsValue, fileName: string, fileId: string, source: string)

  /** The entry one file contributes, if any. */
  function FileEntry(f: DriveItem, outcome: ReadOutcome): (r: Option<SharedFunction>)
    ensures r.Some? <==> outcome.Notebook? && outcome.cells.Some? && |outcome.cells.value| > 0
                         && outcome.cells.value[0].metadata.Some?
    ensures r.Some? ==> r.value.code == Join(outcome.cells.value[0].source, "")
                        && r.value.fileId == f.id && r.value.fileName == f.name && r.value.source == "shared"
    ensures r.Some? ==> var m := outcome.cells.value[0].metadata.value;
      r.value.name == m.name && r.value.signature == m.signature && r.value.description == m.description
      && r.value.resultLine == m.resultLine && r.value.formula == m.formula
  {
    match outcome
    case ReadFailed(_) => None
    case Notebook(cells) =>
      if cells.None? || |cells.value| == 0 then None
      else
        var first := cells.value[0];
        match first.metadata
        case None => None
        case Some(m) =>
          Some(SharedFunction(m.name, Join(first.source, ""), m.signature, m.description,
                              m.resultLine, m.formula, f.name, f.id, "shared"))
  }

  /** The entries of `files` in order, reading each file with `read`. */
  function SharedFunctions(files: seq<DriveItem>, read: string -> ReadOutcome): (r: seq<SharedFunction>)
    ensures |r| <= |files|
  {
    if files == [] then []
    else
      match FileEntry(files[0], read(files[0].id))
      case None => SharedFunctions(files[1..], read)
      case Some(e) => [e] + SharedFunctions(files[1..], read)
  }

  lemma {:induction false} SharedFunctionsConcat(a: seq<DriveItem>, b: seq<DriveItem>, read: string -> ReadOutcome)
    ensures SharedFunctions(a + b, read) == SharedFunctions(a, read) + SharedFunctions(b, read)
  {
    if a == [] {
      assert a + b == b;
    } else {
      assert (a + b)[0] == a[0];
      assert (a + b)[1..] == a[1..] + b;
      SharedFunctionsConcat(a[1..], b, read);
    }
  }

  /** A file that fails to load is skipped and the others still load. */
  lemma FailedFileSkipped(a: seq<DriveItem>, f: DriveItem, b: seq<DriveItem>, read: string -> ReadOutcome)
    requires read(f.id).ReadFailed?
    ensures SharedFunctions(a + [f] + b, read) == SharedFunctions(a, read) + SharedFunctions(b, read)
  {
    SharedFunctionsConcat(a + [f], b, read);
    SharedFunctionsConcat(a, [f], read);
    assert SharedFunctions([f], read) == [] by {
      assert [f][1..] == [];
    }
  }

  /** Only the first cell of a notebook matters. */
  lemma OnlyFirstCellUsed(f: DriveItem, first: SharedCell, rest1: seq<SharedCell>, rest2: seq<SharedCell>)
    ensures FileEntry(f, Notebook(Some([first] + rest1))) == FileEntry(f, Notebook(Some([first] + rest2)))
  {
  }

  /** The `for` loop of `loadSharedFunctionFiles`. */
  method LoadSharedFunctions(files: seq<DriveItem>, read: string -> ReadOutcome) returns (shared: seq<SharedFunction>)
    ensures shared == SharedFunctions(files, read)
  {
    shared := [];
    var i := 0;
    while i < |files|
      invariant 0 <= i <= |files|
      invariant shared == SharedFunctions(files[..i], read)
    {
      var f := files[i];
      var entry := FileEntry(f, read(f.id));
      SharedFunctionsConcat(files[..i], [f], read);
      assert files[..i + 1] == files[..i] + [f];
      assert [f][1..] == [];
      if entry.Some? {
        shared := shared + [entry.value];
      }
      i := i + 1;
    }
    assert files[..i] == files;
  }

  datatype SharedLibrary = SharedLibrary(sharedFunctions: seq<SharedFunction>, folderUrl: string, folderName: string)

  /** `loadSharedFunctionFiles`: a listing failure propagates; otherwise
      every listed notebook is read. */
  method LoadSharedFunctionFiles(url: string, graph: string -> GraphResponse, read: string -> ReadOutcome)
    returns (r: Completion<SharedLibrary>)
    ensures ListSharedFiles(url, graph).Throw? ==> r == Throw(ListSharedFiles(url, graph).error)
    ensures ListSharedFiles(url, graph).Normal? ==>
      var listing := ListSharedFiles(url, graph).value;
      r == Normal(SharedLibrary(SharedFunctions(listing.files, read), listing.folderUrl, listing.folderName))
  {
    var listed := ListSharedFiles(url, graph);
    if listed.Throw? {
      return Throw(listed.error);
    }
    var shared := LoadSharedFunctions(listed.value.files, read);
    r := Normal(SharedLibrary(shared, listed.value.folderUrl, listed.value.folderName));
  }
}
