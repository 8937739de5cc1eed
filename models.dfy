/** The response models of the client (src/cob_ai/models.py) and their text
    renderings (`__str__`). The renderings that accumulate text in
    `enumerate` loops are methods, each proved equal to a view function; the
    lemmas state what the text conveys. `textwrap.fill` and the `:.2f`
    formatting of floats are passed in as functions. */
module Models {
  import opened Wrappers
  import opened Text
  import opened Runtime

  /** The header block every rendering opens with: a blank line, the header,
      and an underline of '═' exactly as long as the header. */
  function Banner(header: string): (r: string)
    ensures |r| == 2 * |header| + 3
    ensures r[0] == '\n' && r[|header| + 1] == '\n' && r[2 * |header| + 2] == '\n'
    ensures r[1..|header| + 1] == header
    ensures forall i :: |header| + 2 <= i < 2 * |header| + 2 ==> r[i] == '═'
  {
    var underline := Repeat('═', |header|);
    var r := "\n" + header + "\n" + underline + "\n";
    assert forall i :: |header| + 2 <= i < 2 * |header| + 2 ==> r[i] == underline[i - |header| - 2];
    r
  }

  /** `dict.get(key, default)`. */
  function DictGet(m: map<string, string>, key: string, default: string): string {
    if key in m then m[key] else default
  }

  // ---------------------------------------------------------------------
  // SyncStartResponse

  datatype SyncStartResponse = SyncStartResponse(success: bool, message: string)

  /** `str(SyncStartResponse)`: a success or failure icon, a space, the message. */
  function StartText(r: SyncStartResponse): string {
    (if r.success then "✅" else "❌") + " " + r.message
  }

  /** Reads a start line back: the icon gives the success flag, the rest is the message. */
  function ReadStartText(text: string): Option<SyncStartResponse> {
    if |text| >= 2 && (text[0] == '✅' || text[0] == '❌') && text[1] == ' '
    then Some(SyncStartResponse(text[0] == '✅', text[2..]))
    else None
  }

  /** The icon is "✅" exactly when the start succeeded, and the message follows verbatim. */
  lemma StartTextReadBack(r: SyncStartResponse)
    ensures ReadStartText(StartText(r)) == Some(r)
  {
    assert StartText(r)[2..] == r.message;
  }

  // ---------------------------------------------------------------------
  // FailedDocumentInfo and the shapes `failed_documents` arrives in

  datatype FailedDocumentInfo = FailedDocumentInfo(filename: string, folder: string, errorMessage: string)

  /** An element of the `failed_documents` JSON list: an object, or any other
      JSON value (kept as its text). */
  datatype RawFailure = Dict(fields: map<string, string>) | NonDict(json: string)

  /** An element of `SyncStatusResponse.failed_documents` once the client has
      normalised the list: a record, or the element as it came. */
  datatype FailureItem = Info(info: FailedDocumentInfo) | Raw(raw: RawFailure)

  predicate AllInfos(items: seq<FailureItem>) {
    forall i :: 0 <= i < |items| ==> items[i].Info?
  }

  function Infos(items: seq<FailureItem>): (docs: seq<FailedDocumentInfo>)
    requires AllInfos(items)
    ensures |docs| == |items|
  {
    seq(|items|, i requires 0 <= i < |items| => items[i].info)
  }

  // ---------------------------------------------------------------------
  // SyncStatusResponse

  datatype SyncStatusResponse = SyncStatusResponse(
    isSyncRunning: bool,
    syncRuntimeSeconds: Option<real>,
    syncedFolders: seq<string>,
    successfullySyncedCount: int,
    failedDocumentsCount: int,
    failedDocuments: seq<FailureItem>)

  const StatusHeader := "📈 Sync Status Overview"
  const RunningText := "⚡ Sync is currently running"
  const IdleText := "💤 No sync currently running"
  const FoldersHeading := "\n\n📂 Synced Folders:\n" + Repeat('─', 17)
  const FailedHeading := "\n\n📋 Failed Documents:\n" + Repeat('─', 20)

  /** The running-status line; the runtime is appended only when it is truthy. */
  function RunningLine(st: SyncStatusResponse): string {
    if st.isSyncRunning then
      if Truthy(st.syncRuntimeSeconds) then
        RunningText + " (" + Elapsed(Truncate(st.syncRuntimeSeconds.value)) + ")"
      else
        RunningText
    else
      IdleText
  }

  /** A status that is not running reads the same whatever its runtime. */
  lemma IdleLineIgnoresRuntime(st: SyncStatusResponse, runtime: Option<real>)
    requires !st.isSyncRunning
    ensures RunningLine(st) == RunningLine(st.(syncRuntimeSeconds := runtime)) == IdleText
  {
  }

  /** A running status shows its truncated runtime in parentheses when the runtime
      is truthy (and non-negative), and nothing after the text otherwise. */
  lemma RunningLineShowsRuntime(st: SyncStatusResponse)
    requires st.isSyncRunning
    ensures Truthy(st.syncRuntimeSeconds) && st.syncRuntimeSeconds.value >= 0.0 ==>
      ReadParenthesised(RunningText + " ", RunningLine(st)) == Some(Truncate(st.syncRuntimeSeconds.value))
    ensures !Truthy(st.syncRuntimeSeconds) ==> RunningLine(st) == RunningText
  {
    if Truthy(st.syncRuntimeSeconds) && st.syncRuntimeSeconds.value >= 0.0 {
      var t := Truncate(st.syncRuntimeSeconds.value);
      assert RunningLine(st) == RunningText + " " + "(" + Elapsed(t) + ")";
      ParenthesisedShowsSeconds(RunningText + " ", t);
    }
  }

  /** The summary block; it shows the two counts as stored and the number of folders. */
  function Summary(succeeded: int, failed: int, folders: nat): string {
    "✅ Successfully synced: " + IntToString(succeeded)
    + (" documents\n❌ Failed documents: " + IntToString(failed)
       + (" documents\n📁 Synced folders: " + IntToString(folders) + " folders"))
  }

  function ReadSummary(text: string): Option<(int, int, int)> {
    match ReadField("✅ Successfully synced: ", text)
    case None => None
    case Some((succeeded, rest1)) =>
      match ReadField(" documents\n❌ Failed documents: ", rest1)
      case None => None
      case Some((failed, rest2)) =>
        match ReadField(" documents\n📁 Synced folders: ", rest2)
        case None => None
        case Some((folders, rest3)) =>
          if rest3 == " folders" then Some((succeeded, failed, folders)) else None
  }

  /** The counts are shown verbatim: nothing is recomputed, and they can be read back. */
  lemma SummaryReadBack(succeeded: int, failed: int, folders: nat)
    ensures ReadSummary(Summary(succeeded, failed, folders)) == Some((succeeded, failed, folders))
  {
    var line1, line2, line3 := "✅ Successfully synced: ", " documents\n❌ Failed documents: ", " documents\n📁 Synced folders: ";
    var tail3 := " folders";
    var tail2 := line3 + IntToString(folders) + tail3;
    var tail1 := line2 + IntToString(failed) + tail2;
    ReadFieldOfIntToString(line1, succeeded, tail1);
    ReadFieldOfIntToString(line2, failed, tail2);
    ReadFieldOfIntToString(line3, folders, tail3);
  }

  function FolderEntry(i: int, folder: string): string {
    "\n  " + IntToString(i) + ". " + folder
  }

  /** The folder section: present exactly when there are synced folders. */
  function FoldersSection(folders: seq<string>): (r: string)
    ensures r == "" <==> folders == []
  {
    if folders == [] then "" else FoldersHeading + Numbered(folders, 1, FolderEntry)
  }

  /** Folder `i` (0-based) is listed as number `i + 1`, after folders 1..i and before the rest. */
  lemma FolderListedAt(folders: seq<string>, i: nat)
    requires i < |folders|
    ensures FoldersSection(folders)
         == FoldersHeading + (Numbered(folders[..i], 1, FolderEntry)
            + FolderEntry(i + 1, folders[i]) + Numbered(folders[i + 1..], i + 2, FolderEntry))
  {
    NumberedAt(folders, 1, FolderEntry, i);
  }

  /** An entry of the failed-documents section. In the source line the folder and
      error parts stand behind a `#`, so they are a comment and the entry holds
      only the number and the file name. */
  function FailedEntry(i: int, doc: FailedDocumentInfo): string {
    "\n  " + IntToString(i) + ". " + doc.filename + "\n "
  }

  /** The failed-documents section: present exactly when the list is non-empty. */
  function FailedSection(docs: seq<FailedDocumentInfo>): (r: string)
    ensures r == "" <==> docs == []
  {
    if docs == [] then "" else FailedHeading + Numbered(docs, 1, FailedEntry)
  }

  /** Document `i` (0-based) is listed as number `i + 1`, in order. */
  lemma FailedListedAt(docs: seq<FailedDocumentInfo>, i: nat)
    requires i < |docs|
    ensures FailedSection(docs)
         == FailedHeading + (Numbered(docs[..i], 1, FailedEntry)
            + FailedEntry(i + 1, docs[i]) + Numbered(docs[i + 1..], i + 2, FailedEntry))
  {
    NumberedAt(docs, 1, FailedEntry, i);
  }

  /** Only the file names reach the text: lists that differ in folders and error
      messages alone render identically. */
  lemma FailedSectionShowsOnlyFilenames(docs: seq<FailedDocumentInfo>, others: seq<FailedDocumentInfo>)
    requires |docs| == |others|
    requires forall i :: 0 <= i < |docs| ==> docs[i].filename == others[i].filename
    ensures FailedSection(docs) == FailedSection(others)
  {
    NumberedSameEntries(docs, others, 1, FailedEntry, FailedEntry);
  }

  /** `str(SyncStatusResponse)`. Rendering reads `filename` and `error_message` of
      every failed document, so an element the client left unconverted makes it
      raise: then there is no text. */
  function StatusView(st: SyncStatusResponse): (r: Option<string>)
    ensures r.Some? <==> AllInfos(st.failedDocuments)
  {
    if AllInfos(st.failedDocuments) then
      Some(Banner(StatusHeader) + RunningLine(st) + "\n\n"
           + Summary(st.successfullySyncedCount, st.failedDocumentsCount, |st.syncedFolders|)
           + FoldersSection(st.syncedFolders) + FailedSection(Infos(st.failedDocuments)) + "\n")
    else
      None
  }

  /** The folder loop of `str(SyncStatusResponse)`. */
  method FoldersText(folders: seq<string>) returns (section: string)
    ensures section == FoldersSection(folders)
  {
    section := "";
    if folders != [] {
      section := FoldersHeading;
      var i := 0;
      while i < |folders|
        invariant 0 <= i <= |folders|
        invariant section == FoldersHeading + Numbered(folders[..i], 1, FolderEntry)
      {
        assert folders[..i + 1] == folders[..i] + [folders[i]];
        NumberedSnoc(folders[..i], folders[i], 1, FolderEntry);
        Assoc(FoldersHeading, Numbered(folders[..i], 1, FolderEntry), FolderEntry(i + 1, folders[i]));
        section := section + FolderEntry(i + 1, folders[i]);
        i := i + 1;
      }
      assert folders[..i] == folders;
    }
  }

  /** The failed-documents loop of `str(SyncStatusResponse)`; it raises (no text)
      at the first element that is not a record. */
  method FailedText(docs: seq<FailureItem>) returns (section: Option<string>)
    ensures AllInfos(docs) ==> section == Some(FailedSection(Infos(docs)))
    ensures !AllInfos(docs) ==> section == None
  {
    var details := "";
    if docs != [] {
      details := FailedHeading;
      var i := 0;
      while i < |docs|
        invariant 0 <= i <= |docs|
        invariant AllInfos(docs[..i])
        invariant details == FailedHeading + Numbered(Infos(docs[..i]), 1, FailedEntry)
      {
        if docs[i].Raw? {
          // `doc.error_message` raises on an element left unconverted
          assert !AllInfos(docs);
          return None;
        }
        assert docs[..i + 1] == docs[..i] + [docs[i]];
        assert Infos(docs[..i + 1]) == Infos(docs[..i]) + [docs[i].info];
        NumberedSnoc(Infos(docs[..i]), docs[i].info, 1, FailedEntry);
        Assoc(FailedHeading, Numbered(Infos(docs[..i]), 1, FailedEntry), FailedEntry(i + 1, docs[i].info));
        details := details + FailedEntry(i + 1, docs[i].info);
        i := i + 1;
      }
      assert docs[..i] == docs;
    }
    section := Some(details);
  }

  method StatusText(st: SyncStatusResponse) returns (text: Option<string>)
    ensures text == StatusView(st)
  {
    var header := StatusHeader;
    var headerSeparator := Repeat('═', |header|);
    var runtimeDisplay := RunningLine(st);
    var summary := Summary(st.successfullySyncedCount, st.failedDocumentsCount, |st.syncedFolders|);
    var foldersSection := FoldersText(st.syncedFolders);
    var failedDetails := FailedText(st.failedDocuments);
    if failedDetails.None? {
      return None;
    }
    text := Some("\n" + header + "\n" + headerSeparator + "\n" + runtimeDisplay + "\n\n"
                 + summary + foldersSection + failedDetails.value + "\n");
  }

  // ---------------------------------------------------------------------
  // SearchResult and SearchResponse

  datatype SearchResult = SearchResult(filename: string, snippet: string, sharepointLink: string)

  /** The file line, its '─' underline and the wrapped snippet of
      `str(SearchResult)`, after its leading newline. `fill` stands for
      `textwrap.fill(snippet, width=80, initial_indent="   ",
      subsequent_indent="   ")`. */
  function ResultLines(r: SearchResult, fill: string -> string): string {
    var filenameDisplay := "📄 " + r.filename;
    filenameDisplay + "\n" + Repeat('─', |filenameDisplay|) + "\n" + fill(r.snippet) + "\n\n"
  }

  const ResultSeparator := Repeat('═', 80)

  /** The end of every result: a newline, 80 '═' and a newline. */
  const SeparatorLine := "\n" + ResultSeparator + "\n"

  /** Everything of `str(SearchResult)` after its leading newline. */
  function ResultBody(r: SearchResult, fill: string -> string): string {
    ResultLines(r, fill) + ("🔗 " + r.sharepointLink) + SeparatorLine
  }

  /** `str(SearchResult)`. */
  function ResultText(r: SearchResult, fill: string -> string): string {
    "\n" + ResultBody(r, fill)
  }

  /** Result `i` as the search listing shows it: `replace("📄", f"{i}. 📄", 1)`. */
  function NumberedResult(i: int, r: SearchResult, fill: string -> string): string {
    ReplaceFirst(ResultText(r, fill), "📄", IntToString(i) + ". " + "📄")
  }

  function ResultEntry(fill: string -> string): (int, SearchResult) -> string {
    (i, r) => NumberedResult(i, r, fill)
  }

  /** The first "📄" of a result's text is the one of its file line, right after
      the leading newline, so the number lands there and nowhere else. */
  lemma NumberedResultShape(i: int, r: SearchResult, fill: string -> string)
    ensures NumberedResult(i, r, fill) == "\n" + IntToString(i) + ". " + ResultBody(r, fill)
  {
    var body := ResultBody(r, fill);
    assert body[0] == '📄';
    assert body == "📄" + body[1..];
    NumberFirstIcon(body[1..], IntToString(i) + ". ");
    Assoc("\n", IntToString(i), ". ");
  }

  /** In a text made of a newline, "📄" and `rest`, replacing the first "📄"
      by `number + "📄"` puts `number` right after the newline. */
  lemma NumberFirstIcon(rest: string, number: string)
    ensures ReplaceFirst("\n" + ("📄" + rest), "📄", number + "📄") == "\n" + number + ("📄" + rest)
  {
    var text := "\n" + ("📄" + rest);
    assert text[1..2] == "📄";
    assert !OccursAt(text, "📄", 0);
    ReplaceFirstAt(text, "📄", number + "📄", 1);
    assert text[..1] == "\n";
    assert text[2..] == rest;
    Assoc("\n", number + "📄", rest);
    Assoc(number, "📄", rest);
    Assoc("\n", number, "📄" + rest);
  }

  /** The characters `rstrip("═" * 80 + "\n")` removes. */
  const StripChars := CharsOf(ResultSeparator + "\n")

  lemma StripCharsAreSeparatorAndNewline()
    ensures StripChars == {'═', '\n'}
  {
    var s := ResultSeparator + "\n";
    assert s[0] == '═' && s[80] == '\n';
    assert forall c :: c in StripChars ==> c == '═' || c == '\n';
  }

  lemma SeparatorLineIsStripped()
    ensures forall k :: 0 <= k < |SeparatorLine| ==> SeparatorLine[k] in StripChars
  {
    StripCharsAreSeparatorAndNewline();
  }

  /** The numbered results joined and stripped of their trailing separator. */
  function ResultsBlock(results: seq<SearchResult>, fill: string -> string): (r: string)
    ensures r == "" || r[|r| - 1] !in StripChars
  {
    var joined := Numbered(results, 1, ResultEntry(fill));
    if joined != "" then Rstrip(joined, StripChars) else joined
  }

  method ResultsText(results: seq<SearchResult>, fill: string -> string) returns (text: string)
    ensures text == ResultsBlock(results, fill)
  {
    text := JoinNumbered(results, 1, ResultEntry(fill));
    if text != "" {
      text := Rstrip(text, StripChars);
    }
  }

  /** The listing of a non-empty result list ends with the last result's link
      line and separator, after everything up to its "🔗 ". */
  lemma NumberedEndsWithLink(results: seq<SearchResult>, fill: string -> string)
    requires results != []
    ensures var n := |results|;
      Numbered(results, 1, ResultEntry(fill))
      == ListingBeforeLastLink(results, fill) + (results[n - 1].sharepointLink + SeparatorLine)
  {
    var n := |results|;
    var last := results[n - 1];
    NumberedSplitsLast(results, fill);
    NumberedResultShape(n, last, fill);
    SplitBeforeLink(Numbered(results, 1, ResultEntry(fill)), Numbered(results[..n - 1], 1, ResultEntry(fill)),
                    NumberedResult(n, last, fill), "\n" + IntToString(n) + ". ", ResultLines(last, fill),
                    "🔗 ", last.sharepointLink, SeparatorLine);
  }

  /** The listing is the listing of all but the last result, then the last one. */
  lemma NumberedSplitsLast(results: seq<SearchResult>, fill: string -> string)
    requires results != []
    ensures var n := |results|;
      Numbered(results, 1, ResultEntry(fill))
      == Numbered(results[..n - 1], 1, ResultEntry(fill)) + NumberedResult(n, results[n - 1], fill)
  {
    var n := |results|;
    assert results == results[..n - 1] + [results[n - 1]];
    NumberedSnoc(results[..n - 1], results[n - 1], 1, ResultEntry(fill));
  }

  /** The regrouping behind `NumberedEndsWithLink`, over plain strings: a
      listing that ends with `number`, `lines`, `pin`, `link` and `sep` splits
      right after `pin`. */
  lemma SplitBeforeLink(all: string, before: string, entry: string, number: string,
                        lines: string, pin: string, link: string, sep: string)
    requires all == before + entry
    requires entry == number + (lines + (pin + link) + sep)
    ensures all == before + number + lines + pin + (link + sep)
  {
    Regroup(before, number, lines, pin, link, sep);
  }

  /** Everything of the listing up to the last result's "🔗 ". */
  function ListingBeforeLastLink(results: seq<SearchResult>, fill: string -> string): (x: string)
    requires results != []
    ensures x != [] && x[|x| - 1] == ' '
  {
    var n := |results|;
    Numbered(results[..n - 1], 1, ResultEntry(fill))
      + ("\n" + IntToString(n) + ". ") + ResultLines(results[n - 1], fill) + "🔗 "
  }

  /** The strip removes the last result's separator and, because `rstrip` takes
      a set of characters, also every '═' and newline at the end of its link;
      it stops at the space after "🔗". */
  lemma ResultsBlockStripsLastLink(results: seq<SearchResult>, fill: string -> string)
    requires results != []
    ensures ResultsBlock(results, fill)
         == ListingBeforeLastLink(results, fill) + Rstrip(results[|results| - 1].sharepointLink, StripChars)
  {
    var link := results[|results| - 1].sharepointLink;
    var x := ListingBeforeLastLink(results, fill);
    NumberedEndsWithLink(results, fill);
    StripCharsAreSeparatorAndNewline();
    RstripAfterStop(x, link + SeparatorLine, StripChars);
    SeparatorLineIsStripped();
    RstripDropsStrippable(link, SeparatorLine, StripChars);
  }

  /** When the last link does not end in '═' or a newline, exactly the trailing
      separator is removed. */
  lemma ResultsBlockRemovesSeparator(results: seq<SearchResult>, fill: string -> string)
    requires results != []
    requires var link := results[|results| - 1].sharepointLink;
      link == [] || link[|link| - 1] !in {'═', '\n'}
    ensures ResultsBlock(results, fill) + SeparatorLine == Numbered(results, 1, ResultEntry(fill))
  {
    var link := results[|results| - 1].sharepointLink;
    var x := ListingBeforeLastLink(results, fill);
    assert ResultsBlock(results, fill) == x + link by {
      ResultsBlockStripsLastLink(results, fill);
      assert Rstrip(link, StripChars) == link by {
        StripCharsAreSeparatorAndNewline();
      }
    }
    NumberedEndsWithLink(results, fill);
    Assoc(x, link, SeparatorLine);
  }

  datatype SearchResponse = SearchResponse(query: string, results: seq<SearchResult>, timeTaken: real)

  function SearchHeader(query: string): string {
    "🔍 Search Results for: \"" + query + "\""
  }

  /** The count line: "result" for exactly one result, "results" otherwise, then the time. */
  function CountLine(n: nat, time: string): string {
    "Found " + IntToString(n) + " result" + (if n != 1 then "s" else "") + " in " + time + "s"
  }

  /** Reads the count and what follows the word "result". */
  function ReadCount(line: string): Option<(int, string)> {
    match ReadField("Found ", line)
    case None => None
    case Some((n, rest)) =>
      match Expect(" result", rest)
      case None => None
      case Some(tail) => Some((n, tail))
  }

  /** The count line shows the number of results, and "result" takes an "s"
      exactly when that number is not one. */
  lemma CountLineReadBack(n: nat, time: string)
    ensures ReadCount(CountLine(n, time)) == Some((n, (if n != 1 then "s" else "") + " in " + time + "s"))
  {
    var tail := (if n != 1 then "s" else "") + " in " + time + "s";
    assert CountLine(n, time) == "Found " + IntToString(n) + (" result" + tail);
    ReadFieldOfIntToString("Found ", n, " result" + tail);
    ExpectOfLiteral(" result", tail);
  }

  /** `str(SearchResponse)`; `fixed2` stands for the `:.2f` formatting of the time. */
  function SearchView(resp: SearchResponse, fill: string -> string, fixed2: real -> string): string {
    Banner(SearchHeader(resp.query)) + CountLine(|resp.results|, fixed2(resp.timeTaken)) + "\n"
    + ResultsBlock(resp.results, fill) + "\n"
  }

  method SearchText(resp: SearchResponse, fill: string -> string, fixed2: real -> string) returns (text: string)
    ensures text == SearchView(resp, fill, fixed2)
  {
    var header := SearchHeader(resp.query);
    var headerSeparator := Repeat('═', |header|);
    var countInfo := CountLine(|resp.results|, fixed2(resp.timeTaken));
    var resultsText := ResultsText(resp.results, fill);
    text := "\n" + header + "\n" + headerSeparator + "\n" + countInfo + "\n" + resultsText + "\n";
  }
}
