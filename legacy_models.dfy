/** The response models of the earlier package layout (cob_ai/models.py) and
    their text renderings. `FailedDocumentInfo`, `SearchResult` and the status
    summary are the same as in the current models and are shared with them;
    the listings, the completion report and the count line differ. */
module LegacyModels {
  import opened Wrappers
  import opened Text
  import opened Models

  // ---------------------------------------------------------------------
  // SyncCompletionStatus

  /** A completion report; its failed documents are plain JSON objects. */
  datatype SyncCompletionStatus = SyncCompletionStatus(
    processedCount: int,
    deletedCount: int,
    failedCount: int,
    failedDocuments: seq<map<string, string>>)

  const CompletionHeader := "🔄 Sync Completion Status"

  /** The three counts, as stored. */
  function CompletionSummary(processed: int, deleted: int, failed: int): string {
    "📊 Processed: " + IntToString(processed)
    + (" documents\n🗑️  Deleted: " + IntToString(deleted)
       + (" documents\n❌ Failed: " + IntToString(failed) + " documents"))
  }

  function ReadCompletionSummary(text: string): Option<(int, int, int)> {
    match ReadField("📊 Processed: ", text)
    case None => None
    case Some((processed, rest1)) =>
      match ReadField(" documents\n🗑️  Deleted: ", rest1)
      case None => None
      case Some((deleted, rest2)) =>
        match ReadField(" documents\n❌ Failed: ", rest2)
        case None => None
        case Some((failed, rest3)) =>
          if rest3 == " documents" then Some((processed, deleted, failed)) else None
  }

  /** The processed, deleted and failed counts are shown verbatim and can be read back. */
  lemma CompletionSummaryReadBack(processed: int, deleted: int, failed: int)
    ensures ReadCompletionSummary(CompletionSummary(processed, deleted, failed)) == Some((processed, deleted, failed))
  {
    var line1, line2, line3 := "📊 Processed: ", " documents\n🗑️  Deleted: ", " documents\n❌ Failed: ";
    var tail3 := " documents";
    var tail2 := line3 + IntToString(failed) + tail3;
    var tail1 := line2 + IntToString(deleted) + tail2;
    ReadFieldOfIntToString(line1, processed, tail1);
    ReadFieldOfIntToString(line2, deleted, tail2);
    ReadFieldOfIntToString(line3, failed, tail3);
  }

  /** A failure line of the report: the number, then the "filename" and "error"
      entries of the object, with a fallback text for each that is missing. */
  function CompletionEntry(i: int, doc: map<string, string>): string {
    "\n" + IntToString(i) + ". " + DictGet(doc, "filename", "Unknown file") + ": " + DictGet(doc, "error", "Unknown error")
  }

  /** The line reads "Unknown file" and "Unknown error" in place of missing keys,
      and an "error_message" key, which the status endpoint uses, is not read. */
  lemma CompletionEntryDefaults(i: int, doc: map<string, string>, message: string)
    ensures CompletionEntry(i, doc)
         == "\n" + IntToString(i) + ". " + (if "filename" in doc then doc["filename"] else "Unknown file")
            + ": " + (if "error" in doc then doc["error"] else "Unknown error")
    ensures CompletionEntry(i, doc["error_message" := message]) == CompletionEntry(i, doc)
  {
    var other := doc["error_message" := message];
    assert "error_message" != "filename" && "error_message" != "error" by {
      assert |"error_message"| != |"filename"| && |"error_message"| != |"error"|;
    }
    assert ("filename" in other) == ("filename" in doc);
    assert ("error" in other) == ("error" in doc);
  }

  /** The failure section of the report: present exactly when there are failed documents. */
  function CompletionFailedSection(docs: seq<map<string, string>>): (r: string)
    ensures r == "" <==> docs == []
  {
    if docs == [] then "" else FailedHeading + Numbered(docs, 1, CompletionEntry)
  }

  /** Document `i` (0-based) is listed as number `i + 1`, in order. */
  lemma CompletionListedAt(docs: seq<map<string, string>>, i: nat)
    requires i < |docs|
    ensures CompletionFailedSection(docs)
         == FailedHeading + (Numbered(docs[..i], 1, CompletionEntry)
            + CompletionEntry(i + 1, docs[i]) + Numbered(docs[i + 1..], i + 2, CompletionEntry))
  {
    NumberedAt(docs, 1, CompletionEntry, i);
  }

  /** `str(SyncCompletionStatus)`. */
  function CompletionView(s: SyncCompletionStatus): string {
    Banner(CompletionHeader) + CompletionSummary(s.processedCount, s.deletedCount, s.failedCount)
    + CompletionFailedSection(s.failedDocuments) + "\n"
  }

  /** The failure loop of `str(SyncCompletionStatus)`. */
  method CompletionFailedText(docs: seq<map<string, string>>) returns (section: string)
    ensures section == CompletionFailedSection(docs)
  {
    section := "";
    if docs != [] {
      section := FailedHeading;
      var i := 0;
      while i < |docs|
        invariant 0 <= i <= |docs|
        invariant section == FailedHeading + Numbered(docs[..i], 1, CompletionEntry)
      {
        assert docs[..i + 1] == docs[..i] + [docs[i]];
        NumberedSnoc(docs[..i], docs[i], 1, CompletionEntry);
        Assoc(FailedHeading, Numbered(docs[..i], 1, CompletionEntry), CompletionEntry(i + 1, docs[i]));
        section := section + CompletionEntry(i + 1, docs[i]);
        i := i + 1;
      }
      assert docs[..i] == docs;
    }
  }

  method CompletionText(s: SyncCompletionStatus) returns (text: string)
    ensures text == CompletionView(s)
  {
    var header := CompletionHeader;
    var headerSeparator := Repeat('═', |header|);
    var summary := CompletionSummary(s.processedCount, s.deletedCount, s.failedCount);
    var failedDetails := CompletionFailedText(s.failedDocuments);
    text := "\n" + header + "\n" + headerSeparator + "\n" + summary + failedDetails + "\n";
  }

  // ---------------------------------------------------------------------
  // SyncStatusResponse (no running state, full failure lines)

  datatype LegacyStatus = LegacyStatus(
    syncedFolders: seq<string>,
    successfullySyncedCount: int,
    failedDocumentsCount: int,
    failedDocuments: seq<FailedDocumentInfo>)

  function LegacyFolderEntry(i: int, folder: string): string {
    "\n" + IntToString(i) + ". " + folder
  }

  /** A failure line: number, file name, folder in parentheses and error message. */
  function LegacyFailedEntry(i: int, doc: FailedDocumentInfo): string {
    "\n" + IntToString(i) + ". " + doc.filename + " (" + doc.folder + "): " + doc.errorMessage
  }

  /** Unlike the current rendering, the legacy line carries the error message:
      two documents with the same file name and folder but different messages
      give different lines. */
  lemma LegacyFailedEntryShowsError(i: int, doc: FailedDocumentInfo, other: FailedDocumentInfo)
    requires doc.filename == other.filename && doc.folder == other.folder
    ensures LegacyFailedEntry(i, doc) == LegacyFailedEntry(i, other) <==> doc.errorMessage == other.errorMessage
  {
    var prefix := "\n" + IntToString(i) + ". " + doc.filename + " (" + doc.folder + "): ";
    assert LegacyFailedEntry(i, doc) == prefix + doc.errorMessage;
    assert LegacyFailedEntry(i, other) == prefix + other.errorMessage;
    if LegacyFailedEntry(i, doc) == LegacyFailedEntry(i, other) {
      assert doc.errorMessage == (prefix + doc.errorMessage)[|prefix|..];
      assert other.errorMessage == (prefix + other.errorMessage)[|prefix|..];
    }
  }

  /** The folder section: present exactly when there are synced folders. */
  function LegacyFoldersSection(folders: seq<string>): (r: string)
    ensures r == "" <==> folders == []
  {
    if folders == [] then "" else FoldersHeading + Numbered(folders, 1, LegacyFolderEntry)
  }

  /** Folder `i` (0-based) is listed as number `i + 1`, in order. */
  lemma LegacyFolderListedAt(folders: seq<string>, i: nat)
    requires i < |folders|
    ensures LegacyFoldersSection(folders)
         == FoldersHeading + (Numbered(folders[..i], 1, LegacyFolderEntry)
            + LegacyFolderEntry(i + 1, folders[i]) + Numbered(folders[i + 1..], i + 2, LegacyFolderEntry))
  {
    NumberedAt(folders, 1, LegacyFolderEntry, i);
  }

  /** The failure section: present exactly when the list is non-empty. */
  function LegacyFailedSection(docs: seq<FailedDocumentInfo>): (r: string)
    ensures r == "" <==> docs == []
  {
    if docs == [] then "" else FailedHeading + Numbered(docs, 1, LegacyFailedEntry)
  }

  /** Document `i` (0-based) is listed as number `i + 1`, in order. */
  lemma LegacyFailedListedAt(docs: seq<FailedDocumentInfo>, i: nat)
    requires i < |docs|
    ensures LegacyFailedSection(docs)
         == FailedHeading + (Numbered(docs[..i], 1, LegacyFailedEntry)
            + LegacyFailedEntry(i + 1, docs[i]) + Numbered(docs[i + 1..], i + 2, LegacyFailedEntry))
  {
    NumberedAt(docs, 1, LegacyFailedEntry, i);
  }

  /** `str(SyncStatusResponse)` of the legacy layout: no running line, the summary
      right after the banner. */
  function LegacyStatusView(st: LegacyStatus): string {
    Banner(StatusHeader)
    + Summary(st.successfullySyncedCount, st.failedDocumentsCount, |st.syncedFolders|)
    + LegacyFoldersSection(st.syncedFolders) + LegacyFailedSection(st.failedDocuments) + "\n"
  }

  /** The folder loop of the legacy `str(SyncStatusResponse)`. */
  method LegacyFoldersText(folders: seq<string>) returns (section: string)
    ensures section == LegacyFoldersSection(folders)
  {
    section := "";
    if folders != [] {
      section := FoldersHeading;
      var i := 0;
      while i < |folders|
        invariant 0 <= i <= |folders|
        invariant section == FoldersHeading + Numbered(folders[..i], 1, LegacyFolderEntry)
      {
        assert folders[..i + 1] == folders[..i] + [folders[i]];
        NumberedSnoc(folders[..i], folders[i], 1, LegacyFolderEntry);
        Assoc(FoldersHeading, Numbered(folders[..i], 1, LegacyFolderEntry), LegacyFolderEntry(i + 1, folders[i]));
        section := section + LegacyFolderEntry(i + 1, folders[i]);
        i := i + 1;
      }
      assert folders[..i] == folders;
    }
  }

  /** The failure loop of the legacy `str(SyncStatusResponse)`. */
  method LegacyFailedText(docs: seq<FailedDocumentInfo>) returns (section: string)
    ensures section == LegacyFailedSection(docs)
  {
    section := "";
    if docs != [] {
      section := FailedHeading;
      var i := 0;
      while i < |docs|
        invariant 0 <= i <= |docs|
        invariant section == FailedHeading + Numbered(docs[..i], 1, LegacyFailedEntry)
      {
        assert docs[..i + 1] == docs[..i] + [docs[i]];
        NumberedSnoc(docs[..i], docs[i], 1, LegacyFailedEntry);
        Assoc(FailedHeading, Numbered(docs[..i], 1, LegacyFailedEntry), LegacyFailedEntry(i + 1, docs[i]));
        section := section + LegacyFailedEntry(i + 1, docs[i]);
        i := i + 1;
      }
      assert docs[..i] == docs;
    }
  }

  method LegacyStatusText(st: LegacyStatus) returns (text: string)
    ensures text == LegacyStatusView(st)
  {
    var header := StatusHeader;
    var headerSeparator := Repeat('═', |header|);
    var summary := Summary(st.successfullySyncedCount, st.failedDocumentsCount, |st.syncedFolders|);
    var foldersSection := LegacyFoldersText(st.syncedFolders);
    var failedDetails := LegacyFailedText(st.failedDocuments);
    text := "\n" + header + "\n" + headerSeparator + "\n" + summary + foldersSection + failedDetails + "\n";
  }

  // ---------------------------------------------------------------------
  // SearchResponse (count line without timing)

  /** The legacy count line: "result" for exactly one result, "results" otherwise. */
  function LegacyCountLine(n: nat): string {
    "Found " + IntToString(n) + " result" + (if n != 1 then "s" else "")
  }

  /** The count can be read back, and after "result" comes at most the plural
      "s": the line carries no time. */
  lemma LegacyCountLineReadBack(n: nat)
    ensures ReadCount(LegacyCountLine(n)) == Some((n, if n != 1 then "s" else ""))
  {
    var tail := if n != 1 then "s" else "";
    assert LegacyCountLine(n) == "Found " + IntToString(n) + (" result" + tail);
    ReadFieldOfIntToString("Found ", n, " result" + tail);
    ExpectOfLiteral(" result", tail);
  }

  /** `str(SearchResponse)` of the legacy layout; the results are numbered and
      stripped as in the current one, and the time taken is not shown. */
  function LegacySearchView(resp: SearchResponse, fill: string -> string): string {
    Banner(SearchHeader(resp.query)) + LegacyCountLine(|resp.results|) + "\n"
    + ResultsBlock(resp.results, fill) + "\n"
  }

  method LegacySearchText(resp: SearchResponse, fill: string -> string) returns (text: string)
    ensures text == LegacySearchView(resp, fill)
  {
    var header := SearchHeader(resp.query);
    var headerSeparator := Repeat('═', |header|);
    var countInfo := LegacyCountLine(|resp.results|);
    var resultsText := ResultsText(resp.results, fill);
    text := "\n" + header + "\n" + headerSeparator + "\n" + countInfo + "\n" + resultsText + "\n";
  }
}
