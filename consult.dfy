/**
 * The consultation screen: sending a question, the rule that decides between
 * escalating to a claims adjuster and an automatic answer, and the document
 * upload flow with its admission guards (5 per session, 20 in total, a MIME
 * whitelist), the file-kind classification and the capped progress counter.
 *
 * Each timer callback of the screen is one method; when the timers fire is
 * not modelled. Clock readings are `now` parameters in milliseconds, the
 * login check and the confirm dialog's answer are boolean parameters, and the
 * generated upload ids and object URLs are given.
 */
module Consult {
  import opened Wrappers
  import opened Seqs
  import opened Strings

  datatype Sender = User | Ai | Expert

  datatype FileKind = Image | Pdf | Document

  /** An entry of the upload tray, or an attachment of a sent message. */
  datatype FileAttachment = FileAttachment(
    id: string,
    name: string,
    kind: FileKind,
    size: nat,
    uploadProgress: nat,
    url: Option<string>,
    thumbnail: Option<string>)

  datatype Message = Message(
    id: string,
    text: string,
    sender: Sender,
    timestamp: nat,
    isTyping: bool,
    files: seq<FileAttachment>)

  /** A file picked in the browser's file dialog. */
  datatype SelectedFile = SelectedFile(name: string, mime: string, size: nat)

  const MaxSessionUploads: nat := 5
  const MaxTotalUploads: nat := 20

  /** The .docx MIME type, written by its separator-delimited parts. */
  const DocxType := "application/" + ("vnd." + ("openxmlformats-" + ("officedocument." + ("wordprocessingml." + "document"))))

  const AllowedTypes: seq<string> :=
    ["image/jpeg", "image/png", "image/jpg", "application/pdf", "application/msword", DocxType]

  const Greeting := "안녕하세요! 모두의 사정 AI 상담입니다. 어떤 도움이 필요하신가요?"
  const ExpertChecking := "손해사정사가 직접 확인 중입니다"
  const ExpertGreeting := "안녕하세요, 손해사정사입니다. 상세히 말씀해주시면 더 정확한 상담이 가능합니다."
  const AiAnswer := "네, 도와드리겠습니다. 더 자세한 정보를 알려주시면 정확한 상담이 가능합니다."
  const PolicySuggestion := "보험증권이 필요해 보이네요. 첨부해주세요!"
  const UploadAcknowledged := "손해사정사가 확인 중입니다"

  // ---------------------------------------------------------------------------
  // The reply rules
  // ---------------------------------------------------------------------------

  /** A question that mentions an accident (사고) or a commission (의뢰), or runs past 50 characters, goes to an adjuster. */
  predicate NeedsExpert(text: string)
  {
    Contains(text, "사고") || Contains(text, "의뢰") || |text| > 50
  }

  /** On the automatic path, a question about insurance also earns the policy-document suggestion. */
  predicate SuggestsPolicy(text: string)
  {
    Contains(text, "보험") || Contains(text, "실손") || Contains(text, "교통사고")
  }

  /**
   * 교통사고 contains 사고, so a question mentioning it is always escalated:
   * on the automatic path the third keyword of the suggestion rule never fires.
   */
  lemma AutomaticPathNeverSeesTrafficAccident(text: string)
    requires !NeedsExpert(text)
    ensures !Contains(text, "교통사고")
    ensures SuggestsPolicy(text) <==> Contains(text, "보험") || Contains(text, "실손")
  {
    assert "교통사고"[2..4] == "사고";
    ContainsAt("교통사고", "사고", 2);
    if Contains(text, "교통사고") {
      ContainsTransitive(text, "교통사고", "사고");
    }
  }

  /** A question of at most 50 characters with none of the two escalation words gets the automatic answer. */
  lemma ShortPlainQuestionIsAnswered(text: string)
    requires |text| <= 50 && !Contains(text, "사고") && !Contains(text, "의뢰")
    ensures !NeedsExpert(text)
  {
  }

  // ---------------------------------------------------------------------------
  // Upload admission
  // ---------------------------------------------------------------------------

  /** `file.type.startsWith("image/") ? "image" : file.type.includes("pdf") ? "pdf" : "document"`. */
  function FileKindOf(mime: string): FileKind
  {
    if StartsWith(mime, "image/") then Image
    else if Contains(mime, "pdf") then Pdf
    else Document
  }

  /** The whitelisted image types are classified as images. */
  lemma ImageTypesAreImages()
    ensures FileKindOf("image/jpeg") == Image
    ensures FileKindOf("image/png") == Image
    ensures FileKindOf("image/jpg") == Image
  {
    assert "image/jpeg"[..6] == "image/";
    assert "image/png"[..6] == "image/";
    assert "image/jpg"[..6] == "image/";
  }

  /** application/pdf is classified as a PDF. */
  lemma PdfTypeIsPdf()
    ensures FileKindOf("application/pdf") == Pdf
  {
    var m := "application/pdf";
    assert !StartsWith(m, "image/") by {
      assert m[0] != "image/"[0];
    }
    assert m[12..15] == "pdf";
    ContainsAt(m, "pdf", 12);
  }

  /** application/msword is classified as a document. */
  lemma WordTypeIsDocument()
    ensures FileKindOf("application/msword") == Document
  {
    var m := "application/msword";
    assert !StartsWith(m, "image/") by {
      assert m[0] != "image/"[0];
    }
    assert !Contains(m, "pdf") by {
      assert 'f' !in m;
      if Contains(m, "pdf") {
        ContainsChar(m, "pdf", 'f');
      }
    }
  }

  /** The .docx type is classified as a document: it does not start with image/ and has no "pdf" in it. */
  lemma DocxTypeIsDocument()
    ensures FileKindOf(DocxType) == Document
  {
    assert !StartsWith(DocxType, "image/") by {
      assert DocxType[0] != "image/"[0];
    }
    DocxTypeLacksPdf();
  }

  /** No "pdf" occurs in the .docx type. */
  lemma DocxTypeLacksPdf()
    ensures !Contains(DocxType, "pdf")
  {
    PartsLackPdf("application/", "vnd.", "openxmlformats-", "officedocument.", "wordprocessingml.", "document",
                 'f', 'p', 'd', 'p', 'f', 'p');
  }

  /**
   * Six texts joined in turn have no "pdf" in them when each misses one of its
   * letters and each but the last ends in a character that cannot begin or
   * continue an occurrence.
   */
  lemma PartsLackPdf(a: string, b: string, c: string, d: string, e: string, f: string,
                     ma: char, mb: char, mc: char, md: char, me: char, mf: char)
    requires ma in "pdf" && mb in "pdf" && mc in "pdf" && md in "pdf" && me in "pdf" && mf in "pdf"
    requires ma !in a && mb !in b && mc !in c && md !in d && me !in e && mf !in f
    requires a != [] && a[|a| - 1] != 'p' && a[|a| - 1] != 'd'
    requires b != [] && b[|b| - 1] != 'p' && b[|b| - 1] != 'd'
    requires c != [] && c[|c| - 1] != 'p' && c[|c| - 1] != 'd'
    requires d != [] && d[|d| - 1] != 'p' && d[|d| - 1] != 'd'
    requires e != [] && e[|e| - 1] != 'p' && e[|e| - 1] != 'd'
    ensures !Contains(a + (b + (c + (d + (e + f)))), "pdf")
  {
    LacksCharLacksPdf(f, mf);
    LacksCharLacksPdf(e, me);
    NotContainsConcat(e, f, "pdf");
    LacksCharLacksPdf(d, md);
    NotContainsConcat(d, e + f, "pdf");
    LacksCharLacksPdf(c, mc);
    NotContainsConcat(c, d + (e + f), "pdf");
    LacksCharLacksPdf(b, mb);
    NotContainsConcat(b, c + (d + (e + f)), "pdf");
    LacksCharLacksPdf(a, ma);
    NotContainsConcat(a, b + (c + (d + (e + f))), "pdf");
  }

  /** A text without one of the letters of "pdf" has no "pdf" in it. */
  lemma LacksCharLacksPdf(s: string, c: char)
    requires c in "pdf" && c !in s
    ensures !Contains(s, "pdf")
  {
    if Contains(s, "pdf") {
      ContainsChar(s, "pdf", c);
    }
  }

  /** Every character of an occurring pattern occurs in the text. */
  lemma ContainsChar(s: string, pat: string, c: char)
    requires Contains(s, pat) && c in pat
    ensures c in s
  {
    var i := ContainsWitness(s, pat);
    var k :| 0 <= k < |pat| && pat[k] == c;
    assert s[i..i + |pat|][k] == c;
    assert s[i + k] == c;
  }

  predicate IsUnsupported(f: SelectedFile)
  {
    f.mime !in AllowedTypes
  }

  /** Why a selection was turned away. */
  datatype Refusal = LoginRequired | SessionLimit | TotalLimit | UnsupportedType | Declined

  datatype Admission = Ignored | Refused(reason: Refusal) | Accepted

  /**
   * The guards of handleFileSelect in their order: an empty selection is
   * ignored; then login, the per-session limit, the total limit, the MIME
   * whitelist and the confirm dialog each can refuse the whole selection.
   */
  function Admit(batch: seq<SelectedFile>, sessionUploadCount: nat, uploadedCount: nat,
                 loggedIn: bool, confirmed: bool): (r: Admission)
    ensures r == Ignored <==> |batch| == 0
    ensures r == Accepted <==>
              && |batch| > 0 && loggedIn
              && sessionUploadCount + |batch| <= MaxSessionUploads
              && uploadedCount + |batch| <= MaxTotalUploads
              && (forall f :: f in batch ==> f.mime in AllowedTypes)
              && confirmed
    ensures r == Refused(SessionLimit) <==> |batch| > 0 && loggedIn && sessionUploadCount + |batch| > MaxSessionUploads
    ensures r == Refused(UnsupportedType) ==> exists f :: f in batch && f.mime !in AllowedTypes
  {
    var invalidFiles := Filter(batch, IsUnsupported);
    FilterMembers(batch, IsUnsupported);
    if |batch| == 0 then Ignored
    else if !loggedIn then Refused(LoginRequired)
    else if sessionUploadCount + |batch| > 5 then Refused(SessionLimit)
    else if uploadedCount + |batch| > 20 then Refused(TotalLimit)
    else if |invalidFiles| > 0 then
      assert invalidFiles[0] in invalidFiles;
      Refused(UnsupportedType)
    else if !confirmed then Refused(Declined)
    else Accepted
  }

  /** One unsupported file turns the whole selection away, whatever the others are. */
  lemma OneBadFileRefusesAll(batch: seq<SelectedFile>, s: nat, u: nat, confirmed: bool, bad: SelectedFile)
    requires bad in batch && bad.mime !in AllowedTypes
    requires s + |batch| <= MaxSessionUploads && u + |batch| <= MaxTotalUploads
    ensures Admit(batch, s, u, true, confirmed) == Refused(UnsupportedType)
  {
    FilterMembers(batch, IsUnsupported);
  }

  // ---------------------------------------------------------------------------
  // Upload progress
  // ---------------------------------------------------------------------------

  /** One interval tick: `Math.min(p + 20, 100)`. */
  function NextProgress(p: nat): (r: nat)
    ensures r <= 100
    ensures p <= 100 ==> p <= r
    ensures r == 100 || r == p + 20
    ensures p + 20 <= 100 ==> r == p + 20
    ensures p + 20 > 100 ==> r == 100
  {
    if p + 20 < 100 then p + 20 else 100
  }

  /** The progress after `n` ticks. */
  function ProgressAfter(p: nat, n: nat): nat
    decreases n
  {
    if n == 0 then p else ProgressAfter(NextProgress(p), n - 1)
  }

  /** Ticks never lower a progress value and never take it past 100. */
  lemma {:induction false} ProgressStaysBounded(p: nat, n: nat)
    requires p <= 100
    ensures p <= ProgressAfter(p, n) <= 100
    decreases n
  {
    if n > 0 {
      ProgressStaysBounded(NextProgress(p), n - 1);
    }
  }

  /** Five ticks take a fresh upload to 100 and further ticks keep it there. */
  lemma {:induction false} FiveTicksComplete(n: nat)
    requires n >= 5
    ensures ProgressAfter(0, n) == 100
  {
    calc {
      ProgressAfter(0, n);
      ProgressAfter(20, n - 1);
      ProgressAfter(40, n - 2);
      ProgressAfter(60, n - 3);
      ProgressAfter(80, n - 4);
      ProgressAfter(100, n - 5);
    }
    StaysComplete(n - 5);
  }

  lemma {:induction false} StaysComplete(n: nat)
    ensures ProgressAfter(100, n) == 100
  {
    if n > 0 {
      StaysComplete(n - 1);
    }
  }

  /** The tray entry a selected file starts as. */
  function Staged(f: SelectedFile, id: string): (a: FileAttachment)
    ensures a.id == id && a.name == f.name && a.size == f.size
    ensures a.kind == FileKindOf(f.mime) && a.uploadProgress == 0 && a.url == None && a.thumbnail == None
  {
    FileAttachment(id, f.name, FileKindOf(f.mime), f.size, 0, None, None)
  }

  /** The tray entries for a selection, in order. */
  function StagedAll(batch: seq<SelectedFile>, ids: seq<string>): (r: seq<FileAttachment>)
    requires |ids| == |batch|
    ensures |r| == |batch|
    ensures forall i :: 0 <= i < |batch| ==> r[i] == Staged(batch[i], ids[i])
  {
    seq(|batch|, i requires 0 <= i < |batch| => Staged(batch[i], ids[i]))
  }

  /** Staging one more file of the selection appends its entry. */
  lemma StagedAllExtend(batch: seq<SelectedFile>, ids: seq<string>, i: nat)
    requires |ids| == |batch| && i < |batch|
    ensures StagedAll(batch[..i + 1], ids[..i + 1]) == StagedAll(batch[..i], ids[..i]) + [Staged(batch[i], ids[i])]
  {
    var a := StagedAll(batch[..i + 1], ids[..i + 1]);
    var b := StagedAll(batch[..i], ids[..i]) + [Staged(batch[i], ids[i])];
    assert |a| == |b|;
    forall k | 0 <= k < |a| ensures a[k] == b[k] {
      if k < i {
        assert batch[..i + 1][k] == batch[..i][k] && ids[..i + 1][k] == ids[..i][k];
      }
    }
  }

  /** An image entry waits for its thumbnail before it enters the tray. */
  predicate IsImageEntry(f: FileAttachment)
  {
    f.kind == Image
  }

  /** A PDF or document entry enters the tray at once. */
  predicate NotImageEntry(f: FileAttachment)
  {
    f.kind != Image
  }

  /**
   * Every entry of a selection starts fresh: at progress 0, without a URL or a
   * thumbnail, named after its file and classified by its MIME type.
   */
  lemma StagedEntriesFresh(batch: seq<SelectedFile>, ids: seq<string>)
    requires |ids| == |batch|
    ensures ProgressBounded(StagedAll(batch, ids))
    ensures forall i :: 0 <= i < |batch| ==>
              var a := StagedAll(batch, ids)[i];
              a.id == ids[i] && a.name == batch[i].name && a.size == batch[i].size &&
              (a.kind == Image <==> StartsWith(batch[i].mime, "image/")) &&
              a.uploadProgress == 0 && a.url == None && a.thumbnail == None
  {
  }

  /**
   * A selection splits into the entries that enter the tray at once and the
   * image entries that wait for their reader: together they are every entry
   * exactly once.
   */
  lemma SelectionSplitsByKind(batch: seq<SelectedFile>, ids: seq<string>)
    requires |ids| == |batch|
    ensures var all := StagedAll(batch, ids);
            && |Filter(all, NotImageEntry)| + |Filter(all, IsImageEntry)| == |batch|
            && multiset(Filter(all, NotImageEntry)) + multiset(Filter(all, IsImageEntry)) == multiset(all)
            && (forall f :: f in Filter(all, IsImageEntry) <==> f in all && f.kind == Image)
            && (forall f :: f in Filter(all, NotImageEntry) <==> f in all && f.kind != Image)
  {
    var all := StagedAll(batch, ids);
    FilterSplit(all, NotImageEntry, IsImageEntry);
    FilterMembers(all, IsImageEntry);
    FilterMembers(all, NotImageEntry);
  }

  /** Staging one more file sends its entry to the tray or to the waiting images, by its kind. */
  lemma SplitExtend(batch: seq<SelectedFile>, ids: seq<string>, i: nat)
    requires |ids| == |batch| && i < |batch|
    ensures var a := Staged(batch[i], ids[i]);
            && Filter(StagedAll(batch[..i + 1], ids[..i + 1]), NotImageEntry) ==
                 Filter(StagedAll(batch[..i], ids[..i]), NotImageEntry) + (if a.kind != Image then [a] else [])
            && Filter(StagedAll(batch[..i + 1], ids[..i + 1]), IsImageEntry) ==
                 Filter(StagedAll(batch[..i], ids[..i]), IsImageEntry) + (if a.kind == Image then [a] else [])
  {
    var a := Staged(batch[i], ids[i]);
    var prefix := StagedAll(batch[..i], ids[..i]);
    StagedAllExtend(batch, ids, i);
    FilterConcat(prefix, [a], NotImageEntry);
    FilterConcat(prefix, [a], IsImageEntry);
    FilterSingleton(a, NotImageEntry);
    FilterSingleton(a, IsImageEntry);
  }

  /** The interval callback: advance the entry with that id and leave the others. */
  function Tick(id: string): FileAttachment -> FileAttachment
  {
    (f: FileAttachment) => if f.id == id then f.(uploadProgress := NextProgress(f.uploadProgress)) else f
  }

  /** The completion callback: the entry with that id becomes the completed file. */
  function Replace(id: string, completed: FileAttachment): FileAttachment -> FileAttachment
  {
    (f: FileAttachment) => if f.id == id then completed else f
  }

  /** The predicate `f => f.id !== id`. */
  function NotId(id: string): FileAttachment -> bool
  {
    (f: FileAttachment) => f.id != id
  }

  predicate NotTyping(m: Message)
  {
    !m.isTyping
  }

  /** Removing by id drops every entry with that id and keeps the rest in order. */
  lemma WithoutIdFacts(files: seq<FileAttachment>, id: string)
    ensures forall f :: f in Filter(files, NotId(id)) ==> f.id != id && f in files
    ensures forall f :: f in files && f.id != id ==> f in Filter(files, NotId(id))
    ensures IsSubsequence(Filter(files, NotId(id)), files)
  {
    FilterMembers(files, NotId(id));
    FilterIsSubsequence(files, NotId(id));
  }

  /** Connecting the adjuster leaves no typing placeholder and keeps every other message in order. */
  lemma ConnectRemovesPlaceholders(messages: seq<Message>, greeting: Message)
    requires !greeting.isTyping
    ensures forall m :: m in Filter(messages, NotTyping) + [greeting] ==> !m.isTyping
    ensures forall m :: m in messages && !m.isTyping ==> m in Filter(messages, NotTyping)
    ensures IsSubsequence(Filter(messages, NotTyping), messages)
  {
    FilterMembers(messages, NotTyping);
    FilterIsSubsequence(messages, NotTyping);
  }

  /** Every tray entry's progress is at most 100. */
  predicate ProgressBounded(files: seq<FileAttachment>)
  {
    forall i :: 0 <= i < |files| ==> files[i].uploadProgress <= 100
  }

  // ---------------------------------------------------------------------------
  // The screen
  // ---------------------------------------------------------------------------

  /** The ConsultPage component's state. */
  class ConsultSession {
    var messages: seq<Message>
    var inputText: string
    var isConnectedToExpert: bool
    var isExpertChecking: bool
    var uploadedFiles: seq<FileAttachment>
    var sessionUploadCount: nat

    ghost predicate Valid()
      reads this
    {
      ProgressBounded(uploadedFiles)
    }

    /** The greeting and the two sample requests from the adjuster, an hour and half an hour old. */
    constructor (now: nat)
      requires now >= 3600000
      ensures Valid()
      ensures messages == [
        Message("1", Greeting, Ai, now, false, []),
        Message("request-1", "진료기록부 추가로 보내주세요", Expert, now - 3600000, false, []),
        Message("request-2", "보험증권 사진 보내주시면 더 정확히 도와드릴 수 있어요.", Expert, now - 1800000, false, [])]
      ensures inputText == "" && !isConnectedToExpert && !isExpertChecking
      ensures uploadedFiles == [] && sessionUploadCount == 0
    {
      messages := [
        Message("1", Greeting, Ai, now, false, []),
        Message("request-1", "진료기록부 추가로 보내주세요", Expert, now - 3600000, false, []),
        Message("request-2", "보험증권 사진 보내주시면 더 정확히 도와드릴 수 있어요.", Expert, now - 1800000, false, [])];
      inputText := "";
      isConnectedToExpert := false;
      isExpertChecking := false;
      uploadedFiles := [];
      sessionUploadCount := 0;
    }

    /** The text field's onChange. */
    method SetInput(text: string)
      modifies this
      ensures inputText == text
      ensures messages == old(messages) && uploadedFiles == old(uploadedFiles)
      ensures sessionUploadCount == old(sessionUploadCount)
      ensures isConnectedToExpert == old(isConnectedToExpert) && isExpertChecking == old(isExpertChecking)
    {
      inputText := text;
    }

    /**
     * handleSend up to its timer: a blank input or a missing login changes
     * nothing; otherwise the question is appended as the user's message and
     * the field is cleared. The sent text is returned for the reply callback.
     */
    method Send(loggedIn: bool, now: nat) returns (sent: Option<string>)
      modifies this
      ensures IsBlank(old(inputText)) || !loggedIn ==>
                sent == None && messages == old(messages) && inputText == old(inputText)
      ensures !IsBlank(old(inputText)) && loggedIn ==>
                && sent == Some(old(inputText))
                && messages == old(messages) + [Message(NatToString(now), old(inputText), User, now, false, [])]
                && inputText == ""
      ensures uploadedFiles == old(uploadedFiles) && sessionUploadCount == old(sessionUploadCount)
      ensures isConnectedToExpert == old(isConnectedToExpert) && isExpertChecking == old(isExpertChecking)
    {
      if IsBlank(inputText) || !loggedIn {
        sent := None;
        return;
      }
      messages := messages + [Message(NatToString(now), inputText, User, now, false, [])];
      sent := Some(inputText);
      inputText := "";
    }

    /**
     * The reply callback: an escalated question shows the adjuster-checking
     * placeholder; any other gets the automatic answer. The result says
     * whether the policy-document suggestion was scheduled.
     */
    method Reply(text: string, now: nat) returns (suggest: bool)
      modifies this
      ensures NeedsExpert(text) ==>
                && isExpertChecking
                && messages == old(messages) + [Message(NatToString(now + 1), ExpertChecking, Ai, now, true, [])]
                && !suggest
      ensures !NeedsExpert(text) ==>
                && isExpertChecking == old(isExpertChecking)
                && messages == old(messages) + [Message(NatToString(now + 1), AiAnswer, Ai, now, false, [])]
                && (suggest <==> Contains(text, "보험") || Contains(text, "실손"))
      ensures inputText == old(inputText) && isConnectedToExpert == old(isConnectedToExpert)
      ensures uploadedFiles == old(uploadedFiles) && sessionUploadCount == old(sessionUploadCount)
    {
      if NeedsExpert(text) {
        isExpertChecking := true;
        messages := messages + [Message(NatToString(now + 1), ExpertChecking, Ai, now, true, [])];
        suggest := false;
      } else {
        AutomaticPathNeverSeesTrafficAccident(text);
        suggest := SuggestsPolicy(text);
        messages := messages + [Message(NatToString(now + 1), AiAnswer, Ai, now, false, [])];
      }
    }

    /** The suggestion callback, a second after the automatic answer. */
    method SuggestPolicy(now: nat)
      modifies this
      ensures messages == old(messages) + [Message(NatToString(now + 2), PolicySuggestion, Ai, now, false, [])]
      ensures inputText == old(inputText) && uploadedFiles == old(uploadedFiles)
      ensures sessionUploadCount == old(sessionUploadCount)
      ensures isConnectedToExpert == old(isConnectedToExpert) && isExpertChecking == old(isExpertChecking)
    {
      messages := messages + [Message(NatToString(now + 2), PolicySuggestion, Ai, now, false, [])];
    }

    /** The escalation callback: the placeholders go, the adjuster's greeting comes, the badge turns on. */
    method ConnectExpert(now: nat)
      modifies this
      ensures !isExpertChecking && isConnectedToExpert
      ensures messages == Filter(old(messages), NotTyping) + [Message(NatToString(now + 2), ExpertGreeting, Expert, now, false, [])]
      ensures forall m :: m in messages ==> !m.isTyping
      ensures inputText == old(inputText) && uploadedFiles == old(uploadedFiles)
      ensures sessionUploadCount == old(sessionUploadCount)
    {
      var greeting := Message(NatToString(now + 2), ExpertGreeting, Expert, now, false, []);
      ConnectRemovesPlaceholders(messages, greeting);
      isExpertChecking := false;
      isConnectedToExpert := true;
      messages := Filter(messages, NotTyping) + [greeting];
    }

    /**
     * handleFileSelect up to its timers: the admission guards, then for each
     * file in order a fresh entry. A PDF or document enters the tray; an image
     * waits for its reader and is returned in `pending`, in order, for
     * `ImageLoaded`. The tray updaters the loop queues take effect together,
     * after the handler.
     */
    method SelectFiles(batch: seq<SelectedFile>, loggedIn: bool, confirmed: bool, ids: seq<string>)
      returns (outcome: Admission, pending: seq<FileAttachment>)
      requires Valid() && |ids| == |batch|
      modifies this
      ensures Valid()
      ensures outcome == Admit(batch, old(sessionUploadCount), |old(uploadedFiles)|, loggedIn, confirmed)
      ensures outcome != Accepted ==> uploadedFiles == old(uploadedFiles) && pending == []
      ensures outcome == Accepted ==>
                && uploadedFiles == old(uploadedFiles) + Filter(StagedAll(batch, ids), NotImageEntry)
                && pending == Filter(StagedAll(batch, ids), IsImageEntry)
      ensures messages == old(messages) && inputText == old(inputText)
      ensures sessionUploadCount == old(sessionUploadCount)
      ensures isConnectedToExpert == old(isConnectedToExpert) && isExpertChecking == old(isExpertChecking)
    {
      pending := [];
      outcome := Admit(batch, sessionUploadCount, |uploadedFiles|, loggedIn, confirmed);
      if outcome != Accepted {
        return;
      }
      var ready;
      ready, pending := SplitSelection(batch, ids);
      StagedEntriesFresh(batch, ids);
      FilterIsSubsequence(StagedAll(batch, ids), NotImageEntry);
      BoundedSubsequence(ready, StagedAll(batch, ids));
      uploadedFiles := uploadedFiles + ready;
    }

    /** An image's reader finished: its entry, with the thumbnail, joins the end of the tray. */
    method ImageLoaded(entry: FileAttachment, thumbnail: string)
      requires Valid() && entry.uploadProgress <= 100
      modifies this
      ensures Valid()
      ensures uploadedFiles == old(uploadedFiles) + [entry.(thumbnail := Some(thumbnail))]
      ensures messages == old(messages) && inputText == old(inputText)
      ensures sessionUploadCount == old(sessionUploadCount)
      ensures isConnectedToExpert == old(isConnectedToExpert) && isExpertChecking == old(isExpertChecking)
    {
      uploadedFiles := uploadedFiles + [entry.(thumbnail := Some(thumbnail))];
    }

    /** One interval tick of the upload with that id. */
    method TickProgress(id: string)
      requires Valid()
      modifies this
      ensures Valid()
      ensures uploadedFiles == Map(old(uploadedFiles), Tick(id))
      ensures messages == old(messages) && inputText == old(inputText)
      ensures sessionUploadCount == old(sessionUploadCount)
      ensures isConnectedToExpert == old(isConnectedToExpert) && isExpertChecking == old(isExpertChecking)
    {
      uploadedFiles := Map(uploadedFiles, Tick(id));
    }

    /**
     * The completion callback: the entry becomes the completed file (progress
     * 100 and its object URL), the session count goes up by one, and the file
     * is posted as the user's message.
     */
    method CompleteUpload(staged: FileAttachment, url: string, now: nat)
      requires Valid()
      modifies this
      ensures Valid()
      ensures var completed := staged.(uploadProgress := 100, url := Some(url));
              && uploadedFiles == Map(old(uploadedFiles), Replace(staged.id, completed))
              && messages == old(messages) + [Message(staged.id, "파일 업로드: " + staged.name, User, now, false, [completed])]
      ensures sessionUploadCount == old(sessionUploadCount) + 1
      ensures inputText == old(inputText)
      ensures isConnectedToExpert == old(isConnectedToExpert) && isExpertChecking == old(isExpertChecking)
    {
      var completed := staged.(uploadProgress := 100, url := Some(url));
      uploadedFiles := Map(uploadedFiles, Replace(staged.id, completed));
      sessionUploadCount := sessionUploadCount + 1;
      messages := messages + [Message(staged.id, "파일 업로드: " + staged.name, User, now, false, [completed])];
    }

    /** The automatic acknowledgement half a second after a completed upload. */
    method AcknowledgeUpload(now: nat)
      modifies this
      ensures messages == old(messages) + [Message(NatToString(now + 1), UploadAcknowledged, Ai, now, false, [])]
      ensures inputText == old(inputText) && uploadedFiles == old(uploadedFiles)
      ensures sessionUploadCount == old(sessionUploadCount)
      ensures isConnectedToExpert == old(isConnectedToExpert) && isExpertChecking == old(isExpertChecking)
    {
      messages := messages + [Message(NatToString(now + 1), UploadAcknowledged, Ai, now, false, [])];
    }

    /** Two seconds after completion the entry leaves the tray (it now lives in the message). */
    method DropUploaded(id: string)
      requires Valid()
      modifies this
      ensures Valid()
      ensures uploadedFiles == Filter(old(uploadedFiles), NotId(id))
      ensures forall f :: f in uploadedFiles ==> f.id != id
      ensures messages == old(messages) && inputText == old(inputText)
      ensures sessionUploadCount == old(sessionUploadCount)
      ensures isConnectedToExpert == old(isConnectedToExpert) && isExpertChecking == old(isExpertChecking)
    {
      WithoutIdFacts(uploadedFiles, id);
      FilterAllSatisfy(uploadedFiles, NotId(id));
      uploadedFiles := Filter(uploadedFiles, NotId(id));
      BoundedSubsequence(uploadedFiles, old(uploadedFiles));
    }

    /** removeFile: drop every entry with that id; the session count goes down by one but not below zero. */
    method RemoveFile(id: string)
      requires Valid()
      modifies this
      ensures Valid()
      ensures uploadedFiles == Filter(old(uploadedFiles), NotId(id))
      ensures forall f :: f in uploadedFiles ==> f.id != id
      ensures sessionUploadCount == if old(sessionUploadCount) == 0 then 0 else old(sessionUploadCount) - 1
      ensures messages == old(messages) && inputText == old(inputText)
      ensures isConnectedToExpert == old(isConnectedToExpert) && isExpertChecking == old(isExpertChecking)
    {
      WithoutIdFacts(uploadedFiles, id);
      uploadedFiles := Filter(uploadedFiles, NotId(id));
      BoundedSubsequence(uploadedFiles, old(uploadedFiles));
      sessionUploadCount := if sessionUploadCount == 0 then 0 else sessionUploadCount - 1;
    }
  }

  /**
   * The `forEach` of handleFileSelect: one fresh entry per file, in order, sent
   * to the tray at once or, for an image, to the entries awaiting their reader.
   */
  method SplitSelection(batch: seq<SelectedFile>, ids: seq<string>)
    returns (ready: seq<FileAttachment>, waiting: seq<FileAttachment>)
    requires |ids| == |batch|
    ensures ready == Filter(StagedAll(batch, ids), NotImageEntry)
    ensures waiting == Filter(StagedAll(batch, ids), IsImageEntry)
  {
    ready, waiting := [], [];
    var i := 0;
    while i < |batch|
      invariant 0 <= i <= |batch|
      invariant ready == Filter(StagedAll(batch[..i], ids[..i]), NotImageEntry)
      invariant waiting == Filter(StagedAll(batch[..i], ids[..i]), IsImageEntry)
    {
      var entry := Staged(batch[i], ids[i]);
      SplitExtend(batch, ids, i);
      if entry.kind == Image {
        waiting := waiting + [entry];
      } else {
        ready := ready + [entry];
      }
      i := i + 1;
    }
    assert batch[..i] == batch && ids[..i] == ids;
  }

  /** Dropping entries keeps every remaining progress within bounds. */
  lemma BoundedSubsequence(a: seq<FileAttachment>, b: seq<FileAttachment>)
    requires IsSubsequence(a, b) && ProgressBounded(b)
    ensures ProgressBounded(a)
  {
    SubsequenceMembers(a, b);
    forall i | 0 <= i < |a| ensures a[i].uploadProgress <= 100 {
      assert a[i] in b;
      var j :| 0 <= j < |b| && b[j] == a[i];
    }
  }
}
