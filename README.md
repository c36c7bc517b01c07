# claimfit mobile-web UI logic, modelled in Dafny

claimfit is a Next.js mobile web front end for an insurance-claim adjusting
service. It has no back end: every screen works on sample data, timers and
browser storage. This project models the sequential logic inside its
handlers and proves what that logic promises.

- **Claim intake wizard** (`IntakeWizard`, the new-request screen):
  - a three-step form, with the step index 0..2 and one draft record, as the class `Wizard`;
  - the three step validators, with the per-insurance-type requirement table;
  - the cascades that clear dependent fields;
  - the tag and insurer toggles;
  - staging of at most three policy documents, each at most 10 MiB;
  - the policy-number hyphen formatter;
  - the 500-character cut of the consultation text.
- **Consultation screen** (`Consult`, class `ConsultSession`):
  - the blank and login guards of sending;
  - the rule choosing between adjuster escalation and the automatic answer, plus the policy-document suggestion;
  - upload admission (5 per session, 20 in total, a six-type MIME whitelist, the confirm dialog);
  - file-kind classification;
  - the progress tick `min(p + 20, 100)`;
  - the completion, acknowledgement and removal callbacks.
- **Precedent browser** (`Cases`):
  - the four-way filter (type, recent five years, any keyword, ASCII case-insensitive search);
  - the keyword toggle, the single-open FAQ toggle and the type badge colours.
- **Chat store** (`ChatStore`, class `ChatList`):
  - the relative-time label (방금 전 / N분 전 / N시간 전 / N일 전);
  - adding a chat first, appending a message, updating the last line, looking a chat up, and the minute refresh of the labels.
- **Small screens**:
  - the bottom-navigation active tab (`BottomNav`);
  - the status tabs and badges of the request list (`RequestsList`);
  - the community category tabs (`Community`);
  - the onboarding carousel (`Onboarding`, class `Carousel`).

`Seqs` and `Strings` hold the JavaScript list and string operations the screens share: `filter`, the include-or-append toggle, `splice(i, 1)`, `map`, `find`, `startsWith`, `includes`, `trim` and the decimal rendering of a number.

Modelling conventions:
- Things outside the program are parameters: clock readings (`now`, in milliseconds), the current year, whether an auth token is stored, the answer of a confirm dialog, generated ids and object URLs.
- A control that is disabled or not drawn is a `requires` on the handler it would fire.
- Each timer callback is a method of its own.

Unchecking the amount-unknown or policy-unknown box keeps whatever value the fields hold (www/app/requests/new/page.tsx:445-453, 689-699). Those fields are in practice empty at that moment, because checking the box emptied them.

## Model

| member | source | states |
|---|---|---|
| IntakeWizard.TreatmentOptionsWellFormed | www/app/requests/new/page.tsx:50-56 | every chosen insurance type offers at least one treatment tag, the empty type offers none, and no list repeats a tag |
| IntakeWizard.IsStep1Valid | www/app/requests/new/page.tsx:116-136 | step 0 passes iff a type is chosen, at least one tag is picked, and every field the type's requirement table names is filled (실손 and 진단/수술비/기타: hospital and claim status; 배상책임/재물: person type and region; 교통사고 and 후유장해: hospital) |
| IntakeWizard.IsStep2Valid | www/app/requests/new/page.tsx:138-155 | step 1 passes only with a category, at least one insurer and an amount or the amount-unknown box; for 실손 and 교통사고 without the policy-unknown box it also needs a document or both insurer and number; a failure names which of these is missing |
| IntakeWizard.ContactStepReadsOnlyContact | www/app/requests/new/page.tsx:157-159 | the contact step reads the contact fields alone: two drafts agreeing on them pass or fail it together, whatever their earlier steps hold |
| IntakeWizard.AvailableTimeIsOptional | www/app/requests/new/page.tsx:157-159 | the available time is optional: changing it never changes whether the contact step passes |
| IntakeWizard.NextDisabled | www/app/requests/new/page.tsx:920-926 | on steps 0..2 the next button is disabled exactly when the current step's validator fails |
| IntakeWizard.StagePolicyFile | www/app/requests/new/page.tsx:177-193 | a file over 10·1024·1024 bytes is refused for its size first; otherwise a fourth file is refused for the count; otherwise the file is appended at the end |
| IntakeWizard.StagingKeepsBounds | www/app/requests/new/page.tsx:177-193 | staging keeps the list at three files or fewer, each within the size limit |
| IntakeWizard.FormatPolicyNumberSpec | www/app/requests/new/page.tsx:565-573 | the formatted number holds only digits and hyphens; it keeps the input's digits in order and adds at most two hyphens; a hyphen-free value longer than 3 gets its hyphen at index 3 after its first three characters |
| IntakeWizard.FormatPolicyNumberIdempotent | www/app/requests/new/page.tsx:565-573 | formatting an already formatted number changes nothing |
| IntakeWizard.FormatPolicyNumberExample | www/app/requests/new/page.tsx:565-573 | 123456789 is shown as 123-456-789 |
| IntakeWizard.InsertHyphen | www/app/requests/new/page.tsx:569-572 | `slice(0, k) + "-" + slice(k)` is one character longer, with the hyphen at k and both halves kept |
| IntakeWizard.Truncate | www/app/requests/new/page.tsx:776 | `slice(0, n)` yields a prefix of at most n characters, the whole text when short enough, exactly n otherwise |
| IntakeWizard.TruncationKeepsStep3Validity | www/app/requests/new/page.tsx:776 | cutting the text to 500 characters never changes whether the contact step passes |
| IntakeWizard.EmptyFormBlocksEveryStep | www/app/requests/new/page.tsx:86-111 | the mounted draft is well formed and passes no step |
| IntakeWizard.SubmittableDraftExists | www/app/requests/new/page.tsx:116-159 | for every chosen type some well-formed draft passes all three steps, so no type is a dead end |
| IntakeWizard.TypeChangeReopensStep1 | www/app/requests/new/page.tsx:245-253 | after a type change step 0 fails until a tag is picked again |
| IntakeWizard.PolicyUnknownWaivesEvidence | www/app/requests/new/page.tsx:147-155 | with the policy-unknown box checked, step 1 depends on the insurer fields alone |
| IntakeWizard.PolicyRuleOnlyForIndemnityAndTraffic | www/app/requests/new/page.tsx:147-155 | for types other than 실손 and 교통사고 the policy evidence never affects step 1 |
| IntakeWizard.Wizard.constructor | www/app/requests/new/page.tsx:85-111 | the wizard starts on step 0 with the empty draft |
| IntakeWizard.Wizard.Next | www/app/requests/new/page.tsx:161-167 | while enabled, next moves from step 0 or 1 to the following step and from step 2 submits the draft; the draft is never changed |
| IntakeWizard.Wizard.Back | www/app/requests/new/page.tsx:169-175 | back moves from step 1 or 2 to the previous step and from step 0 leaves the wizard; the draft is never changed |
| IntakeWizard.Wizard.SetInsuranceType | www/app/requests/new/page.tsx:245-253 | a new type empties the tags and leaves every other field, keeping the draft invariant |
| IntakeWizard.Wizard.ToggleTreatmentType | www/app/requests/new/page.tsx:209-218 | an offered tag is toggled; the tags stay duplicate-free and within the type's options |
| IntakeWizard.Wizard.SetHospitalName | www/app/requests/new/page.tsx:303-309 | only the hospital name changes |
| IntakeWizard.Wizard.SetRegion | www/app/requests/new/page.tsx:323-329 | only the region changes |
| IntakeWizard.Wizard.SetClaimStatus | www/app/requests/new/page.tsx:344-353 | only the claim status changes, to one of the five offered statuses |
| IntakeWizard.Wizard.SetPersonType | www/app/requests/new/page.tsx:374-383 | only the person type changes, to one of the two offered roles |
| IntakeWizard.Wizard.SetInsuranceAmount | www/app/requests/new/page.tsx:422-434 | only the amount changes; the input is unavailable while the amount-unknown box is checked |
| IntakeWizard.Wizard.SetAmountUnknown | www/app/requests/new/page.tsx:445-453 | checking the box empties the amount; unchecking keeps it |
| IntakeWizard.Wizard.SetInsuranceCategory | www/app/requests/new/page.tsx:469-477 | a new category empties the insurer selection |
| IntakeWizard.Wizard.ToggleInsuranceCompany | www/app/requests/new/page.tsx:220-229 | an offered insurer is toggled; the selection stays duplicate-free and within the category's insurers |
| IntakeWizard.Wizard.SetPolicyCompany | www/app/requests/new/page.tsx:537-545 | only the policy insurer changes; the select is unavailable while the policy is marked unknown |
| IntakeWizard.Wizard.SetPolicyNumber | www/app/requests/new/page.tsx:565-580 | the policy number becomes the formatted input and nothing else changes |
| IntakeWizard.Wizard.AddPolicyFile | www/app/requests/new/page.tsx:177-193 | a file is accepted iff it is within 10 MiB and fewer than three files are staged; a refused file reports its reason and leaves the whole draft unchanged; an accepted one is appended |
| IntakeWizard.Wizard.RemovePolicyFile | www/app/requests/new/page.tsx:618-625 | the entry at that index is removed and the rest keep their order |
| IntakeWizard.Wizard.SetPolicyUnknown | www/app/requests/new/page.tsx:689-699 | checking the box empties documents, insurer and number; unchecking keeps them |
| IntakeWizard.Wizard.SetName | www/app/requests/new/page.tsx:733-737 | only the name changes |
| IntakeWizard.Wizard.SetContact | www/app/requests/new/page.tsx:752-756 | only the contact changes |
| IntakeWizard.Wizard.SetConsultationContent | www/app/requests/new/page.tsx:770-778 | the text is stored cut to its first 500 characters |
| IntakeWizard.Wizard.SetAvailableTime | www/app/requests/new/page.tsx:797-803 | only the available time changes |
| Seqs.Toggle | www/app/requests/new/page.tsx:209-218 | the toggle removes a present element (every other element stays, in order, and the list gets shorter) or appends an absent one |
| Seqs.ToggleNoDup | www/app/requests/new/page.tsx:209-229 | toggling keeps a duplicate-free selection duplicate-free |
| Seqs.ToggleTwiceAbsent | www/app/cases/page.tsx:150-156 | toggling an absent element twice gives back exactly the original list |
| Seqs.ToggleTwicePresent | www/app/cases/page.tsx:150-156 | toggling a present element twice gives back the same elements, with that element moved to the end |
| Seqs.RemoveAt | www/app/requests/new/page.tsx:618-625 | `splice(i, 1)` on a copy drops exactly the entry at i and shifts the rest; an index past the end removes nothing |
| Seqs.FilterMembers | www/app/requests/page.tsx:42-45 | `filter` keeps exactly the elements satisfying the predicate |
| Seqs.FilterIsSubsequence | www/app/community/page.tsx:46-49 | `filter` keeps the order of the list |
| Strings.AsciiLower | www/app/cases/page.tsx:142-143 | lower-casing keeps the length and maps each ASCII capital to its small letter |
| Strings.NatToStringRoundTrip | www/contexts/chat-context.tsx:111-113 | the decimal text of a count reads back as that count |
| Strings.NatToStringInjective | www/contexts/chat-context.tsx:111-113 | different counts render as different texts |
| Consult.AutomaticPathNeverSeesTrafficAccident | www/app/consult/page.tsx:106-150 | a question on the automatic path never contains 교통사고, since 교통사고 contains 사고; so the suggestion fires exactly for 보험 or 실손 |
| Consult.ShortPlainQuestionIsAnswered | www/app/consult/page.tsx:106 | a question of at most 50 characters without 사고 or 의뢰 is not escalated |
| Consult.ImageTypesAreImages | www/app/consult/page.tsx:204 | the three whitelisted image types are classified as images |
| Consult.PdfTypeIsPdf | www/app/consult/page.tsx:204 | application/pdf is classified as a PDF |
| Consult.WordTypeIsDocument | www/app/consult/page.tsx:204 | application/msword is classified as a document |
| Consult.DocxTypeIsDocument | www/app/consult/page.tsx:188-204 | the .docx type, the last of the whitelist, is classified as a document: it does not start with image/ and contains no "pdf" |
| Consult.Admit | www/app/consult/page.tsx:165-199 | an empty selection is ignored; a selection is accepted iff the user is logged in, both limits hold, every type is whitelisted and the dialog is confirmed; it is refused for the session limit exactly when logged in and over 5 |
| Consult.OneBadFileRefusesAll | www/app/consult/page.tsx:188-194 | within the limits, one file outside the whitelist refuses the whole selection |
| Consult.NextProgress | www/app/consult/page.tsx:227-235 | a tick adds exactly 20 while that stays within 100 and otherwise lands on 100; it never goes past 100 and never lowers a valid progress |
| Consult.ProgressStaysBounded | www/app/consult/page.tsx:227-235 | any number of ticks keeps progress between its start and 100 |
| Consult.FiveTicksComplete | www/app/consult/page.tsx:227-235 | five or more ticks take a fresh upload to 100 |
| Consult.StagedEntriesFresh | www/app/consult/page.tsx:202-211 | each entry of a selection carries its file's id, name and size, is an image iff the MIME type starts with image/, and starts at progress 0 without URL or thumbnail |
| Consult.SelectionSplitsByKind | www/app/consult/page.tsx:213-223 | the entries that go to the tray at once and those that wait for their thumbnail partition the selection: together they are all of its entries, each exactly once, and the waiting ones are exactly the images |
| Consult.SplitSelection | www/app/consult/page.tsx:201-223 | walking the selection yields, in selection order, the non-image entries for the tray and the image entries that wait for their reader |
| Consult.WithoutIdFacts | www/app/consult/page.tsx:297-300 | removing by id drops every entry with that id and keeps the others in order |
| Consult.ConnectRemovesPlaceholders | www/app/consult/page.tsx:120-132 | after the adjuster connects no typing placeholder remains; every other message stays in order |
| Consult.ConsultSession.constructor | www/app/consult/page.tsx:31-57 | the screen opens on the greeting and the two sample adjuster requests, with an empty tray |
| Consult.ConsultSession.SetInput | www/app/consult/page.tsx:644 | only the input text changes |
| Consult.ConsultSession.Send | www/app/consult/page.tsx:82-103 | a blank input or a missing login adds nothing; otherwise the question is appended as the user's message and the field is cleared |
| Consult.ConsultSession.Reply | www/app/consult/page.tsx:104-160 | an escalated question shows the adjuster-checking placeholder; any other gets the automatic answer, plus the suggestion iff it mentions 보험 or 실손 |
| Consult.ConsultSession.SuggestPolicy | www/app/consult/page.tsx:138-150 | the policy-document suggestion is appended |
| Consult.ConsultSession.ConnectExpert | www/app/consult/page.tsx:120-132 | the placeholders are removed before the adjuster greeting is appended, and the badge turns on |
| Consult.ConsultSession.SelectFiles | www/app/consult/page.tsx:165-224 | the outcome is that of the admission guards; a refused selection changes nothing; an accepted one appends its non-image entries at once, in selection order, and returns its image entries as waiting for their thumbnails |
| Consult.ConsultSession.ImageLoaded | www/app/consult/page.tsx:216-219 | when an image's reader finishes, the entry is appended with the data URL as its thumbnail; nothing else changes |
| Consult.ConsultSession.TickProgress | www/app/consult/page.tsx:227-235 | only the entry with that id advances, and progress stays at most 100 |
| Consult.ConsultSession.CompleteUpload | www/app/consult/page.tsx:237-260 | the entry becomes the completed file, the session count rises by one, and the file is posted as the user's message |
| Consult.ConsultSession.AcknowledgeUpload | www/app/consult/page.tsx:268-278 | the adjuster-checking acknowledgement is appended |
| Consult.ConsultSession.DropUploaded | www/app/consult/page.tsx:263-265 | the finished entry leaves the tray |
| Consult.ConsultSession.RemoveFile | www/app/consult/page.tsx:297-300 | every entry with that id goes, and the session count drops by one but not below zero |
| Cases.FilterSound | www/app/cases/page.tsx:122-148 | every result is listed and passes each active criterion: the chosen type, the five-year window, a shared keyword, the lower-cased query in the lower-cased text |
| Cases.FilterComplete | www/app/cases/page.tsx:122-148 | every listed decision passing each active criterion is a result |
| Cases.FilterKeepsOrder | www/app/cases/page.tsx:122-148 | the results keep the list's order |
| Cases.NoCriteriaKeepsAll | www/app/cases/page.tsx:122-148 | with every control at "전체", nothing selected and no query, the whole list is shown |
| Cases.InitialScreenShowsAll | www/app/cases/page.tsx:115-148 | up to 2029 the screen opens on all five sample decisions |
| Cases.IndemnityTypeExample | www/app/cases/page.tsx:27-148 | the 실손의료 type shows exactly the third and fourth decisions |
| Cases.TypeOnlyMatches | www/app/cases/page.tsx:124 | with only a type chosen, a decision matches iff it has that type |
| Cases.PermanentDisabilityTypeIsEmpty | www/app/cases/page.tsx:27-148 | the 후유장해 type shows the empty state |
| Cases.ToggleKeywordTwiceSameResults | www/app/cases/page.tsx:150-156 | toggling a keyword twice gives back the same results |
| Cases.ToggleFaq | www/app/cases/page.tsx:376-378 | clicking the open entry closes every entry; clicking any other opens only that one |
| Cases.ToggleFaqTwice | www/app/cases/page.tsx:376-378 | two clicks on the open entry leave it open; two clicks from any other state close everything |
| Cases.TypeColorInjective | www/app/cases/page.tsx:181-191 | different case types get different badge variants |
| ChatStore.ElapsedSince | www/contexts/chat-context.tsx:103-114 | under a minute (a future timestamp included) is "just now"; otherwise the bucket holds the whole minutes (1..59), hours (1..23) or days of the difference, by floor division |
| ChatStore.TimeAgoOfNow | www/contexts/chat-context.tsx:103-110 | a timestamp of the current moment reads 방금 전 |
| ChatStore.LabelInjective | www/contexts/chat-context.tsx:110-113 | different buckets never share a label |
| ChatStore.NewChatIdsDistinct | www/contexts/chat-context.tsx:118 | chats added at different clock readings get different ids |
| ChatStore.NewChatLabelAgreesWithRefresh | www/contexts/chat-context.tsx:117-139 | a new chat's 방금 전 label is what the minute refresh computes for it at the moment it is made |
| ChatStore.AddChatThenFind | www/contexts/chat-context.tsx:117-165 | after a chat is added the lookup finds it by its id, and every other id finds what it found before |
| ChatStore.FindChat | www/contexts/chat-context.tsx:163-165 | the lookup finds nothing exactly when no chat has the id, and otherwise the first chat with it |
| ChatStore.UnknownIdChangesNothing | www/contexts/chat-context.tsx:146-181 | adding a message or updating the last line for an unknown id changes nothing |
| ChatStore.AddMessageThenFind | www/contexts/chat-context.tsx:146-165 | after a message is added, the lookup finds the same chat with the message appended and its last line set |
| ChatStore.InitialLabelsAgreeWithRefresh | www/contexts/chat-context.tsx:37-77 | the sample labels (5분 전, 1시간 전, 3시간 전) are what the refresh computes for them when they are made |
| ChatStore.RefreshShowsChatAge | www/contexts/chat-context.tsx:168-191 | the refresh labels a chat by its creation time, so a chat older than a minute loses the 방금 전 its last-line update gave it |
| ChatStore.ChatList.constructor | www/contexts/chat-context.tsx:80-93 | without saved chats the store starts with the three samples |
| ChatStore.ChatList.AddChat | www/contexts/chat-context.tsx:117-143 | the new chat is put first, the others follow unchanged and in order; its id comes from the first clock reading and its timestamps from the second, and the id is returned |
| ChatStore.ChatList.GetChat | www/contexts/chat-context.tsx:163-165 | the lookup returns a stored chat with that id, and nothing exactly when no stored chat has it |
| ChatStore.ChatList.AddMessage | www/contexts/chat-context.tsx:146-160 | every chat with the id gets the message appended and its last line set; other chats and the length are unchanged |
| ChatStore.ChatList.UpdateLastMessage | www/contexts/chat-context.tsx:168-181 | only the last line and the label (방금 전) of matching chats change; messages are untouched |
| ChatStore.ChatList.RefreshTimeAgo | www/contexts/chat-context.tsx:184-195 | every label is recomputed from the chat's creation time; the order and every other field are unchanged |
| BottomNav.ExactPathIsActive | www/components/layout/bottom-nav.tsx:31 | a tab is active on its own path |
| BottomNav.HomeOnlyOnRoot | www/components/layout/bottom-nav.tsx:31-32 | the home tab is active iff the path is exactly "/" |
| BottomNav.NestedPathIsActive | www/components/layout/bottom-nav.tsx:32 | another tab stays active below its path, e.g. /requests/1 |
| BottomNav.NoPathNoTab | www/components/layout/bottom-nav.tsx:31-32 | without a path no tab is active |
| BottomNav.HrefsUnrelated | www/components/layout/bottom-nav.tsx:15-21 | no non-home href is a prefix of another tab's href |
| BottomNav.AtMostOneActive | www/components/layout/bottom-nav.tsx:15-32 | for any path at most one of the five tabs is active |
| RequestsList.AllTabShowsAll | www/app/requests/page.tsx:42-44 | 전체 shows every request in order |
| RequestsList.StatusTabShowsExactly | www/app/requests/page.tsx:45 | another tab shows exactly the requests with that status, in order |
| RequestsList.OnHoldTabIsEmpty | www/app/requests/page.tsx:12-45 | the 보류 tab shows the empty state |
| RequestsList.InProgressTabExample | www/app/requests/page.tsx:12-45 | the 진행중 tab shows the first two samples |
| RequestsList.StatusVariantCases | www/app/requests/page.tsx:95-101 | 완료 gets the success badge, 보류 the warning badge, every other status the default, and only those |
| RequestsList.SampleBadges | www/app/requests/page.tsx:94-112 | the two open samples show progress bars with default badges; the completed one has no bar and a success badge |
| Community.AllTabShowsAll | www/app/community/page.tsx:46-48 | 전체 shows every post in order |
| Community.CategoryTabShowsExactly | www/app/community/page.tsx:49 | another tab shows exactly the posts of that category |
| Community.FilterKeepsOrder | www/app/community/page.tsx:46-49 | for every tab, the posts shown keep the list's order |
| Community.FailureTabIsEmpty | www/app/community/page.tsx:13-49 | the 실패사례 tab shows the empty state |
| Onboarding.PressNextStaysInRange | www/app/onboarding/page.tsx:41-54 | pressing next never reaches a slide past the fourth |
| Onboarding.PressesToComplete | www/app/onboarding/page.tsx:48-54 | from slide k the carousel completes on the (4 − k)-th press and not before |
| Onboarding.SkipShownUntilLastSlide | www/app/onboarding/page.tsx:61 | skip is drawn exactly where next does not complete |
| Onboarding.Carousel.constructor | www/app/onboarding/page.tsx:41 | the carousel starts on the first slide |
| Onboarding.Carousel.Complete | www/app/onboarding/page.tsx:43-46 | completion stores has_seen_onboarding = "true" and goes to "/" |
| Onboarding.Carousel.Skip | www/app/onboarding/page.tsx:61-67 | skip, drawn before the last slide, completes |
| Onboarding.Carousel.Next | www/app/onboarding/page.tsx:48-54 | next advances the slide and stores nothing, or completes on the last slide |

## Left out

- Timers: when `setTimeout` and `setInterval` callbacks fire, and in what order, is not modelled. Each callback is a separate method.
- The per-session limit in flight: `sessionUploadCount` rises only when an upload completes, so several selections admitted before any completes can together pass 5. The model checks each admission against the current count and does not model the interleaving.
- Consult.ConsultSession.SelectFiles: the non-image entries of one selection reach the tray in one update, where the source queues one updater per file; React applies them in order, so the resulting tray is the same. The reader callbacks of the image entries are a separate method, `ImageLoaded`, and when they fire relative to each other and to the progress timers is not modelled.
- Consult.ConsultSession.ImageLoaded: the source writes the thumbnail into the object that the upload timer later copies into the completed file, so the completed image file carries it whenever the reader finished first. The model passes entries by value and does not capture that aliasing: `CompleteUpload` completes the entry its caller passes, with or without a thumbnail.
- `URL.createObjectURL`, `Date.now()`, `Math.random()`, `toLocaleTimeString`: their results are parameters (url, now, ids, the clock-time text). The clock readings inside one handler share one parameter `now`. The exception is `addChat`, whose id reading and timestamp reading are separate parameters. Readings merged this way differ by milliseconds, and no modelled label or id depends on that difference.
- `localStorage`, the `auth_token` presence check and the JSON loading of saved chats: the login state is a boolean parameter, and the store starts from the samples.
- `alert`, `confirm`, `window.open`, router navigation: dialog answers are parameters, and navigation is a result value or recorded state.
- The upload menu toggle, scrolling to the newest message, the file-size text `(size/1024).toFixed(1)` (floating point), the character counter, and all styling and rendering.
- The welcome and sample texts of the other screens and the FAQ contents: only their count and the structures the logic reads are modelled.
- Strings.AsciiLower: `toLowerCase` is modelled on ASCII letters only, and every other character is left unchanged. JavaScript also lower-cases non-ASCII capitals (Latin-1, Greek, Cyrillic), which the model does not. The searched titles and summaries are Korean and ASCII, and Hangul has no case.
- Strings.IsBlank: `trim` is modelled on the ECMAScript white-space and line-terminator characters, without the surrogate-pair subtleties of UTF-16.
- String lengths are counted in characters, while JavaScript counts UTF-16 code units. The 50-character escalation and the 500-character cut agree for all Korean and ASCII text.
- The login, splash, root-redirect, home, profile, material-request, chat-list and chat-room screens: they read or set tokens, redirect after timers or render samples, and are not part of this model.
