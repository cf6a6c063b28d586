# QubitGyan student client — a Dafny model

This project models the client-side logic of the QubitGyan student web
application: the knowledge-tree and course helpers that shape what the
backend returns (`src/lib/learning.ts`, `src/lib/courses.ts`,
`src/lib/student-api.ts`, `src/lib/app-utils.ts`), and the small state
machines behind the student screens (quiz taking, quiz history, the
notification bell, the lazily loaded sidebar tree, the resource player, the
dialog provider, the session and route guard, the admission form and the
sidebar).

Every remote call is a parameter: a `Response<T>` that is either `Ok(data)`
or `Failed` (a rejected promise). A list endpoint's untyped JSON body is a
`Data<T>`: `Null`, a primitive recorded only by its truthiness, a bare array,
or an object with or without a `results` key. User answers to confirmation
dialogs, storage contents and the outcomes of helpers whose code is not part
of this model (`getDescendantStudyNodes`, `getProgressSummary`,
`getQuizAttempts`) are parameters too. Navigation is recorded as the list of
paths pushed to the router; shown dialogs as the list of their options.

Modules, one per source file, plus four shared ones:

- `Common` — `Option`, `Response`, the `Data` envelope and JavaScript truthiness.
- `Seqs` — `Array.prototype.filter` and the stable sort by `order || 0`, with stability and permutation proved.
- `Text` — decimal `toString`, `padStart(2, '0')`, `join(' | ')`, each with its reader and a round-trip lemma.
- `Types` — the records of `src/types/index.ts`.
- `Learning`, `Courses`, `StudentApi`, `AppUtils` — the library files.
- `Dialogs`, `Notifications`, `Quiz`, `History`, `SidebarTree`, `Content`, `Auth`, `Admission`, `Nav` — the components and the auth context.

Where the source keeps state that event handlers change (React state, the
module-level cache of `courses.ts`), the model is a class whose fields are
that state and whose methods are the handlers. An `async` handler that
awaits a request and whose state can be seen while it waits is split at the
await: the part before the request (`Begin…`, `HandleToggle`), the part that
handles the reply (`Finish…`, `FinishLoad`), and, where the reply handler
awaits an error alert, the close of that alert (`Close…`). The remaining
handlers (`initAuth`, `login`, the quiz and history loads) are single steps;
"## Left out" says what that hides. The pure helpers are functions whose
contracts state their result in every case, each related by lemmas to an
independent description, to its inverse, or to worked examples.

## Model

| member | source | states |
|---|---|---|
| Common.OrElse | src/components/providers/ui-provider.tsx:115 | `text \|\| fallback` on an optional string: the text when it is present and non-empty, the fallback when it is missing or empty. |
| Seqs.Filter | src/lib/learning.ts:81 | The result is no longer than the input, holds only elements of the input that pass the test, holds every input element that passes, and is a sub-multiset of the input. |
| Seqs.FilterAppend | src/lib/learning.ts:92 | Filtering a concatenation is concatenating the filtered parts, so the filter keeps input order. |
| Seqs.Insert | src/lib/learning.ts:93 | Inserting adds exactly the one element and keeps a sorted list sorted. |
| Seqs.SortByKey | src/lib/learning.ts:93 | The sort by `order || 0` returns a permutation of its input, of the same length, sorted ascending by key. |
| Seqs.InsertBehindHead | src/lib/learning.ts:93 | An element with a larger key than the head goes behind it, adding only itself and keeping a sorted list sorted. |
| Seqs.WithKeyCons | src/lib/learning.ts:93 | The elements with a given key of a list with a head are the head, if it has that key, then those of the rest. |
| Seqs.WithKeyBehindHead | src/lib/learning.ts:93 | Putting an element behind a head with a smaller key keeps it after every element of its own key. |
| Seqs.InsertWithKey | src/lib/learning.ts:93 | Inserting an element never reorders the elements that share a key with it or with each other. |
| Seqs.SortByKeyStable | src/lib/learning.ts:93 | Stability: for every key, the elements with that key appear in the sorted list in their input order. |
| Seqs.SortByKeySorted | src/lib/learning.ts:115 | Sorting an already sorted list changes nothing. |
| Text.NatToString | src/components/student/quiz-viewer.tsx:113 | The decimal form of a non-negative integer is non-empty, all digits, one digit exactly below 10, and has no leading zero unless it is "0". |
| Text.NatToStringRoundTrip | src/components/student/quiz-viewer.tsx:113 | Reading the decimal form back gives the number. |
| Text.Pad2 | src/components/student/quiz-viewer.tsx:113 | The zero-padded form has at least two digits, exactly two below 100; from 10 up it is the plain decimal form, below 10 it is "0" followed by the one digit. |
| Text.Pad2RoundTrip | src/components/student/quiz-viewer.tsx:113 | Padding only adds a leading zero: the padded form reads back as the number. |
| Text.FindBar | src/app/admission/page.tsx:69 | The first position holding `" \| "`: the separator is there, at no earlier position, and at no position at all when none is found. |
| Text.ShiftWindows | src/app/admission/page.tsx:69 | A separator after the first position of a text is a separator of its tail one position earlier. |
| Text.FindBarNone | src/app/admission/page.tsx:69 | A text without `'\|'` holds no separator. |
| Text.FindBarAfter | src/app/admission/page.tsx:69 | The first separator after a bar-free segment sits right after that segment. |
| Text.SplitJoinRoundTrip | src/app/admission/page.tsx:63-69 | Joining bar-free segments with `" \| "` and cutting at every separator gives back the segments. |
| Learning.SampleChildrenKeyed | src/lib/learning.ts:10-34 | Every sample subject and unit lists nodes whose parent is its table key, already sorted by `order`. |
| Learning.SampleResourcesKeyed | src/lib/learning.ts:36-67 | Every sample resource belongs to the node it is filed under, and each list is sorted by `order`. |
| Learning.ExtractListShapes | src/lib/learning.ts:69-75 | A bare array and an object whose `results` is an array unwrap to that array; every other shape, including a non-array `results`, unwraps to the empty list. |
| Learning.GetDomains | src/lib/learning.ts:77-86 | The result is never empty and holds only roots (no parent, or of kind Domain); when the reply has roots it is exactly the reply filtered to its roots, in reply order, otherwise (no roots or failure) the sample domains. |
| Learning.GetChildren | src/lib/learning.ts:88-100 | Every returned node has the requested parent and the list is sorted by `order \|\| 0`; on a non-empty filtered reply it is a stable permutation of the reply's children, otherwise the sample subjects, else units, else nothing. |
| Learning.FindById | src/lib/learning.ts:108 | Returns the first node with the id, and nothing exactly when no node has it. |
| Learning.GetNode | src/lib/learning.ts:102-110 | A successful reply is returned as is; after a failure the result is a sample node with that id, or null when no sample node has it. |
| Learning.GetResources | src/lib/learning.ts:112-120 | The result is sorted by `order \|\| 0` and is a stable permutation of a non-empty reply; an empty reply or a failure gives the node's sample resources or nothing. |
| Courses.ExtractList | src/lib/courses.ts:5-11 | A bare array as is; for an object with a `results` key, that value raw, whatever it is; otherwise empty. |
| Courses.CourseCallsFailSoft | src/lib/courses.ts:64-92 | `getCourses` and `getMyCourses` fail to the empty list and `enrollInCourse` to null; a successful enrolment returns the reply. |
| Courses.NodeIds | src/lib/courses.ts:23 | The fetched node list is the root followed by each descendant's id, in order. |
| Courses.ResourceLists | src/lib/courses.ts:26 | One resource list per node id, in node order, each the resources fetched for that node. |
| Courses.IdsOf | src/lib/courses.ts:30 | The ids of the resources, one per resource, in order. |
| Courses.Dedup | src/lib/courses.ts:27-33 | Filling a `Set` and reading it back gives distinct ids, exactly the ids of the input, no more of them than input entries. |
| Courses.DedupKeepsFirstSeenOrder | src/lib/courses.ts:27-33 | The distinct ids of every prefix of the input are a prefix of the result: each id stays where it was first seen. |
| Courses.DedupSnoc | src/lib/courses.ts:30 | Adding one id appends it unless it was already seen. |
| Courses.FlatIdsStep | src/lib/courses.ts:29-31 | The inner loop's next step appends the next id of the current list to the ids seen so far. |
| Courses.FlatIdsNext | src/lib/courses.ts:29-31 | Finishing one list moves the outer loop on by that list's ids. |
| Courses.CourseResourceIdsUnion | src/lib/courses.ts:22-33 | The course's ids are distinct, and an id is among them exactly when some resource of the root or of a descendant carries it. |
| Courses.FlatIdsMembers | src/lib/courses.ts:29-31 | An id is in the flattened list exactly when some list holds a resource with that id. |
| Courses.CollectIds | src/lib/courses.ts:27-33 | The nested loops over the per-node lists return the distinct ids in first-seen order. |
| Courses.ResourceIdsCache.constructor | src/lib/courses.ts:14 | The module-level cache starts empty, so every cached list trivially holds distinct ids. |
| Courses.ResourceIdsCache.GetCourseResourceIds | src/lib/courses.ts:16-41 | The returned ids are distinct, also on a cache hit, and every cached list stays distinct. A falsy root returns nothing and leaves the cache and the network alone; a cached root returns the stored list with no request; otherwise the computed union (or nothing after a failed descendant lookup) is returned and cached, after one request per node plus the descendant lookup. |
| Courses.RoundPercent | src/lib/courses.ts:55 | Zero for no resources; otherwise the nearest integer to 100·completed/total, halves rounded up, and at most 100 when completed ≤ total. |
| Courses.RoundPercentBounds | src/lib/courses.ts:55 | The rounded percent is within half a unit of 100·completed/total, and at most 100 when completed ≤ total. |
| Courses.RoundPercentExamples | src/lib/courses.ts:55 | 1/3 is 33, 2/3 is 67, 1/2 is 50, 0/0 is 0, 3/3 is 100. |
| Courses.CountIn | src/lib/courses.ts:53 | The completed count never exceeds the number of ids. |
| Courses.IdSet | src/lib/courses.ts:53 | The set holds exactly the ids of the list. |
| Courses.IdSetCons | src/lib/courses.ts:53 | The set of a list with one more id in front gains that id. |
| Courses.NoDupTail | src/lib/courses.ts:27-33 | Removing the first of distinct ids leaves distinct ids without it. |
| Courses.CountInCons | src/lib/courses.ts:53 | The count of a list with one more id in front grows by one exactly when that id is completed. |
| Courses.CardAddFresh | src/lib/courses.ts:53 | Adding a new element to a set grows it by one. |
| Courses.CountInIsIntersection | src/lib/courses.ts:53 | On distinct ids, the completed count is the number of the course's ids that are in the completed set. |
| Courses.ProgressOf | src/lib/courses.ts:52-57 | `total` is the number of ids, `completed ≤ total`, the percent is `RoundPercent(completed, total)` (so at most 100, and 0 for an empty course), and on distinct ids `completed` is the number of course ids in the completed set. |
| Courses.ResourceIdsCache.GetCourseProgress | src/lib/courses.ts:43-62 | A failed summary gives `{0, 0, 0, null}`; otherwise the progress of the ids `getCourseResourceIds` returns for `root_node \|\| null`, against the completed set or the empty set, with `completed` the size of the intersection of the two; the cache changes as that call changes it and keeps its lists distinct. |
| Courses.NoSampleResourcesAt | src/lib/learning.ts:116 | Nodes other than 301 and 303 have no sample resources to fall back to. |
| Courses.GetResourcesSortedReply | src/lib/learning.ts:115-116 | A non-empty reply that is already in order comes back unchanged. |
| Courses.ScenarioNode2 | src/lib/courses.ts:26 | In the example course the subject itself has no resources. |
| Courses.ScenarioNode3 | src/lib/courses.ts:26 | In the example course the topic's resources are 10 then 11. |
| Courses.ScenarioLists | src/lib/courses.ts:26 | The example course fetches an empty list and then resources 10 and 11. |
| Courses.ScenarioFlat | src/lib/courses.ts:29-31 | The example course's ids, in order, are 10 and 11. |
| Courses.ScenarioDedup | src/lib/courses.ts:33 | Distinct ids stay as they are. |
| Courses.ScenarioIds | src/lib/courses.ts:22-33 | The example course's resource ids are 10 and 11. |
| Courses.ScenarioProgress | src/lib/courses.ts:43-57 | Ids 10 and 11 with 10 completed give 2 total, 1 completed, 50 percent. |
| Courses.HalfDoneScenario | src/lib/courses.ts:43-57 | A subject whose one topic has resources 10 and 11, with 10 completed, is at 2 total, 1 completed, 50 percent. |
| StudentApi.ExtractList | src/lib/student-api.ts:64-70 | A bare array as is; an object with `results` gives that value when truthy and the empty list otherwise; every other shape gives the empty list. |
| StudentApi.ListEndpoint | src/lib/student-api.ts:92-111 | The list endpoints unwrap a successful body with this copy and pass a failure on. |
| StudentApi.ExtractListCopiesAgree | src/lib/student-api.ts:64-70 | The three copies agree on a bare array and on an object whose `results` is an array. |
| StudentApi.ExtractListArraysAgree | src/lib/courses.ts:5-11 | Whenever the courses or student-api copy yields an array, it is the array the learning copy yields. |
| StudentApi.ExtractListCopiesDiverge | src/lib/courses.ts:7-9 | A null `results` comes back raw (null) from the courses copy but empty from the others; a truthy non-array `results` comes back raw from the courses and student-api copies and empty from the learning copy. |
| StudentApi.GetUnreadNotificationCount | src/lib/student-api.ts:101-104 | The reply's `unread_count`, 0 when it is missing or zero; a failed call is passed on. |
| StudentApi.OrNull | src/lib/student-api.ts:76-90 | `getMyProfile` and `getGamification` return the body on success and null exactly on failure. |
| AppUtils.Clamp | src/lib/app-utils.ts:12-14 | With `min ≤ max` the result lies in the range; a value in range is unchanged; with `min > max` the result is `max`. |
| AppUtils.ClampIdempotent | src/lib/app-utils.ts:13 | Clamping twice is clamping once. |
| AppUtils.ClampMonotone | src/lib/app-utils.ts:13 | A larger value never clamps to a smaller result. |
| Dialogs.IconOf | src/components/providers/ui-provider.tsx:62-69 | The triangle exactly for error and warning, the check exactly for success, the info icon otherwise. |
| Dialogs.IconColourOf | src/components/providers/ui-provider.tsx:62-69 | Red exactly for error, green exactly for success, amber exactly for warning, blue exactly for info or no variant. |
| Dialogs.StripOf | src/components/providers/ui-provider.tsx:87-91 | Red exactly for error, green exactly for success, blue for everything else. |
| Dialogs.MainButtonOf | src/components/providers/ui-provider.tsx:120-125 | Red exactly for error, green exactly for success, slate for everything else. |
| Dialogs.WarningLooks | src/components/providers/ui-provider.tsx:62-91 | A warning shares the error's triangle but in amber, over the blue strip, with the slate button. |
| Dialogs.CancelLabel | src/components/providers/ui-provider.tsx:115 | The supplied cancel text when it is non-empty, "Cancel" when it is missing or empty. |
| Dialogs.ConfirmLabel | src/components/providers/ui-provider.tsx:127 | The supplied confirm text when it is non-empty, "Okay" when it is missing or empty. |
| Dialogs.DefaultLabels | src/components/providers/ui-provider.tsx:115-127 | Missing labels read "Cancel" and "Okay", and so do empty ones. |
| Dialogs.UiProvider.constructor | src/components/providers/ui-provider.tsx:28-33 | The slot starts closed, as an alert, with empty options and no resolver. |
| Dialogs.UiProvider.ShowAlert | src/components/providers/ui-provider.tsx:35-42 | Opens an alert with the given options and makes the caller the one a close will settle. |
| Dialogs.UiProvider.ShowConfirm | src/components/providers/ui-provider.tsx:44-51 | Opens a confirm with the given options and makes the caller the one a close will settle. |
| Dialogs.UiProvider.HandleClose | src/components/providers/ui-provider.tsx:53-59 | Closes the dialog and settles the caller in the slot with the given result; nothing else in the slot changes. |
| Dialogs.UiProvider.BackdropClick | src/components/providers/ui-provider.tsx:81 | Closes an alert with `true`; does nothing to a confirm. |
| Dialogs.UiProvider.CancelClick | src/components/providers/ui-provider.tsx:110-117 | Only in a confirm: closes and settles with `false`. |
| Dialogs.UiProvider.MainClick | src/components/providers/ui-provider.tsx:118-128 | Closes and settles with `true`. |
| Dialogs.OverwrittenCallerNeverSettled | src/components/providers/ui-provider.tsx:35-59 | A second request before the first is closed replaces the first, and the close settles only the second caller. |
| Notifications.UnreadCount | src/components/student/notification-center.tsx:41 | At most the number of items, and zero exactly when every item's id is read. |
| Notifications.UnreadCountAntitone | src/components/student/notification-center.tsx:41 | A larger read set never gives a larger unread count. |
| Notifications.ItemIds | src/components/student/notification-center.tsx:72 | Holds exactly the ids of the current items. |
| Notifications.MarkReadNext | src/components/student/notification-center.tsx:43-50 | The id becomes read, every other id keeps its status, and an already read id gives back the same set. |
| Notifications.MarkReadIdempotent | src/components/student/notification-center.tsx:45 | Marking the same id twice is marking it once. |
| Notifications.MarkReadLowersCount | src/components/student/notification-center.tsx:41-50 | Marking one read never raises the unread count. |
| Notifications.MarkUnreadLowersCount | src/components/student/notification-center.tsx:41-50 | Marking a listed, unread notification read lowers the unread count. |
| Notifications.PluralS | src/components/student/notification-center.tsx:64 | The plural ending is absent exactly for a count of one. |
| Notifications.ConfirmMessage | src/components/student/notification-center.tsx:64 | The message carries the count in decimal after the prefix, and its second-to-last character is the plural `s` exactly when the count is not one. |
| Notifications.ConfirmMessageEnds | src/components/student/notification-center.tsx:64 | The message ends in "notification." for a count of one and in "notifications." otherwise. |
| Notifications.ConfirmMessageReadsBack | src/components/student/notification-center.tsx:64 | The count read back from the message is the unread count. |
| Notifications.NotificationCenter.constructor | src/components/student/notification-center.tsx:22-23 | The menu starts closed with nothing read. |
| Notifications.NotificationCenter.LoadReadState | src/components/student/notification-center.tsx:25-35 | No stored value (or an empty one) leaves the set alone; a value that fails to parse empties it; a parsed list becomes the set of its ids. |
| Notifications.NotificationCenter.Toggle | src/components/student/notification-center.tsx:83 | The bell opens and closes the menu and changes nothing else. |
| Notifications.NotificationCenter.MarkRead | src/components/student/notification-center.tsx:43-50 | The read set becomes `MarkReadNext` of the old one, and the unread count does not grow. |
| Notifications.NotificationCenter.MarkAllRead | src/components/student/notification-center.tsx:52-78 | With nothing unread only the "All caught up" alert shows; a declined confirmation changes nothing; a confirmed one makes the read set exactly the current item ids, so nothing is unread, and shows the "Updated" alert. |
| Quiz.PrevIndex | src/components/student/quiz-viewer.tsx:235 | One back, but never below 0. |
| Quiz.NextIndex | src/components/student/quiz-viewer.tsx:252 | One forward, but never past the last question. |
| Quiz.NavigationStaysInRange | src/components/student/quiz-viewer.tsx:235-252 | From a valid index both moves give a valid index, Previous not after and Next not before the current one. |
| Quiz.LeastExists | src/components/student/quiz-viewer.tsx:86 | Every non-empty set of question ids has a least one. |
| Quiz.LeastKey | src/components/student/quiz-viewer.tsx:86 | The least answered question id. |
| Quiz.FormatAnswers | src/components/student/quiz-viewer.tsx:86-89 | One entry per answered question, each carrying that question's chosen option, every answered question present, in ascending question id. |
| Quiz.FormatAnswersCons | src/components/student/quiz-viewer.tsx:86-89 | The least answered question in front of the formatted rest is the formatted whole. |
| Quiz.ConsFields | src/components/student/quiz-viewer.tsx:86-89 | Putting the least answered question in front keeps every entry's option equal to the recorded answer. |
| Quiz.ConsCovers | src/components/student/quiz-viewer.tsx:86-89 | Putting the least answered question in front leaves no answered question out. |
| Quiz.ConsAscending | src/components/student/quiz-viewer.tsx:86-89 | Putting the least answered question in front of an ascending list keeps it ascending. |
| Quiz.TimeString | src/components/student/quiz-viewer.tsx:111-113 | At least `mm:ss` long with the colon third from the end, exactly five characters below 100 minutes. |
| Quiz.TimeStringReadsBack | src/components/student/quiz-viewer.tsx:111-113 | All characters but the colon are digits; the part before the colon reads back as the whole minutes and the two digits after it as the remaining seconds. |
| Quiz.TimeStringExamples | src/components/student/quiz-viewer.tsx:113 | 0 seconds is "00:00" and 65 seconds is "01:05". |
| Quiz.QuizViewer.constructor | src/components/student/quiz-viewer.tsx:24-32 | The viewer starts loading, in START, at question 0, with no answers (none in the timer either), no time and no result. |
| Quiz.QuizViewer.LoadQuiz | src/components/student/quiz-viewer.tsx:34-50 | A non-empty list installs its first quiz and its time limit in seconds; anything else installs nothing; loading ends either way. |
| Quiz.QuizViewer.StartAssessment | src/components/student/quiz-viewer.tsx:137 | Moves to ACTIVE, where the restarted timer holds the current answers, and changes nothing else. |
| Quiz.QuizViewer.Choose | src/components/student/quiz-viewer.tsx:215 | The answer for the question on screen becomes the chosen option, replacing any earlier one; every other answer stays. |
| Quiz.QuizViewer.Previous | src/components/student/quiz-viewer.tsx:235 | The index moves to `max(0, i - 1)` and stays valid. |
| Quiz.QuizViewer.Next | src/components/student/quiz-viewer.tsx:252 | The index moves to `min(len - 1, i + 1)` and stays valid. |
| Quiz.QuizViewer.JumpTo | src/components/student/quiz-viewer.tsx:278 | The navigator sets the index to the chosen question. |
| Quiz.QuizViewer.Tick | src/components/student/quiz-viewer.tsx:52-67 | A tick takes more than one second left down by one, and one or fewer to zero with an automatic submit; the clock never goes negative. A decrement restarts the timer, which then holds the current answers; the last tick keeps the answers the timer already held. |
| Quiz.QuizViewer.BeginSubmit | src/components/student/quiz-viewer.tsx:69-95 | Without a quiz nothing happens; a manual submit asks and goes ahead only on a yes; an automatic one only tells; going ahead means SUBMITTING; the manual payload is the current answers formatted, the automatic one the answers the timer holds. |
| Quiz.QuizViewer.FinishSubmit | src/components/student/quiz-viewer.tsx:91-101 | Success stores the result, shows RESULTS and calls `onComplete`; failure opens the error alert and leaves the state as it was (SUBMITTING) while the alert is open. |
| Quiz.QuizViewer.CloseSubmitFailedAlert | src/components/student/quiz-viewer.tsx:101 | Closing the error alert returns to ACTIVE, where the restarted timer holds the current answers, and changes nothing else. |
| Quiz.FailedSubmitBackToQuiz | src/components/student/quiz-viewer.tsx:91-101 | A rejected submission stays SUBMITTING while the alert is open and then returns to the quiz with every answer kept. |
| Quiz.TimedOutAttempt | src/components/student/quiz-viewer.tsx:52-103 | The last tick of a running quiz ends, through the automatic submit, in RESULTS with the clock at zero and the answers untouched; the payload sent is the answers the timer held, not the current ones. |
| Quiz.LastSecondChoiceNotSent | src/components/student/quiz-viewer.tsx:52-95 | An answer chosen in the last second is recorded in the viewer but missing from the automatic submission's payload. |
| History.Classify | src/components/student/quiz-history.tsx:95-110 | Correct exactly when marked correct; skipped exactly when neither correct nor with a selected option; wrong otherwise. |
| History.CorrectCount | src/components/student/quiz-history.tsx:47-48 | The correct count never exceeds the number of questions. |
| History.CountVerdict | src/components/student/quiz-history.tsx:95-110 | A verdict count never exceeds the number of questions. |
| History.VerdictsPartition | src/components/student/quiz-history.tsx:47-48 | The correct count is the number of answers drawn as correct, and correct, wrong and skipped add up to the number of questions. |
| History.AnswerText | src/components/student/quiz-history.tsx:112 | The selected option's text when it is non-empty, "Skipped" when it is missing or empty. |
| History.Title | src/components/student/quiz-history.tsx:65 | The quiz title when it is non-empty, "Assessment" when it is missing or empty. |
| History.QuizHistory.constructor | src/components/student/quiz-history.tsx:9-11 | Starts loading, with no attempts and nothing expanded. |
| History.QuizHistory.Load | src/components/student/quiz-history.tsx:13-20 | A successful load shows the attempts and ends loading; a failed one is not caught and leaves the spinner. |
| History.QuizHistory.Toggle | src/components/student/quiz-history.tsx:57 | The expanded attempt collapses; any other becomes the only expanded one. |
| SidebarTree.FolderKinds | src/components/student/sidebar-tree.tsx:55 | Domains, subjects and topics are folders; sections and subtopics never are. |
| SidebarTree.TreeItem.constructor | src/components/student/sidebar-tree.tsx:48-49 | An item starts closed and not loading. |
| SidebarTree.TreeItem.HandleToggle | src/components/student/sidebar-tree.tsx:58-72 | An open item closes without loading; a closed one opens, and starts exactly one load, with the loading flag up, exactly when it has no children. |
| SidebarTree.TreeItem.FinishLoad | src/components/student/sidebar-tree.tsx:71-78 | When the load settles loading is over; a failure closes the item and a success leaves it as it is. |
| SidebarTree.TreeItem.ChildrenShown | src/components/student/sidebar-tree.tsx:130 | Children are drawn only while open, and only those the node carries. |
| SidebarTree.NoLoadWithChildren | src/components/student/sidebar-tree.tsx:69 | An item that has children opens and closes without ever loading. |
| SidebarTree.OpenEmptyItem | src/components/student/sidebar-tree.tsx:58-78 | Opening an item without children loads it once, and it stays open exactly when the load succeeds. |
| SidebarTree.ReopenWhileLoading | src/components/student/sidebar-tree.tsx:58-78 | Clicks are not blocked during a load: closing and reopening before the first load settles starts a second one, and the item ends open only if both succeed. |
| Content.EmbedUrl | src/components/student/content-viewer.tsx:60 | The preview link when it is non-empty, else the external address. |
| Content.EmbedChoice | src/components/student/content-viewer.tsx:90 | The frame is used exactly for non-link resources with a non-empty preview link or external address. |
| Content.ContentViewer.constructor | src/components/student/content-viewer.tsx:22-23 | Starts not saving, completed exactly when the resource says so. |
| Content.ContentViewer.BeginMarkComplete | src/components/student/content-viewer.tsx:25-28 | A completed resource sends nothing; otherwise it is marked completed and saving before the request. |
| Content.ContentViewer.FinishMarkComplete | src/components/student/content-viewer.tsx:30-46 | Success keeps the mark and calls `onComplete`; failure takes the mark back and alerts; saving is over either way. |
| Content.MarkCompleteRoundTrip | src/components/student/content-viewer.tsx:25-46 | From not completed, one click sends one request and ends with the mark as the server decided. |
| Auth.Guard | src/context/auth-context.tsx:53-69 | No redirect while loading; a suspended user goes to `/suspended` from anywhere else; a visitor goes to `/login` from every non-public path; an active user goes to `/dashboard` from every public path but `/suspended`; a redirect never targets the current path. |
| Auth.GuardSettles | src/context/auth-context.tsx:53-69 | On the page a redirect leads to, the guard redirects no further. |
| Auth.AuthProvider.constructor | src/context/auth-context.tsx:19-20 | Starts loading with no user. |
| Auth.AuthProvider.InitAuth | src/context/auth-context.tsx:26-47 | Without a token nothing but loading changes; with one, a successful check sets the user and a failed one removes the token and the user; loading ends on every path. |
| Auth.AuthProvider.Login | src/context/auth-context.tsx:72-78 | The token is stored first; on success the user is set and the router goes to `/dashboard`; a failed fetch leaves the token stored and nothing else changed. |
| Auth.AuthProvider.Logout | src/context/auth-context.tsx:81-85 | Removes the token and the user and goes to `/login`. |
| Auth.AuthProvider.RunGuard | src/context/auth-context.tsx:53-69 | Pushes the guard's target, if any, and changes nothing else. |
| Auth.LogoutThenGuard | src/context/auth-context.tsx:54-85 | After a logout the guard sends a visitor on a private page to `/login` and leaves one on a public page. |
| Admission.ModeName | src/app/admission/page.tsx:28 | Mode names are non-empty and bar-free. |
| Admission.WithField | src/app/admission/page.tsx:52-57 | The edited field takes the new value and every other field, the mode included, keeps its value. |
| Admission.InitialFormEmpty | src/app/admission/page.tsx:32-44 | Every text field starts empty and the mode starts as Online. |
| Admission.WithFieldLaws | src/app/admission/page.tsx:52-57 | A later edit of a field wins; edits of different fields commute. |
| Admission.BridgeSegments | src/app/admission/page.tsx:63-68 | The summary has five segments. |
| Admission.LearningGoalSplits | src/app/admission/page.tsx:63-69 | For bar-free fields the summary cuts back into Exam, Mode, Guardian, Address and Notes, in that order, with "None" for empty notes. |
| Admission.NotesNoneAmbiguous | src/app/admission/page.tsx:68 | Empty notes and notes reading "None" give the same summary. |
| Admission.PayloadOf | src/app/admission/page.tsx:72-79 | The payload carries first and last name, email, phone and grade unchanged, plus the summary. |
| Admission.GuardianOnlyInSummary | src/app/admission/page.tsx:63-79 | Changing the guardian's name changes only the summary field of the payload. |
| Admission.ErrorMessage | src/app/admission/page.tsx:85 | The server's `detail` when it is non-empty, the fixed text when it is missing or empty. |
| Admission.AdmissionPage.constructor | src/app/admission/page.tsx:48-49 | The page starts with the initial form, not submitting. |
| Admission.AdmissionPage.HandleChange | src/app/admission/page.tsx:52-57 | One text field changes; nothing else does. |
| Admission.AdmissionPage.ChooseMode | src/app/admission/page.tsx:169 | Only the preferred mode changes. |
| Admission.AdmissionPage.BeginSubmit | src/app/admission/page.tsx:59-79 | Submitting starts and the payload is built from the current form. |
| Admission.AdmissionPage.FinishSubmit | src/app/admission/page.tsx:81-94 | Success goes to `/admission/success` and brings the flag down; failure opens the error alert and keeps the flag up while the alert is open. |
| Admission.AdmissionPage.CloseFailureAlert | src/app/admission/page.tsx:87-94 | Closing the failure alert brings the flag down and changes nothing else. |
| Admission.RejectedThenRetry | src/app/admission/page.tsx:59-94 | A rejected application keeps the flag up while the alert is open, then re-enables submitting with the form as typed and no navigation. |
| Nav.PrefixesNest | src/components/student/sidebar.tsx:61 | Two prefixes of one path: the shorter is a prefix of the longer. |
| Nav.NavHrefsPrefixFree | src/config/nav-config.tsx:3-24 | No menu href is a prefix of another. |
| Nav.AtMostOneActive | src/components/student/sidebar.tsx:60-61 | Whatever the path, at most one menu entry is highlighted. |
| Nav.PrefixNotSegment | src/components/student/sidebar.tsx:61 | The test is a prefix test: `/coursesx` lights "My Courses", `/course` does not. |
| Nav.StreakLabel | src/components/student/sidebar.tsx:54 | The label starts with the streak in decimal and ends in " Day" for a streak of 1 and in "Days" otherwise (the emoji after it is left out). |
| Nav.StreakLabelExamples | src/components/student/sidebar.tsx:54 | 0 is "0 Days", 1 is "1 Day", 2 is "2 Days". |
| Nav.AvatarInitial | src/components/student/sidebar.tsx:87 | One character: the first of the first name, or "S". |
| Nav.DisplayName | src/components/student/sidebar.tsx:90 | The first name when it is non-empty, "Student" without a user or with an empty first name. |
| Nav.DisplayEmail | src/components/student/sidebar.tsx:91 | The email when it is non-empty, the fixed address without a user or with an empty email. |
| Nav.Sidebar.constructor | src/components/student/sidebar.tsx:23 | The streak starts at 0. |
| Nav.Sidebar.LoadSummary | src/components/student/sidebar.tsx:25-27 | The streak becomes the summary's streak; a failed summary changes nothing. |
| Nav.Sidebar.HandleLogout | src/components/student/sidebar.tsx:29-38 | Asks first; logs out only on a yes and otherwise changes nothing. |

## Left out

- HTTP plumbing (`src/lib/api.ts`: the client instance, the token header, the 401 redirect) is not part of this model; every call is a `Response` parameter.
- `getDescendantStudyNodes`, `getProgressSummary`, `getQuizAttempts` and `pingGamification` are not part of this model; their outcomes are parameters.
- `Promise.all` over the course's nodes is a sequential map; timers (`setInterval`, `setTimeout`) are single steps (`Tick`, an immediate settle in `HandleClose`).
- Browser storage is a value: the stored token is a field, the stored read set is a parameter of `LoadReadState`, and writing the read set back after every change is not modelled. `JSON.parse` is a parameter (`None` when it throws).
- The quiz score and pass mark use floating point (`parseFloat`, `Math.round` of a fraction) and are not modelled; neither are date and time formatting.
- Courses.RoundPercent: models `Math.round(completed / total * 100)` as exact integer round-half-up; the floating-point division is idealised.
- Numbers are unbounded integers; JavaScript's doubles (and their precision limits) are not modelled.
- Quiz.FormatAnswers: question ids are non-negative integers, for which `Object.entries` lists keys in ascending order; a negative id would be a string key in insertion order, which the model does not cover.
- JSX, styling, icons other than the dialog mapping, and the pages that only compose these components are presentation and are left out, as are the context hooks' "outside a provider" errors.
- Learning.GetDomains: `parent === null` and a missing parent are one case (`None`); the record type declares `parent` as a number or null.
- SidebarTree.TreeItem.FinishLoad: the load's effect on the parent's data is outside the component, so the item's node is constant and a load is only a success or a failure.
- Content.ContentViewer.constructor: the flags are initialised from the first resource only, as `useState` does; re-rendering with another resource is not modelled.
- Distinctness of the sample ids is not stated.
- BeginSubmit: the awaited confirmation (manual submit) or "Time's Up" alert (automatic submit) is taken as answered within the one step. While the confirmation is open the quiz is still ACTIVE: the timer keeps ticking and answers can still be chosen behind it. The model has no separate state for that interval and takes those ticks and choices as happening before the step; every end state is reached that way. If the time runs out while the confirmation is open, the automatic submit's alert replaces it in the single dialog slot and the manual call never resumes (as in Dialogs.OverwrittenCallerNeverSettled); the model does not represent that abandoned call.
- StreakLabel: the sidebar renders a fire emoji after the label; only the text of the label is modelled.
- InitAuth, Login, LoadQuiz and QuizHistory.Load are single steps: the intermediate states while their request is pending (for `login`, the token already stored and no user yet) are not separate states of the model.
- HandleClose: the resolver is `None` only before the first request; the source would then call `undefined` inside the close timer and throw, where the model settles nobody. The dialog is drawn only while open, so no click reaches that case.
- AvatarInitial: strings are sequences of Unicode characters, while `charAt(0)` takes one UTF-16 code unit; for a first name starting outside the Basic Multilingual Plane the source shows half a surrogate pair and the model the whole character.
