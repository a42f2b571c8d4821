# Day Craft client core, modelled in Dafny

Day Craft is a single-page productivity client. It has five views: daily tasks, a journal, notes, checklists and a bucket list. Each view keeps one persisted collection in the browser's local storage and rewrites it with spread, `map` and `filter` on every edit. The model also covers:

- a session holder with a loading gate;
- two route guards over a fixed route table;
- a simulated Google sign-in dialog;
- a light/dark theme toggle.

The modules follow the source files:

| module | file | form |
|---|---|---|
| `Tasks` | `tasks.dfy` | pure transforms over the date-keyed task map, plus a `TasksPage` class holding the hook state |
| `Notes` | `notes.dfy` | add, pin, delete, search and the pinned-first display, plus `NotesPage` |
| `Checklists` | `checklists.dfy` | nested list-of-lists transforms, plus `ChecklistsPage` and `NewItemInput` |
| `BucketList` | `bucket_list.dfy` | goals, category grouping and completion sums, plus `BucketListPage` |
| `Journal` | `journal.dfy` | date-keyed upsert and the image list, plus `JournalPage` |
| `Auth` | `auth.dfy` | the `Session` class: user, loading flag and the storage slot it mirrors |
| `Routes` | `routes.dfy` | the guards, the route table and the screen they produce |
| `GoogleLogin` | `google_login.dfy` | the `Dialog` class: a step machine whose delayed callbacks are explicit timer values |
| `Theme` | `theme.dfy` | the toggle function and the `ThemeToggle` class |

Four helper modules support them:

- `Wrappers` has `Option`, `Result` and map lookup.
- `Text` has JavaScript `trim` with its exact white-space set, ASCII `toLowerCase`, `includes` and `split(c)[0]`.
- `Seqs` has `filter`, `map`, removal by position, counting and percentages.
- `Store` covers what the views use of the `useLocalStorage` hook. A binding starts from the stored copy or a default. A setter takes a value or a function of the previous value.

Each page class keeps the hook state as fields. Its methods state their new state through the pure functions. The lemmas and the functions' own contracts carry the properties.

Parameters stand in for the environment:

- ids (`Date.now()`);
- timestamps (`toISOString()`);
- the day currently shown (`today`);
- random checklist colours;
- the data URL a file reader produces.

## Model

| member | source | states |
|---|---|---|
| Tasks.TasksOn | client/src/pages/Tasks.jsx:15 | a day without a bucket reads as the empty list; otherwise its stored list |
| Tasks.WithBucket | client/src/pages/Tasks.jsx:17-22 | today's bucket becomes the new list and exists afterwards; every other day keeps its bucket or lack of one |
| Tasks.Appended | client/src/pages/Tasks.jsx:28-35 | one more task; the old tasks are the prefix; the last is the new task with `completed = false` |
| Tasks.Toggled | client/src/pages/Tasks.jsx:39-44 | same length; id, text and createdAt kept everywhere; `completed` flips exactly where the id matches |
| Tasks.Without | client/src/pages/Tasks.jsx:46-49 | no survivor carries the id; every task with another id survives |
| Tasks.Retexted | client/src/pages/Tasks.jsx:58-60 | same length; only the text of the task carrying `editingId` changes, to the new text |
| Tasks.AddTaskTo | client/src/pages/Tasks.jsx:24-37 | blank text leaves the map as it is; otherwise today's list gains the untrimmed task at its end and other days are unchanged |
| Tasks.ToggleTaskIn | client/src/pages/Tasks.jsx:39-44 | today's list becomes `Toggled` of the old one, with the same length; other days are unchanged |
| Tasks.DeleteTaskFrom | client/src/pages/Tasks.jsx:46-49 | today's list becomes `Without` of the old one and does not grow; other days are unchanged |
| Tasks.SaveEditIn | client/src/pages/Tasks.jsx:56-61 | blank text leaves the map as it is; otherwise today's list becomes `Retexted` with the untrimmed text and other days are unchanged |
| Tasks.CompletedCount | client/src/pages/Tasks.jsx:71 | the completed count never exceeds the number of tasks |
| Tasks.Progress | client/src/pages/Tasks.jsx:72 | 0 for an empty list, always within 0..100, and 100 when every task is done |
| Tasks.ToggleInvolution | client/src/pages/Tasks.jsx:39-44 | toggling the same id twice gives back the list |
| Tasks.ToggleTaskTwice | client/src/pages/Tasks.jsx:39-44 | two toggles at the map level restore today's list and leave the other days alone |
| Tasks.DeleteAbsentIsNoop | client/src/pages/Tasks.jsx:46-49 | deleting an id no task carries changes nothing |
| Tasks.DeleteKeepsOrder | client/src/pages/Tasks.jsx:47 | the survivors are a subsequence of the list, so their order is kept |
| Tasks.AddThenDeleteRestores | client/src/pages/Tasks.jsx:35-49 | adding a task under a fresh id and deleting that id restores today's list |
| Tasks.EditAbsentIsNoop | client/src/pages/Tasks.jsx:58-60 | an edit keyed to an id no task carries changes nothing |
| Tasks.BuyMilkScenario | client/src/pages/Tasks.jsx:24-49 | on a day with no bucket, adding "Buy milk", toggling it and deleting it yields one open task, then one done task, then an empty day |
| Tasks.TasksPage.TodayTasks | client/src/pages/Tasks.jsx:15 | today's stored list, or the empty list when today has no bucket |
| Tasks.TasksPage.constructor | client/src/pages/Tasks.jsx:10-13 | the store starts from its stored copy or `{}`; the buffers start empty and nothing is being edited |
| Tasks.TasksPage.UpdateTasks | client/src/pages/Tasks.jsx:17-22 | the store is rewritten through an updater of the previous map, giving `WithBucket`; the buffers are kept |
| Tasks.TasksPage.TypeTask | client/src/pages/Tasks.jsx:98 | only the new-task buffer changes |
| Tasks.TasksPage.AddTask | client/src/pages/Tasks.jsx:24-37 | the store becomes `AddTaskTo`; the input clears only when the text was accepted |
| Tasks.TasksPage.ToggleTask | client/src/pages/Tasks.jsx:39-44 | the store becomes `ToggleTaskIn`; the buffers are kept |
| Tasks.TasksPage.DeleteTask | client/src/pages/Tasks.jsx:46-49 | the store becomes `DeleteTaskFrom`; the buffers are kept |
| Tasks.TasksPage.StartEditing | client/src/pages/Tasks.jsx:51-54 | the editor opens on the task's id and text; the store is kept |
| Tasks.TasksPage.TypeEdit | client/src/pages/Tasks.jsx:142 | only the edit buffer changes |
| Tasks.TasksPage.SaveEdit | client/src/pages/Tasks.jsx:56-64 | the store becomes `SaveEditIn`; blank text leaves the editor open with its text; otherwise the editor closes |
| Tasks.TasksPage.CancelEdit | client/src/pages/Tasks.jsx:66-69 | the editor closes and the store is kept |
| Notes.AddNoteTo | client/src/pages/Notes.jsx:12-24 | a draft blank in both fields leaves the list as it is; otherwise one unpinned note with the untrimmed fields and the default colour goes in front of the unchanged list |
| Notes.Without | client/src/pages/Notes.jsx:29-32 | no survivor carries the id; every note with another id survives |
| Notes.PinToggled | client/src/pages/Notes.jsx:34-41 | same length; each note is kept or has exactly its `pinned` flipped, according to whether its id matches |
| Notes.Filtered | client/src/pages/Notes.jsx:43-47 | a note is kept iff the lower-cased query occurs in its lower-cased title or content |
| Notes.Display | client/src/pages/Notes.jsx:49-53 | a permutation of its input (same multiset) in which every pinned note precedes every unpinned one |
| Notes.FilteredIsSubsequence | client/src/pages/Notes.jsx:43-47 | the search result is a subsequence of the stored notes |
| Notes.EmptyQueryKeepsAll | client/src/pages/Notes.jsx:43-47 | the empty query keeps every note |
| Notes.SearchIgnoresCase | client/src/pages/Notes.jsx:45-46 | two queries that agree after lower-casing find the same notes |
| Notes.DisplayKeepsGroupOrder | client/src/pages/Notes.jsx:49-53 | within the pinned group and within the other group, the display keeps the input order |
| Notes.DeleteAbsentIsNoop | client/src/pages/Notes.jsx:29-32 | deleting an id no note carries changes nothing |
| Notes.DeleteKeepsOrder | client/src/pages/Notes.jsx:31 | the survivors are a subsequence of the notes |
| Notes.AddThenDeleteRestores | client/src/pages/Notes.jsx:12-32 | adding a note under a fresh id and deleting that id restores the list |
| Notes.PinInvolution | client/src/pages/Notes.jsx:34-41 | pinning the same id twice gives back the list |
| Notes.OneNonBlankFieldSuffices | client/src/pages/Notes.jsx:13 | a draft with only a title, or only content, is accepted |
| Notes.NotesPage.constructor | client/src/pages/Notes.jsx:7-10 | notes from the stored copy or `[]`; empty query, closed modal, empty draft |
| Notes.NotesPage.FilteredNotes | client/src/pages/Notes.jsx:43-47 | exactly the stored notes that match the query; every stored note when the query is empty |
| Notes.NotesPage.DisplayNotes | client/src/pages/Notes.jsx:43-53 | a read-only projection of the page (it cannot change `notes`) that holds exactly the notes the search keeps, pinned ones first |
| Notes.NotesPage.SetSearchQuery | client/src/pages/Notes.jsx:65 | only the query changes; the stored notes are kept |
| Notes.NotesPage.OpenModal | client/src/pages/Notes.jsx:71 | only the modal flag changes, to open |
| Notes.NotesPage.CloseModal | client/src/pages/Notes.jsx:140 | only the modal flag changes, to closed |
| Notes.NotesPage.EditDraft | client/src/pages/Notes.jsx:149-156 | only the draft changes |
| Notes.NotesPage.AddNote | client/src/pages/Notes.jsx:12-27 | the store becomes `AddNoteTo`; an accepted draft is cleared and the modal closed; a refused one leaves both as they are |
| Notes.NotesPage.DeleteNote | client/src/pages/Notes.jsx:29-32 | the store becomes `Without`; nothing else changes |
| Notes.NotesPage.TogglePin | client/src/pages/Notes.jsx:34-41 | the store becomes `PinToggled`; nothing else changes |
| Checklists.AddChecklistTo | client/src/pages/Checklists.jsx:65-77 | a blank title leaves the list as it is; otherwise a checklist with no items goes in front of the unchanged list |
| Checklists.DeleteChecklistFrom | client/src/pages/Checklists.jsx:83-85 | no survivor carries the id, so its items go with it; every other checklist survives whole |
| Checklists.UpdateItemsOf | client/src/pages/Checklists.jsx:88-96 | same number and order of checklists; only the items of the addressed checklist change; title, colour and createdAt are kept |
| Checklists.AddItemTo | client/src/pages/Checklists.jsx:87-97 | only the addressed checklist changes, gaining one open item at the end of its items |
| Checklists.ItemsToggled | client/src/pages/Checklists.jsx:104-106 | same length; `completed` flips exactly on the items carrying the id |
| Checklists.ItemsWithout | client/src/pages/Checklists.jsx:118 | no surviving item carries the id; every item with another id survives |
| Checklists.ToggleItemIn | client/src/pages/Checklists.jsx:99-111 | same checklists in the same order; every item count is kept; only the addressed checklist's items toggle |
| Checklists.DeleteItemFrom | client/src/pages/Checklists.jsx:113-123 | same checklists in the same order; only the addressed checklist loses the matching items |
| Checklists.DeleteKeepsOrder | client/src/pages/Checklists.jsx:84 | the surviving checklists are a subsequence of the list, so their order is kept |
| Checklists.ItemsWithoutKeepsOrder | client/src/pages/Checklists.jsx:118 | the surviving items are a subsequence of the items, so their order is kept |
| Checklists.ItemsWithoutAbsent | client/src/pages/Checklists.jsx:118 | removing an item id that does not occur changes nothing |
| Checklists.UnknownListIsNoop | client/src/pages/Checklists.jsx:87-123 | an unknown checklist id makes add, toggle and delete of items no-ops |
| Checklists.UnknownItemDeleteIsNoop | client/src/pages/Checklists.jsx:113-123 | an item id absent from the addressed checklist makes delete a no-op |
| Checklists.ToggleItemInvolution | client/src/pages/Checklists.jsx:99-111 | toggling the same item twice gives back the checklists |
| Checklists.AddThenDeleteChecklistRestores | client/src/pages/Checklists.jsx:65-85 | adding a checklist under a fresh id and deleting that id restores the list |
| Checklists.AddThenDeleteItemRestores | client/src/pages/Checklists.jsx:87-123 | adding an item under a fresh id and deleting it again restores the checklists |
| Checklists.ChecklistsPage.constructor | client/src/pages/Checklists.jsx:61-63 | checklists from the stored copy or `[]`; empty title and hidden form |
| Checklists.ChecklistsPage.ShowNewInput | client/src/pages/Checklists.jsx:142 | only the form's visibility changes |
| Checklists.ChecklistsPage.TypeTitle | client/src/pages/Checklists.jsx:166 | only the title buffer changes |
| Checklists.ChecklistsPage.AddChecklist | client/src/pages/Checklists.jsx:65-81 | the store becomes `AddChecklistTo`; an accepted title clears the input and hides the form, and a refused one leaves both |
| Checklists.ChecklistsPage.DeleteChecklist | client/src/pages/Checklists.jsx:83-85 | the store becomes `DeleteChecklistFrom`; the form is kept |
| Checklists.ChecklistsPage.AddItem | client/src/pages/Checklists.jsx:87-97 | the store becomes `AddItemTo`; the form is kept |
| Checklists.ChecklistsPage.ToggleItem | client/src/pages/Checklists.jsx:99-111 | the store becomes `ToggleItemIn`; the form is kept |
| Checklists.ChecklistsPage.DeleteItem | client/src/pages/Checklists.jsx:113-123 | the store becomes `DeleteItemFrom`; the form is kept |
| Checklists.NewItemInput.constructor | client/src/pages/Checklists.jsx:36-37 | the input is bound to its checklist and starts empty |
| Checklists.NewItemInput.Type | client/src/pages/Checklists.jsx:52 | the buffer becomes the typed text |
| Checklists.NewItemInput.HandleSubmit | client/src/pages/Checklists.jsx:39-45 | blank text submits nothing and keeps the buffer; otherwise the untrimmed text is added to this input's checklist and the buffer clears |
| BucketList.CategoryTable | client/src/pages/BucketList.jsx:10-18 | the table lists each of the four categories exactly once under distinct names, and the default is "Personal" |
| BucketList.AddGoalTo | client/src/pages/BucketList.jsx:20-29 | blank text leaves the goals as they are; otherwise an open goal in the selected category goes in front of the unchanged list |
| BucketList.Toggled | client/src/pages/BucketList.jsx:34-36 | same length; each goal is kept or has exactly its `completed` flipped, according to whether its id matches |
| BucketList.Without | client/src/pages/BucketList.jsx:38-41 | no survivor carries the id; every goal with another id survives |
| BucketList.CompletedGoals | client/src/pages/BucketList.jsx:44 | completed goals never exceed the total |
| BucketList.Progress | client/src/pages/BucketList.jsx:45 | 0 with no goals, always within 0..100 |
| BucketList.InCategory | client/src/pages/BucketList.jsx:89 | a goal is in the group iff its category matches |
| BucketList.GroupsOf | client/src/pages/BucketList.jsx:88-100 | at most as many cards as categories; every card is non-empty, belongs to one of the given categories, holds exactly that category's goals, and its badge is their completed count |
| BucketList.GroupsOfCover | client/src/pages/BucketList.jsx:88-90 | every given category that has goals gets a card |
| BucketList.GroupsOfOrder | client/src/pages/BucketList.jsx:88 | the cards' categories are a subsequence of the given categories |
| BucketList.Groups | client/src/pages/BucketList.jsx:88-100 | at most one card per table category, so at most four; each non-empty, of a table category, with exactly its goals and their completed count as badge |
| BucketList.GroupsCoverInOrder | client/src/pages/BucketList.jsx:88-100 | every category with goals has a card, and the cards follow the table's order |
| BucketList.SkippingEmptyLosesNothing | client/src/pages/BucketList.jsx:90 | skipping empty categories loses no goal and no completed goal |
| BucketList.CategoryTotals | client/src/pages/BucketList.jsx:13-18 | the sums over the table have the four category terms |
| BucketList.InCategoryStep | client/src/pages/BucketList.jsx:89 | the first goal counts once in its own category and nowhere else |
| BucketList.CategoriesCover | client/src/pages/BucketList.jsx:88-100 | the four categories' sizes sum to the goal count and their completed counts to the completed total |
| BucketList.GroupSums | client/src/pages/BucketList.jsx:88-100 | the rendered cards' sizes sum to `totalGoals` and their badges to `completedGoals` |
| BucketList.ToggleInvolution | client/src/pages/BucketList.jsx:34-36 | toggling the same goal twice gives back the list |
| BucketList.DeleteKeepsOrder | client/src/pages/BucketList.jsx:40 | the survivors are a subsequence of the goals |
| BucketList.AddThenDeleteRestores | client/src/pages/BucketList.jsx:20-41 | adding a goal under a fresh id and deleting that id restores the list |
| BucketList.ProgressScenario | client/src/pages/BucketList.jsx:43-45 | of three goals with one done, the completed count is 1 and the progress 100/3 |
| BucketList.GroupsScenario | client/src/pages/BucketList.jsx:88-100 | two Personal goals (one done) and one open Travel goal render as exactly two cards, Personal 1/2 then Travel 0/1 |
| BucketList.BucketListPage.constructor | client/src/pages/BucketList.jsx:8-11 | goals from the stored copy or `[]`; empty text, category Personal, closed modal |
| BucketList.BucketListPage.SelectCategory | client/src/pages/BucketList.jsx:188-191 | the selection becomes a table entry; nothing else changes |
| BucketList.BucketListPage.TypeGoal | client/src/pages/BucketList.jsx:178 | only the text buffer changes |
| BucketList.BucketListPage.SetModalOpen | client/src/pages/BucketList.jsx:57 | only the modal flag changes |
| BucketList.BucketListPage.AddGoal | client/src/pages/BucketList.jsx:20-32 | the store becomes `AddGoalTo` with the selected category; accepted text clears the buffer and closes the modal; the selection stays |
| BucketList.BucketListPage.ToggleGoal | client/src/pages/BucketList.jsx:34-36 | the store becomes `Toggled`; nothing else changes |
| BucketList.BucketListPage.DeleteGoal | client/src/pages/BucketList.jsx:38-41 | the store becomes `Without`; nothing else changes |
| Journal.InitialDraft | client/src/pages/Journal.jsx:11-16 | today's stored entry if there is one, otherwise the blank entry with mood "neutral" |
| Journal.Save | client/src/pages/Journal.jsx:21-25 | the keys gain today; today's entry is the draft; every other day keeps its entry |
| Journal.WithImage | client/src/pages/Journal.jsx:35-38 | exactly one image is added at the end; the other fields are kept |
| Journal.WithoutImage | client/src/pages/Journal.jsx:44-49 | an in-range index removes exactly that image, keeping the rest in order; any other index changes nothing |
| Journal.SaveIdempotent | client/src/pages/Journal.jsx:21-25 | saving the same draft twice equals saving it once |
| Journal.SaveUneditedDraft | client/src/pages/Journal.jsx:11-25 | saving the untouched draft of a day that has an entry leaves the map unchanged |
| Journal.AddThenRemoveImage | client/src/pages/Journal.jsx:35-49 | adding an image and removing it at its index restores the draft |
| Journal.JournalPage.constructor | client/src/pages/Journal.jsx:8-18 | entries from the stored copy or `{}`; the draft is `InitialDraft`; not marked saved |
| Journal.JournalPage.HandleSave | client/src/pages/Journal.jsx:21-27 | the entries become `Save` of the draft through an updater; the draft is kept; marked saved |
| Journal.JournalPage.SavedTimerElapsed | client/src/pages/Journal.jsx:27 | only the saved mark clears |
| Journal.JournalPage.HandleImageUpload | client/src/pages/Journal.jsx:30-41 | no file, no change; otherwise the draft becomes `WithImage`; the entries are untouched |
| Journal.JournalPage.RemoveImage | client/src/pages/Journal.jsx:44-49 | the draft becomes `WithoutImage`; the entries are untouched |
| Journal.JournalPage.SetMood | client/src/pages/Journal.jsx:51-82 | only the draft's mood changes, to the clicked one of the six listed moods; the entries are untouched |
| Journal.JournalPage.SetTitle | client/src/pages/Journal.jsx:95 | only the draft's title changes; the entries are untouched |
| Journal.JournalPage.SetContent | client/src/pages/Journal.jsx:103 | only the draft's content changes; the entries are untouched |
| Auth.Message | client/src/context/AuthContext.jsx:32-47 | "Invalid credentials" exactly for rejected logins and "Please fill in all fields" exactly for rejected signups |
| Auth.StoredSession | client/src/context/AuthContext.jsx:13-16 | the stored user is present iff the `daycraft_user` key is |
| Auth.LoginOutcome | client/src/context/AuthContext.jsx:26-33 | rejected with "Invalid credentials" iff email or password is empty; otherwise the user has the email, the local part as name, the time as id and no provider |
| Auth.SignupOutcome | client/src/context/AuthContext.jsx:41-47 | rejected with "Please fill in all fields" iff any field is empty; otherwise the user has exactly the given fields |
| Auth.GoogleUser | client/src/context/AuthContext.jsx:53-56 | id `google_123` and provider `google` always; the email defaults to `user@gmail.com`; the name is its local part |
| Auth.LoginNameIsLocalPart | client/src/context/AuthContext.jsx:27 | the name is a prefix of the email without '@', followed by '@' unless it is the whole email |
| Auth.DefaultGoogleUser | client/src/context/AuthContext.jsx:53-56 | the default Google user is `user@gmail.com` named "user" |
| Auth.Session.constructor | client/src/context/AuthContext.jsx:8-9 | no user, loading |
| Auth.Session.Hydrate | client/src/context/AuthContext.jsx:11-18 | loading ends, children render, and the user is the stored session, if any |
| Auth.Session.Login | client/src/context/AuthContext.jsx:20-36 | the result is `LoginOutcome`; success sets and persists the same user; failure changes neither user nor storage |
| Auth.Session.Signup | client/src/context/AuthContext.jsx:38-51 | the result is `SignupOutcome`; success sets and persists the same user; failure changes neither user nor storage |
| Auth.Session.GoogleLogin | client/src/context/AuthContext.jsx:53-62 | always succeeds with `GoogleUser` and persists it |
| Auth.Session.Logout | client/src/context/AuthContext.jsx:64-67 | the user is cleared and only the session key is removed from storage |
| Auth.RejectedLoginScenario | client/src/context/AuthContext.jsx:11-33 | after hydrating an empty storage, a login with an empty email is rejected with "Invalid credentials" and nobody is signed in |
| Routes.Protected | client/src/App.jsx:15-27 | placeholder while loading; redirect to "/" with no user; the page with a user |
| Routes.Public | client/src/App.jsx:30-41 | nothing while loading; redirect to "/dashboard" with a user; the page without one |
| Routes.Guarded | client/src/App.jsx:49-73 | a guarded element shows only its route's page; an unguarded one always shows it; after loading it shows or redirects |
| Routes.RouteFor | client/src/App.jsx:49-73 | a route found for a path carries that path |
| Routes.Resolve | client/src/App.jsx:49-76 | an unmatched path redirects to "/"; a shown page is the matched route's; a redirect goes to "/", or to "/dashboard" only for a user; after loading it shows or redirects |
| Routes.Follow | client/src/App.jsx:15-76 | after loading, following at least one redirect always ends on a shown page |
| Routes.Screen | client/src/context/AuthContext.jsx:71 | nothing of the routes is on screen while loading |
| Routes.TableGuards | client/src/App.jsx:49-73 | "/" is unguarded; "/login" and "/signup" are public-only; a route is protected iff its page is a dashboard page |
| Routes.EveryPathRenders | client/src/App.jsx:23-76 | after hydration every path, matched or not, reaches a rendered page after at most one redirect |
| Routes.PlaceholderNeverShown | client/src/App.jsx:18-20 | the ProtectedRoute placeholder never reaches the screen |
| Routes.GuardsHold | client/src/App.jsx:15-41 | visitors never see a dashboard page and users never see login or signup |
| GoogleLogin.Run | client/src/components/GoogleLoginModal.jsx:16-35 | an account click signs in with its email on the same step; an email-step submit advances iff the trimmed email contains '@' and never signs in; a password-step submit signs in with the untrimmed email; the password is not an input of the callback |
| GoogleLogin.EmailTestIgnoresTrim | client/src/components/GoogleLoginModal.jsx:30 | the trimmed-email '@' test is the same as testing the email itself |
| GoogleLogin.RunNeverGoesBack | client/src/components/GoogleLoginModal.jsx:29-33 | a callback never moves the form back |
| GoogleLogin.Dialog.constructor | client/src/components/GoogleLoginModal.jsx:5-8 | starts on the account list, not loading, with nothing pending |
| GoogleLogin.Dialog.ClickAccount | client/src/components/GoogleLoginModal.jsx:16-18 | loading starts and a callback with the account's email is scheduled; the step is kept |
| GoogleLogin.Dialog.UseAnotherAccount | client/src/components/GoogleLoginModal.jsx:101 | from the account list to the email step |
| GoogleLogin.Dialog.TypeEmail | client/src/components/GoogleLoginModal.jsx:127 | only the email changes |
| GoogleLogin.Dialog.TypePassword | client/src/components/GoogleLoginModal.jsx:142 | only the password changes |
| GoogleLogin.Dialog.Submit | client/src/components/GoogleLoginModal.jsx:24-146 | an empty required field on the current step blocks the submission and nothing changes; otherwise loading starts and a callback capturing this render's step and email is scheduled |
| GoogleLogin.Dialog.Fire | client/src/components/GoogleLoginModal.jsx:18-33 | the callback leaves the queue, loading ends, step and `onLogin` argument follow `Run`, and the step never goes back |
| Theme.Toggle | client/src/components/ThemeToggle.jsx:15 | the result is "light" or "dark", and it is "dark" iff the previous theme was "light" |
| Theme.ToggleTwice | client/src/components/ThemeToggle.jsx:15 | toggling twice from "light" or "dark" gives the original theme |
| Theme.ToggleSettles | client/src/components/ThemeToggle.jsx:15 | after one toggle, further pairs of toggles change nothing |
| Theme.ThemeToggle.constructor | client/src/components/ThemeToggle.jsx:6 | the stored theme, or "light" when nothing is stored |
| Theme.ThemeToggle.ToggleTheme | client/src/components/ThemeToggle.jsx:14-16 | the theme becomes `Toggle` of the previous one, through an updater |
| Text.Trim | client/src/pages/Tasks.jsx:26 | the result is the input minus a white-space prefix and a white-space suffix; it is empty iff the input is all white space, and otherwise neither starts nor ends with white space |
| Text.TrimKeeps | client/src/components/GoogleLoginModal.jsx:30 | a non-space character is in the trimmed string iff it is in the string |
| Text.Lower | client/src/pages/Notes.jsx:45-46 | same length; each character is lower-cased (ASCII) |
| Text.BeforeFirst | client/src/context/AuthContext.jsx:27 | a prefix without the separator, followed by the separator unless it is the whole string |
| Text.Includes | client/src/pages/Notes.jsx:45-46 | a query longer than the string is never included; a prefix always is |
| Text.IncludesAt | client/src/pages/Notes.jsx:45-46 | an occurrence at some position makes the string include the query |
| Text.IncludesHasPosition | client/src/pages/Notes.jsx:45-46 | a string that includes the query has an occurrence at some position |
| Seqs.Map | client/src/pages/Tasks.jsx:40 | same length; each element is the function applied to the element at the same position |
| Seqs.Filter | client/src/pages/Tasks.jsx:47 | no longer than the input; keeps exactly the elements satisfying the predicate |
| Seqs.FilterPartition | client/src/pages/Notes.jsx:49-50 | a predicate and its negation split a list: the two filters together have its multiset and its length |
| Seqs.DropPositionSpec | client/src/pages/Journal.jsx:47 | dropping an in-range position removes exactly that element; any other index changes nothing |
| Seqs.SubsequenceMembers | client/src/pages/BucketList.jsx:88 | every element of a subsequence occurs in the sequence |
| Seqs.SubsequenceOfDistinct | client/src/pages/BucketList.jsx:88 | a subsequence of a sequence without repeats has no repeats |
| Seqs.Percent | client/src/pages/Tasks.jsx:72 | 0 for a zero total; within 0..100 when done does not exceed the total; 100 when all are done |
| Store.Initial | client/src/pages/Notes.jsx:7 | a binding starts from the stored copy when there is one, otherwise the default |
| Store.Next | client/src/pages/Tasks.jsx:18 | a setter given a value stores it; given a function, stores the function applied to the previous value |

## Left out

- Timing: `setTimeout` delays and Promise plumbing are not modelled. Each session operation is one atomic step. The dialog's callbacks are kept as explicit pending timers that the caller fires in any order, so the timing of the latest resolution is not modelled.
- Auth.Session.Login, Signup, GoogleLogin and Logout require `!loading`, because only the provider's children can call them and those render only after hydration (AuthContext.jsx:71).
- The `useLocalStorage` hook is not part of this model. Only what its callers use is modelled (`Store`). Each page holds its own stored value as a field, and the JSON round trip is taken as the identity.
- Corrupt stored data: no fallback is modelled. The session's `JSON.parse` (client/src/context/AuthContext.jsx:15) has no guard, and the storage hook is not modelled, so stored values are taken as well-formed.
- Ids, timestamps, random colours and `today` are parameters, not generated. Id collisions are not modelled. The round-trip lemmas instead require a fresh id.
- Date formatting with `toLocaleDateString` is locale-dependent and left out.
- `FileReader` is I/O. An upload is modelled as the optional data URL it finally produces.
- DOM event objects (`preventDefault`, `stopPropagation`) and the theme effect's `classList` update are left out.
- Progress percentages are `real`, so floating-point rounding is not modelled.
- Text.Lower: lower-cases ASCII letters only. JavaScript's full Unicode `toLowerCase` is not modelled.
- Routes.RouteFor: matches paths exactly. React Router's case-insensitive and trailing-slash matching is not modelled.
- GoogleLogin.Dialog.Submit: models the `required` attributes, so an empty field blocks submission. It does not model the browser's `type="email"` syntax check, so a malformed non-empty email still reaches the handler.
- The Google dialog's `isOpen`/`onClose` props and its markup are left out. The loading overlay is presentation, and nothing stops a second submit in the model.
- Presentation-only files are not part of this model: the landing page, the dashboard home, the progress bar, the layout and the sidebar. The Notes card colour is kept as the constant class string, because every note stores it.
