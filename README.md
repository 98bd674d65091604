# Tutorly core, modelled in Dafny

Tutorly is a tutoring app. A FastAPI backend lists HeyGen avatars and voices, checks logins, keeps
a per-token selection, forwards chat questions to a language model and starts HeyGen videos. A
separate registry runs one LiveAvatar agent per live session. A React frontend has these parts:

- a quiz page;
- a text chat;
- a photo-avatar studio;
- a recorded-question video chat;
- a page of subject presets;
- an authentication context shared by all pages.

This project models the bookkeeping and data shaping of those parts, and proves what they promise.

Every HTTP request becomes an input value: its reply, or the fact that it failed or threw. Those
inputs are the replies from HeyGen, from the backend and from the quiz generator.

Code that changes state step by step is a class:

- the agent registry;
- the selection store;
- each page's state hooks;
- the auth context.

Each class has a `State()` snapshot. Each method's postcondition ties the new snapshot to a pure
transition function. Lemmas about those functions state the invariants, the round trips and the
relations between operations. Pure code becomes functions.

Modules and files:

| module | file | models |
|---|---|---|
| `Wrappers` | wrappers.dfy | Option and Result |
| `Text` | text.dfy | `strip`/`trim`, first word, ASCII lower-case, the HTTP error message the pages build |
| `LiveAvatarAgent` | agent_manager.dfy | backend/app/liveavatar_agent.py |
| `HeygenJson` | heygen_json.dfy | the avatar-group listing shared by the backend and the subject page |
| `Catalogue` | catalogue.dfy | backend/app/main.py: avatars and voices |
| `BackendSession` | backend_session.dfy | backend/app/main.py: login, selection store, chat check, `video_id`, status defaults |
| `Quiz` | quiz_page.dfy | frontend/src/pages/QuizPage.tsx |
| `TextChat` | text_chat_page.dfy | frontend/src/pages/TextChatPage.tsx |
| `CreateYourself` | create_yourself_page.dfy | frontend/src/pages/CreateYourselfPage.tsx |
| `VideoChat` | chat_page.dfy | frontend/src/pages/ChatPage.tsx |
| `SubjectAvatars` | subject_avatars_page.dfy | frontend/src/pages/SubjectAvatarsPage.tsx |
| `Auth` | auth_context.dfy | frontend/src/auth/AuthContext.tsx |

## Model

| member | source | states |
|---|---|---|
| Text.Trim | backend/app/main.py:1112 | The result is empty exactly when the input is all whitespace. Otherwise it neither starts nor ends with whitespace. |
| Text.TrimMeaning | backend/app/main.py:1112 | The result is a slice of the input with only whitespace before and after it. With Trim's own contract, it is the input with its leading and trailing whitespace removed. |
| Text.FirstWord | backend/app/main.py:954 | The first whitespace-separated word. It holds no whitespace, it is a prefix of the trimmed text, and it is followed by whitespace unless it is the whole trimmed text. It is empty exactly for a blank input. |
| Text.HttpFailure | frontend/src/pages/TextChatPage.tsx:76-79 | The thrown message starts with its prefix ("HTTP", "Generate failed:", ...) and is trimmed at both ends. |
| Text.HttpFailureMeaning | frontend/src/pages/TextChatPage.tsx:76-79 | The message is the prefix, the status, the status text and the body, joined by single spaces, with only the trailing whitespace cut. |
| LiveAvatarAgent.ParticipantIdentity | backend/app/liveavatar_agent.py:83-86 | The identity is "liveavatar-agent-" followed by the session id. |
| LiveAvatarAgent.IdentityInjective | backend/app/liveavatar_agent.py:83-86 | Different sessions get different participant identities. |
| LiveAvatarAgent.AfterStart | backend/app/liveavatar_agent.py:74-92 | On a registered id nothing changes. Otherwise exactly one entry is added: a fresh running task with that id's identity, and every other entry stays as it was. |
| LiveAvatarAgent.AfterStop | backend/app/liveavatar_agent.py:94-105 | The id is removed and nothing else changes. An absent id yields NothingToStop. A present one is disconnected, and it is cancelled exactly when its task was running when the entry was removed. |
| LiveAvatarAgent.AfterFinish | backend/app/liveavatar_agent.py:80-91 | A task ending on its own marks its handle Done. It stays registered, and other handles are untouched. |
| LiveAvatarAgent.StartPreservesValid | backend/app/liveavatar_agent.py:74-92 | `start` keeps task numbers launched and distinct across sessions. |
| LiveAvatarAgent.StopPreservesValid | backend/app/liveavatar_agent.py:94-97 | `stop` keeps that invariant. |
| LiveAvatarAgent.FinishPreservesValid | backend/app/liveavatar_agent.py:80-91 | A task finishing on its own keeps that invariant. |
| LiveAvatarAgent.StartIdempotent | backend/app/liveavatar_agent.py:75-76 | A second `start` for the same id, with any arguments, changes nothing: no second task and no restart. |
| LiveAvatarAgent.StopThenStartIsFresh | backend/app/liveavatar_agent.py:74-109 | After `stop` the id is not running. A later `start` runs a task whose number no earlier handle had. |
| LiveAvatarAgent.SessionsIndependent | backend/app/liveavatar_agent.py:91-95 | Start, stop or finish on one id never changes whether another id is running. |
| LiveAvatarAgent.ReplayValid | backend/app/liveavatar_agent.py:68-109 | Every registry reachable from the empty one by any sequence of operations satisfies the invariant. |
| LiveAvatarAgent.RunningOnlyAfterStart | backend/app/liveavatar_agent.py:74-109 | If an id is running, the history holds a `start` for it with no later stop or finish for it. |
| LiveAvatarAgent.AgentManager.constructor | backend/app/liveavatar_agent.py:71-72 | The registry starts empty. |
| LiveAvatarAgent.AgentManager.Start | backend/app/liveavatar_agent.py:74-92 | The registry changes as AfterStart says. |
| LiveAvatarAgent.AgentManager.Stop | backend/app/liveavatar_agent.py:94-105 | Registry and teardown are as AfterStop says, whether or not disconnect or cancel raise. |
| LiveAvatarAgent.AgentManager.IsRunning | backend/app/liveavatar_agent.py:107-109 | True exactly when a handle is registered for the id and its task is not done. |
| LiveAvatarAgent.AgentManager.TaskFinished | backend/app/liveavatar_agent.py:80-91 | The registry changes as AfterFinish says. |
| Catalogue.FetchOneAvatarFromGroup | backend/app/main.py:871-900 | None exactly when the request fails, the chosen list is empty, or its first item has no avatar id. Otherwise the result is that first item, named by `avatar_name` or else its id. |
| Catalogue.GroupItems | backend/app/main.py:883-884 | The items are empty exactly when `data` is missing or both lists are empty or missing. Otherwise they are `avatar_list`, or `avatars` when `avatar_list` is empty or missing. |
| Catalogue.Collected | backend/app/main.py:903-911 | Every collected avatar has a non-empty id and a non-empty name. |
| Catalogue.CollectedBound | backend/app/main.py:903-911 | At most one avatar per configured group. |
| Catalogue.CollectedAppend | backend/app/main.py:903-911 | Group order is kept: concatenated group lists give concatenated avatar lists. |
| Catalogue.CollectedExactly | backend/app/main.py:903-911 | An avatar is listed exactly when some group yields it. |
| Catalogue.FetchAvatarsFromHeygen | backend/app/main.py:903-911 | The loop returns the collected avatars of the 15 groups, at most 15 of them. |
| Catalogue.ListAvatars | backend/app/main.py:925-930 | Never empty. The cached list when it is non-empty, else the single Abigail fallback. |
| Catalogue.NormalizeVoice | backend/app/main.py:953-958 | A kept voice has the item's non-empty id, its language and its gender, and a preview. |
| Catalogue.Candidates | backend/app/main.py:952-958 | One candidate per item, in item order, each the item's normalised voice or none. |
| Catalogue.NormalizeVoiceMeaning | backend/app/main.py:952-970 | An item is kept exactly when it has an id, a non-blank name and a non-blank preview. A kept voice is named by the first word, carries the item's stripped `preview_audio`, and is well formed. |
| Catalogue.Deduped | backend/app/main.py:960-970 | Every kept voice comes from the input. No two kept voices share a case-insensitive name. |
| Catalogue.DedupedComplete | backend/app/main.py:960-970 | Every valid voice's case-insensitive name is present in the de-duplicated list. |
| Catalogue.DedupedFirstWins | backend/app/main.py:960-970 | Each kept voice is the first valid candidate with its name, original casing kept. |
| Catalogue.DedupedWellFormed | backend/app/main.py:953-970 | Every kept voice has an id, a one-word name and a trimmed, non-empty preview. |
| Catalogue.FirstN | backend/app/main.py:972-974 | Exactly the first min(n, length) voices: the whole list when it has at most n, else its first n. |
| Catalogue.CollectVoices | backend/app/main.py:950-970 | The `by_name` loop leaves exactly the de-duplicated candidates, in insertion order. |
| Catalogue.GetCachedVoices | backend/app/main.py:939-976 | A failed request gives []. Otherwise the `by_name` loop gives the first 20 de-duplicated voices. The result is well formed and pairwise distinct by case-insensitive name. |
| Catalogue.ListVoices | backend/app/main.py:980-985 | The voices, or 500 "Cannot load HeyGen voices." exactly when there are none. |
| BackendSession.Login | backend/app/main.py:778-783 | Succeeds exactly when the user is in the table with that password. Otherwise 401 "Invalid credentials.". |
| BackendSession.OnlyStudentLogsIn | backend/app/main.py:754-756 | The only accepted credentials are Student / parola123. |
| BackendSession.Lookup | backend/app/main.py:1036-1044 | The stored selection for the token, or 404 exactly when none is stored. |
| BackendSession.LookupAfterStore | backend/app/main.py:1022-1044 | After storing under a token, reading it back gives exactly what was stored. Every other token reads as before. |
| BackendSession.SelectionStore.SetSelection | backend/app/main.py:1022-1033 | The token's entry is replaced, and the call answers ok. |
| BackendSession.SelectionStore.GetSelection | backend/app/main.py:1036-1044 | The answer is what Lookup gives on the current store: the stored selection, or 404 "No selection stored." exactly when the token has none. |
| BackendSession.ValidateChat | backend/app/main.py:1111-1115 | 400 "Empty text." exactly for blank text. Otherwise the trimmed, non-empty text goes to the model. |
| BackendSession.ExtractVideoId | backend/app/main.py:850-853 | A `data` of null raises. Otherwise the id is the nested `video_id` when truthy, else the top-level one. The "missing" error is raised exactly when neither is truthy. |
| BackendSession.QuestionStatusOf | backend/app/main.py:1089-1099 | With `data` or its status absent, the status is "unknown". The video URL is passed through. |
| Quiz.GenerateStarted | frontend/src/pages/QuizPage.tsx:32-34 | A blank description changes nothing. Otherwise the phase becomes loading. |
| Quiz.QuizArrived | frontend/src/pages/QuizPage.tsx:36-53 | A quiz starts at question 0 with score 0. A failure returns to the input phase. |
| Quiz.AnswerClicked | frontend/src/pages/QuizPage.tsx:56-64 | Ignored while feedback shows. Otherwise it records the answer and shows feedback. The score rises by exactly one when the answer is correct. |
| Quiz.AfterNextQuestion | frontend/src/pages/QuizPage.tsx:66-74 | Always clears feedback and the selection. It advances unless this was the last question, else the result phase starts. |
| Quiz.InitialInv | frontend/src/pages/QuizPage.tsx:22-30 | The initial state satisfies the page invariant. |
| Quiz.ApplyPreservesInv | frontend/src/pages/QuizPage.tsx:32-74 | Every event the page allows keeps the invariant. The score is at most the number of answered questions, which is at most the number of questions. |
| Quiz.RunKeepsInv | frontend/src/pages/QuizPage.tsx:56-74 | After any sequence of allowed events: 0 <= score <= answered <= number of questions. |
| Quiz.IndexInRange | frontend/src/pages/QuizPage.tsx:69-73 | During a quiz the question index stays in [0, questions.length). |
| Quiz.QuizPage.constructor | frontend/src/pages/QuizPage.tsx:22-30 | The hooks start at their initial values. |
| Quiz.QuizPage.SetDescription | frontend/src/pages/QuizPage.tsx:23 | Only the description changes. |
| Quiz.QuizPage.GenerateQuiz | frontend/src/pages/QuizPage.tsx:32-34 | The state changes as GenerateStarted says. The request is sent exactly for a non-blank description. |
| Quiz.QuizPage.GenerateQuizCompleted | frontend/src/pages/QuizPage.tsx:36-53 | The state changes as QuizArrived says. |
| Quiz.QuizPage.HandleAnswerClick | frontend/src/pages/QuizPage.tsx:56-64 | The state changes as AnswerClicked says. |
| Quiz.QuizPage.NextQuestion | frontend/src/pages/QuizPage.tsx:66-74 | The state changes as AfterNextQuestion says. |
| Quiz.QuizPage.TryNewTopic | frontend/src/pages/QuizPage.tsx:284 | Back to the input phase; the rest is kept. |
| TextChat.Title | frontend/src/pages/TextChatPage.tsx:34-37 | "Chat cu " and the trimmed name when the name is not blank, else "Chat". |
| TextChat.Appended | frontend/src/pages/TextChatPage.tsx:48-61 | Exactly two messages are added after the old ones: the user's text, then the "Thinking..." placeholder. |
| TextChat.ReplaceText | frontend/src/pages/TextChatPage.tsx:83-94 | The length is kept. Messages with another id are unchanged. Those with the id change only their text. |
| TextChat.PlaceholderText | frontend/src/pages/TextChatPage.tsx:76-94 | The trimmed reply, "(empty response)" for a blank one, or "Error: " and the message. Never empty. |
| TextChat.RepliesCommute | frontend/src/pages/TextChatPage.tsx:83-94 | Replies to two different placeholders give the same list in either order. |
| TextChat.ReplaceAbsentId | frontend/src/pages/TextChatPage.tsx:83-89 | Replacing by an id that no message has leaves the list unchanged. |
| TextChat.SendThenReply | frontend/src/pages/TextChatPage.tsx:44-94 | After a send and its reply, the old messages are intact. They are followed by the user's text and the answer in place of the placeholder. |
| TextChat.TextChatPage.SetText | frontend/src/pages/TextChatPage.tsx:32 | Only the input changes. |
| TextChat.TextChatPage.Send | frontend/src/pages/TextChatPage.tsx:44-62 | Blank input changes nothing and sends nothing. Otherwise the two messages are appended, the input is cleared and the trimmed text is sent. |
| TextChat.TextChatPage.ReplyArrived | frontend/src/pages/TextChatPage.tsx:80-94 | Only the placeholder's text changes, to the PlaceholderText of the outcome. The input is kept. |
| Auth.StoredToken | frontend/src/auth/AuthContext.tsx:20 | `getItem("token")`: the stored value, or null exactly when the key is absent. |
| Auth.Mounted | frontend/src/auth/AuthContext.tsx:19-23 | The initial token is the stored "token" value, or null when none is stored. Storage is as found. The avatar and voice start null. |
| Auth.AfterSetToken | frontend/src/auth/AuthContext.tsx:25-29 | The token state becomes t, "" included. The avatar and voice are untouched. Afterwards storage and state agree. |
| Auth.SetTokenEffect | frontend/src/auth/AuthContext.tsx:27-28 | Storage holds t under "token" exactly when t is non-empty, and has no "token" entry otherwise. Other keys are untouched. |
| Auth.EmptyTokenIsNotPersisted | frontend/src/auth/AuthContext.tsx:25-28 | After setToken("") the state keeps "", but a reload starts from null. |
| Auth.ReloadAfterSetToken | frontend/src/auth/AuthContext.tsx:19-29 | A reload after setToken(t) starts from t when it is non-empty, else from null. |
| Auth.MountedInSync | frontend/src/auth/AuthContext.tsx:19-21 | The provider mounts in sync with storage unless storage holds an empty token. |
| Auth.AuthProvider.constructor | frontend/src/auth/AuthContext.tsx:18-23 | The token is read from storage. The avatar and voice start null. |
| Auth.AuthProvider.SetToken | frontend/src/auth/AuthContext.tsx:25-29 | State and storage change as AfterSetToken says. |
| Auth.AuthProvider.SetAvatar | frontend/src/auth/AuthContext.tsx:22 | Only the avatar changes. |
| Auth.AuthProvider.SetVoice | frontend/src/auth/AuthContext.tsx:23 | Only the voice changes. |
| VideoChat.Redirect | frontend/src/pages/ChatPage.tsx:21-29 | A missing token goes to /login. Otherwise a missing avatar goes to /avatars, then a missing voice to /voices. The page renders exactly when all three are set. |
| VideoChat.EmptyTokenRedirectsToLogin | frontend/src/pages/ChatPage.tsx:21-23 | After setToken(null) or setToken(""), the guard sends the user to /login. |
| VideoChat.GetFirstName | frontend/src/pages/ChatPage.tsx:104-108 | "" for a blank name. Otherwise a non-empty prefix of the trimmed name with no whitespace, followed by whitespace unless it is all of it. |
| VideoChat.Decide | frontend/src/pages/ChatPage.tsx:83-98 | Stops with the video exactly when the status is "completed" and a URL is present. Stops without one exactly when the call threw or the lower-cased status is failed, error or canceled. Otherwise polling goes on. |
| VideoChat.CompletedNeedsUrl | frontend/src/pages/ChatPage.tsx:88-90 | "completed" without a URL, and "Completed" in any case, keep polling. |
| VideoChat.TerminalIgnoresCase | frontend/src/pages/ChatPage.tsx:88-93 | Any casing of "failed", "error" or "canceled" stops the poll. Two statuses other than "completed" that lower-case alike get the same decision, whatever URLs come with them. |
| VideoChat.MissingStatusKeepsPolling | frontend/src/pages/ChatPage.tsx:86-95 | The backend's "unknown" default status keeps the page polling. |
| VideoChat.Tick | frontend/src/pages/ChatPage.tsx:83-99 | The interval stays set exactly when it was set and the reply asks to go on. The video is set exactly by a completed reply with a URL. A reply that was read is shown as its status. |
| VideoChat.PollingContinues | frontend/src/pages/ChatPage.tsx:83-99 | While every reply says to go on, the interval stays set and no video is shown. |
| VideoChat.PollingStopsAtFirstDecision | frontend/src/pages/ChatPage.tsx:83-99 | The interval is cleared at the first reply that stops it. The video is set exactly when that reply had one. Later replies are never read. |
| VideoChat.ChatPage.HandleGenerate | frontend/src/pages/ChatPage.tsx:68-73 | Without a recording: "Nu există înregistrare audio." and no upload. With one: the sending status and the upload. |
| VideoChat.ChatPage.UploadFinished | frontend/src/pages/ChatPage.tsx:74-102 | A successful upload shows the waiting status and starts the interval. A failed one shows the error status. |
| VideoChat.ChatPage.PollTick | frontend/src/pages/ChatPage.tsx:83-99 | One interval callback changes the page as Tick says. |
| SubjectAvatars.PresetKeysDistinct | frontend/src/pages/SubjectAvatarsPage.tsx:671-716 | The four preset keys are distinct. |
| SubjectAvatars.ChooseList | frontend/src/pages/SubjectAvatarsPage.tsx:743 | `avatar_list` whenever it is present, even empty. `avatars` only when `avatar_list` is missing. [] without `data`. |
| SubjectAvatars.ListChoiceAgreesWithBackend | frontend/src/pages/SubjectAvatarsPage.tsx:743 | When the page finds a non-empty list, it is the list the backend reads. |
| SubjectAvatars.EmptyAvatarListShadowsAvatars | frontend/src/pages/SubjectAvatarsPage.tsx:743 | An empty `avatar_list` hides a non-empty `avatars` from the page (`??`). The backend (`or`) reads it. |
| SubjectAvatars.FindIndex | frontend/src/pages/SubjectAvatarsPage.tsx:744 | The index of the first item with the id, or the list length when there is none. |
| SubjectAvatars.FetchAvatarPreview | frontend/src/pages/SubjectAvatarsPage.tsx:718-751 | A non-OK reply gives null. Otherwise null exactly when no item has the id. A found item gives the first match's trimmed image, or "", and its name, or else the avatar id. |
| SubjectAvatars.EntryFor | frontend/src/pages/SubjectAvatarsPage.tsx:789-795 | No preview gives an empty image and the fallback name. A preview gives its image and resolved name. |
| SubjectAvatars.Entries | frontend/src/pages/SubjectAvatarsPage.tsx:781-800 | When Promise.all resolves, every preset has an entry under its key. |
| SubjectAvatars.EntriesUnlessThrown | frontend/src/pages/SubjectAvatarsPage.tsx:781-799 | The entries exist exactly when no preview request threw. |
| SubjectAvatars.EntriesKeys | frontend/src/pages/SubjectAvatarsPage.tsx:781-800 | Every preset, and nothing else, gets an entry. |
| SubjectAvatars.EntriesValues | frontend/src/pages/SubjectAvatarsPage.tsx:781-800 | Each preset's entry comes from its own group's reply. |
| SubjectAvatars.Picked | frontend/src/pages/SubjectAvatarsPage.tsx:816-826 | The avatar id is the preset's. Name and image come from the preview, else the preset name and "". The voice is the preset's. |
| SubjectAvatars.PickAfterLoad | frontend/src/pages/SubjectAvatarsPage.tsx:716-826 | After loading, picking a preset stores the name and image found in its group, or the preset name and "" when the avatar is not there. |
| SubjectAvatars.SubjectAvatarsPage.LoadStarted | frontend/src/pages/SubjectAvatarsPage.tsx:773-779 | Without a token nothing happens. Otherwise the page is loading. |
| SubjectAvatars.SubjectAvatarsPage.LoadFinished | frontend/src/pages/SubjectAvatarsPage.tsx:781-803 | A cancelled effect changes nothing. A rejected Promise.all keeps the old previews. Otherwise the previews are replaced, and loading ends. |
| SubjectAvatars.SubjectAvatarsPage.PickPreset | frontend/src/pages/SubjectAvatarsPage.tsx:816-826 | The context receives the Picked avatar and voice, the token is untouched, and the route is /chat. |
| CreateYourself.Filtered | frontend/src/pages/CreateYourselfPage.tsx:239-240 | Exactly the non-empty strings are kept, with the first one leading. |
| CreateYourself.FilteredSingleton | frontend/src/pages/CreateYourselfPage.tsx:239-240 | One value is kept exactly when it is non-empty. |
| CreateYourself.FilteredAppend | frontend/src/pages/CreateYourselfPage.tsx:239-240 | Filtering a concatenation concatenates the filtered parts, so the kept values stay in their order. |
| CreateYourself.FirstIndex | frontend/src/pages/CreateYourselfPage.tsx:174 | The first position of the url, or the length when it is absent. |
| CreateYourself.MainImage | frontend/src/pages/CreateYourselfPage.tsx:171 | `selected` when set, else the first image, else null. |
| CreateYourself.MainImageKey | frontend/src/pages/CreateYourselfPage.tsx:172-177 | The key at the first position of the main image. Null exactly when the main image is missing or empty, is not among the images, or that position has no key. |
| CreateYourself.Reset | frontend/src/pages/CreateYourselfPage.tsx:191-199 | Images, keys, selection, generation id, status and error are cleared, and the generate button is busy. |
| CreateYourself.Decisive | frontend/src/pages/CreateYourselfPage.tsx:229-251 | A success always ends the polling. A reply without a status, shown as "unknown", never does. |
| CreateYourself.FailureMessage | frontend/src/pages/CreateYourselfPage.tsx:229-251 | A reported failure gives its `msg`, else "Generation failed.". A non-OK reply gives the "Status failed:" message built from its status, status text and body. A thrown call gives its own message. |
| CreateYourself.Settle | frontend/src/pages/CreateYourselfPage.tsx:229-251 | A success keeps the filtered urls, selects the first one, and leaves the error as it was. Any other decisive reply sets its failure message and keeps the photos and the selection. The generation id and busy flags are untouched. |
| CreateYourself.PollFrom | frontend/src/pages/CreateYourselfPage.tsx:220-256 | The loop ends with an error or with the status "success". The generation id and busy flags are untouched. |
| CreateYourself.AfterGeneration | frontend/src/pages/CreateYourselfPage.tsx:188-262 | Without a token nothing changes. Otherwise the generate button ends not busy, the save flag is untouched, and the page ends with an error or with "success". |
| CreateYourself.FirstDecisive | frontend/src/pages/CreateYourselfPage.tsx:220-256 | The first poll that ends the loop, or 90 when none does. |
| CreateYourself.PollEndsAtFirstDecisive | frontend/src/pages/CreateYourselfPage.tsx:220-256 | Success keeps the filtered urls and keys, selects the first url, and leaves no error. "failed" or an error leaves its message. After 90 undecided polls, the timeout message. |
| CreateYourself.PollReadsOnlyUpToDecisive | frontend/src/pages/CreateYourselfPage.tsx:220-256 | At most 90 polls, and none after the decisive one. |
| CreateYourself.GenerationClearsPrevious | frontend/src/pages/CreateYourselfPage.tsx:188-262 | A failed generate request leaves no old images, keys, selection, generation id or status, and sets an error. A generated id is kept. |
| CreateYourself.SuccessSelectsFirstPhoto | frontend/src/pages/CreateYourselfPage.tsx:171-247 | After success with photos and keys, the main image is the first photo and its key the first key, so saving is possible. |
| CreateYourself.GroupName | frontend/src/pages/CreateYourselfPage.tsx:276 | The form name, or "Gen1" when it is empty, cut to at most 64 characters. |
| CreateYourself.GroupOutcome | frontend/src/pages/CreateYourselfPage.tsx:292-331 | An avatar is stored exactly when the group was created with a usable `group_id` or `id` and the session was saved. It then has that id and the page is unchanged. Otherwise only an error is set. |
| CreateYourself.AfterSave | frontend/src/pages/CreateYourselfPage.tsx:264-338 | A stored avatar implies a sent request and no error. After a sent request the save flag is cleared. The photos, keys, selection and generation id are never changed. |
| CreateYourself.SaveGuards | frontend/src/pages/CreateYourselfPage.tsx:264-269 | Without a token nothing happens. With the id, image or key missing, only the error is set. A request is sent exactly when both checks pass. |
| CreateYourself.SavedAvatarIsTheGroup | frontend/src/pages/CreateYourselfPage.tsx:276-330 | A stored avatar has id `group_id`, or else `id`, type talking_photo, the main image, and the form name or "My avatar". The request carries the main image's key and the group name. |
| CreateYourself.NoGroupIdNoAvatar | frontend/src/pages/CreateYourselfPage.tsx:298-299 | A reply without a usable group id stores nothing and sets the missing-id error. |
| CreateYourself.CreateYourselfPage.constructor | frontend/src/pages/CreateYourselfPage.tsx:157-165 | The hooks start empty. |
| CreateYourself.CreateYourselfPage.SelectImage | frontend/src/pages/CreateYourselfPage.tsx:496 | Only the selection changes. |
| CreateYourself.CreateYourselfPage.ApplyStatus | frontend/src/pages/CreateYourselfPage.tsx:229-252 | A decisive reply leaves what Settle says: its error, or the photos, keys and first photo of a success. Any other reply only shows its status and message. |
| CreateYourself.CreateYourselfPage.PollUntilDecided | frontend/src/pages/CreateYourselfPage.tsx:220-256 | The loop leaves the state PollFrom describes, which stops at the first decisive reply or after 90 polls. |
| CreateYourself.CreateYourselfPage.StartGeneration | frontend/src/pages/CreateYourselfPage.tsx:188-262 | Without a token nothing changes. Otherwise the earlier result is cleared, the generate reply or the polling loop decides the outcome, and the busy flag ends false, as AfterGeneration says. |
| CreateYourself.CreateYourselfPage.ReceiveGroupReply | frontend/src/pages/CreateYourselfPage.tsx:292-331 | Page state and stored avatar are as GroupOutcome says, and /voices is returned exactly when an avatar is stored. Token, storage and voice are untouched. |
| CreateYourself.CreateYourselfPage.SaveAndContinue | frontend/src/pages/CreateYourselfPage.tsx:264-338 | Page state, request and stored avatar are as AfterSave says. The route /voices is returned exactly when an avatar is stored. Token, storage and voice are untouched. |

## Left out

- The asyncio machinery of the agent registry is not modelled: `create_task`, the runner, the LiveKit room connect and disconnect, `AvatarSession.start`, and the 0.5 s poll. A task is a status plus a launch number, and finishing on its own is a separate event.
- LiveAvatarAgent.AfterStop: whether the task is cancelled is decided from its state when the entry is removed. The source checks `done()` only after awaiting the room's disconnect, and a runner that finishes during that await is not cancelled. The model does not interleave the runner with `stop`, so it reports such a task as cancelled.
- LiveAvatarAgent.AgentManager.Stop: `disconnectFails` and `cancelFails` stand for the exceptions that `stop` suppresses. They have no effect on the outcome, so the model does not check what happens when they are raised.
- The code keeps a handle whose task has finished registered until `stop`, and `is_running` then answers false. The written specification describes no such state. The model follows the code.
- All HTTP is outside the model. Replies are inputs, and a request that raises or a body that does not parse is a "threw" input. This covers `requests`, `fetch`, the frontend/src/api.ts wrappers and the avatar-group proxy, which is assumed to forward HeyGen's body unchanged.
- JWT signing and checking is not modelled: `create_access_token` and `get_current_user`. Endpoints are assumed to have passed the token check. The selection store is keyed by the bearer string.
- Whisper transcription, the Ollama reply, the `/ask` endpoint and the HeyGen video payload are not modelled. Only the `video_id` read from HeyGen's reply is.
- The `lru_cache` memoisation of avatars and voices is not modelled.
- HeyGen bodies that parse as JSON but have the wrong shape are not modelled: a top-level array, a string or null `data` or list item, or a non-string `avatar_id`, `avatar_name` or voice `name`. In the source these raise outside the `try` of `fetch_one_avatar_from_group` (which ends at main.py:881), so the whole avatar loop fails; `get_cached_avatars` then returns [], the cache keeps it, and `/avatars` serves only the Abigail fallback. In the voice loop, which runs outside its `try`, they make `/voices` fail with the exception's own 500 instead of "Cannot load HeyGen voices." The model's bodies are always well shaped, so the `except` of `get_cached_avatars` is not modelled either.
- Whitespace is the six ASCII whitespace characters, and lower-casing maps A-Z only. Python's argument-less `split` and `strip` also treat the ASCII separators \x1c-\x1f as whitespace, which JavaScript's `trim` and `\s` do not. Python `split`, `strip` and `lower` and JavaScript `\s`, `trim` and `toLowerCase` also act on other Unicode characters.
- CreateYourself.GroupName counts characters, whereas JavaScript `slice(0, 64)` counts UTF-16 code units.
- BackendSession.QuestionStatusOf: a `data` value of JSON null, or an explicit null status, makes the endpoint raise. The model does not cover either case.
- BackendSession.ExtractVideoId treats ids as strings. Non-string JSON values are not modelled.
- React scheduling is not modelled: state updates are applied immediately, and rendering and CSS are left out. Pages redirect to /login when there is no token; that navigation is left out except for the ordered guard of the video chat page.
- Quiz.ApplyPreservesInv: the page invariant holds for the events the rendered page allows (`Enabled`). The quiz generator's reply is assumed to hold questions.
- TextChat.TextChatPage.Send: the two ids from `crypto.randomUUID` are inputs and are assumed fresh.
- VideoChat.ChatPage.PollTick runs only while the interval is set. Two callbacks in flight at once, when a status call takes longer than five seconds, are not modelled. The recording is a flag; MediaRecorder and microphone access are left out.
- CreateYourself: the form fields other than the name are not modelled. Neither is the body of the session-recording request, the 1.5 s pause between polls, logout, or the language toggle. The busy flags are kept, but overlapping clicks are not modelled.
- SubjectAvatars: a preview request's outcome is a function of its group id, so two presets in the same group see the same reply. The `console.error` logging is left out.
- The commented-out code of main.py, LoginPage.tsx, IntroPage.tsx and SubjectAvatarsPage.tsx is not modelled. Neither are the pages outside the core and the particle animation.
