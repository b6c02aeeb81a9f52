# Portfolio store and dashboard, modelled in Dafny

This project models the single-page design-portfolio app. A visitor logs in with a name and an email. The app then keeps one `UserData` document in the browser's local storage: the user, a list of projects, a timeline of entries, an about section and layout preferences. The dashboard tabs edit that document, and the public pages (home, timeline, portfolio, video gallery) display it.

The core is `StorageService` in `src/lib/storage.ts`. Every mutator reads the whole document and fails with "No user logged in" when there is none. It then prepends, merges or filters one list, and writes the whole document back. Around it sit the state transitions of the React components:

- the authentication context's session;
- the validation guards and local list updates of the dashboard tabs;
- the YouTube link matcher;
- the project card's cyclic image index;
- the upload and login guards;
- the derived views: top-three previews, a newest-first timeline, the carousel-to-grid layout fallback, and the player choice.

Layout of the model:

- `storage.dfy` (module `Storage`) holds the data model.
  - Local storage is a `Slot`: `Empty`, `Stored(document)` or `Corrupt`. A corrupt slot is one whose text does not parse.
  - Each mutator has a pure specification function over the slot, such as `SaveProjectOn`. It gives the returned value or thrown error together with the slot afterwards.
  - The class `StorageService` holds the slot as a field. Its methods are proved equal to those functions.
  - The properties the source promises are proved about the functions: prepend, first-match replace, filter, merge, and "no user, no write".
- `seqs.dfy` holds the list operations the code uses: `findIndex`, `filter` by id, `map` by id, and `slice(0, n)`.
- `chronology.dfy` holds the newest-first sort that three components apply to a copy of the timeline.
- One file per component holds that component as a class whose fields are its React state. Its handlers are methods with `modifies` frames.
  - The storage service and the authentication context are `const` references, as the singletons are in the app.
  - Pure updaters are functions with their own lemmas.

Inputs that the code reads from the environment are parameters of the model:

- `Date.now()` is `now`, `storeNow` or `localNow`.
- `generateId()` is `id` or `newId`.
- The result of the `FileReader` is `read`.
- `new Date(s).getTime()` is `dateKey`, a total map from a date string to an integer.
- Whether the undefined `updateVideos` call throws is `sinkThrows`.

## Model

| member | source | states |
|---|---|---|
| Storage.Read | src/lib/storage.ts:118-121 | the read yields no document exactly when the key is empty, the stored document exactly when one is stored, and the parse error exactly when the stored text is unreadable |
| Storage.StorageService.GetCurrentUser | src/lib/storage.ts:118-121 | returns what `Read` gives for the current slot |
| Storage.RequireUser | src/lib/storage.ts:161-162 | the read every mutator starts with succeeds exactly when a document is stored, and yields that document; an empty key gives "No user logged in" and an unreadable one the parse error |
| Storage.StorageService.RequireCurrentUser | src/lib/storage.ts:161-162 | agrees with `RequireUser` on the current slot |
| Storage.NewUserData | src/lib/storage.ts:124-142 | the new document carries the given username and email, the id "user-" followed by the clock reading `now`, and the same reading as createdAt; its projects, timeline, about and preferences are the sample ones |
| Storage.NewUserShape | src/lib/storage.ts:48-112 | a new user's document has the two sample projects and the two sample entries, in that order and with their ids; it has the sample about section and the layouts grid, masonry and sample content on |
| Storage.StorageService.constructor | src/lib/storage.ts:48-112 | the service starts on the given slot, and its sample is the module-level sample document for the clock reading at load time |
| Storage.StorageService.CreateUser | src/lib/storage.ts:124-142 | the slot holds the new user's document whatever it held before, and that document is returned |
| Storage.StorageService.SaveUserData | src/lib/storage.ts:145-147 | the slot holds exactly the given document |
| Storage.StorageService.ClearUserData | src/lib/storage.ts:150-152 | the slot is empty from any state, so a second clear is harmless |
| Storage.SaveReadClearScenario | src/lib/storage.ts:145-152 | a save then a read yields the saved document; a clear then a read yields none, and so does a second clear |
| Storage.PrependProject | src/lib/storage.ts:171 | the new project is at index 0 and the list grows by one; the earlier projects follow unchanged and in order, and the rest of the document is untouched |
| Storage.PrependEntry | src/lib/storage.ts:217 | the same for a timeline entry |
| Storage.MergeProject | src/lib/storage.ts:185-189 | id and createdAt are kept and updatedAt is the clock; each field given in the updates overrides, and each other field is kept |
| Storage.MergeEntry | src/lib/storage.ts:230-233 | id and createdAt are kept and no timestamp changes; each field given overrides, and empty updates leave the entry as it was |
| Storage.ReplaceProject | src/lib/storage.ts:182-191 | fails with "Project not found" exactly when no project has the id; otherwise only the first project with the id is replaced, by its merge with the updates, and the rest of the document is untouched |
| Storage.ReplaceEntry | src/lib/storage.ts:227-235 | fails with "Timeline entry not found" exactly when no entry has the id; otherwise only the first match is replaced, by its merge, and the rest of the document is untouched |
| Storage.DropProject | src/lib/storage.ts:202 | the projects kept are exactly the old ones with another id; nothing else changes, and an absent id leaves the document as it was |
| Storage.DropEntry | src/lib/storage.ts:245 | the entries kept are exactly the old ones with another id; nothing else changes, and an absent id leaves the document as it was |
| Storage.MergePreferences | src/lib/storage.ts:263-266 | each preference given overwrites and each other one is kept; empty updates change nothing |
| Storage.MergePreferencesIdempotent | src/lib/storage.ts:263-266 | merging the same updates twice gives what merging them once gives |
| Storage.DeleteProjectTwice | src/lib/storage.ts:198-204 | with distinct ids, deleting a present project shortens the list by one, and deleting it again changes nothing |
| Storage.SaveProjectOn | src/lib/storage.ts:160-175 | it fails exactly when no document is stored, and then writes nothing; otherwise the returned project is built from the input, the id and the clock, and the stored document is the old one with that project prepended |
| Storage.StorageService.SaveProject | src/lib/storage.ts:160-175 | its result and the new slot are those `SaveProjectOn` gives for the old slot |
| Storage.UpdateProjectOn | src/lib/storage.ts:178-195 | it fails exactly when no document is stored or no project has the id, and then writes nothing, with the matching error; otherwise it stores and returns the replacement `ReplaceProject` makes |
| Storage.StorageService.UpdateProject | src/lib/storage.ts:178-195 | its result and the new slot are those `UpdateProjectOn` gives for the old slot |
| Storage.DeleteProjectOn | src/lib/storage.ts:198-204 | it fails only when no document is stored; an absent id is no error, and the stored document becomes the filtered one |
| Storage.StorageService.DeleteProject | src/lib/storage.ts:198-204 | its result and the new slot are those `DeleteProjectOn` gives for the old slot |
| Storage.SaveEntryOn | src/lib/storage.ts:207-221 | it fails exactly when no document is stored, and then writes nothing; otherwise the new entry is returned and prepended to the stored timeline |
| Storage.StorageService.SaveTimelineEntry | src/lib/storage.ts:207-221 | its result and the new slot are those `SaveEntryOn` gives for the old slot |
| Storage.UpdateEntryOn | src/lib/storage.ts:223-239 | it fails exactly when no document is stored or no entry has the id, and then writes nothing; otherwise it stores and returns the replacement `ReplaceEntry` makes |
| Storage.StorageService.UpdateTimelineEntry | src/lib/storage.ts:223-239 | its result and the new slot are those `UpdateEntryOn` gives for the old slot |
| Storage.DeleteEntryOn | src/lib/storage.ts:241-247 | it fails only when no document is stored; an absent id is no error |
| Storage.StorageService.DeleteTimelineEntry | src/lib/storage.ts:241-247 | its result and the new slot are those `DeleteEntryOn` gives for the old slot |
| Storage.UpdateAboutOn | src/lib/storage.ts:250-256 | it fails exactly when no document is stored; otherwise only `about` changes, to the given section |
| Storage.StorageService.UpdateAbout | src/lib/storage.ts:250-256 | its result and the new slot are those `UpdateAboutOn` gives for the old slot |
| Storage.UpdatePreferencesOn | src/lib/storage.ts:259-269 | it fails exactly when no document is stored; otherwise only the preferences change, to their shallow merge with the updates |
| Storage.StorageService.UpdateLayoutPreferences | src/lib/storage.ts:259-269 | its result and the new slot are those `UpdatePreferencesOn` gives for the old slot |
| Storage.NoUserNoWrite | src/lib/storage.ts:160-269 | with nothing stored, each of the eight mutators throws "No user logged in" and leaves the key empty |
| Storage.UploadImage | src/lib/storage.ts:272-285 | succeeds exactly when the reader produced text, and returns that text; a non-text result is "Failed to convert image to base64", and a reader error is passed on |
| Seqs.FindIndex | src/lib/storage.ts:182 | `findIndex`: no index exactly when no element has the id; otherwise the index of the first element that has it |
| Seqs.RemoveId | src/lib/storage.ts:202 | filter by id: the elements kept are exactly those with another id; the length drops by the number of matches, and the list is unchanged when the id is absent |
| Seqs.RemoveIdAppend | src/lib/storage.ts:202 | filtering a concatenation is concatenating the filtered halves, so the surviving elements keep their order |
| Seqs.RemoveIdIdempotent | src/lib/storage.ts:202 | filtering twice by the same id gives what filtering once gives |
| Seqs.CountDistinct | src/lib/storage.ts:202 | in a list with distinct ids, an id occurs once if present and otherwise not at all |
| Seqs.RemovePresentDistinct | src/lib/storage.ts:198-204 | with distinct ids, deleting a present id removes exactly one element and leaves no element with that id |
| Seqs.MapId | src/components/dashboard/ProjectsTab.tsx:133-137 | map by id: the length is kept, each element with the id is edited, and each other element is unchanged |
| Seqs.Take | src/pages/Index.tsx:15 | `slice(0, n)`: a prefix of length n, or the whole list when it is shorter |
| Chronology.Insert | src/pages/Timeline.tsx:18-20 | inserting into a newest-first list keeps it newest first and adds exactly the new entry |
| Chronology.SortNewestFirst | src/pages/Timeline.tsx:18-20 | the sorted copy is a permutation of the timeline, newest date first |
| Chronology.SortKeepsSorted | src/pages/Timeline.tsx:18-20 | a list already newest first is its own sorted copy |
| Chronology.NewestPrefix | src/pages/Index.tsx:16-19 | no entry left out of the first n of the sorted copy is newer than an entry kept |
| Auth.AuthProvider.constructor | src/context/AuthContext.tsx:18-19 | the session starts with no document and loading |
| Auth.AuthProvider.Mount | src/context/AuthContext.tsx:23-41 | the session adopts the stored document if one can be read, and otherwise keeps its state; loading ends in every case |
| Auth.AuthProvider.UpdateUserData | src/context/AuthContext.tsx:44-48 | the session and the storage slot both become the given document |
| Auth.AuthProvider.Login | src/context/AuthContext.tsx:59-86 | a stored document becomes the session unchanged, and the username and email are ignored; an empty key gets the new user's document in both session and storage; an unreadable key changes nothing |
| Auth.AuthProvider.Logout | src/context/AuthContext.tsx:88-92 | the key is removed and the session is empty, so it is no longer authenticated (the flag is `!!userData`, line 111) |
| Auth.FirstLoginScenario | src/context/AuthContext.tsx:59-92 | from an empty key, a login stores the new user's document; a project added and a sample project deleted leave the new project first and the other sample after it; after logout the read yields none |
| Auth.DeleteSampleScenario | src/lib/storage.ts:198-204 | deleting the first sample project from a new project followed by the two samples leaves the new project and the second sample, in that order |
| Login.CheckLogin | src/components/LoginForm.tsx:25-41 | missing fields exactly when a field is empty; an invalid email exactly when both are given and the email has no '@'; accepted exactly when both are given and the email has an '@', so the field check comes first |
| Login.LoginForm.constructor | src/components/LoginForm.tsx:11-12 | both fields start empty and no navigation has happened |
| Login.LoginForm.Render | src/components/LoginForm.tsx:17-20 | an authenticated visitor is sent to the dashboard and the form is not shown; otherwise it is shown |
| Login.LoginForm.SetUsername | src/components/LoginForm.tsx:56 | only the username changes, to the typed value |
| Login.LoginForm.SetEmail | src/components/LoginForm.tsx:67 | only the email changes, to the typed value |
| Login.LoginForm.Submit | src/components/LoginForm.tsx:22-45 | a rejected form changes neither session, storage nor route; an accepted one logs in as `Login` states and then navigates to the dashboard |
| Upload.CheckFile | src/components/ImageUpload.tsx:29-47 | a non-image type is rejected whatever the size; an image is too large exactly when over 5 MiB; a file is accepted exactly when it is an image of at most 5 MiB |
| Upload.SizeBoundary | src/components/ImageUpload.tsx:39-47 | an image of exactly 5242880 bytes is accepted and one byte more is too large; a PDF is not an image |
| Upload.ImageUpload.constructor | src/components/ImageUpload.tsx:19-20 | not uploading, and the preview is the current image |
| Upload.ImageUpload.HandleFileChange | src/components/ImageUpload.tsx:24-67 | no file or a rejected file changes nothing; on success the preview and the parent receive the same URL; on a failed read neither changes; the uploading flag is off again after every attempt |
| Upload.ImageUpload.RemoveImage | src/components/ImageUpload.tsx:73-79 | the preview is cleared and the parent receives the empty string |
| Card.NextImageIndex | src/components/ProjectCard.tsx:23-27 | for an index in range, the next index is in range and is one more modulo the image count, so the last wraps to the first |
| Card.PrevImageIndex | src/components/ProjectCard.tsx:29-33 | for an index in range, the previous index is in range and is one less modulo the image count, so the first wraps to the last |
| Card.NextPrevInverse | src/components/ProjectCard.tsx:23-33 | previous after next, and next after previous, return to the starting index |
| Card.StepNextIsModular | src/components/ProjectCard.tsx:23-27 | k presses of next move k places round the ring |
| Card.FullTurn | src/components/ProjectCard.tsx:23-27 | as many presses of next as there are images return to the starting index |
| Card.ProjectCard.constructor | src/components/ProjectCard.tsx:20-21 | the modal is closed and the first image is current |
| Card.ProjectCard.Open | src/components/ProjectCard.tsx:47 | clicking the tile opens the modal |
| Card.ProjectCard.Close | src/components/ProjectCard.tsx:62 | the modal closes |
| Card.ProjectCard.NextImage | src/components/ProjectCard.tsx:23-27 | the index becomes the next index and stays in range |
| Card.ProjectCard.PrevImage | src/components/ProjectCard.tsx:29-33 | the index becomes the previous index and stays in range |
| Card.ProjectCard.SelectImage | src/components/ProjectCard.tsx:99-105 | clicking dot idx makes idx the current index |
| ProjectsDashboard.FinalImages | src/components/dashboard/ProjectsTab.tsx:119 | the saved image list is never empty: the chosen images if there are any, else the cover alone |
| ProjectsDashboard.AddImage | src/components/dashboard/ProjectsTab.tsx:174-178 | only a non-empty URL not yet in the list is appended, so a list without duplicates keeps none; membership grows by that URL alone |
| ProjectsDashboard.RemoveImageAt | src/components/dashboard/ProjectsTab.tsx:180-182 | exactly the element at the index goes and the others keep their order; an index out of range changes nothing |
| ProjectsDashboard.SeedImages | src/components/dashboard/ProjectsTab.tsx:185-191 | the cover seeds an empty list as its only image, and a non-empty list is left alone |
| ProjectsDashboard.LocalEditMatchesStorage | src/components/dashboard/ProjectsTab.tsx:122-137 | with distinct ids and one clock reading, the local map-by-id edit equals the stored list after `updateProject` |
| ProjectsDashboard.ProjectsTab.constructor | src/components/dashboard/ProjectsTab.tsx:34-46 | empty list and empty form, no dialog open, not editing |
| ProjectsDashboard.ProjectsTab.Load | src/components/dashboard/ProjectsTab.tsx:50-54 | with a document the list becomes its projects, and without one it is kept |
| ProjectsDashboard.ProjectsTab.ResetForm | src/components/dashboard/ProjectsTab.tsx:56-64 | every form field is empty, no project is current, and edit mode is off |
| ProjectsDashboard.ProjectsTab.OpenNewProject | src/components/dashboard/ProjectsTab.tsx:197 | the form is reset and the dialog opens |
| ProjectsDashboard.ProjectsTab.EditProject | src/components/dashboard/ProjectsTab.tsx:66-75 | the form holds the project's fields, the project is current, edit mode is on and the dialog is open |
| ProjectsDashboard.ProjectsTab.ConfirmDelete | src/components/dashboard/ProjectsTab.tsx:77-80 | the id is remembered and the delete dialog opens |
| ProjectsDashboard.ProjectsTab.DeleteProject | src/components/dashboard/ProjectsTab.tsx:82-105 | no id does nothing; otherwise storage is as `deleteProject` leaves it, the local list is filtered only if that did not throw, and the dialog closes either way |
| ProjectsDashboard.ProjectsTab.Submit | src/components/dashboard/ProjectsTab.tsx:107-172 | a missing field makes no storage call and changes nothing; otherwise it updates (edit mode) or saves (new), as `SubmitEdit` and `SubmitNew` state |
| ProjectsDashboard.ProjectsTab.SubmitEdit | src/components/dashboard/ProjectsTab.tsx:122-137 | storage is as `updateProject` leaves it; on success only the local project with the id is edited, the dialog closes and the form resets; on a throw the tab is unchanged |
| ProjectsDashboard.ProjectsTab.SubmitNew | src/components/dashboard/ProjectsTab.tsx:144-154 | storage is as `saveProject` leaves it; on success the returned project heads the local list, the dialog closes and the form resets; on a throw the tab is unchanged |
| ProjectsDashboard.ProjectsTab.AddProjectImage | src/components/dashboard/ProjectsTab.tsx:174-178 | the image list becomes `AddImage` of the old one |
| ProjectsDashboard.ProjectsTab.RemoveProjectImage | src/components/dashboard/ProjectsTab.tsx:180-182 | the image list becomes `RemoveImageAt` of the old one |
| ProjectsDashboard.ProjectsTab.SetCoverImage | src/components/dashboard/ProjectsTab.tsx:185-191 | the cover is set, and the image list becomes `SeedImages` of the old one |
| TimelineDashboard.LocalEntryEditMatchesStorage | src/components/dashboard/TimelineTab.tsx:120-134 | with distinct ids, the local map-by-id edit equals the stored timeline after `updateTimelineEntry` |
| TimelineDashboard.PrependedOlderEntryUnsorts | src/components/dashboard/TimelineTab.tsx:150 | prepending an entry older than the head leaves a list that is not newest first |
| TimelineDashboard.TimelineTab.constructor | src/components/dashboard/TimelineTab.tsx:33-44 | empty list and empty form, no dialog open, not editing |
| TimelineDashboard.TimelineTab.Load | src/components/dashboard/TimelineTab.tsx:48-57 | with a document the entries are a newest-first permutation of its timeline, and without one they are kept |
| TimelineDashboard.TimelineTab.ResetForm | src/components/dashboard/TimelineTab.tsx:59-66 | every field is empty, no entry is current, and edit mode is off |
| TimelineDashboard.TimelineTab.OpenNewEntry | src/components/dashboard/TimelineTab.tsx:174 | the form is reset and the dialog opens |
| TimelineDashboard.TimelineTab.EditEntry | src/components/dashboard/TimelineTab.tsx:68-76 | the form holds the entry's fields, the entry is current, edit mode is on and the dialog is open |
| TimelineDashboard.TimelineTab.ConfirmDelete | src/components/dashboard/TimelineTab.tsx:78-81 | the id is remembered and the delete dialog opens |
| TimelineDashboard.TimelineTab.DeleteEntry | src/components/dashboard/TimelineTab.tsx:83-106 | no id does nothing; otherwise storage is as `deleteTimelineEntry` leaves it, the local list is filtered only if that did not throw, and the dialog closes either way |
| TimelineDashboard.TimelineTab.Submit | src/components/dashboard/TimelineTab.tsx:108-168 | a missing field makes no storage call and changes nothing; otherwise it updates (edit mode) or saves (new), as `SubmitEdit` and `SubmitNew` state |
| TimelineDashboard.TimelineTab.SubmitEdit | src/components/dashboard/TimelineTab.tsx:120-134 | storage is as `updateTimelineEntry` leaves it; on success only the local entry with the id is edited and the form resets; on a throw the tab is unchanged |
| TimelineDashboard.TimelineTab.SubmitNew | src/components/dashboard/TimelineTab.tsx:141-150 | storage is as `saveTimelineEntry` leaves it; on success the new entry heads the local list whatever its date; on a throw the tab is unchanged |
| Gallery.PlayerFor | src/components/VideoGallery.tsx:87-113 | a YouTube URL always gets an iframe, even when marked local; a video element is chosen exactly for a non-YouTube URL marked local |
| Gallery.YouTubeAnywhere | src/components/VideoGallery.tsx:31-33 | a URL holding "youtube.com" anywhere is a YouTube URL, and so is one holding "youtu.be" anywhere |
| Gallery.YouTubeUrlPlaysInFrame | src/components/VideoGallery.tsx:87-95 | a video whose address holds "youtube.com" plays in an iframe |
| Gallery.VideoGallery.constructor | src/components/VideoGallery.tsx:21 | no video is selected |
| Gallery.VideoGallery.Select | src/components/VideoGallery.tsx:23-25 | the clicked video is selected and the modal is open |
| Gallery.VideoGallery.Close | src/components/VideoGallery.tsx:27-29 | the selection is cleared and the modal is closed |
| VideoDashboard.FirstLineEnd | src/components/dashboard/VideoGalleryTab.tsx:186 | the reach of `^.*`: every character before it is not a line terminator, and the one at it is |
| VideoDashboard.LastMarker | src/components/dashboard/VideoGalleryTab.tsx:186 | the last position at or before a bound where one of the six markers starts; none exactly when no marker starts there |
| VideoDashboard.RunEnd | src/components/dashboard/VideoGalleryTab.tsx:186 | the second group's greedy run of characters other than '#', '&' and '?' |
| VideoDashboard.MatchYoutube | src/components/dashboard/VideoGalleryTab.tsx:186-187 | the pattern matches exactly when a marker starts on the first line; the marker used is the last such, and the captured run is maximal and free of '#', '&' and '?' |
| VideoDashboard.MatchIsLastMarker | src/components/dashboard/VideoGalleryTab.tsx:186-187 | the match is fixed by the last marker before the first line terminator |
| VideoDashboard.ExtractYoutubeVideoId | src/components/dashboard/VideoGalleryTab.tsx:185-189 | an id exactly when the captured run is 11 characters long; the id is that run, and so has no '#', '&' or '?' |
| VideoDashboard.LinkYieldsId | src/components/dashboard/VideoGalleryTab.tsx:185-189 | a one-line link whose last marker ends right before a plain id (11 characters, none of them '#', '&', '?', '/' or a line break, and no "v=") yields that id when the rest is a link tail (nothing, or '#', '&' or '?' and then no '/', "v=" or line break) |
| VideoDashboard.ShortLinkYieldsId | src/components/dashboard/VideoGalleryTab.tsx:185-189 | a `https://youtu.be/` link yields its id when the id is plain and is followed by a link tail |
| VideoDashboard.WatchLinkYieldsId | src/components/dashboard/VideoGalleryTab.tsx:185-189 | a `https://www.youtube.com/watch?v=` link yields its id when the id is plain and is followed by a link tail |
| VideoDashboard.EmbedLinkYieldsId | src/components/dashboard/VideoGalleryTab.tsx:194-197 | an embed URL the handler builds from a plain id yields that id again, so pasting it back gives the same embed URL |
| VideoDashboard.LongerRunYieldsNone | src/components/dashboard/VideoGalleryTab.tsx:185-189 | `https://youtu.be/dQw4w9WgXcQabc` yields no id: the run after the marker is 14 characters long |
| VideoDashboard.LaterMarkerWins | src/components/dashboard/VideoGalleryTab.tsx:185-189 | in a watch link followed by `&v=` and a run with no '#', '&', '?', '/', '=' or line break, the later marker is the one used: the link yields the run when it is 11 characters long and no id otherwise, whatever the first id was |
| VideoDashboard.MarkerInIdYieldsNone | src/components/dashboard/VideoGalleryTab.tsx:185-197 | the embed URL built from the 11-character run `abcv/efghij` yields no id when pasted back: the "v/" inside it is the last marker |
| VideoDashboard.OtherLinkExample | src/components/dashboard/VideoGalleryTab.tsx:202-204 | a Vimeo link yields no id, so it is used as the embed URL unchanged |
| VideoDashboard.EmbedUrlPlaysInFrame | src/components/dashboard/VideoGalleryTab.tsx:197 | a video whose embed URL the handler built plays in an iframe in the gallery |
| VideoDashboard.VideoGalleryTab.constructor | src/components/dashboard/VideoGalleryTab.tsx:33-44 | empty list and empty form, no dialog open, nothing handed on |
| VideoDashboard.VideoGalleryTab.Load | src/components/dashboard/VideoGalleryTab.tsx:48-75 | the document never holds videos, so the list is the two sample videos; they are handed to `updateVideos` only when there is a document |
| VideoDashboard.VideoGalleryTab.ResetForm | src/components/dashboard/VideoGalleryTab.tsx:77-84 | every field is empty, no video is current, and edit mode is off |
| VideoDashboard.VideoGalleryTab.OpenNewVideo | src/components/dashboard/VideoGalleryTab.tsx:211 | the form is reset and the dialog opens |
| VideoDashboard.VideoGalleryTab.EditVideo | src/components/dashboard/VideoGalleryTab.tsx:86-94 | the form holds the video's fields, the video is current, edit mode is on and the dialog is open |
| VideoDashboard.VideoGalleryTab.ConfirmDelete | src/components/dashboard/VideoGalleryTab.tsx:96-99 | the id is remembered and the delete dialog opens |
| VideoDashboard.VideoGalleryTab.YoutubeUrlChange | src/components/dashboard/VideoGalleryTab.tsx:192-205 | with an id, the embed URL is the embed prefix followed by the id, and the thumbnail is set to the `maxresdefault` image only if it was empty; without an id, the embed URL is the raw input and the thumbnail is untouched |
| VideoDashboard.VideoGalleryTab.DeleteVideo | src/components/dashboard/VideoGalleryTab.tsx:101-123 | no id does nothing; otherwise the list is filtered by the id and handed on, and the dialog closes |
| VideoDashboard.VideoGalleryTab.Submit | src/components/dashboard/VideoGalleryTab.tsx:125-182 | a missing title, description or embed URL changes nothing, and the thumbnail is optional; otherwise edit mode edits only the video with the id, and a new video with id "video-" followed by the clock is prepended; the list is handed on, and the dialog closes and the form resets unless that call threw |
| AboutDashboard.SaveAboutOn | src/components/dashboard/AboutTab.tsx:48-60 | as written: a failed read changes nothing; with a session, both the session and storage become the session's copy with the new section |
| AboutDashboard.AboutSaveDropsNewProject | src/components/dashboard/AboutTab.tsx:54-59 | a project stored after the session's copy was taken is lost from storage by the save |
| AboutDashboard.SaveAboutFreshOn | src/components/dashboard/AboutTab.tsx:48-60 | as intended: storage is what `updateAbout` writes, and the session becomes that document |
| AboutDashboard.FreshAboutSaveKeepsNewProject | src/components/dashboard/AboutTab.tsx:48-60 | with the intended save, the stored project survives, the section is the new one, and the session agrees with storage |
| AboutDashboard.AboutTab.constructor | src/components/dashboard/AboutTab.tsx:16-22 | an empty vertical section, with preview and modal off |
| AboutDashboard.AboutTab.Load | src/components/dashboard/AboutTab.tsx:27-33 | with a session document the section becomes its about section, and without one it is kept |
| AboutDashboard.AboutTab.SetContent | src/components/dashboard/AboutTab.tsx:35-37 | only the content changes |
| AboutDashboard.AboutTab.SetImage | src/components/dashboard/AboutTab.tsx:39-42 | only the image changes |
| AboutDashboard.AboutTab.SetLayout | src/components/dashboard/AboutTab.tsx:44-46 | only the layout changes |
| AboutDashboard.AboutTab.TogglePreview | src/components/dashboard/AboutTab.tsx:89 | the preview flag flips |
| AboutDashboard.AboutTab.SetModalOpen | src/components/dashboard/AboutTab.tsx:78-84 | the modal's open state is the value given |
| AboutDashboard.AboutTab.Save | src/components/dashboard/AboutTab.tsx:48-74 | session and storage become what `SaveAboutOn` gives, so a throw from `updateAbout` leaves the session as it was |
| AboutDashboard.AboutTab.SaveFresh | src/components/dashboard/AboutTab.tsx:48-60 | session and storage become what `SaveAboutFreshOn` gives |
| SettingsDashboard.ApplySettings | src/components/dashboard/SettingsTab.tsx:71-83 | projects, timeline, about, user id and createdAt are kept; the settings read back from the result are exactly the ones applied |
| SettingsDashboard.ApplyOwnSettings | src/components/dashboard/SettingsTab.tsx:35-83 | saving the settings just loaded rebuilds the same document |
| SettingsDashboard.ApplySettingsTwice | src/components/dashboard/SettingsTab.tsx:78-82 | the preferences are replaced, not merged: a second save wholly overrides the first |
| SettingsDashboard.SaveSettingsOn | src/components/dashboard/SettingsTab.tsx:67-91 | as written: without a session nothing is written; with one, storage becomes the session's copy with the settings applied |
| SettingsDashboard.SettingsSaveDropsNewProject | src/components/dashboard/SettingsTab.tsx:85 | a project stored after the session's copy was taken is lost from storage by the save |
| SettingsDashboard.SaveSettingsFreshOn | src/components/dashboard/SettingsTab.tsx:67-85 | as intended: the stored document with the settings applied is written, and the session becomes it; no session or no readable document changes nothing |
| SettingsDashboard.FreshSettingsSaveKeepsNewProject | src/components/dashboard/SettingsTab.tsx:67-85 | with the intended save, the stored project survives and the session agrees with storage |
| SettingsDashboard.SettingsTab.constructor | src/components/dashboard/SettingsTab.tsx:24-31 | empty name and email with the default layouts grid and masonry and sample content on; the reset dialog is closed |
| SettingsDashboard.SettingsTab.Load | src/components/dashboard/SettingsTab.tsx:35-45 | with a session document the settings are its username, email and three preferences, and without one they are kept |
| SettingsDashboard.SettingsTab.SetUsername | src/components/dashboard/SettingsTab.tsx:47-49 | only the username changes |
| SettingsDashboard.SettingsTab.SetEmail | src/components/dashboard/SettingsTab.tsx:51-53 | only the email changes |
| SettingsDashboard.SettingsTab.SetProjectLayout | src/components/dashboard/SettingsTab.tsx:55-57 | only the project layout changes |
| SettingsDashboard.SettingsTab.SetTimelineLayout | src/components/dashboard/SettingsTab.tsx:59-61 | only the timeline layout changes |
| SettingsDashboard.SettingsTab.SetShowSampleContent | src/components/dashboard/SettingsTab.tsx:63-65 | only the sample-content switch changes |
| SettingsDashboard.SettingsTab.SaveSettings | src/components/dashboard/SettingsTab.tsx:67-99 | storage becomes what `SaveSettingsOn` gives, and the session is not touched |
| SettingsDashboard.SettingsTab.SaveSettingsFresh | src/components/dashboard/SettingsTab.tsx:67-85 | session and storage become what `SaveSettingsFreshOn` gives |
| SettingsDashboard.SettingsTab.OpenResetDialog | src/components/dashboard/SettingsTab.tsx:210 | the reset dialog opens |
| SettingsDashboard.SettingsTab.ResetPortfolio | src/components/dashboard/SettingsTab.tsx:101-103 | the session is empty, the stored document is removed, and the dialog closes |
| Home.RecentProjects | src/pages/Index.tsx:15 | at most three projects, the first ones in stored order; none without a document |
| Home.RecentEntries | src/pages/Index.tsx:16-19 | at most three entries, newest first, drawn from the timeline; none without a document |
| Home.RecentEntriesAreNewest | src/pages/Index.tsx:16-19 | no timeline entry left out of the preview is newer than one shown |
| Home.HeroLinks | src/pages/Index.tsx:37-62 | the first link goes to the dashboard when authenticated and to the login page otherwise; the second always goes to the portfolio |
| Home.NewUserHome | src/pages/Index.tsx:70-74 | a new user's home page previews both sample projects and shows the about preview |
| ListPage.DisplayLayout | src/pages/Timeline.tsx:23-25 | the page layout is masonry exactly when the preference is masonry; grid and carousel both show as the grid |
| ListPage.LoginPromptIffNoDocument | src/pages/Timeline.tsx:29 | with the session's own flag, the login prompt shows exactly when there is no document |
| TimelinePage.TimelineView.constructor | src/pages/Timeline.tsx:12-13 | no entries, masonry layout |
| TimelinePage.TimelineView.Load | src/pages/Timeline.tsx:15-27 | with a document the entries are a newest-first permutation of its timeline and the layout is its timeline preference, with carousel as grid; without one both are kept |
| TimelinePage.TimelineView.SetLayout | src/pages/Timeline.tsx:56-63 | the layout is the one clicked |
| PortfolioPage.ShownVideos | src/pages/Portfolio.tsx:130-132 | the videos tab shows the same three sample videos, all on the one YouTube embed, whatever the session holds |
| PortfolioPage.PortfolioVideosPlayInFrame | src/pages/Portfolio.tsx:13-35 | every portfolio video plays in an iframe |
| PortfolioPage.PortfolioView.constructor | src/pages/Portfolio.tsx:39-41 | no projects, grid layout, projects tab active |
| PortfolioPage.PortfolioView.Load | src/pages/Portfolio.tsx:43-50 | with a document the projects are its projects in stored order and the layout is its project preference, with carousel as grid; without one both are kept |
| PortfolioPage.PortfolioView.SetLayout | src/pages/Portfolio.tsx:83-97 | on the projects tab, where the buttons are shown, the layout is the one clicked |
| PortfolioPage.PortfolioView.SetActiveTab | src/pages/Portfolio.tsx:76 | the active tab is the one chosen |

## Left out

- Local storage and JSON. The key's content is the `Slot` field, and the JSON round trip is taken as lossless. Unparseable text is the `Corrupt` slot. The code makes `JSON.parse` throw there, although the storage API might be read as returning none; the model follows the code. `getCurrentUser` returns the parse error, every mutator passes it on, and the callers catch it.
- Sharing of the sample content. `createUser` puts the module's own `sampleData` arrays into the new document by reference. Nothing mutates them: every `unshift` runs on a freshly parsed document, and every other update builds a new value. The documents here are values, so the model has no sharing and loses nothing by it.
- Write failures. `localStorage.setItem` can throw, for instance when the quota is exceeded, which a few images of up to 5 MB stored as base64 text can reach. Every write in the model succeeds, so no operation here reports a persistence failure, and `Storage.StorageService.SaveUserData` and the other writes promise a new slot unconditionally.
- Clocks, randomness and date parsing. `Date.now()`, `generateId()` and `new Date(...).getTime()` are parameters, and id uniqueness is not claimed. `createUser` reads the clock twice, once for the id and once for createdAt, and `saveProject` reads it twice too, for createdAt and updatedAt. The model gives each pair of readings one value, and gives `updateProject` and the projects tab's local edit separate ones (`storeNow` and `localNow`). Unparseable dates, whose time value is NaN, are not modelled: `dateKey` is a total map to integers.
- Chronology.SortNewestFirst: does not state that the sort is stable (that entries with equal dates keep their input order), which the engine's sort guarantees; only order and permutation are proved.
- `Partial` updates carrying explicit `undefined` values. The model's updates hold `None` or a value. A key present with `undefined` would overwrite a field with `undefined`, and that is not modelled.
- `uploadImage`'s asynchronous `FileReader` and the `await` in the upload handler. The reader's outcome is the `read` parameter, and the handler is modelled as one step.
- `storageService.updateVideos`, which the video tab calls but the storage service does not define; the document has no `videos` field either. Each list handed to it is recorded in `sent` and given no meaning. As the code stands, the call throws a `TypeError`. The load effect does not catch it. The submit and delete handlers do catch it, after the list has already been replaced; `sinkThrows` covers both outcomes.
- VideoDashboard.ShortLinkYieldsId: promises the id only for a plain id and a link tail. Other links can yield another result or none, as `LongerRunYieldsNone` shows for extra id characters after the id.
- VideoDashboard.WatchLinkYieldsId: promises the id only for a plain id and a link tail. A tail holding a later marker moves the match, as `LaterMarkerWins` shows.
- VideoDashboard.EmbedLinkYieldsId: promises the round trip only for plain ids. The handler also builds embed URLs from runs holding '/', "v=" or line breaks, and some of those do not round-trip, as `MarkerInIdYieldsNone` shows; the exact set of 11-character runs that do is not characterised.
- The JavaScript regular-expression engine in general. The one pattern of `extractYoutubeVideoId` is matched by hand, with its backtracking made explicit.
- Strings are sequences of characters, with no Unicode handling. `\w` and the line terminators are the ASCII word characters and the four JavaScript line terminators.
- Rendering, toasts, dialogs, carousels, `console` logging, routing and the React effect schedule. Effects are the `Load` methods, and state batching is not modelled.
- `isAuthenticated` is a predicate with no contract of its own. It is the `!!userData` flag, and `Logout` states that the flag goes false.
- `Home.ShowPreviews` and `Home.ShowAboutPreview` are the render conditions, kept as plain predicates; `NewUserHome` uses the second.
- The old-data fallback for the about image on the home page.
- On the portfolio page, the `TabsContent` blocks are rendered outside their `Tabs` container. How the UI library then shows them is not modelled. The tab state and the fixed video list are.
- Sorting and slicing run on copies in the code, so the stored order is unchanged. In the model every list is a value, so this holds by construction and needs no lemma.

## Findings

| source | as written | input that shows it | evidently intended | confidence | as-written member | corrected member |
|---|---|---|---|---|---|---|
| src/components/dashboard/SettingsTab.tsx:67-85 | the save writes the session's copy of the document, with the settings applied, over what storage holds; the session copy does not know about projects the projects tab has since saved to storage only | log in, add a project on the projects tab, then save settings: the stored document no longer has the new project | apply the settings to the document storage holds now, and give the session the result | not executed | SettingsDashboard.SettingsSaveDropsNewProject | SettingsDashboard.FreshSettingsSaveKeepsNewProject |
| src/components/dashboard/AboutTab.tsx:48-60 | after `updateAbout`, `updateUserData` writes the session's copy with the new section over storage, dropping whatever was stored since that copy was taken | log in, add a project on the projects tab, then save the about section: the stored document no longer has the new project | let the session take the document `updateAbout` wrote | not executed | AboutDashboard.AboutSaveDropsNewProject | AboutDashboard.FreshAboutSaveKeepsNewProject |
