# Presto presentation store — a Dafny model

Presto is a slide-deck editor that runs in the browser. This project models the
client side of its store:

- The **store providers** keep a map from presentation id to presentation. They
  send each change to the backend and commit it locally only once the backend
  accepts it. There are two: `StoreProvider` and the older `useStore` hook.
- The **authentication provider** keeps one token. Login and signup set it,
  logout clears it. The login and signup pages validate their forms first.
- The **slide control bar** handles slide deletion and moving between slides,
  in the editor and in preview.
- The **left side bar** handles the title edit and the thumbnail upload.
- The **four element editors** (text, image, video, code) are forms. Each one
  filters keystrokes, loads an existing element in edit mode, validates its
  fields in a fixed order and sends a create or an update request.
- The **slide-setting and edit-presentation modals** edit a font and a
  background (solid colour, gradient or image), plus a title and description.

Modelling choices:

- Values of the document (presentations, slides, elements, backgrounds) are
  datatypes in `document.dfy`.
- Every React component or hook whose state changes is a `class`. Each
  `useState` becomes a field and each handler a method that states the whole
  new state.
- The validation, request building and URL logic that the handlers run is
  written as pure functions. Lemmas prove properties of those functions.
- Remote calls, `uuid`, `Date.now`, `FileReader` and `parseFloat` become
  parameters. A remote outcome is a `remoteOk: bool`.
- The store operations that the editors call, but whose bodies are not part of
  this model, are returned as `StoreRequest` values.
- JavaScript numbers are integers. `parseInt`, `toString`, `trim`,
  `includes`, `replace` and the digit filters are modelled in `js_string.dfy`.

The main results:

- Each store update commits exactly the map it sent, and only on success.
  Deleting undoes a create, and updating is idempotent.
- Each element editor submits an invalid form as the *first* failing check,
  in source order.
- An existing element, loaded into its editor and submitted unchanged, is sent
  back unchanged exactly when it is valid (`EditRoundTrip`).
- A loaded background is rebuilt unchanged by the modals.
- `toEmbdedUrl` is idempotent on embed URLs and on URLs with a `v` parameter, and not on every other URL.

## Model

| member | source | states |
|---|---|---|
| Spread.Assign | frontend/src/hooks/StoreProvider.tsx:98-101 | `{...m, [k]: v}` has the keys of `m` plus `k`, maps `k` to `v` and keeps every other entry |
| Spread.Omit | frontend/src/hooks/StoreProvider.tsx:81 | the rest-destructure drops exactly `k` and keeps every other entry; it changes nothing when `k` is absent |
| Spread.AssignOverwrite | frontend/src/hooks/StoreProvider.tsx:98-101 | a second assignment to a key overrides the first, so assigning the same value twice is assigning it once |
| Spread.OmitAfterAssign | frontend/src/hooks/StoreProvider.tsx:81 | dropping a key just assigned gives the original map without that key |
| StoreProvider.NewPresentation | frontend/src/hooks/StoreProvider.tsx:38-49 | a new presentation has the given id, name, description and time, a white background, no thumbnail, and one empty Roboto slide with the default background |
| StoreProvider.CreatePresentationStore | frontend/src/hooks/StoreProvider.tsx:50-60 | the new store adds the new presentation under its id and keeps every other presentation |
| StoreProvider.DeletePresentationStore | frontend/src/hooks/StoreProvider.tsx:76-93 | the new store drops exactly that id and keeps the rest |
| StoreProvider.UpdatePresentationStore | frontend/src/hooks/StoreProvider.tsx:95-113 | the new store maps the id to the given presentation and keeps the rest |
| StoreProvider.CreateSlideStore | frontend/src/hooks/StoreProvider.tsx:126-132 | defined iff the presentation exists; appends one empty slide to it and changes nothing else |
| StoreProvider.UpdatePresentationIdempotent | frontend/src/hooks/StoreProvider.tsx:95-113 | repeating an update changes nothing |
| StoreProvider.DeleteUndoesCreate | frontend/src/hooks/StoreProvider.tsx:35-93 | deleting a just-created presentation gives back the store without that id, and exactly the old store when the id was new |
| StoreProvider.NewSlides | frontend/src/hooks/StoreProvider.tsx:126-132 | the slides created for a list of ids are one empty slide per id, in order |
| StoreProvider.CreateSlidesAppends | frontend/src/hooks/StoreProvider.tsx:115-144 | successive slide creations on an existing presentation all succeed and amount to one assignment of that presentation with the new slides appended in call order |
| StoreProvider.PresentationStore.constructor | frontend/src/hooks/StoreProvider.tsx:20-21 | the store starts empty and loading |
| StoreProvider.PresentationStore.InitialFetch | frontend/src/hooks/StoreProvider.tsx:24-33 | a successful fetch installs the fetched store and ends loading; a failed one changes nothing |
| StoreProvider.PresentationStore.Persist | frontend/src/hooks/StoreProvider.tsx:61-71 | the new store is committed iff the remote save succeeds; loading ends either way |
| StoreProvider.PresentationStore.CreatePresentation | frontend/src/hooks/StoreProvider.tsx:35-74 | sends `CreatePresentationStore` of the old store and commits exactly that on success |
| StoreProvider.PresentationStore.DeletePresentation | frontend/src/hooks/StoreProvider.tsx:76-93 | sends `DeletePresentationStore` of the old store and commits exactly that on success |
| StoreProvider.PresentationStore.UpdatePresentation | frontend/src/hooks/StoreProvider.tsx:95-113 | sends `UpdatePresentationStore` of the old store and commits exactly that on success |
| StoreProvider.PresentationStore.CreateSlide | frontend/src/hooks/StoreProvider.tsx:115-144 | sends `CreateSlideStore` when the presentation exists; commits it on success; an unknown id sends nothing and leaves loading on |
| LegacyStore.CreatePresentationStore | frontend/src/hooks/useStore.tsx:57-65 | adds a presentation with no slides under its id and keeps the rest |
| LegacyStore.LegacyStoreProvider.constructor | frontend/src/hooks/useStore.tsx:42 | the store starts empty |
| LegacyStore.LegacyStoreProvider.InitialFetch | frontend/src/hooks/useStore.tsx:42-53 | a successful fetch installs the fetched store; a failed one changes nothing |
| LegacyStore.LegacyStoreProvider.Persist | frontend/src/hooks/useStore.tsx:66-73 | the new store is committed iff the remote save succeeds |
| LegacyStore.LegacyStoreProvider.CreatePresentation | frontend/src/hooks/useStore.tsx:55-76 | sends `CreatePresentationStore` of the old store and commits it on success |
| LegacyStore.LegacyStoreProvider.DeletePresentation | frontend/src/hooks/useStore.tsx:78-92 | sends the old store without the id and commits it on success |
| LegacyStore.LegacyStoreProvider.UpdatePresentation | frontend/src/hooks/useStore.tsx:94-110 | sends the old store with the id reassigned and commits it on success |
| LegacyStore.LegacyStoreProvider.ClearLocalStore | frontend/src/hooks/useStore.tsx:112-114 | the local store becomes empty |
| Auth.AuthProvider.constructor | frontend/src/hooks/AuthProvider.tsx:15 | the token starts as the stored one, or none |
| Auth.AuthProvider.IsLogin | frontend/src/hooks/AuthProvider.tsx:17-20 | logged in iff a token is held |
| Auth.AuthProvider.Logout | frontend/src/hooks/AuthProvider.tsx:22-31 | success clears the token; failure keeps it |
| Auth.AuthProvider.Login | frontend/src/hooks/AuthProvider.tsx:33-45 | success stores the returned token and logs in; failure keeps the old token |
| Auth.AuthProvider.Signup | frontend/src/hooks/AuthProvider.tsx:47-59 | success stores the returned token and logs in; failure keeps the old token |
| Login.Validate | frontend/src/pages/Login/Login.tsx:30-40 | valid iff neither field is blank after trimming; a blank email is reported before a blank password |
| Login.LoginPage.HandleSubmit | frontend/src/pages/Login/Login.tsx:42-57 | login is attempted iff the form is valid; it navigates iff the attempt succeeds; both fields end empty |
| Signup.Check | frontend/src/pages/Signup/Signup.tsx:44-67 | valid iff the name is not blank, email and password are non-empty, the email has '@' and the confirmation matches; incompleteness is reported first |
| Signup.SignupPage.Validate | frontend/src/pages/Signup/Signup.tsx:44-67 | each failure clears its own set of fields: all four, all but the name, or only the two passwords |
| Signup.SignupPage.HandleSubmit | frontend/src/pages/Signup/Signup.tsx:69-85 | signup is attempted iff the form is valid; it navigates iff that succeeds; all fields end empty after an attempt |
| SlideControlbar.SlidesLength | frontend/src/pages/Presentation/SlideControlbar.tsx:37 | the number of slides of the presentation, zero when it is missing |
| SlideControlbar.HandleDeleteSlide | frontend/src/pages/Presentation/SlideControlbar.tsx:37-62 | nothing is sent iff deleting the only slide of an existing presentation from index 0; otherwise that slide is deleted, and on success the editor moves to the previous slide unless at index 0 |
| SlideControlbar.DeleteKeepsIndexInRange | frontend/src/pages/Presentation/SlideControlbar.tsx:37-62 | from a slide of the presentation, the only slide is never deleted, and the slide moved to after a delete exists in the shorter deck |
| SlideControlbar.SlidePath | frontend/src/pages/Presentation/SlideControlbar.tsx:64-70 | the preview route starts with "/preview-" and the editor route does not; the last segment reads back as the slide index through `parseInt` |
| SlideControlbar.NextSlidePath | frontend/src/pages/Presentation/SlideControlbar.tsx:72-78 | the route of slide `slideIndex + 1` in the current mode, whose last segment reads back as that index |
| SlideControlbar.PrevSlidePath | frontend/src/pages/Presentation/SlideControlbar.tsx:80-86 | the route of slide `slideIndex - 1` in the current mode, whose last segment reads back as that index |
| SlideControlbar.PreviewChangesOnlyPrefix | frontend/src/pages/Presentation/SlideControlbar.tsx:64-86 | the preview route of a slide, and of its next and previous slides, differs from the editor route only in the prefix |
| SlideControlbar.PrevVisible | frontend/src/pages/Presentation/SlideControlbar.tsx:240 | from a slide index, the previous button shows iff there is a slide before it |
| SlideControlbar.NextVisible | frontend/src/pages/Presentation/SlideControlbar.tsx:256 | from a slide index, the next button shows iff the presentation exists and has a slide after it |
| SlideControlbar.VisibleButtonsStayInDeck | frontend/src/pages/Presentation/SlideControlbar.tsx:240-256 | from a slide of the presentation, the previous and next buttons appear only where the target slide exists, and each is hidden only at its end of the deck |
| SlideControlbar.MissingPresentationControls | frontend/src/pages/Presentation/SlideControlbar.tsx:37-62 | with the presentation missing, the slide count is 0: the delete call is always made and the next button is hidden |
| SidebarLeft.HandleEditTitle | frontend/src/pages/Presentation/SidebarLeft.tsx:46-55 | sends the presentation with only its name replaced |
| SidebarLeft.HandleFileUpload | frontend/src/pages/Presentation/SidebarLeft.tsx:60-88 | sends an update iff the file is jpeg/png/jpg and was read; only the thumbnail (as base64) changes |
| Document.FindElement | frontend/src/pages/Presentation/TextElementModal.tsx:38-40 | `find` by id: none iff no element has the id, else the first that does |
| ElementForm.FirstFailure | frontend/src/pages/Presentation/TextElementModal.tsx:112-139 | the `if … return` chain: none iff every check passes, else the error of the first failing check |
| ElementForm.FirstFailureIs | frontend/src/pages/Presentation/TextElementModal.tsx:112-139 | if check `i` fails and all before it pass, its error is reported |
| ElementForm.DigitFieldInPercent | frontend/src/pages/Presentation/TextElementModal.tsx:107-127 | on a digit-only field, the 0-100 check passes iff the field is non-empty with a value of at most 100 |
| ElementForm.LoadedInPercent | frontend/src/pages/Presentation/ImageElementModal.tsx:67-70 | a number loaded with `toString` passes the 0-100 check iff it is between 0 and 100 |
| JsString.TrimEmptyIffAllWhitespace | frontend/src/pages/Login/Login.tsx:30-40 | `trim() === ''` iff every character is white space |
| JsString.ReplaceFirst | frontend/src/pages/Presentation/VideoElementModal.tsx:126 | `replace` with a string pattern changes only its leftmost occurrence, and nothing if there is none |
| JsString.ParseInt | frontend/src/pages/Presentation/TextElementModal.tsx:107-111 | NaN iff no digit follows the leading white space and one optional sign; a negative result needs a leading '-' |
| JsString.ParseIntOfDigits | frontend/src/pages/Presentation/TextElementModal.tsx:107-111 | on digit-only text, `parseInt` is NaN for "" and the decimal value otherwise |
| JsString.ParseIntOfIntToString | frontend/src/pages/Presentation/TextElementModal.tsx:42-47 | `parseInt(n.toString())` is `n` for every integer |
| JsString.ParseIntOfNaN | frontend/src/pages/Presentation/CodeElementModal.tsx:68 | `parseInt("NaN")` is NaN |
| TextElement.FiltersKeepDigits | frontend/src/pages/Presentation/TextElementModal.tsx:52-104 | the keystroke filters keep the numeric fields digit-only, so the size checks read as "non-empty and at most 100" |
| TextElement.Validate | frontend/src/pages/Presentation/TextElementModal.tsx:112-139 | the early-return chain reports exactly the error of the first failing check, in the order the code tests them |
| TextElement.IntendedValidate | frontend/src/pages/Presentation/TextElementModal.tsx:112-139 | the corrected chain reports exactly the first failing check: content checks first, then x and y in edit mode only |
| TextElement.Submit | frontend/src/pages/Presentation/TextElementModal.tsx:106-173 | invalid iff a check fails, reporting the first; otherwise every value is in range, and create sends the parsed content while edit sends the element with the same id |
| TextElement.SentIsValid | frontend/src/pages/Presentation/TextElementModal.tsx:112-166 | whatever is sent is a valid text element |
| TextElement.FormOf | frontend/src/pages/Presentation/TextElementModal.tsx:42-48 | every loaded number field is non-empty and digit-only iff the number is non-negative; text and colour are loaded as stored |
| TextElement.Parse | frontend/src/pages/Presentation/TextElementModal.tsx:107-111 | each digit-only number field parses to NaN when blank and to its decimal value otherwise |
| TextElement.ParseFormOf | frontend/src/pages/Presentation/TextElementModal.tsx:42-47 | loading an element and parsing the fields gives back its values |
| TextElement.SubmitInputOf | frontend/src/pages/Presentation/TextElementModal.tsx:112-173 | submitting an element's own values in edit mode sends it unchanged iff it is valid |
| TextElement.EditRoundTrip | frontend/src/pages/Presentation/TextElementModal.tsx:36-166 | an element loaded and submitted unchanged is sent back unchanged iff it is valid |
| TextElement.CreateWithoutPositionRefused | frontend/src/pages/Presentation/TextElementModal.tsx:112-119 | a create from empty x and y fails with "Invalid x coordinate" whatever the other fields hold |
| TextElement.IntendedSubmit | frontend/src/pages/Presentation/TextElementModal.tsx:106-173 | the corrected validation: invalid iff a check fails in the order width, height, font size, colour, text and, in edit mode only, x and y; the first failure is reported |
| TextElement.IntendedCreateIgnoresPosition | frontend/src/pages/Presentation/TextElementModal.tsx:112-119 | under the corrected validation a create's outcome does not depend on x and y |
| TextElement.IntendedKeepsSentForms | frontend/src/pages/Presentation/TextElementModal.tsx:106-173 | every form that the as-written validation sends is sent identically by the corrected one, and in edit mode both send exactly the same forms |
| TextElement.TextElementModal.constructor | frontend/src/pages/Presentation/TextElementModal.tsx:28-34 | all fields start empty |
| TextElement.TextElementModal.Load | frontend/src/pages/Presentation/TextElementModal.tsx:36-50 | in edit mode, a text element found by id fills every field; otherwise nothing changes |
| TextElement.TextElementModal.Change | frontend/src/pages/Presentation/TextElementModal.tsx:52-104 | a value passing the field's filter replaces that field only; a rejected one changes nothing |
| TextElement.TextElementModal.HandleSubmit | frontend/src/pages/Presentation/TextElementModal.tsx:106-181 | the outcome is `Submit` of the parsed fields; the modal closes iff a request was sent and succeeded; the fields are cleared unless validation failed |
| ImageElement.Submit | frontend/src/pages/Presentation/ImageElementModal.tsx:147-204 | invalid iff a check fails (width, height, then x, y in edit), reporting the first; otherwise create sends the content and edit the element with the same id |
| ImageElement.SentIsValid | frontend/src/pages/Presentation/ImageElementModal.tsx:153-196 | whatever is sent is a valid image element, and a create does not depend on x and y |
| ImageElement.ImageFollowsType | frontend/src/pages/Presentation/ImageElementModal.tsx:152 | the image sent is the url or the base64 data as the image type says; the other is ignored |
| ImageElement.FormOf | frontend/src/pages/Presentation/ImageElementModal.tsx:66-80 | every loaded number field is non-empty and digit-only iff the number is non-negative; the image goes to the field its type selects |
| ImageElement.Parse | frontend/src/pages/Presentation/ImageElementModal.tsx:148-152 | each digit-only number field parses to NaN when blank and to its decimal value otherwise |
| ImageElement.ParseFormOf | frontend/src/pages/Presentation/ImageElementModal.tsx:62-83 | loading an element and parsing gives back its values |
| ImageElement.SubmitInputOf | frontend/src/pages/Presentation/ImageElementModal.tsx:153-196 | an element's own values in edit mode are sent unchanged iff it is valid |
| ImageElement.EditRoundTrip | frontend/src/pages/Presentation/ImageElementModal.tsx:52-196 | an element loaded and submitted unchanged is sent back unchanged iff it is valid |
| ImageElement.ImageElementModal.constructor | frontend/src/pages/Presentation/ImageElementModal.tsx:42-50 | fields start empty with the url image type |
| ImageElement.ImageElementModal.Load | frontend/src/pages/Presentation/ImageElementModal.tsx:52-83 | create mode clears the fields but keeps the image type and preview; edit mode loads an image element found by id |
| ImageElement.ImageElementModal.Change | frontend/src/pages/Presentation/ImageElementModal.tsx:85-131 | a value passing the field's filter replaces that field only |
| ImageElement.ImageElementModal.ChangeImgType | frontend/src/pages/Presentation/ImageElementModal.tsx:117-119 | only the image type changes |
| ImageElement.ImageElementModal.Upload | frontend/src/pages/Presentation/ImageElementModal.tsx:133-145 | a read file replaces the base64 data and the preview; nothing else changes |
| ImageElement.ImageElementModal.HandleSubmit | frontend/src/pages/Presentation/ImageElementModal.tsx:147-204 | the outcome is `Submit` of the parsed fields |
| VideoElement.VParamFrom | frontend/src/pages/Presentation/VideoElementModal.tsx:120 | `/[?&]v=([^&]+)/`: the leftmost match and its maximal non-'&' run |
| VideoElement.ToEmbedUrl | frontend/src/pages/Presentation/VideoElementModal.tsx:116-128 | an embed URL is kept; a `v=` URL becomes the embed URL of its id; anything else has `watch?v=` replaced by `embed/` |
| VideoElement.ToEmbedUrlIdempotent | frontend/src/pages/Presentation/VideoElementModal.tsx:117-124 | on embed URLs and on URLs with a `v` parameter, converting the result again changes nothing |
| VideoElement.ReplaceBranchNotIdempotent | frontend/src/pages/Presentation/VideoElementModal.tsx:120-126 | on other URLs it is not idempotent: "watch?v=&watch?v=" becomes "embed/&watch?v=", then "embed/&embed/" |
| VideoElement.AutoplayQueryDoubled | frontend/src/pages/Presentation/VideoElementModal.tsx:122-124 | with autoplay on, a watch URL becomes the plain embed URL, which already ends in '?', followed by "?autoplay=1&mute=1": "??" follows the video id |
| VideoElement.IntendedToEmbedUrl | frontend/src/pages/Presentation/VideoElementModal.tsx:116-128 | the corrected conversion with a single '?'; it agrees with the as-written one when autoplay is off |
| VideoElement.IntendedToEmbedUrlIdempotent | frontend/src/pages/Presentation/VideoElementModal.tsx:116-128 | the corrected conversion is idempotent on the same URLs |
| VideoElement.Submit | frontend/src/pages/Presentation/VideoElementModal.tsx:130-187 | invalid iff a check fails, reporting the first; otherwise sends the converted embed URL with the watch URL and autoplay |
| VideoElement.SentIsValid | frontend/src/pages/Presentation/VideoElementModal.tsx:145-179 | whatever is sent is a valid video element whose embed URL is the conversion of its watch URL |
| VideoElement.FormOf | frontend/src/pages/Presentation/VideoElementModal.tsx:63-69 | every loaded number field is non-empty and digit-only iff the number is non-negative; the URLs and autoplay are loaded as stored |
| VideoElement.ParseIgnoresEmbedUrl | frontend/src/pages/Presentation/VideoElementModal.tsx:130-179 | the stored embed URL field is never read: the parsed form and the submission do not depend on it |
| VideoElement.SubmitInputOf | frontend/src/pages/Presentation/VideoElementModal.tsx:145-179 | an element's own values in edit mode are sent iff its position and size are in range, and sent unchanged iff it is valid, its embed URL included |
| VideoElement.EditRoundTrip | frontend/src/pages/Presentation/VideoElementModal.tsx:58-179 | for a `parseFloat` that reads back integers, a loaded element submitted unchanged is sent back unchanged iff it is valid; an in-range element with a stale embed URL is sent with the recomputed one |
| VideoElement.VideoElementModal.constructor | frontend/src/pages/Presentation/VideoElementModal.tsx:40-46 | fields start empty with autoplay off |
| VideoElement.VideoElementModal.Load | frontend/src/pages/Presentation/VideoElementModal.tsx:48-72 | create mode resets the form; edit mode loads a video element found by id |
| VideoElement.VideoElementModal.Change | frontend/src/pages/Presentation/VideoElementModal.tsx:74-110 | a value passing the field's filter replaces that field only |
| VideoElement.VideoElementModal.ChangeAutoplay | frontend/src/pages/Presentation/VideoElementModal.tsx:112-114 | autoplay becomes whether the selected value is "true" |
| VideoElement.VideoElementModal.HandleSubmit | frontend/src/pages/Presentation/VideoElementModal.tsx:130-187 | the outcome is `Submit` of the parsed fields |
| CodeElement.Submit | frontend/src/pages/Presentation/CodeElementModal.tsx:124-184 | invalid iff a check fails (width, height, language, then x, y in edit), reporting the first; otherwise sends the code with the font size as parsed |
| CodeElement.SentIsValid | frontend/src/pages/Presentation/CodeElementModal.tsx:129-176 | whatever is sent is a valid code element; the font size never decides whether it is sent |
| CodeElement.FormOf | frontend/src/pages/Presentation/CodeElementModal.tsx:63-69 | every loaded position and size is non-empty and digit-only iff non-negative; a NaN font size loads as "NaN" |
| CodeElement.Parse | frontend/src/pages/Presentation/CodeElementModal.tsx:125-129 | each digit-only number field parses to NaN when blank and to its decimal value otherwise |
| CodeElement.ParseFormOf | frontend/src/pages/Presentation/CodeElementModal.tsx:58-70 | loading an element, a NaN font size included, and parsing gives back its values |
| CodeElement.SubmitInputOf | frontend/src/pages/Presentation/CodeElementModal.tsx:129-176 | an element's own values in edit mode are sent unchanged iff it is valid |
| CodeElement.EditRoundTrip | frontend/src/pages/Presentation/CodeElementModal.tsx:48-176 | an element loaded and submitted unchanged is sent back unchanged iff it is valid |
| CodeElement.CodeElementModal.constructor | frontend/src/pages/Presentation/CodeElementModal.tsx:38-46 | fields start empty |
| CodeElement.CodeElementModal.Load | frontend/src/pages/Presentation/CodeElementModal.tsx:48-72 | create mode resets the form; edit mode loads a code element found by id |
| CodeElement.CodeElementModal.Change | frontend/src/pages/Presentation/CodeElementModal.tsx:74-122 | a value passing the field's filter replaces that field only |
| CodeElement.CodeElementModal.HandleSubmit | frontend/src/pages/Presentation/CodeElementModal.tsx:124-184 | the outcome is `Submit` of the parsed fields |
| Backgrounds.Load | frontend/src/pages/Presentation/SlideSettingModal.tsx:52-68 | loading a background sets its kind and its own fields and keeps the fields of the other kinds |
| Backgrounds.Build | frontend/src/pages/Presentation/SlideSettingModal.tsx:123-141 | image kind builds an image from base64 or url by type; gradient builds a gradient; anything else a solid colour; never the default |
| Backgrounds.LoadBuildRoundTrip | frontend/src/pages/Presentation/SlideSettingModal.tsx:52-141 | a loaded non-default background is rebuilt unchanged; the default becomes the form's solid colour |
| Backgrounds.BuildReadsChosenFields | frontend/src/pages/Presentation/SlideSettingModal.tsx:123-141 | editing a field of another kind does not change what is built |
| SlideSetting.UpdatedSlide | frontend/src/pages/Presentation/SlideSettingModal.tsx:142-146 | the saved slide keeps its id and elements and takes the chosen font and background |
| SlideSetting.SaveLoadedSlide | frontend/src/pages/Presentation/SlideSettingModal.tsx:49-146 | saving a slide loaded into the modal unchanged gives back the same slide |
| SlideSetting.SlideSettingModal.constructor | frontend/src/pages/Presentation/SlideSettingModal.tsx:38-47 | Roboto and an empty solid-colour form |
| SlideSetting.SlideSettingModal.Load | frontend/src/pages/Presentation/SlideSettingModal.tsx:49-69 | a present slide loads its font and background; a missing one changes nothing |
| SlideSetting.SlideSettingModal.ChangeKind | frontend/src/pages/Presentation/SlideSettingModal.tsx:71-73 | only the background kind changes |
| SlideSetting.SlideSettingModal.ChangeFontFamily | frontend/src/pages/Presentation/SlideSettingModal.tsx:75-77 | only the font changes |
| SlideSetting.SlideSettingModal.Change | frontend/src/pages/Presentation/SlideSettingModal.tsx:79-105 | only the named background field changes |
| SlideSetting.SlideSettingModal.ChangeImgType | frontend/src/pages/Presentation/SlideSettingModal.tsx:97-99 | only the image type changes |
| SlideSetting.SlideSettingModal.Upload | frontend/src/pages/Presentation/SlideSettingModal.tsx:107-119 | a read file replaces the base64 image; nothing else changes |
| SlideSetting.SlideSettingModal.HandleSubmit | frontend/src/pages/Presentation/SlideSettingModal.tsx:121-153 | sends the slide updated with the chosen font and built background; closes iff that succeeds |
| EditPresentation.UpdatedPresentation | frontend/src/pages/Presentation/EditPresentationModal.tsx:131-153 | only the name, description and background change |
| EditPresentation.SaveLoadedPresentation | frontend/src/pages/Presentation/EditPresentationModal.tsx:47-153 | saving a presentation loaded into the modal unchanged gives back the same presentation |
| EditPresentation.EditPresentationModal.constructor | frontend/src/pages/Presentation/EditPresentationModal.tsx:35-45 | empty title and description, empty solid-colour form |
| EditPresentation.EditPresentationModal.Load | frontend/src/pages/Presentation/EditPresentationModal.tsx:47-68 | a present presentation loads its title, description and background; a missing one changes nothing |
| EditPresentation.EditPresentationModal.ChangeKind | frontend/src/pages/Presentation/EditPresentationModal.tsx:70-72 | only the background kind changes |
| EditPresentation.EditPresentationModal.Change | frontend/src/pages/Presentation/EditPresentationModal.tsx:74-100 | only the named background field changes |
| EditPresentation.EditPresentationModal.ChangeImgType | frontend/src/pages/Presentation/EditPresentationModal.tsx:92-94 | only the image type changes |
| EditPresentation.EditPresentationModal.Upload | frontend/src/pages/Presentation/EditPresentationModal.tsx:102-114 | a read file replaces the base64 image; nothing else changes |
| EditPresentation.EditPresentationModal.ChangeTitle | frontend/src/pages/Presentation/EditPresentationModal.tsx:116-120 | only the title changes |
| EditPresentation.EditPresentationModal.ChangeDescription | frontend/src/pages/Presentation/EditPresentationModal.tsx:122-126 | only the description changes |
| EditPresentation.EditPresentationModal.HandleSubmit | frontend/src/pages/Presentation/EditPresentationModal.tsx:128-159 | sends the presentation with the chosen title, description and built background; closes iff that succeeds |

## Left out

- HTTP requests, toasts, JSX rendering, routing and modal open/close state.
  - Remote calls are a success flag plus any returned value.
  - Navigation is returned as a slide index or a route string.
- `uuid`, `Date.now` and `FileReader` are parameters. A file read is a `converted: Option<string>`.
- `localStorage`: the stored token is the `AuthProvider` constructor's argument.
- The bodies of `updateSlide`, `deleteSlide`, `createSlideElement`, `updateSlideElement` and `deleteSlideElement` are not part of this model. Callers return them as `StoreRequest` values.
- `StoreProvider`'s `clearLocalStore` is not modelled; the legacy hook's `ClearLocalStore` is.
- Concurrency: handlers read the store captured when they were created. Two overlapping updates can lose one another; the model runs each handler alone.
- `VideoElement.Parse`: `parseFloat` is an abstract parameter. Fractional sizes and positions are not modelled; `VideoElement.EditRoundTrip` assumes it reads integers back.
- `CodeElement.ParseFormOf`: a NaN font size loads back as "NaN" only from the in-memory store. Sent to the backend, NaN becomes `null` in JSON, and after a reload `element.fontSize.toString()` (CodeElementModal.tsx:68) would throw. JSON encoding is not modelled.
- `VideoElement.ToEmbedUrlIdempotent`: idempotence is proved only for embed URLs and URLs with a `v` parameter; `VideoElement.ReplaceBranchNotIdempotent` shows it fails on others.
- `JsString.ParseInt`: hexadecimal `0x` input and the exponent form of very large numbers are not modelled. The digit filters keep both out of the forms.
- Submitting for a slide or presentation that does not exist (a spread of `undefined`) is not modelled. The modals take the current slide or presentation as a present value.
- `TextElement.TextElementModal.Load`, `ImageElement.ImageElementModal.Load`, `VideoElement.VideoElementModal.Load`, `CodeElement.CodeElementModal.Load`: when the element found has a different variant, the fields are left unchanged.
- The background setters and the colour fields without a filter accept any text.
- The seven background `useState` hooks of each settings modal are grouped into one `BackgroundForm` field.
- The editing mode type file `ElementModal.types.ts` is not part of this model. Its three modes are taken from their uses.
- `Sidebar.tsx` duplicates `SidebarLeft.tsx` and is not modelled separately.
- `SlideArea.tsx`'s timers and the dashboard pages are not modelled.
- `StoreProvider.PresentationStore.CreateSlide`: when the presentation id is missing, the code fails before its promise chain is built. `isLoading` is therefore left true. The model follows the code, although every other store operation clears `isLoading` in its `finally`.
- `TextElement.TextElementModal.Load`: the text editor, unlike the other three, has no create-mode reset. It keeps whatever its fields last held.

## Findings

| source | as written | input that shows it | evidently intended | confidence | as-written member | corrected member |
|---|---|---|---|---|---|---|
| frontend/src/pages/Presentation/TextElementModal.tsx:112-119 | x and y are parsed and checked before create and edit are told apart, but their inputs are shown only in edit mode | a fresh editor in create mode (x = "", y = "") with valid width, height, text, font size and colour: submission fails with "Invalid x coordinate" | check x and y only when editing, as the image, video and code editors do | not executed | TextElement.CreateWithoutPositionRefused | TextElement.IntendedSubmit |
| frontend/src/pages/Presentation/VideoElementModal.tsx:122-124 | the embed URL already ends in '?', and the autoplay suffix adds a second one | `https://www.youtube.com/watch?v=abc` with autoplay on gives `https://www.youtube.com/embed/abc??autoplay=1&mute=1` | one '?' before `autoplay=1&mute=1` | not executed | VideoElement.AutoplayQueryDoubled | VideoElement.IntendedToEmbedUrl |
