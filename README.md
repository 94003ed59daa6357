# khana-app core, modelled in Dafny

khana-app is a classifieds front end for Afghanistan. It has three kinds of
listings: properties (sale, rent, mortgage), jobs and services. The rules
under its screens are modelled here and proved:

- **The public feed.** `App.tsx` keeps three collections and a filter state.
  It shows an order-preserving part of the active collection:
  - with "my ads" on, exactly the items of `user_123`;
  - otherwise the APPROVED items whose title contains the search term
    (case-insensitively), whose deal type matches the estate chip, whose city
    matches the province selector (also across the Dari and Pashto names),
    and, with saved-only on, whose id is saved.

  The saved and visited id sets, the filter reset and the language switch are
  modelled as well (module `Feed`).
- **Moderation.** `components/AdminPanel.tsx` approves or deletes an item by id.
  The local collection changes only after the backend reports success. The
  list is the active tab's items with the chosen status (module `Moderation`).
- **Submission forms.**
  - The job form (module `JobSubmission`) rewrites Extended Arabic-Indic digits
    (U+06F0 to U+06F9) as ASCII digits. It refuses a non-finite location and
    builds the PENDING row for the `jobs` table.
  - The property form (module `PropertySubmission`) keeps a list of photos and
    their previews. It refuses an empty phone number and builds the PENDING
    row for the `properties` table.
- **Detail galleries and the card.**
  - The cyclic image index and the swipe decision live in module `Carousel`.
    Modules `PropertyDetails` and `JobDetails` use them.
  - The thumbnail and price choice of the property card is in module
    `PropertyCard`.
- **Sign-in.**
  - The user sheet's login → code → profile machine, over the phone number
    kept in local storage (module `Auth`).
  - The admin credential lookup (module `AdminLogin`).
- **Sample data.** The sample admin and the six sample properties of
  `services/mockData.ts` appear in scenario lemmas (module `Fixtures`).

Modules `Basics` and `Listings` hold the shared building blocks (an option
type, subsequences, the string and number built-ins the code uses) and the
record types of `types.ts`.

Unlike the job form, the property form does not normalise local digits: it
parses the price and area as typed and stores the phone number as typed. The
form has no bedrooms, type or address input, so its row always carries
bedrooms 0, an apartment and an empty address. `PropertySubmission.LocalDigitPriceIsDropped` shows what its price
expression does with local-digit text: it would store 0 if such text reached
the handler. (The price field is a number input, which in a browser yields
either an empty value or an ASCII number.)

## Model

Helper definitions and the lemmas that only serve other proofs
(`Basics.ContainsEmpty`, `Basics.DigitPrefixOfRun`, `JobSubmission.ToLocalDigits`
and the like) have no row.

| member | source | states |
|---|---|---|
| Basics.SubsequenceMembers | App.tsx:173 | a filtered list is no longer than the list and holds only its elements |
| Basics.LowerIdempotent | App.tsx:177 | lower-casing twice is lower-casing once |
| Basics.ContainsAt | App.tsx:177 | `includes` holds whenever the term occurs at some position |
| Basics.ContainsWitness | App.tsx:177 | when `includes` holds, the term occurs at some position |
| Basics.DigitPrefixLength | components/AddPropertyModal.tsx:129 | the run of leading ASCII digits that the parse reads: every character in it is a digit and the one after it is not |
| Basics.ParseDigitsThen | components/AddPropertyModal.tsx:129 | digits followed by text that does not start with a digit parse to the decimal value of those digits, and `\|\| 0` keeps it |
| Basics.ParseLeadingNumber | components/AddPropertyModal.tsx:129 | parsing gives NaN exactly when the text does not start with a digit |
| Basics.NumberOrZero | components/AddPropertyModal.tsx:129 | `parseFloat(x) \|\| 0` is 0 for text that does not start with a digit |
| Feed.IndexOf | App.tsx:179 | `indexOf` is -1 iff the name is absent, else the first position holding it |
| Feed.Filtered | App.tsx:173-183 | the result is an order-preserving subsequence; an item is in it iff it is in the collection and passes the visibility test |
| Feed.FilteredAppend | App.tsx:173 | filtering a concatenation filters each part |
| Feed.FilteredAllOrNothing | App.tsx:173 | a collection of shown items is kept whole; one with none shown gives the empty feed |
| Feed.MyAdsShowsExactlyOwned | App.tsx:174-175 | with my-ads on, an item is shown iff its owner is `user_123`, whatever its status and the other filters |
| Feed.PublicFeedIsApproved | App.tsx:182 | with my-ads off, every shown item is APPROVED |
| Feed.EmptySearchMatchesAll | App.tsx:177 | the empty search term matches every title |
| Feed.SearchIgnoresCase | App.tsx:177 | the search is blind to letter case in the term and in the title |
| Feed.TitleContainingTermMatches | App.tsx:177 | a title containing the term verbatim matches |
| Feed.DealFilterOnlyInEstateMode | App.tsx:178 | outside ESTATE mode the deal-type test always passes |
| Feed.DealFilterSelectsDealType | App.tsx:178 | in ESTATE mode a chosen deal type passes exactly the properties of that deal type |
| Feed.PashtoSelectorMatchesDariCity | App.tsx:179 | in Pashto, the selector at index k matches an item whose city is the Dari province at index k |
| Feed.AllProvincesMatchesEveryCity | App.tsx:179 | the first province (the "all" sentinel) matches every city |
| Feed.DariCityNeedsExactMatch | App.tsx:179 | in Dari, any other selector matches iff it equals the item's city |
| Feed.SavedOnlyKeepsSaved | App.tsx:180 | with saved-only on, every shown item's id is saved |
| Feed.ResetFeedIsApprovedProperties | App.tsx:141-149 | after a reset the feed holds exactly the APPROVED properties |
| Feed.Toggled | App.tsx:132-139 | toggling flips the membership of the given id and of no other id |
| Feed.ToggleTwiceRestores | App.tsx:132-139 | toggling the same id twice restores the set |
| Feed.ListingStore.constructor | App.tsx:38-40 | the three collections hold the given properties, jobs and services |
| Feed.App.constructor | App.tsx:23-63 | language and saved ids come from storage; the city selector starts on the sentinel of the current language |
| Feed.App.FilteredItems | App.tsx:171-184 | the shown items of the collection `appMode` picks, in order |
| Feed.App.ToggleSave | App.tsx:132-139 | the saved set becomes the toggled set and is written back to storage |
| Feed.App.HandleSelectItem | App.tsx:121-124 | the item's id joins the visited set and the item is opened |
| Feed.App.ResetFilters | App.tsx:141-149 | the filter state becomes the reset filter and the list view is shown |
| Feed.App.ToggleLanguage | App.tsx:57-63 | the language flips and is stored; a sentinel city selector moves to the new language's sentinel |
| Moderation.WithApproved | components/AdminPanel.tsx:54-56 | same length and order; items with the id become APPROVED, all others and all other fields are unchanged |
| Moderation.WithoutId | components/AdminPanel.tsx:60-62 | an order-preserving subsequence holding exactly the items whose id differs |
| Moderation.ReviewList | components/AdminPanel.tsx:202-210 | an order-preserving subsequence holding exactly the items with the filtered status |
| Moderation.ReviewListCounts | components/AdminPanel.tsx:202-210 | every copy of an item with the filtered status is kept, as many times as the collection holds it; no other item appears |
| Moderation.WithoutIdAppend | components/AdminPanel.tsx:60-62 | deleting from a concatenation deletes from each part |
| Moderation.WithoutIdAllOrNothing | components/AdminPanel.tsx:60-62 | deleting an absent id changes nothing; deleting the id every item carries empties the list |
| Moderation.ApproveIdempotent | components/AdminPanel.tsx:54-56 | approving twice is approving once |
| Moderation.ApproveApprovedIsNoOp | components/AdminPanel.tsx:54-56 | approving already-approved items leaves the collection equal |
| Moderation.DeletedNeverShown | components/AdminPanel.tsx:60-62 | after a delete no feed shows the id |
| Moderation.ApprovalPublishes | components/AdminPanel.tsx:54-56 | a PENDING item is not in the public feed; its approved copy is iff the other tests pass |
| Moderation.AdminPanel.constructor | components/AdminPanel.tsx:23-26 | the panel opens on ESTATE, the pending tab, nothing loading or selected |
| Moderation.AdminPanel.ListedItems | components/AdminPanel.tsx:202-210 | the list is the active tab's items with the filtered status, in order, every copy kept |
| Moderation.AdminPanel.HandleAction | components/AdminPanel.tsx:44-70 | an unconfirmed delete changes nothing; otherwise the request goes to the kind's table, the loading marker is the id and then null, and only on success the matching collection is updated (others untouched) and the selection cleared |
| JobSubmission.ToEnglishDigitsAt | components/AddJobModal.tsx:13-16 | the length is kept; each local digit becomes the ASCII digit of the same value; other characters are kept |
| JobSubmission.ToEnglishDigitsClean | components/AddJobModal.tsx:15 | the result holds no local digit and normalising it again changes nothing |
| JobSubmission.ToEnglishDigitsKeepsClean | components/AddJobModal.tsx:15 | text without local digits is left unchanged |
| JobSubmission.LocalDigitsRoundTrip | components/AddJobModal.tsx:13-16 | writing ASCII digits as local digits and normalising gives the text back |
| JobSubmission.LocalDigitsParseAlike | components/AddJobModal.tsx:141 | a salary typed in local digits parses to the value of its ASCII spelling |
| JobSubmission.LocalSalaryKeepsValue | components/AddJobModal.tsx:141 | the salary ۵۰۰۰ is stored as 5000 |
| JobSubmission.JobOwner | components/AddJobModal.tsx:151 | the owner is the stored phone, or `guest` when none or an empty one is stored |
| JobSubmission.JobPayload | components/AddJobModal.tsx:138-152 | the row is PENDING in AFN, owned by the stored phone or `guest`; it copies the title, company, job type, address, city and description; its one image is the upload, or the placeholder when there is none; the salary is the parsed normalised text; the phone is the normalised phone, so it has no local digits and the typed length |
| JobSubmission.AddJobModal.constructor | components/AddJobModal.tsx:75-87 | the form opens on the second province (or Kabul), with the map on Kabul |
| JobSubmission.AddJobModal.HandleFileChange | components/AddJobModal.tsx:91-97 | the first chosen file becomes the photo with its preview; no file changes nothing |
| JobSubmission.AddJobModal.HandleSubmit | components/AddJobModal.tsx:121-167 | a non-finite location aborts before any upload or insert; a failed upload sends nothing; with the backend unconfigured the form still ends in success; submitting ends false |
| PropertySubmission.FinalImages | components/AddPropertyModal.tsx:126 | the uploaded URLs when files were chosen, else one placeholder; never empty |
| PropertySubmission.ApplyEdit | components/AddPropertyModal.tsx:88 | an input's edit sets exactly its own field and keeps every other field, so never the bedrooms, type or address |
| PropertySubmission.EditsKeepUnrenderedFields | components/AddPropertyModal.tsx:73-79 | no run of edits changes the bedrooms, type or address the form opened with |
| PropertySubmission.PropertyPayload | components/AddPropertyModal.tsx:127-143 | the row is PENDING in AFN and owned by `user_123`; title, deal, type, city, address and description are copied; price, bedrooms and area are parsed with a fallback to 0 when they do not parse; the phone is kept as typed |
| PropertySubmission.EditedFormRow | components/AddPropertyModal.tsx:132-136 | whatever the inputs were used for, the row has bedrooms 0, an apartment and an empty address |
| PropertySubmission.LocalDigitPriceIsDropped | components/AddPropertyModal.tsx:129 | the price expression turns local-digit text into 0, while the job form's would keep its value |
| PropertySubmission.LocalDigitPhoneIsKept | components/AddPropertyModal.tsx:138 | a phone typed in local digits is stored unchanged, while the job form would rewrite it |
| PropertySubmission.AddPropertyModal.constructor | components/AddPropertyModal.tsx:73-85 | the form opens blank, in Kabul, with no photos |
| PropertySubmission.AddPropertyModal.HandleInputChange | components/AddPropertyModal.tsx:88 | the form becomes the edited form and keeps its invariant |
| PropertySubmission.AddPropertyModal.HandleFileChange | components/AddPropertyModal.tsx:113-119 | the files and their previews are appended in order, so both lists keep equal length and earlier entries are kept |
| PropertySubmission.AddPropertyModal.HandleSubmit | components/AddPropertyModal.tsx:121-149 | an empty phone aborts before any upload or insert; upload only with files; a failed upload sends nothing; success iff the insert succeeds; submitting ends false; a sent row has bedrooms 0, an apartment and an empty address |
| Carousel.AllImages | components/PropertyDetails.tsx:29 | an order-preserving subsequence holding exactly the non-empty entries, each as many times as the list holds it |
| Carousel.AllImagesKeepsFullList | components/PropertyDetails.tsx:29 | a list without empty entries is shown whole, repeated images included |
| Carousel.MovesStayInRange | components/PropertyDetails.tsx:54-64 | next and previous keep the index in range |
| Carousel.PrevUndoesNext | components/PropertyDetails.tsx:54-64 | with more than one image, previous after next (and next after previous) restores the index |
| Carousel.FewImagesDoNotMove | components/PropertyDetails.tsx:54-64 | with zero or one image neither move changes the index |
| Carousel.NextTimesAdd | components/JobDetails.tsx:42 | a+b presses of next are a presses followed by b presses |
| Carousel.NextTimesWalks | components/JobDetails.tsx:42 | before the last image, k presses move k places |
| Carousel.NextCycles | components/JobDetails.tsx:42 | as many presses of next as there are images return to the start |
| Carousel.SwipeDecision | components/PropertyDetails.tsx:73-80 | a missing or zero position does nothing; previous iff the move left exceeds 50; next iff the move right exceeds 50 |
| Carousel.SwipeReversed | components/PropertyDetails.tsx:73-80 | the reverse swipe takes the opposite decision |
| Carousel.ShortSwipeIgnored | components/PropertyDetails.tsx:73-80 | a move of at most 50 either way does nothing |
| PropertyDetails.PropertyGallery.constructor | components/PropertyDetails.tsx:17-29 | the gallery opens on the first non-empty image with no touch recorded |
| PropertyDetails.PropertyGallery.NextImage | components/PropertyDetails.tsx:54-58 | the index moves to the next image, cyclically, and stays in range |
| PropertyDetails.PropertyGallery.PrevImage | components/PropertyDetails.tsx:60-64 | the index moves to the previous image, cyclically, and stays in range |
| PropertyDetails.PropertyGallery.OnTouchStart | components/PropertyDetails.tsx:66-69 | a new touch clears the end position and records the start |
| PropertyDetails.PropertyGallery.OnTouchMove | components/PropertyDetails.tsx:71 | the end position is recorded |
| PropertyDetails.PropertyGallery.OnTouchEnd | components/PropertyDetails.tsx:73-80 | the index moves as the swipe decides and stays in range |
| JobDetails.JobGallery.constructor | components/JobDetails.tsx:17-25 | the gallery opens on the first non-empty image |
| JobDetails.JobGallery.NextImage | components/JobDetails.tsx:42 | the index moves to the next image, cyclically, and stays in range |
| JobDetails.JobGallery.PrevImage | components/JobDetails.tsx:43 | the index moves to the previous image, cyclically, and stays in range |
| PropertyCard.DisplayImage | components/PropertyCard.tsx:17-19 | the first image when there is one, else the legacy image field |
| PropertyCard.ThumbnailUrl | components/PropertyCard.tsx:21-23 | always a web address; the candidate when it starts with "http", else the fallback photo |
| PropertyCard.NonWebImageFallsBack | components/PropertyCard.tsx:17-23 | a first image that is not a web address gives the fallback photo |
| PropertyCard.DisplayPrice | components/PropertyCard.tsx:63 | the price, or 0 exactly when it is missing or zero |
| Auth.CodeAcceptedIsFourCharacters | components/AuthModal.tsx:42 | a code is accepted iff it has four characters (1234 is one of them) |
| Auth.MountView | components/AuthModal.tsx:21-27 | the sheet opens on the profile iff a non-empty phone is stored, never on the code view |
| Auth.AuthModal.constructor | components/AuthModal.tsx:16-27 | a stored phone opens the profile with that phone; otherwise the login view |
| Auth.AuthModal.SetPhoneNumber | components/AuthModal.tsx:73 | typing on the login view sets the phone |
| Auth.AuthModal.SetOtp | components/AuthModal.tsx:99 | typing on the code view, the only view with the code input, sets the code |
| Auth.AuthModal.HandleSendOtp | components/AuthModal.tsx:29-39 | a phone under nine characters stays on login with an alert; otherwise the code view opens |
| Auth.AuthModal.HandleVerifyOtp | components/AuthModal.tsx:41-52 | an accepted code stores the phone and opens the profile; any other stays on the code view with an alert |
| Auth.AuthModal.HandleLogout | components/AuthModal.tsx:54-57 | the stored phone is removed and the login view returns |
| AdminLogin.FindAdmin | components/AdminLogin.tsx:19 | some admin is found iff one has exactly the entered username and password; it is the first such admin of the list |
| AdminLogin.AdminLoginForm.constructor | components/AdminLogin.tsx:13-15 | the form opens with empty fields and no error |
| AdminLogin.AdminLoginForm.HandleSubmit | components/AdminLogin.tsx:17-26 | the found admin is handed on, leaving the error as it was; otherwise the error message is set |
| Fixtures.ResetFeedOfSamples | services/mockData.ts:19-164 | after a reset the sample feed is properties 1 to 5 in order, without the pending 6 |
| Fixtures.MyAdsOfSamples | services/mockData.ts:19-164 | "my ads" shows samples 1 and 4 |
| Fixtures.ApprovingSampleSix | services/mockData.ts:140-163 | approving id 6 changes only sample 6's status |
| Fixtures.ApprovedSampleSixIsPublished | services/mockData.ts:140-163 | once approved, sample 6 joins the end of the reset feed |
| Fixtures.DeletingSampleSix | services/mockData.ts:140-163 | deleting id 6 leaves samples 1 to 5 in order |
| Fixtures.PendingTabOfSamples | services/mockData.ts:19-164 | the pending tab lists sample 6 only |
| Fixtures.SampleAdminSignIn | services/mockData.ts:8-17 | admin / 123 signs in as the sample admin; a wrong password does not |

## Left out

- Rendering, styling, icons, modals and the map view (components/MapView.tsx): presentation only.
- Fetching the collections and the admin data, hash routing and the Gemini chat (services/geminiService.ts, components/ServiceDetails.tsx): network and UI plumbing.
- Geolocation (`handleLocateMe` in both forms) and the map picker: device I/O. The picked location is a form field, and the map centre is `tempLocation`.
- services/translations.ts is not part of this model. The Dari and Pashto province lists are a parameter; each list has at least the "all provinces" entry.
- The backend (services/supabaseClient.ts): uploads, inserts, updates and deletes are parameters.
  - An upload is a URL, or None when it fails.
  - A property upload is all-or-nothing: `Promise.all` fails if any file fails.
  - An insert or update reports success or error.
  - The file names built from `Date.now()` and `Math.random()` are not modelled.
- `Date.now()`, `URL.createObjectURL`, `window.confirm` and `localStorage` are parameters or plain fields. The `setTimeout` delays are immediate steps.
- HTML constraint validation: the `required` attributes on the title, price, area and phone of the property form (components/AddPropertyModal.tsx:234-243) and on the title, company, salary, phone and address of the job form (components/AddJobModal.tsx:241-264) make the browser block the submission before `handleSubmit` runs. The number inputs yield only an empty value or an ASCII number. The modelled handlers take whatever text reaches them.
- Buttons disabled while an action or a submission is loading are not modelled. Neither are two overlapping asynchronous handlers.
- Basics.Lower: letter case is folded on the ASCII letters only. Persian script has no case, and other scripts are not modelled.
- Basics.NumberOrZero: parsing reads only the leading run of ASCII digits. Signs, decimals, exponents, leading spaces and the rounding of 64-bit IEEE doubles (JavaScript numbers) are not modelled.
- Listings.Coordinate: a coordinate is either a finite real or not finite. Floating-point arithmetic is not modelled.
- Carousel.SwipeDecision: touch positions are integers; `clientX` is a floating-point number.
- Auth.AuthModal.HandleSendOtp: the loading flag's on-then-off window is collapsed into one step, so `isLoading` is false between steps. In the code only the button is disabled while loading; the phone input stays editable (components/AuthModal.tsx:33-38, 70-76), so the number can be shortened or emptied before the code view opens, and `handleVerifyOtp` then stores that number. The model's promise that the code view is reached only with a number of at least nine characters holds only because the timer is collapsed. Also, `.length` counts UTF-16 code units (components/AuthModal.tsx:30, 42), while the model counts Unicode scalar values, so the two differ for characters outside the Basic Multilingual Plane.
- Feed.App.constructor: the saved ids read from storage are given already parsed. Malformed JSON is not modelled.
- The admin credential list and the simulated one-time code are not real authentication. Only the lookup and the view transitions are modelled.
- JobCard.tsx and ServiceCard.tsx: their image fallback is rendering only.
