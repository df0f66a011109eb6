# Terraventos listing site: a Dafny model of its core logic

Terraventos is a small real-estate site. Visitors search and filter listings on the home page. They
browse a featured listing, a listing grid and two carousels. An administrator signs in and
creates, edits and deletes listings and their images. This project models the sequential logic
under that UI and proves properties of it. The logic covered is:

- the home page's search and filter predicate;
- the search box and the filter popup;
- the administration page's listing store;
- the image and price normalisers of the featured card;
- the row defaults of the listing grid;
- sign-in and sign-up validation and their messages;
- the route guard;
- the two carousels.

Backend calls are never modelled as calls. Their outcomes (rows, errors, upload results) are
parameters of the operation that receives them. `parseFloat` and the currency formatter are also
function parameters. State that a page changes in place is a `class` whose methods say what the
new state is. Pure expressions are functions, and lemmas state what the site promises about them.

Modules:

- `Wrappers`: `Option` and `Result`.
- `Js`: JavaScript values as untyped rows deliver them, nullish tests, truthiness, `??`, and the
  number `parseFloat` yields (NaN or finite).
- `Text`: `toLowerCase`, `includes`, `trim`, `startsWith`, `split`, `join` and `pop`.
- `Seqs`: `filter` and index deletion, with the subsequence relation.
- `PropertyModel` and `FilterModel`: the `Property` row and the `Filters` interface.
- `Home`: the home page's search and filter.
- `FiltersPopup`: the filter popup.
- `SearchBox`: the search box.
- `FilterSchemas`: how the popup's record meets the `Filters` readers (see Findings).
- `Admin`: the administration page.
- `Access`: the sign-in page.
- `Middleware`: the route guard.
- `FeaturedProperty`: the featured card.
- `PropertyGrid`: the listing grid.
- `TestimonialCard` and `PropertiesSection`: the two carousels.

In three places the code behaves differently from what its interface and labels suggest. The model
follows the code:

- After "clear search and filters" the home page shows the landing view. The filtered list is
  then empty (`Home.HomePage.HandleClearSearchAndFilters`), not the full list.
- A price that does not parse is not read as 0. It becomes NaN, and NaN passes every price bound
  (`Home.PriceExcludesOnlyOutside`).
- `featured` is declared as a list of strings. The page compares `Boolean(value)` with the row's
  flag, so any set value, even the empty list, keeps only featured rows
  (`FilterSchemas.FeaturedEmptyListDisagreement`).

## Model

| member | source | states |
|---|---|---|
| Seqs.Filter | src/app/page.tsx:72-79 | `filter` returns no more elements than it got; each is an input element passing the test, and every input element that passes is present |
| Seqs.FilterMultiplicity | src/app/page.tsx:72-79 | `filter` keeps every copy of a passing element and no copy of a failing one, so duplicates are counted exactly |
| Seqs.FilterIsSubsequence | src/app/page.tsx:83-124 | a filtered list is a subsequence of its input: order is kept and nothing is added |
| Seqs.SubsequenceTransitive | src/app/page.tsx:69-127 | two filtering stages in a row still give a subsequence of the original list |
| Seqs.DropIndexSpec | src/app/admin/page.tsx:221-228 | `filter((_, i) => i !== index)` removes exactly the element at an in-range index and keeps the rest in order; an out-of-range index removes nothing |
| Text.ToLower | src/app/page.tsx:73 | lower-casing keeps the length and maps each character on its own: capitals move by 32 code points, other characters stay |
| Text.TrimSpec | src/app/page.tsx:61 | `trim` leaves no white space at either end and removes only leading and trailing white space |
| Text.TrimEmptyIff | src/app/page.tsx:61 | a term trims to "" exactly when it is all white space |
| Text.TrimIdempotent | src/components/FeaturedProperty.tsx:33 | trimming twice equals trimming once |
| Text.JoinSplit | src/components/FeaturedProperty.tsx:31-32 | joining the pieces of `split` with the separator gives back the text |
| Text.SplitJoin | src/components/FeaturedProperty.tsx:31-32 | splitting a join of separator-free pieces gives back the pieces |
| Text.LastPieceSpec | src/app/admin/page.tsx:132 | `split("/").pop()` has no separator and is a suffix of the URL |
| Home.UnsetValuesImposeNothing | src/app/page.tsx:84-121 | undefined and null filter values, `propertyType` and keys outside the switch never exclude a property |
| Home.MissingCountIsZero | src/app/page.tsx:102-105 | bedrooms and bathrooms keep a property iff `(count ?? 0) >= threshold` |
| Home.AreaInclusive | src/app/page.tsx:106-113 | area is an inclusive range checked only at defined bounds; a missing area counts as 0 |
| Home.PriceExcludesOnlyOutside | src/app/page.tsx:88-101 | a price is excluded only when it parses and lies strictly outside a defined bound; NaN is never excluded; a missing price is parsed as "0" |
| Home.EmptyLocationDropsUnlocated | src/app/page.tsx:114-117 | the initial location "" keeps a property iff it has a location |
| Home.LowerKeepsOccurrence | src/app/page.tsx:73-77 | an occurrence of the term survives lower-casing of both sides |
| Home.SearchIsCaseInsensitive | src/app/page.tsx:71-79 | "praia" finds every property whose location contains "Praia" |
| Home.NothingShownWithoutSearch | src/app/page.tsx:60-67 | with a blank term and no active filter nothing is selected, not everything |
| Home.ClearedStateShowsNothing | src/app/page.tsx:130-140 | the cleared filters are inactive and the cleared state shows no results |
| Home.BedroomThresholdExample | src/app/page.tsx:102-103 | a minimum of 2 keeps a three-bedroom property and a minimum of 4 drops it |
| Home.HomePage.constructor | src/app/page.tsx:19-29 | the page starts with no rows, an empty term and the initial filter object |
| Home.HomePage.LoadProperties | src/app/page.tsx:32-41 | a successful load replaces the rows; a failed one leaves them |
| Home.HomePage.OnSearchChange | src/app/page.tsx:147 | the search box's term replaces the page's term and nothing else changes |
| Home.HomePage.OnFiltersChange | src/app/page.tsx:148 | the applied filter object replaces the page's filters wholesale |
| Home.HomePage.FilteredProperties | src/app/page.tsx:66-128 | the result is a subsequence of the rows, empty when no search is shown, and holds exactly the rows that pass the search stage and the filter stage, each as many times as it occurs in the rows |
| Home.HomePage.HandleClearSearchAndFilters | src/app/page.tsx:130-140 | the term becomes "", the filters the initial object, and afterwards no filter is active and no search is shown |
| FiltersPopup.With | src/components/FiltersPopup.tsx:32-34 | the changed key reads the new value and the other five keys are unchanged |
| FiltersPopup.ClearedIsBlank | src/components/FiltersPopup.tsx:7-14 | the initial record reads "" under all six keys |
| FiltersPopup.WithLaws | src/components/FiltersPopup.tsx:32-34 | writing a key's own value changes nothing; a second write overrides the first |
| FiltersPopup.AsFilters | src/components/FiltersPopup.tsx:36-38 | seen through the `Filters` interface, all seven declared fields are undefined; the six emitted keys are `priceMin` … `tamanhoMax` in order, none of them an interface key, each carrying the record's text |
| FiltersPopup.FiltersPopup.constructor | src/components/FiltersPopup.tsx:7-14 | the popup starts with the cleared record |
| FiltersPopup.FiltersPopup.HandleFilterChange | src/components/FiltersPopup.tsx:32-34 | the new record is the old one with the key set to the value |
| FiltersPopup.FiltersPopup.ClearFilters | src/components/FiltersPopup.tsx:41-50 | the record becomes the cleared one whatever it was, so clearing twice equals clearing once |
| FiltersPopup.FiltersPopup.HandleApplyFilters | src/components/FiltersPopup.tsx:36-39 | the record handed on is the current one, unchanged |
| SearchBox.InitialHasNoFilters | src/components/Search.tsx:21-29 | the initial filter object lights no badge |
| SearchBox.EachSettingCounts | src/components/Search.tsx:58-66 | a non-empty type, a set count, a set range bound or a non-empty location each light the badge |
| SearchBox.FeaturedAndLocationRules | src/components/Search.tsx:62-66 | an empty `featured` list and a "" location count as no filter |
| SearchBox.SearchBox.constructor | src/components/Search.tsx:15-29 | the box starts closed, with the prop as local term and the initial filters |
| SearchBox.SearchBox.SyncSearchTerm | src/components/Search.tsx:32-34 | a new prop value overwrites the local term |
| SearchBox.SearchBox.HandleSearchChange | src/components/Search.tsx:78-82 | typing changes only the local term |
| SearchBox.SearchBox.DebounceElapsed | src/components/Search.tsx:37-44 | the term is propagated iff a listener exists and the local term differs from the prop |
| SearchBox.SearchBox.OpenFilters | src/components/Search.tsx:108-109 | the button opens the popup and changes nothing else |
| SearchBox.SearchBox.CloseFilters | src/components/Search.tsx:88 | closing changes only the open flag |
| SearchBox.SearchBox.HandleApplyFilters | src/components/Search.tsx:70-76 | the object is stored, forwarded unchanged when a listener exists, and the popup closes |
| SearchBox.SearchBox.ApplyFromPopup | src/components/Search.tsx:86-91 | applying from the popup stores and forwards the popup's record as the readers see it, and closes |
| FilterSchemas.PopupFiltersAreIgnored | src/components/FiltersPopup.tsx:7-14 | whatever the popup holds, no page filter and no badge is active, and the selection equals the one for a cleared popup |
| FilterSchemas.BairroDoesNotNarrow | src/app/page.tsx:114-117 | with "Centro" chosen, a property without location is still shown |
| FilterSchemas.FeaturedEmptyListDisagreement | src/types/filters.tsx:13 | an empty `featured` list activates the page's filter, lights no badge, and keeps only featured rows |
| FilterSchemas.PopupToFilters | src/components/FiltersPopup.tsx:7-14 | the translated object is active iff a neighbourhood or a parsable bound is chosen, and lights the badge iff it is active or a type is chosen |
| FilterSchemas.CorrectedPopupFilters | src/app/page.tsx:84-121 | the translated object keeps exactly the properties the popup describes; a chosen neighbourhood narrows the results to it |
| Admin.Report | src/app/admin/page.tsx:90-98 | the banner is the operation's prefix followed by the error's message, or by the fixed unknown-error text |
| Admin.Truncate | src/app/admin/page.tsx:248-249 | `parseInt(x.toString())` truncates toward zero |
| Admin.ReplaceById | src/app/admin/page.tsx:283-287 | the mapped list has the same length; each row with the id becomes the saved row, every other row stays |
| Admin.FindById | src/app/admin/page.tsx:315 | `find` returns the first row with the id, or nothing iff no row has it |
| Admin.DeleteImages | src/app/admin/page.tsx:130-139 | one storage path per URL, in order, each `properties/` plus the URL's last segment |
| Admin.FormDefaults | src/app/admin/page.tsx:156-168 | `openModal` defaults with `||`: a missing or 0 count becomes 1, a missing area 0, missing texts "" |
| Admin.EmptyAdminSearch | src/app/admin/page.tsx:146-150 | with an empty term a row is listed iff it has a title or a location |
| Admin.RemovedImagesPartition | src/app/admin/page.tsx:266-269 | every old image is either kept in the final list or deleted, never both, and deletions keep the old order |
| Admin.StorageKeySpec | src/app/admin/page.tsx:132-135 | the storage path is `properties/` and a slash-free suffix of the URL |
| Admin.CreateThenLookupAndDelete | src/app/admin/page.tsx:264 | after create the new id finds the new row, every other id finds what it found before, and deleting a fresh id again restores the old list |
| Admin.EditReplacesOnlyMatching | src/app/admin/page.tsx:283-287 | edit keeps the length and every row with another id; without a matching id the list is unchanged |
| Admin.RemoveByIdSpec | src/app/admin/page.tsx:328 | delete leaves no row with the id and keeps every other row in order, with its multiplicity |
| Admin.AdminStore.constructor | src/app/admin/page.tsx:49-70 | the store starts empty, closed, in create mode, with the blank form |
| Admin.AdminStore.LoadProperties | src/app/admin/page.tsx:73-103 | a load replaces the rows, with missing image lists read as []; a failure sets the loading banner and keeps the rows |
| Admin.AdminStore.SetSearchTerm | src/app/admin/page.tsx:53 | only the search term changes |
| Admin.AdminStore.FilteredProperties | src/app/admin/page.tsx:146-150 | the listed rows are a subsequence of the store holding exactly the rows whose title or location contains the term, each as many times as in the store |
| Admin.AdminStore.OpenModal | src/app/admin/page.tsx:153-186 | the modal opens with the form filled from the property (or blank), the previews set to its images, no pending files and no banner |
| Admin.AdminStore.CloseModal | src/app/admin/page.tsx:189-195 | the modal closes and the property, files, previews and banner are cleared; the form is left as it was |
| Admin.AdminStore.HandleImageUpload | src/app/admin/page.tsx:213-216 | the chosen files replace the pending ones and nothing else changes |
| Admin.AdminStore.RemoveImage | src/app/admin/page.tsx:219-229 | an existing image leaves both the previews and the form at that index, leaving the files; a pending file leaves only the files |
| Admin.AdminStore.HandleSubmit | src/app/admin/page.tsx:232-304 | the sent images are the previews followed by the uploaded URLs; edit deletes exactly the old images not kept; create prepends and edit replaces by id; any failure sets the saving banner and leaves the list; with the open form consistent, the form's images are sent first |
| Admin.AdminStore.HandleDelete | src/app/admin/page.tsx:307-341 | without confirmation nothing happens; otherwise the first matching row's images are removed and, unless the delete fails, every row with the id goes |
| Access.SetField | src/app/acesso/page.tsx:58-64 | the named input reads the typed value and the other three inputs read what they read before |
| Access.ValidationReportsFirstFailure | src/app/acesso/page.tsx:71-111 | the message shown is the first failing check in order, and the form passes iff none fails |
| Access.ValidIff | src/app/acesso/page.tsx:71-111 | the form passes iff both fields are filled, the email matches, the password has 6 characters and, when signing up, a name is given and the confirmation agrees |
| Access.EmptyFieldsReportedFirst | src/app/acesso/page.tsx:74-80 | an empty email or password is reported before anything else |
| Access.LoginIgnoresSignUpFields | src/app/acesso/page.tsx:95-108 | in login mode the name and confirmation never change the outcome |
| Access.NameBeforeMismatch | src/app/acesso/page.tsx:96-107 | a missing name is reported before a mismatched confirmation |
| Access.ValidEmailShape | src/app/acesso/page.tsx:82 | an accepted email has an `@` followed later by a `.` and at least five characters |
| Access.EmailExamples | src/app/acesso/page.tsx:82 | "a@b.c" passes the email pattern and "a@ .c" does not |
| Access.EmptyFormFails | src/app/acesso/page.tsx:48-56 | the form left by a mode switch fails with the fill-all message |
| Access.ServiceErrorText | src/app/acesso/page.tsx:139-145 | the friendly text when the marker occurs, else the raw message, else the fallback; never empty |
| Access.MarkerAnywhere | src/app/acesso/page.tsx:179-185 | the marker is recognised wherever it sits in the service's message |
| Access.ErrorTextNeverEmpty | src/app/acesso/page.tsx:139-145 | a rejected sign-in or sign-up always shows a non-empty text |
| Access.AuthPage.constructor | src/app/acesso/page.tsx:20-31 | the page starts in login mode with an empty form and no banner |
| Access.AuthPage.ToggleMode | src/app/acesso/page.tsx:48-56 | switching mode resets all four fields and clears the banner |
| Access.AuthPage.HandleInputChange | src/app/acesso/page.tsx:58-69 | typing stores the value and clears a banner that has text |
| Access.AuthPage.ValidateForm | src/app/acesso/page.tsx:71-111 | the result is true iff no check fails; otherwise the first failure becomes the error banner |
| Access.AuthPage.HandleLogin | src/app/acesso/page.tsx:113-150 | the service is asked iff the form passes; success shows the success banner and schedules the redirect, failure shows the mapped text |
| Access.AuthPage.HandleSignUp | src/app/acesso/page.tsx:152-190 | the service is asked iff the form passes; success and failure show their banners |
| Access.AuthPage.Submit | src/app/acesso/page.tsx:275 | the form dispatches to login or sign-up by mode; only a successful login redirects; a validation failure shows the first failing check and a rejected request the mode's mapped error text |
| Access.AuthPage.HandleForgotPassword | src/app/acesso/page.tsx:192-226 | with an empty email an error is shown and the service is not asked; otherwise the outcome's banner |
| Middleware.Decide | src/middleware.ts:6-36 | a redirect goes to "/admin" or "/acesso" |
| Middleware.DecideCases | src/middleware.ts:17-35 | a session on "/acesso…" redirects to "/admin", no session on "/admin…" redirects to "/acesso", everything else passes |
| Middleware.OwnAreaPassesThrough | src/middleware.ts:17-32 | a session reaches "/admin…" and no session reaches "/acesso…" |
| Middleware.PrefixesExclusive | src/middleware.ts:20-29 | no path starts with both guarded prefixes |
| Middleware.PrefixMatching | src/middleware.ts:20-29 | any extension of a guarded prefix, such as "/admin-x", is guarded |
| Middleware.NoRedirectChain | src/middleware.ts:17-32 | the target of a redirect passes through, so no second redirect follows |
| FeaturedProperty.ProcessImagesClean | src/components/FeaturedProperty.tsx:24-37 | every returned URL is non-empty and trimmed |
| FeaturedProperty.ArrayImagesSpec | src/components/FeaturedProperty.tsx:25-29 | an array yields at most one URL per element in order, from exactly its non-blank string elements |
| FeaturedProperty.TextImagesSpec | src/components/FeaturedProperty.tsx:30-35 | a text yields its non-blank trimmed comma pieces in order, none containing a comma |
| FeaturedProperty.ImagesRoundTrip | src/components/FeaturedProperty.tsx:24-35 | clean URLs are read back unchanged from either the array or the comma-joined text |
| FeaturedProperty.OtherColumnsYieldNothing | src/components/FeaturedProperty.tsx:36 | neither an array nor a text yields no images |
| FeaturedProperty.KeepPriceChars | src/components/FeaturedProperty.tsx:45 | the cleaned price keeps only digits, commas, points and minus signs, in order |
| FeaturedProperty.ReplaceFirstComma | src/components/FeaturedProperty.tsx:45 | only the first comma becomes a point |
| FeaturedProperty.FormatPrice | src/components/FeaturedProperty.tsx:40-54 | a missing or empty price shows "Consulte o preço"; a price containing "R$" is unchanged; otherwise the formatted number when the cleaned text parses, and the price itself when it does not |
| FeaturedProperty.CleanedPriceChars | src/components/FeaturedProperty.tsx:44-46 | the text given to `parseFloat` holds only number characters and is no longer than the price |
| FeaturedProperty.WordsOnlyPriceKept | src/components/FeaturedProperty.tsx:44-53 | a price in words only is shown as written |
| FeaturedProperty.ProcessRows | src/components/FeaturedProperty.tsx:85-90 | a missing result gives []; otherwise one processed row per row in order, or the error banner iff some row throws |
| FeaturedProperty.ProcessRowKeepsColumns | src/components/FeaturedProperty.tsx:85-89 | a processed row keeps every other column and adds the shown price and the image list, element by element the URLs of `processImages` |
| FeaturedProperty.ProcessRowShowsStoredImages | src/components/FeaturedProperty.tsx:24-37 | a column of clean URLs, as an array or as comma-separated text, is shown as exactly those URLs in order |
| FeaturedProperty.ProcessRowThrowsOnlyOnOddPrices | src/components/FeaturedProperty.tsx:40-42 | a row throws iff its price is truthy and not a text |
| PropertyGrid.NormalizeRows | src/components/PropertyGrid.tsx:24 | one grid row per fetched row, in order; a missing result gives [] |
| PropertyGrid.TextDefaults | src/components/PropertyGrid.tsx:26-28 | only a nullish title, location or price takes its placeholder; "" is kept |
| PropertyGrid.NumberDefaults | src/components/PropertyGrid.tsx:29-33 | a nullish count or area becomes 0 and a missing featured false; 0 and other values are kept |
| PropertyGrid.ImagesAlwaysList | src/components/PropertyGrid.tsx:32 | an array of images passes through; anything else becomes [] |
| PropertyGrid.NoNullishColumns | src/components/PropertyGrid.tsx:24-34 | no shown column is nullish; the id is copied as it came |
| PropertyGrid.NormalizeTwice | src/components/PropertyGrid.tsx:24-34 | normalising a normalised row changes nothing |
| TestimonialCard.NextIndex | src/components/TestimonialCard.tsx:38-40 | the next index stays in [0, 3) and wraps from 2 to 0 |
| TestimonialCard.PrevIndex | src/components/TestimonialCard.tsx:42-46 | the previous index stays in [0, 3) and maps 0 to 2 |
| TestimonialCard.NextPrevInverse | src/components/TestimonialCard.tsx:38-46 | next after prev and prev after next both return the index |
| TestimonialCard.ThreeNextsReturn | src/components/TestimonialCard.tsx:39 | three nexts return to the start |
| TestimonialCard.Carousel.NextTestimonial | src/components/TestimonialCard.tsx:38-40 | the index steps forward and stays valid |
| TestimonialCard.Carousel.PrevTestimonial | src/components/TestimonialCard.tsx:42-46 | the index steps back and stays valid |
| TestimonialCard.Carousel.Tick | src/components/TestimonialCard.tsx:48-54 | the timer performs the forward step |
| PropertiesSection.Advance | src/components/PropertiesSection.tsx:23-25 | the step stays in [0, 2), always moves, and wraps 1 to 0 |
| PropertiesSection.TwoStepsReturn | src/components/PropertiesSection.tsx:24 | two steps return to the start |
| PropertiesSection.Showcase.HandleNext | src/components/PropertiesSection.tsx:23-25 | the arrow steps the index and keeps `properties[index]` defined |
| PropertiesSection.Showcase.IntervalTick | src/components/PropertiesSection.tsx:28-34 | the timer applies the same step as the arrow |

## Left out

- Backend calls (row select, insert, update and delete, storage upload, public URL and remove, and
  the auth calls) are not modelled as calls. Their outcomes are parameters of the handlers.
- The generated upload file name uses `Date.now()` and `Math.random()`, so it is not modelled. The
  upload step is one outcome: one URL per file in file order, or a failure.
- `Promise.all` runs the uploads concurrently. The model treats them as one atomic "all or fail" step.
- Timers are left out: the carousel intervals (only their step is modelled), the 300 ms debounce
  (modelled as the moment it fires) and the 1.5 s redirect delay (reported as a flag).
- `parseFloat` and `Intl.NumberFormat` are function parameters. Float rounding and infinities are
  not modelled, and numbers are reals.
- `window.confirm` is a parameter. The middleware's `matcher` pattern is framework configuration.
- The `loading`, `uploadingImages`, `showPassword` and `showConfirmPassword` flags and all
  rendering are left out.
- Admin form typing (`handleInputChange` in src/app/admin/page.tsx) is left out. It writes input
  texts into the numeric form fields, while the model keeps those fields as numbers.
- The already-signed-in check on the sign-in page runs through the backend and is left out.
- Admin.AdminStore.HandleSubmit: when the backend returns no row, `data[0]` is undefined. The
  model assumes a returned row.
- Admin.Truncate: models `parseInt` of the number's decimal text, but not the exponent notation
  that `toString` uses for very large or very small numbers.
- Access.LooksLikeEmail: `\S` is read with the white-space set of `Text.IsSpace`. That set covers
  ASCII white space, the no-break space, the byte-order mark and the line and paragraph separators,
  not every Unicode space.
- Text.TrimSpec: `trim` removes the white space of `Text.IsSpace` only, so the other Unicode spaces
  (U+3000, U+2000-U+200A, U+1680 and the like) are kept. The blank-search test and the image
  normaliser inherit this.
- Access.ValidationError: password length counts characters, not UTF-16 code units.
- Text.ToLower: covers ASCII and Latin-1 capitals only. The other Unicode case mappings are left out.
- Access.ServiceErrorText: the service's error is taken to carry a text message. A thrown value
  without `message` makes the page itself throw, and that case is left out.
- FeaturedProperty.PriceColumnText: an array price containing the element "R$" would be returned
  as is. The model treats every truthy non-text price as throwing.
- FeaturedProperty.ProcessRows: the select's own failure sets the same error banner. Only the row
  mapping is modelled.
- `Property.id` is a number as the admin page declares it, although src/types/property.tsx types it
  as a string. The home page never reads it.

## Findings

| source | as written | input that shows it | evidently intended | confidence | as-written member | corrected member |
|---|---|---|---|---|---|---|
| src/components/FiltersPopup.tsx:7-14 | the popup emits `priceMin`, `priceMax`, `bairro`, `tipoImovel`, `tamanhoMin` and `tamanhoMax`; the home page (src/app/page.tsx:44-57, 87-121) and the search box (src/components/Search.tsx:47-68) only read `priceRange`, `location`, `area`, `bedrooms`, `bathrooms`, `propertyType` and `featured`, so applying popup filters never filters and never lights the badge | choose bairro "Centro" and apply with no search term: no filter becomes active, nothing is shown, and a property without a location stays in any search result | the popup's fields translated into the `Filters` interface, so a chosen neighbourhood, price range or size range narrows the results | high, not executed | FilterSchemas.PopupFiltersAreIgnored | FilterSchemas.CorrectedPopupFilters |
