# Rentify, modelled in Dafny

Rentify is a rental marketplace front end. Owners list apartments, rooms, bedspaces,
commercial spaces, houses and cars, and renters browse them. Almost all of it is markup.
This model covers the logic underneath:

- **Property store.** An in-memory list seeded from static data. `addProperty` prepends a
  record. `deleteProperty` removes records by id (`PropertyStore`).
- **Listing selectors.**
  - The listings page filters by type (`Listings`).
  - The landing page shows the first four featured records (`Landing`).
  - The profile page shows the seed listings of one hard-coded owner (`Profile`).
- **Listing creation.**
  - The create-listing page has a schema, an owner-only access rule and the record it builds
    (`CreateListingPage`).
  - The AI-assisted form has its own schema, an image editor capped at five images that keeps
    files and previews in lockstep, and the guards in front of its AI helpers
    (`CreateListingForm`).
- **Session.**
  - The session has two states: logged out, or a user name plus a role. It is mirrored into the
    browser's key/value storage and restored on startup (`Auth`).
  - The login form turns its inputs into a role with a fixed rule (`LoginForm`).
  - The signup form checks that every field is filled in (`SignupForm`).
- **Inbox.** A guarded append of one message to the open conversation, and the rule that
  picks the sender id by role (`Inbox`).
- **Header navigation.** The entries chosen by role, and when a notification badge shows
  (`AppHeader`).

Shared modules:

- `Types`: the record types.
- `MockData`: the seed fixture, with every value as in the source.
- `Seqs`: the semantics of `Array.prototype.filter` and `slice(0, n)`, plus subsequence
  reasoning.
- `Text`: `startsWith`, blankness under `trim()`, and the decimal rendering of timestamps.
- `Wrappers`: `Option`.

Modelling conventions:

- Stateful source becomes a class whose methods state their whole new state:
  - the store `PropertyProvider`;
  - the session `AuthProvider`;
  - the form `FormState`;
  - the pages `ListingsPage` and `InboxPage`.
- Pure source becomes functions, with lemmas for the properties the code promises.
- Time (`Date.now()`, `new Date()`) is an integer millisecond parameter.
- Browser storage is a `map<string, string>`, and `JSON.parse` is a function parameter that
  may fail.
- The outcomes of the AI calls are parameters of the handlers that await them.

Where source files disagree with each other, the model follows each file's own code:

- Several pages test `isAuthenticated === null`, but the auth context (src/context/auth-context.tsx)
  only provides a boolean `!!user`.
  - Those pages take an `Option<bool>`, where `None` is the null case.
  - The context itself yields only `Some(b)`.
  - `CreateListingPage.AccessRule` states what happens in both cases.
- Login and signup use `language` and `signup` from the context, which the context does not
  provide. The signup form is modelled up to the call `signup(name, role)`.
- The create-listing form imports a `generateTitleAction` that its actions file does not
  export. The title flow is modelled from the form's own code.

## Model

| member | source | states |
|---|---|---|
| Types.ParsePropertyType | src/lib/types.ts:2 | a string is accepted as a property type only if it is that type's tag |
| Types.PropertyTypeHasSixValues | src/lib/types.ts:2 | there are exactly six property types: every type is among apartment, room, bedspace, commercial, house and car, and the six are distinct |
| Types.PropertyTypeTagRoundTrip | src/lib/types.ts:2 | parsing a type's tag gives that type back, and a string parses to a type iff it is that type's tag |
| Types.FurnishingHasTwoValues | src/lib/types.ts:3 | furnishing is either furnished or unfurnished, and the two differ |
| Types.Ids | src/lib/types.ts:13-14 | the ids of a list of records, position by position |
| Text.Utf16Length | src/app/create-listing/page.tsx:26 | `length` counts UTF-16 code units: between one and two per character, exactly one per character iff none lies beyond the Basic Multilingual Plane, exactly two iff all do |
| Text.Utf16LengthConcat | src/app/create-listing/page.tsx:26 | the code-unit length of a concatenation is the sum of the lengths |
| Text.Utf16LengthOfEmojiTitle | src/app/create-listing/page.tsx:26 | two letters and two emoji are four characters but six code units |
| Text.TrimmedIsEmpty | src/app/inbox/page.tsx:52 | `trim()` leaves nothing iff every character is ECMAScript white space or a line terminator |
| Text.Decimal | src/app/inbox/page.tsx:55 | the decimal text of a number is non-empty, all digits, and one digit long iff the number is below ten |
| Text.DecimalInjective | src/app/create-listing/page.tsx:66 | different numbers give different decimal texts |
| MockData.SeedIdsDistinct | src/lib/mock-data.ts:33-120 | the seed ids are prop-1 to prop-5 in order, and they are pairwise distinct |
| MockData.SeedWellFormed | src/lib/mock-data.ts:33-120 | every seed price is positive (2200, 800, 300, 5000, 1500) and every seed record has at least one image |
| MockData.SeedOwnersExist | src/lib/mock-data.ts:4-18 | every seed owner id names an owner in the seed owner list |
| MockData.SeedTypes | src/lib/mock-data.ts:38-106 | in store order the seed types are apartment, room, bedspace, commercial, apartment |
| MockData.SeedFeatured | src/lib/mock-data.ts:42-110 | a seed record is featured iff it is prop-1 or prop-4 |
| MockData.SeedConversationsHaveMessages | src/lib/mock-data.ts:133-166 | every seed conversation has at least one message, so reading the last message is safe |
| MockData.SeedSenderNotParticipant | src/lib/mock-data.ts:154-165 | convo-3 is between owner-1 and renter-2, yet its first message comes from renter-1, so message senders are not always participants |
| PropertyStore.PropertyProvider.constructor | src/context/property-context.tsx:16 | the store starts as the seed list |
| PropertyStore.PropertyProvider.AddProperty | src/context/property-context.tsx:18-20 | the new store is the record followed by the old store |
| PropertyStore.PropertyProvider.DeleteProperty | src/context/property-context.tsx:22-24 | the new store is the old one without the records carrying that id |
| PropertyStore.AddKeepsOrder | src/context/property-context.tsx:19 | adding grows the store by one, puts the record first, and keeps every old entry in order |
| PropertyStore.AddAcceptsDuplicateId | src/context/property-context.tsx:19 | adding a record whose id is already taken still inserts it, and the ids stop being unique |
| PropertyStore.AddUniqueIff | src/context/property-context.tsx:19 | over a store with unique ids, ids stay unique after an add iff the new id was absent |
| PropertyStore.DeleteSpec | src/context/property-context.tsx:23 | after a delete no record has that id, every other record is kept, and the result is a subsequence of the old store |
| PropertyStore.DeleteAbsentAndIdempotent | src/context/property-context.tsx:23 | deleting an absent id changes nothing, and deleting twice equals deleting once |
| PropertyStore.AddThenDeleteRestores | src/context/property-context.tsx:18-24 | adding a record with a fresh id and then deleting that id restores the original store |
| PropertyStore.DeleteRemovesExactlyOne | src/context/property-context.tsx:23 | with unique ids, deleting a present id shortens the store by exactly one |
| PropertyStore.DeletePreservesInvariants | src/context/property-context.tsx:23 | deleting keeps ids unique and keeps every record well formed |
| Seqs.Filter | src/context/property-context.tsx:23 | filtering keeps only elements that pass and never grows the list |
| Seqs.FilterMembers | src/context/property-context.tsx:23 | every kept element comes from the input, and every input element that passes is kept |
| Seqs.FilterCongruent | src/app/listings/page.tsx:24-26 | two tests that agree on every element select the same sublist |
| Seqs.FilterIsSubsequence | src/app/listings/page.tsx:24-26 | a filter result is a subsequence of its input, so input order is kept |
| Seqs.FilterLength | src/app/page.tsx:19 | a filter result has as many elements as the input has accepted ones |
| Seqs.SubsequenceTransitive | src/app/page.tsx:19 | a subsequence of a subsequence is a subsequence |
| Listings.InitialFilter | src/app/listings/page.tsx:19-22 | the initial filter is the `type` query value when it is present and non-empty, and `all` otherwise |
| Listings.Matches | src/app/listings/page.tsx:24-26 | a record passes the filter when the filter is `all` or equals the record's type tag |
| Listings.FilteredProperties | src/app/listings/page.tsx:24-26 | the shown list is the store filtered by `Matches`, in store order |
| Listings.AllShowsEverything | src/app/listings/page.tsx:24-26 | with filter `all` the page shows the whole store in store order |
| Listings.TypeFilterExact | src/app/listings/page.tsx:24-26 | with a type's tag as the filter, every shown record has that type, every record of that type is shown, store order is kept, and the result equals the store filtered by kind, duplicates included |
| Listings.FilterIsSubsequenceOfStore | src/app/listings/page.tsx:24 | whatever the filter, the result is a subsequence of the store |
| Listings.UnknownFilterMatchesNothing | src/app/listings/page.tsx:22-26 | a filter that is neither `all` nor a type tag (the query value is cast unchecked) shows nothing |
| Listings.Render | src/app/listings/page.tsx:99-139 | the map placeholder shows iff the view is map; otherwise "No Listings Found" appears iff the filtered list is empty, else its cards in grid or list form |
| Listings.SeedApartments | src/app/listings/page.tsx:24-26 | over the seed, filter `apartment` gives prop-1 then prop-5 |
| Listings.ListingsPage.constructor | src/app/listings/page.tsx:19-22 | the page mounts in grid view with the initial filter |
| Listings.ListingsPage.OnFilterChange | src/app/listings/page.tsx:67 | the chosen tab value becomes the filter, and the view is unchanged |
| Listings.ListingsPage.OnViewChange | src/app/listings/page.tsx:81-83 | the view changes only when the toggle gives a non-empty value |
| Landing.FeaturedSpec | src/app/page.tsx:19 | the selection holds only featured records and at most four; its length is min(4, number featured); it is a prefix of the featured records and a subsequence of the store |
| Landing.IsFeatured | src/app/page.tsx:19 | the test `p => p.featured` |
| Landing.FeaturedProperties | src/app/page.tsx:19 | the first four featured records of the store |
| Landing.ShowsFeaturedSection | src/app/page.tsx:70 | the featured section renders iff some record in the store is featured |
| Landing.SeedFeatured | src/app/page.tsx:19 | over the seed, the selection is prop-1 then prop-4 |
| Landing.CategoryLinksFilterByType | src/app/page.tsx:10-15 | every category link carries a type tag, and the listings page adopts it as its initial filter |
| Profile.FindOwner | src/app/profile/page.tsx:49 | the lookup fails iff no owner has the id; otherwise it returns the first owner with that id |
| Profile.UserProperties | src/app/profile/page.tsx:50-52 | the seed listings whose owner id is owner-1, in seed order |
| Profile.Redirects | src/app/profile/page.tsx:18-22 | the page leaves for the login page only when the session is definitely absent |
| Profile.Render | src/app/profile/page.tsx:24-56 | a skeleton shows when the session is unknown, absent or has no user; "not found" shows iff no owner matches; otherwise the owner `find` returns, the listings of owner-1 and a count equal to their number |
| Profile.UserPropertiesExact | src/app/profile/page.tsx:48-52 | every listed record belongs to owner-1, and every owner-1 record of the static seed is listed, in seed order |
| Profile.SeedUserProperties | src/app/profile/page.tsx:50-52 | the seed listings of owner-1 are prop-1, prop-3 and prop-5, in that order |
| Profile.SeedProfile | src/app/profile/page.tsx:48-87 | for a logged-in user the page shows the first seed owner with prop-1, prop-3 and prop-5, and a count of 3 |
| CreateListingPage.ListingKind | src/app/create-listing/page.tsx:27-29 | a type is accepted iff it is apartment, room, bedspace or commercial, and it maps to that type |
| CreateListingPage.ListingErrors | src/app/create-listing/page.tsx:25-40 | no errors iff the title has 5+ UTF-16 code units, the location 5+, the description 20+, the type is one of the four, rent > 0, advance and deposit >= 0, a date is given, and at least one photo |
| CreateListingPage.EmojiTitleLongEnough | src/app/create-listing/page.tsx:26 | two letters and two emoji (six code units, four characters) pass the title minimum |
| CreateListingPage.NewProperty | src/app/create-listing/page.tsx:64-79 | the record has these fields: id `prop-<now>`; the form's title, description and location; type = the chosen type; price = the rent; not featured; owner owner-1; unfurnished; one placeholder image; amenities WiFi and Kitchen; no details; available now iff now >= the available-from date |
| CreateListingPage.NewPropertyWellFormed | src/app/create-listing/page.tsx:64-79 | a record built from accepted values has a positive price, an image, and one of the four types |
| CreateListingPage.NewIdsDiffer | src/app/create-listing/page.tsx:66 | listings created at different instants get different ids |
| CreateListingPage.NewId | src/app/create-listing/page.tsx:66 | the new id is `prop-` followed by the decimal timestamp |
| CreateListingPage.AccessRule | src/app/create-listing/page.tsx:50-54 | with a known session the page redirects iff it does not show the form; while the session is unknown it does neither |
| CreateListingPage.Redirects | src/app/create-listing/page.tsx:50-54 | redirect when the session is definitely absent, or present with a role other than owner |
| CreateListingPage.ShowsForm | src/app/create-listing/page.tsx:90 | the form shows only with an authenticated owner |
| CreateListingPage.StartOfDay | src/app/create-listing/page.tsx:275 | start of day is the midnight at or before now, less than a day earlier |
| CreateListingPage.SelectableDates | src/app/create-listing/page.tsx:274-276 | every instant from now on can be picked, and every date that can be picked is less than a day in the past |
| CreateListingPage.DateSelectable | src/app/create-listing/page.tsx:274-276 | a date can be picked unless it lies before the start of today |
| CreateListingPage.Submit | src/app/create-listing/page.tsx:64-81 | on accepted values the new record is put in front of the store; on rejected values the store is unchanged |
| CreateListingForm.FormErrors | src/app/create-listing/create-listing-form.tsx:34-50 | no errors iff the title has 5+ UTF-16 code units, the type is apartment, house, car or commercial, the description has 20-500 code units, price > 0, the location has 2+ code units, and there are 1 to 5 images |
| CreateListingForm.AstralDescriptionTooLong | src/app/create-listing/create-listing-form.tsx:41-42 | 300 characters beyond the Basic Multilingual Plane (600 code units) exceed the description maximum |
| CreateListingForm.AfterFileChange | src/app/create-listing/create-listing-form.tsx:83-99 | the new image list starts with the old one, and what follows is a prefix of the selected files |
| CreateListingForm.AddedFiles | src/app/create-listing/create-listing-form.tsx:88-99 | the files a change appends: the image list after it is the old list followed by them |
| CreateListingForm.Previews | src/app/create-listing/create-listing-form.tsx:101-102 | one preview per file, each made for the file at the same position |
| CreateListingForm.NoFilesNoChange | src/app/create-listing/create-listing-form.tsx:84-85 | selecting no files changes nothing |
| CreateListingForm.FullListRejects | src/app/create-listing/create-listing-form.tsx:87-96 | with five or more images present, nothing is added |
| CreateListingForm.AddedFilesExact | src/app/create-listing/create-listing-form.tsx:88-99 | otherwise the first min(n, 5 - old) selected files are appended, and the list stays at most five |
| CreateListingForm.FileChangeBound | src/app/create-listing/create-listing-form.tsx:88-99 | a list of at most five images stays at most five |
| CreateListingForm.RemoveAt | src/app/create-listing/create-listing-form.tsx:111-112 | `splice(index, 1)`: an index in range shortens the list by one; an index at or past the end changes nothing |
| CreateListingForm.RemoveInRange | src/app/create-listing/create-listing-form.tsx:111-112 | removing at an index in range deletes exactly that element and keeps the others in order |
| CreateListingForm.RemoveNegative | src/app/create-listing/create-listing-form.tsx:111-112 | a negative index counts from the end; one that reaches past the start removes the first element |
| CreateListingForm.RemoveKeepsLockstep | src/app/create-listing/create-listing-form.tsx:105-116 | removing at the same index from the files and from their previews keeps each preview matched to its file |
| CreateListingForm.PreviewsConcat | src/app/create-listing/create-listing-form.tsx:99-102 | the previews of the extended list are the old previews followed by the previews of the added files |
| CreateListingForm.FormState.constructor | src/app/create-listing/create-listing-form.tsx:58-73 | the form starts with its default values, no images and no previews |
| CreateListingForm.FormState.Valid | src/app/create-listing/create-listing-form.tsx:83-116 | the editor invariant: the previews are those of the images, and there are at most five images |
| CreateListingForm.FormState.HandleFileChange | src/app/create-listing/create-listing-form.tsx:83-103 | images become the old list plus the files that fit, and previews grow by one per added file; it reports the limit rejection; it keeps the lockstep invariant and the five-image bound |
| CreateListingForm.FormState.HandleRemoveImage | src/app/create-listing/create-listing-form.tsx:105-116 | the same splice is applied to the files and to the previews; it keeps the lockstep invariant |
| CreateListingForm.FormState.HandleEnhanceDescription | src/app/create-listing/create-listing-form.tsx:126-161 | refused unless description and type are both filled in; on success the description is replaced and the suggestions are stored; a failed call changes nothing |
| CreateListingForm.FormState.HandleGenerateTitles | src/app/create-listing/create-listing-form.tsx:163-221 | refused unless type and location are both filled in; on success the suggested titles are replaced and the popover ends open; otherwise the trigger's own toggle flips the popover |
| CreateListingForm.FormState.ChooseTitle | src/app/create-listing/create-listing-form.tsx:236-238 | choosing a suggestion sets the title to exactly that string and closes the popover |
| CreateListingForm.FormState.Submit | src/app/create-listing/create-listing-form.tsx:118-124 | submitting reports the schema's verdict and changes no state |
| CreateListingForm.EditorStaysBounded | src/app/create-listing/create-listing-form.tsx:83-116 | neither adding nor removing images takes a list of at most five above five |
| Auth.CastRole | src/context/auth-context.tsx:33 | an unchecked cast: the role it yields is stored back as the same string |
| Auth.CastRoleRoundTrip | src/context/auth-context.tsx:33-50 | casting back a stored declared role gives that role |
| Auth.UserJson | src/context/auth-context.tsx:49 | the stored user text is a JSON object that reads back, through `ParseUserJson`, as the same user |
| Auth.JsonEscape | src/context/auth-context.tsx:49 | how `JSON.stringify` writes one character: quote and backslash escaped, the short escapes for backspace, form feed, newline, return and tab, `\u00XX` for other control characters |
| Auth.JsonUnescapeAll | src/context/auth-context.tsx:35 | the text the inside of a JSON string literal stands for, or failure when it is not one |
| Auth.ParseUserJson | src/context/auth-context.tsx:35 | the user a stored object with a single `name` string stands for, or failure |
| Auth.ReadStoredUser | src/context/auth-context.tsx:35-42 | `JSON.parse` on stored user texts: the user, or a throw |
| Auth.HexDigit | src/context/auth-context.tsx:49 | a hexadecimal digit written for a `\u00XX` escape reads back as its value |
| Auth.ReadJsonChar | src/context/auth-context.tsx:35 | reading one character of a JSON string literal consumes at least one and at most all of the remaining text |
| Auth.ReadEscaped | src/context/auth-context.tsx:35-49 | what `JSON.stringify` writes for one character reads back as exactly that character, consuming exactly what was written |
| Auth.JsonEscapeRoundTrip | src/context/auth-context.tsx:35-49 | reading back an escaped string literal gives the original string, whatever characters it holds |
| Auth.LoginRestoredByJsonParse | src/context/auth-context.tsx:28-51 | with the parser that reads the stored user object, a reload after login restores exactly the logged-in session |
| Auth.Restore | src/context/auth-context.tsx:28-43 | the session is restored only if both keys hold non-empty values; a parse failure removes both keys and stays logged out; otherwise the parsed user and the cast role are restored and storage is untouched |
| Auth.StoreLogin | src/context/auth-context.tsx:45-51 | login writes the user text and the role name under the two keys |
| Auth.StoreLogout | src/context/auth-context.tsx:53-59 | logout removes both keys |
| Auth.Mirrors | src/context/auth-context.tsx:28-59 | storage agrees with the session: both keys absent when logged out, both holding the session when logged in |
| Auth.LoginSurvivesReload | src/context/auth-context.tsx:32-51 | after a login, storage agrees with the session, and a reload restores exactly that session |
| Auth.LogoutSurvivesReload | src/context/auth-context.tsx:32-59 | after a logout both keys are gone, and a reload restores nothing |
| Auth.AuthProvider.constructor | src/context/auth-context.tsx:24-25 | the provider starts logged out |
| Auth.AuthProvider.IsAuthenticated | src/context/auth-context.tsx:61 | authenticated iff a user is present |
| Auth.AuthProvider.RestoreSession | src/context/auth-context.tsx:28-43 | storage becomes the restored storage; only a successful restore sets the user and role, so from the initial state the session becomes the restored session |
| Auth.AuthProvider.Login | src/context/auth-context.tsx:45-51 | the user becomes `{name}` and the role is set; both keys are written, and storage agrees with the session |
| Auth.AuthProvider.Logout | src/context/auth-context.tsx:53-59 | user and role are cleared, both keys are removed, and storage agrees with the logged-out session |
| LoginForm.ResolveLogin | src/app/login/login-form.tsx:82-94 | login fails iff the credentials are not the admin pair and the email lacks the prefix of the tab's own role; a success always carries a declared role |
| LoginForm.AdminOnEitherTab | src/app/login/login-form.tsx:85-87 | the admin credentials give role admin and name "Admin" on either tab |
| LoginForm.AdminTakesPriority | src/app/login/login-form.tsx:85-94 | whenever the admin credentials match, the result is admin, whatever the email prefix |
| LoginForm.PrefixLogin | src/app/login/login-form.tsx:88-93 | a `renter…` email on the renter tab gives renter/"Renter", and an `owner…` email on the owner tab gives owner/"Property Owner", whatever the password |
| LoginForm.WrongTabFails | src/app/login/login-form.tsx:88-93 | a prefix that belongs to the other tab fails |
| LoginForm.HandleSubmit | src/app/login/login-form.tsx:76-110 | on a resolved login it logs in with the resolved name and role; otherwise user, role and storage are unchanged |
| SignupForm.TabRole | src/app/signup/signup-form.tsx:65 | the role a tab signs up as is never admin |
| SignupForm.HandleSubmit | src/app/signup/signup-form.tsx:65-81 | refused iff some field is empty; otherwise it signs up with the name and the tab's role |
| SignupForm.NoContentCheck | src/app/signup/signup-form.tsx:72 | any non-empty fields are accepted, even an email without `@` |
| Inbox.SenderRule | src/app/inbox/page.tsx:56 | the sender is the owner's id for an owner, and the renter's id for every other role, admin included |
| Inbox.SenderIdFor | src/app/inbox/page.tsx:56 | the sender id: the owner's for the owner role, the renter's otherwise |
| Inbox.MessageId | src/app/inbox/page.tsx:55 | the message id is `msg-` followed by the decimal timestamp |
| Inbox.IsOwn | src/app/inbox/page.tsx:149 | a message is drawn as one's own when its sender id carries the viewer role's prefix |
| Inbox.RoleTruthy | src/app/inbox/page.tsx:34 | the role is present and not the empty string |
| Inbox.OwnNeedsUserRole | src/app/inbox/page.tsx:149 | only an owner or a renter ever sees a message as their own |
| Inbox.SentMessageShownAsOwn | src/app/inbox/page.tsx:149 | in a conversation whose ids carry their role prefixes, what an owner or renter sends is shown as their own |
| Inbox.AdminNeverOwn | src/app/inbox/page.tsx:149 | an admin's messages go out under the renter's id and are never shown as the admin's own |
| Inbox.SeedParticipantsPrefixed | src/lib/mock-data.ts:131-161 | in every seed conversation the owner id starts with `owner` and the renter id with `renter` |
| Inbox.InboxPage.constructor | src/app/inbox/page.tsx:26-29 | the page starts with no conversations, none selected, no messages and an empty draft |
| Inbox.InboxPage.OnAuthChange | src/app/inbox/page.tsx:31-43 | it redirects iff the session is absent; with a session and a role it lists all seed conversations and opens the first; otherwise nothing changes |
| Inbox.InboxPage.SelectConversation | src/app/inbox/page.tsx:45-48 | the shown messages become exactly that conversation's stored messages |
| Inbox.InboxPage.Back | src/app/inbox/page.tsx:129 | the mobile back button closes the conversation |
| Inbox.InboxPage.SetDraft | src/app/inbox/page.tsx:29 | typing changes only the draft |
| Inbox.InboxPage.SendMessage | src/app/inbox/page.tsx:50-63 | with a blank draft or no open conversation nothing changes; otherwise exactly one message is appended (id `msg-<now>`, the role's sender, the draft text), the earlier ones are kept, and the draft is cleared |
| Inbox.SendThenReselect | src/app/inbox/page.tsx:45-61 | messages appended locally are lost when the conversation is selected again |
| AppHeader.NavItemsByRole | src/components/app-header.tsx:78-93 | renters get Listings, Inbox, Support; owners get My Listings, Create Listing, Inbox, Support; every other role, or none, gets nothing |
| AppHeader.NavItems | src/components/app-header.tsx:78-93 | renter entries for renters, owner entries for owners, none otherwise |
| AppHeader.Labels | src/components/app-header.tsx:106-115 | the labels drawn, one per entry, in order |
| AppHeader.ShowsBadge | src/components/app-header.tsx:116 | a badge is drawn for a present, positive count |
| AppHeader.BadgesByRole | src/components/app-header.tsx:80-116 | only the inbox entry shows a badge, with 3 for renters and 1 for owners |
| AppHeader.MobileNavItems | src/components/app-header.tsx:200-231 | the mobile menu lists the entries only when someone is logged in |
| AppHeader.CreateLinkMatchesAccess | src/components/app-header.tsx:86-93 | the header offers the create-listing link exactly to the role the create-listing page admits |

## Left out

- The AI flows and their server actions (src/ai/flows/*.ts, src/app/create-listing/actions.ts):
  - they are prompt templates for an external language model;
  - the handlers take the awaited outcome as a parameter.
- The smart-search dialog: an asynchronous foreign call whose results feed code that is not
  part of this model.
- Presentation-only files: settings, support, layout, login page, logo, sidebar, property card
  and delete dialog.
- Toasts, `router.push` and React transitions:
  - redirects appear only as returned booleans or predicates;
  - the toast on limit rejection appears as `limitReached`.
- `URL.createObjectURL` and `revokeObjectURL`: a preview is a token naming its file, so the
  model does not capture that two object URLs for the same file differ.
- Real `localStorage` and `JSON.parse`:
  - storage is a map, and parsing is a parameter;
  - a parse that yields some non-object value is folded into "falsy or a user".
- Auth.ReadJsonChar: does not read an escaped surrogate pair (`\uD83D\uDE00`), because a Dafny
  character cannot be a lone surrogate; `JSON.stringify` writes such characters unescaped, so
  the round trip does not need it.
- Auth.ParseUserJson: reads only the exact shape `JSON.stringify({ name })` writes (no white
  space, the single key `name`), not every JSON text `JSON.parse` accepts.
- The popover component library is not part of this model: its trigger is taken to run the
  button's own click handler and then toggle the popover, as that library documents. The
  trigger's disabled state while titles are being generated is not modelled.
- The translation tables and the language switcher: labels are translation keys.
- The compile-time inconsistencies: the auth context lacks `language`, `setLanguage` and
  `signup`; `generateTitleAction` is not exported; a tag is stray.
- SignupForm.HandleSubmit: stops at the call `signup(name, role)`, because the context shown
  defines no `signup` and so its effect is not part of this model.
- Prices, rents, advances and deposits are unbounded integers, not IEEE doubles.
- `z.coerce.number()` is not modelled: the schemas receive numbers that are already parsed.
- CreateListingPage.StartOfDay: uses UTC days; the browser's local time zone is not modelled.
- The field-by-field bindings of the form inputs: only the fields the handlers read or write
  are state.
- Inbox.InboxPage.SendMessage: the ISO timestamp is a parameter and is not derived from `now`.
- The mobile/desktop split of the inbox layout, and the conversation search box, which does
  nothing.
