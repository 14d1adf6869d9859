# worshipsongs pages — a Dafny model

This project models the page logic of the worshipsongs web app, a tool for a
worship team. It covers the song library and setlists, and the team's
members and their service roles. Six pages are modelled:

- the **song library list** (`app/songs/page.tsx`): it filters by a search
  box and sorts under one of six modes;
- the **`/songs/new` route page** (`app/songs/new/page.tsx`): its default
  export renders the file's own local `SongNewOrEditPageInner` inside a
  `Suspense`. Any non-empty `id` parameter means edit, `handleSubmit`
  runs no checks of its own, and the lyrics are saved untrimmed;
- the **stand-alone new / edit song component**
  (`app/songs/new/SongNewOrEditPageInner.tsx`), which none of the other
  files shown imports. Edit mode needs a non-blank `id`, the song is loaded
  into the same five-field form, and a save validates the form, trims it
  and inserts or updates the `songs` row;
- the **new setlist page** (`app/setlists/new/page.tsx`): songs are picked
  in order, each picked song's key may be overridden, and saving inserts
  the setlist and then one numbered `setlist_songs` row per song;
- the **login / sign-up page** (`app/login/page.tsx`): it has two modes and
  the sign-up checks, and after sign-up it writes a `profiles` row with
  name, phone and ten role flags;
- the **members list** (`app/members/page.tsx`): a display name, a phone
  and the labels of the roles each member serves in.

The model is organised as follows:

- **Pure computations are functions with lemmas.** This covers filtering,
  toggling, key overrides, row building, validation, payloads and sorting.
- **Pages whose handlers update state are classes.** These are the setlist,
  login and both song-form pages. The class holds the page's state, and
  each handler is a method whose `ensures` ties the new state to those
  functions.
- **The read-only pages are functions of their state.** The song list
  recomputes its view from the loaded songs, the search and the sort mode,
  so `FilteredAndSorted` takes all three as arguments. Each members-list
  row is a function of the loaded member.
- **Every answer from the backend is a method parameter.** That means
  Supabase replies, returned ids and error messages.
- **Date parsing and `localeCompare` are fields of an `Env` value** that
  the sort comparator receives.

Shared modules:

- `Seqs`: `NoDup`, `IsSubsequence`, `Filter`, `Without`.
- `Text`:
  - JavaScript `trim` over the ECMAScript white-space set;
  - string truthiness;
  - `a.trim() || null`;
  - ASCII `toLowerCase` and `toUpperCase`;
  - `includes`.
- `Search`: the query and match rule shared by two pages.
- `Roles`: the ten service roles and a record of ten flags.
- `SongForm`: the song form, the loaded row and the save payload.

## Model

| member | source | states |
|---|---|---|
| Search.Query | app/songs/page.tsx:98 | the query is the trimmed search with each character lower-cased: same length as the trimmed search, character by character its lower-case form; it is empty exactly when the search is all white space |
| Search.MatchesIgnoresCase | app/songs/page.tsx:101-106 | a song's match does not depend on the case of its title and lyrics: the upper-cased song matches exactly the queries the song matches |
| Search.FilterSongs | app/songs/page.tsx:98-107 | a blank query keeps the whole list; otherwise a song is kept iff its lower-cased title or lyrics contain the query; the result keeps list order |
| SetlistBuilder.FilterSongs | app/setlists/new/page.tsx:110-119 | `filteredSongs`: the whole library for a blank query, otherwise exactly the songs whose title or lyrics contain it, in library order |
| SetlistBuilder.Toggle | app/setlists/new/page.tsx:121-127 | the id becomes picked iff it was not; every other id keeps its state; a newly picked id goes last; the rest of the order is kept; no duplicates appear |
| SetlistBuilder.ToggleTwice | app/setlists/new/page.tsx:121-127 | toggling twice gives back the selection iff the song was unpicked or was the last one picked; otherwise the song moves to the end |
| SetlistBuilder.SetOverride | app/setlists/new/page.tsx:129-134 | `changeKey` sets one song's override to the typed value; every other override is unchanged |
| SetlistBuilder.CurrentKey | app/setlists/new/page.tsx:320-323 | the key shown beside a song: its override if one was typed, else its original key, else the empty string |
| SetlistBuilder.CurrentKeyAfterChange | app/setlists/new/page.tsx:320-323 | after an edit, that song shows the typed key and every other song shows what it showed before |
| SetlistBuilder.StoredOverrideIsShownKey | app/setlists/new/page.tsx:187-198 | a song whose key field was never edited saves `null`; an edited one saves the shown key, trimmed, exactly when that is non-blank and differs from a non-empty original key |
| SetlistBuilder.FindSong | app/setlists/new/page.tsx:186 | `songs.find`: none iff no song has the id, otherwise the first song with that id |
| SetlistBuilder.KeyOverride | app/setlists/new/page.tsx:187-198 | the stored override is the trimmed override, kept iff it is non-empty, the song is known with a non-empty original key, and the two differ; `null` otherwise |
| SetlistBuilder.KeyOverrideMeaningful | app/setlists/new/page.tsx:187-198 | a stored override is non-empty, unpadded and never the original key; re-choosing an unpadded original key stores `null` |
| SetlistBuilder.RowsFrom | app/setlists/new/page.tsx:185-200 | one row per id, in order, numbered from `start + 1`, with that song's key override |
| SetlistBuilder.BuildRows | app/setlists/new/page.tsx:185-200 | row i carries the new setlist id, the i-th picked song, position i + 1 and that song's override |
| SetlistBuilder.RowsWellFormed | app/setlists/new/page.tsx:185-200 | positions run 1..n, strictly increasing; a duplicate-free selection gives rows for distinct songs |
| SetlistBuilder.CheckSubmit | app/setlists/new/page.tsx:143-156 | the first failing check wins: not signed in, then a blank name, then no song picked; each error is stated as an iff |
| SetlistBuilder.SetlistBuilderPage.constructor | app/setlists/new/page.tsx:24-36 | the initial state: empty name, no selection, no overrides, empty search, not saving, no error |
| SetlistBuilder.SetlistBuilderPage.TypeName | app/setlists/new/page.tsx:284 | the name input sets the name |
| SetlistBuilder.SetlistBuilderPage.TypeSearch | app/setlists/new/page.tsx:301 | the search input sets the query; the listed songs follow it and keep library order |
| SetlistBuilder.SetlistBuilderPage.ToggleSong | app/setlists/new/page.tsx:121-127 | the selection becomes `Toggle` of the old one and stays duplicate-free |
| SetlistBuilder.SetlistBuilderPage.ChangeKey | app/setlists/new/page.tsx:129-134 | the overrides become `SetOverride` of the old ones |
| SetlistBuilder.SetlistBuilderPage.Submit | app/setlists/new/page.tsx:139-221 | a failed check sets its error and sends nothing. Otherwise it sends the trimmed name; a missing or empty setlist id gives the create error; otherwise it sends `BuildRows` and then reports the rows error or navigates to `/setlists/<id>`. Saving always ends false. With a duplicate-free selection, the sent rows name distinct songs at increasing positions |
| LoginForm.ToggledRoles | app/login/page.tsx:31-33 | `toggleRole` flips role k and leaves the other nine |
| LoginForm.ToggleRoleTwice | app/login/page.tsx:31-33 | flipping a role twice restores all ten flags |
| LoginForm.CheckSignup | app/login/page.tsx:46-67 | login checks nothing. Sign-up checks, first failure wins: blank e-mail, then blank full name, then a password under 6 characters, then a mismatched confirmation; each is an iff |
| LoginForm.ProfilePayload | app/login/page.tsx:99-114 | the profile row holds the user id, the trimmed full name, the trimmed phone (`null` iff blank) and the ten flags as chosen |
| LoginForm.LoginPage.constructor | app/login/page.tsx:10-38 | the page starts in login mode with empty fields, no role and no error |
| LoginForm.LoginPage.ToggleRole | app/login/page.tsx:31-33 | the roles become `ToggledRoles` of the old ones |
| LoginForm.LoginPage.SwitchTo | app/login/page.tsx:128-150 | sets the mode and clears the error and both passwords; going to login also clears name, phone and every role; the e-mail stays |
| LoginForm.LoginPage.Submit | app/login/page.tsx:40-126 | a failed sign-up check sets its error and calls nothing. Login signs in with the trimmed e-mail. Sign-up signs up, and then either reports the backend's message, or reports that no user was created, or writes `ProfilePayload` and reports the profile error. Loading ends false |
| Members.MemberRoles | app/members/page.tsx:157-159 | a role's label is listed iff its flag is set; the list is empty iff no flag is set; at most ten labels |
| Members.Label | app/members/page.tsx:23-34 | each role's label in `ROLE_LABELS` is a capitalised word of at least four letters |
| Members.LabelInjective | app/members/page.tsx:23-34 | no two roles share a label |
| Members.TableOf | app/members/page.tsx:23-34 | the table built for `ROLE_LABELS` pairs each role of `AllRoles`, in order, with its label |
| Members.ListedIff | app/members/page.tsx:23-34 | over any table pairing each role with its label, a label is listed iff its role's flag is set |
| Members.MemberRolesInTableOrder | app/members/page.tsx:157-159 | the labels appear in `ROLE_LABELS` order |
| Members.RoleLabelsIsLabelTable | app/members/page.tsx:23-34 | `ROLE_LABELS` pairs every role with its own label |
| Members.RolesCellOf | app/members/page.tsx:170-173 | the "no role chosen" placeholder appears iff no flag is set; otherwise the chips are exactly `MemberRoles` and non-empty |
| Members.DisplayName | app/members/page.tsx:164 | the full name when it is non-empty, the placeholder `(нэр байхгүй)` otherwise |
| Members.DisplayPhone | app/members/page.tsx:167 | the phone, or the empty string when there is none |
| Members.SignupShownInList | app/login/page.tsx:99-114 | a member who signed up is listed with their trimmed name (or the placeholder), their trimmed phone and exactly the roles they ticked |
| SongForm.Form.With | app/songs/new/SongNewOrEditPageInner.tsx:162-170 | `updateField` replaces field k and keeps the other four |
| SongForm.FromRecord | app/songs/new/SongNewOrEditPageInner.tsx:114-120 | each form field is its column's value, or `''` for a `null` column |
| SongEditor.EditSongId | app/songs/new/SongNewOrEditPageInner.tsx:32-35 | edit mode iff the `id` parameter is present and not blank; the id is used untrimmed |
| SongEditor.CheckSong | app/songs/new/SongNewOrEditPageInner.tsx:187-194 | a blank title is reported first, then blank lyrics; each error is stated as an iff |
| SongEditor.EditorPayload | app/songs/new/SongNewOrEditPageInner.tsx:181-185 | title and lyrics are trimmed; key, tempo and YouTube link are trimmed and `null` when empty |
| SongEditor.TrimOrNullStable | app/songs/new/SongNewOrEditPageInner.tsx:114-120 | a stored optional column reloaded as `''` for `null` and saved again gives the same column |
| SongEditor.EditorReloadRoundTrip | app/songs/new/SongNewOrEditPageInner.tsx:175-242 | reloading the row a valid form saved yields a valid form, and saving it again sends the same payload |
| SongEditor.SongEditorPage.constructor | app/songs/new/SongNewOrEditPageInner.tsx:40-43 | the page starts with the empty form, not loading the song, not saving and no error |
| SongEditor.SongEditorPage.UpdateField | app/songs/new/SongNewOrEditPageInner.tsx:162-170 | the form becomes the old form with field k replaced |
| SongEditor.SongEditorPage.TypeOriginalKey | app/songs/new/SongNewOrEditPageInner.tsx:301-304 | the key field gets the upper-cased input and holds no lower-case ASCII letter |
| SongEditor.SongEditorPage.LoadSong | app/songs/new/SongNewOrEditPageInner.tsx:88-130 | without an id the form resets to empty and the error clears; with an id a load error is reported, a row fills the form, and no row changes nothing |
| SongEditor.SongEditorPage.Submit | app/songs/new/SongNewOrEditPageInner.tsx:175-242 | while saving it does nothing; a failed check sets its error; otherwise it updates (edit mode) or inserts `EditorPayload`, then reports the matching failure or navigates to `/songs/<id>` |
| SongPage.ModeOf | app/songs/new/page.tsx:42-43 | edit iff the `id` parameter is a non-empty string |
| SongPage.ModesDiffer | app/songs/new/page.tsx:42-43 | the two song pages disagree on the mode iff `id` is non-empty and all white space |
| SongPage.PagePayload | app/songs/new/page.tsx:130-136 | title trimmed, lyrics verbatim; key, tempo and YouTube link trimmed and `null` when empty |
| SongPage.PayloadsDiffer | app/songs/new/page.tsx:142-148 | the two pages' payloads differ only in the lyrics, and only when the lyrics begin or end with white space |
| SongPage.PageReloadRoundTrip | app/songs/new/page.tsx:97-103 | reloading a saved row and saving again sends the same payload |
| SongPage.SongPageState.HandleChange | app/songs/new/page.tsx:113-121 | the form becomes the old form with field k replaced |
| SongPage.SongPageState.LoadSong | app/songs/new/page.tsx:72-111 | it runs only in edit mode for a signed-in user; an error is reported, otherwise the row fills the form |
| SongPage.SongPageState.constructor | app/songs/new/page.tsx:38-40 | the page starts with the empty form, not saving and no error |
| SongPage.SongPageState.Submit | app/songs/new/page.tsx:123-162 | with no checks of its own, it inserts (new) or updates (edit) `PagePayload`; it succeeds iff the backend reports no error, whose message becomes the page error |
| SongLibrary.SortKey | app/songs/page.tsx:126-133 | a song sorts by its original key, or by `''` when it has none |
| SongLibrary.Compare | app/songs/page.tsx:110-137 | newest puts a later time first and oldest an earlier one, tying on equal times; the title modes use the `'mn'` collation and the key modes the `'en'` collation, with the arguments swapped for descending; any other mode returns 0 |
| SongLibrary.CompareMirrors | app/songs/page.tsx:110-137 | each descending mode is its ascending partner with the arguments swapped; a missing key sorts as `''`; an unknown mode finds all pairs equal |
| SongLibrary.Insert | app/songs/page.tsx:109 | inserting one element adds exactly that element |
| SongLibrary.SortBy | app/songs/page.tsx:109 | the sort is a permutation of its input |
| SongLibrary.InsertSorted | app/songs/page.tsx:109 | insertion into a sorted list under a total preorder keeps it sorted |
| SongLibrary.SortSorted | app/songs/page.tsx:109 | under a total preorder the sort's result is ordered |
| SongLibrary.SortAllEqual | app/songs/page.tsx:135-136 | with a comparator that finds all pairs equal, the stable sort keeps the order |
| SongLibrary.FilterInsert | app/songs/page.tsx:109 | inserting an element among elements it ties with places it before all of them |
| SongLibrary.SortStable | app/songs/page.tsx:109 | the sort is stable: elements that tie with one another keep their input order |
| SongLibrary.ComparatorPreorder | app/songs/page.tsx:110-137 | every mode's comparator is a total preorder when both collations are |
| SongLibrary.FilterRows | app/songs/page.tsx:98-107 | the whole list for a blank query, otherwise exactly the matching songs, in order |
| SongLibrary.FilteredAndSorted | app/songs/page.tsx:97-141 | the result holds each filtered song exactly as often as the filter gives it; a song appears iff it is loaded and matches (or the query is blank) |
| SongLibrary.FilteredAndSortedOrdered | app/songs/page.tsx:97-141 | the list is ordered by the chosen mode whenever the collations are total preorders |
| SongLibrary.FilteredAndSortedStable | app/songs/page.tsx:97-141 | songs that tie under the chosen mode appear in the list in loaded order |
| SongLibrary.SameKeyKeepsOrder | app/songs/page.tsx:125-134 | under either key order, songs sharing a key are listed in loaded order |
| SongLibrary.UnrecognisedKeepsOrder | app/songs/page.tsx:135-136 | an unknown sort mode leaves the filtered songs in loaded order |

## Left out

- The chord engine is not part of this model. It covers transposition, note
  tables and chord-line parsing, and none of the six pages contains it.
- All Supabase calls are replaced by their replies, passed as parameters.
  This covers authentication, table reads and writes, the session and the
  auth-state subscription. Network timing, request ordering and the
  `ignore` flags that drop late replies are not modelled.
- Loading effects and their flags are not modelled. This covers user
  loading, song-library loading on the setlist and list pages, and member
  loading. The classes start from the loaded state. Besides copying a reply
  into state, these effects have branches that are left out with them:
  - the setlist page empties its song list when nobody is signed in
    (`app/setlists/new/page.tsx:70-73`);
  - a failed song-library load, on the setlist page and on the list page,
    sets the load error and empties the list
    (`app/setlists/new/page.tsx:89-92`, `app/songs/page.tsx:80-83`);
  - the members page sends a visitor without a session to `/login`
    (`app/members/page.tsx:60-64`), and a failed or throwing member load
    sets its error and empties the list (`app/members/page.tsx:89-105`).
- Rendering (the JSX), routing side effects and `router.refresh()` are not
  modelled. Navigation is an output value.
- The song list and the members list have no class. Their state setters
  (`setSearch`, `setSortMode`, `setSongs`, `setMembers`) only store a
  value. Their views are modelled as functions of that state:
  `FilteredAndSorted` for the song list; `MemberRoles`, `RolesCellOf`,
  `DisplayName` and `DisplayPhone` for the members list.
- `app/setlists/page.tsx` (listing and deleting setlists) is not part of
  this model.
- The setlist's `date` column is left out. It is today's date from the
  clock, as `yyyy-mm-dd`.
- `new Date(s).getTime()` and `localeCompare` with the `'mn'` and `'en'`
  locales are abstract functions in `Env`. `NaN` times are not modelled:
  times are integers.
- `toLowerCase` and `toUpperCase` are modelled for ASCII letters only.
  Unicode case mapping, including Cyrillic titles, is not modelled.
- String lengths are counted in characters, not UTF-16 code units. This
  matters for the sign-up rule `password.length < 6`.
- Members.MemberRoles: role columns are modelled as booleans, so a `null`
  flag (shown as not set because of `=== true`) is not distinguished from
  `false`.
- The browser's constraint validation is not modelled. On the `/songs/new`
  route page the title input and the lyrics textarea are `required`
  (`app/songs/new/page.tsx:214-215`, `:278-279`). On the login page the
  e-mail input is `type="email" required` (`app/login/page.tsx:170-171`)
  and both password inputs are `required minLength={6}` (`:325-326`,
  `:349-350`). While one of these fails, the browser does not fire the
  submit. The `Submit` methods of `SongPage.SongPageState` and
  `LoginForm.LoginPage` model the handler only, as it runs after that
  validation has passed, so they also accept submits the browser would
  block (an empty title, an empty e-mail).
- LoginForm.LoginPage.Submit: a thrown error always carries a message. The
  fallback `'Алдаа гарлаа.'` for an error without `message` is not
  modelled.
- SongPage.SongPageState.Submit: a thrown error always carries a message.
  The fallback text is not modelled, and neither is the navigation to
  `/songs` on success.
- SongPage.SongPageState.LoadSong: a reply with neither data nor error is
  not modelled. The source would then read `data.title` from `null`.
- SetlistBuilder.ToggleTwice: toggling twice restores the selection only
  conditionally. This is what the source does, not a weakening: a
  re-picked song moves to the end.
- SetlistBuilder.KeyOverride: the source compares the trimmed override
  with the untrimmed original key, and the model keeps that. So
  re-choosing a padded original key stores an override. The lemma's second
  half is stated for unpadded keys only.
- SongLibrary.SortSorted: sortedness is proved under the assumption that
  the comparator is a total preorder. `Array.prototype.sort` with an
  inconsistent comparator has an implementation-defined order. The model
  sorts with a stable insertion sort, as the ECMAScript standard requires
  of `sort`.
- SongLibrary.FilteredAndSorted: the source sorts a fresh copy in place.
  This is modelled as a pure function on sequences.
