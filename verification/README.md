# Shopping-list app: a verified model of its stores, views and forms

This project models the logic of a React/Redux shopping-list application in Dafny.

- The live Redux slices are classes with one method per reducer case:
  - the list store (`listsSlice`);
  - the item store (`itemsSlice`);
  - the session store (`authSlice`).

  Each method's `ensures` gives the whole new state. A ghost invariant states what the
  store keeps: the selection names a stored list, the stored items belong to the active
  list, and the persisted session mirrors the user.
- The async thunks are pure functions. Their backend replies are parameters: a
  `Reply<T>` is a body or a thrown error; a function parameter stands for a request whose
  argument matters. A thunk returns how it settles, as a `Settled<T>`: fulfilled with a
  value, or rejected with an optional payload.
- The home and share pages have three parts:
  - the `visibleItems`/`visibleLists` projections: a case-insensitive name filter, a category filter, and a stable sort on one of four keys;
  - the query-parameter defaults;
  - the setters that set or delete one key of a `URLSearchParams` copy.
- Form validators: `RegisterPage`'s first-failure chain, `ProfilePage`'s two guards,
  and `SignupForm`'s collect-all-errors validation with its unanchored e-mail pattern.
- Client-side filters on backend replies: `listsApi` and `itemsApi`.
- Four legacy slices that are still in the tree:
  - `shoppingListSlice`;
  - `itemSlice`;
  - `profileSlice`;
  - `signupSlice`, whose registration checks the email and then the phone.

Supporting modules:

- `Wrappers`: `Option`, `Reply`, `Settled`, JavaScript truthiness, `String(payload || fallback)`.
- `Text`: `trim` with ECMAScript's exact white-space set, ASCII lower-casing, `includes`.
- `Seqs`: `filter`, `findIndex` plus replacement, `map`, `[0] ?? null`.
- `Sorting`: a stable insertion sort under an abstract total preorder that stands for `localeCompare`.
- `SearchParams`: `get`, `set` and `delete` with the semantics of the WHATWG URL standard (section 6.2, `URLSearchParams`).
- `Checks`: an early-return validator read as a sequence of checks.

The `ShoppingList` record (`Types.ShoppingList`) has the fields the list store and API
read and write.

## Model

| member | source | states |
|---|---|---|
| Wrappers.ErrorText | src/features/lists/listsSlice.ts:157 | the stored error is the payload when it is truthy and the case's default otherwise |
| Wrappers.Settle | src/features/lists/listsSlice.ts:34-38 | a one-request thunk fulfils exactly when the request replies, with its body, and otherwise rejects with the `catch`'s payload |
| Wrappers.Resolve | src/features/itemSlice.ts:52-58 | `await call; return id` fulfils with the id exactly when the call replies, and rejects with no payload otherwise |
| Text.Trim | src/pages/RegisterPage.tsx:57-60 | exactly the leading and trailing white space is dropped: the result is a slice of the input with only white space before and after it, and it neither starts nor ends with white space |
| Text.TrimStart | src/pages/RegisterPage.tsx:57-60 | exactly the leading white space is dropped: the result is a suffix of the input, what was dropped is all white space, and the result does not start with white space |
| Text.TrimEnd | src/pages/RegisterPage.tsx:57-60 | exactly the trailing white space is dropped: the result is a prefix of the input, what was dropped is all white space, and the result does not end with white space |
| Text.BlankIffAllSpace | src/pages/HomePage.tsx:149 | `value.trim()` is falsy exactly when every character is ECMAScript white space |
| Text.TrimIdempotent | src/pages/RegisterPage.tsx:57-60 | trimming a trimmed field changes nothing |
| Text.LowerChar | src/pages/HomePage.tsx:188 | `A`-`Z` map to `a`-`z` and every other character is kept |
| Text.ToLower | src/pages/HomePage.tsx:188 | lower-casing keeps the length and maps each character, changing only `A`-`Z` |
| Text.ToLowerIdempotent | src/pages/HomePage.tsx:188 | lower-casing twice is lower-casing once |
| Text.Contains | src/pages/HomePage.tsx:188 | the empty needle is always contained, and a contained needle is no longer than the text |
| Text.ContainsIff | src/pages/HomePage.tsx:188 | `includes` holds exactly when the needle occurs at some index of the text |
| Seqs.Filter | src/features/lists/listsApi.ts:7 | `filter` keeps exactly the elements that pass, each as often as before, in their original order |
| Seqs.FilterAll | src/features/lists/listsApi.ts:7 | filtering with a predicate every element passes returns the sequence itself |
| Seqs.FilterAppend | src/features/shoppingListSlice.ts:117-130 | filtering a concatenation is concatenating the filtered parts |
| Seqs.IndexOf | src/features/lists/listsSlice.ts:177 | `findIndex` is -1 exactly when no element has the key, and otherwise the first index that has it |
| Seqs.ReplaceFirst | src/features/lists/listsSlice.ts:177-178 | the first element with the new element's key is replaced; the length and every other entry are unchanged, and nothing changes when the key is absent |
| Seqs.ReplaceFirstKeepsKeys | src/features/itemSlice.ts:72-75 | replacing the first element with a key keeps the sequence of keys, so an update never adds, drops or moves an id |
| Seqs.RemoveKey | src/features/lists/listsSlice.ts:184 | exactly the elements with another key remain, in order, each as often as before |
| Seqs.RemoveKeyIdempotent | src/features/items/itemsSlice.ts:182-184 | removing a key twice is removing it once |
| Seqs.RemoveAppended | src/features/shoppingListSlice.ts:117-130 | removing the key of an element just appended, when no earlier element has that key, restores the sequence |
| Seqs.RemoveAfterReplace | src/features/itemSlice.ts:72-78 | after the key is removed, an earlier replacement under that key leaves no trace |
| Seqs.First | src/features/lists/listsApi.ts:29 | `[0] ?? null` is null exactly for an empty sequence, and otherwise its first element |
| Seqs.Map | src/features/items/itemsApi.ts:32 | `map` keeps the length and applies the function at each index |
| Sorting.InOrderTotal | src/pages/HomePage.tsx:57-69 | every two elements are comparable under the chosen key and direction |
| Sorting.InOrderTransitive | src/pages/HomePage.tsx:57-69 | the order under a key and direction is transitive |
| Sorting.Insert | src/pages/HomePage.tsx:58-68 | inserting adds exactly one element and keeps the others |
| Sorting.InsertSorted | src/pages/HomePage.tsx:58-68 | inserting into a sorted sequence keeps it sorted |
| Sorting.SortBy | src/pages/HomePage.tsx:58-68 | the sort of a copy is a permutation of its input and is ordered by the key |
| Sorting.InsertTies | src/pages/HomePage.tsx:58-68 | inserting keeps the order of the elements that tie with a key |
| Sorting.SortByStable | src/pages/HomePage.tsx:58-68 | elements that compare equal keep their input order (`Array.prototype.sort` is stable) |
| SearchParams.Get | src/utils/urlState.ts:21 | `get` is null exactly when no pair has the name, and otherwise the value of the first pair with that name |
| SearchParams.Delete | src/pages/HomePage.tsx:150 | `delete` removes exactly the pairs with that name and keeps every other pair as often as before |
| SearchParams.Set | src/pages/HomePage.tsx:149 | after `set`, the name has exactly the one value |
| SearchParams.GetAfterSet | src/pages/HomePage.tsx:149 | reading back a name just set gives the value |
| SearchParams.SetKeepsOtherPairs | src/pages/HomePage.tsx:149 | `set` changes no pair with another name |
| SearchParams.SetLeavesOnePair | src/pages/HomePage.tsx:149 | after `set`, at most one pair carries the name (and `Set` guarantees there is one) |
| SearchParams.SetAppendsWhenAbsent | src/pages/HomePage.tsx:149 | `set` of a name no pair carries appends one pair at the end |
| SearchParams.SetAtFirstPair | src/pages/HomePage.tsx:149 | `set` writes the value where the first pair with the name was, and keeps every pair before it |
| SearchParams.DeleteIdempotent | src/pages/HomePage.tsx:150 | deleting twice is deleting once |
| SearchParams.GetAfterDeleteOther | src/pages/HomePage.tsx:150 | deleting one name does not change what another name reads |
| SearchParams.GetAfterSetOther | src/pages/HomePage.tsx:149 | setting one name does not change what another name reads |
| Types.Strip | src/features/auth/authSlice.ts:52-53 | the session user keeps every field of the stored user except the password hash, which it has no field for |
| Checks.FirstFailureCons | src/pages/RegisterPage.tsx:34-43 | the chain checks its first check before the rest |
| Checks.FirstFailureSpec | src/pages/RegisterPage.tsx:33-44 | the result is null exactly when every check passes; otherwise it is the message of a failing check that all earlier checks pass |
| Checks.FirstFailure | src/pages/RegisterPage.tsx:33-44 | a message returned is the message of a failing check |
| Checks.FirstFailureAt | src/pages/RegisterPage.tsx:34-42 | when check k is the first to fail, its message is the result |
| UrlState.GetUrlState | src/utils/urlState.ts:20-25 | `search` is the raw parameter or ""; `sort` is the raw parameter when valid and `date_desc` otherwise, so it always passes `isValidSort` |
| UrlState.IsValidSort | src/utils/urlState.ts:9-18 | `isValidSort` holds for exactly the six keys |
| ListsApi.FetchListsByUser | src/features/lists/listsApi.ts:4-8 | exactly the lists of the user, each as often as in the reply, in reply order and no longer than it; a failed request stays failed |
| ListsApi.FetchListByShareToken | src/features/lists/listsApi.ts:25-30 | the first list of the reply, or null exactly when the reply is empty |
| ItemsApi.FetchItemsByList | src/features/items/itemsApi.ts:4-9 | exactly the items of the list, each as often as in the reply, in reply order and no longer than it |
| ItemsApi.FetchItemIdsForList | src/features/items/itemsApi.ts:28-33 | one id per reply element, in reply order |
| ListsSlice.AlphabetUrlSafe | src/features/lists/listsSlice.ts:106 | nanoid's alphabet has 64 characters, each of `A-Za-z0-9_-` |
| ListsSlice.NanoId | src/features/lists/listsSlice.ts:106 | an id drawn from n random bytes has n characters, each URL-safe |
| ListsSlice.NewList | src/features/lists/listsSlice.ts:46-53 | the posted list has the trimmed name, `createdAt == updatedAt == now`, and no token |
| ListsSlice.FetchListsThunk | src/features/lists/listsSlice.ts:31-40 | a fulfilled payload holds exactly the user's lists, each as often as in the reply, in reply order; a failure rejects with "Failed to load lists." |
| ListsSlice.AddListThunk | src/features/lists/listsSlice.ts:42-59 | fulfils with the backend's reply to posting `NewList`, else rejects with "Failed to add list." |
| ListsSlice.UpdatePatch | src/features/lists/listsSlice.ts:65-69 | the update patch carries only the trimmed name and `updatedAt` |
| ListsSlice.UpdateListThunk | src/features/lists/listsSlice.ts:61-74 | fulfils with the body of the reply to the patch exactly when the request replies, else rejects with "Failed to update list." |
| ListsSlice.SharePatch | src/features/lists/listsSlice.ts:105-110 | the share patch carries a 12-character URL-safe token and `updatedAt`, and no name |
| ListsSlice.ShareListThunk | src/features/lists/listsSlice.ts:101-115 | fulfils with the body of the reply to the share patch exactly when the request replies, else rejects with "Failed to generate share link." |
| ListsSlice.DeleteListThunk | src/features/lists/listsSlice.ts:76-95 | fulfils with the id exactly when the list deletion succeeds and, if asked, the id lookup and every item deletion too; otherwise rejects with "Failed to delete list." |
| ListsSlice.FetchSelection | src/features/lists/listsSlice.ts:142-153 | with lists, a selection still present is kept and any other selection becomes the first list's id; with no lists it is null (or an empty-string selection, which JavaScript treats as none) |
| ListsSlice.FetchSelectionIdempotent | src/features/lists/listsSlice.ts:138-154 | storing the same fetch result twice selects what storing it once does |
| ListsSlice.AfterDelete | src/features/lists/listsSlice.ts:182-189 | the lists without the id; a deleted selection moves to the first remaining list or null, any other selection stays |
| ListsSlice.AfterDeleteRemoves | src/features/lists/listsSlice.ts:182-189 | no list with the id remains, the rest keep their order, and the selection never names the deleted id |
| ListsSlice.AfterDeleteIdempotent | src/features/lists/listsSlice.ts:182-189 | deleting the same id twice has the effect of deleting it once |
| ListsSlice.ReplaceKeepsIds | src/features/lists/listsSlice.ts:176-179 | an update or share keeps the set of list ids |
| ListsSlice.ListsStore.constructor | src/features/lists/listsSlice.ts:24-29 | the initial state is empty and satisfies the selection invariant |
| ListsSlice.ListsStore.SelectList | src/features/lists/listsSlice.ts:121-123 | only the selection changes |
| ListsSlice.ListsStore.ClearListsState | src/features/lists/listsSlice.ts:124-129 | every field is reset |
| ListsSlice.ListsStore.OnPending | src/features/lists/listsSlice.ts:134-137 | `loading` is set and `error` cleared; lists and selection are unchanged |
| ListsSlice.ListsStore.OnFetchSettled | src/features/lists/listsSlice.ts:138-158 | success stores the lists and the reconciled selection, and the invariant holds; failure stores the payload or the default and leaves lists and selection |
| ListsSlice.ListsStore.OnAddSettled | src/features/lists/listsSlice.ts:165-173 | success prepends the list and selects it; failure stores the payload or the default |
| ListsSlice.ListsStore.OnReplaceSettled | src/features/lists/listsSlice.ts:176-179 | success replaces the entry with the matching id in place; nothing else changes, and the invariant is kept |
| ListsSlice.ListsStore.OnDeleteSettled | src/features/lists/listsSlice.ts:182-189 | success applies `AfterDelete`; a failure changes nothing; the invariant is kept |
| ListsSlice.ListsStore.SelectedList | src/features/lists/listsSlice.ts:207-210 | the first list whose id is the selection, as `find` returns it, or null exactly when there is no selection or no such list |
| ItemsSlice.TrimOr | src/features/items/itemsSlice.ts:63 | `x.trim() \|\| fallback`: the fallback for blank text, otherwise the non-empty trim |
| ItemsSlice.OptionalText | src/features/items/itemsSlice.ts:64-65 | an optional text is always present: "" when missing, otherwise its trim |
| ItemsSlice.NewItem | src/features/items/itemsSlice.ts:55-69 | the posted item has the trimmed name, a non-empty category that defaults to "Other" when blank, notes and image URL present and trimmed, and `createdAt == updatedAt` |
| ItemsSlice.FetchItemsThunk | src/features/items/itemsSlice.ts:28-38 | a fulfilled page names the requested list and holds exactly its items, each as often as in the reply, in reply order; a failure rejects with "Failed to load items." |
| ItemsSlice.AddItemThunk | src/features/items/itemsSlice.ts:40-76 | fulfils with the backend's reply to posting `NewItem`, else rejects with "Failed to add item." |
| ItemsSlice.NormalisePatch | src/features/items/itemsSlice.ts:93-105 | the patch always gets `updatedAt`; each text field present is trimmed, an absent one stays absent, and the quantity is kept |
| ItemsSlice.UpdateItemThunk | src/features/items/itemsSlice.ts:78-112 | sends the normalised patch (`updatedAt`, quantity kept, each present text field trimmed and each absent one absent) and fulfils with the reply body exactly when the request replies, else rejects with "Failed to update item." |
| ItemsSlice.DeleteItemThunk | src/features/items/itemsSlice.ts:114-124 | fulfils with the id exactly when the deletion succeeds, else rejects with "Failed to delete item." |
| ItemsSlice.DeleteIdempotent | src/features/items/itemsSlice.ts:182-184 | repeating a delete changes nothing |
| ItemsSlice.UpdateKeepsIds | src/features/items/itemsSlice.ts:176-179 | an update keeps the ids of the items, in order |
| ItemsSlice.ItemsStore.constructor | src/features/items/itemsSlice.ts:21-26 | the initial state is empty and satisfies the active-list invariant |
| ItemsSlice.ItemsStore.ClearItemsState | src/features/items/itemsSlice.ts:130-135 | every field is reset |
| ItemsSlice.ItemsStore.SetActiveListId | src/features/items/itemsSlice.ts:136-138 | only the active list changes |
| ItemsSlice.ItemsStore.OnPending | src/features/items/itemsSlice.ts:143-146 | `loading` is set and `error` cleared; items and active list are unchanged |
| ItemsSlice.ItemsStore.OnFetchSettled | src/features/items/itemsSlice.ts:147-155 | success stores the page's items and makes its list active; failure stores the payload or the default and leaves the items |
| ItemsSlice.ItemsStore.OnAddSettled | src/features/items/itemsSlice.ts:162-173 | success prepends the item exactly when no list is active or it belongs to the active one; failure stores the payload or the default; the invariant is kept |
| ItemsSlice.ItemsStore.OnUpdateSettled | src/features/items/itemsSlice.ts:176-179 | success replaces the entry with the matching id in place; nothing else changes |
| ItemsSlice.ItemsStore.OnDeleteSettled | src/features/items/itemsSlice.ts:182-184 | success removes every entry with the id and keeps the order of the rest; the invariant is kept |
| AuthSlice.RegisterThunk | src/features/auth/authSlice.ts:22-55 | an existing email rejects with "Email already registered." and posts nothing; otherwise the posted user stores the hash, never the password, and has `createdAt == updatedAt`; the payload is the stripped created user |
| AuthSlice.LoginThunk | src/features/auth/authSlice.ts:57-69 | an unknown email and a wrong password reject with the same "Invalid email or password."; success is the stripped user |
| AuthSlice.ProfilePatch | src/features/auth/authSlice.ts:79-84 | the profile patch touches only name, surname, cell and `updatedAt` |
| AuthSlice.CredentialsPatch | src/features/auth/authSlice.ts:101-108 | the credentials patch has the email and `updatedAt`, and a hash exactly when the new password is non-empty |
| AuthSlice.UpdateProfileThunk | src/features/auth/authSlice.ts:71-91 | fulfils with the stripped updated user exactly when the request replies, else rejects with "Failed to update profile." |
| AuthSlice.UpdateCredentialsThunk | src/features/auth/authSlice.ts:93-117 | fulfils with the stripped updated user exactly when the request replies, else rejects with "Failed to update credentials." |
| AuthSlice.DefaultError | src/features/auth/authSlice.ts:145-193 | each thunk's rejected case has its own non-empty default message |
| AuthSlice.AuthStore.constructor | src/features/auth/authSlice.ts:15-20 | the store starts from the persisted session user, if any |
| AuthSlice.AuthStore.OnPending | src/features/auth/authSlice.ts:136-184 | `loading` is set and `error` cleared; the user is unchanged |
| AuthSlice.AuthStore.OnSettled | src/features/auth/authSlice.ts:140-193 | success stores and persists the user; failure stores the payload or that case's default and keeps the user |
| AuthSlice.AuthStore.Logout | src/features/auth/authSlice.ts:123-128 | the user, loading and error are reset and the persisted session is removed |
| AuthSlice.AuthStore.ClearAuthError | src/features/auth/authSlice.ts:129-131 | only `error` changes |
| Views.NameFilter | src/pages/HomePage.tsx:187-189 | exactly the elements whose lower-cased name contains the lower-cased search, as often as before, in order |
| Views.CategoryFilter | src/pages/HomePage.tsx:191-193 | exactly the elements of the category, as often as before, in order |
| Views.SortView | src/pages/HomePage.tsx:57-69 | a permutation ordered by name or `createdAt`, ascending or descending, as the key says |
| Views.SortViewFallback | src/pages/HomePage.tsx:66-68 | any other key, `category_asc` and `category_desc` included, sorts as `date_desc` |
| Views.SortViewStable | src/pages/HomePage.tsx:57-69 | elements that tie on the key keep their input order |
| HomePage.SortItems | src/pages/HomePage.tsx:57-70 | a permutation of the items, ordered for the key |
| HomePage.SortLists | src/pages/HomePage.tsx:72-88 | a permutation of the lists, ordered for the key |
| HomePage.VisibleItems | src/pages/HomePage.tsx:186-196 | exactly the items whose name matches and whose category matches unless it is "All", each as often as before, ordered for the sort |
| HomePage.VisibleLists | src/pages/HomePage.tsx:199-204 | exactly the lists whose name matches, each as often as before, ordered for the list sort |
| HomePage.VisibleItemsCaseInsensitive | src/pages/HomePage.tsx:187-189 | lower-casing the search first shows the same items |
| HomePage.VisibleItemsShowAll | src/pages/HomePage.tsx:186-196 | an empty search with category "All" shows every item |
| HomePage.ItemCategory | src/pages/HomePage.tsx:106 | `cat`, or "All" without one |
| HomePage.ListSearch | src/pages/HomePage.tsx:109 | `lsearch` as written, or "" |
| HomePage.ListSort | src/pages/HomePage.tsx:110-115 | `lsort` when it is one of the four keys, else `date_desc` |
| HomePage.SetOrDelete | src/pages/HomePage.tsx:147-152 | the one key is set or deleted, and no other key reads differently |
| HomePage.SetSearch | src/pages/HomePage.tsx:147-152 | the search becomes the raw value, or nothing when it is blank; the sort is unchanged |
| HomePage.SetSort | src/pages/HomePage.tsx:155-159 | a valid key becomes the sort; an invalid one leaves the parameters unchanged |
| HomePage.SetItemCategory | src/pages/HomePage.tsx:162-167 | the filter becomes the value; "" and "All" delete `cat` |
| HomePage.SetListSearch | src/pages/HomePage.tsx:170-175 | the list search becomes the raw value, or nothing when it is blank |
| HomePage.SetListSort | src/pages/HomePage.tsx:178-183 | one of the four keys becomes the list sort; any other value changes nothing |
| HomePage.SubmitList | src/pages/HomePage.tsx:219-233 | a blank name is refused with "List name is required."; otherwise add or update is dispatched with the name as typed |
| HomePage.SubmitItem | src/pages/HomePage.tsx:282-326 | the name, category and quantity checks run in that order and report the first failure; only a valid form is dispatched |
| HomePage.SubmittedItemWellFormed | src/pages/HomePage.tsx:285-308 | an added item has a non-empty name, its own trimmed category and a quantity of at least 1 |
| HomePage.ShareUrl | src/pages/HomePage.tsx:335-338 | a link exactly when the selected list has a token that is not blank, and "" otherwise |
| SharePage.IsValidShareSort | src/pages/SharePage.tsx:27-29 | `isValidShareSort` holds for exactly the four keys |
| SharePage.SortItems | src/pages/SharePage.tsx:31-44 | a permutation ordered for the key, with `date_desc` as the fallback |
| SharePage.ReadQuery | src/pages/SharePage.tsx:50-53 | `search` defaults to "", `cat` to "All", and `sort` is always valid, `date_desc` when missing or invalid |
| SharePage.Visible | src/pages/SharePage.tsx:130-144 | exactly the items that pass the name filter (unless the search is blank) and the category filter, as often as before, ordered for the sort |
| SharePage.Filtered | src/pages/SharePage.tsx:131-141 | the two filters before sorting keep exactly the shown items, each as often as before, in their input order |
| SharePage.BlankSearchShowsAll | src/pages/SharePage.tsx:133-137 | a whitespace-only search shows what no search shows |
| SharePage.AgreesWithHomePage | src/pages/SharePage.tsx:130-144 | with a search that is not blank, the share page shows what the home page shows |
| SharePage.SetSearch | src/pages/SharePage.tsx:61-66 | the search becomes the raw value, or nothing when blank; sort and category are unchanged |
| SharePage.SetSort | src/pages/SharePage.tsx:68-72 | a valid key becomes the sort; an invalid one leaves the parameters unchanged |
| SharePage.SetCat | src/pages/SharePage.tsx:74-79 | the category becomes the value, "" and "All" deleting it; nothing else is read differently |
| RegisterPage.RegisterChecks | src/pages/RegisterPage.tsx:34-42 | the seven checks, in order |
| RegisterPage.ValidateIsFirstFailure | src/pages/RegisterPage.tsx:33-44 | `validate` returns the message of the first failing check, in the order name, surname, cell, email, password presence, length, match |
| RegisterPage.Validate | src/pages/RegisterPage.tsx:33-44 | null exactly when name, surname, cell and email are not blank and the untrimmed password has at least 6 characters and equals its confirmation; otherwise one of the seven messages |
| RegisterPage.OnSubmit | src/pages/RegisterPage.tsx:46-63 | an invalid form only alerts; a valid one dispatches trimmed text fields and the password as typed |
| RegisterPage.DispatchedPayloadWellFormed | src/pages/RegisterPage.tsx:49-62 | a dispatched payload has non-empty trimmed fields and a confirmed password of at least 6 characters |
| ProfilePage.ProfileChecks | src/pages/ProfilePage.tsx:31-32 | the two profile checks |
| ProfilePage.UpdateProfile | src/pages/ProfilePage.tsx:30-44 | blocked exactly when the trimmed name or surname is empty (the cell is not checked); dispatches the values untrimmed |
| ProfilePage.CredentialsChecks | src/pages/ProfilePage.tsx:48-56 | the three credentials checks |
| ProfilePage.UpdateCredentials | src/pages/ProfilePage.tsx:47-67 | blocked exactly when the email is blank or a non-empty password is short or unconfirmed; an empty password is sent as none |
| ProfilePage.ProfileGuardIsFirstFailure | src/pages/ProfilePage.tsx:31-32 | the profile guard alerts the first failing check's message |
| ProfilePage.CredentialsGuardIsFirstFailure | src/pages/ProfilePage.tsx:48-56 | the credentials guard alerts the first failing check's message |
| ProfilePage.CredentialsHashOnlyForConfirmedPassword | src/pages/ProfilePage.tsx:58-64 | together with the thunk, a new hash is stored exactly when a password was typed, and then that password is long enough and confirmed |
| SignupForm.EmailLikeUnanchored | src/components/SignupForm.tsx:40 | the e-mail pattern is unanchored: text around a match does not undo it |
| SignupForm.EmailLikeExamples | src/components/SignupForm.tsx:40 | `a@b.c` and `say x@y.z!` match; `a@b`, `@b.c` and `a@.c` do not |
| SignupForm.EmailLike | src/components/SignupForm.tsx:40 | a string the pattern matches has at least five characters and contains an `@` and a `.` |
| SignupForm.Validate | src/components/SignupForm.tsx:21-54 | every failing field is reported with its message; the form is valid exactly when no error was recorded; whitespace-only name, surname and phone pass |
| SignupForm.Submit | src/components/SignupForm.tsx:58-88 | an invalid form sends nothing; the user is posted only when both lookups are empty; a taken email or phone alerts its message; success is announced exactly after a successful post, and "Something went wrong" exactly when a request made throws |
| SignupForm.SubmitAgreesWithRegisterUser | src/components/SignupForm.tsx:60-88 | the form and `registerUser` make the same requests in the same order, and the form announces success exactly when the thunk fulfils |
| SignupSlice.RegisterUser | src/features/signupSlice.ts:26-53 | the email lookup comes first; the phone lookup only after it finds nothing; the post only when both find nothing; a taken email or phone rejects with its message, and "Registration failed. Please try again." exactly when a request made throws |
| SignupSlice.SignupStore.constructor | src/features/signupSlice.ts:55-60 | the initial state is empty |
| SignupSlice.SignupStore.ClearState | src/features/signupSlice.ts:66-71 | every field is reset |
| SignupSlice.SignupStore.OnPending | src/features/signupSlice.ts:75-79 | `loading` is set, `error` cleared, `success` false |
| SignupSlice.SignupStore.OnSettled | src/features/signupSlice.ts:80-92 | success stores the user and sets `success`; failure stores the payload as it is and clears `success`; a success always has its user |
| ShoppingListSlice.OwnedBy | src/features/shoppingListSlice.ts:66-68 | exactly the lists of the user, each as often as before, in order |
| ShoppingListSlice.OwnedByIdempotent | src/features/shoppingListSlice.ts:66-68 | filtering by the same owner twice is filtering once |
| ShoppingListSlice.FetchUserLists | src/features/shoppingListSlice.ts:57-77 | fulfils exactly when the response has a body, with only the user's lists; a null body (whose `filter` throws) or a failed request rejects with the thrown value or "Failed to fetch lists" |
| ShoppingListSlice.AddShoppingList | src/features/shoppingListSlice.ts:37-54 | a falsy body rejects with "User not found.."; a body fulfils; a failure rejects with the thrown value or "Failed to add list" |
| ShoppingListSlice.DeleteShoppingList | src/features/shoppingListSlice.ts:80-86 | fulfils with the id exactly when the deletion succeeds |
| ShoppingListSlice.WithoutList | src/features/shoppingListSlice.ts:129 | exactly the lists with another id, each as often as before, in order |
| ShoppingListSlice.DeleteUndoesAdd | src/features/shoppingListSlice.ts:117-130 | deleting a list just added under a fresh id restores the lists |
| ShoppingListSlice.DeleteIdempotent | src/features/shoppingListSlice.ts:127-130 | deleting twice is deleting once |
| ShoppingListSlice.ShoppingListStore.constructor | src/features/shoppingListSlice.ts:30-34 | the initial state is empty |
| ShoppingListSlice.ShoppingListStore.ClearError | src/features/shoppingListSlice.ts:92-94 | only `error` changes |
| ShoppingListSlice.ShoppingListStore.OnPending | src/features/shoppingListSlice.ts:99-102 | `loading` is set and `error` cleared; the lists are unchanged |
| ShoppingListSlice.ShoppingListStore.OnFetchSettled | src/features/shoppingListSlice.ts:103-110 | success replaces the lists; failure stores the payload |
| ShoppingListSlice.ShoppingListStore.OnAddSettled | src/features/shoppingListSlice.ts:117-124 | success appends the list at the end; failure stores the payload |
| ShoppingListSlice.ShoppingListStore.OnDeleteSettled | src/features/shoppingListSlice.ts:127-133 | success removes every list with the id; a failure changes nothing |
| ItemSlice.Request | src/features/itemSlice.ts:26-51 | the fetch, add and update thunks fulfil with the reply's body, and reject without a payload |
| ItemSlice.DeleteItem | src/features/itemSlice.ts:52-58 | fulfils with the id exactly when the deletion succeeds |
| ItemSlice.Updated | src/features/itemSlice.ts:72-75 | the item at the first index with the payload's id (`findIndex`) becomes the payload and every other index is unchanged; nothing changes when the id is absent |
| ItemSlice.Deleted | src/features/itemSlice.ts:76-78 | exactly the items with another id, each as often as before, in order |
| ItemSlice.UpdateKeepsIds | src/features/itemSlice.ts:72-75 | an update keeps the ids, in order |
| ItemSlice.DeleteAfterUpdate | src/features/itemSlice.ts:72-78 | deleting after updating the same id is deleting |
| ItemSlice.DeleteUndoesAdd | src/features/itemSlice.ts:69-78 | deleting an item just added under a fresh id restores the items |
| ItemSlice.ItemStore.constructor | src/features/itemSlice.ts:21-25 | the initial state is empty |
| ItemSlice.ItemStore.OnFetchSettled | src/features/itemSlice.ts:65-68 | success replaces the items and clears `loading`; a rejection changes nothing |
| ItemSlice.ItemStore.OnAddSettled | src/features/itemSlice.ts:69-71 | success appends at the end; a rejection changes nothing |
| ItemSlice.ItemStore.OnUpdateSettled | src/features/itemSlice.ts:72-75 | success replaces the matching item; a rejection changes nothing |
| ItemSlice.ItemStore.OnDeleteSettled | src/features/itemSlice.ts:76-78 | success removes every item with the id; a rejection changes nothing |
| ProfileSlice.CatchDefault | src/features/profileSlice.ts:41-78 | each thunk's `catch` has its own non-empty default |
| ProfileSlice.ReducerDefault | src/features/profileSlice.ts:98-127 | each rejected case has its own non-empty default, distinct from the thunk's |
| ProfileSlice.Run | src/features/profileSlice.ts:31-80 | a thunk fulfils with the reply's body; a failure rejects with the server message, or the thunk's default, and never an empty payload |
| ProfileSlice.RejectedError | src/features/profileSlice.ts:98-127 | the stored error is the payload when truthy and the case's default otherwise |
| ProfileSlice.ReducerDefaultUnused | src/features/profileSlice.ts:98-127 | a failed request stores the server message or the thunk's default, so the reducers' own defaults are never shown |
| ProfileSlice.ProfileStore.constructor | src/features/profileSlice.ts:24-28 | the initial state is empty |
| ProfileSlice.ProfileStore.OnPending | src/features/profileSlice.ts:90-119 | `loading` is set and `error` cleared; the user is unchanged |
| ProfileSlice.ProfileStore.OnSettled | src/features/profileSlice.ts:94-127 | success stores the user; failure stores the payload or that case's default and keeps the user |

## Left out

- HTTP: every backend request is a parameter, either a reply or a function from the request to a reply. The URLs, axios and json-server's query handling are not modelled.
- The `createList`, `patchList`, `createItem` and `patchItem` helpers return the response body unchanged, so each is the reply parameter itself and has no member of its own.
- `deleteListThunk`'s `Promise.all`: the item deletions run concurrently in the source. The model keeps only their joint outcome, which is whether every deletion succeeded.
- `nanoid`'s randomness is a sequence of random bytes. The ISO timestamps are a `now` parameter.
- Password hashing and verification are function parameters.
- Local storage is the ghost field `AuthStore.persisted`. JSON serialisation is left out.
- `toLowerCase` is ASCII only. Non-ASCII letters keep their case.
- `localeCompare` is an abstract total preorder. Collation itself is not modelled.
- `Number(..)` coercion and NaN: a quantity is an integer. The "0, NaN or less than 1" guard becomes "less than 1".
- Password lengths count Dafny characters. JavaScript counts UTF-16 code units, which differ only outside the Basic Multilingual Plane.
- Rendering, routing, modals, `alert` and `navigate` are left out. The handlers' returned decisions stand for them.
- SharePage's loading effect, which fetches the list and its items, is left out.
- LoginPage, `loginSlice`, `Login.tsx` and the other components are left out.
- ShoppingListSlice.FetchUserLists: the `return []` branch for a falsy response is not modelled, because an axios response is always an object and the branch never runs.
- ShoppingListSlice.FetchUserLists: loose `==` is modelled as string equality. A numeric `userId` coming from the backend would be coerced in the source.
- ShoppingListSlice.FetchUserLists and ShoppingListSlice.AddShoppingList: the thrown error object is modelled as optional text.
- ItemSlice.ItemStore: the slice has no pending or rejected cases. Those actions match no reducer, so no method stands for them.
- ListsSlice.FetchSelection: "null exactly when the lists are empty" holds except for an empty-string selection. JavaScript treats that as no selection, and the reducer leaves it as it was.
