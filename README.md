# College and PG directory: verified model of its filtering, data and chat logic

This project models, in Dafny, the parts of the college / paying-guest (PG) directory
application that carry real logic:

- the PG listing filter (search, gender, room type, four budget buckets);
- the college listing filter (search, state, type, course);
- course-badge truncation with a "+N more" badge, at cap 2 on the compact card and 4 on the listing;
- the search-filter panel: its criteria record, `updateFilter` and what each control emits;
- the mock data layer: college and PG tables with get/add/update/delete, changed in place;
- the mock authentication service: current user, role and display-name derivation, sign-out, and the listener list;
- the chat widget: the keyword classifier that picks one of four canned replies, and the send and reply steps.

Layout:

| file | module | models |
|---|---|---|
| `wrappers.dfy` | `Wrappers` | `Option`, standing for `null` and absent keys |
| `text.dfy` | `Text` | `toLowerCase`, `includes`, `trim`, `split(sep)[0]` |
| `seqs.dfy` | `Seqs` | `Array.prototype.filter` and the subsequence order it keeps |
| `badges.dfy` | `Badges` | `slice(0, cap)` plus "+N more" |
| `pgs_page.dfy` | `PGsPage` | `src/pages/PGs.tsx` |
| `colleges_page.dfy` | `CollegesPage` | `src/pages/Colleges.tsx` |
| `college_card.dfy` | `CollegeCard` | `src/components/CollegeCard.tsx` |
| `search_filters.dfy` | `SearchFilters` | `src/components/SearchFilters.tsx` |
| `firebase.dfy` | `Firebase` | `src/lib/firebase.ts` |
| `chat_bot.dfy` | `ChatBot` | `src/components/ChatBot.tsx` |

The pure parts are modelled as datatypes, functions and lemmas. Three parts change state in
place, and each is a class whose methods state the whole new state:

- `Firebase.MockFirestore`: its fields are the two module-level tables.
- `Firebase.MockAuth`: its fields are `currentUser` and `listeners`.
- `ChatBot.ChatWidget`: its fields are the four pieces of widget state.

Each filter is modelled against its own page-local record type. These differ from the
records of the data layer, which the compact college card uses.

`type` is a Dafny keyword, so three fields are renamed:

- the college `type` is `category` in the data layer and `collegeType` on the listing page;
- the PG `type` is `occupancy`;
- the criteria `type` is `collegeType`.

The model follows the code on four points where a reader might expect otherwise:

- The listing pages have no fee, rating or package range filtering. No shown code reads
  `minFees`, `maxFees`, `minRating` or `minPackage`.
- The PG page's genders are "Male", "Female" and "Co-ed", not Boys/Girls.
- The PG page searches a single `nearbyCollege` string, not a list of nearby colleges.
- A filter value that no `switch` case recognises passes, rather than failing closed.

## Model

| member | source | states |
|---|---|---|
| `Text.ContainsIff` | src/pages/PGs.tsx:126-128 | `includes` holds exactly when the needle occurs at some index of the haystack |
| `Text.LowerIdempotent` | src/components/ChatBot.tsx:55 | lower-casing an already lower-cased string changes nothing |
| `Text.TrimStart` | src/components/ChatBot.tsx:28 | the result is a suffix of the input; only whitespace was dropped; it does not start with whitespace |
| `Text.TrimEnd` | src/components/ChatBot.tsx:28 | the result is a prefix of the input; only whitespace was dropped; it does not end with whitespace |
| `Text.TrimEmptyIff` | src/components/ChatBot.tsx:28 | `trim()` is empty exactly when every character is whitespace |
| `Text.FirstField` | src/lib/firebase.ts:159 | `split('@')[0]` is the longest prefix free of '@'; it is followed by '@' unless it is the whole string |
| `Seqs.Filter` | src/pages/PGs.tsx:125 | the result is no longer than the input, and every element passes the test |
| `Seqs.FilterMembers` | src/pages/PGs.tsx:125 | an element is in the result exactly when it is in the input and passes |
| `Seqs.FilterCount` | src/pages/PGs.tsx:125 | every copy of a passing element is kept, and no copy of a failing one |
| `Seqs.FilterExtensional` | src/pages/Colleges.tsx:107 | two tests that agree on every element keep the same result |
| `Seqs.FilterIsSubsequence` | src/pages/Colleges.tsx:107 | the result is an order-preserving subsequence of the input |
| `Seqs.FilterKeepsAll` | src/pages/Colleges.tsx:107 | the result equals the input exactly when every element passes |
| `Seqs.FilterEmptyIff` | src/pages/PGs.tsx:125 | the result is empty exactly when no element passes |
| `Seqs.FilterIdempotent` | src/pages/PGs.tsx:125 | filtering the result again with the same test returns it unchanged |
| `Seqs.FilterNarrowing` | src/pages/Colleges.tsx:107 | a stronger test keeps a subsequence of what a weaker test keeps |
| `Seqs.RemoveAtIsSubsequence` | src/lib/firebase.ts:248 | `splice(i, 1)` leaves an order-preserving subsequence |
| `Badges.Truncate` | src/components/CollegeCard.tsx:66-75 | shows the first `min(cap, n)` items; "+N" is present iff `n > cap`; shown plus N is n |
| `Badges.TruncatePartitions` | src/pages/Colleges.tsx:268-277 | shown badges plus hidden items rebuild the list; N counts exactly the hidden items |
| `PGsPage.FilteredPGsSpec` | src/pages/PGs.tsx:125-151 | result is the order-preserving subsequence of exactly the PGs passing all four tests, each passing PG as often as in the input; its count is at most the total |
| `PGsPage.FilteredPGsIdempotent` | src/pages/PGs.tsx:125-151 | applying the same criteria to the result returns it unchanged |
| `PGsPage.FilteredPGsKeepsAllIff` | src/pages/PGs.tsx:125-151 | the result is the whole list exactly when every PG passes |
| `PGsPage.EmptySearchMatchesAll` | src/pages/PGs.tsx:126-128 | an empty search term matches every PG |
| `PGsPage.NoCriteriaKeepsAll` | src/pages/PGs.tsx:125-151 | with nothing chosen the page shows every PG, in order |
| `PGsPage.SearchIsCaseInsensitive` | src/pages/PGs.tsx:126-128 | match iff the lower-cased term occurs in the lower-cased name, location or nearby college; the term's case is irrelevant |
| `PGsPage.GenderSelection` | src/pages/PGs.tsx:129 | no gender chosen: the result is what the other three tests keep; one chosen: every PG shown has exactly that gender |
| `PGsPage.RoomTypeSelection` | src/pages/PGs.tsx:130 | no room type chosen: the result is what the other three tests keep; one chosen: every PG shown has exactly that room type |
| `PGsPage.UnknownGenderMatchesNothing` | src/pages/PGs.tsx:129 | a non-empty gender naming none of the three genders leaves an empty result |
| `PGsPage.BudgetBoundaries` | src/pages/PGs.tsx:134-146 | 10000 is not "Under 10k" and 20000 is not "Above 20k"; 15000 is in both middle buckets; 12000 is in 10k-15k and not in "Under 10k" |
| `PGsPage.BudgetBucketsCoverAndOverlap` | src/pages/PGs.tsx:134-146 | every rent is in some bucket; two different buckets overlap only at 15000, where 10k-15k and 15k-20k meet; every other pair of buckets is disjoint |
| `PGsPage.UnknownBudgetIsWildcard` | src/pages/PGs.tsx:132-148 | an empty budget, or one matching no case, passes every rent |
| `PGsPage.ChoosingGenderNarrows` | src/pages/PGs.tsx:129 | choosing a gender, all else fixed, yields a subsequence of the result without it |
| `CollegesPage.FilteredCollegesSpec` | src/pages/Colleges.tsx:107-115 | result is the order-preserving subsequence of exactly the colleges passing all four tests, each as often as in the input; count at most the total |
| `CollegesPage.FilteredCollegesIdempotent` | src/pages/Colleges.tsx:107-115 | applying the same criteria to the result returns it unchanged |
| `CollegesPage.NoCriteriaKeepsAll` | src/pages/Colleges.tsx:108-114 | with every criterion empty the result equals the input |
| `CollegesPage.SearchIsCaseInsensitive` | src/pages/Colleges.tsx:108-109 | match iff the lower-cased term occurs in the lower-cased name or location; the term's case and the state are irrelevant |
| `CollegesPage.StateSelection` | src/pages/Colleges.tsx:110 | no state chosen: the result is what the other three tests keep; one chosen: every college shown is in exactly that state |
| `CollegesPage.TypeSelection` | src/pages/Colleges.tsx:111 | no type chosen: the result is what the other three tests keep; one chosen: every college shown has exactly that type |
| `CollegesPage.CourseSelection` | src/pages/Colleges.tsx:112 | no course chosen: the result is what the other three tests keep; one chosen: every college shown lists exactly that course |
| `CollegesPage.ChoosingCourseNarrows` | src/pages/Colleges.tsx:112 | choosing a course, all else fixed, yields a subsequence of the result without it |
| `CollegesPage.CourseBadges` | src/pages/Colleges.tsx:268-277 | the first `min(4, n)` courses in order; "+N more" iff `n > 4`, with `N = n - 4` |
| `CollegeCard.CourseBadges` | src/components/CollegeCard.tsx:66-75 | the first `min(2, n)` courses in order; "+N more" iff `n > 2`; shown count plus N equals n |
| `CollegeCard.FourCoursesShowTwoMore` | src/components/CollegeCard.tsx:66-75 | four courses give two badges and "+2 more" |
| `SearchFilters.Get` | src/components/SearchFilters.tsx:10-19 | each field holds a value of its declared kind |
| `SearchFilters.UpdateFilter` | src/components/SearchFilters.tsx:28-30 | the emitted record has `value` at `key` and agrees with `filters` on every other key |
| `SearchFilters.UpdateToCurrentValue` | src/components/SearchFilters.tsx:28-30 | setting a field to its current value gives back the same record |
| `SearchFilters.UpdateSameKeyTwice` | src/components/SearchFilters.tsx:28-30 | of two updates of one field, the later wins |
| `SearchFilters.UpdatesCommute` | src/components/SearchFilters.tsx:28-30 | updates of two different fields commute |
| `SearchFilters.SingleFieldControls` | src/components/SearchFilters.tsx:56-160 | search, select and single sliders emit exactly one record, differing from `filters` only in their own field |
| `SearchFilters.ResetEmitsNothing` | src/components/SearchFilters.tsx:44 | Reset calls `onReset` once and emits no criteria record |
| `SearchFilters.FeeSliderLastRecordIsStale` | src/components/SearchFilters.tsx:120-123 | the fee slider emits two records built from the same `filters`; the second still has the old `minFees` |
| `SearchFilters.FeeRangeUpdate` | src/components/SearchFilters.tsx:120-123 | the intended fee update: one record with both new bounds, all else unchanged |
| `ChatBot.ResponseRules` | src/components/ChatBot.tsx:54-70 | each of the four replies is given exactly in its own case, in the priority order Mumbai, PG, placement, fallback |
| `ChatBot.ReplyTextsDistinct` | src/components/ChatBot.tsx:54-70 | the four canned reply strings are pairwise different |
| `ChatBot.ResponseIdentifiesRule` | src/components/ChatBot.tsx:54-70 | the returned text equals a reply's text exactly when that reply's rule fired, so the string tells which rule chose it |
| `ChatBot.ResponseIgnoresCase` | src/components/ChatBot.tsx:55 | queries that lower-case alike get the same reply |
| `ChatBot.ChatWidget.constructor` | src/components/ChatBot.tsx:15-25 | closed, one greeting message from the bot, empty input, not loading |
| `ChatBot.ChatWidget.Toggle` | src/components/ChatBot.tsx:80 | flips `isOpen` |
| `ChatBot.ChatWidget.ChangeInput` | src/components/ChatBot.tsx:155 | the input box holds the typed value |
| `ChatBot.ChatWidget.HandleSendMessage` | src/components/ChatBot.tsx:27-39 | blank input changes nothing; otherwise exactly one user message with the input text is appended, the input is cleared, loading is set |
| `ChatBot.ChatWidget.DeliverBotResponse` | src/components/ChatBot.tsx:42-51 | exactly one bot message with the reply for the query is appended, and loading is cleared |
| `ChatBot.SendAndReply` | src/components/ChatBot.tsx:27-51 | a non-blank send followed by its reply grows the transcript by the user text, then the reply chosen for that same text; `isOpen` is untouched |
| `Firebase.MergeNoChanges` | src/lib/firebase.ts:236 | an update object with no keys leaves the record unchanged |
| `Firebase.MergeIdempotent` | src/lib/firebase.ts:236 | merging the same updates twice is merging once |
| `Firebase.MergeFieldwise` | src/lib/firebase.ts:236 | present keys overwrite; absent keys keep the old values |
| `Firebase.FindIndexById` | src/lib/firebase.ts:234 | the first index holding the id, or -1 exactly when no record has it |
| `Firebase.WithoutFirst` | src/lib/firebase.ts:246-249 | absent id: unchanged; present id: the records before the first match are kept, the first match is dropped, and the records after it follow in order |
| `Firebase.DeleteRemovesOnlyFirstMatch` | src/lib/firebase.ts:246-249 | later records with the same id survive deletion |
| `Firebase.NewUser` | src/lib/firebase.ts:156-161 | role admin iff the email contains "admin"; display name is the part before the first '@' |
| `Firebase.UnsubscribedSpec` | src/lib/firebase.ts:187-189 | every occurrence of the callback is removed; every copy of each other listener stays, in order |
| `Firebase.MockFirestore.constructor` | src/lib/firebase.ts:51-133 | the tables start with the two seed colleges and the two seed PGs |
| `Firebase.MockFirestore.GetColleges` | src/lib/firebase.ts:199-203 | returns the table's contents at call time |
| `Firebase.MockFirestore.GetPGs` | src/lib/firebase.ts:205-209 | returns the table's contents at call time |
| `Firebase.MockFirestore.AddCollege` | src/lib/firebase.ts:211-219 | appends exactly the given record with the new id; earlier records unchanged; returns the id |
| `Firebase.MockFirestore.AddPG` | src/lib/firebase.ts:221-229 | appends exactly the given record with the new id; earlier records unchanged; returns the id |
| `Firebase.MockFirestore.UpdateCollege` | src/lib/firebase.ts:231-241 | merges into the first record with the id only; absent id leaves the table unchanged |
| `Firebase.MockFirestore.DeleteCollege` | src/lib/firebase.ts:243-253 | the table becomes `WithoutFirst` of the old table |
| `Firebase.MockAuth.constructor` | src/lib/firebase.ts:136-140 | no user, no listeners |
| `Firebase.MockAuth.NotifyListeners` | src/lib/firebase.ts:192-194 | one call per listener, in order, each with the current user |
| `Firebase.MockAuth.AutoLogin` | src/lib/firebase.ts:142-150 | the demo user is signed in and every listener is told |
| `Firebase.MockAuth.SignInWithEmailAndPassword` | src/lib/firebase.ts:153-167 | the derived user becomes current and every listener is called with it |
| `Firebase.MockAuth.CreateUserWithEmailAndPassword` | src/lib/firebase.ts:169-171 | behaves as sign-in |
| `Firebase.MockAuth.SignOut` | src/lib/firebase.ts:173-181 | the current user becomes null and every listener is called with null |
| `Firebase.MockAuth.OnAuthStateChanged` | src/lib/firebase.ts:183-185 | appends the callback and calls it once with the current user |
| `Firebase.MockAuth.Unsubscribe` | src/lib/firebase.ts:187-189 | listeners become the old list without that callback |

## Findings

| source | as written | input that shows it | evidently intended | confidence | as-written member | corrected member |
|---|---|---|---|---|---|---|
| src/components/SearchFilters.tsx:120-123 | the fee slider calls `updateFilter` twice, and both calls spread the same `filters`, so the second record emitted carries the old `minFees` | `filters.minFees = 0`, slider moved to `[2, 8]`: the last record emitted has `minFees = 0, maxFees = 8` | one record with `minFees = 2` and `maxFees = 8` | medium: the parent that receives the records is not part of this model; not executed | `SearchFilters.FeeSliderLastRecordIsStale` | `SearchFilters.FeeRangeUpdate` |

## Left out

- All JSX, layout, icons and styling. The header, hero, index page, admin page and PG card
  are static markup, or buttons that call nothing.
- Timers and promises: each `setTimeout`/`Promise` operation is one atomic step. The chat
  reply is a separate step, `DeliverBotResponse`, that takes the query captured at send time.
- Random ids and uids are method parameters. The `Date`-based message ids and timestamps are
  not modelled, and neither is locale formatting of times.
- Lakh formatting (`(x / 100000).toFixed(1)`) and fractional slider steps are floating point.
  Slider values are kept as exact reals, with no arithmetic on them.
- `toLowerCase` is modelled for ASCII letters only; Unicode case mapping is not modelled.
- Listener callbacks are opaque identities. What a callback does when called, including
  calling back into the service, is not modelled. The model records which calls are made.
- React state machinery: state is plain fields, and the functional `setMessages` updates are
  direct appends. The parent that owns the `SearchFilters` criteria is not part of this model,
  and neither is its reset to defaults.
- Rents, deposits, fees and packages are JavaScript numbers, modelled as integers; fractional amounts are
  not modelled. The budget-bucket comparisons read the same for fractional rents.
- The "+N more" badge is modelled by its number N, not by its rendered text.
- The page-local mock arrays of the two listing pages are not reproduced. The filters are
  stated for every input list.
- The chat send step has no guard on `isLoading`, exactly as in the source. The send button is
  disabled while loading, but the Enter key calls the same handler.
- SearchFilters.UpdateFilter: requires the value to have the field's declared type (text for the
  search box and selects, a number for sliders). The source's `value: any` would accept anything;
  every call site passes a value of the field's type.
- Firebase.MergeFieldwise: states both halves of the overwrite/keep rule for four representative
  keys only (`name`, `fees`, `id`, `courses`). All seventeen keys follow the same rule in `Firebase.Merge`.
- Firebase.Merge: a key present in the updates with the value `undefined` would overwrite the
  old value with `undefined`; `Option` models only present-with-a-value and absent.
