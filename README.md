# ShiftSync Japan — a verified model of the app's sequential logic

ShiftSync Japan is a React Native app for small Japanese teams. It covers shift
scheduling, business trips, expenses and a chat that is translated between English and
Japanese. Almost all of its data lives in a hosted Postgres backend. This project models,
in Dafny, the parts of the client and the two edge functions that hold real logic:

- the offline expense upload queue and its replay;
- the optimistic chat cache;
- the hand-written base64 decoder;
- the date-range picker shared by three screens, and the staff and member selection;
- the bulk shift expansion;
- the travel provider's trip choice and ticket filter;
- the translation table, the lookup `t` and the language resolution order;
- the translate-message and push-notification edge functions;
- the local notification filter, the "new items" badges and the unread total;
- the validators and submit steps of sign-up, joining a team, creating an organisation,
  the expense form and `createExpense`;
- the root layout's redirect rule.

Modelling choices:

- Every remote call becomes a parameter holding its result. This covers queries, storage,
  auth, RPC, realtime payloads, `fetch` and the push and LLM services.
- The clock, `Math.random` and the device locale are parameters too.
- A calendar date is an integer day number. A timestamp is an integer.
- A module-level or component-level piece of state becomes a field of a class. Its
  handlers become methods with `modifies this`.
- A pure expression becomes a function. Each function is paired with lemmas or with the
  method whose contract it is.
- The unions of `types/index.ts` are datatypes in module `Types`. An untyped `any`
  payload (`expenseData`, a realtime `record`) is a `Record`, a map from column names to
  values whose kind is tagged.

Modules and files:

| module | file | models |
|---|---|---|
| `Common` | common.dfy | `Option`, JS truthiness of nullable text, `trim`, ASCII case mapping, `includes`, decimal rendering |
| `Types` | types.dfy | the category, `paid_by`, status, role and project-status unions; object spread; the receipt file name |
| `OfflineQueue` | offline_queue.dfy | hooks/useOfflineQueue.ts |
| `Chat` | chat.dfy | hooks/useChat.ts |
| `Base64`, `Base64Encoding` | base64.dfy | `decode` of lib/utils.ts; a reference encoder for section 4 of RFC 4648 |
| `DateRange` | date_range.dfy | `handleDayPress` and `markedDates` of the three calendar screens |
| `Selection` | selection.dfy | the remove-or-append toggle shared by two screens |
| `Schedule` | schedule.dfy | app/schedule/create.tsx |
| `TravelForms` | travel_forms.dfy | app/travel/add-hotel.tsx and app/travel/create.tsx |
| `ChatCreate` | chat_create.dfy | app/chat-create.tsx |
| `TravelContext` | travel_context.dfy | context/TravelContext.tsx |
| `Translations` | translations.dfy | lib/translations.ts and `t` of hooks/useTranslation.ts |
| `CategoryLabels` | category_labels.dfy | the `cat_` label lookups of the expense screens |
| `UseTranslation` | use_translation.dfy | the rest of hooks/useTranslation.ts |
| `TranslateMessage` | translate_message.dfy | supabase/functions/translate-message/index.ts |
| `PushNotification` | push_notification.dfy | supabase/functions/push-notification/index.ts |
| `GlobalRealtime` | global_realtime.dfy | hooks/useGlobalRealtime.ts |
| `BadgeTracker` | badge_tracker.dfy | hooks/useBadgeTracker.ts |
| `ChatContext` | chat_context.dfy | context/ChatContext.tsx |
| `Organization` | organization.dfy | hooks/useOrganization.ts |
| `JoinTeam` | join_team.dfy | app/onboarding/join-team.tsx |
| `Signup` | signup.dfy | app/signup.tsx |
| `ExpenseForm` | expense_form.dfy | app/expenses/create.tsx |
| `Expenses` | expenses.dfy | hooks/useExpenses.ts |
| `Layout` | layout.dfy | app/_layout.tsx |

Points about the code that the model keeps as written:

- `createExpense` never enqueues a task. The offline queue is filled only by
  `addToQueue`, and a failed submit returns `false`. `Expenses.ExpensesHook.CreateExpense`
  models exactly that.
- The decoder is specified for every input string, not only for lengths divisible by 4.
  The ArrayBuffer length is truncated, a character read past the end looks up as 0, and
  a write past the buffer's end is dropped. Strings count characters, not UTF-16 code
  units (see "## Left out").
- Sanitising the translator's input removes closing tags in a single pass. The model
  keeps that single pass. `TranslateMessage.SanitizeCanFormTag` proves that the pass can
  assemble a new closing tag from the pieces around a removed one.

## Model

| member | source | states |
|---|---|---|
| Common.OrElse | supabase/functions/push-notification/index.ts:24 | `x \|\| fallback` on nullable text: the value when present and non-empty, the fallback otherwise |
| Common.TrimStart | hooks/useOrganization.ts:14 | the result is a suffix of the input that does not start with whitespace; every dropped character is whitespace |
| Common.TrimEnd | hooks/useOrganization.ts:14 | the result is a prefix of the input that does not end with whitespace; every dropped character is whitespace |
| Common.BlankIffAllSpace | hooks/useOrganization.ts:14 | `!s.trim()` holds exactly when every character is whitespace |
| Common.TrimKeepsNonSpace | app/chat-create.tsx:115 | a string with any non-whitespace character is not blank |
| Common.ToUpper | hooks/useOrganization.ts:68 | same length; each character is upper-cased on its own |
| Common.ToLower | app/chat-create.tsx:34 | same length; each character is lower-cased on its own |
| Common.EmptyIncluded | app/chat-create.tsx:34 | every string includes the empty string |
| Common.NatToString | hooks/useOfflineQueue.ts:73 | a number in a template literal renders as decimal digits without a leading zero, whose decimal value is the number |
| Common.NatToStringInjective | hooks/useOfflineQueue.ts:73 | distinct numbers render as distinct texts |
| Common.Trim | hooks/useOrganization.ts:14 | `trim()` keeps one contiguous stretch of the input that neither starts nor ends with whitespace, and drops only whitespace before and after it |
| Types.CategoryFromId | types/index.ts:99 | an id maps back to the category it names, and every category's id is recognised |
| Types.CategoryIdInjective | types/index.ts:99 | distinct categories have distinct ids |
| Types.Spread | hooks/useExpenses.ts:77-83 | `{...base, ...over}`: the union of keys; the override's value where both define a key, the base's value elsewhere |
| Types.ReceiptFileName | hooks/useExpenses.ts:61 | `${uid}/${millis}.jpg`: the user id, a slash, the decimal rendering of the upload time, then ".jpg" |
| Types.ReceiptFileNameInjective | hooks/useExpenses.ts:61 | one user's receipts uploaded at different times get different names |
| OfflineQueue.Read | hooks/useOfflineQueue.ts:46-53 | `getQueue`: the stored task list, or the empty list when the key is absent or unreadable |
| OfflineQueue.ExpenseRow | hooks/useOfflineQueue.ts:84-89 | the inserted row keeps `expenseData` except that `user_id`, `receipt_url` and `status` 'pending' override same-named fields |
| OfflineQueue.OfflineQueueHook.constructor | hooks/useOfflineQueue.ts:16-21 | the hook starts with an empty in-memory queue over the persisted store |
| OfflineQueue.OfflineQueueHook.LoadQueue | hooks/useOfflineQueue.ts:23-30 | the state takes the stored list when one is stored, and is left as it was otherwise |
| OfflineQueue.OfflineQueueHook.AddToQueue | hooks/useOfflineQueue.ts:33-43 | the task is appended after the previously stored tasks, in storage and in state; a failed write changes nothing |
| OfflineQueue.OfflineQueueHook.ProcessQueue | hooks/useOfflineQueue.ts:56-104 | with an empty store or no user nothing is attempted; otherwise every task is attempted in order, and the store and state become exactly the tasks that failed |
| OfflineQueue.OfflineQueueHook.OnNetInfo | hooks/useOfflineQueue.ts:107-115 | the queue is replayed only when the state is both connected and internet-reachable; otherwise nothing changes |
| OfflineQueue.SurvivorsAppend | hooks/useOfflineQueue.ts:64-99 | the surviving tasks of two runs of tasks are the survivors of each, concatenated, so the relative order is kept |
| OfflineQueue.InsertsAppend | hooks/useOfflineQueue.ts:66-99 | the inserts of two runs of tasks are the inserts of each, concatenated |
| OfflineQueue.SurvivorsMember | hooks/useOfflineQueue.ts:95-98 | a task survives if and only if some attempt of it failed |
| OfflineQueue.AllSyncedLeavesNothing | hooks/useOfflineQueue.ts:66-102 | when every task syncs, the stored queue becomes empty |
| OfflineQueue.NoneSyncedKeepsAll | hooks/useOfflineQueue.ts:95-102 | when every task fails, the stored queue is unchanged |
| OfflineQueue.SurvivorsShorter | hooks/useOfflineQueue.ts:64-103 | replay never lengthens the queue |
| OfflineQueue.InsertsComplete | hooks/useOfflineQueue.ts:66-99 | each task that synced is inserted, even after an earlier task failed |
| OfflineQueue.InsertsSound | hooks/useOfflineQueue.ts:84-91 | every insert is the row of a task that synced |
| OfflineQueue.InsertedRowShape | hooks/useOfflineQueue.ts:84-89 | every inserted row has status 'pending', the session user's id and the public URL of that user's receipt file |
| OfflineQueue.AddThenSyncAll | hooks/useOfflineQueue.ts:33-103 | a task appended and then replayed with everything succeeding leaves nothing queued |
| Chat.SenderName | hooks/useChat.ts:62 | the joined profile's full name, or "Unknown" when the profile or the name is missing |
| Chat.WithProfile | hooks/useChat.ts:60-64 | a fetched row keeps its columns; its sender name is SenderName of the profile (the full name, or "Unknown"), and its avatar is the profile's |
| Chat.MapFetched | hooks/useChat.ts:60-64 | the mapping keeps the length and the order and treats each row alone |
| Chat.TempMessage | hooks/useChat.ts:93-101 | the optimistic message has a `temp-` id, the text, the sender and conversation, and the name "Me" |
| Chat.Prepend | hooks/useChat.ts:103 | exactly one message is placed in front and the rest of the cache is unchanged; a missing cache counts as empty |
| Chat.ApplyInsert | hooks/useChat.ts:153-159 | an INSERT whose id is already cached leaves the cache as it is; otherwise the message is prepended |
| Chat.ApplyUpdate | hooks/useChat.ts:172-174 | an UPDATE replaces the row of the matching message only, keeps the sender name and avatar, and keeps the length and order; a missing cache stays missing |
| Chat.ChatHook.constructor | hooks/useChat.ts:18-20 | the hook starts with no cache and no known user |
| Chat.ChatHook.SetUser | hooks/useChat.ts:24-26 | `userRef` becomes the auth user's id, or null |
| Chat.ChatHook.Refetch | hooks/useChat.ts:30-67 | a successful fetch replaces the cache with the mapped rows and clears the stale flag; a failed fetch changes nothing |
| Chat.ChatHook.Send | hooks/useChat.ts:70-118 | blank text or no user fails with "Invalid message"; the temp message is prepended only when the user is known; a failure restores the snapshot when there was one; the cache is always marked stale |
| Chat.ChatHook.OnInsert | hooks/useChat.ts:139-159 | a realtime INSERT is applied with the fetched profile |
| Chat.ChatHook.OnUpdate | hooks/useChat.ts:170-174 | a realtime UPDATE is applied by id |
| Chat.ApplyInsertIdempotent | hooks/useChat.ts:157 | delivering the same INSERT twice has the effect of delivering it once |
| Chat.ApplyInsertKeeps | hooks/useChat.ts:153-159 | after an INSERT its id is cached, and no cached message is lost |
| Chat.TempAndConfirmedBothCached | hooks/useChat.ts:115-118 | the confirmed copy of a sent message is prepended before its temp copy, which stays until the refetch on settle |
| Chat.ApplyUpdateUnknownId | hooks/useChat.ts:172-174 | an UPDATE for an id not in the cache changes nothing |
| Chat.ApplyUpdateIdempotent | hooks/useChat.ts:172-174 | applying the same UPDATE twice has the effect of applying it once |
| Chat.ApplyUpdateKeepsIds | hooks/useChat.ts:173 | an UPDATE keeps each message's id, sender name and avatar |
| Base64.AlphabetIsTable | lib/utils.ts:8 | the 64-character alphabet is A-Z, a-z, 0-9, '+', '/' in that order |
| Base64.SextetOfCharOf | lib/utils.ts:8-12 | every value 0..63 is the position of its own alphabet character, and no alphabet character is '=' |
| Base64.LookupAfterIsSextet | lib/utils.ts:9-12 | after the first n iterations of the table loop, a code holds its position if it is among the first n characters and 0 otherwise |
| Base64.LookupCharOf | lib/utils.ts:8-12 | the lookup maps each alphabet character to its position |
| Base64.LookupOutside | lib/utils.ts:9 | every character outside the alphabet looks up as 0 |
| Base64.LookupAlphabet | lib/utils.ts:8-12 | the lookup inverts the alphabet |
| Base64.PadLooksUpZero | lib/utils.ts:9 | '=' looks up as 0, never 255 |
| Base64.BuildLookup | lib/utils.ts:9-12 | the 256-entry table holds exactly the lookup function |
| Base64.BufferLength | lib/utils.ts:14-22 | without trailing '=' the buffer length is three bytes per quartet |
| Base64.BufferLengthCanonical | lib/utils.ts:14-22 | for a length divisible by 4, the buffer length is 3·len/4 minus the number of trailing '=' (at most 2) |
| Base64.Stored | lib/utils.ts:22-23 | a fixed-length buffer keeps the writes that fit, drops those past its end, and is zero elsewhere |
| Base64.Put | lib/utils.ts:34 | `bytes[p++] = v` at the cursor extends the written sequence by v |
| Base64.LookupAt | lib/utils.ts:29-32 | the lookup of the character at an index, 0 past the end |
| Base64.PutQuartet | lib/utils.ts:34-41 | one iteration writes the first byte, the second unless the third value is 255, and the third only when the fourth character exists and is not '=' |
| Base64.DecodeQuartet | lib/utils.ts:29-41 | one iteration writes exactly the bytes of its quartet at consecutive positions |
| Base64.Decode | lib/utils.ts:7-45 | the returned buffer is exactly the specification decoding: every quartet's bytes in order, cut to the buffer length |
| Base64.WritesStep | lib/utils.ts:28 | the stride-4 loop equals this quartet's writes followed by the rest |
| Base64.HeldIsStored | lib/utils.ts:22-23 | a buffer that holds the writes where they fit, and zeros elsewhere, is their stored form |
| Base64Encoding.Encode | lib/utils.ts:3-7 | section 4 of RFC 4648: a non-empty input encodes to at least one quartet |
| Base64Encoding.EncodeLength | lib/utils.ts:3-7 | the encoding has 4·⌈n/3⌉ characters |
| Base64Encoding.EncodeGroupThen | lib/utils.ts:3-7 | a full group of three bytes encodes to its quartet, followed by the encoding of the rest |
| Base64Encoding.Byte1OfFields | lib/utils.ts:34 | `(e1<<2)\|(e2>>4)` rebuilds the first byte from its sextets |
| Base64Encoding.Byte2OfFields | lib/utils.ts:37 | `((e2&15)<<4)\|(e3>>2)` rebuilds the second byte |
| Base64Encoding.Byte3OfFields | lib/utils.ts:40 | `((e3&3)<<6)\|(e4&63)` rebuilds the third byte |
| Base64Encoding.GroupWrites | lib/utils.ts:34-41 | a full quartet decodes to its three bytes |
| Base64Encoding.PairWrites | lib/utils.ts:39 | a quartet with one '=' decodes to two bytes; the third is not written |
| Base64Encoding.SingleWrites | lib/utils.ts:35-38 | a quartet with two '=' still writes a second byte, 0 |
| Base64Encoding.WritesEncode | lib/utils.ts:28-42 | decoding an encoding writes the input followed by at most one stray zero |
| Base64Encoding.EncodeTail | lib/utils.ts:15-20 | the encoding ends in '=' exactly when the length is not a multiple of 3, and in "==" exactly when it leaves remainder 1 |
| Base64Encoding.BufferLengthEncode | lib/utils.ts:14-22 | the buffer allocated for an encoding has exactly the input's length |
| Base64Encoding.RoundTrip | lib/utils.ts:3-7 | on canonical padded input the decoder inverts the encoder: the stray zero falls past the buffer's end |
| Base64Encoding.DecodePairExample | lib/utils.ts:3-7 | "QUI=" decodes to [65, 66] |
| Base64Encoding.EncodePairExample | lib/utils.ts:3-7 | [65, 66] encodes to "QUI=" |
| Base64Encoding.DecodeSingleExample | lib/utils.ts:35-38 | "QQ==" decodes to [65]: the second write lands at the buffer length and is dropped |
| DateRange.RangePicker.constructor | app/schedule/create.tsx:33-34 | no start and no end |
| DateRange.RangePicker.HandleDayPress | app/schedule/create.tsx:42-57 | with no start, or with both dates set, a tap starts a new range; with only a start, an earlier day restarts and any other day becomes the end; start ≤ end is kept |
| DateRange.MarkInterval | app/schedule/create.tsx:64-79 | the marks of a complete range: each day from start to end, solid at the ends and light between |
| DateRange.ScheduleMarks | app/schedule/create.tsx:59-82 | the shift screen's marks equal the per-day rule; a lone start is marked startingDay only |
| DateRange.TravelMarks | app/travel/add-hotel.tsx:43-65 | the travel screens' marks equal the per-day rule; a lone start is marked as both starting and ending day |
| DateRange.MarkedIffInRange | app/schedule/create.tsx:61-79 | a day is marked exactly when it lies in the range, solid exactly at its ends |
| DateRange.OneDayRangeEndsOnly | app/travel/add-hotel.tsx:47-49 | when start equals end, the end mark overwrites the start mark: endingDay only |
| DateRange.VariantsDifferOnlyOnLoneStart | app/travel/create.tsx:39-61 | the shift and travel markings agree except on the day of a lone start |
| Selection.Without | app/schedule/create.tsx:86 | `filter(s => s !== id)`: the id is gone, every other id keeps its membership, and a missing id changes nothing |
| Selection.Toggle | app/schedule/create.tsx:84-88 | removes the id if present, otherwise appends it |
| Selection.ToggleFlips | app/chat-create.tsx:43-45 | a toggle flips the membership of that id and no other |
| Selection.ToggleTwiceMembership | app/schedule/create.tsx:84-88 | toggling twice restores every id's membership |
| Selection.WithoutAppended | app/schedule/create.tsx:86 | removing an id just appended restores the list |
| Selection.ToggleTwiceFromUnselected | app/schedule/create.tsx:84-88 | toggling an unselected id twice restores the exact list |
| Selection.WithoutNoDuplicates | app/schedule/create.tsx:86 | removal keeps a duplicate-free selection duplicate-free |
| Selection.ToggleNoDuplicates | app/chat-create.tsx:43-45 | toggling keeps a duplicate-free selection duplicate-free |
| Schedule.DayItems | app/schedule/create.tsx:123-134 | one item per selected staff member for a day, in selection order |
| Schedule.SelectAll | app/schedule/create.tsx:90-96 | equal lengths clear the selection; otherwise every staff id is selected in staff order |
| Schedule.BulkShiftForm.constructor | app/schedule/create.tsx:35-39 | no staff selected and the default template ('work_shift', 09:00 to 18:00) |
| Schedule.BulkShiftForm.ToggleStaff | app/schedule/create.tsx:84-88 | the selection is toggled and the template kept |
| Schedule.BulkShiftForm.SelectAllStaff | app/schedule/create.tsx:90-96 | the selection follows the select-all rule |
| Schedule.BulkShiftForm.HandleCreate | app/schedule/create.tsx:98-138 | a missing start or end, then an empty selection, is rejected before any insert; otherwise the expansion is inserted |
| Schedule.ExpandShifts | app/schedule/create.tsx:110-135 | the nested loops produce the expansion: days outermost from start to end, staff in selection order inside |
| Schedule.ExpansionCount | app/schedule/create.tsx:110-135 | the expansion has days × staff items |
| Schedule.ExpansionMember | app/schedule/create.tsx:121-135 | an item is produced exactly for each day in the range and each selected staff member |
| Schedule.ExpansionSharesTemplate | app/schedule/create.tsx:124-132 | every item has the chosen type, start time, end time and location |
| Schedule.SelectAllComparesLengths | app/schedule/create.tsx:91 | select-all compares lengths only: a selection ["a", "a"] of staff ["a", "b"] is cleared |
| TravelForms.AddHotel | app/travel/add-hotel.tsx:67-92 | a blank name, then a missing project id, then a missing date is rejected; otherwise the row has the picked dates as check-in and check-out |
| TravelForms.CreateTrip | app/travel/create.tsx:63-91 | a blank name or a missing start is rejected and a missing end is not; no user means nothing happens; the end defaults to the start and the status is 'planning' |
| TravelForms.TripDatesOrdered | app/travel/create.tsx:22-37 | a trip created from the picker never ends before it starts |
| TravelForms.HotelDatesOrdered | app/travel/add-hotel.tsx:26-41 | a hotel booked from the picker never checks out before it checks in |
| TravelForms.WhitespaceNameRejected | app/travel/add-hotel.tsx:68 | a whitespace-only trip or hotel name is rejected |
| ChatCreate.FilteredStaff | app/chat-create.tsx:32-35 | exactly the members that are not the current user and whose name contains the search text, ignoring case |
| ChatCreate.FilteredStaffAppend | app/chat-create.tsx:32-35 | the filter distributes over concatenation, so the staff order is kept |
| ChatCreate.EmptySearchKeepsNamed | app/chat-create.tsx:32-35 | an empty search lists exactly the named members other than the current user |
| ChatCreate.SelfNeverListed | app/chat-create.tsx:33 | the current user is never listed |
| ChatCreate.Find | app/chat-create.tsx:80 | `find`: the first member with that id, or none when no member has it |
| ChatCreate.ParticipantsOf | app/chat-create.tsx:147-150 | one participant row per id, in order |
| ChatCreate.DmConversation | app/chat-create.tsx:77-83 | a DM is a 'direct' conversation named "Direct Message" in the target's organisation |
| ChatCreate.DmParticipants | app/chat-create.tsx:89-93 | a DM's participants are exactly me and then the target |
| ChatCreate.GroupParticipants | app/chat-create.tsx:146-150 | a group's participants are me first, then the selected ids in order |
| ChatCreate.CheckGroup | app/chat-create.tsx:114-122 | a blank name, then an empty selection, is rejected before any remote call |
| ChatCreate.MeFirstDistinct | app/chat-create.tsx:147-150 | me in front of a duplicate-free selection without me is duplicate-free |
| ChatCreate.GroupParticipantsDistinct | app/chat-create.tsx:147-150 | such a group lists every user once |
| ChatCreate.ChatCreateForm.constructor | app/chat-create.tsx:18-20 | DM mode and an empty selection |
| ChatCreate.ChatCreateForm.ToggleUser | app/chat-create.tsx:37-47 | in DM mode the tap starts a DM and the selection is unchanged; in group mode the id is toggled |
| TravelContext.TargetProject | context/TravelContext.tsx:81-83 | the selected id if it is among the fetched projects, otherwise the first one; always a fetched project |
| TravelContext.VisibleTickets | context/TravelContext.tsx:97-101 | admins see every ticket; others see exactly the unassigned tickets and their own |
| TravelContext.VisibleTicketsAppend | context/TravelContext.tsx:100 | the filter keeps the tickets' departure order |
| TravelContext.DatesText | context/TravelContext.tsx:107 | "start - end", with '?' for a missing value |
| TravelContext.IsMemberOfActiveTrip | context/TravelContext.tsx:129 | holds exactly when a project is selected and its id is among the membership ids |
| TravelContext.TravelProvider.constructor | context/TravelContext.tsx:33-37 | no trip, no projects, no selection, loading |
| TravelContext.TravelProvider.SelectProject | context/TravelContext.tsx:131 | only the selection changes |
| TravelContext.TravelProvider.FetchTravel | context/TravelContext.tsx:39-118 | a non-admin without memberships gets no trip and no projects; an empty project list clears the trip; the selection is written only when none was set; the trip carries the filtered tickets and the dates text; loading ends false |
| TravelContext.KeptSelectionIsTarget | context/TravelContext.tsx:81-85 | an existing listed selection is the target and is left as it is |
| TravelContext.StaleSelectionFallsBack | context/TravelContext.tsx:81-83 | a selection not among the fetched projects falls back to the first project |
| TravelContext.UnknownDates | context/TravelContext.tsx:107 | a missing start and an empty end render as "? - ?" |
| Translations.T | hooks/useTranslation.ts:76-78 | `t(key)`: the current table's entry, or the key's name when that entry is empty; nothing for a locale other than 'en' and 'ja' |
| Translations.TAny | hooks/useTranslation.ts:76-78 | `t` on an arbitrary string: a key is looked up, any other string is shown as it is |
| Translations.EnFilled | lib/translations.ts:2-89 | every English entry is non-empty |
| Translations.JaFilled | lib/translations.ts:90-177 | every Japanese entry is non-empty |
| Translations.CategoryPrefixedIffSection | lib/translations.ts:57-63 | a key name starts with "cat_" exactly when the key is in the categories section |
| Translations.CategoryNameUnique | lib/translations.ts:57-63 | no other key has the name of a category key |
| Translations.CategoryNameLookup | lib/translations.ts:57-63 | looking up a category key's name finds that category key |
| Translations.Translated | lib/translations.ts:1-177 | every key translates to its own non-empty entry in both languages, so `t` never falls back to the key |
| Translations.UnknownLocaleFails | hooks/useTranslation.ts:77 | there is no table for a locale other than 'en' and 'ja' |
| Translations.NoAccommodationKey | lib/translations.ts:57-63 | "cat_accommodation" names no key; only "cat_hotel" exists |
| CategoryLabels.LabelKey | app/expenses/create.tsx:142 | the key `cat_<id>` of a category: the matching categories entry, and none exactly for accommodation |
| CategoryLabels.AccommodationLabelIsRawKey | app/expenses/create.tsx:142 | the accommodation label renders as the raw text "cat_accommodation" |
| CategoryLabels.OtherCategoriesTranslated | app/expenses/create.tsx:142 | every other category's label is its non-empty table entry |
| UseTranslation.Resolve | hooks/useTranslation.ts:30-66 | a stored 'en' or 'ja' first; then a signed-in user's non-empty profile language; then 'ja' for a Japanese system locale and 'en' otherwise |
| UseTranslation.StoredWins | hooks/useTranslation.ts:33-37 | a stored preference decides alone: nothing else is consulted |
| UseTranslation.InvalidStoredIgnored | hooks/useTranslation.ts:34 | a stored value other than 'en' or 'ja' is ignored |
| UseTranslation.PersistedProfileIsStable | hooks/useTranslation.ts:48-52 | a persisted profile language wins every later load |
| UseTranslation.SignedOutUsesSystem | hooks/useTranslation.ts:56-61 | with nothing stored and no user, the system language alone decides |
| UseTranslation.Notified | hooks/useTranslation.ts:68-74 | after a change the caller and every listener show the new language, and every other component keeps its own |
| UseTranslation.NotifiedIdempotent | hooks/useTranslation.ts:73 | notifying twice with the same language changes nothing more |
| UseTranslation.LanguageHub.constructor | hooks/useTranslation.ts:7-10 | no listeners and no mounted components over the persisted value |
| UseTranslation.LanguageHub.Mount | hooks/useTranslation.ts:13-23 | the component starts at 'en' and its listener is added |
| UseTranslation.LanguageHub.Unmount | hooks/useTranslation.ts:25-27 | exactly this component's listener is removed |
| UseTranslation.LanguageHub.LoadLanguage | hooks/useTranslation.ts:30-66 | the component's locale is the resolved language; a profile language is persisted when the write succeeds |
| UseTranslation.LanguageHub.ChangeLanguage | hooks/useTranslation.ts:68-74 | the caller's locale is set and persisted, then every listener is notified; a failed write skips the notification |
| UseTranslation.NotifyAll | hooks/useTranslation.ts:73 | the loop over the listener set yields the notified locales |
| UseTranslation.NotifiedStep | hooks/useTranslation.ts:73 | notifying one more listener changes only that listener's entry |
| UseTranslation.NotifiedOverCaller | hooks/useTranslation.ts:69-73 | setting the caller's own locale first does not change the outcome |
| UseTranslation.ChangeReachesEveryListener | hooks/useTranslation.ts:73 | every subscribed component shows the new language |
| UseTranslation.UnmountedNotNotified | hooks/useTranslation.ts:26 | an unmounted component keeps its locale |
| TranslateMessage.MatchLen | supabase/functions/translate-message/index.ts:58 | the length of the pattern matching at the start, or 0 when none matches there |
| TranslateMessage.Strip | supabase/functions/translate-message/index.ts:23 | a global `replace` by '' never lengthens the text |
| TranslateMessage.StripFree | supabase/functions/translate-message/index.ts:23 | text without any pattern is left unchanged |
| TranslateMessage.Sanitize | supabase/functions/translate-message/index.ts:23 | closing tags are removed: a text containing one gets shorter, and a text without one is sent exactly as written |
| TranslateMessage.Cleanup | supabase/functions/translate-message/index.ts:58 | opening and closing tags are removed: a reply containing either gets shorter, and a reply without tags is kept as it is |
| TranslateMessage.StripShortens | supabase/functions/translate-message/index.ts:23 | text that contains a tag gets strictly shorter |
| TranslateMessage.StripKeepsPrefix | supabase/functions/translate-message/index.ts:23 | a prefix where no tag starts passes through unchanged |
| TranslateMessage.NoTagInHead | supabase/functions/translate-message/index.ts:23 | no closing tag starts inside the head "</text_to" of the counterexample |
| TranslateMessage.InnerTagDropped | supabase/functions/translate-message/index.ts:23 | the inner closing tag of the counterexample is removed |
| TranslateMessage.SanitizeCanFormTag | supabase/functions/translate-message/index.ts:23 | single-pass removal turns "</text_to</text_to_translate>_translate>" into a closing tag |
| TranslateMessage.Prompt | supabase/functions/translate-message/index.ts:42 | the opening tag, the sanitised text, the closing tag |
| TranslateMessage.PromptOfTagFree | supabase/functions/translate-message/index.ts:23-42 | tag-free content is wrapped as it is |
| TranslateMessage.Handle | supabase/functions/translate-message/index.ts:8-83 | a missing record, content or id is a 200 with no request; a missing key is a 500 with no request; text content is sent as Prompt of it; a failed request or an empty reply is a 500 with no update; a usable reply updates the message with the cleaned, trimmed text, and with no database error the reply is a 200 carrying that text |
| TranslateMessage.TagsTrimmed | supabase/functions/translate-message/index.ts:50 | a reply of two bare tags survives the first trim |
| TranslateMessage.TagsCleaned | supabase/functions/translate-message/index.ts:58 | cleanup removes both tags of such a reply |
| TranslateMessage.TagOnlyReplyStoresEmpty | supabase/functions/translate-message/index.ts:50-77 | a reply of tags alone passes the empty check and stores an empty translation with a 200 |
| PushNotification.Tokens | supabase/functions/push-notification/index.ts:34-49 | exactly the non-empty push tokens of participants other than the sender |
| PushNotification.TokensAppend | supabase/functions/push-notification/index.ts:47-49 | token collection keeps the participants' order |
| PushNotification.TokensSkipFalsy | supabase/functions/push-notification/index.ts:49 | a participant with a missing or empty token is skipped |
| PushNotification.Title | supabase/functions/push-notification/index.ts:56-58 | a group's name, otherwise the sender, also when the conversation row is missing |
| PushNotification.Body | supabase/functions/push-notification/index.ts:60-62 | "sender: content" for a group, otherwise the bare content |
| PushNotification.Fanout | supabase/functions/push-notification/index.ts:65-74 | one message per token, in token order, all with the same title, body and data |
| PushNotification.Handle | supabase/functions/push-notification/index.ts:8-99 | a missing record, conversation or sender is a 200 with nothing sent; a participant query error is a 500 with nothing sent; no tokens gives "No tokens found"; otherwise exactly the fan-out of the tokens is posted, replying 200 when the push service answers and 500 when it fails |
| PushNotification.SenderNotNotified | supabase/functions/push-notification/index.ts:41 | every message goes to another participant's token |
| PushNotification.UnnamedSenderIsSomeone | supabase/functions/push-notification/index.ts:24 | without a profile name the sender is "Someone" |
| GlobalRealtime.MessageNotification | hooks/useGlobalRealtime.ts:27-48 | nothing when no user is known or the message is mine; otherwise "New message from <name or Someone>" with the content or 'Sent an image/attachment' |
| GlobalRealtime.ScheduleNotification | hooks/useGlobalRealtime.ts:55-65 | only for a known user and an item that is not someone else's; INSERT and UPDATE have their own texts, other events give nothing |
| GlobalRealtime.DeleteNeverNotifies | hooks/useGlobalRealtime.ts:60-64 | a DELETE gives no notification |
| GlobalRealtime.OthersItemsSilent | hooks/useGlobalRealtime.ts:58 | another user's schedule item gives no notification |
| GlobalRealtime.SignedOutSilent | hooks/useGlobalRealtime.ts:31 | with no known user nothing is notified |
| GlobalRealtime.RealtimeListener.constructor | hooks/useGlobalRealtime.ts:7 | the tracked user id starts null |
| GlobalRealtime.RealtimeListener.InitialUser | hooks/useGlobalRealtime.ts:11-13 | the initial fetch sets the id only when there is a user |
| GlobalRealtime.RealtimeListener.OnAuthStateChange | hooks/useGlobalRealtime.ts:16-18 | an auth change replaces the id, with null on sign-out |
| GlobalRealtime.RealtimeListener.OnMessage | hooks/useGlobalRealtime.ts:24-49 | a message event produces the message notification for the tracked user |
| GlobalRealtime.RealtimeListener.OnSchedule | hooks/useGlobalRealtime.ts:52-66 | a schedule event produces the schedule notification for the tracked user |
| BadgeTracker.SomeAfter | hooks/useBadgeTracker.ts:56 | holds exactly when some timestamp is strictly after the last visit |
| BadgeTracker.HasNew | hooks/useBadgeTracker.ts:54-62 | false without a last visit or a list; otherwise some item is strictly newer than the visit |
| BadgeTracker.SameInstantNotNew | hooks/useBadgeTracker.ts:56 | an item created at the visit instant is not new |
| BadgeTracker.LaterVisitClearsOnly | hooks/useBadgeTracker.ts:42-52 | a later visit can only turn the badge from on to off |
| BadgeTracker.VisitAfterAllClears | hooks/useBadgeTracker.ts:42-57 | visiting after every item's creation clears the badge |
| BadgeTracker.Tracker.constructor | hooks/useBadgeTracker.ts:9-11 | no last visits, over the stored values |
| BadgeTracker.Tracker.LoadTimestamps | hooks/useBadgeTracker.ts:18-40 | each last visit is the stored one, or its own clock reading, which is then persisted |
| BadgeTracker.Tracker.MarkTravelVisited | hooks/useBadgeTracker.ts:42-46 | the travel visit becomes now and is persisted; the schedule visit is kept |
| BadgeTracker.Tracker.MarkScheduleVisited | hooks/useBadgeTracker.ts:48-52 | the schedule visit becomes now and is persisted; the travel visit is kept |
| BadgeTracker.Tracker.HasNewTravel | hooks/useBadgeTracker.ts:54-57 | the badge rule over the travel visit |
| BadgeTracker.Tracker.HasNewSchedule | hooks/useBadgeTracker.ts:59-62 | the same rule over the schedule visit |
| ChatContext.TotalUnread | context/ChatContext.tsx:75-78 | the `reduce` of the unread counts is non-negative when no count is negative, and 0 when every count is 0 |
| ChatContext.TotalUnreadBoundsAll | context/ChatContext.tsx:75-78 | with non-negative counts, the total is non-negative and at least every conversation's count |
| ChatContext.ChatProvider.TotalUnreadCount | context/ChatContext.tsx:75-78 | the badge total of the current list, bounding each conversation's count when none is negative |
| ChatContext.TotalUnreadAppend | context/ChatContext.tsx:75-78 | the total is additive over concatenated conversation lists |
| ChatContext.TotalUnreadBounds | context/ChatContext.tsx:75-78 | with non-negative counts, each conversation's count is at most the total |
| ChatContext.MissingCountIsZero | context/ChatContext.tsx:76 | a conversation without a count adds 0 |
| ChatContext.ChatProvider.constructor | context/ChatContext.tsx:25-26 | no conversations, loading |
| ChatContext.ChatProvider.FetchConversations | context/ChatContext.tsx:28-44 | a background refresh never changes `loading`, a foreground one ends false; an error or missing data leaves the list unchanged |
| ChatContext.ChatProvider.OnMessageInsert | context/ChatContext.tsx:62-66 | any message INSERT triggers a background refresh |
| Organization.OrganizationHook.constructor | hooks/useOrganization.ts:5-6 | not loading, nothing requested |
| Organization.OrganizationHook.CreateOrganization | hooks/useOrganization.ts:13-54 | a blank name throws "Name is required" before anything else; the insert uses the trimmed name; the creator becomes 'admin'; loading ends false |
| Organization.OrganizationHook.JoinOrganization | hooks/useOrganization.ts:56-93 | a code shorter than 6 throws "Invalid code" before any lookup; the lookup uses the upper-cased code; an unknown code throws "Invalid invite code" with no profile update; the joiner becomes 'staff' |
| Organization.LookupIgnoresCase | hooks/useOrganization.ts:68 | codes that differ only in letter case look up the same organisation |
| JoinTeam.JoinTeamScreen.constructor | app/onboarding/join-team.tsx:16-17 | an empty code, not loading |
| JoinTeam.JoinTeamScreen.SetCode | app/onboarding/join-team.tsx:83-85 | the input keeps at most 6 characters |
| JoinTeam.JoinTeamScreen.HandleJoin | app/onboarding/join-team.tsx:19-64 | a short code is rejected with no lookup; an unknown code gives no profile update; success sets the organisation and role 'staff' |
| JoinTeam.EnabledIffFullCode | app/onboarding/join-team.tsx:85-92 | the button is enabled exactly when not loading and 6 characters were typed |
| Signup.Validate | app/signup.tsx:32-46 | an empty field, then a mismatch, then a short password is reported, in that order; the form passes exactly when all fields are set, the passwords match and have at least 6 characters |
| Signup.MismatchReportedFirst | app/signup.tsx:38-46 | a mismatch of short passwords is reported as a mismatch |
| Signup.SignUpScreen.constructor | app/signup.tsx:27-30 | not loading, no sign-up call |
| Signup.SignUpScreen.HandleSignUp | app/signup.tsx:32-69 | sign-up is called only when validation passes; loading ends false |
| ExpenseForm.CategoriesMatchUnion | app/expenses/create.tsx:20-27 | the listed ids are exactly the expense categories, each once |
| ExpenseForm.Payload | app/expenses/create.tsx:74-81 | the amount, category and description, with paid_by 'employee' and currency 'JPY' |
| ExpenseForm.ExpenseFormScreen.constructor | app/expenses/create.tsx:35-39 | empty fields, category 'transport', no image, not submitting |
| ExpenseForm.ExpenseFormScreen.HandleSave | app/expenses/create.tsx:60-90 | an empty or non-numeric amount, then 'other' with a blank description, is rejected with no submit; otherwise the payload and the image are submitted, navigation back follows success only, and `submitting` is reset |
| Expenses.NewExpenseRow | hooks/useExpenses.ts:77-83 | `expenseData` overridden by user_id, organization_id, receipt_url and status 'pending' |
| Expenses.ExpensesHook.constructor | hooks/useExpenses.ts:7-9 | no expenses, loading, no role |
| Expenses.ExpensesHook.FetchExpenses | hooks/useExpenses.ts:11-39 | the role defaults to 'staff'; an error keeps the list; loading ends false |
| Expenses.ExpensesHook.CreateExpense | hooks/useExpenses.ts:41-92 | no user or organisation returns false before any upload; receipt_url is null without an image; a failed upload returns false with no insert; true only after an error-free insert; every false leaves the list, loading flag and role as they were; a true ends with the refetch's list and role and loading false |
| Expenses.ExpensesHook.UpdateExpenseStatus | hooks/useExpenses.ts:94-106 | only the status is sent; a refetch follows success only |
| Layout.Decide | app/_layout.tsx:29-45 | no redirect before initialisation; "/(tabs)" for a session outside the tabs, "/" for no session inside them, none otherwise |
| Layout.RedirectSettles | app/_layout.tsx:36-44 | once redirected, the new route needs no further redirect |
| Layout.RootLayout.constructor | app/_layout.tsx:9-10 | no session, not initialised |
| Layout.RootLayout.OnInitialSession | app/_layout.tsx:16-19 | the initial session is stored and the layout is initialised |
| Layout.RootLayout.OnAuthStateChange | app/_layout.tsx:22-24 | an auth change replaces the session only |
| Layout.RootLayout.Navigate | app/_layout.tsx:29-45 | the redirect of the current state |

## Left out

- Remote services are not modelled as behaviour. This covers the Postgres queries, row-level security, storage uploads and public URLs, auth, RPC, realtime channels, the LLM and Expo push HTTP calls, and `fetch(imageUri)`. Each call is a parameter carrying its result. A failure of `fetch(imageUri)` is folded into the upload error.
- Concurrency is not modelled. `processQueue` writes back a list computed from the snapshot it read first, so an `addToQueue` interleaved with it is lost. The queue is modelled sequentially, and no claim is made about interleavings.
- The clock, `Math.random` (`generateInviteCode`) and the device locale are parameters. The temp message id is `temp-` followed by the given time.
- Floating point is not modelled. `Number(amount)` and `isNaN` are an `Option<real>` parameter. The decoder's `length * 0.75` is computed exactly with integers and then truncated, as the ArrayBuffer constructor does.
- date-fns parsing and formatting are replaced by integer day numbers. An invalid date string, and the `try` around `eachDayOfInterval`, are not modelled.
- Case mapping covers ASCII letters only.
- Strings are sequences of Unicode scalar values. JavaScript's `length`, `maxLength` and `charCodeAt` count UTF-16 code units, so a character outside the Basic Multilingual Plane counts once in the model and twice in the app. The members below are weaker than the app in that respect.
- Signup.Validate: the 6-character password minimum counts characters, not code units.
- Organization.OrganizationHook.JoinOrganization: the 6-character code minimum counts characters, not code units.
- JoinTeam.JoinTeamScreen.SetCode: the 6-character cut-off counts characters, not code units.
- JoinTeam.JoinTeamScreen.HandleJoin: the 6-character check counts characters, not code units.
- Base64.BufferLength: the input length counts characters, not code units.
- Base64.LookupAt: a position indexes characters; the app would see each half of a surrogate pair at its own position, looking up 0.
- JSON serialisation is not modelled. The stored queue is a datatype, with one case for a missing key and one for unreadable content. A stored JSON value that is not an array is not distinguished.
- Toasts, alerts, haptics, navigation calls other than the redirect outcome, logging, and the OS notification API are left out.
- The query cache's refetch on settle is a `stale` flag, not a new fetch.
- Chat.ChatHook.Send: the snapshot and the rollback use one value of `userRef`. A change of `userRef` between the guard and the optimistic step is not modelled.
- Expenses.ExpensesHook.UpdateExpenseStatus: the state after a successful refetch is stated only as `loading` being false, not as the refetched rows.
- `supabase.auth.refreshSession` after creating or joining an organisation is not modelled.
- The badge code's storage write failures are not modelled.
- The badge code's invalid timestamp strings are not modelled.
- PushNotification.Handle: a `content_original` that is not text is not modelled. Such content would reach the template as some other value.
- TranslateMessage.Handle: a reply whose content is not text is treated as missing.
- Translations.T: it returns nothing for a locale other than 'en' or 'ja'. In the app, such a locale can come only from an unchecked cast of the profile's language.
- The en and ja tables have the same key set by construction. `Key` enumerates the en table, which is how `TranslationKey` is defined, and the Japanese text is a total function over it.
- CategoryLabels.CategoryLabel is ghost. Choosing the key that a string names is not computable in the model.
- Not part of this model, because their only logic is a query choice or a check covered elsewhere:
  - the fetch-only hooks: useTravel, useProjects, useProjectDetails, useStaff, useOrganizationDetails, useUserRole, useSchedule, useConversations;
  - the remaining screens: chat details, complete-profile, index, create-org, onboarding index, team, the expense list;
  - the ticket screen's local-time computation;
  - the toast timers;
  - the notification hook.
