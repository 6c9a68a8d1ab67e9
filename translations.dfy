/**
 * The two string tables of lib/translations.ts and the lookup `t` of
 * hooks/useTranslation.ts. `TranslationKey` (the keys of the English table) is
 * a datatype grouped by the file's sections, so every key has an entry in
 * both tables by construction; the texts are the file's own.
 */
module Translations {
  import opened Common

  datatype TabsKey = TabHome | TabChat | TabTravel | TabSchedule
  datatype HomeKey = GreetingMorning | GreetingAfternoon | GreetingEvening | NextActivity | QuickActions | Expenses
  datatype ChatKey = MessagesTitle | SearchPlaceholder | NoConversations | TypeMessage | TranslatedLabel | NewChat | CreateGroup | GroupName | SelectMembers | DeleteChatTitle | DeleteChatMsg | DeleteConfirm
  datatype TravelKey = TravelLogistics | OpenMaps | RemindMe
  datatype ScheduleKey = ScheduleTitle | NoEvents | WorkShift | TravelDay | OffDay
  datatype ExpensesKey = ExpensesTitle | NewExpense | EditExpense | ExpenseDetails | TotalAmount | Category | Description | Receipt | Submit | SaveChanges | DeleteExpense | Approve | Reject
  datatype CategoriesKey = CatTransport | CatHotel | CatFuel | CatParking | CatMeals | CatOther
  datatype ProfileKey = SetupProfile | EditProfile | FullName | OrgId | PrefLanguage | CompleteSetup | LogOut | UploadPhoto | PhotoRequired
  datatype ScheduleAdminKey = StartDate | EndDate | StartTime | EndTime | Location | SelectStaff | CreateShifts | SelectAll | DiscardTitle | DiscardMsg | DiscardConfirm | KeepEditing

  /** `TranslationKey`, grouped by the sections of the English table. */
  datatype Key =
    | TabsSection(tabs: TabsKey)
    | HomeSection(home: HomeKey)
    | ChatSection(chat: ChatKey)
    | TravelSection(travel: TravelKey)
    | ScheduleSection(schedule: ScheduleKey)
    | ExpensesSection(expenses: ExpensesKey)
    | CategoriesSection(categories: CategoriesKey)
    | ProfileSection(profile: ProfileKey)
    | ScheduleAdminSection(scheduleAdmin: ScheduleAdminKey)

  function KeyNameTabs(k: TabsKey): string {
    match k
    case TabHome => "tab_home"
    case TabChat => "tab_chat"
    case TabTravel => "tab_travel"
    case TabSchedule => "tab_schedule"
  }

  function KeyNameHome(k: HomeKey): string {
    match k
    case GreetingMorning => "greeting_morning"
    case GreetingAfternoon => "greeting_afternoon"
    case GreetingEvening => "greeting_evening"
    case NextActivity => "next_activity"
    case QuickActions => "quick_actions"
    case Expenses => "expenses"
  }

  function KeyNameChat(k: ChatKey): string {
    match k
    case MessagesTitle => "messages_title"
    case SearchPlaceholder => "search_placeholder"
    case NoConversations => "no_conversations"
    case TypeMessage => "type_message"
    case TranslatedLabel => "translated_label"
    case NewChat => "new_chat"
    case CreateGroup => "create_group"
    case GroupName => "group_name"
    case SelectMembers => "select_members"
    case DeleteChatTitle => "delete_chat_title"
    case DeleteChatMsg => "delete_chat_msg"
    case DeleteConfirm => "delete_confirm"
  }

  function KeyNameTravel(k: TravelKey): string {
    match k
    case TravelLogistics => "travel_logistics"
    case OpenMaps => "open_maps"
    case RemindMe => "remind_me"
  }

  function KeyNameSchedule(k: ScheduleKey): string {
    match k
    case ScheduleTitle => "schedule_title"
    case NoEvents => "no_events"
    case WorkShift => "work_shift"
    case TravelDay => "travel_day"
    case OffDay => "off_day"
  }

  function KeyNameExpenses(k: ExpensesKey): string {
    match k
    case ExpensesTitle => "expenses_title"
    case NewExpense => "new_expense"
    case EditExpense => "edit_expense"
    case ExpenseDetails => "expense_details"
    case TotalAmount => "total_amount"
    case Category => "category"
    case Description => "description"
    case Receipt => "receipt"
    case Submit => "submit"
    case SaveChanges => "save_changes"
    case DeleteExpense => "delete_expense"
    case Approve => "approve"
    case Reject => "reject"
  }

  function KeyNameCategories(k: CategoriesKey): string {
    match k
    case CatTransport => "cat_transport"
    case CatHotel => "cat_hotel"
    case CatFuel => "cat_fuel"
    case CatParking => "cat_parking"
    case CatMeals => "cat_meals"
    case CatOther => "cat_other"
  }

  function KeyNameProfile(k: ProfileKey): string {
    match k
    case SetupProfile => "setup_profile"
    case EditProfile => "edit_profile"
    case FullName => "full_name"
    case OrgId => "org_id"
    case PrefLanguage => "pref_language"
    case CompleteSetup => "complete_setup"
    case LogOut => "log_out"
    case UploadPhoto => "upload_photo"
    case PhotoRequired => "photo_required"
  }

  function KeyNameScheduleAdmin(k: ScheduleAdminKey): string {
    match k
    case StartDate => "start_date"
    case EndDate => "end_date"
    case StartTime => "start_time"
    case EndTime => "end_time"
    case Location => "location"
    case SelectStaff => "select_staff"
    case CreateShifts => "create_shifts"
    case SelectAll => "select_all"
    case DiscardTitle => "discard_title"
    case DiscardMsg => "discard_msg"
    case DiscardConfirm => "discard_confirm"
    case KeepEditing => "keep_editing"
  }

  /** The property name of a key. */
  function KeyName(k: Key): string {
    match k
    case TabsSection(s) => KeyNameTabs(s)
    case HomeSection(s) => KeyNameHome(s)
    case ChatSection(s) => KeyNameChat(s)
    case TravelSection(s) => KeyNameTravel(s)
    case ScheduleSection(s) => KeyNameSchedule(s)
    case ExpensesSection(s) => KeyNameExpenses(s)
    case CategoriesSection(s) => KeyNameCategories(s)
    case ProfileSection(s) => KeyNameProfile(s)
    case ScheduleAdminSection(s) => KeyNameScheduleAdmin(s)
  }

  function EnTextTabs(k: TabsKey): string {
    match k
    case TabHome => "Home"
    case TabChat => "Chat"
    case TabTravel => "Travel"
    case TabSchedule => "Schedule"
  }

  function EnTextHome(k: HomeKey): string {
    match k
    case GreetingMorning => "Ohayou gozaimasu"
    case GreetingAfternoon => "Konnichiwa"
    case GreetingEvening => "Konbanwa"
    case NextActivity => "NEXT ACTIVITY"
    case QuickActions => "Quick Actions"
    case Expenses => "Expenses"
  }

  function EnTextChat(k: ChatKey): string {
    match k
    case MessagesTitle => "Messages"
    case SearchPlaceholder => "Search conversations..."
    case NoConversations => "No conversations found"
    case TypeMessage => "Type a message..."
    case TranslatedLabel => "TRANSLATED"
    case NewChat => "New Chat"
    case CreateGroup => "Create Group"
    case GroupName => "Group Name"
    case SelectMembers => "Select Members"
    case DeleteChatTitle => "Delete Chat"
    case DeleteChatMsg => "Are you sure you want to delete this conversation?"
    case DeleteConfirm => "Delete"
  }

  function EnTextTravel(k: TravelKey): string {
    match k
    case TravelLogistics => "Travel Logistics"
    case OpenMaps => "Open in Google Maps"
    case RemindMe => "Remind me to leave on time"
  }

  function EnTextSchedule(k: ScheduleKey): string {
    match k
    case ScheduleTitle => "Schedule"
    case NoEvents => "No events scheduled"
    case WorkShift => "Work Shift"
    case TravelDay => "Travel / Transit"
    case OffDay => "Day Off"
  }

  function EnTextExpenses(k: ExpensesKey): string {
    match k
    case ExpensesTitle => "Expenses"
    case NewExpense => "New Expense"
    case EditExpense => "Edit Expense"
    case ExpenseDetails => "Expense Details"
    case TotalAmount => "Total Amount"
    case Category => "Category"
    case Description => "Description"
    case Receipt => "Receipt"
    case Submit => "Submit Expense"
    case SaveChanges => "Save Changes"
    case DeleteExpense => "Delete Expense"
    case Approve => "Approve"
    case Reject => "Reject"
  }

  function EnTextCategories(k: CategoriesKey): string {
    match k
    case CatTransport => "Transport"
    case CatHotel => "Hotel"
    case CatFuel => "Fuel"
    case CatParking => "Parking"
    case CatMeals => "Meals"
    case CatOther => "Other"
  }

  function EnTextProfile(k: ProfileKey): string {
    match k
    case SetupProfile => "Setup Profile"
    case EditProfile => "Edit Profile"
    case FullName => "Full Name"
    case OrgId => "Organization ID"
    case PrefLanguage => "Preferred Language"
    case CompleteSetup => "Complete Setup"
    case LogOut => "Log Out"
    case UploadPhoto => "Upload Photo"
    case PhotoRequired => "Face clearly visible required"
  }

  function EnTextScheduleAdmin(k: ScheduleAdminKey): string {
    match k
    case StartDate => "Start Date"
    case EndDate => "End Date"
    case StartTime => "Start Time"
    case EndTime => "End Time"
    case Location => "Location"
    case SelectStaff => "Select Staff"
    case CreateShifts => "Create Shifts"
    case SelectAll => "Select All"
    case DiscardTitle => "Discard Changes?"
    case DiscardMsg => "Going back will discard your unsaved shift."
    case DiscardConfirm => "Discard"
    case KeepEditing => "Keep Editing"
  }

  /** The English table. */
  function EnText(k: Key): string {
    match k
    case TabsSection(s) => EnTextTabs(s)
    case HomeSection(s) => EnTextHome(s)
    case ChatSection(s) => EnTextChat(s)
    case TravelSection(s) => EnTextTravel(s)
    case ScheduleSection(s) => EnTextSchedule(s)
    case ExpensesSection(s) => EnTextExpenses(s)
    case CategoriesSection(s) => EnTextCategories(s)
    case ProfileSection(s) => EnTextProfile(s)
    case ScheduleAdminSection(s) => EnTextScheduleAdmin(s)
  }

  function JaTextTabs(k: TabsKey): string {
    match k
    case TabHome => "ホーム"
    case TabChat => "チャット"
    case TabTravel => "移動"
    case TabSchedule => "日程"
  }

  function JaTextHome(k: HomeKey): string {
    match k
    case GreetingMorning => "おはようございます"
    case GreetingAfternoon => "こんにちは"
    case GreetingEvening => "こんばんは"
    case NextActivity => "次の予定"
    case QuickActions => "クイックアクション"
    case Expenses => "経費精算"
  }

  function JaTextChat(k: ChatKey): string {
    match k
    case MessagesTitle => "メッセージ"
    case SearchPlaceholder => "会話を検索..."
    case NoConversations => "会話が見つかりません"
    case TypeMessage => "メッセージを入力..."
    case TranslatedLabel => "翻訳済み"
    case NewChat => "新規チャット"
    case CreateGroup => "グループ作成"
    case GroupName => "グループ名"
    case SelectMembers => "メンバー選択"
    case DeleteChatTitle => "チャットを削除"
    case DeleteChatMsg => "この会話を削除してもよろしいですか？"
    case DeleteConfirm => "削除"
  }

  function JaTextTravel(k: TravelKey): string {
    match k
    case TravelLogistics => "移動ロジスティクス"
    case OpenMaps => "Googleマップで開く"
    case RemindMe => "出発時間にリマインド"
  }

  function JaTextSchedule(k: ScheduleKey): string {
    match k
    case ScheduleTitle => "スケジュール"
    case NoEvents => "予定はありません"
    case WorkShift => "勤務"
    case TravelDay => "移動日"
    case OffDay => "休日"
  }

  function JaTextExpenses(k: ExpensesKey): string {
    match k
    case ExpensesTitle => "経費"
    case NewExpense => "経費登録"
    case EditExpense => "経費編集"
    case ExpenseDetails => "経費詳細"
    case TotalAmount => "合計金額"
    case Category => "カテゴリー"
    case Description => "備考"
    case Receipt => "レシート"
    case Submit => "申請する"
    case SaveChanges => "変更を保存"
    case DeleteExpense => "削除する"
    case Approve => "承認"
    case Reject => "却下"
  }

  function JaTextCategories(k: CategoriesKey): string {
    match k
    case CatTransport => "交通費"
    case CatHotel => "宿泊費"
    case CatFuel => "ガソリン代"
    case CatParking => "駐車場代"
    case CatMeals => "食事代"
    case CatOther => "その他"
  }

  function JaTextProfile(k: ProfileKey): string {
    match k
    case SetupProfile => "プロフィール設定"
    case EditProfile => "プロフィール編集"
    case FullName => "氏名"
    case OrgId => "組織ID"
    case PrefLanguage => "言語設定"
    case CompleteSetup => "設定を完了"
    case LogOut => "ログアウト"
    case UploadPhoto => "写真をアップロード"
    case PhotoRequired => "顔がはっきり見える写真"
  }

  function JaTextScheduleAdmin(k: ScheduleAdminKey): string {
    match k
    case StartDate => "開始日"
    case EndDate => "終了日"
    case StartTime => "開始時間"
    case EndTime => "終了時間"
    case Location => "場所"
    case SelectStaff => "スタッフを選択"
    case CreateShifts => "シフトを作成"
    case SelectAll => "全員選択"
    case DiscardTitle => "変更を破棄しますか？"
    case DiscardMsg => "保存されていないシフトは破棄されます。"
    case DiscardConfirm => "破棄する"
    case KeepEditing => "編集を続ける"
  }

  /** The Japanese table. */
  function JaText(k: Key): string {
    match k
    case TabsSection(s) => JaTextTabs(s)
    case HomeSection(s) => JaTextHome(s)
    case ChatSection(s) => JaTextChat(s)
    case TravelSection(s) => JaTextTravel(s)
    case ScheduleSection(s) => JaTextSchedule(s)
    case ExpensesSection(s) => JaTextExpenses(s)
    case CategoriesSection(s) => JaTextCategories(s)
    case ProfileSection(s) => JaTextProfile(s)
    case ScheduleAdminSection(s) => JaTextScheduleAdmin(s)
  }

  /** `translations[locale][key] || key`; None when `locale` names neither table, where the lookup would throw. */
  function T(locale: string, k: Key): (r: Option<string>)
    ensures r.Some? <==> locale == "en" || locale == "ja"
  {
    if locale == "en" then Some(if EnText(k) != "" then EnText(k) else KeyName(k))
    else if locale == "ja" then Some(if JaText(k) != "" then JaText(k) else KeyName(k))
    else None
  }

  /** Whether a string is the name of some `TranslationKey`. */
  ghost predicate IsTranslationKey(s: string) {
    exists k :: KeyName(k) == s
  }

  /** `t(s as any)`: a string that names a key is looked up, any other string is shown as it is. */
  ghost function TAny(locale: string, s: string): (r: Option<string>)
    ensures r.Some? <==> locale == "en" || locale == "ja"
    ensures !IsTranslationKey(s) && r.Some? ==> r == Some(s)
  {
    if IsTranslationKey(s) then T(locale, var k :| KeyName(k) == s; k)
    else if locale == "en" || locale == "ja" then Some(s)
    else None
  }

  lemma EnFilledTabs(k: TabsKey)
    ensures |EnTextTabs(k)| > 0
  {
  }

  lemma EnFilledHome(k: HomeKey)
    ensures |EnTextHome(k)| > 0
  {
  }

  lemma EnFilledChat(k: ChatKey)
    ensures |EnTextChat(k)| > 0
  {
  }

  lemma EnFilledTravel(k: TravelKey)
    ensures |EnTextTravel(k)| > 0
  {
  }

  lemma EnFilledSchedule(k: ScheduleKey)
    ensures |EnTextSchedule(k)| > 0
  {
  }

  lemma EnFilledExpenses(k: ExpensesKey)
    ensures |EnTextExpenses(k)| > 0
  {
  }

  lemma EnFilledCategories(k: CategoriesKey)
    ensures |EnTextCategories(k)| > 0
  {
  }

  lemma EnFilledProfile(k: ProfileKey)
    ensures |EnTextProfile(k)| > 0
  {
  }

  lemma EnFilledScheduleAdmin(k: ScheduleAdminKey)
    ensures |EnTextScheduleAdmin(k)| > 0
  {
  }

  /** No entry of the English table is empty, so `t` never falls back to the key for a `TranslationKey`. */
  lemma EnFilled(k: Key)
    ensures |EnText(k)| > 0
  {
    match k
    case TabsSection(s) => EnFilledTabs(s);
    case HomeSection(s) => EnFilledHome(s);
    case ChatSection(s) => EnFilledChat(s);
    case TravelSection(s) => EnFilledTravel(s);
    case ScheduleSection(s) => EnFilledSchedule(s);
    case ExpensesSection(s) => EnFilledExpenses(s);
    case CategoriesSection(s) => EnFilledCategories(s);
    case ProfileSection(s) => EnFilledProfile(s);
    case ScheduleAdminSection(s) => EnFilledScheduleAdmin(s);
  }

  lemma JaFilledTabs(k: TabsKey)
    ensures |JaTextTabs(k)| > 0
  {
  }

  lemma JaFilledHome(k: HomeKey)
    ensures |JaTextHome(k)| > 0
  {
  }

  lemma JaFilledChat(k: ChatKey)
    ensures |JaTextChat(k)| > 0
  {
  }

  lemma JaFilledTravel(k: TravelKey)
    ensures |JaTextTravel(k)| > 0
  {
  }

  lemma JaFilledSchedule(k: ScheduleKey)
    ensures |JaTextSchedule(k)| > 0
  {
  }

  lemma JaFilledExpenses(k: ExpensesKey)
    ensures |JaTextExpenses(k)| > 0
  {
  }

  lemma JaFilledCategories(k: CategoriesKey)
    ensures |JaTextCategories(k)| > 0
  {
  }

  lemma JaFilledProfile(k: ProfileKey)
    ensures |JaTextProfile(k)| > 0
  {
  }

  lemma JaFilledScheduleAdmin(k: ScheduleAdminKey)
    ensures |JaTextScheduleAdmin(k)| > 0
  {
  }

  /** No entry of the Japanese table is empty, so `t` never falls back to the key for a `TranslationKey`. */
  lemma JaFilled(k: Key)
    ensures |JaText(k)| > 0
  {
    match k
    case TabsSection(s) => JaFilledTabs(s);
    case HomeSection(s) => JaFilledHome(s);
    case ChatSection(s) => JaFilledChat(s);
    case TravelSection(s) => JaFilledTravel(s);
    case ScheduleSection(s) => JaFilledSchedule(s);
    case ExpensesSection(s) => JaFilledExpenses(s);
    case CategoriesSection(s) => JaFilledCategories(s);
    case ProfileSection(s) => JaFilledProfile(s);
    case ScheduleAdminSection(s) => JaFilledScheduleAdmin(s);
  }

  /** The first four characters are "cat_". */
  predicate CategoryPrefixed(s: string) {
    |s| >= 4 && s[0] == 'c' && s[1] == 'a' && s[2] == 't' && s[3] == '_'
  }

  lemma UnprefixedTabs(k: TabsKey)
    ensures !CategoryPrefixed(KeyNameTabs(k))
  {
  }

  lemma UnprefixedHome(k: HomeKey)
    ensures !CategoryPrefixed(KeyNameHome(k))
  {
  }

  lemma UnprefixedChat(k: ChatKey)
    ensures !CategoryPrefixed(KeyNameChat(k))
  {
  }

  lemma UnprefixedTravel(k: TravelKey)
    ensures !CategoryPrefixed(KeyNameTravel(k))
  {
  }

  lemma UnprefixedSchedule(k: ScheduleKey)
    ensures !CategoryPrefixed(KeyNameSchedule(k))
  {
  }

  lemma UnprefixedExpenses(k: ExpensesKey)
    ensures !CategoryPrefixed(KeyNameExpenses(k))
  {
  }

  lemma UnprefixedProfile(k: ProfileKey)
    ensures !CategoryPrefixed(KeyNameProfile(k))
  {
  }

  lemma UnprefixedScheduleAdmin(k: ScheduleAdminKey)
    ensures !CategoryPrefixed(KeyNameScheduleAdmin(k))
  {
  }

  lemma PrefixedCategories(k: CategoriesKey)
    ensures CategoryPrefixed(KeyNameCategories(k))
  {
  }

  /** Only the keys of the category section start with "cat_". */
  lemma CategoryPrefixedIffSection(k: Key)
    ensures CategoryPrefixed(KeyName(k)) <==> k.CategoriesSection?
  {
    match k
    case TabsSection(s) => UnprefixedTabs(s);
    case HomeSection(s) => UnprefixedHome(s);
    case ChatSection(s) => UnprefixedChat(s);
    case TravelSection(s) => UnprefixedTravel(s);
    case ScheduleSection(s) => UnprefixedSchedule(s);
    case ExpensesSection(s) => UnprefixedExpenses(s);
    case CategoriesSection(s) => PrefixedCategories(s);
    case ProfileSection(s) => UnprefixedProfile(s);
    case ScheduleAdminSection(s) => UnprefixedScheduleAdmin(s);
  }

  /** The category section names its keys distinctly. */
  lemma CategoryNamesDistinct(a: CategoriesKey, b: CategoriesKey)
    requires KeyNameCategories(a) == KeyNameCategories(b)
    ensures a == b
  {
  }

  /** A category key is the only key with its name. */
  lemma CategoryNameUnique(k: Key, c: CategoriesKey)
    requires KeyName(k) == KeyNameCategories(c)
    ensures k == CategoriesSection(c)
  {
    PrefixedCategories(c);
    CategoryPrefixedIffSection(k);
    CategoryNamesDistinct(k.categories, c);
  }

  /** So `t` on a category key's name finds that key's entry. */
  lemma CategoryNameLookup(locale: string, c: CategoriesKey)
    ensures TAny(locale, KeyNameCategories(c)) == T(locale, CategoriesSection(c))
  {
    var name := KeyNameCategories(c);
    assert IsTranslationKey(name) by {
      assert KeyName(CategoriesSection(c)) == name;
    }
    forall k | KeyName(k) == name
      ensures k == CategoriesSection(c)
    {
      CategoryNameUnique(k, c);
    }
  }

  /** Every `TranslationKey` is shown with its table entry in both locales, a non-empty text. */
  lemma Translated(locale: string, k: Key)
    requires locale == "en" || locale == "ja"
    ensures T(locale, k) == Some(if locale == "en" then EnText(k) else JaText(k))
    ensures T(locale, k).value != ""
  {
    EnFilled(k);
    JaFilled(k);
  }

  /** A locale that names no table makes every lookup fail. */
  lemma UnknownLocaleFails(locale: string, s: string)
    requires locale != "en" && locale != "ja"
    ensures TAny(locale, s).None?
  {
  }

  /** 'cat_accommodation' is not a key: the category section has 'cat_hotel' instead. */
  lemma NoAccommodationKey()
    ensures !IsTranslationKey("cat_accommodation")
  {
    forall k: Key
      ensures KeyName(k) != "cat_accommodation"
    {
      if k.CategoriesSection? {
        assert KeyName(k)[4..] != "accommodation";
      }
    }
  }
}
