/** The translation table of i18n/translations.ts and its lookups `t`,
    `tArray` and `getCategoryName`. */
module Translations {
  import opened LedgerTypes

  /** The interface languages. */
  datatype Language = En | ZhTW | ZhCN

  /** The code under which a language is stored and keyed. */
  function Code(l: Language): string {
    match l
    case En => "en"
    case ZhTW => "zh-TW"
    case ZhCN => "zh-CN"
  }

  /** A table entry: a string, or a list of strings. */
  datatype Entry = Str(s: string) | Arr(items: seq<string>)

  /** One key's entries, by language. */
  datatype Entries = Entries(en: Entry, zhTW: Entry, zhCN: Entry)

  /** The keys of the table, in the source's order. */
  datatype Key =
    | AppTitle
    | AppSubtitle
    | TabEntry
    | TabReport
    | Income
    | Expense
    | Balance
    | Description
    | Note
    | Save
    | Update
    | Cancel
    | TransactionsOn
    | NoDescription
    | NoTransactions
    | Records
    | ReportTitle
    | ExportPdf
    | ThisWeek
    | ThisMonth
    | ThisYear
    | CustomRange
    | RangeTo
    | Today
    | WeekdaysShort
    | NetIncome
    | IncomeBreakdown
    | TotalIncomeLabel
    | ExpenseBreakdown
    | TotalExpenseLabel
    | Trend
    | TransactionList
    | Date
    | Category
    | Amount
    | Type
    | AiTitle
    | AiSubtitle
    | AiGreeting
    | AiHelpIntro
    | AiHelp1
    | AiHelp2
    | AiHelp3
    | AiPrompt
    | InputPlaceholder
    | AiDisclaimer
    | GenerateReport
    | MobileTabLedger
    | MobileTabAI
    | CatFood
    | CatTransport
    | CatShopping
    | CatEntertainment
    | CatUtilities
    | CatHealthcare
    | CatEducation
    | CatHousing
    | CatTravel
    | CatOther
    | CatSalary
    | CatBonus
    | CatInvestment
    | CatGift
    | LangEn
    | LangZhTW
    | LangZhCN
    | PrintFooter
    | ConfirmTextFormat
    | DetectedChinese
    | UseSimplified
    | UseTraditional

  /** The table `translations`: every key's entries in English, Traditional
      and Simplified Chinese. */
  function Table(k: Key): Entries {
    match k
    case AppTitle => Entries(Str("Smart Ledger"),
      Str("智能記帳本"),
      Str("智能记账本"))
    case AppSubtitle => Entries(Str("AI-Powered Ledger"),
      Str("AI-Powered Ledger"),
      Str("AI-Powered Ledger"))
    case TabEntry => Entries(Str("Entry"),
      Str("記帳"),
      Str("记账"))
    case TabReport => Entries(Str("Report"),
      Str("報表"),
      Str("报表"))
    case Income => Entries(Str("Income"),
      Str("收入"),
      Str("收入"))
    case Expense => Entries(Str("Expense"),
      Str("支出"),
      Str("支出"))
    case Balance => Entries(Str("Balance"),
      Str("結餘"),
      Str("结余"))
    case Description => Entries(Str("Note (max 15 chars)"),
      Str("備註（選填，最多15字）"),
      Str("备注（选填，最多15字）"))
    case Note => Entries(Str("Note"),
      Str("備註"),
      Str("备注"))
    case Save => Entries(Str("Save"),
      Str("儲存"),
      Str("保存"))
    case Update => Entries(Str("Update"),
      Str("更新"),
      Str("更新"))
    case Cancel => Entries(Str("Cancel"),
      Str("取消"),
      Str("取消"))
    case TransactionsOn => Entries(Str("Transactions on"),
      Str("的交易"),
      Str("的交易"))
    case NoDescription => Entries(Str("No description"),
      Str("無備註"),
      Str("无备注"))
    case NoTransactions => Entries(Str("No transactions on this date"),
      Str("這天沒有交易記錄"),
      Str("这天没有交易记录"))
    case Records => Entries(Str("records"),
      Str("筆"),
      Str("笔"))
    case ReportTitle => Entries(Str("Financial Report"),
      Str("財務報表"),
      Str("财务报表"))
    case ExportPdf => Entries(Str("Export PDF"),
      Str("匯出 PDF"),
      Str("导出 PDF"))
    case ThisWeek => Entries(Str("This Week"),
      Str("本週"),
      Str("本周"))
    case ThisMonth => Entries(Str("This Month"),
      Str("本月"),
      Str("本月"))
    case ThisYear => Entries(Str("This Year"),
      Str("今年"),
      Str("今年"))
    case CustomRange => Entries(Str("Custom Range"),
      Str("自訂範圍"),
      Str("自定范围"))
    case RangeTo => Entries(Str("to"),
      Str("至"),
      Str("至"))
    case Today => Entries(Str("Today"),
      Str("今天"),
      Str("今天"))
    case WeekdaysShort => Entries(Arr(["Su", "Mo", "Tu", "We", "Th", "Fr", "Sa"]),
      Arr(["日", "一", "二", "三", "四", "五", "六"]),
      Arr(["日", "一", "二", "三", "四", "五", "六"]))
    case NetIncome => Entries(Str("Net Income"),
      Str("淨收入"),
      Str("净收入"))
    case IncomeBreakdown => Entries(Str("Income Breakdown"),
      Str("收入分析"),
      Str("收入分析"))
    case TotalIncomeLabel => Entries(Str("Total"),
      Str("總收入"),
      Str("总收入"))
    case ExpenseBreakdown => Entries(Str("Expense Breakdown"),
      Str("支出分析"),
      Str("支出分析"))
    case TotalExpenseLabel => Entries(Str("Total"),
      Str("總支出"),
      Str("总支出"))
    case Trend => Entries(Str("Monthly Trend"),
      Str("月度趨勢"),
      Str("月度趋势"))
    case TransactionList => Entries(Str("Transaction List"),
      Str("交易明細"),
      Str("交易明细"))
    case Date => Entries(Str("Date"),
      Str("日期"),
      Str("日期"))
    case Category => Entries(Str("Category"),
      Str("類別"),
      Str("类别"))
    case Amount => Entries(Str("Amount"),
      Str("金額"),
      Str("金额"))
    case Type => Entries(Str("Type"),
      Str("類型"),
      Str("类型"))
    case AiTitle => Entries(Str("AI Assistant"),
      Str("AI 助理"),
      Str("AI 助理"))
    case AiSubtitle => Entries(Str("Powered by Gemini"),
      Str("Powered by Gemini"),
      Str("Powered by Gemini"))
    case AiGreeting => Entries(Str("Hi! I'm your AI Financial Assistant ✨"),
      Str("嗨！我是您的 AI 財務助理 ✨"),
      Str("嗨！我是您的 AI 财务助理 ✨"))
    case AiHelpIntro => Entries(Str("I can help you:"),
      Str("我可以幫您："),
      Str("我可以帮您："))
    case AiHelp1 => Entries(Str("📝 Record transactions"),
      Str("📝 記錄收支"),
      Str("📝 记录收支"))
    case AiHelp2 => Entries(Str("📊 Analyze spending"),
      Str("📊 分析消費"),
      Str("📊 分析消费"))
    case AiHelp3 => Entries(Str("📈 Generate reports"),
      Str("📈 生成報表"),
      Str("📈 生成报表"))
    case AiPrompt => Entries(Str("What would you like to do today?"),
      Str("請問今天想記什麼呢？"),
      Str("请问今天想记什么呢？"))
    case InputPlaceholder => Entries(Str("Type or tap mic to speak..."),
      Str("輸入訊息或點擊麥克風語音輸入..."),
      Str("输入消息或点击麦克风语音输入..."))
    case AiDisclaimer => Entries(Str("AI may make errors. Please verify important info."),
      Str("AI 可能會犯錯，請自行確認重要資訊"),
      Str("AI 可能会犯错，请自行确认重要信息"))
    case GenerateReport => Entries(Str("Generate Report"),
      Str("生成報表"),
      Str("生成报表"))
    case MobileTabLedger => Entries(Str("📊 Ledger"),
      Str("📊 記帳本"),
      Str("📊 记账本"))
    case MobileTabAI => Entries(Str("🤖 AI Assistant"),
      Str("🤖 AI 助理"),
      Str("🤖 AI 助理"))
    case CatFood => Entries(Str("Food"),
      Str("餐飲"),
      Str("餐饮"))
    case CatTransport => Entries(Str("Transport"),
      Str("交通"),
      Str("交通"))
    case CatShopping => Entries(Str("Shopping"),
      Str("購物"),
      Str("购物"))
    case CatEntertainment => Entries(Str("Entertainment"),
      Str("娛樂"),
      Str("娱乐"))
    case CatUtilities => Entries(Str("Utilities"),
      Str("水電"),
      Str("水电"))
    case CatHealthcare => Entries(Str("Healthcare"),
      Str("醫療"),
      Str("医疗"))
    case CatEducation => Entries(Str("Education"),
      Str("教育"),
      Str("教育"))
    case CatHousing => Entries(Str("Housing"),
      Str("住房"),
      Str("住房"))
    case CatTravel => Entries(Str("Travel"),
      Str("旅遊"),
      Str("旅游"))
    case CatOther => Entries(Str("Other"),
      Str("其他"),
      Str("其他"))
    case CatSalary => Entries(Str("Salary"),
      Str("薪資"),
      Str("薪资"))
    case CatBonus => Entries(Str("Bonus"),
      Str("獎金"),
      Str("奖金"))
    case CatInvestment => Entries(Str("Investment"),
      Str("投資"),
      Str("投资"))
    case CatGift => Entries(Str("Gift"),
      Str("禮金"),
      Str("礼金"))
    case LangEn => Entries(Str("EN"),
      Str("EN"),
      Str("EN"))
    case LangZhTW => Entries(Str("繁體"),
      Str("繁體"),
      Str("繁体"))
    case LangZhCN => Entries(Str("简体"),
      Str("簡體"),
      Str("简体"))
    case PrintFooter => Entries(Str("Generated by Smart Ledger"),
      Str("由智能記帳本生成"),
      Str("由智能记账本生成"))
    case ConfirmTextFormat => Entries(Str("Confirm Text Format"),
      Str("確認文字格式"),
      Str("确认文字格式"))
    case DetectedChinese => Entries(Str("Detected Chinese input:"),
      Str("偵測到中文輸入："),
      Str("检测到中文输入："))
    case UseSimplified => Entries(Str("Use Simplified"),
      Str("使用簡體中文"),
      Str("使用简体中文"))
    case UseTraditional => Entries(Str("Use Traditional"),
      Str("使用繁體中文"),
      Str("使用繁体中文"))
  }

  /** The entry of one language in a key's row. */
  function Pick(row: Entries, lang: Language): Entry {
    match lang
    case En => row.en
    case ZhTW => row.zhTW
    case ZhCN => row.zhCN
  }

  /** `translations[key][lang]` */
  function Raw(k: Key, lang: Language): Entry {
    Pick(Table(k), lang)
  }

  /** JavaScript truthiness of an entry: any list, or a non-empty string. */
  predicate Truthy(e: Entry) {
    e.Arr? || e.s != ""
  }

  /** `row[lang] || row['en']`: the requested entry, or the English one
      when the requested entry is falsy. */
  function Resolve(row: Entries, lang: Language): (e: Entry)
    ensures Truthy(Pick(row, lang)) ==> e == Pick(row, lang)
    ensures !Truthy(Pick(row, lang)) ==> e == row.en
  {
    if Truthy(Pick(row, lang)) then Pick(row, lang) else row.en
  }

  /** `translations[key][lang] || translations[key]['en']` */
  function Value(k: Key, lang: Language): Entry {
    Resolve(Table(k), lang)
  }

  /** The string `t` makes of a resolved entry: the string itself, or the
      first element of a list (`""` for an empty list). */
  function Head(e: Entry): string {
    match e
    case Str(s) => s
    case Arr(items) => if |items| > 0 then items[0] else ""
  }

  /** The list `tArray` makes of a resolved entry: a copy of a list, or
      the one-element list of a string. */
  function Items(e: Entry): (r: seq<string>)
    ensures e.Str? ==> r == [e.s]
    ensures e.Arr? ==> r == e.items
  {
    match e
    case Str(s) => [s]
    case Arr(items) => items
  }

  /** `t(key, lang)` */
  function T(k: Key, lang: Language): string {
    Head(Value(k, lang))
  }

  /** `tArray(key, lang)` */
  function TArray(k: Key, lang: Language): seq<string> {
    Items(Value(k, lang))
  }

  /** `t` answers the first element of what `tArray` answers, or `""`
      when that list is empty, whatever the row. */
  lemma HeadOfItems(row: Entries, lang: Language)
    ensures var e := Resolve(row, lang);
            Head(e) == if |Items(e)| > 0 then Items(e)[0] else ""
  {
  }

  /** For every row: lookup falls back to English exactly when the
      requested entry is an empty string, and otherwise answers the
      requested entry; a falsy English entry is answered as it is. */
  lemma Fallback(row: Entries, lang: Language)
    ensures Pick(row, lang) == Str("") ==> Head(Resolve(row, lang)) == Head(Resolve(row, En))
    ensures Pick(row, lang).Str? && Pick(row, lang).s != "" ==> Head(Resolve(row, lang)) == Pick(row, lang).s
    ensures Pick(row, lang).Arr? ==> Items(Resolve(row, lang)) == Pick(row, lang).items
    ensures Pick(row, En) == Str("") ==> Head(Resolve(row, En)) == ""
  {
  }

  /** `t` and `tArray` of a key are `Head` and `Items` of its resolved
      row, so the two laws above hold for every key. */
  lemma LookupIsRowLookup(k: Key, lang: Language)
    ensures T(k, lang) == Head(Resolve(Table(k), lang))
    ensures TArray(k, lang) == Items(Resolve(Table(k), lang))
  {
  }

  /** `weekdaysShort` has seven entries in every language. */
  lemma WeekdaysHaveSeven(lang: Language)
    ensures |TArray(WeekdaysShort, lang)| == 7
  {
  }

  /** `categoryMap`: the category names `getCategoryName` knows, with
      their keys. */
  const CategoryMap: map<string, Key> := map[
    "Food" := CatFood, "Transport" := CatTransport, "Shopping" := CatShopping,
    "Entertainment" := CatEntertainment, "Utilities" := CatUtilities,
    "Healthcare" := CatHealthcare, "Education" := CatEducation, "Housing" := CatHousing,
    "Travel" := CatTravel, "Other" := CatOther, "Salary" := CatSalary, "Bonus" := CatBonus,
    "Investment" := CatInvestment, "Gift" := CatGift]

  /** Every known category is the English entry of its key. */
  lemma CategoryMapIsEnglish(category: string)
    requires category in CategoryMap
    ensures Raw(CategoryMap[category], En) == Str(category)
  {
    if category == "Food" {
      EnglishFood();
    } else if category == "Transport" {
      EnglishTransport();
    } else if category == "Shopping" {
      EnglishShopping();
    } else if category == "Entertainment" {
      EnglishEntertainment();
    } else if category == "Utilities" {
      EnglishUtilities();
    } else if category == "Healthcare" {
      EnglishHealthcare();
    } else if category == "Education" {
      EnglishEducation();
    } else if category == "Housing" {
      EnglishHousing();
    } else if category == "Travel" {
      EnglishTravel();
    } else if category == "Other" {
      EnglishOther();
    } else if category == "Salary" {
      EnglishSalary();
    } else if category == "Bonus" {
      EnglishBonus();
    } else if category == "Investment" {
      EnglishInvestment();
    } else {
      assert category == "Gift";
      EnglishGift();
    }
  }

  lemma EnglishFood()
    ensures Raw(CategoryMap["Food"], En) == Str("Food")
  {
    assert CategoryMap["Food"] == CatFood;
  }

  lemma EnglishTransport()
    ensures Raw(CategoryMap["Transport"], En) == Str("Transport")
  {
    assert CategoryMap["Transport"] == CatTransport;
  }

  lemma EnglishShopping()
    ensures Raw(CategoryMap["Shopping"], En) == Str("Shopping")
  {
    assert CategoryMap["Shopping"] == CatShopping;
  }

  lemma EnglishEntertainment()
    ensures Raw(CategoryMap["Entertainment"], En) == Str("Entertainment")
  {
    assert CategoryMap["Entertainment"] == CatEntertainment;
  }

  lemma EnglishUtilities()
    ensures Raw(CategoryMap["Utilities"], En) == Str("Utilities")
  {
    assert CategoryMap["Utilities"] == CatUtilities;
  }

  lemma EnglishHealthcare()
    ensures Raw(CategoryMap["Healthcare"], En) == Str("Healthcare")
  {
    assert CategoryMap["Healthcare"] == CatHealthcare;
  }

  lemma EnglishEducation()
    ensures Raw(CategoryMap["Education"], En) == Str("Education")
  {
    assert CategoryMap["Education"] == CatEducation;
  }

  lemma EnglishHousing()
    ensures Raw(CategoryMap["Housing"], En) == Str("Housing")
  {
    assert CategoryMap["Housing"] == CatHousing;
  }

  lemma EnglishTravel()
    ensures Raw(CategoryMap["Travel"], En) == Str("Travel")
  {
    assert CategoryMap["Travel"] == CatTravel;
  }

  lemma EnglishOther()
    ensures Raw(CategoryMap["Other"], En) == Str("Other")
  {
    assert CategoryMap["Other"] == CatOther;
  }

  lemma EnglishSalary()
    ensures Raw(CategoryMap["Salary"], En) == Str("Salary")
  {
    assert CategoryMap["Salary"] == CatSalary;
  }

  lemma EnglishBonus()
    ensures Raw(CategoryMap["Bonus"], En) == Str("Bonus")
  {
    assert CategoryMap["Bonus"] == CatBonus;
  }

  lemma EnglishInvestment()
    ensures Raw(CategoryMap["Investment"], En) == Str("Investment")
  {
    assert CategoryMap["Investment"] == CatInvestment;
  }

  lemma EnglishGift()
    ensures Raw(CategoryMap["Gift"], En) == Str("Gift")
  {
    assert CategoryMap["Gift"] == CatGift;
  }

  predicate IsCategoryKey(k: Key) {
    k in {CatFood, CatTransport, CatShopping, CatEntertainment, CatUtilities, CatHealthcare,
          CatEducation, CatHousing, CatTravel, CatOther, CatSalary, CatBonus, CatInvestment, CatGift}
  }

  /** `getCategoryName(category, lang)`: the translation of a known
      category, and the input itself for any other name, except that a
      name the map literal inherits (`constructor`, `toString`, …) finds
      a truthy non-key there, on which `t` throws a `TypeError`: `None`. */
  function CategoryName(category: string, lang: Language): (r: Option<string>)
  {
    if category in CategoryMap then Some(T(CategoryMap[category], lang))
    else if category in InheritedNames then None
    else Some(category)
  }

  /** Exactly the inherited names make `getCategoryName` throw; every other
      name is answered, in English as itself. */
  lemma EnglishCategoryNamesAreIdentity(category: string)
    ensures CategoryName(category, En).None? <==> category in InheritedNames
    ensures category !in InheritedNames ==> CategoryName(category, En) == Some(category)
  {
    if category in CategoryMap {
      CategoryMapIsEnglish(category);
      assert category !in InheritedNames;
    }
  }

  /** Ledger categories outside the map, such as Health, Rent and
      Freelance, are shown unchanged in every language. */
  lemma UnmappedCategoriesUnchanged(lang: Language)
    ensures CategoryName("Health", lang) == Some("Health")
    ensures CategoryName("Rent", lang) == Some("Rent")
    ensures CategoryName("Freelance", lang) == Some("Freelance")
  {
  }
}
