/** The two-language translation tables and the right-to-left predicate (src/lib/i18n.ts). */
module I18n {

  datatype Language = Ar | En

  /** The language's code, as stored and as set on the document: 'ar' or 'en'. */
  function LanguageTag(lang: Language): string {
    match lang
    case Ar => "ar"
    case En => "en"
  }

  const ArTable: map<string, string> := map[
    "appName" := "بلّه",
    "priceEstimator" := "مُقدّر الأسعار",
    "heroTitle" := "شكد تسوه؟",
    "heroDescription" := "الأسماء الزينة ما تشرح نفسها، تخلي المستخدم يجرّب. وهذا واحد منها.",
    "selectGovernorate" := "اختر المحافظة",
    "uploadTitle" := "رفع صورة",
    "takePhoto" := "التقط صورة",
    "uploadFile" := "اختر من الملفات",
    "orText" := "أو",
    "analyzeButton" := "حلّل السعر",
    "retakePhoto" := "صورة جديدة",
    "changeLocation" := "غيّر الموقع",
    "uploadHint" := "صوّر الشي اللي تبيعه",
    "analyzingTitle" := "جاري التحليل",
    "identifyingItem" := "التعرف على الشي",
    "searchingMarket" := "البحث بالسوق",
    "calculatingPrice" := "حساب السعر",
    "analyzingHint" := "هذا عادةً ياخذ ثواني",
    "resultsTitle" := "النتيجة",
    "condition" := "الحالة",
    "suggestedPrice" := "السعر المقترح",
    "priceRange" := "نطاق الأسعار",
    "lowest" := "الأقل",
    "average" := "المتوسط",
    "highest" := "الأعلى",
    "sellingStrategy" := "استراتيجية البيع",
    "similarListings" := "إعلانات مشابهة",
    "priceAnother" := "سعّر شي ثاني",
    "startOver" := "ابدأ من جديد",
    "poweredBy" := "مدعوم بالذكاء الاصطناعي",
    "pricesIn" := "الأسعار بالدينار العراقي",
    "errorTitle" := "صار خطأ",
    "tryAgain" := "حاول مرة ثانية"
  ]

  const EnTable: map<string, string> := map[
    "appName" := "BALLA",
    "priceEstimator" := "price estimator",
    "heroTitle" := "What's it worth?",
    "heroDescription" := "The good names don't explain themselves, they let the user try. And this is one of them.",
    "selectGovernorate" := "Select Governorate",
    "uploadTitle" := "Upload Photo",
    "takePhoto" := "Take Photo",
    "uploadFile" := "Choose from Files",
    "orText" := "or",
    "analyzeButton" := "Analyze Price",
    "retakePhoto" := "Retake Photo",
    "changeLocation" := "Change Location",
    "uploadHint" := "Photograph the item you want to sell",
    "analyzingTitle" := "Analyzing",
    "identifyingItem" := "Identifying item",
    "searchingMarket" := "Searching market data",
    "calculatingPrice" := "Calculating price",
    "analyzingHint" := "This usually takes a few seconds",
    "resultsTitle" := "Results",
    "condition" := "Condition",
    "suggestedPrice" := "Suggested Price",
    "priceRange" := "Price Range",
    "lowest" := "Lowest",
    "average" := "Average",
    "highest" := "Highest",
    "sellingStrategy" := "Selling Strategy",
    "similarListings" := "Similar Listings",
    "priceAnother" := "Price Another Item",
    "startOver" := "Start Over",
    "poweredBy" := "Powered by AI",
    "pricesIn" := "Prices in IQD",
    "errorTitle" := "Error Occurred",
    "tryAgain" := "Try Again"
  ]

  /** The translation keys in the order the tables declare them. */
  const Keys: seq<string> := [
    "appName", "priceEstimator", "heroTitle", "heroDescription", "selectGovernorate",
    "uploadTitle", "takePhoto", "uploadFile", "orText", "analyzeButton", "retakePhoto",
    "changeLocation", "uploadHint", "analyzingTitle", "identifyingItem", "searchingMarket",
    "calculatingPrice", "analyzingHint", "resultsTitle", "condition", "suggestedPrice",
    "priceRange", "lowest", "average", "highest", "sellingStrategy", "similarListings",
    "priceAnother", "startOver", "poweredBy", "pricesIn", "errorTitle", "tryAgain"
  ]

  /** `translations[lang]` */
  function Translations(lang: Language): map<string, string> {
    match lang
    case Ar => ArTable
    case En => EnTable
  }

  /** `TranslationKey`: exactly the keys of the English table. */
  type TranslationKey = k: string | k in EnTable witness "appName"

  /** The elements of a sequence with no repeats are as many as its length. */
  lemma {:induction false} DistinctCount(ks: seq<string>)
    requires forall i, j :: 0 <= i < j < |ks| ==> ks[i] != ks[j]
    ensures |set k | k in ks| == |ks|
  {
    if ks != [] {
      DistinctCount(ks[1..]);
      assert (set k | k in ks) == (set k | k in ks[1..]) + {ks[0]};
      assert ks[0] !in (set k | k in ks[1..]);
    }
  }

  /** No key is declared twice. */
  lemma KeysDistinct()
    ensures forall i, j :: 0 <= i < j < |Keys| ==> Keys[i] != Keys[j]
  {
  }

  /** Both tables define exactly the keys of `Keys`. */
  lemma TablesShareKeys()
    ensures ArTable.Keys == EnTable.Keys == set k | k in Keys
  {
  }

  /** Each table has 33 keys. */
  lemma {:induction false} KeyCount()
    ensures |ArTable.Keys| == |EnTable.Keys| == 33
  {
    KeysDistinct();
    DistinctCount(Keys);
    TablesShareKeys();
  }

  /** `getTranslation(lang, key)`: total over Language × TranslationKey, and the entry of the
      language's own table verbatim, with no fallback to the other language. */
  function GetTranslation(lang: Language, key: TranslationKey): (r: string)
    ensures key in Translations(lang) && r == Translations(lang)[key]
  {
    TablesShareKeys();
    Translations(lang)[key]
  }

  /** `isRTL(lang)`: right-to-left exactly for Arabic. */
  function IsRTL(lang: Language): (r: bool)
    ensures r <==> LanguageTag(lang) == "ar"
  {
    lang == Ar
  }

  /** The application name in both languages. */
  lemma AppNameExample()
    ensures GetTranslation(En, "appName") == "BALLA"
    ensures GetTranslation(Ar, "appName") == "بلّه"
  {
  }
}
