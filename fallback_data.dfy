/** Ready-made market insights used when live market data is unavailable:
    a first-match keyword classifier over an ordered table, and a lookup into
    a fixed table of ten categories. */
module FallbackData {

  import opened Common
  import opened Text

  /** The ten entries of `marketInsights`, in declaration order. */
  datatype Category =
    | PlantCare | Fitness | Productivity | FoodDelivery | Travel
    | Education | Healthcare | Fintech | Ecommerce | General

  /** The property name under which a category is stored. */
  function Key(c: Category): string {
    match c
    case PlantCare => "plant_care"
    case Fitness => "fitness"
    case Productivity => "productivity"
    case FoodDelivery => "food_delivery"
    case Travel => "travel"
    case Education => "education"
    case Healthcare => "healthcare"
    case Fintech => "fintech"
    case Ecommerce => "ecommerce"
    case General => "general"
  }

  /** `marketInsights[key]`: the category stored under `key`, if any. */
  function CategoryOf(key: string): (c: Option<Category>)
    ensures c.Some? ==> Key(c.value) == key
    ensures forall k :: Key(k) == key ==> c == Some(k)
  {
    if key == "plant_care" then Some(PlantCare)
    else if key == "fitness" then Some(Fitness)
    else if key == "productivity" then Some(Productivity)
    else if key == "food_delivery" then Some(FoodDelivery)
    else if key == "travel" then Some(Travel)
    else if key == "education" then Some(Education)
    else if key == "healthcare" then Some(Healthcare)
    else if key == "fintech" then Some(Fintech)
    else if key == "ecommerce" then Some(Ecommerce)
    else if key == "general" then Some(General)
    else None
  }

  /** One keyword of the classifier and the category it selects. */
  datatype KeywordRule = KeywordRule(keyword: string, category: Category)

  /** The keyword table of `detectCategory`, in declaration order. */
  const Rules: seq<KeywordRule> := [
    KeywordRule("plant", PlantCare),
    KeywordRule("fitness", Fitness),
    KeywordRule("workout", Fitness),
    KeywordRule("productivity", Productivity),
    KeywordRule("task", Productivity),
    KeywordRule("food", FoodDelivery),
    KeywordRule("restaurant", FoodDelivery),
    KeywordRule("travel", Travel),
    KeywordRule("education", Education),
    KeywordRule("learning", Education),
    KeywordRule("health", Healthcare),
    KeywordRule("medical", Healthcare),
    KeywordRule("finance", Fintech),
    KeywordRule("money", Fintech),
    KeywordRule("shopping", Ecommerce),
    KeywordRule("buy", Ecommerce)
  ]

  /** The position of the first rule whose keyword occurs in `text`, if any. */
  function FirstMatch(text: string, rules: seq<KeywordRule>): (r: Option<nat>)
    ensures r.Some? ==> r.value < |rules| && Contains(text, rules[r.value].keyword)
    ensures r.Some? ==> forall j :: 0 <= j < r.value ==> !Contains(text, rules[j].keyword)
    ensures r.None? ==> forall j :: 0 <= j < |rules| ==> !Contains(text, rules[j].keyword)
  {
    if rules == [] then None
    else if Contains(text, rules[0].keyword) then Some(0)
    else match FirstMatch(text, rules[1..])
      case None => None
      case Some(i) => Some(i + 1)
  }

  /** `detectCategory(idea)`: the category of the first keyword, in table
      order, that occurs in the lower-cased idea; `general` when none does. */
  function DetectCategory(idea: string): (c: Category)
    ensures c == General <==> forall j :: 0 <= j < |Rules| ==> !Contains(Lower(idea), Rules[j].keyword)
    ensures c != General ==>
      exists j :: 0 <= j < |Rules| && Contains(Lower(idea), Rules[j].keyword) && c == Rules[j].category &&
        forall i :: 0 <= i < j ==> !Contains(Lower(idea), Rules[i].keyword)
  {
    match FirstMatch(Lower(idea), Rules)
    case Some(i) => Rules[i].category
    case None => General
  }

  /** Upper and lower case select the same category. */
  lemma DetectCategoryIgnoresCase(idea: string)
    ensures DetectCategory(idea) == DetectCategory(Lower(idea))
  {
    LowerIdempotent(idea);
  }

  /** An idea that mentions both a plant and fitness is a plant-care idea: the
      earlier row of the table wins. */
  lemma PlantBeforeFitness()
    ensures DetectCategory("Plant fitness") == PlantCare
  {
    var lower := Lower("Plant fitness");
    assert lower == "plant fitness";
    assert StartsWith(lower, Rules[0].keyword);
  }

  /** The detected category is always one of the table's keys, so the
      `|| marketInsights['general']` default of `getFallbackInsights` is never
      taken. */
  lemma DetectedCategoryIsKey(idea: string)
    ensures CategoryOf(Key(DetectCategory(idea))).Some?
    ensures Key(DetectCategory(idea)) in {"plant_care", "fitness", "productivity", "food_delivery", "travel",
                                           "education", "healthcare", "fintech", "ecommerce", "general"}
  {
    var c := DetectCategory(idea);
    assert CategoryOf(Key(c)) == Some(c);
  }

  datatype Statistics = Statistics(marketSize: string, growth: string, demographics: string)

  /** One entry of `marketInsights`. */
  datatype CategoryData = CategoryData(problems: seq<string>, quotes: seq<string>, statistics: Statistics)

  /** The table `marketInsights`: every category lists four problems and four
      user quotes. */
  function Data(c: Category): (d: CategoryData)
    ensures |d.problems| == 4 && |d.quotes| == 4
  {
    match c
    case PlantCare => PlantCareData
    case Fitness => FitnessData
    case Productivity => ProductivityData
    case FoodDelivery => FoodDeliveryData
    case Travel => TravelData
    case Education => EducationData
    case Healthcare => HealthcareData
    case Fintech => FintechData
    case Ecommerce => EcommerceData
    case General => GeneralData
  }

  const PlantCareData: CategoryData := CategoryData(
    ["73% людей забывают поливать растения регулярно",
     "Большинство не знает, как определить болезни растений",
     "Сложно понять, сколько света нужно разным растениям",
     "Нет понимания, когда пересаживать растения"],
    ["Я постоянно забываю поливать, и растения умирают",
     "Не понимаю, почему листья желтеют",
     "Хочу растения дома, но боюсь их убить",
     "Не знаю, как ухаживать за разными видами"],
    Statistics("$2.7B indoor plant market", "18% annual growth", "25-40 years, urban millennials"))

  const FitnessData: CategoryData := CategoryData(
    ["80% людей бросают тренировки через 3 месяца",
     "Сложно найти мотивацию заниматься дома",
     "Не знают правильную технику упражнений",
     "Нет времени на походы в спортзал"],
    ["Начинаю тренироваться, но быстро теряю мотивацию",
     "Не знаю, как правильно делать упражнения",
     "Хочу заниматься дома, но не знаю с чего начать",
     "У меня нет времени на спортзал"],
    Statistics("$96B global fitness market", "12% annual growth", "18-45 years, health-conscious"))

  const ProductivityData: CategoryData := CategoryData(
    ["Люди тратят 2.5 часа в день на отвлекающие факторы",
     "Сложно организовать задачи и приоритеты",
     "Многозадачность снижает эффективность на 40%",
     "Нет системы для отслеживания прогресса"],
    ["Постоянно отвлекаюсь и ничего не успеваю",
     "Не знаю, как организовать свои задачи",
     "Хочу быть продуктивнее, но не знаю как",
     "Много дел, но нет системы"],
    Statistics("$58B productivity software market", "15% annual growth", "25-50 years, knowledge workers"))

  const FoodDeliveryData: CategoryData := CategoryData(
    ["Долгое время доставки (45+ минут)",
     "Холодная еда при доставке",
     "Высокие цены и комиссии",
     "Ограниченный выбор ресторанов"],
    ["Еда приходит холодной и невкусной",
     "Слишком долго ждать доставку",
     "Цены завышены из-за комиссий",
     "Мало ресторанов в моем районе"],
    Statistics("$150B global food delivery market", "20% annual growth", "18-45 years, urban dwellers"))

  const TravelData: CategoryData := CategoryData(
    ["Сложно найти лучшие цены на билеты",
     "Планирование маршрута занимает много времени",
     "Не знают местные особенности и культуру",
     "Страх заблудиться в незнакомом месте"],
    ["Трачу часы на поиск дешевых билетов",
     "Не знаю, что посмотреть в новом городе",
     "Боюсь заблудиться в незнакомом месте",
     "Планирование поездки - это стресс"],
    Statistics("$1.7T global travel market", "8% annual growth", "25-55 years, middle to upper class"))

  const EducationData: CategoryData := CategoryData(
    ["Скучные и неинтерактивные курсы",
     "Высокая стоимость качественного образования",
     "Не хватает практических навыков",
     "Сложно найти подходящий курс"],
    ["Курсы скучные и неинтересные",
     "Слишком дорого за качественное обучение",
     "Хочу практические навыки, а не теорию",
     "Не могу найти подходящий курс"],
    Statistics("$366B global education market", "10% annual growth", "18-65 years, lifelong learners"))

  const HealthcareData: CategoryData := CategoryData(
    ["Долгое ожидание приема врача",
     "Сложно получить второе мнение",
     "Высокие цены на медицинские услуги",
     "Не хватает информации о симптомах"],
    ["Жду приема врача несколько недель",
     "Хочу получить второе мнение, но не знаю как",
     "Медицина слишком дорогая",
     "Не понимаю свои симптомы"],
    Statistics("$4.5T global healthcare market", "6% annual growth", "All ages, health-conscious"))

  const FintechData: CategoryData := CategoryData(
    ["Сложные и запутанные финансовые продукты",
     "Высокие комиссии за переводы",
     "Не хватает финансовой грамотности",
     "Страх потерять деньги при инвестировании"],
    ["Не понимаю финансовые продукты",
     "Слишком высокие комиссии",
     "Хочу инвестировать, но боюсь потерять деньги",
     "Не знаю, как управлять финансами"],
    Statistics("$310B global fintech market", "25% annual growth", "25-55 years, tech-savvy"))

  const EcommerceData: CategoryData := CategoryData(
    ["Сложно найти нужный товар",
     "Не доверяют качеству товаров онлайн",
     "Проблемы с возвратом и обменом",
     "Высокие цены доставки"],
    ["Не могу найти то, что нужно",
     "Боюсь, что товар будет плохого качества",
     "Сложно вернуть товар, если не подошел",
     "Доставка стоит слишком дорого"],
    Statistics("$5.7T global ecommerce market", "14% annual growth", "18-65 years, online shoppers"))

  const GeneralData: CategoryData := CategoryData(
    ["Пользователи ищут простое решение сложных проблем",
     "Не хватает персонализированного подхода",
     "Слишком много вариантов, сложно выбрать",
     "Нет доверия к новым решениям"],
    ["Хочу простое решение моей проблемы",
     "Нужен индивидуальный подход",
     "Слишком много вариантов, не знаю что выбрать",
     "Не доверяю новым сервисам"],
    Statistics("Varies by industry", "10-20% annual growth", "Varies by target audience"))

  /** The object `getFallbackInsights` returns. (The market analysis service
      returns parsed model output of no fixed shape instead: see
      `MarketRoute.ChooseInsights`.) */
  datatype Insights = Insights(summary: string, problems: seq<string>, userQuotes: seq<string>,
                               statistics: Statistics, sentiment: string, confidence: real, source: string)

  const SummaryHead: string := "Анализ рынка для \""
  const SummaryTail: string := "\" на основе исследовательской базы данных"

  /** `getFallbackInsights(idea)`: the detected category's problems, quotes and
      statistics, a summary that quotes the idea, mixed sentiment, confidence
      0.7, source "Fallback Database". */
  function GetFallbackInsights(idea: string): (r: Insights)
    ensures |r.problems| == 4 && |r.userQuotes| == 4
    ensures r.sentiment == "mixed" && r.confidence == 0.7 && r.source == "Fallback Database"
  {
    var category := DetectCategory(idea);
    var data := match CategoryOf(Key(category)) case Some(k) => Data(k) case None => Data(General);
    Insights(SummaryHead + idea + SummaryTail, data.problems, data.quotes, data.statistics, "mixed", 0.7, "Fallback Database")
  }

  /** The summary quotes the idea verbatim, right after its fixed opening. */
  lemma FallbackSummaryQuotesIdea(idea: string)
    ensures var summary := GetFallbackInsights(idea).summary;
      && StartsWith(summary, SummaryHead)
      && OccursAt(summary, idea, |SummaryHead|)
      && |summary| == |SummaryHead| + |idea| + |SummaryTail|
  {
    var summary := GetFallbackInsights(idea).summary;
    assert summary == SummaryHead + idea + SummaryTail;
    assert summary[..|SummaryHead|] == SummaryHead;
    assert summary[|SummaryHead|..|SummaryHead| + |idea|] == idea;
  }

  /** The insights are the detected category's own row of the table: the
      `general` default of the lookup is never used. */
  lemma FallbackInsightsFromTable(idea: string)
    ensures var r := GetFallbackInsights(idea);
      var d := Data(DetectCategory(idea));
      r.problems == d.problems && r.userQuotes == d.quotes && r.statistics == d.statistics
  {
    var category := DetectCategory(idea);
    assert CategoryOf(Key(category)) == Some(category);
  }
}
