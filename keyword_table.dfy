/** The keyword dictionary and the side tables the analyzer is built with
    (star_analyzer.py:79-213), as ordered sequences so that the iteration order the
    first-match rules depend on is explicit. */
module KeywordTable {
  import opened Text
  import opened Categories

  /** One `word_type: [words]` entry of a category. */
  datatype WordList = WordList(wordType: String, words: seq<String>)

  /** `{category: {word_type: [words]}}` over the four categories; each category's
      word lists are kept in declaration order, repeated words included. */
  datatype KeywordDictionary = KeywordDictionary(
    sense: seq<WordList>, think: seq<WordList>, act: seq<WordList>, relate: seq<WordList>)
  {
    function Lists(c: Category): seq<WordList>
    {
      match c
      case SENSE => sense
      case THINK => think
      case ACT => act
      case RELATE => relate
    }
  }

  /** The `context_weights` table (star_analyzer.py:199-207). */
  datatype ContextWeights = ContextWeights(
    sameCategoryBonus: real,
    crossCategoryPenalty: real,
    sentenceTypeMatchBonus: real,
    sentenceTypeMismatchPenalty: real)

  /** `self.keywords` (star_analyzer.py:82-190). */
  const StarKeywords: KeywordDictionary := KeywordDictionary(
    // SENSE
    [
      WordList("feeling_expressions", [
        "きれい", "おいしい", "気持ちいい", "かぐわしい", "綺麗", "美しい", "美味しい", "美味い", "うまい", "心地よい",
        "いい匂い", "さっぱり", "すっきり", "香ばしい", "鮮やか", "明るい", "温かい", "冷たい", "柔らかい", "滑らか", "静か",
        "澄んだ", "清潔", "新鮮", "爽快"]),
      WordList("objects", [
        "美", "味", "匂い", "触覚", "音", "心地よさ", "景色", "風景", "色", "花", "料理", "食べ物", "飲み物",
        "香り", "肌触り", "質感", "音楽", "声", "自然音"]),
      WordList("perceptual_verbs", [
        "見る", "聞く", "味わう", "触る", "嗅ぐ", "感じる", "見つめる", "眺める", "聴く", "食べる", "飲む", "触れる"]),
      WordList("subcategories", [
        "美", "味", "匂い", "触", "心地よさ"])
    ],
    // THINK
    [
      WordList("feeling_expressions", [
        "わかった", "なるほど", "すごい", "へー", "知らなかった", "面白い", "理解できた", "納得", "発見した", "気づいた",
        "勉強になる", "解けた", "興味深い", "判明した", "ひらめいた", "学んだ", "覚えた", "驚いた", "びっくりした", "目から鱗",
        "想像以上", "意外", "新しい発見"]),
      WordList("objects", [
        "理解", "発見", "納得", "圧倒", "学習", "気づき", "知識", "情報", "事実", "真実", "問題", "課題", "謎",
        "疑問", "答え", "解決策", "方法", "コツ", "仕組み", "原理", "アイデア"]),
      WordList("cognitive_verbs", [
        "理解する", "発見する", "学ぶ", "気づく", "知る", "わかる", "解く", "解ける", "覚える", "見つける", "察する"]),
      WordList("subcategories", [
        "理解", "納得", "発見", "圧倒"])
    ],
    // ACT
    [
      WordList("feeling_expressions", [
        "できた", "やった", "よかった", "すごい", "達成", "成長", "頑張った", "成功", "完走", "クリア", "突破", "進歩",
        "成功した", "達成した", "完成した", "完走した", "突破した", "挑戦した", "努力した", "成長した", "進歩した", "上達した",
        "体験した", "経験した", "満足した", "充実した", "特別だった", "貴重だった", "幸運だった"]),
      WordList("objects", [
        "努力", "上達", "進歩", "達成", "挑戦", "経験", "成功", "完走", "成長", "特別感", "稀有", "遭遇", "幸運",
        "活動", "行動", "実践", "トライ", "試み", "取り組み", "体験", "出来事", "機会", "チャンス", "価値", "意義",
        "やりがい", "充実感", "満足感"]),
      WordList("action_verbs", [
        "頑張る", "挑戦する", "達成する", "成長する", "経験する", "完走する", "クリアする", "突破する", "努力する", "成功する",
        "体験する", "乗り越える"]),
      WordList("subcategories", [
        "努力", "上達", "成長", "進歩", "達成", "特別感", "稀有", "遭遇", "幸運"])
    ],
    // RELATE
    [
      WordList("feeling_expressions", [
        "すばらしい", "ありがたい", "一緒だ", "うれしい", "愛おしい", "温かい", "つながり", "感謝", "愛情", "絆", "支え",
        "感謝している", "助かった", "救われた", "支えられた", "共感する", "理解される", "心が通う", "親近感を覚える", "やさしい",
        "思いやりがある", "尊敬する", "認められる", "褒められる", "安らぎがある"]),
      WordList("objects", [
        "愛", "絆", "感謝", "共感", "支援", "協力", "理解", "友情", "家族", "やさしさ", "親近感", "愛着", "調和",
        "一体感", "承認", "尊敬", "愛情", "思いやり", "優しさ", "温かさ", "心", "つながり", "関係", "友達", "仲間",
        "恩", "人情", "情", "同情", "お礼", "謝意"]),
      WordList("relationship_verbs", [
        "助ける", "支える", "共感する", "愛する", "感謝する", "励ます", "応援する", "理解する", "受け入れる", "協力する",
        "思いやる", "気遣う", "認める", "褒める", "尊敬する"]),
      WordList("subcategories", [
        "愛", "つながり", "やさしさ", "親近感", "愛着", "調和", "一体感", "感謝", "承認", "尊敬"])
    ])

  /** `self.intensity_words` in its iteration order (star_analyzer.py:193-196). */
  const StarIntensityWords: seq<(String, real)> := [
    ("非常に", 2.0),
    ("とても", 1.8),
    ("すごく", 1.7),
    ("本当に", 1.5),
    ("かなり", 1.3),
    ("まあまあ", 0.8),
    ("少し", 0.6),
    ("ちょっと", 0.5)
  ]

  /** `self.context_weights` (star_analyzer.py:199-207). */
  const StarContextWeights: ContextWeights := ContextWeights(1.3, 0.9, 1.2, 0.8)

  /** `self.negation_patterns` (star_analyzer.py:210-213). */
  const StarNegationPatterns: seq<String> := [
    "ない", "なかった", "ません", "ませんでした", "じゃない", "ではない", "くない", "ではなかった"
  ]
}
