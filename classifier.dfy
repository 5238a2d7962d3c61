/** The spending-category classifier: an ordered table of keyword lists tried by substring
    containment, behind a process-wide merchant-to-category cache that remembers the first
    answer for each merchant and that user corrections overwrite. */
module CategoryClassification {
  import opened Base

  const FoodKeywords: seq<string> := [
    "餐厅", "美食", "饭店", "小吃", "火锅", "烧烤", "快餐", "外卖",
    "食堂", "早餐", "午餐", "晚餐", "食品", "零食", "小吃", "水果",
    "甜点", "烘焙", "咖啡", "茶", "饮料", "酒水"]

  const ShoppingKeywords: seq<string> := [
    "商场", "超市", "百货", "购物", "专卖店", "电商", "网购", "淘宝",
    "京东", "拼多多", "服装", "鞋帽", "箱包", "化妆品", "手机", "电器",
    "数码", "家具", "文具", "图书", "药店"]

  const TransportKeywords: seq<string> := [
    "公交", "地铁", "出租车", "打车", "滴滴", "高铁", "火车", "飞机",
    "机票", "汽车", "加油", "停车", "高速", "过路费", "共享单车"]

  const EntertainmentKeywords: seq<string> := [
    "电影", "游戏", "KTV", "酒吧", "演唱会", "音乐", "剧场", "门票",
    "景点", "旅游", "健身", "运动", "游泳", "球类", "玩具"]

  const MedicalKeywords: seq<string> := [
    "医院", "诊所", "医疗", "药店", "药物", "保健", "体检", "牙科",
    "眼科", "理疗", "中医", "西医", "门诊", "住院", "手术"]

  const HousingKeywords: seq<string> := [
    "房租", "水电", "燃气", "物业", "宽带", "装修", "家居", "家电",
    "家具", "日用品", "清洁", "维修", "搬家", "酒店", "住宿"]

  /** One row of the table: a category and the keywords that select it. */
  datatype Rule = Rule(category: string, keywords: seq<string>)

  /** The rows in the order they are tried: food, shopping, transport, entertainment,
      medical, housing. */
  const Rules: seq<Rule> := [
    Rule("餐饮", FoodKeywords),
    Rule("购物", ShoppingKeywords),
    Rule("交通", TransportKeywords),
    Rule("娱乐", EntertainmentKeywords),
    Rule("医疗", MedicalKeywords),
    Rule("住房", HousingKeywords)]

  /** The category when no keyword matches: "other". */
  const DefaultCategory: string := "其他"

  /** `containsAnyKeyword`: some keyword occurs in the text. */
  predicate ContainsAnyKeyword(text: string, keywords: seq<string>) {
    exists i :: 0 <= i < |keywords| && Contains(text, keywords[i])
  }

  /** Row `i` of the table matches `merchant`. */
  predicate RuleHits(merchant: string, i: nat)
    requires i < |Rules|
  {
    ContainsAnyKeyword(merchant, Rules[i].keywords)
  }

  /** The `when` of `predictCategory`: the category of the first row with a keyword in
      the merchant name, or the default. */
  function KeywordCategory(merchant: string): (c: string)
    ensures c == DefaultCategory <==> forall i :: 0 <= i < |Rules| ==> !RuleHits(merchant, i)
    ensures c == DefaultCategory || exists i :: 0 <= i < |Rules| && c == Rules[i].category
    ensures forall i :: 0 <= i < |Rules| && c == Rules[i].category ==>
              RuleHits(merchant, i) && forall j :: 0 <= j < i ==> !RuleHits(merchant, j)
    ensures forall i :: (0 <= i < |Rules| && RuleHits(merchant, i) &&
                         forall j :: 0 <= j < i ==> !RuleHits(merchant, j)) ==>
              c == Rules[i].category
  {
    assert forall i :: 0 <= i < |Rules| ==> Rules[i].category != DefaultCategory;
    if ContainsAnyKeyword(merchant, FoodKeywords) then assert RuleHits(merchant, 0); "餐饮"
    else if ContainsAnyKeyword(merchant, ShoppingKeywords) then assert RuleHits(merchant, 1); "购物"
    else if ContainsAnyKeyword(merchant, TransportKeywords) then assert RuleHits(merchant, 2); "交通"
    else if ContainsAnyKeyword(merchant, EntertainmentKeywords) then assert RuleHits(merchant, 3); "娱乐"
    else if ContainsAnyKeyword(merchant, MedicalKeywords) then assert RuleHits(merchant, 4); "医疗"
    else if ContainsAnyKeyword(merchant, HousingKeywords) then assert RuleHits(merchant, 5); "住房"
    else DefaultCategory
  }

  /** The answer `predictCategory` gives against a given cache: the remembered category,
      or else the keyword category. */
  function Predict(cache: map<string, string>, merchant: string): string
  {
    if merchant in cache then cache[merchant] else KeywordCategory(merchant)
  }

  /** The process-wide classifier object. */
  class CategoryClassifier {
    /** `merchantCategoryCache`. */
    var cache: map<string, string>

    constructor ()
      ensures cache == map[]
    {
      cache := map[];
    }

    /** `predictCategory`: answers from the cache when it can; otherwise classifies by
        keyword and remembers the answer. */
    method PredictCategory(merchant: string) returns (c: string)
      modifies this
      ensures c == Predict(old(cache), merchant)
      ensures cache == old(cache)[merchant := c]
    {
      if merchant in cache {
        c := cache[merchant];
        return;
      }
      c := KeywordCategory(merchant);
      cache := cache[merchant := c];
    }

    /** `updateMerchantCategory`: a user correction, stored whatever the keywords say. */
    method UpdateMerchantCategory(merchant: string, category: string)
      modifies this
      ensures cache == old(cache)[merchant := category]
    {
      cache := cache[merchant := category];
    }
  }

  /** Classifying a merchant changes the cache only at that merchant. */
  lemma PredictTouchesOnlyMerchant(cache: map<string, string>, merchant: string, other: string)
    requires other != merchant
    ensures var after := cache[merchant := Predict(cache, merchant)];
            merchant in after && after[merchant] == Predict(cache, merchant) &&
            (other in after <==> other in cache) &&
            (other in cache ==> after[other] == cache[other])
  {
  }

  /** Two classifications of the same merchant in a row agree: the first one leaves its
      answer in the cache and the second one reads it back. */
  lemma PredictIdempotent(cache: map<string, string>, merchant: string)
    ensures var first := Predict(cache, merchant);
            Predict(cache[merchant := first], merchant) == first
  {
  }

  /** The category is sticky: once remembered, later keyword-table answers do not matter. */
  lemma CachedWins(cache: map<string, string>, merchant: string, category: string)
    ensures Predict(cache[merchant := category], merchant) == category
  {
  }

  /** Every keyword is a non-empty text. */
  lemma KeywordsNonEmpty(i: nat, k: nat)
    requires i < |Rules| && k < |Rules[i].keywords|
    ensures |Rules[i].keywords[k]| > 0
  {
  }

  /** No keyword occurs in the empty name, so it is classified "other". */
  lemma EmptyMerchantIsOther()
    ensures KeywordCategory("") == DefaultCategory
  {
    forall i, k | 0 <= i < |Rules| && 0 <= k < |Rules[i].keywords|
      ensures !Contains("", Rules[i].keywords[k])
    {
      KeywordsNonEmpty(i, k);
      NotContainsLonger("", Rules[i].keywords[k]);
    }
  }

  /** "星巴克咖啡" is food through "咖啡". */
  lemma CoffeeShopIsFood()
    ensures KeywordCategory("星巴克咖啡") == "餐饮"
  {
    var m := "星巴克咖啡";
    assert m[3..5] == "咖啡";
    assert OccursAt(m, FoodKeywords[18], 3);
    assert Contains(m, FoodKeywords[18]);
  }

  /** "药店" (pharmacy) and "家具" (furniture) are listed for medical and housing too, but
      the shopping row is tried earlier: a name containing either is never classified
      medical or housing. */
  lemma SharedKeywordsGoToShopping(merchant: string)
    requires Contains(merchant, "药店") || Contains(merchant, "家具")
    ensures KeywordCategory(merchant) == "餐饮" || KeywordCategory(merchant) == "购物"
  {
    if Contains(merchant, "药店") {
      assert ShoppingKeywords[20] == "药店";
    } else {
      assert ShoppingKeywords[17] == "家具";
    }
    assert RuleHits(merchant, 1);
  }
}
