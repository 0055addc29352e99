/**
 * The topic classifier of weibo_hot_analyzer.py (`analyze_topic_keywords`): an ordered table
 * of themes, each with its keywords; a first pass that looks for a keyword equal to the
 * topic, a second that looks for the first theme with a keyword occurring in the topic, and
 * the catch-all type "综合资讯" when neither finds one. Matching is case-sensitive: the
 * lower-cased copy of the topic that the source computes is never consulted.
 */
module Classifier {
  import opened Wrappers
  import opened Text

  datatype Category =
    | Retail         // 电商零售
    | Entertainment  // 娱乐影视
    | Gaming         // 游戏
    | Tech           // 科技数码
    | SocialEvent    // 社会热点
    | Automotive     // 汽车
    | International  // 国际
    | Festival       // 节日活动
    | General        // 综合资讯, the fallback

  /** The display name of a category, which the source uses as both its type and its theme. */
  function Name(c: Category): string {
    match c
    case Retail => "电商零售"
    case Entertainment => "娱乐影视"
    case Gaming => "游戏"
    case Tech => "科技数码"
    case SocialEvent => "社会热点"
    case Automotive => "汽车"
    case International => "国际"
    case Festival => "节日活动"
    case General => "综合资讯"
  }

  /** The theme reported when no keyword matched. */
  const DefaultTheme: string := "热点追踪"

  /** `theme_patterns`, in its insertion (and so iteration) order. */
  const Themes: seq<(Category, seq<string>)> := [
    (Retail, ["胖东来", "京东", "淘宝", "天猫", "价格", "商品", "购物", "优惠", "羽绒服", "好物"]),
    (Entertainment, ["轧戏", "演员", "电影", "电视剧", "综艺", "明星", "薛之谦", "蔡徐坤", "有歌"]),
    (Gaming, ["世界之外", "第五人格", "游戏", "开大", "王者", "原神", "英雄联盟"]),
    (Tech, ["手机", "华为", "小米", "苹果", "芯片", "AI", "发布", "新品"]),
    (SocialEvent, ["火灾", "事故", "女孩", "晕倒", "离职", "被封", "争议"]),
    (Automotive, ["汽车", "长城", "特斯拉", "比亚迪", "发布会", "新车"]),
    (International, ["韩国", "日本", "美国", "全球", "国际"]),
    (Festival, ["新年", "春节", "双11", "618", "大紫大红"])
  ]

  /** The topic is verbatim one of the keywords of theme `i`. */
  predicate ExactAt(topic: string, i: nat)
    requires i < |Themes|
  {
    topic in Themes[i].1
  }

  /** Some keyword of theme `i` occurs in the topic. */
  predicate HitAt(topic: string, i: nat)
    requires i < |Themes|
  {
    ContainsAny(topic, Themes[i].1)
  }

  /** The first pass: the first theme from `i` on that lists the topic itself. */
  function FirstExact(topic: string, i: nat): Option<Category>
    requires i <= |Themes|
    decreases |Themes| - i
  {
    if i == |Themes| then None
    else if ExactAt(topic, i) then Some(Themes[i].0)
    else FirstExact(topic, i + 1)
  }

  /** The second pass: the first theme from `i` on with a keyword inside the topic. */
  function FirstHit(topic: string, i: nat): Option<Category>
    requires i <= |Themes|
    decreases |Themes| - i
  {
    if i == |Themes| then None
    else if HitAt(topic, i) then Some(Themes[i].0)
    else FirstHit(topic, i + 1)
  }

  /** The category `analyze_topic_keywords` settles on. */
  function Classify(topic: string): Category {
    match FirstExact(topic, 0)
    case Some(c) => c
    case None => FirstHit(topic, 0).GetOr(General)
  }

  /** The `{"type": ..., "theme": ...}` pair the source returns. */
  datatype TopicAnalysis = TopicAnalysis(kind: string, theme: string)

  function AnalyzeTopicKeywords(topic: string): (r: TopicAnalysis)
    ensures r.kind == Name(Classify(topic))
    ensures r.theme == if Classify(topic) == General then DefaultTheme else Name(Classify(topic))
  {
    var c := Classify(topic);
    if c == General then TopicAnalysis(Name(General), DefaultTheme) else TopicAnalysis(Name(c), Name(c))
  }

  // ---------------------------------------------------------------------------
  // What the two passes find
  // ---------------------------------------------------------------------------

  /** Each theme of the table carries a category of its own, none of them the fallback. */
  lemma ThemesDistinct(i: nat, j: nat)
    requires i < j < |Themes|
    ensures Themes[i].0 != Themes[j].0 && Themes[j].0 != General
  {
  }

  lemma {:induction false} FirstExactFinds(topic: string, i: nat, k: nat)
    requires i <= k < |Themes|
    requires ExactAt(topic, k)
    requires forall j :: i <= j < k ==> !ExactAt(topic, j)
    ensures FirstExact(topic, i) == Some(Themes[k].0)
    decreases k - i
  {
    if i < k {
      FirstExactFinds(topic, i + 1, k);
    }
  }

  lemma {:induction false} FirstExactNone(topic: string, i: nat)
    requires i <= |Themes|
    ensures FirstExact(topic, i) == None <==> forall j :: i <= j < |Themes| ==> !ExactAt(topic, j)
    decreases |Themes| - i
  {
    if i < |Themes| {
      FirstExactNone(topic, i + 1);
    }
  }

  lemma {:induction false} FirstHitFinds(topic: string, i: nat, k: nat)
    requires i <= k < |Themes|
    requires HitAt(topic, k)
    requires forall j :: i <= j < k ==> !HitAt(topic, j)
    ensures FirstHit(topic, i) == Some(Themes[k].0)
    decreases k - i
  {
    if i < k {
      FirstHitFinds(topic, i + 1, k);
    }
  }

  lemma {:induction false} FirstHitNone(topic: string, i: nat)
    requires i <= |Themes|
    ensures FirstHit(topic, i) == None <==> forall j :: i <= j < |Themes| ==> !HitAt(topic, j)
    decreases |Themes| - i
  {
    if i < |Themes| {
      FirstHitNone(topic, i + 1);
    }
  }

  /** A topic that is itself a keyword also contains that keyword. */
  lemma ExactIsHit(topic: string, i: nat)
    requires i < |Themes| && ExactAt(topic, i)
    ensures HitAt(topic, i)
  {
    var k :| 0 <= k < |Themes[i].1| && Themes[i].1[k] == topic;
    assert OccursAt(topic, Themes[i].1[k], 0);
  }

  /**
   * Exact match takes precedence: a topic equal to a keyword of theme `k`, and to none of an
   * earlier theme, is classified under theme `k`, whatever keywords of earlier themes occur
   * inside it.
   */
  lemma ClassifyExact(topic: string, k: nat)
    requires k < |Themes| && ExactAt(topic, k)
    requires forall j :: 0 <= j < k ==> !ExactAt(topic, j)
    ensures Classify(topic) == Themes[k].0
  {
    FirstExactFinds(topic, 0, k);
  }

  /**
   * Otherwise the first theme, in table order, with a keyword inside the topic wins.
   */
  lemma ClassifyFirstHit(topic: string, k: nat)
    requires forall j :: 0 <= j < |Themes| ==> !ExactAt(topic, j)
    requires k < |Themes| && HitAt(topic, k)
    requires forall j :: 0 <= j < k ==> !HitAt(topic, j)
    ensures Classify(topic) == Themes[k].0
  {
    FirstExactNone(topic, 0);
    FirstHitFinds(topic, 0, k);
  }

  /** The topic falls back to 综合资讯 exactly when no keyword of any theme occurs in it. */
  lemma ClassifyGeneral(topic: string)
    ensures Classify(topic) == General <==> forall j :: 0 <= j < |Themes| ==> !HitAt(topic, j)
  {
    FirstExactNone(topic, 0);
    FirstHitNone(topic, 0);
    if FirstExact(topic, 0).Some? {
      var j :| 0 <= j < |Themes| && ExactAt(topic, j);
      ExactIsHit(topic, j);
      FirstExactSome(topic, 0);
    } else if FirstHit(topic, 0).Some? {
      FirstHitSome(topic, 0);
    }
  }

  lemma {:induction false} FirstExactSome(topic: string, i: nat)
    requires i <= |Themes|
    ensures FirstExact(topic, i) != Some(General)
    decreases |Themes| - i
  {
    if i < |Themes| {
      FirstExactSome(topic, i + 1);
    }
  }

  lemma {:induction false} FirstHitSome(topic: string, i: nat)
    requires i <= |Themes|
    ensures FirstHit(topic, i) != Some(General)
    decreases |Themes| - i
  {
    if i < |Themes| {
      FirstHitSome(topic, i + 1);
    }
  }

  /** Type and theme agree exactly when some keyword matched. */
  lemma TypeIsTheme(topic: string)
    ensures AnalyzeTopicKeywords(topic).kind == AnalyzeTopicKeywords(topic).theme <==> Classify(topic) != General
  {
  }

  // ---------------------------------------------------------------------------
  // Consequences the source's comments and data rely on
  // ---------------------------------------------------------------------------

  /** "发布会" is a keyword of 汽车; the earlier 科技数码 keyword "发布" inside it does not win. */
  lemma LaunchEventIsAutomotive()
    ensures Classify("发布会") == Automotive
    ensures HitAt("发布会", 3)
  {
    assert OccursAt("发布会", "发布", 0);
    assert Themes[3].1[6] == "发布";
    ClassifyExact("发布会", 5);
  }

  /** A keyword's first character: every keyword starts with a character that is not a lower-case ASCII letter. */
  lemma KeywordsNotLowercase(i: nat, k: nat)
    requires i < |Themes| && k < |Themes[i].1|
    ensures Themes[i].1[k] != [] && !('a' <= Themes[i].1[k][0] <= 'z')
  {
  }

  /**
   * Matching is case-sensitive: a topic of lower-case ASCII letters only ("ai", say) matches
   * no keyword at all, not even "AI", and so is classified 综合资讯.
   */
  lemma LowercaseIsGeneral(topic: string)
    requires forall c :: c in topic ==> 'a' <= c <= 'z'
    ensures Classify(topic) == General
  {
    forall j | 0 <= j < |Themes| ensures !HitAt(topic, j) {
      forall k | 0 <= k < |Themes[j].1| ensures !Contains(topic, Themes[j].1[k]) {
        KeywordsNotLowercase(j, k);
        FirstCharAbsent(topic, Themes[j].1[k]);
      }
    }
    ClassifyGeneral(topic);
  }

  lemma UppercaseAiIsTech()
    ensures Classify("AI") == Tech
    ensures Classify("ai") == General
  {
    assert Themes[3].1[5] == "AI";
    ClassifyExact("AI", 3);
    LowercaseIsGeneral("ai");
  }
}
