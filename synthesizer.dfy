/**
 * The rule-based idea synthesizer of weibo_hot_analyzer.py: per-category templates for the
 * product name, the five core features, the five pain points, the target users, the
 * innovation points and the market potential, each interpolating the topic, and
 * `mock_ai_analysis`, which classifies the topic and assembles them with the event timeline
 * and the scores into one analysis.
 *
 * The source looks each table up by the type string `analyze_topic_keywords` returned;
 * since every category has a name of its own and the fallback's name "综合资讯" is no key of
 * any table, looking up by `Category` is the same lookup.
 */
module Synthesizer {
  import opened Wrappers
  import opened Text
  import opened Classifier
  import opened Scoring
  import opened Idea
  import opened Timeline

  // ---------------------------------------------------------------------------
  // Product name
  // ---------------------------------------------------------------------------

  /** How many leading characters of the topic the name quotes. */
  function NameWidth(c: Category): nat {
    if c == General then 8 else 6
  }

  /** The kind of product the name announces, per category. */
  function ProductKind(c: Category): string {
    match c
    case Retail => "智能比价助手"
    case Entertainment => "影视追踪器"
    case Gaming => "游戏攻略社区"
    case Tech => "评测分析平台"
    case SocialEvent => "事件追踪报"
    case Automotive => "选车决策助手"
    case International => "全球资讯聚合"
    case Festival => "活动攻略指南"
    case General => "智能分析助手"
  }

  /** `generate_product_name`: 「the topic's first six characters」 and the kind, or eight for 综合资讯. */
  function ProductName(topic: string, c: Category): (r: string)
    ensures StartsWith(r, "「" + Take(topic, NameWidth(c)) + "」") && EndsWith(r, ProductKind(c))
    ensures |r| == 2 + |Take(topic, NameWidth(c))| + |ProductKind(c)|
  {
    var r := "「" + Take(topic, NameWidth(c)) + "」" + ProductKind(c);
    assert r[..|Take(topic, NameWidth(c))| + 2] == "「" + Take(topic, NameWidth(c)) + "」";
    r
  }

  lemma ProductKindsDistinct(c1: Category, c2: Category)
    requires c1 != c2
    ensures ProductKind(c1) != ProductKind(c2)
  {
  }

  /** A topic short enough appears whole between the brackets. */
  lemma ProductNameQuotesShortTopic(topic: string, c: Category)
    requires |topic| <= 6
    ensures StartsWith(ProductName(topic, c), "「" + topic + "」")
  {
  }

  /** The name tells the category: no two categories give one topic the same product name. */
  lemma ProductNameDistinct(topic: string, c1: Category, c2: Category)
    requires c1 != c2
    ensures ProductName(topic, c1) != ProductName(topic, c2)
  {
    ProductKindsDistinct(c1, c2);
    ProductNameKind(topic, c1);
    ProductNameKind(topic, c2);
  }

  /** The kind is what follows the closing bracket. */
  lemma ProductNameKind(topic: string, c: Category)
    ensures ProductName(topic, c)[2 + |Take(topic, NameWidth(c))|..] == ProductKind(c)
  {
  }

  // ---------------------------------------------------------------------------
  // Core features
  // ---------------------------------------------------------------------------

  /** The feature titles of `generate_core_features_by_topic`, which do not depend on the topic. */
  function FeatureTitles(c: Category): (r: seq<string>)
    ensures |r| == 5
  {
    match c
    case Retail => [
      "实时价格监控",
      "历史价格走势",
      "全网比价功能",
      "品质评价分析",
      "优惠券聚合"]
    case Entertainment => [
      "影视资讯追踪",
      "剧情智能解析",
      "口碑评分预测",
      "追剧日程管理",
      "同好社区互动"]
    case Gaming => [
      "游戏攻略库",
      "实时战报追踪",
      "组队匹配系统",
      "版本更新解读",
      "游戏数据分析"]
    case Tech => [
      "深度评测解读",
      "参数对比工具",
      "用户真实反馈",
      "发布时间提醒",
      "性价比分析"]
    case SocialEvent => [
      "事件时间线还原",
      "多方观点聚合",
      "信息真伪辨析",
      "影响范围分析",
      "后续跟踪提醒"]
    case Automotive => [
      "车型深度对比",
      "真实车主口碑",
      "购车时机建议",
      "配置智能推荐",
      "用车成本计算"]
    case International => [
      "多语言资讯聚合",
      "背景知识科普",
      "专家观点解读",
      "实时动态推送",
      "影响预测分析"]
    case Festival => [
      "活动攻略大全",
      "省钱方案推荐",
      "时间轴提醒",
      "避坑指南",
      "礼品推荐助手"]
    case General => [
      "智能内容推荐",
      "实时动态追踪",
      "个性化定制",
      "社交互动分享",
      "数据可视化看板"]
  }

  /**
   * The feature descriptions of `generate_core_features_by_topic`, with every description
   * that is meant to name the topic naming it (see `FeatureDescriptionsAsWritten`).
   */
  function FeatureDescriptions(topic: string, c: Category): (r: seq<string>)
    ensures |r| == 5 && Contains(r[0], Quote(topic))
  {
    match c
    case Retail => [
      Mention("追踪", topic, "相关商品的价格波动，第一时间通知降价"),
      "展示商品过去3个月的价格变化曲线，智能预测最佳购买时机",
      "一键对比京东、淘宝、天猫等平台同款商品价格",
      Mention("基于", topic, "的用户评价，AI生成真实的质量分析报告"),
      "自动收集各平台相关商品的隐藏优惠券和促销信息"]
    case Entertainment => [
      Mention("实时推送", topic, "相关影视动态、开机消息、播出时间"),
      "AI分析剧情走向，提供角色关系图谱和关键情节解读",
      "基于社交媒体数据，预测影视作品的口碑走向",
      "自动整理更新时间表，不错过任何一集精彩内容",
      Mention("与关注", topic, "的观众实时交流讨论")]
    case Gaming => [
      Mention("精选", topic, "最新攻略、隐藏彩蛋、通关技巧"),
      "关注游戏赛事动态，职业选手操作分析",
      "快速找到志同道合的队友一起游戏",
      "每次更新后第一时间解析改动内容和影响",
      "个人游戏数据可视化，提供提升建议"]
    case Tech => [
      Mention("针对", topic, "的专业评测汇总和购买建议"),
      "与竞品进行详细参数对比，一目了然",
      "收集真实用户的使用体验和问题反馈",
      "新品发布倒计时，第一时间获取购买链接",
      "综合价格、性能、口碑计算性价比得分"]
    case SocialEvent => [
      Mention("梳理", topic, "的完整发展脉络，关键节点一目了然"),
      "汇集不同立场、不同角度的报道和评论",
      "AI辅助判断信息真实性，标注不实传闻",
      "展示事件涉及的地域、人群和行业影响",
      "事件有新进展时自动推送更新"]
    case Automotive => [
      Mention("", topic, "与同级竞品的全方位对比分析"),
      "收集长期使用该车型的真实反馈",
      "分析优惠政策、库存情况，建议最佳购车时间",
      "根据使用场景推荐最适合的配置组合",
      "包含保险、油耗、保养的全生命周期成本"]
    case International => [
      Mention("收集全球媒体对", topic, "的不同报道"),
      "提供事件相关的历史、地理、政治背景",
      "邀请国际关系专家分析事件深层含义",
      "重大进展第一时间通知",
      "分析事件对各领域可能产生的影响"]
    case Festival => [
      Mention("", topic, "期间各平台优惠活动整理"),
      "AI计算最优购买组合，最大化省钱",
      "重要活动节点倒计时提醒",
      "基于往年经验，提醒常见套路和陷阱",
      "根据预算和对象智能推荐礼物"]
    case General => [
      Mention("AI根据", topic, "推送最相关的内容"),
      Mention("第一时间获取", topic, "的最新进展"),
      "根据用户偏好自定义展示内容",
      "支持一键分享到各大平台",
      "直观展示关键数据和趋势"]
  }

  /** The two entries whose source literal lacks the f-prefix. */
  predicate Unformatted(c: Category, k: nat) {
    (c == Entertainment && k == 4) || (c == General && k == 1)
  }

  /**
   * The descriptions as the source writes them: the fifth 娱乐影视 entry and the second 综合资讯
   * entry are plain string literals, so they carry the placeholder `'{topic}'` itself, as if
   * the topic were the text "{topic}".
   */
  function FeatureDescriptionsAsWritten(topic: string, c: Category): (r: seq<string>)
    ensures |r| == 5
    ensures forall k :: 0 <= k < 5 && !Unformatted(c, k) ==> r[k] == FeatureDescriptions(topic, c)[k]
  {
    var d := FeatureDescriptions(topic, c);
    match c
    case Entertainment => d[4 := Mention("与关注", "{topic}", "的观众实时交流讨论")]
    case General => d[1 := Mention("第一时间获取", "{topic}", "的最新进展")]
    case _ => d
  }

  /** The `title - description` lines of two equally long columns. */
  function FeatureLines(titles: seq<string>, descriptions: seq<string>): (r: seq<string>)
    requires |titles| == |descriptions|
    ensures |r| == |titles|
    ensures forall k :: 0 <= k < |r| ==> r[k] == Feature(titles[k], descriptions[k])
  {
    seq(|titles|, k requires 0 <= k < |titles| => Feature(titles[k], descriptions[k]))
  }

  /** `generate_core_features_by_topic`, with every templated entry interpolated. */
  function CoreFeatures(topic: string, c: Category): (r: seq<string>)
    ensures |r| == 5 && Contains(r[0], Quote(topic))
  {
    var titles, descriptions := FeatureTitles(c), FeatureDescriptions(topic, c);
    ContainsInConcat(titles[0] + " - ", descriptions[0], Quote(topic));
    FeatureLines(titles, descriptions)
  }

  /** `generate_core_features_by_topic` as written. */
  function CoreFeaturesAsWritten(topic: string, c: Category): (r: seq<string>)
    ensures |r| == 5
    ensures forall k :: 0 <= k < 5 && !Unformatted(c, k) ==> r[k] == CoreFeatures(topic, c)[k]
  {
    FeatureLines(FeatureTitles(c), FeatureDescriptionsAsWritten(topic, c))
  }

  /**
   * The discrepancy: as written, the fifth 娱乐影视 feature of every topic is the intended line
   * of the topic "{topic}", and so differs from the intended line of every other topic.
   */
  lemma UnformattedEntertainmentFeature(topic: string)
    ensures CoreFeaturesAsWritten(topic, Entertainment)[4] == CoreFeatures("{topic}", Entertainment)[4]
    ensures topic != "{topic}" ==>
              CoreFeaturesAsWritten(topic, Entertainment)[4] != CoreFeatures(topic, Entertainment)[4]
  {
    MentionInjective("与关注", "{topic}", topic, "的观众实时交流讨论");
    FeatureInjective(FeatureTitles(Entertainment)[4], FeatureDescriptionsAsWritten(topic, Entertainment)[4],
                     FeatureDescriptions(topic, Entertainment)[4]);
  }

  /** Likewise the second 综合资讯 feature. */
  lemma UnformattedGeneralFeature(topic: string)
    ensures CoreFeaturesAsWritten(topic, General)[1] == CoreFeatures("{topic}", General)[1]
    ensures topic != "{topic}" ==>
              CoreFeaturesAsWritten(topic, General)[1] != CoreFeatures(topic, General)[1]
  {
    MentionInjective("第一时间获取", "{topic}", topic, "的最新进展");
    FeatureInjective(FeatureTitles(General)[1], FeatureDescriptionsAsWritten(topic, General)[1],
                     FeatureDescriptions(topic, General)[1]);
  }

  /** Corrected, the same two entries name the topic, quoted, like the first entry of every category. */
  lemma CoreFeaturesNameTopic(topic: string)
    ensures Contains(CoreFeatures(topic, Entertainment)[4], Quote(topic))
    ensures Contains(CoreFeatures(topic, General)[1], Quote(topic))
  {
    var e := FeatureDescriptions(topic, Entertainment)[4];
    ContainsInConcat(FeatureTitles(Entertainment)[4] + " - ", e, Quote(topic));
    var g := FeatureDescriptions(topic, General)[1];
    ContainsInConcat(FeatureTitles(General)[1] + " - ", g, Quote(topic));
  }

  predicate Unspaced(titles: seq<string>) {
    forall t :: t in titles ==> ' ' !in t
  }

  // The titles, checked two categories at a time.
  lemma TitlesUnspacedRetailEntertainment()
    ensures Unspaced(FeatureTitles(Retail))
    ensures Unspaced(FeatureTitles(Entertainment))
  {
  }

  lemma TitlesUnspacedGamingTech()
    ensures Unspaced(FeatureTitles(Gaming))
    ensures Unspaced(FeatureTitles(Tech))
  {
  }

  lemma TitlesUnspacedSocialEventAutomotive()
    ensures Unspaced(FeatureTitles(SocialEvent))
    ensures Unspaced(FeatureTitles(Automotive))
  {
  }

  lemma TitlesUnspacedInternationalFestival()
    ensures Unspaced(FeatureTitles(International))
    ensures Unspaced(FeatureTitles(Festival))
  {
  }

  lemma TitlesUnspacedGeneral()
    ensures Unspaced(FeatureTitles(General))
  {
  }

  /** No feature title holds a space. */
  lemma FeatureTitlesUnspaced(c: Category)
    ensures Unspaced(FeatureTitles(c))
  {
    TitlesUnspacedRetailEntertainment();
    TitlesUnspacedGamingTech();
    TitlesUnspacedSocialEventAutomotive();
    TitlesUnspacedInternationalFestival();
    TitlesUnspacedGeneral();
  }

  /**
   * Every core feature renders, in the report, as its bold title followed by its
   * description: the split at the first " - " recovers both.
   */
  lemma CoreFeaturesSplit(topic: string, c: Category, k: nat)
    requires k < 5
    ensures SplitFeature(CoreFeatures(topic, c)[k]) == Some((FeatureTitles(c)[k], FeatureDescriptions(topic, c)[k]))
  {
    FeatureTitlesUnspaced(c);
    assert FeatureTitles(c)[k] in FeatureTitles(c);
    FeatureSplits(FeatureTitles(c)[k], FeatureDescriptions(topic, c)[k]);
  }

  // ---------------------------------------------------------------------------
  // Pain points, users, innovation, market
  // ---------------------------------------------------------------------------

  /** The first pain point of `generate_pain_points_by_topic`, the one that names the topic. */
  function LeadPainPoint(topic: string, c: Category): (r: string)
    ensures Contains(r, Quote(topic))
  {
    match c
    case Retail => Mention("想了解", topic, "的真实价格，但不同平台价格差异大，对比耗时耗力")
    case Entertainment => Mention("", topic, "相关信息分散在各大平台，收集整理麻烦")
    case Gaming => Mention("", topic, "攻略散落各处，查找困难且质量参差")
    case Tech => Mention("", topic, "相关评测信息杂乱，专业和客观的内容难找")
    case SocialEvent => Mention("", topic, "信息真假难辨，谣言和官方消息混杂")
    case Automotive => Mention("", topic, "车型众多，不知道哪款最适合自己的需求")
    case International => Mention("", topic, "报道语言障碍，只能看中文二手资讯")
    case Festival => Mention("", topic, "期间活动规则复杂，看半天也搞不清楚")
    case General => Mention("关于", topic, "的信息分散在各个平台，收集整理耗时")
  }

  /** The other four pain points, fixed per category. */
  function OtherPainPoints(c: Category): (r: seq<string>)
    ensures |r| == 4
  {
    match c
    case Retail => [
      "不知道什么时候是最佳购买时机，怕买贵了",
      "商品评价真假难辨，刷单好评混杂，难以判断真实质量",
      "优惠券分散在各个平台，领取和使用流程繁琐",
      "缺乏专业的商品分析，购买决策缺乏数据支撑"]
    case Entertainment => [
      "剧情讨论剧透混杂，想看分析又怕被剧透",
      "影视作品质量参差不齐，浪费时间在烂片上",
      "更新时间不固定，经常错过最新一集",
      "找不到同好交流，独自追剧/追星缺少互动乐趣"]
    case Gaming => [
      "单排游戏体验差，找不到靠谱的队友",
      "游戏频繁更新，跟不上版本变化导致操作变形",
      "想提升技术但缺乏系统性的学习资源",
      "游戏数据分散，无法直观看到自己的进步"]
    case Tech => [
      "参数复杂看不懂，不知道哪款更适合自己",
      "用户反馈分散，购买前很难了解真实使用体验",
      "新品发布信息滞后，错过首发优惠",
      "缺乏横向对比，不清楚性价比如何"]
    case SocialEvent => [
      "事件报道片面，只看到单方面立场，缺乏全面视角",
      "后续跟进不及时，想知道结果却找不到下文",
      "讨论情绪化严重，理性客观的分析难以发现",
      "缺乏背景知识，看不懂事件的深层含义"]
    case Automotive => [
      "销售话术真假难辨，担心被忽悠",
      "配置复杂选装困难，不知道哪些配置实用",
      "购车时机难把握，怕买早了优惠，买晚了涨价",
      "缺乏真实车主反馈，提车后发现问题"]
    case International => [
      "缺乏国际背景知识，看不懂事件的来龙去脉",
      "信息来源单一，容易形成片面认知",
      "专业分析门槛高，普通用户难以深入理解",
      "时效性差，重要新闻延迟才能看到"]
    case Festival => [
      "优惠券限制条件多，使用时发现不符合条件",
      "跟风消费后发现不实用，浪费钱",
      "活动信息分散，错过了很多真正优惠的好机会",
      "礼品选择困难，送重复了或者送的不合适"]
    case General => [
      "缺乏专业深度分析，只看到表面现象",
      "个性化推荐不足，被无关信息干扰",
      "互动分享体验差，优质内容传播受限",
      "数据可视化不够，关键信息不直观"]
  }

  /** `generate_pain_points_by_topic`: five complaints, the first naming the topic. */
  function PainPoints(topic: string, c: Category): (r: seq<string>)
    ensures |r| == 5 && Contains(r[0], Quote(topic))
  {
    [LeadPainPoint(topic, c)] + OtherPainPoints(c)
  }

  /** `generate_target_users_by_topic`: one sentence naming the topic. */
  function TargetUsers(topic: string, c: Category): (r: string)
    ensures Contains(r, Quote(topic))
  {
    match c
    case Retail => Mention("关注", topic, "的网购爱好者，追求高性价比，注重商品真实评价，希望用最优惠的价格买到心仪商品")
    case Entertainment => Mention("关注", topic, "的影视娱乐爱好者，追剧追星族，喜欢与他人讨论分享，希望获取最新最全的娱乐资讯")
    case Gaming => Mention("", topic, "的玩家群体，包括新手和老玩家，希望提升游戏技巧，寻找游戏伙伴，了解游戏最新动态")
    case Tech => Mention("对", topic, "感兴趣的科技爱好者，注重产品性能和性价比，购买前喜欢做功课研究")
    case SocialEvent => Mention("关注", topic, "的社会公众，希望了解事件真相和各方观点，追求客观理性的信息")
    case Automotive => Mention("考虑购买", topic, "相关车型的消费者，正在选车对比，需要专业的购车建议")
    case International => Mention("关注", topic, "国际新闻的用户，希望获取多角度的深度报道")
    case Festival => Mention("参与", topic, "相关活动的用户，希望最大化优惠，获得最佳活动体验")
    case General => Mention("关注", topic, "话题的用户群体，希望获取相关深度信息和专业分析")
  }

  /** `generate_innovation_points_by_topic`: five points, the same for every category. */
  function InnovationPoints(topic: string): (r: seq<string>)
    ensures |r| == 5 && Contains(r[0], Quote(topic))
  {
    [Mention("首创针对", topic, "场景的专业分析模型"),
     "AI智能识别关键信息，过滤噪音内容",
     "多维度数据融合，提供全景式视角",
     "实时追踪+历史回溯，完整把握事件脉络",
     "社交化协作，让用户参与内容共建"]
  }

  /**
   * `generate_market_potential_by_topic`: the market size names the topic quoted, the
   * competitive advantage names it bare.
   */
  function MarketPotentialOf(topic: string): (r: MarketPotential)
    ensures Contains(r.marketSize, Quote(topic)) && Contains(r.competitiveAdvantage, topic)
  {
    var advantage := "深耕" + topic + "细分领域，形成专业壁垒";
    assert OccursAt(advantage, topic, 2);
    ContainsWitness(advantage, topic, 2);
    MarketPotential(Mention("基于", topic, "的垂直细分市场，用户基数持续增长"),
                    "快速成长期，市场潜力大", advantage, "会员订阅+增值服务+精准广告")
  }

  // ---------------------------------------------------------------------------
  // The assembled analysis
  // ---------------------------------------------------------------------------

  /** A well-formed analysis of `topic` as the rule engine of weibo_hot_analyzer.py builds it. */
  predicate MockShaped(topic: string, a: Analysis) {
    && StartsWith(a.name, "「")
    && a.eventTimeline.Some? && StartsWith(a.eventTimeline.value, Quote(topic))
    && |a.coreFeatures| == 5 && |a.painPoints| == 5 && |a.innovationPoints| == 5
    && Contains(a.coreFeatures[0], Quote(topic)) && Contains(a.painPoints[0], Quote(topic))
    && Contains(a.targetUsers, Quote(topic))
    && SubScoresInRange(a.scores) && TotalsConsistent(a.scores)
    && 55 <= a.scores.total <= 100
  }

  /** The analysis the rule engine builds for a topic of category `c`. */
  function IdeaFor(topic: string, c: Category, results: seq<SearchResult>, draws: Draws): (a: Analysis)
    ensures MockShaped(topic, a)
    ensures a.name == ProductName(topic, c) && a.coreFeatures == CoreFeatures(topic, c)
    ensures a.painPoints == PainPoints(topic, c) && a.targetUsers == TargetUsers(topic, c)
    ensures a.eventTimeline == Some(EventTimeline(topic, results))
    ensures a.innovationPoints == InnovationPoints(topic) && a.potential == MarketPotentialOf(topic)
    ensures a.scores == CalculateScores(draws)
  {
    var name := ProductName(topic, c);
    PrefixTransitive(name, "「" + Take(topic, NameWidth(c)) + "」", "「");
    Analysis(name, Some(EventTimeline(topic, results)), CoreFeatures(topic, c),
             PainPoints(topic, c), TargetUsers(topic, c), InnovationPoints(topic),
             MarketPotentialOf(topic), CalculateScores(draws))
  }

  /**
   * `mock_ai_analysis`: every part comes from the category the classifier gives the topic;
   * the scores come from the six draws.
   */
  function MockAiAnalysis(topic: string, results: seq<SearchResult>, draws: Draws): (a: Analysis)
    ensures MockShaped(topic, a)
    ensures a.name == ProductName(topic, Classify(topic))
    ensures a.coreFeatures == CoreFeatures(topic, Classify(topic))
    ensures a.painPoints == PainPoints(topic, Classify(topic))
    ensures a.targetUsers == TargetUsers(topic, Classify(topic))
    ensures a.eventTimeline == Some(EventTimeline(topic, results))
    ensures a.innovationPoints == InnovationPoints(topic) && a.potential == MarketPotentialOf(topic)
    ensures a.scores == CalculateScores(draws)
  {
    IdeaFor(topic, Classify(topic), results, draws)
  }
}
