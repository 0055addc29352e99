/**
 * The two event-timeline builders of weibo_hot_analyzer.py.
 *
 * `generate_event_timeline` writes one paragraph: from the cleaned titles of the first five
 * search hits when at least two of them survive the length filter ("context mode"), and
 * otherwise from the first of eight keyword groups that occurs in the topic.
 *
 * `generate_three_stage_timeline` writes a cause, a development and an impact clause, from
 * the search titles under the same two-title rule (with a different filter), or else from
 * its own keyword groups, some of which pull digit runs and a brand name out of the topic.
 * Every clause it returns is cut to 100 characters.
 */
module Timeline {
  import opened Wrappers
  import opened Text
  import opened Idea

  // ---------------------------------------------------------------------------
  // Title cleaning and the surviving titles
  // ---------------------------------------------------------------------------

  /**
   * `title.split('_')[0].split('-')[0].split('|')[0]`: the part of the title before its first
   * separator, the separators being `_`, `-` and `|`.
   */
  function CleanTitle(title: string): (r: string)
    ensures StartsWith(title, r)
    ensures '_' !in r && '-' !in r && '|' !in r
    ensures |r| < |title| ==> title[|r|] in "_-|"
  {
    var a := BeforeFirst(title, '_');
    var b := BeforeFirst(a, '-');
    var c := BeforeFirst(b, '|');
    assert forall k :: 0 <= k < |c| ==> c[k] == b[k] == a[k] == title[k];
    c
  }

  /** A title kept by `generate_event_timeline`: non-empty, and 10 < len < 80 once cleaned. */
  predicate EventQualifies(title: string) {
    title != [] && 10 < |CleanTitle(title)| < 80
  }

  /** The stripped, cleaned title, if the event builder keeps it. */
  function EventKept(title: string): (r: seq<string>)
    ensures |r| <= 1 && forall k :: 0 <= k < |r| ==> |r[k]| < 80
  {
    if EventQualifies(title) then [Strip(CleanTitle(title))] else []
  }

  /** The stripped, cleaned titles of the hits in `rs` that qualify, in order. */
  function EventKeys(rs: seq<SearchResult>): (r: seq<string>)
    ensures |r| <= |rs|
    ensures forall k :: 0 <= k < |r| ==> |r[k]| < 80
  {
    if rs == [] then []
    else EventKeys(rs[..|rs| - 1]) + EventKept(rs[|rs| - 1].title)
  }

  lemma EventKeysStep(rs: seq<SearchResult>, i: nat)
    requires i < |rs|
    ensures EventKeys(rs[..i + 1]) == EventKeys(rs[..i]) + EventKept(rs[i].title)
  {
    assert rs[..i + 1][..i] == rs[..i];
  }

  /** `key_info` of `generate_event_timeline`: only the first five hits are looked at. */
  function EventKeyInfo(rs: seq<SearchResult>): (r: seq<string>)
    ensures |r| <= 5
  {
    EventKeys(Take(rs, 5))
  }

  /** The survivors of a concatenation are the survivors of each part: a filter-and-map. */
  lemma {:induction false} EventKeysConcat(a: seq<SearchResult>, b: seq<SearchResult>)
    ensures EventKeys(a + b) == EventKeys(a) + EventKeys(b)
    decreases |b|
  {
    if b == [] {
      assert a + b == a;
    } else {
      var c, x := b[..|b| - 1], b[|b| - 1];
      assert (a + b)[..|a + b| - 1] == a + c;
      assert (a + b)[|a + b| - 1] == x;
      assert EventKeys(a + b) == EventKeys(a + c) + EventKept(x.title);
      assert EventKeys(b) == EventKeys(c) + EventKept(x.title);
      EventKeysConcat(a, c);
    }
  }

  lemma EventKeysOne(x: SearchResult)
    ensures EventKeys([x]) == if EventQualifies(x.title) then [Strip(CleanTitle(x.title))] else []
  {
    assert [x][..0] == [];
  }

  /** A title with a separator among its first eleven characters never survives. */
  lemma EarlySeparatorDropped(title: string, k: nat)
    requires k <= 10 && k < |title| && title[k] in "_-|"
    ensures !EventQualifies(title)
  {
  }

  // ---------------------------------------------------------------------------
  // generate_event_timeline
  // ---------------------------------------------------------------------------

  const EarlyWords: seq<string> := ["曝光", "曝光了", "首次", "爆料", "起因"]
  const DevelopWords: seq<string> := ["回应", "澄清", "进展", "最新", "后续", "发酵"]
  const ResultWords: seq<string> := ["结果", "宣布", "定论", "处罚", "解决"]

  /** `any(w in t for t in ts for w in ws)` */
  predicate AnyMentions(ts: seq<string>, ws: seq<string>) {
    exists k :: 0 <= k < |ts| && ContainsAny(ts[k], ws)
  }

  /** The four sentences of context mode, before they are joined. */
  function ContextParts(topic: string, key: seq<string>): (parts: seq<string>)
    requires |key| >= 2
    ensures |parts| == 4 && parts[0] == Quote(topic) + "事件引发关注"
  {
    [ Quote(topic) + "事件引发关注",
      if AnyMentions(key, EarlyWords) then "初期" + Take(key[0], 30) else "相关内容在网络上开始传播",
      if AnyMentions(key, DevelopWords) then "随后" + Take(key[1], 30) else "讨论热度持续攀升",
      if AnyMentions(key, ResultWords) then "最终" + Take(key[|key| - 1], 25) else "目前事件仍在持续发酵中" ]
  }

  /** `"。".join(parts) + "。"` for the four context sentences: it opens with the quoted topic. */
  function ContextText(topic: string, key: seq<string>): (text: string)
    requires |key| >= 2
    ensures StartsWith(text, Quote(topic))
  {
    var parts := ContextParts(topic, key);
    JoinStartsWith("。", parts);
    StartsWithConcat(Quote(topic), "事件引发关注", Quote(topic));
    StartsWithConcat(Join("。", parts), "。", parts[0]);
    assert StartsWith(parts[0], Quote(topic));
    assert StartsWith(Join("。", parts) + "。", parts[0]);
    PrefixTransitive(Join("。", parts) + "。", parts[0], Quote(topic));
    Join("。", parts) + "。"
  }

  /**
   * Context mode: a paragraph over 100 characters is replaced by a short one built from the
   * first title, one under 50 is padded with a stock sentence.
   */
  function ContextTimeline(topic: string, key: seq<string>): (r: string)
    requires |key| >= 2
    ensures StartsWith(r, Quote(topic))
    ensures |r| <= 100 || |r| <= |topic| + 42
  {
    var text := ContextText(topic, key);
    if |text| > 100 then
      var tail := "引发热议。" + Take(key[0], 25) + "...目前持续关注。";
      StartsWithConcat(Quote(topic), tail, Quote(topic));
      Quote(topic) + tail
    else if |text| < 50 then
      StartsWithConcat(text, "相关讨论热度居高不下。", Quote(topic));
      text + "相关讨论热度居高不下。"
    else text
  }

  const PriceWords: seq<string> := ["价格", "进价", "成本", "售价", "元", "羽绒服", "商品"]
  const IncidentWords: seq<string> := ["火灾", "事故", "晕倒", "去世", "伤亡", "意外", "韩国火灾"]
  const LaunchWords: seq<string> := ["发布", "新品", "上市", "推出", "亮相", "发布会"]
  const StatementWords: seq<string> := ["道歉", "回应", "澄清", "声明", "解释", "离职"]
  const GameWords: seq<string> := ["游戏", "开大", "王者", "原神", "第五人格", "世界之外", "英雄联盟"]
  const StarWords: seq<string> := ["明星", "演员", "艺人", "歌手", "综艺", "薛之谦", "蔡徐坤", "轧戏", "有歌"]
  const FestivalWords: seq<string> := ["新年", "春节", "双11", "618", "活动", "大紫大红"]
  const CarWords: seq<string> := ["汽车", "长城", "特斯拉", "比亚迪", "发布会"]

  /** The stock sentence of each keyword group, and of the catch-all, after the quoted topic. */
  function KeywordSentence(topic: string): (r: string)
    ensures |r| <= 42
  {
    if ContainsAny(topic, PriceWords) then "引发热议。网友热议定价合理性，相关品牌方备受关注。目前话题持续发酵，成为消费热点。"
    else if ContainsAny(topic, IncidentWords) then "事件令人揪心。相关部门已介入处理，公众持续关注事件进展。具体情况有待进一步通报。"
    else if ContainsAny(topic, LaunchWords) then "引发广泛关注。产品亮点成为讨论焦点，市场反响热烈。消费者期待了解更多详情。"
    else if ContainsAny(topic, StatementWords) then "事件持续发酵。涉事方发布声明，公众对此反应不一。事件后续发展仍需关注。"
    else if ContainsAny(topic, GameWords) then "在游戏圈引发热议。玩家讨论游戏玩法和更新内容，社区活跃度显著提升。"
    else if ContainsAny(topic, StarWords) then "成为娱乐热点。粉丝和网友热烈讨论相关话题，社交媒体热度持续攀升。"
    else if ContainsAny(topic, FestivalWords) then "相关活动开启。各大平台推出优惠，消费者积极参与，销售额屡创新高。"
    else if ContainsAny(topic, CarWords) then "引发车圈关注。消费者关注产品性能和价格，期待更多产品细节披露。"
    else "话题引发广泛讨论。网友从不同角度表达观点，相关内容在社交平台快速传播，热度持续走高。"
  }

  /** Keyword mode: the quoted topic followed by the sentence of the first group it hits. */
  function KeywordTimeline(topic: string): (r: string)
    ensures StartsWith(r, Quote(topic))
    ensures |r| <= |topic| + 44
  {
    StartsWithConcat(Quote(topic), KeywordSentence(topic), Quote(topic));
    Quote(topic) + KeywordSentence(topic)
  }

  /** `generate_event_timeline` */
  function EventTimeline(topic: string, rs: seq<SearchResult>): (r: string)
    ensures StartsWith(r, Quote(topic))
    ensures |r| <= 100 || |r| <= |topic| + 44
  {
    var key := EventKeyInfo(rs);
    if |rs| > 0 && |key| >= 2 then ContextTimeline(topic, key) else KeywordTimeline(topic)
  }

  /** Search results of which fewer than two titles survive count for nothing. */
  lemma EventTimelineFewTitles(topic: string, rs: seq<SearchResult>)
    requires |EventKeyInfo(rs)| < 2
    ensures EventTimeline(topic, rs) == EventTimeline(topic, []) == KeywordTimeline(topic)
  {
  }

  /** Only the first five search results are read. */
  lemma EventTimelineFirstFive(topic: string, rs: seq<SearchResult>, more: seq<SearchResult>)
    requires |rs| >= 5
    ensures EventTimeline(topic, rs + more) == EventTimeline(topic, rs)
  {
    assert Take(rs + more, 5) == Take(rs, 5);
  }

  /** A topic naming a launch event hits the launch group before it can reach the car group. */
  lemma LaunchEventBeforeCarGroup(topic: string)
    requires Contains(topic, "发布会")
    ensures ContainsAny(topic, LaunchWords)
  {
    ContainsPrefixOf(topic, "发布会", "发布");
    assert LaunchWords[0] == "发布";
  }

  /** "新品发布会" gets the launch sentence: it hits neither the price nor the incident group. */
  lemma LaunchExample()
    ensures KeywordTimeline("新品发布会") == Quote("新品发布会") + "引发广泛关注。产品亮点成为讨论焦点，市场反响热烈。消费者期待了解更多详情。"
  {
    var s := "新品发布会";
    assert !ContainsAny(s, PriceWords) by {
      NoneContained(s, PriceWords);
    }
    assert !ContainsAny(s, IncidentWords) by {
      NoneContained(s, IncidentWords);
    }
    assert ContainsAny(s, LaunchWords) by {
      assert OccursAt(s, "发布", 2);
      assert Contains(s, LaunchWords[0]);
    }
  }

  /** One pass of the `key_info` loop of `generate_event_timeline`. */
  method KeepEventTitle(keyInfo: seq<string>, title: string) returns (r: seq<string>)
    ensures r == keyInfo + EventKept(title)
  {
    r := keyInfo;
    if title != [] {
      var cleanTitle := CleanTitle(title);
      if |cleanTitle| > 10 && |cleanTitle| < 80 {
        r := r + [Strip(cleanTitle)];
      }
    }
  }

  /** The `key_info` loop of `generate_event_timeline`. */
  method CollectEventKeys(searchResults: seq<SearchResult>) returns (keyInfo: seq<string>)
    ensures keyInfo == EventKeyInfo(searchResults)
  {
    var first := Take(searchResults, 5);
    keyInfo := [];
    var i := 0;
    while i < |first|
      invariant 0 <= i <= |first|
      invariant keyInfo == EventKeys(first[..i])
    {
      EventKeysStep(first, i);
      keyInfo := KeepEventTitle(keyInfo, first[i].title);
      i := i + 1;
    }
    assert first[..i] == first;
  }

  /** The four `parts.append(...)` steps of context mode. */
  method BuildParts(topic: string, keyInfo: seq<string>) returns (parts: seq<string>)
    requires |keyInfo| >= 2
    ensures parts == ContextParts(topic, keyInfo)
  {
    parts := [];
    parts := parts + [Quote(topic) + "事件引发关注"];
    if AnyMentions(keyInfo, EarlyWords) {
      parts := parts + ["初期" + Take(keyInfo[0], 30)];
    } else {
      parts := parts + ["相关内容在网络上开始传播"];
    }
    if AnyMentions(keyInfo, DevelopWords) {
      parts := parts + ["随后" + Take(keyInfo[1], 30)];
    } else {
      parts := parts + ["讨论热度持续攀升"];
    }
    if AnyMentions(keyInfo, ResultWords) {
      parts := parts + ["最终" + Take(keyInfo[|keyInfo| - 1], 25)];
    } else {
      parts := parts + ["目前事件仍在持续发酵中"];
    }
  }

  /** `generate_event_timeline`, step by step: `parts` grown by appending, the text reassigned. */
  method GenerateEventTimeline(topic: string, searchResults: seq<SearchResult>) returns (timelineText: string)
    ensures timelineText == EventTimeline(topic, searchResults)
  {
    if |searchResults| > 0 {
      var keyInfo := CollectEventKeys(searchResults);
      if |keyInfo| >= 2 {
        var parts := BuildParts(topic, keyInfo);
        timelineText := Join("。", parts) + "。";
        assert timelineText == ContextText(topic, keyInfo);
        if |timelineText| > 100 {
          timelineText := Quote(topic) + ("引发热议。" + Take(keyInfo[0], 25) + "...目前持续关注。");
        } else if |timelineText| < 50 {
          timelineText := timelineText + "相关讨论热度居高不下。";
        }
        return;
      }
    }
    timelineText := Quote(topic) + KeywordSentence(topic);
  }

  // ---------------------------------------------------------------------------
  // generate_three_stage_timeline
  // ---------------------------------------------------------------------------

  /** The `{'cause': ..., 'develop': ..., 'impact': ...}` dictionary. */
  datatype Stage = Stage(cause: string, develop: string, impact: string)

  /** Every branch returns its three clauses cut with `[:100]`. */
  function Capped(cause: string, develop: string, impact: string): (r: Stage)
    ensures |r.cause| <= 100 && |r.develop| <= 100 && |r.impact| <= 100
    ensures StartsWith(cause, r.cause) && StartsWith(develop, r.develop) && StartsWith(impact, r.impact)
    ensures |cause| <= 100 && |develop| <= 100 && |impact| <= 100 ==> r == Stage(cause, develop, impact)
  {
    Stage(Take(cause, 100), Take(develop, 100), Take(impact, 100))
  }

  /** A title kept by the three-stage builder: over 10 long, then 8 < len < 60 once cleaned and stripped. */
  predicate StageQualifies(title: string) {
    title != [] && |title| > 10 && 8 < |Strip(CleanTitle(title))| < 60
  }

  /** The cleaned title, if the three-stage builder keeps it. */
  function StageKept(title: string): (r: seq<string>)
    ensures |r| <= 1 && forall k :: 0 <= k < |r| ==> 8 < |r[k]| < 60
  {
    if StageQualifies(title) then [Strip(CleanTitle(title))] else []
  }

  function StageKeys(rs: seq<SearchResult>): (r: seq<string>)
    ensures |r| <= |rs|
    ensures forall k :: 0 <= k < |r| ==> 8 < |r[k]| < 60
  {
    if rs == [] then []
    else StageKeys(rs[..|rs| - 1]) + StageKept(rs[|rs| - 1].title)
  }

  /** `key_info` of `generate_three_stage_timeline`. */
  function StageKeyInfo(rs: seq<SearchResult>): (r: seq<string>)
    ensures |r| <= 5
  {
    StageKeys(Take(rs, 5))
  }

  /** Context mode of the three-stage builder. */
  function ContextStage(key: seq<string>): (r: Stage)
    requires |key| >= 2
    ensures |r.cause| <= 100 && |r.develop| <= 100 && |r.impact| <= 100
  {
    Capped(Take(key[0], 40) + "成为关注焦点",
           "网友热议" + (if |key| > 1 then Take(key[1], 30) else "相关话题"),
           "事件持续发酵，" + (if |key| > 2 then Take(key[|key| - 1], 30) else "相关讨论") + "热度居高不下")
  }

  /** In context mode no clause is cut: each names its title in full up to 40 or 30 characters. */
  lemma ContextStageUncut(key: seq<string>)
    requires |key| >= 2
    ensures ContextStage(key).cause == Take(key[0], 40) + "成为关注焦点"
    ensures ContextStage(key).develop == "网友热议" + Take(key[1], 30)
    ensures ContextStage(key).impact ==
            "事件持续发酵，" + (if |key| > 2 then Take(key[|key| - 1], 30) else "相关讨论") + "热度居高不下"
  {
  }

  const StagePriceWords: seq<string> := ["胖东来", "价格", "进价", "成本", "羽绒服", "元"]
  const StageStarWords: seq<string> := ["轧戏", "薛之谦", "蔡徐坤", "连开", "场", "有歌"]
  const StageGameWords: seq<string> := ["世界之外", "第五人格", "游戏", "开大", "王者", "原神"]
  const StageTechWords: seq<string> := ["3D打印", "器官", "AI", "芯片", "发布", "新品"]
  const StageIncidentWords: seq<string> := ["火灾", "事故", "晕倒", "伤亡", "韩国"]
  const StageCarWords: seq<string> := ["汽车", "长城", "特斯拉", "比亚迪", "发布会"]
  const StageFestivalWords: seq<string> := ["新年", "春节", "双11", "618", "大紫大红"]

  /** The alternatives of `re.search(r'(胖东来|京东|淘宝|天猫|商品)', topic)`. */
  const Brands: seq<string> := ["胖东来", "京东", "淘宝", "天猫", "商品"]

  /** The first alternative, in pattern order, that matches at position `p`. */
  function BrandAt(topic: string, p: nat, k: nat): (r: Option<string>)
    requires k <= |Brands|
    ensures r.Some? ==> r.value in Brands && OccursAt(topic, r.value, p)
    ensures r.None? ==> forall j :: k <= j < |Brands| ==> !OccursAt(topic, Brands[j], p)
    decreases |Brands| - k
  {
    if k == |Brands| then None
    else if OccursAt(topic, Brands[k], p) then Some(Brands[k])
    else BrandAt(topic, p, k + 1)
  }

  /** `re.search` scans start positions left to right and takes the first one that matches. */
  function FirstBrand(topic: string, p: nat): (r: Option<string>)
    requires p <= |topic|
    ensures r.Some? ==> r.value in Brands && Contains(topic, r.value)
    ensures r.None? ==> forall q, j :: p <= q <= |topic| && 0 <= j < |Brands| ==> !OccursAt(topic, Brands[j], q)
    decreases |topic| - p
  {
    var here := BrandAt(topic, p, 0);
    if here.Some? then here
    else if p == |topic| then None
    else FirstBrand(topic, p + 1)
  }

  /**
   * At one position the alternation takes the first brand, in pattern order, that occurs there:
   * when brand `j` occurs at `p` and no brand before it does, the result is brand `j`.
   */
  lemma {:induction false} BrandAtFirst(topic: string, p: nat, k: nat, j: nat)
    requires k <= j < |Brands|
    requires OccursAt(topic, Brands[j], p)
    requires forall j' :: k <= j' < j ==> !OccursAt(topic, Brands[j'], p)
    ensures BrandAt(topic, p, k) == Some(Brands[j])
    decreases j - k
  {
    if k < j {
      BrandAtFirst(topic, p, k + 1, j);
    }
  }

  /**
   * `re.search` returns the leftmost match: when `q` is the first position from `p` on where any
   * brand occurs, the result is the brand the alternation takes at `q`.
   */
  lemma {:induction false} FirstBrandLeftmost(topic: string, p: nat, q: nat)
    requires p <= q <= |topic|
    requires BrandAt(topic, q, 0).Some?
    requires forall q' :: p <= q' < q ==> BrandAt(topic, q', 0).None?
    ensures FirstBrand(topic, p) == BrandAt(topic, q, 0)
    decreases q - p
  {
    if p < q {
      FirstBrandLeftmost(topic, p + 1, q);
    }
  }

  /** The entity the pricing clauses name, "品牌方" when the topic names none of the brands. */
  function Entity(topic: string): string {
    FirstBrand(topic, 0).GetOr("品牌方")
  }

  /** Group 1, prices and goods: the first numbers of the topic go into the development clause. */
  function PriceStage(topic: string): (r: Stage)
    ensures |r.cause| <= 100 && |r.develop| <= 100 && |r.impact| <= 100
  {
    var numbers := FindNumbers(topic, 0);
    var entity := Entity(topic);
    if numbers != [] && Contains(topic, "羽绒服") then
      Capped(topic + "曝光，" + entity + "商品定价引发热议",
             "网友热议'" + numbers[0] + "元'售价与'" + (if |numbers| > 1 then numbers[1] else "") + "元'进价的价差",
             entity + "回应舆论，公众关注商品定价透明度与商业利润")
    else if numbers != [] then
      Capped(topic + "价格信息曝光，引发消费者讨论",
             "网友热议'" + numbers[0] + "元'的定价合理性",
             "消费者对价格敏感度提升，相关品牌受到关注")
    else
      Capped(topic + "商品定价问题引发关注",
             "网友对比各平台价格，讨论性价比",
             "消费观念受到影响，更加注重价格透明度")
  }

  /** Group 2, entertainment. */
  function StarStage(topic: string): (r: Stage)
    ensures |r.cause| <= 100 && |r.develop| <= 100 && |r.impact| <= 100
  {
    if Contains(topic, "轧戏") then
      Capped("有演员被指" + Quote(topic) + "，行业潜规则引发讨论",
             "网友热议演员职业操守和行业规范",
             "影视行业职业道德受到关注，演员管理规范被讨论")
    else if Contains(topic, "连开") && Contains(topic, "场") then
      var numbers := FindDigitRuns(topic, 0);
      var num := if numbers != [] then numbers[0] else "多";
      Capped(topic + "演唱会官宣，粉丝抢票热情高涨",
             "粉丝讨论" + num + "场演出城市和门票信息",
             "演出市场复苏，歌手影响力获得关注")
    else
      Capped(topic + "成为娱乐热点，粉丝关注",
             "网友热议相关作品和动态",
             "艺人/作品热度提升，相关话题持续发酵")
  }

  /** Group 3, games. */
  function GameStage(topic: string): (r: Stage)
    ensures |r.cause| <= 100 && |r.develop| <= 100 && |r.impact| <= 100
  {
    if Contains(topic, "世界之外") || Contains(topic, "第五人格") then
      var gameName := if Contains(topic, "世界之外") then "世界之外" else "第五人格";
      Capped(gameName + "游戏相关内容引发玩家关注",
             "玩家讨论游戏玩法、攻略和更新内容",
             "游戏社区活跃度提升，" + gameName + "热度持续走高")
    else if Contains(topic, "开大") then
      Capped("游戏" + Quote(topic) + "操作或事件引发热议",
             "玩家分享游戏经验和技巧",
             "游戏话题出圈，引发更广泛讨论")
    else
      Capped(topic + "游戏相关话题引发关注",
             "玩家讨论游戏内容和玩法",
             "游戏社区热度提升，相关产品受关注")
  }

  /** Group 4, technology and medicine. */
  function TechStage(topic: string): (r: Stage)
    ensures |r.cause| <= 100 && |r.develop| <= 100 && |r.impact| <= 100
  {
    if Contains(topic, "3D打印") && Contains(topic, "器官") then
      Capped(topic + "技术突破引发关注",
             "网友热议医疗科技进展和未来应用",
             "医疗科技受到关注，公众对生物打印技术讨论增多")
    else if Contains(topic, "发布") || Contains(topic, "新品") then
      Capped(topic + "相关产品发布，引发市场关注",
             "用户讨论产品性能、价格和购买信息",
             "相关行业受到影响，市场竞争加剧")
    else
      Capped(topic + "科技进展引发关注",
             "专业人士和用户讨论相关技术",
             "技术创新受到关注，行业受到影响")
  }

  /** Group 5, incidents; a Korean fire or accident names the first digit run as the toll. */
  function IncidentStage(topic: string): (r: Stage)
    ensures |r.cause| <= 100 && |r.develop| <= 100 && |r.impact| <= 100
  {
    if Contains(topic, "韩国") && (Contains(topic, "火灾") || Contains(topic, "事故")) then
      var numbers := FindDigitRuns(topic, 0);
      var deathNum := if numbers != [] then numbers[0] + "人" else "多人";
      Capped("韩国发生" + RemoveAll(topic, "韩国") + "事故，引发关注",
             "事故详情被报道，" + deathNum + "伤亡引发关注",
             "相关部门介入处理，公众关注事故原因和后续")
    else
      Capped(topic + "事件发生，引发公众关注",
             "媒体报道事件进展，网友持续关注",
             "事件影响扩散，相关讨论持续发酵")
  }

  /** The catch-all: a topic over 20 characters is shortened in the first two clauses. */
  function DefaultStage(topic: string): (r: Stage)
    ensures |r.cause| <= 100 && |r.develop| <= 100 && |r.impact| <= 100
  {
    if |topic| <= 20 then
      Capped(topic + "成为热门话题",
             "网友从不同角度讨论" + topic,
             topic + "相关讨论热度持续，影响扩大")
    else
      Capped(Take(topic, 20) + "...引发关注",
             "网友热议" + Take(topic, 15) + "...相关内容",
             "话题持续发酵，相关讨论热度走高")
  }

  /** The keyword branches, in the order the source tries them. */
  function StageByKeyword(topic: string): (r: Stage)
    ensures |r.cause| <= 100 && |r.develop| <= 100 && |r.impact| <= 100
  {
    if ContainsAny(topic, StagePriceWords) then PriceStage(topic)
    else if ContainsAny(topic, StageStarWords) then StarStage(topic)
    else if ContainsAny(topic, StageGameWords) then GameStage(topic)
    else if ContainsAny(topic, StageTechWords) then TechStage(topic)
    else if ContainsAny(topic, StageIncidentWords) then IncidentStage(topic)
    else if ContainsAny(topic, StageCarWords) then
      Capped(topic + "相关话题引发车圈关注", "消费者讨论产品性能、价格和配置", "汽车市场关注度提升，相关品牌受关注")
    else if ContainsAny(topic, StageFestivalWords) then
      Capped(topic + "相关活动开启，引发关注", "各大平台推出活动，消费者参与讨论", "消费热度提升，相关话题持续发酵")
    else DefaultStage(topic)
  }

  /** `generate_three_stage_timeline`: every clause, on every branch, is at most 100 characters. */
  function ThreeStageTimeline(topic: string, rs: seq<SearchResult>): (r: Stage)
    ensures |r.cause| <= 100 && |r.develop| <= 100 && |r.impact| <= 100
  {
    var key := StageKeyInfo(rs);
    if |rs| > 0 && |key| >= 2 then ContextStage(key) else StageByKeyword(topic)
  }

  /** With fewer than two surviving titles the three stages come from the topic alone. */
  lemma ThreeStageFewTitles(topic: string, rs: seq<SearchResult>)
    requires |StageKeyInfo(rs)| < 2
    ensures ThreeStageTimeline(topic, rs) == ThreeStageTimeline(topic, []) == StageByKeyword(topic)
  {
  }

  /** With two or more, the cause is the first surviving title, whatever the topic. */
  lemma ThreeStageFromTitles(topic: string, rs: seq<SearchResult>)
    requires |StageKeyInfo(rs)| >= 2
    ensures ThreeStageTimeline(topic, rs).cause == Take(StageKeyInfo(rs)[0], 40) + "成为关注焦点"
  {
  }

  /** The development clause naming a sale price and a purchase price names both, with "元". */
  lemma PriceGapNamesBoth(n0: string, n1: string)
    ensures Contains("网友热议'" + n0 + "元'售价与'" + n1 + "元'进价的价差", n0 + "元")
    ensures Contains("网友热议'" + n0 + "元'售价与'" + n1 + "元'进价的价差", n1 + "元")
  {
    var d := "网友热议'" + n0 + "元'售价与'" + n1 + "元'进价的价差";
    assert d == "网友热议'" + (n0 + "元") + ("'售价与'" + (n1 + "元") + "'进价的价差");
    assert d[5..5 + |n0 + "元"|] == n0 + "元";
    assert OccursAt(d, n0 + "元", 5);
    var j := 5 + |n0| + 6;
    assert d == ("网友热议'" + n0 + "元'售价与'") + (n1 + "元") + "'进价的价差";
    assert d[j..j + |n1 + "元"|] == n1 + "元";
    assert OccursAt(d, n1 + "元", j);
  }

  /** The pricing group with "羽绒服" and two numbers in the topic: the price-gap clause, uncut. */
  lemma PriceStageGap(topic: string)
    requires Contains(topic, "羽绒服")
    requires |FindNumbers(topic, 0)| >= 2
    requires |FindNumbers(topic, 0)[0]| + |FindNumbers(topic, 0)[1]| <= 82
    ensures PriceStage(topic).develop ==
            "网友热议'" + FindNumbers(topic, 0)[0] + "元'售价与'" + FindNumbers(topic, 0)[1] + "元'进价的价差"
  {
  }

  /**
   * The pricing branch with a down jacket in the topic: the first two numbers of the topic,
   * each followed by "元", are named in the development clause.
   */
  lemma PricingNamesNumbers(topic: string, rs: seq<SearchResult>)
    requires |StageKeyInfo(rs)| < 2
    requires Contains(topic, "羽绒服")
    requires |FindNumbers(topic, 0)| >= 2
    requires |FindNumbers(topic, 0)[0]| + |FindNumbers(topic, 0)[1]| <= 82
    ensures ThreeStageTimeline(topic, rs).develop ==
            "网友热议'" + FindNumbers(topic, 0)[0] + "元'售价与'" + FindNumbers(topic, 0)[1] + "元'进价的价差"
    ensures Contains(ThreeStageTimeline(topic, rs).develop, FindNumbers(topic, 0)[0] + "元")
    ensures Contains(ThreeStageTimeline(topic, rs).develop, FindNumbers(topic, 0)[1] + "元")
  {
    assert ContainsAny(topic, StagePriceWords) by {
      assert StagePriceWords[4] == "羽绒服";
    }
    assert ThreeStageTimeline(topic, rs) == PriceStage(topic);
    PriceStageGap(topic);
    PriceGapNamesBoth(FindNumbers(topic, 0)[0], FindNumbers(topic, 0)[1]);
  }

  /** The numbers of "胖东来羽绒服599元进价199元" from index 9 on: the purchase price. */
  lemma ExampleNumbersTail()
    ensures FindNumbers("胖东来羽绒服599元进价199元", 9) == ["199"]
  {
    var s := "胖东来羽绒服599元进价199元";
    FindNumbersSkip(s, 9, 12);
    DigitRunExact(s, 12, 3);
    assert NumberLen(s, 12) == 3;
    assert s[12..15] == "199";
    FindNumbersSkip(s, 15, 16);
  }

  /** `re.findall(r'\d+\.?\d*', "胖东来羽绒服599元进价199元")` is `['599', '199']`. */
  lemma ExampleNumbers()
    ensures FindNumbers("胖东来羽绒服599元进价199元", 0) == ["599", "199"]
  {
    FindNumbersSkip("胖东来羽绒服599元进价199元", 0, 6);
    ExampleNumbersHead();
    ExampleNumbersTail();
  }

  /** The first number of the example, read from its first digit. */
  lemma ExampleNumbersHead()
    ensures FindNumbers("胖东来羽绒服599元进价199元", 6) == ["599"] + FindNumbers("胖东来羽绒服599元进价199元", 9)
  {
    var s := "胖东来羽绒服599元进价199元";
    DigitRunExact(s, 6, 3);
    assert NumberLen(s, 6) == 3;
    assert s[6..9] == "599";
  }

  /** The brand `re.search` finds in "胖东来羽绒服599元进价199元" is the one it opens with. */
  lemma ExampleEntity()
    ensures Entity("胖东来羽绒服599元进价199元") == "胖东来"
  {
    var s := "胖东来羽绒服599元进价199元";
    assert OccursAt(s, "胖东来", 0);
    assert BrandAt(s, 0, 0) == Some("胖东来");
  }

  /**
   * "胖东来羽绒服599元进价199元": sale price 599, purchase price 199, brand 胖东来; the development
   * clause names "599元" and "199元".
   */
  lemma PricingExample(topic: string)
    requires topic == "胖东来羽绒服599元进价199元"
    ensures ThreeStageTimeline(topic, []) ==
            Stage(topic + "曝光，" + "胖东来" + "商品定价引发热议",
                  "网友热议'" + "599" + "元'售价与'" + "199" + "元'进价的价差",
                  "胖东来" + "回应舆论，公众关注商品定价透明度与商业利润")
    ensures Contains(ThreeStageTimeline(topic, []).develop, "599" + "元")
    ensures Contains(ThreeStageTimeline(topic, []).develop, "199" + "元")
  {
    ExampleNumbers();
    ExampleEntity();
    assert OccursAt(topic, "羽绒服", 3);
    assert ContainsAny(topic, StagePriceWords) by {
      assert StagePriceWords[0] == "胖东来" && OccursAt(topic, "胖东来", 0);
    }
    PricingNamesNumbers(topic, []);
  }

  /** One more search result: the kept titles of a longer prefix. */
  lemma StageKeysStep(rs: seq<SearchResult>, i: nat)
    requires i < |rs|
    ensures StageKeys(rs[..i + 1]) == StageKeys(rs[..i]) + StageKept(rs[i].title)
  {
    assert rs[..i + 1][..i] == rs[..i];
  }

  /** One step of the `key_info` loop of `generate_three_stage_timeline`. */
  method KeepStageTitle(keyInfo: seq<string>, title: string) returns (r: seq<string>)
    ensures r == keyInfo + StageKept(title)
  {
    r := keyInfo;
    if title != [] && |title| > 10 {
      var cleanTitle := Strip(CleanTitle(title));
      if |cleanTitle| > 8 && |cleanTitle| < 60 {
        r := r + [cleanTitle];
      }
    }
  }

  /** The `key_info` loop of `generate_three_stage_timeline`. */
  method CollectStageKeys(searchResults: seq<SearchResult>) returns (keyInfo: seq<string>)
    ensures keyInfo == StageKeyInfo(searchResults)
  {
    var first := Take(searchResults, 5);
    keyInfo := [];
    var i := 0;
    while i < |first|
      invariant 0 <= i <= |first|
      invariant keyInfo == StageKeys(first[..i])
    {
      StageKeysStep(first, i);
      keyInfo := KeepStageTitle(keyInfo, first[i].title);
      i := i + 1;
    }
    assert first[..i] == first;
  }

  /** `generate_three_stage_timeline`, with its `key_info` loop. */
  method GenerateThreeStageTimeline(topic: string, searchResults: seq<SearchResult>) returns (r: Stage)
    ensures r == ThreeStageTimeline(topic, searchResults)
  {
    if |searchResults| > 0 {
      var keyInfo := CollectStageKeys(searchResults);
      if |keyInfo| >= 2 {
        var causeText := Take(keyInfo[0], 40) + "成为关注焦点";
        var developText := "网友热议" + (if |keyInfo| > 1 then Take(keyInfo[1], 30) else "相关话题");
        var impactText := "事件持续发酵，" + (if |keyInfo| > 2 then Take(keyInfo[|keyInfo| - 1], 30) else "相关讨论") + "热度居高不下";
        return Stage(Take(causeText, 100), Take(developText, 100), Take(impactText, 100));
      }
    }
    r := StageByKeyword(topic);
  }
}
