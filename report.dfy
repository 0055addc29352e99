/**
 * The data behind the HTML report of weibo_hot_analyzer.py (`generate_html_report` and
 * `get_next_file_number`): the topics in descending order of total score, the score
 * distribution in three buckets, the report's file name with the next free sequence number
 * of the day, and for each topic the values its card shows. The HTML and CSS text around
 * these values is not modelled.
 */
module Report {
  import opened Wrappers
  import opened Text
  import opened Scoring
  import opened Idea
  import opened Timeline

  /** One entry of `hot_topics_with_analysis`. */
  datatype Row = Row(topic: string, rank: nat, hotScore: int, results: seq<SearchResult>,
                     analysis: Analysis)

  /** The sort key, `x['analysis']['scores']['total']`. */
  function Total(r: Row): int {
    r.analysis.scores.total
  }

  // ---------------------------------------------------------------------------
  // Sorting: `sorted(..., key=total, reverse=True)`, which is stable
  // ---------------------------------------------------------------------------

  /** Non-increasing totals. */
  predicate SortedDesc(s: seq<Row>) {
    forall i, j :: 0 <= i < j < |s| ==> Total(s[i]) >= Total(s[j])
  }

  /** The rows of total `v`, in their order in `s`. */
  function WithTotal(s: seq<Row>, v: int): seq<Row> {
    if s == [] then []
    else if Total(s[0]) == v then [s[0]] + WithTotal(s[1..], v)
    else WithTotal(s[1..], v)
  }

  /** `x` goes ahead of the first row whose total does not exceed its own. */
  function Insert(x: Row, t: seq<Row>): seq<Row>
    decreases |t|
  {
    if t == [] || Total(t[0]) <= Total(x) then [x] + t
    else [t[0]] + Insert(x, t[1..])
  }

  /** The report order: insertion of each row, from the last to the first, into the sorted rest. */
  function SortByTotal(s: seq<Row>): seq<Row>
    decreases |s|
  {
    if s == [] then [] else Insert(s[0], SortByTotal(s[1..]))
  }

  lemma {:induction false} InsertSorted(x: Row, t: seq<Row>)
    requires SortedDesc(t)
    ensures SortedDesc(Insert(x, t))
    ensures Insert(x, t)[0] == x || Insert(x, t)[0] == t[0]
    decreases |t|
  {
    if t != [] && Total(t[0]) > Total(x) {
      InsertSorted(x, t[1..]);
      var r := Insert(x, t[1..]);
      assert Insert(x, t) == [t[0]] + r;
      // r opens with x or t[1], neither above t[0], and r is sorted
      assert Total(r[0]) <= Total(t[0]);
      assert forall j :: 0 <= j < |r| ==> Total(r[0]) >= Total(r[j]);
    }
  }

  lemma {:induction false} InsertPermutes(x: Row, t: seq<Row>)
    ensures multiset(Insert(x, t)) == multiset{x} + multiset(t)
    decreases |t|
  {
    if t != [] && Total(t[0]) > Total(x) {
      InsertPermutes(x, t[1..]);
      assert t == [t[0]] + t[1..];
    }
  }

  /** Inserting `x` adds it in front of the rows that share its total and moves no other row of any total. */
  lemma {:induction false} InsertWithTotal(x: Row, t: seq<Row>, v: int)
    ensures WithTotal(Insert(x, t), v) == if Total(x) == v then [x] + WithTotal(t, v) else WithTotal(t, v)
    decreases |t|
  {
    if t == [] || Total(t[0]) <= Total(x) {
      assert ([x] + t)[1..] == t;
    } else {
      InsertWithTotal(x, t[1..], v);
      assert ([t[0]] + Insert(x, t[1..]))[1..] == Insert(x, t[1..]);
    }
  }

  /**
   * The report order is sorted by total, descending, is a permutation of the input, and is
   * stable: the rows of any one total appear in their input order.
   */
  lemma {:induction false} SortByTotalCorrect(s: seq<Row>)
    ensures SortedDesc(SortByTotal(s))
    ensures multiset(SortByTotal(s)) == multiset(s)
    ensures forall v :: WithTotal(SortByTotal(s), v) == WithTotal(s, v)
    ensures |SortByTotal(s)| == |s|
    decreases |s|
  {
    if s != [] {
      SortByTotalCorrect(s[1..]);
      InsertSorted(s[0], SortByTotal(s[1..]));
      InsertPermutes(s[0], SortByTotal(s[1..]));
      assert s == [s[0]] + s[1..];
      forall v ensures WithTotal(SortByTotal(s), v) == WithTotal(s, v) {
        InsertWithTotal(s[0], SortByTotal(s[1..]), v);
      }
      assert |SortByTotal(s)| == |multiset(SortByTotal(s))|;
    }
  }

  // ---------------------------------------------------------------------------
  // Score distribution
  // ---------------------------------------------------------------------------

  datatype Bucket = Excellent | Good | Average

  /** The source's three conditions: `total >= 80`, `60 <= total < 80`, `total < 60`. */
  function BucketOf(total: int): (b: Bucket)
    ensures b == Excellent <==> total >= 80
    ensures b == Good <==> 60 <= total < 80
    ensures b == Average <==> total < 60
  {
    if total >= 80 then Excellent else if total >= 60 then Good else Average
  }

  /** `sum(1 for t in rows if <condition of b>)` */
  function Count(rows: seq<Row>, b: Bucket): (n: nat)
    ensures n <= |rows|
  {
    if rows == [] then 0
    else (if BucketOf(Total(rows[0])) == b then 1 else 0) + Count(rows[1..], b)
  }

  /** Every topic lands in exactly one bucket: the three counts add up to the number of topics. */
  lemma {:induction false} BucketsPartition(rows: seq<Row>)
    ensures Count(rows, Excellent) + Count(rows, Good) + Count(rows, Average) == |rows|
  {
    if rows != [] {
      BucketsPartition(rows[1..]);
    }
  }

  lemma {:induction false} CountInsert(x: Row, t: seq<Row>, b: Bucket)
    ensures Count(Insert(x, t), b) == Count(t, b) + (if BucketOf(Total(x)) == b then 1 else 0)
    decreases |t|
  {
    if t == [] || Total(t[0]) <= Total(x) {
      assert ([x] + t)[1..] == t;
    } else {
      CountInsert(x, t[1..], b);
      assert ([t[0]] + Insert(x, t[1..]))[1..] == Insert(x, t[1..]);
    }
  }

  /** Counting over the sorted topics, as the source does, gives the counts of the input. */
  lemma {:induction false} CountSorted(s: seq<Row>, b: Bucket)
    ensures Count(SortByTotal(s), b) == Count(s, b)
    decreases |s|
  {
    if s != [] {
      CountSorted(s[1..], b);
      CountInsert(s[0], SortByTotal(s[1..]), b);
    }
  }

  // ---------------------------------------------------------------------------
  // File names and the next sequence number
  // ---------------------------------------------------------------------------

  /** `weibo_hot_{date}_`, the part of a report's name before its number. */
  function NamePrefix(date: string): string {
    "weibo_hot_" + date + "_"
  }

  /** `f"weibo_hot_{date_str}_{file_number}.html"` */
  function FileName(date: string, n: nat): string {
    NamePrefix(date) + NatToString(n) + ".html"
  }

  /** `output_dir.glob(f"weibo_hot_{date_str}_*.html")`, name by name. */
  predicate GlobMatches(name: string, date: string) {
    StartsWith(name, NamePrefix(date)) && EndsWith(name, ".html")
    && |name| >= |NamePrefix(date)| + 5
  }

  /**
   * The pattern `weibo_hot_{date}_(\d+)\.html` matched at index `p`, with its group read as
   * a number. The digit run is taken whole: a shorter run would be followed by a digit, not
   * by the period the pattern needs there.
   */
  function MatchAt(name: string, date: string, p: nat): (r: Option<nat>)
    requires p <= |name|
  {
    if !OccursAt(name, NamePrefix(date), p) then None
    else
      var q := p + |NamePrefix(date)|;
      var n := DigitRun(name, q);
      if n >= 1 && OccursAt(name, ".html", q + n) then Some(DigitsValue(name[q..q + n]))
      else None
  }

  /** `re.search`: the match at the leftmost index from `p` on where there is one. */
  function SearchFrom(name: string, date: string, p: nat): (r: Option<nat>)
    requires p <= |name|
    ensures r.Some? ==> exists q :: p <= q <= |name| && MatchAt(name, date, q) == r
    ensures r.None? ==> forall q :: p <= q <= |name| ==> MatchAt(name, date, q).None?
    decreases |name| - p
  {
    if MatchAt(name, date, p).Some? then MatchAt(name, date, p)
    else if p == |name| then None
    else SearchFrom(name, date, p + 1)
  }

  /**
   * `int(re.search(rf'weibo_hot_{date_str}_(\d+)\.html', name).group(1))`, or `None` when
   * the pattern does not occur. The date `strftime("%Y%m%d")` gives is all digits, so the
   * pattern matches it literally.
   */
  function ParseSuffix(name: string, date: string): Option<nat>
    requires AllDigits(date)
  {
    SearchFrom(name, date, 0)
  }

  /** The numbers the loop of `get_next_file_number` collects from the first `names`, in order. */
  function Suffixes(names: seq<string>, date: string): seq<nat>
    requires AllDigits(date)
  {
    if names == [] then []
    else
      var rest := Suffixes(names[..|names| - 1], date);
      var name := names[|names| - 1];
      if GlobMatches(name, date) && ParseSuffix(name, date).Some? then rest + [ParseSuffix(name, date).value]
      else rest
  }

  /** Python's `max` over a non-empty list. */
  function Max(s: seq<nat>): (m: nat)
    requires s != []
    ensures m in s && forall k :: 0 <= k < |s| ==> s[k] <= m
  {
    if |s| == 1 then s[0]
    else
      var m := Max(s[1..]);
      assert s[1..][0] in s[1..];
      if s[0] >= m then s[0] else m
  }

  /**
   * `max(numbers) + 1 if numbers else 1`: one past the largest number of the day's
   * existing reports, 1 for the first report of the day.
   */
  function NextNumber(names: seq<string>, date: string): (r: nat)
    requires AllDigits(date)
    ensures Suffixes(names, date) == [] ==> r == 1
    ensures forall k :: 0 <= k < |Suffixes(names, date)| ==> Suffixes(names, date)[k] < r
    ensures r == 1 || r - 1 in Suffixes(names, date)
  {
    var numbers := Suffixes(names, date);
    if numbers == [] then 1 else Max(numbers) + 1
  }

  /** `get_next_file_number`, given the names of the files in the output directory. */
  method NextFileNumber(date: string, names: seq<string>) returns (r: nat)
    requires AllDigits(date)
    ensures r == NextNumber(names, date)
  {
    var numbers: seq<nat> := [];
    var i := 0;
    while i < |names|
      invariant 0 <= i <= |names|
      invariant numbers == Suffixes(names[..i], date)
    {
      var name := names[i];
      assert names[..i + 1][..i] == names[..i];
      if GlobMatches(name, date) {
        var m := ParseSuffix(name, date);
        if m.Some? {
          numbers := numbers + [m.value];
        }
      }
      i := i + 1;
    }
    assert names[..|names|] == names;
    if numbers == [] {
      r := 1;
    } else {
      r := Max(numbers) + 1;
    }
  }

  /** The name a report is saved under is found again by the glob and the pattern, with its number. */
  lemma FileNameParses(date: string, n: nat)
    requires AllDigits(date)
    ensures GlobMatches(FileName(date, n), date)
    ensures ParseSuffix(FileName(date, n), date) == Some(n)
  {
    var pre, digits := NamePrefix(date), NatToString(n);
    var name := FileName(date, n);
    assert name[..|pre|] == pre;
    assert name[|name| - 5..] == ".html";
    assert name[|pre|..|pre| + |digits|] == digits;
    assert name[|pre| + |digits|..|pre| + |digits| + 5] == ".html";
    DigitRunExact(name, |pre|, |digits|);
    NatToStringRoundTrip(n);
    assert MatchAt(name, date, 0) == Some(n);
  }

  lemma {:induction false} SuffixesCollect(names: seq<string>, date: string, k: nat)
    requires AllDigits(date)
    requires k < |names| && GlobMatches(names[k], date) && ParseSuffix(names[k], date).Some?
    ensures ParseSuffix(names[k], date).value in Suffixes(names, date)
    decreases |names|
  {
    if k < |names| - 1 {
      SuffixesCollect(names[..|names| - 1], date, k);
    }
  }

  /** The next report never overwrites one of the day's existing reports. */
  lemma NextFileNameFresh(names: seq<string>, date: string)
    requires AllDigits(date)
    ensures FileName(date, NextNumber(names, date)) !in names
  {
    var n := NextNumber(names, date);
    if FileName(date, n) in names {
      var k :| 0 <= k < |names| && names[k] == FileName(date, n);
      FileNameParses(date, n);
      SuffixesCollect(names, date, k);
    }
  }

  // ---------------------------------------------------------------------------
  // The cards
  // ---------------------------------------------------------------------------

  /** What one topic's card shows. */
  datatype Card = Card(topic: string, rank: nat, heat: Option<int>, total: int, interest: int,
                       utility: int, name: string, features: string, targetUsers: string,
                       timeline: Stage)

  /**
   * The card's timeline as written: `analysis.get('search_results', [])` reads a key that no
   * analysis carries (the search results sit beside the analysis in the row), so the three
   * stages always come from the topic alone.
   */
  function CardTimelineAsWritten(row: Row): (r: Stage)
    ensures r == StageByKeyword(row.topic)
  {
    ThreeStageFewTitles(row.topic, []);
    ThreeStageTimeline(row.topic, [])
  }

  /** Corrected: the timeline is built from the row's own search results. */
  function CardTimeline(row: Row): (r: Stage)
    ensures |r.cause| <= 100 && |r.develop| <= 100 && |r.impact| <= 100
  {
    ThreeStageTimeline(row.topic, row.results)
  }

  /**
   * The discrepancy: as written, a row with two or more usable search titles still gets the
   * keyword stages, where the corrected card opens with the first title.
   */
  lemma CardTimelineIgnoresResults(row: Row)
    requires |StageKeyInfo(row.results)| >= 2
    ensures CardTimelineAsWritten(row) == StageByKeyword(row.topic)
    ensures CardTimeline(row).cause == Take(StageKeyInfo(row.results)[0], 40) + "成为关注焦点"
  {
    ThreeStageFromTitles(row.topic, row.results);
  }

  /** The values the card of `row` interpolates. */
  function CardOf(row: Row): (c: Card)
    ensures c.total == Total(row) && c.topic == row.topic && c.rank == row.rank
    ensures c.heat.Some? <==> row.hotScore > 0
    ensures c.timeline == CardTimeline(row)
  {
    var s := row.analysis.scores;
    Card(row.topic, row.rank, if row.hotScore > 0 then Some(row.hotScore) else None,
         s.total, s.interest, s.utility, row.analysis.name,
         Join("; ", Take(row.analysis.coreFeatures, 3)), row.analysis.targetUsers,
         CardTimeline(row))
  }

  /** What `generate_html_report` returns and fills in, without the markup. */
  datatype ReportData = ReportData(fileName: string, count: nat, excellent: nat, good: nat,
                                   average: nat, cards: seq<Card>)

  /** What the report needs of the sorted order: sorted, as long as the input, the same counts. */
  lemma SortedReportFacts(rows: seq<Row>)
    ensures SortedDesc(SortByTotal(rows)) && |SortByTotal(rows)| == |rows|
    ensures Count(SortByTotal(rows), Excellent) == Count(rows, Excellent)
    ensures Count(SortByTotal(rows), Good) == Count(rows, Good)
    ensures Count(SortByTotal(rows), Average) == Count(rows, Average)
    ensures Count(rows, Excellent) + Count(rows, Good) + Count(rows, Average) == |rows|
  {
    SortByTotalCorrect(rows);
    CountSorted(rows, Excellent);
    CountSorted(rows, Good);
    CountSorted(rows, Average);
    BucketsPartition(rows);
  }

  /** The card loop: `html += ...` once per topic, in the sorted order. */
  method BuildCards(sorted: seq<Row>) returns (cards: seq<Card>)
    ensures |cards| == |sorted|
    ensures forall i :: 0 <= i < |sorted| ==> cards[i] == CardOf(sorted[i])
  {
    cards := [];
    for i := 0 to |sorted|
      invariant |cards| == i
      invariant forall k :: 0 <= k < i ==> cards[k] == CardOf(sorted[k])
    {
      cards := AppendCard(cards, sorted[i]);
    }
  }

  /**
   * The body of the card loop, one `html += f"""...card..."""` step, kept apart so that the
   * loop's proof sees only this equation; it has no contract of its own to speak of.
   */
  method AppendCard(cards: seq<Card>, row: Row) returns (r: seq<Card>)
    ensures r == cards + [CardOf(row)]
  {
    r := cards + [CardOf(row)];
  }

  /**
   * `generate_html_report`: the file name with the next free number, the bucket counts, and
   * one card per topic, in descending order of total.
   */
  method GenerateHtmlReport(rows: seq<Row>, date: string, names: seq<string>) returns (r: ReportData)
    requires AllDigits(date)
    ensures r.fileName == FileName(date, NextNumber(names, date))
    ensures r.fileName !in names
    ensures r.count == |rows| == |r.cards| == |SortByTotal(rows)|
    ensures r.excellent == Count(rows, Excellent) && r.good == Count(rows, Good)
    ensures r.average == Count(rows, Average)
    ensures r.excellent + r.good + r.average == r.count
    ensures forall i :: 0 <= i < |r.cards| ==> r.cards[i] == CardOf(SortByTotal(rows)[i])
    ensures forall i, j :: 0 <= i < j < |r.cards| ==> r.cards[i].total >= r.cards[j].total
  {
    var sorted := SortByTotal(rows);
    SortedReportFacts(rows);
    var excellent, good, average := Count(sorted, Excellent), Count(sorted, Good), Count(sorted, Average);
    var fileNumber := NextFileNumber(date, names);
    NextFileNameFresh(names, date);
    var cards := BuildCards(sorted);
    r := ReportData(FileName(date, fileNumber), |sorted|, excellent, good, average, cards);
  }
}
