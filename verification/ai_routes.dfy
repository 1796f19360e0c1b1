/**
 * The two computations of `ai_assistant/routes.py` that are not plumbing:
 * the keyword classifier of the smart-insights endpoint and the usage
 * analytics. Lower-casing is ASCII.
 */
module AiRoutes {
  import opened Wrappers
  import Folds
  import Ratios

  datatype QueryType = BusinessInsights | InvoiceQuery | CustomerQuery | FinancialAnalysis | Prediction | General

  /** `insight_queries`, in insertion order. */
  const InsightQueries: seq<(string, QueryType)> := [
    ("top customers", CustomerQuery),
    ("revenue analysis", FinancialAnalysis),
    ("payment status", InvoiceQuery),
    ("business growth", BusinessInsights),
    ("overdue invoices", InvoiceQuery),
    ("customer trends", CustomerQuery),
    ("profit analysis", FinancialAnalysis)
  ]

  function LowerChar(c: char): char {
    if 'A' <= c <= 'Z' then (c as int - 'A' as int + 'a' as int) as char else c
  }

  /** `str.lower()` on ASCII letters. */
  function Lower(s: string): (r: string)
    ensures |r| == |s|
    ensures forall i :: 0 <= i < |s| ==> r[i] == LowerChar(s[i])
  {
    if s == [] then [] else [LowerChar(s[0])] + Lower(s[1..])
  }

  /** Lower-casing twice is lower-casing once. */
  lemma LowerIdempotent(s: string)
    ensures Lower(Lower(s)) == Lower(s)
  {
  }

  /** The needle occurs in the text at position `i`. */
  predicate OccursAt(hay: string, needle: string, i: int) {
    0 <= i && i + |needle| <= |hay| && hay[i..i + |needle|] == needle
  }

  /** `needle in hay`, trying start positions from the left. */
  function Contains(hay: string, needle: string): bool {
    if |needle| <= |hay| && hay[..|needle|] == needle then true
    else if hay == [] then false
    else Contains(hay[1..], needle)
  }

  /** `Contains` is substring search: it holds exactly when the needle occurs at some position. */
  lemma {:induction false} ContainsOccurs(hay: string, needle: string)
    ensures Contains(hay, needle) <==> exists i :: OccursAt(hay, needle, i)
  {
    if |needle| <= |hay| && hay[..|needle|] == needle {
      assert OccursAt(hay, needle, 0);
    } else if hay == [] {
    } else {
      ContainsOccurs(hay[1..], needle);
      if Contains(hay, needle) {
        var i :| OccursAt(hay[1..], needle, i);
        assert hay[i + 1..i + 1 + |needle|] == hay[1..][i..i + |needle|];
        assert OccursAt(hay, needle, i + 1);
      } else {
        if |needle| <= |hay| {
          assert hay[0..0 + |needle|] == hay[..|needle|];
        }
        assert !OccursAt(hay, needle, 0);
        forall i | OccursAt(hay, needle, i) && i >= 1 ensures OccursAt(hay[1..], needle, i - 1) {
          assert hay[1..][i - 1..i - 1 + |needle|] == hay[i..i + |needle|];
        }
      }
    }
  }

  /** The type of the first keyword, in table order, that occurs in the text; business insights when none does. */
  function FirstMatch(text: string, table: seq<(string, QueryType)>): QueryType {
    if table == [] then BusinessInsights
    else if Contains(text, table[0].0) then table[0].1
    else FirstMatch(text, table[1..])
  }

  /**
   * The classifier of `get_smart_insights`: the query is lower-cased and
   * the table scanned in order, stopping at the first keyword it contains.
   */
  method ClassifyQuery(query: string) returns (t: QueryType)
    ensures t == FirstMatch(Lower(query), InsightQueries)
    ensures t in {CustomerQuery, FinancialAnalysis, InvoiceQuery, BusinessInsights}
    ensures (forall j :: 0 <= j < |InsightQueries| ==> !Contains(Lower(query), InsightQueries[j].0)) ==> t == BusinessInsights
  {
    t := BusinessInsights;
    var text := Lower(query);
    var i := 0;
    while i < |InsightQueries|
      invariant 0 <= i <= |InsightQueries|
      invariant FirstMatch(text, InsightQueries) == FirstMatch(text, InsightQueries[i..])
      invariant forall j :: 0 <= j < i ==> !Contains(text, InsightQueries[j].0)
    {
      if Contains(text, InsightQueries[i].0) {
        t := InsightQueries[i].1;
        break;
      }
      assert InsightQueries[i..][1..] == InsightQueries[i + 1..];
      i := i + 1;
    }
    FirstMatchIsListed(text, InsightQueries);
  }

  /**
   * The result is the type of the entry whose keyword occurs with no
   * earlier keyword occurring, or business insights when no entry matches.
   */
  lemma {:induction false} FirstMatchIsListed(text: string, table: seq<(string, QueryType)>)
    ensures (forall j :: 0 <= j < |table| ==> !Contains(text, table[j].0)) ==> FirstMatch(text, table) == BusinessInsights
    ensures forall k :: 0 <= k < |table| && Contains(text, table[k].0) && (forall j :: 0 <= j < k ==> !Contains(text, table[j].0)) ==>
      FirstMatch(text, table) == table[k].1
    ensures FirstMatch(text, table) == BusinessInsights || exists k :: 0 <= k < |table| && table[k].1 == FirstMatch(text, table)
  {
    if table != [] && !Contains(text, table[0].0) {
      var rest := table[1..];
      FirstMatchIsListed(text, rest);
      if FirstMatch(text, table) != BusinessInsights {
        var k :| 0 <= k < |rest| && rest[k].1 == FirstMatch(text, table);
        assert table[k + 1].1 == FirstMatch(text, table);
      }
      forall k | 0 <= k < |table| && Contains(text, table[k].0) && (forall j :: 0 <= j < k ==> !Contains(text, table[j].0))
        ensures FirstMatch(text, table) == table[k].1
      {
        assert k != 0;
        assert rest[k - 1] == table[k];
        forall j | 0 <= j < k - 1 ensures !Contains(text, rest[j].0) {
          assert rest[j] == table[j + 1];
        }
      }
    }
  }

  /** An earlier keyword wins: a query mentioning top customers is a customer query, whatever else it mentions. */
  lemma TopCustomersWins(query: string)
    requires Contains(Lower(query), "top customers")
    ensures FirstMatch(Lower(query), InsightQueries) == CustomerQuery
  {
  }

  /** Case does not matter: a query and its lower-cased form get the same type. */
  lemma ClassifierIgnoresCase(query: string)
    ensures FirstMatch(Lower(Lower(query)), InsightQueries) == FirstMatch(Lower(query), InsightQueries)
  {
    LowerIdempotent(query);
  }

  // ---------------------------------------------------------------------
  // Usage analytics

  /** A stored `ai_responses` document: owner, helpfulness flag and processing time, either of which may be missing. */
  datatype AiResponse = AiResponse(userId: string, isHelpful: Option<bool>, processingTime: Option<real>)

  datatype AiAnalytics = AiAnalytics(
    totalQueries: int,
    helpfulQueries: int,
    satisfactionRate: real,
    averageResponseTime: Option<real>)

  function ResponsesOf(u: string): AiResponse -> bool {
    (r: AiResponse) => r.userId == u
  }

  function HelpfulOf(u: string): AiResponse -> bool {
    (r: AiResponse) => r.userId == u && r.isHelpful == Some(true)
  }

  function TimedOf(u: string): AiResponse -> bool {
    (r: AiResponse) => r.userId == u && r.processingTime.Some?
  }

  function Time(r: AiResponse): real {
    if r.processingTime.Some? then r.processingTime.value else 0.0
  }

  /**
   * `$avg` of `processing_time` over the user's responses: it skips
   * documents without the field and is null when none has it.
   */
  function AverageTime(responses: seq<AiResponse>, u: string): Option<real> {
    var timed := Folds.Filter(responses, TimedOf(u));
    if timed == [] then None else Some(Ratios.Average(Folds.Sum(timed, Time), |timed|))
  }

  /**
   * The average is null exactly when none of the user's responses carries a
   * processing time, so a user with queries can still see a null average.
   */
  lemma AverageTimeNull(responses: seq<AiResponse>, u: string)
    ensures AverageTime(responses, u).None? <==>
      forall i :: 0 <= i < |responses| ==> responses[i].userId != u || responses[i].processingTime.None?
  {
    var timed := Folds.Filter(responses, TimedOf(u));
    Folds.FilterMembers(responses, TimedOf(u));
    if timed != [] {
      var k :| 0 <= k < |responses| && responses[k] == timed[0];
      assert TimedOf(u)(responses[k]);
    }
  }

  /** Every helpful response is one of the user's responses. */
  lemma HelpfulAmongQueries(responses: seq<AiResponse>, u: string)
    ensures |Folds.Filter(responses, HelpfulOf(u))| <= |Folds.Filter(responses, ResponsesOf(u))|
  {
    Folds.FilterNarrower(responses, HelpfulOf(u), ResponsesOf(u));
  }

  /** `helpful / total * 100`, or 0 without queries. */
  function SatisfactionRate(helpful: int, total: int): (r: real)
    requires 0 <= helpful <= total
    ensures 0.0 <= r <= 100.0
    ensures total > 0 ==> r * total as real == helpful as real * 100.0
    ensures total == 0 ==> r == 0.0
  {
    Ratios.Percent(helpful as real, total as real)
  }

  /**
   * `get_ai_analytics`: the user's query count, the helpful count, their
   * percentage, and the average processing time, which stays 0 without
   * queries.
   */
  function GetAiAnalytics(responses: seq<AiResponse>, u: string): (r: AiAnalytics)
    ensures r.totalQueries == |Folds.Filter(responses, ResponsesOf(u))|
    ensures r.helpfulQueries == |Folds.Filter(responses, HelpfulOf(u))|
    ensures 0 <= r.helpfulQueries <= r.totalQueries
    ensures r.satisfactionRate == SatisfactionRate(r.helpfulQueries, r.totalQueries)
    ensures r.totalQueries == 0 ==> r.averageResponseTime == Some(0.0)
    ensures r.totalQueries > 0 ==> r.averageResponseTime == AverageTime(responses, u)
  {
    var total := |Folds.Filter(responses, ResponsesOf(u))|;
    var helpful := |Folds.Filter(responses, HelpfulOf(u))|;
    HelpfulAmongQueries(responses, u);
    AiAnalytics(total, helpful, SatisfactionRate(helpful, total),
      if total > 0 then AverageTime(responses, u) else Some(0.0))
  }
}
