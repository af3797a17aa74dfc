/** The canned assistant (src/lib/ai-mock.ts): a table of six keyword lists,
    each with a fixed reply, searched in order against the lower-cased
    message; the first entry with a keyword occurring in it answers, and a
    default reply covers every other message. */
module AiMock {
  import opened Text

  /** The seven fixed replies: one per table entry, and the default. */
  datatype Reply = Revenue | Churn | Customers | Team | Billing | Help | Fallback

  datatype MockResponse = MockResponse(keywords: seq<string>, reply: Reply)

  /** `mockResponses`, in table order. */
  const MockResponses: seq<MockResponse> := [
    MockResponse(["revenue", "mrr", "income", "sales", "earning"], Revenue),
    MockResponse(["churn", "retention", "leaving", "cancel", "lost"], Churn),
    MockResponse(["customer", "user", "client", "account"], Customers),
    MockResponse(["team", "member", "role", "performance", "employee"], Team),
    MockResponse(["billing", "invoice", "payment", "subscription", "plan", "pricing"], Billing),
    MockResponse(["help", "what can", "how to", "feature", "guide"], Help)
  ]

  /** The first fifteen characters of a reply, which already tell the
      replies apart. */
  function Opening(r: Reply): string {
    match r
    case Revenue => "Based on your c"
    case Churn => "Here's your chu"
    case Customers => "Here's your cus"
    case Team => "Here's your tea"
    case Billing => "Here's your bil"
    case Help => "I'm your AI ass"
    case Fallback => "Thank you for y"
  }

  /** The rest of a reply. */
  function Remainder(r: Reply): string {
    match r
    case Revenue =>
      "urrent data, here's my revenue analysis:\n\n**Key Findings:**\n- Your MRR has been growing steadily at approximately 8-12% month-over-month\n- The Pro plan tier is your strongest revenue driver, contributing ~45% of total MRR\n- Enterprise upgrades in the last quarter have accelerated growth\n\n**Recommendations:**\n1. Focus on converting Free tier users to Pro — your conversion rate is currently at 15%, industry average is 22%\n2. Consider offering annual billing discounts to reduce churn\n3. The Enterprise segment shows highest expansion revenue potential\n\nWould you like me to dive deeper into any specific area?"
    case Churn =>
      "rn analysis:\n\n**Current Churn Rate:** 2.4% monthly\n\n**At-Risk Customers Identified:**\n- 3 customers haven't logged in for 30+ days\n- 2 customers have downgraded their plans recently\n- 1 customer has submitted multiple support tickets\n\n**Churn Patterns:**\n- Most churn occurs in months 3-6 after signup\n- Free-to-Pro converts have 40% lower churn than direct Pro signups\n- Customers who use AI features have 60% better retention\n\n**Action Items:**\n1. Implement a re-engagement email sequence for inactive users\n2. Offer a personalized onboarding call for new Pro subscribers\n3. Create an early warning system based on usage patterns"
    case Customers =>
      "tomer overview:\n\n**Total Customers:** 50\n- Active: 35 (70%)\n- Inactive: 8 (16%)\n- Churned: 7 (14%)\n\n**Growth Trends:**\n- New customer acquisition is averaging 5-8 per month\n- Your best acquisition channel is organic search (42%)\n- Average customer lifetime value (CLV) is approximately $2,400\n\n**Segmentation Insights:**\n- Tech companies make up 60% of your customer base\n- Companies with 50-200 employees have the highest retention rate\n- The APAC region is your fastest-growing market\n\nWould you like me to create a detailed customer segmentation report?"
    case Team =>
      "m performance summary:\n\n**Team Overview:**\n- Total members: 3 active across your organization\n- Role distribution: 1 Admin, 1 Manager, 1 Member\n\n**Activity Metrics:**\n- Average daily active team members: 2.3\n- Most active hours: 9 AM - 12 PM (local time)\n- Feature adoption rate: 78% of available features used\n\n**Recommendations:**\n1. Consider adding more team members as your customer base grows\n2. The Manager role could benefit from additional analytics permissions\n3. Regular team syncs on customer health metrics improve response times by 35%"
    case Billing =>
      "ling summary:\n\n**Current Plan:** Pro\n- Monthly cost: $99/month\n- Next renewal: March 15, 2026\n\n**Invoice Status:**\n- Paid: 20 invoices ($4,820 total)\n- Pending: 6 invoices ($1,290 total)\n- Overdue: 4 invoices ($890 total)\n\n**Insights:**\n- 87% on-time payment rate\n- Average invoice amount: $233\n- Consider switching to annual billing to save 16%\n\n**Action Items:**\n1. Follow up on 4 overdue invoices\n2. Review Enterprise plan benefits — your usage suggests you'd benefit from the upgrade\n3. Set up automated payment reminders for pending invoices"
    case Help =>
      "istant for Nexus AI! Here's what I can help you with:\n\n**Analytics & Insights**\n- Revenue trend analysis and forecasting\n- Customer churn prediction and prevention\n- Team performance metrics\n\n**Data Analysis**\n- KPI breakdown and anomaly detection\n- Customer segmentation analysis\n- Growth opportunity identification\n\n**Recommendations**\n- Actionable business suggestions\n- Best practices for SaaS growth\n- Optimization strategies\n\nTry asking me things like:\n- *\"Analyze my revenue trends\"*\n- *\"Which customers are at risk of churning?\"*\n- *\"How is my team performing?\"*\n- *\"Review my billing status\"*\n\nWhat would you like to explore?"
    case Fallback =>
      "our question. Let me analyze your data...\n\n**Summary:**\nBased on the current metrics in your dashboard, your business is performing well overall. Here are some key observations:\n\n1. **Growth trajectory** is positive with consistent month-over-month improvements\n2. **Customer engagement** levels are above industry averages\n3. **Revenue per customer** has been steadily increasing\n\n**Suggestions:**\n- Monitor your churn rate closely — early intervention can save 30% of at-risk customers\n- Consider expanding your team to support the growing customer base\n- Review your pricing strategy quarterly to ensure market alignment\n\nWould you like me to focus on any specific aspect of your business?"
  }

  lemma OpeningLength(r: Reply)
    ensures |Opening(r)| == 15
  {
  }

  /** No two replies open alike: their first and fourteenth characters
      already differ. */
  lemma OpeningInjective(a: Reply, b: Reply)
    requires Opening(a) == Opening(b)
    ensures a == b
  {
    assert Opening(a)[0] == Opening(b)[0] && Opening(a)[13] == Opening(b)[13];
  }

  /** The text of a reply. */
  function ReplyText(r: Reply): (t: string)
    ensures |t| >= 15 && t[..15] == Opening(r)
  {
    OpeningLength(r);
    PrefixOfAppend(Opening(r), Remainder(r));
    Opening(r) + Remainder(r)
  }

  /** Different replies have different texts. */
  lemma ReplyTextInjective(a: Reply, b: Reply)
    requires ReplyText(a) == ReplyText(b)
    ensures a == b
  {
    OpeningInjective(a, b);
  }

  /** `keywords.some((kw) => lower.includes(kw))` */
  predicate AnyKeyword(keywords: seq<string>, lower: string) {
    exists k :: 0 <= k < |keywords| && Contains(lower, keywords[k])
  }

  /** Position of the first entry with a keyword occurring in `lower`, or the
      length of the table when there is none. */
  function FirstMatch(table: seq<MockResponse>, lower: string): (r: nat)
    ensures r <= |table|
    ensures forall j :: 0 <= j < r ==> !AnyKeyword(table[j].keywords, lower)
    ensures r < |table| ==> AnyKeyword(table[r].keywords, lower)
  {
    if table == [] then 0
    else if AnyKeyword(table[0].keywords, lower) then 0
    else 1 + FirstMatch(table[1..], lower)
  }

  /** The reply a table gives for a lower-cased message: that of its first
      matching entry, or the default. */
  function Lookup(table: seq<MockResponse>, lower: string): Reply {
    var i := FirstMatch(table, lower);
    if i < |table| then table[i].reply else Fallback
  }

  lemma LookupFirst(table: seq<MockResponse>, lower: string, i: nat)
    requires i < |table| && AnyKeyword(table[i].keywords, lower)
    requires forall j :: 0 <= j < i ==> !AnyKeyword(table[j].keywords, lower)
    ensures Lookup(table, lower) == table[i].reply
  {
    assert FirstMatch(table, lower) == i;
  }

  lemma LookupFallback(table: seq<MockResponse>, lower: string)
    requires forall i :: 0 <= i < |table| ==> table[i].reply != Fallback
    ensures Lookup(table, lower) == Fallback <==> forall i :: 0 <= i < |table| ==> !AnyKeyword(table[i].keywords, lower)
  {
  }

  /** Which reply a message gets. */
  function Respond(userMessage: string): Reply {
    Lookup(MockResponses, ToLower(userMessage))
  }

  /** `getMockAIResponse(userMessage)`: always one of the seven replies. */
  function GetMockAIResponse(userMessage: string): (r: string)
    ensures exists reply :: r == ReplyText(reply)
  {
    ReplyText(Respond(userMessage))
  }

  /** A message gets the text of a reply exactly when it is given that
      reply. */
  lemma TextOfReply(userMessage: string, reply: Reply)
    ensures GetMockAIResponse(userMessage) == ReplyText(reply) <==> Respond(userMessage) == reply
  {
    if GetMockAIResponse(userMessage) == ReplyText(reply) {
      ReplyTextInjective(Respond(userMessage), reply);
    }
  }

  /** The reply of entry `i` is given exactly when entry `i` matches and no
      earlier entry does. */
  lemma FirstMatchWins(userMessage: string, i: nat)
    requires i < |MockResponses|
    requires AnyKeyword(MockResponses[i].keywords, ToLower(userMessage))
    requires forall j :: 0 <= j < i ==> !AnyKeyword(MockResponses[j].keywords, ToLower(userMessage))
    ensures Respond(userMessage) == MockResponses[i].reply
    ensures GetMockAIResponse(userMessage) == ReplyText(MockResponses[i].reply)
  {
    LookupFirst(MockResponses, ToLower(userMessage), i);
    TextOfReply(userMessage, MockResponses[i].reply);
  }

  lemma NoFallbackInTable()
    ensures forall i :: 0 <= i < |MockResponses| ==> MockResponses[i].reply != Fallback
  {
  }

  /** No keyword of any entry occurs in `lower`. */
  predicate NoKeyword(lower: string) {
    forall i :: 0 <= i < |MockResponses| ==> !AnyKeyword(MockResponses[i].keywords, lower)
  }

  /** The default reply is given exactly when no keyword of any entry occurs
      in the lower-cased message. */
  lemma FallbackIffNoKeyword(userMessage: string)
    ensures Respond(userMessage) == Fallback <==> NoKeyword(ToLower(userMessage))
  {
    NoFallbackInTable();
    LookupFallback(MockResponses, ToLower(userMessage));
  }

  /** Matching ignores case: upper-casing or lower-casing the message does
      not change the reply. */
  lemma CaseInsensitive(userMessage: string)
    ensures GetMockAIResponse(ToUpper(userMessage)) == GetMockAIResponse(userMessage)
    ensures GetMockAIResponse(ToLower(userMessage)) == GetMockAIResponse(userMessage)
  {
    LowerOfUpper(userMessage);
    ToLowerIdempotent(userMessage);
  }

  /** Earlier entries win: a message mentioning revenue gets the revenue
      reply whatever else it mentions, customers included. */
  lemma RevenueBeatsCustomer(userMessage: string)
    requires Contains(ToLower(userMessage), "revenue")
    ensures Respond(userMessage) == Revenue
  {
    assert MockResponses[0].keywords[0] == "revenue";
    assert AnyKeyword(MockResponses[0].keywords, ToLower(userMessage));
    LookupFirst(MockResponses, ToLower(userMessage), 0);
  }
}
