/**
 * The standalone chatbot page: its own message list, the submit handler
 * with its delayed canned reply, and the keyword responder. The page keeps
 * its messages in component state, apart from the store's log. The delay is
 * modelled by a separate call delivering the reply; the clock is a
 * parameter `now`.
 */
module ChatbotPage {
  import opened Wrappers
  import opened Js

  datatype PageMessage = PageMessage(id: string, content: string, sender: string, time: nat)

  /** The four kinds of answer the responder gives. */
  datatype Topic = Budgeting | Saving | Investing | General

  const BudgetingReply: string := "The 50/30/20 budgeting rule suggests allocating 50% of your income to needs, 30% to wants, and 20% to savings and debt repayment. This creates a balanced approach to managing your finances."
  const SavingReply: string := "Based on typical spending patterns, you could save money by: 1) Reviewing subscription services you rarely use, 2) Meal planning to reduce food waste, 3) Using cashback or rewards credit cards for regular purchases."
  const InvestingReply: string := "For beginners, a good way to start investing is through index funds or ETFs that track the broader market. These provide diversification with lower fees. Consider starting with a small, regular investment to build the habit."
  const GeneralReply: string := "Thank you for your question. I can help with budgeting, saving strategies, investment advice, and general financial planning. Could you provide more details about your specific financial situation?"

  predicate MentionsBudget(q: string)
  {
    Includes(ToLower(q), "budget") || Includes(ToLower(q), "50/30/20")
  }

  predicate MentionsSaving(q: string)
  {
    Includes(ToLower(q), "save") || Includes(ToLower(q), "saving")
  }

  predicate MentionsInvesting(q: string)
  {
    Includes(ToLower(q), "invest") || Includes(ToLower(q), "investing")
  }

  /**
   * The topic getAIResponse answers: budgeting words win over saving words,
   * which win over investing words; anything else gets the general answer.
   */
  function TopicOf(query: string): (t: Topic)
    ensures t == Budgeting <==> MentionsBudget(query)
    ensures t == Saving <==> !MentionsBudget(query) && MentionsSaving(query)
    ensures t == Investing <==> !MentionsBudget(query) && !MentionsSaving(query) && MentionsInvesting(query)
    ensures t == General <==> !MentionsBudget(query) && !MentionsSaving(query) && !MentionsInvesting(query)
  {
    if MentionsBudget(query) then Budgeting
    else if MentionsSaving(query) then Saving
    else if MentionsInvesting(query) then Investing
    else General
  }

  function ReplyText(t: Topic): string
  {
    match t
    case Budgeting => BudgetingReply
    case Saving => SavingReply
    case Investing => InvestingReply
    case General => GeneralReply
  }

  /** getAIResponse: always one of the four fixed replies, the one of the query's topic. */
  function AiResponse(query: string): (r: string)
    ensures r == ReplyText(TopicOf(query))
    ensures r in {BudgetingReply, SavingReply, InvestingReply, GeneralReply}
  {
    ReplyText(TopicOf(query))
  }

  lemma {:induction false} LowerOfUpper(s: string)
    ensures ToLower(ToUpper(s)) == ToLower(s)
  {
    var a, b := ToLower(ToUpper(s)), ToLower(s);
    assert |a| == |b|;
    forall i | 0 <= i < |s|
      ensures a[i] == b[i]
    {
      var c := s[i];
      assert a[i] == LowerChar(UpperChar(c));
      if 'a' <= c <= 'z' {
        assert (UpperChar(c) as int + 32) as char == c;
      }
    }
  }

  /** The responder ignores case: the query in capitals gets the same answer. */
  lemma AiResponseIgnoresCase(query: string)
    ensures AiResponse(ToUpper(query)) == AiResponse(query)
    ensures AiResponse(ToLower(query)) == AiResponse(query)
  {
    LowerOfUpper(query);
    LowerOfLower(query);
    SameLowerSameTopic(ToUpper(query), query);
    SameLowerSameTopic(ToLower(query), query);
  }

  /** The topic depends only on the lower-cased query. */
  lemma SameLowerSameTopic(a: string, b: string)
    requires ToLower(a) == ToLower(b)
    ensures TopicOf(a) == TopicOf(b)
  {
  }

  lemma {:induction false} LowerOfLower(s: string)
    ensures ToLower(ToLower(s)) == ToLower(s)
  {
    var a, b := ToLower(ToLower(s)), ToLower(s);
    assert |a| == |b|;
    forall i | 0 <= i < |s|
      ensures a[i] == b[i]
    {
      assert a[i] == LowerChar(LowerChar(s[i]));
    }
  }

  /** A text that includes p + q includes p: a longer keyword implies its prefix. */
  lemma {:induction false} IncludesPrefixPart(s: string, p: string, q: string)
    requires Includes(s, p + q)
    ensures Includes(s, p)
    decreases |s|
  {
    if p + q <= s {
      assert (p + q)[..|p|] == p;
      assert s[..|p|] == p;
    } else {
      IncludesPrefixPart(s[1..], p, q);
    }
  }

  /** "investing" adds nothing to "invest": a query mentions investing iff it includes "invest". */
  lemma InvestingKeywordRedundant(query: string)
    ensures MentionsInvesting(query) <==> Includes(ToLower(query), "invest")
  {
    if Includes(ToLower(query), "investing") {
      assert "investing" == "invest" + "ing";
      IncludesPrefixPart(ToLower(query), "invest", "ing");
    }
  }

  /** The page's state. */
  class ChatbotPage {
    var inputValue: string
    var messages: seq<PageMessage>
    var showIntro: bool

    constructor ()
      ensures inputValue == "" && messages == [] && showIntro
    {
      inputValue, messages, showIntro := "", [], true;
    }

    method SetInputValue(text: string)
      modifies this`inputValue
      ensures inputValue == text
    {
      inputValue := text;
    }

    /**
     * handleSubmit: a blank input submits nothing. Otherwise the intro is
     * hidden, one user message with the input is appended, the input is
     * cleared, and the submitted text is returned as the query the delayed
     * reply answers.
     */
    method HandleSubmit(now: nat) returns (pending: Option<string>)
      modifies this`inputValue, this`messages, this`showIntro
      ensures IsBlank(old(inputValue)) ==>
        pending.None? && inputValue == old(inputValue) && messages == old(messages) && showIntro == old(showIntro)
      ensures !IsBlank(old(inputValue)) ==> pending == Some(old(inputValue)) && inputValue == "" && !showIntro
      ensures !IsBlank(old(inputValue)) ==>
        messages == old(messages) + [PageMessage(NatText(now), old(inputValue), "user", now)]
    {
      if IsBlank(inputValue) {
        return None;
      }
      showIntro := false;
      messages := messages + [PageMessage(NatText(now), inputValue, "user", now)];
      pending := Some(inputValue);
      inputValue := "";
    }

    /** The delayed reply: one ai message answering the submitted query. */
    method DeliverReply(query: string, now: nat)
      modifies this`messages
      ensures messages == old(messages) + [PageMessage(NatText(now + 1), AiResponse(query), "ai", now)]
    {
      messages := messages + [PageMessage(NatText(now + 1), AiResponse(query), "ai", now)];
    }

    /** handleExampleClick: only the input text changes. */
    method HandleExampleClick(text: string)
      modifies this`inputValue
      ensures inputValue == text
    {
      inputValue := text;
    }
  }
}
