/** The rule-based chatbot reply: a rule equal to the message wins; otherwise
    the rules are sorted by length, longest first (a stable sort), and the
    first one that occurs in the message gives the reply; otherwise a fixed
    apology. The rule table is the sequence of rows in primary-key order. */
module Chatbot {
  import opened Wrappers
  import opened Text

  datatype Rule = Rule(rule: string, response: string)

  const DefaultResponse: string := "죄송합니다. 제가 답변할 수 없는 내용입니다. 다른 질문을 해주세요."

  /** `filter(rule=msg).first()`: the earliest row whose rule is the message. */
  function FirstExact(rules: seq<Rule>, msg: string): (k: Option<nat>)
    ensures k.Some? ==> k.value < |rules| && rules[k.value].rule == msg
    ensures k.Some? ==> forall j :: 0 <= j < k.value ==> rules[j].rule != msg
    ensures k.None? ==> forall j :: 0 <= j < |rules| ==> rules[j].rule != msg
  {
    if rules == [] then None
    else if rules[0].rule == msg then Some(0)
    else match FirstExact(rules[1..], msg)
      case None => None
      case Some(k) => Some(k + 1)
  }

  /** Longest rule first. */
  predicate SortedDesc(s: seq<Rule>) {
    forall i, j :: 0 <= i < j < |s| ==> |s[j].rule| <= |s[i].rule|
  }

  /** Places `r` before the first element no longer than it, so that `r`
      stays ahead of the equally long rules that came after it. */
  function Insert(r: Rule, s: seq<Rule>): (t: seq<Rule>)
    ensures multiset(t) == multiset(s) + multiset{r}
    ensures |t| == |s| + 1 && (t[0] == r || (s != [] && t[0] == s[0]))
  {
    if s == [] || |s[0].rule| <= |r.rule| then [r] + s
    else
      assert s == [s[0]] + s[1..];
      [s[0]] + Insert(r, s[1..])
  }

  /** Inserting into a sorted sequence keeps it sorted. */
  lemma {:induction false} InsertKeepsSorted(r: Rule, s: seq<Rule>)
    requires SortedDesc(s)
    ensures SortedDesc(Insert(r, s))
  {
    if s != [] && |r.rule| < |s[0].rule| {
      var t' := Insert(r, s[1..]);
      InsertKeepsSorted(r, s[1..]);
      assert |t'[0].rule| <= |s[0].rule|;
      var t := [s[0]] + t';
      forall i, j | 0 <= i < j < |t| ensures |t[j].rule| <= |t[i].rule| {
        if i == 0 && j > 1 {
          assert t[j] == t'[j - 1];
          assert |t'[j - 1].rule| <= |t'[0].rule|;
        }
      }
    }
  }

  /** `sorted(rules, key=lambda x: len(x.rule), reverse=True)`: a stable
      sort, longest rule first. */
  function SortByLengthDesc(rules: seq<Rule>): (s: seq<Rule>)
    ensures SortedDesc(s)
    ensures multiset(s) == multiset(rules)
  {
    if rules == [] then []
    else
      assert rules == [rules[0]] + rules[1..];
      InsertKeepsSorted(rules[0], SortByLengthDesc(rules[1..]));
      Insert(rules[0], SortByLengthDesc(rules[1..]))
  }

  /** The scan: the first rule of `s` that occurs in the message. */
  function FirstContained(s: seq<Rule>, msg: string): (r: Option<Rule>)
    ensures r.Some? ==> r.value in s && Contains(msg, r.value.rule)
    ensures r.None? ==> forall x :: x in s ==> !Contains(msg, x.rule)
  {
    if s == [] then None
    else if Contains(msg, s[0].rule) then Some(s[0])
    else FirstContained(s[1..], msg)
  }

  /** `get_chatbot_response`. */
  function GetChatbotResponse(rules: seq<Rule>, msg: string): (reply: string)
    ensures reply == DefaultResponse || exists k :: 0 <= k < |rules| && reply == rules[k].response
  {
    match FirstExact(rules, msg)
    case Some(k) => rules[k].response
    case None =>
      match FirstContained(SortByLengthDesc(rules), msg)
      case Some(r) =>
        assert r in multiset(rules);
        r.response
      case None => DefaultResponse
  }

  // ---------------------------------------------------------------------
  // What the reply means, independently of the sort

  /** `k` is the rule the reply should come from: it occurs in the message,
      no occurring rule is longer, and every earlier occurring rule is
      shorter. */
  predicate IsBest(rules: seq<Rule>, msg: string, k: nat) {
    && k < |rules|
    && Contains(msg, rules[k].rule)
    && (forall j :: 0 <= j < |rules| && Contains(msg, rules[j].rule) ==> |rules[j].rule| <= |rules[k].rule|)
    && (forall j :: 0 <= j < k && Contains(msg, rules[j].rule) ==> |rules[j].rule| < |rules[k].rule|)
  }

  predicate NoneContained(rules: seq<Rule>, msg: string) {
    forall j :: 0 <= j < |rules| ==> !Contains(msg, rules[j].rule)
  }

  /** The earliest of the longest rules occurring in the message, found by a
      single pass from the end of the table. */
  function BestIndex(rules: seq<Rule>, msg: string): (k: Option<nat>)
    ensures k.None? <==> NoneContained(rules, msg)
    ensures k.Some? ==> IsBest(rules, msg, k.value)
  {
    if rules == [] then None
    else
      var rest := BestIndex(rules[1..], msg);
      assert forall j :: 1 <= j < |rules| ==> rules[j] == rules[1..][j - 1];
      if Contains(msg, rules[0].rule) && (rest.None? || |rules[rest.value + 1].rule| <= |rules[0].rule|) then
        Some(0)
      else if rest.Some? then Some(rest.value + 1)
      else None
  }

  /** Only one rule is the best. */
  lemma BestIsUnique(rules: seq<Rule>, msg: string, a: nat, b: nat)
    requires IsBest(rules, msg, a) && IsBest(rules, msg, b)
    ensures a == b
  {
  }

  /** Inserting one rule into a sorted sequence changes the scan's result
      only if that rule occurs and is at least as long as the previous
      winner. */
  lemma {:induction false} FirstContainedInsert(r: Rule, s: seq<Rule>, msg: string)
    requires SortedDesc(s)
    ensures var old_ := FirstContained(s, msg);
            FirstContained(Insert(r, s), msg)
            == if Contains(msg, r.rule) && (old_.None? || |old_.value.rule| <= |r.rule|) then Some(r) else old_
  {
    if s == [] || |s[0].rule| <= |r.rule| {
      var w := FirstContained(s, msg);
      if w.Some? {
        var i :| 0 <= i < |s| && s[i] == w.value;
        assert |s[i].rule| <= |s[0].rule|;
      }
    } else {
      assert SortedDesc(s[1..]);
      FirstContainedInsert(r, s[1..], msg);
    }
  }

  /** The stable sort followed by the scan picks exactly the best rule. */
  lemma {:induction false} ScanFindsBest(rules: seq<Rule>, msg: string)
    ensures FirstContained(SortByLengthDesc(rules), msg)
            == match BestIndex(rules, msg) case None => None case Some(k) => Some(rules[k])
  {
    if rules != [] {
      ScanFindsBest(rules[1..], msg);
      FirstContainedInsert(rules[0], SortByLengthDesc(rules[1..]), msg);
    }
  }

  /** The exact-match query never disagrees with the sorted scan: a rule
      equal to the message is as long as anything that occurs in it. */
  lemma ExactMatchIsBest(rules: seq<Rule>, msg: string)
    requires FirstExact(rules, msg).Some?
    ensures BestIndex(rules, msg) == FirstExact(rules, msg)
  {
    var k := FirstExact(rules, msg).value;
    forall j | 0 <= j < |rules| && Contains(msg, rules[j].rule)
      ensures |rules[j].rule| <= |rules[k].rule|
    {
      ContainsShorter(msg, rules[j].rule);
    }
    forall j | 0 <= j < k && Contains(msg, rules[j].rule)
      ensures |rules[j].rule| < |rules[k].rule|
    {
      ContainsShorter(msg, rules[j].rule);
      if |rules[j].rule| == |msg| {
        ContainsSameLength(msg, rules[j].rule);
      }
    }
    assert IsBest(rules, msg, k);
    BestIsUnique(rules, msg, k, BestIndex(rules, msg).value);
  }

  /** The reply is the response of the earliest among the longest rules
      that occur in the message, or the apology when none occurs. */
  lemma ReplyIsBestRule(rules: seq<Rule>, msg: string)
    ensures forall k: nat :: IsBest(rules, msg, k) ==> GetChatbotResponse(rules, msg) == rules[k].response
    ensures NoneContained(rules, msg) ==> GetChatbotResponse(rules, msg) == DefaultResponse
  {
    ScanFindsBest(rules, msg);
    if FirstExact(rules, msg).Some? {
      ExactMatchIsBest(rules, msg);
    }
    forall k: nat | IsBest(rules, msg, k)
      ensures GetChatbotResponse(rules, msg) == rules[k].response
    {
      BestIsUnique(rules, msg, k, BestIndex(rules, msg).value);
    }
  }
}
