/** The two-stage tip decision of server/index.js: `identifyTipOpportunity`
    asks the advisor whether a tip is due, `generateTip` asks for the tip and
    parses the reply. The advisor is a function from request to reply; the
    JSON decoder of the reply's object span is a partial function. */
module TipDecision {
  import opened Text
  import opened Wrappers
  import opened Conversation
  import opened Prompt

  /** What a chat completion call gives back: the message content, or a
      failure (network, quota, a reply without content). */
  datatype Reply = Ok(content: string) | Fail

  datatype Tip = Tip(text: string, severity: string)

  const Yes: string := "Sim"
  const No: string := "Não"
  const Normal: string := "normal"
  const UnavailableText: string := "Não foi possível gerar uma dica neste momento."

  /** Stage 1. Fewer than two entries, or a failed call, answer "Não";
      otherwise the answer is the trimmed reply. */
  function IdentifyTipOpportunity(conv: seq<Entry>, advisor: Request -> Reply): (answer: string)
    ensures |conv| < 2 ==> answer == No
    ensures |conv| >= 2 && advisor(DetectionRequest(conv)).Fail? ==> answer == No
    ensures |conv| >= 2 && advisor(DetectionRequest(conv)).Ok? ==>
              answer == Trim(advisor(DetectionRequest(conv)).content)
  {
    if |conv| < 2 then No
    else
      match advisor(DetectionRequest(conv))
      case Fail => No
      case Ok(content) => Trim(content)
  }

  /** The index of the first `c` in `s`, where the match can start. */
  function FirstIndex(s: string, c: char): (r: Option<nat>)
    ensures r.Some? ==> r.value < |s| && s[r.value] == c
    ensures r.Some? ==> forall k :: 0 <= k < r.value ==> s[k] != c
    ensures r.None? ==> c !in s
  {
    if |s| == 0 then None
    else if s[0] == c then Some(0)
    else
      match FirstIndex(s[1..], c)
      case None => None
      case Some(i) => Some(i + 1)
  }

  /** The index of the last `c` in `s`, where the match can end. */
  function LastIndex(s: string, c: char): (r: Option<nat>)
    ensures r.Some? ==> r.value < |s| && s[r.value] == c
    ensures r.Some? ==> forall k :: r.value < k < |s| ==> s[k] != c
    ensures r.None? ==> c !in s
  {
    if |s| == 0 then None
    else if s[|s| - 1] == c then Some(|s| - 1)
    else LastIndex(s[..|s| - 1], c)
  }

  /** `s[i..j]` (inclusive) is a candidate match of `/\{[\s\S]*\}/`: it opens
      with `{` and closes with a later `}`. */
  predicate IsBraceSpan(s: string, i: nat, j: nat)
  {
    i < j < |s| && s[i] == '{' && s[j] == '}'
  }

  /** Where `content.match(/\{[\s\S]*\}/)` matches. The regular expression is
      greedy and unanchored, so the match starts at the leftmost possible `{`
      and ends at the rightmost `}`; it is not a balanced-brace match. No
      match exists exactly when no `}` follows any `{`. */
  function MatchBounds(s: string): (r: Option<(nat, nat)>)
    ensures r.Some? ==> IsBraceSpan(s, r.value.0, r.value.1)
    ensures r.Some? ==> forall i: nat, j: nat :: IsBraceSpan(s, i, j) ==> r.value.0 <= i && j <= r.value.1
    ensures r.None? ==> forall i: nat, j: nat :: !IsBraceSpan(s, i, j)
  {
    match FirstIndex(s, '{')
    case None => None
    case Some(i) =>
      match LastIndex(s, '}')
      case None => None
      case Some(j) => if i < j then Some((i, j)) else None
  }

  /** `jsonMatch[0]`: the matched text, when there is a match. */
  function BraceSpan(s: string): (r: Option<string>)
    ensures r.Some? ==> |r.value| >= 2 && r.value[0] == '{' && r.value[|r.value| - 1] == '}'
    ensures r.None? <==> MatchBounds(s).None?
    ensures r.Some? ==> r.value == s[MatchBounds(s).value.0..MatchBounds(s).value.1 + 1]
  {
    match MatchBounds(s)
    case None => None
    case Some((i, j)) => Some(s[i..j + 1])
  }

  /** A reply that is one object from end to end is matched whole. */
  lemma BraceSpanWhole(s: string)
    requires |s| >= 2 && s[0] == '{' && s[|s| - 1] == '}'
    ensures BraceSpan(s) == Some(s)
  {
    assert IsBraceSpan(s, 0, |s| - 1);
    assert s[0..|s|] == s;
  }

  /** The match runs to the last `}`, past the end of the first object. */
  lemma BraceSpanIsGreedy()
    ensures BraceSpan("{a} {b}") == Some("{a} {b}")
  {
    BraceSpanWhole("{a} {b}");
  }

  /** Parsing a trimmed stage-2 reply: the decoded object when the span
      exists and decodes, otherwise the reply itself as a "normal" tip. */
  function ParseTip(content: string, decode: string -> Option<Tip>): (t: Tip)
    ensures BraceSpan(content).Some? && decode(BraceSpan(content).value).Some? ==>
              t == decode(BraceSpan(content).value).value
    ensures BraceSpan(content).None? || decode(BraceSpan(content).value).None? ==>
              t == Tip(content, Normal)
  {
    match BraceSpan(content)
    case None => Tip(content, Normal)
    case Some(span) =>
      match decode(span)
      case Some(decoded) => decoded
      case None => Tip(content, Normal)
  }

  /** Stage 2. A failed call gives the fixed "no tip available" text; a
      reply is trimmed and parsed. */
  function GenerateTip(conv: seq<Entry>, advisor: Request -> Reply, decode: string -> Option<Tip>): (t: Tip)
    ensures advisor(TipRequest(conv)).Fail? ==> t == Tip(UnavailableText, Normal)
    ensures advisor(TipRequest(conv)).Ok? ==>
              t == ParseTip(Trim(advisor(TipRequest(conv)).content), decode)
  {
    match advisor(TipRequest(conv))
    case Fail => Tip(UnavailableText, Normal)
    case Ok(content) => ParseTip(Trim(content), decode)
  }

  /** Every stage-2 outcome is the decoded object, the trimmed reply at
      severity "normal", or the fixed fallback at severity "normal". */
  lemma GenerateTipOutcomes(conv: seq<Entry>, advisor: Request -> Reply, decode: string -> Option<Tip>)
    ensures var t := GenerateTip(conv, advisor, decode);
            || t == Tip(UnavailableText, Normal)
            || (advisor(TipRequest(conv)).Ok? && t == Tip(Trim(advisor(TipRequest(conv)).content), Normal))
            || (advisor(TipRequest(conv)).Ok? && BraceSpan(Trim(advisor(TipRequest(conv)).content)).Some?
                && decode(BraceSpan(Trim(advisor(TipRequest(conv)).content)).value) == Some(t))
  {
  }

  /** A reply that is a JSON object (after trimming) and decodes is delivered
      exactly as decoded, severity included. */
  lemma {:induction false} WellFormedReplyDecoded(conv: seq<Entry>, advisor: Request -> Reply,
                                                  decode: string -> Option<Tip>, tip: Tip)
    requires advisor(TipRequest(conv)).Ok?
    requires var c := Trim(advisor(TipRequest(conv)).content);
             |c| >= 2 && c[0] == '{' && c[|c| - 1] == '}' && decode(c) == Some(tip)
    ensures GenerateTip(conv, advisor, decode) == tip
  {
    BraceSpanWhole(Trim(advisor(TipRequest(conv)).content));
  }

  /** The advisor calls one final transcript causes, in order, and the tip
      (if any) they produce. */
  datatype Decision = Decision(calls: seq<Request>, tip: Option<Tip>)

  /** `identifyTipOpportunity`, then `generateTip` only on the exact answer
      "Sim". */
  function Decide(conv: seq<Entry>, advisor: Request -> Reply, decode: string -> Option<Tip>): (d: Decision)
    ensures |conv| < 2 ==> d == Decision([], None)
    ensures |conv| >= 2 ==> 1 <= |d.calls| && d.calls[0] == DetectionRequest(conv)
    ensures |d.calls| <= 2
    ensures d.tip.Some? <==> |d.calls| == 2
    ensures d.tip.Some? <==>
              (|conv| >= 2 && advisor(DetectionRequest(conv)).Ok?
               && Trim(advisor(DetectionRequest(conv)).content) == Yes)
    ensures d.tip.Some? ==>
              d.calls[1] == TipRequest(conv) && d.tip.value == GenerateTip(conv, advisor, decode)
  {
    if |conv| < 2 then Decision([], None)
    else if IdentifyTipOpportunity(conv, advisor) == Yes then
      Decision([DetectionRequest(conv), TipRequest(conv)], Some(GenerateTip(conv, advisor, decode)))
    else
      Decision([DetectionRequest(conv)], None)
  }

  /** End to end: with at least two entries, a "Sim" answer (up to spaces)
      and a stage-2 reply that is one decodable object, the decision makes
      both calls and delivers the decoded tip. */
  lemma YesThenObjectGivesTip(conv: seq<Entry>, advisor: Request -> Reply,
                              decode: string -> Option<Tip>, tip: Tip)
    requires |conv| >= 2
    requires advisor(DetectionRequest(conv)).Ok? && Trim(advisor(DetectionRequest(conv)).content) == Yes
    requires advisor(TipRequest(conv)).Ok?
    requires var c := Trim(advisor(TipRequest(conv)).content);
             |c| >= 2 && c[0] == '{' && c[|c| - 1] == '}' && decode(c) == Some(tip)
    ensures Decide(conv, advisor, decode) == Decision([DetectionRequest(conv), TipRequest(conv)], Some(tip))
  {
    WellFormedReplyDecoded(conv, advisor, decode, tip);
  }
}
