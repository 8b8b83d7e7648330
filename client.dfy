/** The browser application's state in src/App.jsx: what each server message
    does to the conversation, the current tip and the sales step, and what
    `resetConversation` does. */
module ClientApp {
  import opened Text
  import opened Wrappers
  import opened Protocol

  /** An item of `conversation`; `id` is the `Date.now()` at arrival. */
  datatype ConversationItem = ConversationItem(id: int, role: string, text: string)

  /** `currentTip`; `id` is the `Date.now()` at arrival. */
  datatype CurrentTip = CurrentTip(id: int, text: string, severity: string)

  /** The sales steps run from 1 to 7. */
  predicate IsStep(n: int)
  {
    1 <= n <= 7
  }

  /** The step a tip points to, from keywords in its lower-cased text, tested
      in a fixed order; the first hit wins and no hit keeps `current`. */
  function InferStep(text: string, current: int): (step: int)
    ensures IsStep(current) ==> IsStep(step)
    ensures Includes(ToLower(text), "abordagem") || Includes(ToLower(text), "contato inicial") ==> step == 1
  {
    var lower := ToLower(text);
    if Includes(lower, "abordagem") || Includes(lower, "contato inicial") then 1
    else if Includes(lower, "qualificação") then 2
    else if Includes(lower, "apresentação") || Includes(lower, "demonstração") then 3
    else if Includes(lower, "objeções") then 4
    else if Includes(lower, "negociação") then 5
    else if Includes(lower, "fechamento") then 6
    else if Includes(lower, "pós-venda") then 7
    else current
  }

  /** Reference table of the chain: each row's keywords and the step they
      select, in the order they are tried. */
  const StepKeywords: seq<(seq<string>, int)> := [
    (["abordagem", "contato inicial"], 1),
    (["qualificação"], 2),
    (["apresentação", "demonstração"], 3),
    (["objeções"], 4),
    (["negociação"], 5),
    (["fechamento"], 6),
    (["pós-venda"], 7)
  ]

  /** Some keyword of `keys` occurs in `s`. */
  predicate AnyIncluded(s: string, keys: seq<string>)
  {
    exists k :: 0 <= k < |keys| && Includes(s, keys[k])
  }

  /** The step of the first row whose keywords occur in `s`. */
  function FirstMatch(s: string, rows: seq<(seq<string>, int)>): (r: Option<int>)
    ensures r.None? <==> forall q :: 0 <= q < |rows| ==> !AnyIncluded(s, rows[q].0)
  {
    if rows == [] then None
    else if AnyIncluded(s, rows[0].0) then Some(rows[0].1)
    else
      var r := FirstMatch(s, rows[1..]);
      assert forall q :: 1 <= q < |rows| ==> rows[q] == rows[1..][q - 1];
      r
  }

  /** The first matching row decides, whatever later rows also match. */
  lemma {:induction false} FirstMatchAt(s: string, rows: seq<(seq<string>, int)>, r: nat)
    requires r < |rows| && AnyIncluded(s, rows[r].0)
    requires forall q :: 0 <= q < r ==> !AnyIncluded(s, rows[q].0)
    ensures FirstMatch(s, rows) == Some(rows[r].1)
  {
    if r > 0 {
      assert !AnyIncluded(s, rows[0].0);
      assert rows[1..][r - 1] == rows[r];
      FirstMatchAt(s, rows[1..], r - 1);
    }
  }

  lemma AnyIncludedTwo(s: string, a: string, b: string)
    ensures AnyIncluded(s, [a, b]) <==> Includes(s, a) || Includes(s, b)
  {
    var keys := [a, b];
    if Includes(s, a) { assert Includes(s, keys[0]); }
    if Includes(s, b) { assert Includes(s, keys[1]); }
    if AnyIncluded(s, keys) {
      var k :| 0 <= k < |keys| && Includes(s, keys[k]);
      assert k == 0 || k == 1;
    }
  }

  lemma AnyIncludedOne(s: string, a: string)
    ensures AnyIncluded(s, [a]) <==> Includes(s, a)
  {
    var keys := [a];
    if Includes(s, a) { assert Includes(s, keys[0]); }
  }

  /** The chain computes the first match of the keyword table. */
  lemma InferStepIsFirstMatch(text: string, current: int)
    ensures InferStep(text, current) == FirstMatch(ToLower(text), StepKeywords).GetOr(current)
  {
    var s := ToLower(text);
    var t := StepKeywords;
    AnyIncludedTwo(s, "abordagem", "contato inicial");
    AnyIncludedOne(s, "qualificação");
    AnyIncludedTwo(s, "apresentação", "demonstração");
    AnyIncludedOne(s, "objeções");
    AnyIncludedOne(s, "negociação");
    AnyIncludedOne(s, "fechamento");
    AnyIncludedOne(s, "pós-venda");
    var t1 := t[1..];
    var t2 := t1[1..];
    var t3 := t2[1..];
    var t4 := t3[1..];
    var t5 := t4[1..];
    var t6 := t5[1..];
    assert t6 == [(["pós-venda"], 7)] && t6[1..] == [];
    assert FirstMatch(s, t6) == if Includes(s, "pós-venda") then Some(7) else None;
    assert FirstMatch(s, t5) == if Includes(s, "fechamento") then Some(6) else FirstMatch(s, t6);
    assert FirstMatch(s, t4) == if Includes(s, "negociação") then Some(5) else FirstMatch(s, t5);
    assert FirstMatch(s, t3) == if Includes(s, "objeções") then Some(4) else FirstMatch(s, t4);
    assert FirstMatch(s, t2) ==
      if Includes(s, "apresentação") || Includes(s, "demonstração") then Some(3) else FirstMatch(s, t3);
    assert FirstMatch(s, t1) == if Includes(s, "qualificação") then Some(2) else FirstMatch(s, t2);
  }

  /** Row `r` of the table decides the step when one of its keywords occurs
      and no keyword of an earlier row does. */
  lemma FirstHitWins(text: string, current: int, r: nat)
    requires r < |StepKeywords|
    requires AnyIncluded(ToLower(text), StepKeywords[r].0)
    requires forall q :: 0 <= q < r ==> !AnyIncluded(ToLower(text), StepKeywords[q].0)
    ensures InferStep(text, current) == StepKeywords[r].1
  {
    InferStepIsFirstMatch(text, current);
    FirstMatchAt(ToLower(text), StepKeywords, r);
  }

  /** Without any keyword the step stays as it was. */
  lemma NoKeywordKeepsStep(text: string, current: int)
    requires forall q :: 0 <= q < |StepKeywords| ==> !AnyIncluded(ToLower(text), StepKeywords[q].0)
    ensures InferStep(text, current) == current
  {
    InferStepIsFirstMatch(text, current);
  }

  /** The component's state. */
  class ClientState {
    /** `connectionId.current`. */
    var connectionId: Option<string>
    var conversation: seq<ConversationItem>
    var currentTip: Option<CurrentTip>
    var currentStep: int

    ghost predicate Valid()
      reads this
    {
      IsStep(currentStep)
    }

    constructor ()
      ensures Valid()
      ensures connectionId == None && conversation == [] && currentTip == None && currentStep == 1
    {
      connectionId := None;
      conversation := [];
      currentTip := None;
      currentStep := 1;
    }

    /** `ws.current.onmessage` for a decoded message, at time `now`. */
    method OnMessage(msg: ServerMessage, now: int)
      requires Valid()
      modifies this
      ensures Valid()
      ensures msg.ConnectionMessage? ==>
                && connectionId == Some(msg.id)
                && conversation == old(conversation) && currentTip == old(currentTip) && currentStep == old(currentStep)
      ensures msg.TranscriptMessage? ==>
                && conversation == old(conversation) + [ConversationItem(now, msg.role, msg.text)]
                && connectionId == old(connectionId) && currentTip == old(currentTip) && currentStep == old(currentStep)
      ensures msg.TipMessage? ==>
                && currentTip == Some(CurrentTip(now, msg.text, msg.severity))
                && currentStep == InferStep(msg.text, old(currentStep))
                && connectionId == old(connectionId) && conversation == old(conversation)
      ensures msg.NotificationMessage? ==>
                && connectionId == old(connectionId) && conversation == old(conversation)
                && currentTip == old(currentTip) && currentStep == old(currentStep)
    {
      match msg
      case ConnectionMessage(id) =>
        connectionId := Some(id);
      case TranscriptMessage(text, role) =>
        conversation := conversation + [ConversationItem(now, role, text)];
      case TipMessage(text, severity) =>
        currentTip := Some(CurrentTip(now, text, severity));
        currentStep := InferStep(text, currentStep);
      case NotificationMessage(_) =>
    }

    /** `resetConversation`: clear the local state and, when the socket is
        open, ask the server to reset too. */
    method ResetConversation(socketOpen: bool) returns (sent: seq<ClientMessage>)
      modifies this
      ensures Valid()
      ensures conversation == [] && currentTip == None && currentStep == 1
      ensures connectionId == old(connectionId)
      ensures sent == if socketOpen then [ClientMessage.ResetConversation] else []
    {
      conversation := [];
      currentTip := None;
      currentStep := 1;
      sent := if socketOpen then [ClientMessage.ResetConversation] else [];
    }
  }
}
