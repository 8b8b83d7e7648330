/** The text the relay sends to the advisor: the conversation rendered as
    numbered lines, framed by the fixed wording of each of the two
    requests. */
module Prompt {
  import opened Text
  import opened Conversation

  /** Entry `i` (counted from 0) as the advisor sees it:
      `${i + 1}. ${role.toUpperCase()}: ${text}`. */
  function NumberedLine(i: nat, e: Entry): string
  {
    Decimal(i + 1) + ". " + ToUpper(e.role.Label()) + ": " + e.text
  }

  /** `conversation.map(...)`: one numbered line per entry. */
  function Lines(conv: seq<Entry>): (ls: seq<string>)
    ensures |ls| == |conv|
  {
    seq(|conv|, i requires 0 <= i < |conv| => NumberedLine(i, conv[i]))
  }

  /** `conversation.map(...).join("\n")`. */
  function Transcript(conv: seq<Entry>): string
  {
    Join(Lines(conv), "\n")
  }

  /** The role appears upper-cased in the transcript. */
  lemma UpperLabels()
    ensures ToUpper(Vendedor.Label()) == "VENDEDOR"
    ensures ToUpper(Cliente.Label()) == "CLIENTE"
  {
  }

  /** A numbered line has a line break only where its utterance has one. */
  lemma NoBreakInLine(i: nat, e: Entry)
    requires '\n' !in e.text
    ensures '\n' !in NumberedLine(i, e)
  {
  }

  /** When no utterance contains a line break, line `i` of the transcript is
      exactly entry `i`'s numbered line and there is one line per entry. */
  lemma {:induction false} TranscriptLines(conv: seq<Entry>)
    requires |conv| >= 1
    requires forall k :: 0 <= k < |conv| ==> '\n' !in conv[k].text
    ensures |Split(Transcript(conv), '\n')| == |conv|
    ensures forall k :: 0 <= k < |conv| ==> Split(Transcript(conv), '\n')[k] == NumberedLine(k, conv[k])
  {
    var ls := Lines(conv);
    forall k | 0 <= k < |ls| ensures '\n' !in ls[k] {
      NoBreakInLine(k, conv[k]);
    }
    SplitJoin(ls, '\n');
  }

  /** The two requests the relay can make, each over a rendered transcript.
      The constructor stands for the fixed system instruction that goes with
      it; `UserMessage` is the user message sent. */
  datatype Request = DetectOpportunity(transcript: string) | RequestTip(transcript: string) {

    /** The fixed wording before the transcript. */
    function Intro(): string
    {
      match this
      case DetectOpportunity(_) => "Aqui está a conversa atual entre vendedor e cliente:\n\n"
      case RequestTip(_) => "Esta é a conversa até agora:\n\n"
    }

    /** The fixed wording after the transcript. */
    function Question(): string
    {
      match this
      case DetectOpportunity(_) =>
        "\n\nCom base nessa conversa, devo dar uma dica agora? \nResponda somente \"Sim\" ou \"Não\"."
      case RequestTip(_) =>
        "\n\nCom base nessa conversa, que dica você daria ao vendedor agora? "
        + "Responda apenas com o objeto JSON conforme o formato especificado."
    }

    /** The user message of the chat completion: the transcript framed by
        the request's fixed wording, from which it can be read back. */
    function UserMessage(): (m: string)
      ensures |m| == |Intro()| + |transcript| + |Question()|
      ensures m[..|Intro()|] == Intro()
      ensures m[|m| - |Question()|..] == Question()
      ensures m[|Intro()|..|m| - |Question()|] == transcript
    {
      Framed(Intro(), transcript, Question());
      Intro() + transcript + Question()
    }
  }

  /** The parts of `a + t + b` are read back by position. */
  lemma Framed(a: string, t: string, b: string)
    ensures (a + t + b)[..|a|] == a
    ensures (a + t + b)[|a| + |t|..] == b
    ensures (a + t + b)[|a|..|a| + |t|] == t
  {
    var m := a + t + b;
    assert m[..|a|] == a;
    assert m[|a| + |t|..] == b;
    assert m[|a|..|a| + |t|] == t;
  }

  /** Stage 1: should a tip be given now? */
  function DetectionRequest(conv: seq<Entry>): Request
  {
    DetectOpportunity(Transcript(conv))
  }

  /** Stage 2: produce the tip as a JSON object. */
  function TipRequest(conv: seq<Entry>): Request
  {
    RequestTip(Transcript(conv))
  }
}
