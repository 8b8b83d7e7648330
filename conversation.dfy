/** One session's conversation: how a transcriber event's speaker tag becomes
    a role, and the 20-entry sliding window the server keeps per connection
    (`connectionConversations` in server/index.js). */
module Conversation {
  import opened Wrappers

  /** The two roles the server distinguishes; the labels are the strings it
      stores and sends. */
  datatype Role = Vendedor | Cliente {
    function Label(): string
    {
      match this
      case Vendedor => "vendedor"
      case Cliente => "cliente"
    }
  }

  datatype Entry = Entry(role: Role, text: string)

  /** The JavaScript values a word's `speaker` field can hold (a number is
      kept integral). */
  datatype JsValue = Undefined | Null | Bool(b: bool) | Number(n: int) | Str(s: string)

  /** JavaScript truthiness: what `||` tests. */
  predicate Truthy(v: JsValue)
  {
    !(v.Undefined? || v.Null? || v == Bool(false) || v == Number(0) || v == Str(""))
  }

  datatype Word = Word(speaker: JsValue)

  /** The part of a transcriber event the server reads:
      `data.is_final`, `alternatives[0].transcript`, `alternatives[0].words`
      (which may be absent). */
  datatype TranscriptEvent = TranscriptEvent(isFinal: bool, transcript: string, words: Option<seq<Word>>)

  /** `speaker`: the first word's tag when there is a truthy one, else
      the string "unknown". */
  function Speaker(words: Option<seq<Word>>): JsValue
  {
    if words.Some? && |words.value| > 0 then
      (if Truthy(words.value[0].speaker) then words.value[0].speaker else Str("unknown"))
    else Str("unknown")
  }

  /** `speaker === "0" ? "vendedor" : "cliente"`. The comparison is strict, so
      only the string "0" selects the salesperson: a numeric tag 0 is falsy,
      is replaced by "unknown", and yields the customer. */
  function SpeakerRole(words: Option<seq<Word>>): (r: Role)
    ensures r == Vendedor <==> (words.Some? && |words.value| > 0 && words.value[0].speaker == Str("0"))
    ensures words.Some? && |words.value| > 0 && words.value[0].speaker == Number(0) ==> r == Cliente
  {
    if Speaker(words) == Str("0") then Vendedor else Cliente
  }

  /** The most entries a conversation keeps. */
  const Capacity: nat := 20

  /** `conversation.push(entry)` followed by one `shift()` when the length
      exceeds 20. */
  function Append(conv: seq<Entry>, e: Entry): (r: seq<Entry>)
    ensures |r| == if |conv| < Capacity then |conv| + 1 else |conv|
    ensures r[|r| - 1] == e
    ensures r[..|r| - 1] == conv[|conv| + 1 - |r|..]
  {
    var pushed := conv + [e];
    if |pushed| > Capacity then pushed[1..] else pushed
  }

  /** Reference definition: the last (at most) 20 entries of a history, in
      arrival order. */
  function Window(h: seq<Entry>): (r: seq<Entry>)
    ensures |r| == if |h| <= Capacity then |h| else Capacity
  {
    if |h| <= Capacity then h else h[|h| - Capacity..]
  }

  /** Appending to the window of a history gives the window of the extended
      history: the buffer is always the last 20 utterances. */
  lemma AppendKeepsWindow(h: seq<Entry>, e: Entry)
    ensures Append(Window(h), e) == Window(h + [e])
  {
  }

  /** Appending a list of utterances one after the other. */
  function AppendAll(conv: seq<Entry>, es: seq<Entry>): seq<Entry>
    decreases |es|
  {
    if es == [] then conv else AppendAll(Append(conv, es[0]), es[1..])
  }

  /** After any run of appends the buffer is the window of everything
      appended. */
  lemma {:induction false} AppendAllKeepsWindow(h: seq<Entry>, es: seq<Entry>)
    ensures AppendAll(Window(h), es) == Window(h + es)
    decreases |es|
  {
    if es != [] {
      var e, rest := es[0], es[1..];
      var h1 := h + [e];
      AppendKeepsWindow(h, e);
      calc {
        AppendAll(Window(h), es);
        AppendAll(Append(Window(h), e), rest);
        AppendAll(Window(h1), rest);
        { AppendAllKeepsWindow(h1, rest); }
        Window(h1 + rest);
        { assert h1 + rest == h + es; }
        Window(h + es);
      }
    }
  }

  /** Twenty-five appends to an empty buffer leave utterances 6 to 25. */
  lemma TwentyFiveAppends(es: seq<Entry>)
    requires |es| == 25
    ensures AppendAll([], es) == es[5..]
  {
    AppendAllKeepsWindow([], es);
    assert [] + es == es;
  }
}
