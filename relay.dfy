/** The relay server of server/index.js: the connection table and its
    counter, the per-connection conversations, and the handlers for the
    WebSocket's `connection`, `message` and `close` events and for the
    transcriber's `transcriptReceived` event. Each handler runs as one atomic
    step and returns, in order, the effects it has on the outside world. */
module Relay {
  import opened Text
  import opened Wrappers
  import opened Conversation
  import opened Prompt
  import opened TipDecision
  import opened Protocol

  /** The live transcription opened by `setupDeepgram(ws, connectionId)`,
      together with its keep-alive timer. */
  datatype Transcriber = Transcriber(connectionId: string)

  /** An entry of `connections`: the transcriber handle (null when none)
      and the `active` flag. */
  datatype Connection = Connection(transcriber: Option<Transcriber>, active: bool)

  /** What a handler does outside the two tables. */
  datatype Effect =
    | Send(msg: ServerMessage)           // ws.send(JSON.stringify(msg))
    | OpenTranscriber(connectionId: string) // setupDeepgram: live session plus keep-alive interval
    | ForwardAudio(payload: string)      // deepgram.send(Buffer.from(payload, 'base64'))
    | FinishTranscriber                  // deepgram.finish()
    | ClearKeepAlive                     // cleanup(): clearInterval(keepAlive)
    | Consult(request: Request)          // openai.chat.completions.create(...)

  const ResetNotice: string := "Conversa resetada com sucesso"

  /** `conn_${n}`. */
  function ConnectionName(n: nat): string
  {
    "conn_" + Decimal(n)
  }

  /** No two counter values give the same id. */
  lemma ConnectionNameInjective(a: nat, b: nat)
    requires ConnectionName(a) == ConnectionName(b)
    ensures a == b
  {
    assert Decimal(a) == ConnectionName(a)[5..];
    assert Decimal(b) == ConnectionName(b)[5..];
    DecimalInjective(a, b);
  }

  /** The ids handed out while the counter ran from 0 to `n`. */
  ghost function Issued(n: nat): set<string>
  {
    set k | 0 <= k < n :: ConnectionName(k)
  }

  /** The id drawn from counter value `n` is new, and drawing it adds exactly
      it to the issued ids. */
  lemma {:induction false} IssueNext(n: nat)
    ensures ConnectionName(n) !in Issued(n)
    ensures Issued(n + 1) == Issued(n) + {ConnectionName(n)}
  {
    if ConnectionName(n) in Issued(n) {
      var k :| 0 <= k < n && ConnectionName(k) == ConnectionName(n);
      ConnectionNameInjective(k, n);
    }
  }

  /** A connection table together with the effects of changing it. */
  datatype TableStep = TableStep(table: map<string, Connection>, effects: seq<Effect>)

  /** `start_transcription`: a handle is created only when none exists. The
      handler's `connections[connectionId].deepgramConnection` throws for an
      id that is not in the table, and the error is caught. */
  function Start(conns: map<string, Connection>, id: string): (r: TableStep)
    ensures r.table.Keys == conns.Keys
    ensures forall other :: other in conns && other != id ==> r.table[other] == conns[other]
    ensures id in conns ==> r.table[id].transcriber.Some? && r.table[id].active == conns[id].active
    ensures id in conns && conns[id].transcriber.Some? ==> r == TableStep(conns, [])
    ensures r.effects != [] <==> id in conns && conns[id].transcriber.None?
    ensures r.effects != [] ==> r.effects == [OpenTranscriber(id)] && r.table[id].transcriber == Some(Transcriber(id))
  {
    if id in conns && conns[id].transcriber.None? then
      TableStep(conns[id := conns[id].(transcriber := Some(Transcriber(id)))], [OpenTranscriber(id)])
    else
      TableStep(conns, [])
  }

  /** `stop_transcription`: with a handle, finish it, clear its keep-alive
      and set it to null; without one, nothing. */
  function Stop(conns: map<string, Connection>, id: string): (r: TableStep)
    ensures r.table.Keys == conns.Keys
    ensures forall other :: other in conns && other != id ==> r.table[other] == conns[other]
    ensures id in conns ==> r.table[id] == conns[id].(transcriber := None)
    ensures id !in conns || conns[id].transcriber.None? ==> r == TableStep(conns, [])
    ensures id in conns && conns[id].transcriber.Some? ==> r.effects == [FinishTranscriber, ClearKeepAlive]
  {
    if id in conns && conns[id].transcriber.Some? then
      TableStep(conns[id := conns[id].(transcriber := None)], [FinishTranscriber, ClearKeepAlive])
    else
      TableStep(conns, [])
  }

  /** A second `start_transcription` changes nothing and opens nothing. */
  lemma StartIdempotent(conns: map<string, Connection>, id: string)
    ensures Start(Start(conns, id).table, id) == TableStep(Start(conns, id).table, [])
  {
  }

  /** Starting and then stopping a connection that had no handle restores
      the table, having opened, finished and cleaned up one handle. */
  lemma StartThenStop(conns: map<string, Connection>, id: string)
    requires id in conns && conns[id].transcriber.None?
    ensures Stop(Start(conns, id).table, id).table == conns
    ensures Start(conns, id).effects + Stop(Start(conns, id).table, id).effects
            == [OpenTranscriber(id), FinishTranscriber, ClearKeepAlive]
  {
  }

  /** `audio_data`: forwarded only to an existing handle whose ready state is
      1 (open); otherwise dropped. */
  function AudioEffects(conns: map<string, Connection>, id: string, payload: string, readyState: int): (effs: seq<Effect>)
    ensures effs == [] || effs == [ForwardAudio(payload)]
    ensures effs != [] <==> id in conns && conns[id].transcriber.Some? && readyState == 1
  {
    if id in conns && conns[id].transcriber.Some? && readyState == 1 then [ForwardAudio(payload)] else []
  }

  /** The close handler's resource release: finish and clean up the handle
      when there is one. */
  function CloseEffects(conns: map<string, Connection>, id: string): (effs: seq<Effect>)
    ensures effs != [] <==> id in conns && conns[id].transcriber.Some?
    ensures effs != [] ==> effs == [FinishTranscriber, ClearKeepAlive]
  {
    if id in conns && conns[id].transcriber.Some? then [FinishTranscriber, ClearKeepAlive] else []
  }

  predicate IsTipSend(e: Effect)
  {
    e.Send? && e.msg.TipMessage?
  }

  function Consults(calls: seq<Request>): (effs: seq<Effect>)
    ensures |effs| == |calls|
    ensures forall k :: 0 <= k < |calls| ==> effs[k] == Consult(calls[k])
  {
    seq(|calls|, k requires 0 <= k < |calls| => Consult(calls[k]))
  }

  /** What one accepted final transcript sends and calls: the transcript
      message first, then the advisor calls of the decision, then at most one
      tip, last. */
  function TranscriptEffects(text: string, role: Role, d: Decision): (effs: seq<Effect>)
    ensures |effs| == 1 + |d.calls| + (if d.tip.Some? then 1 else 0)
    ensures effs[0] == Send(TranscriptMessage(text, role.Label()))
    ensures effs[1..1 + |d.calls|] == Consults(d.calls)
    ensures forall k :: 0 <= k < |effs| && IsTipSend(effs[k]) ==> 0 < k == |effs| - 1
    ensures d.tip.Some? <==> IsTipSend(effs[|effs| - 1])
    ensures d.tip.Some? ==> effs[|effs| - 1] == Send(TipMessage(d.tip.value.text, d.tip.value.severity))
  {
    var tip := if d.tip.Some? then [Send(TipMessage(d.tip.value.text, d.tip.value.severity))] else [];
    var effs := [Send(TranscriptMessage(text, role.Label()))] + Consults(d.calls) + tip;
    assert effs[1..1 + |d.calls|] == Consults(d.calls);
    effs
  }

  /** Each conversation is the window of the utterances heard for it. */
  ghost predicate Tracks(convs: map<string, seq<Entry>>, heard: map<string, seq<Entry>>)
  {
    heard.Keys == convs.Keys && forall id :: id in convs ==> convs[id] == Window(heard[id])
  }

  lemma TracksUpdate(convs: map<string, seq<Entry>>, heard: map<string, seq<Entry>>,
                     id: string, h: seq<Entry>)
    requires Tracks(convs, heard)
    ensures Tracks(convs[id := Window(h)], heard[id := h])
  {
  }

  lemma TracksRemove(convs: map<string, seq<Entry>>, heard: map<string, seq<Entry>>, id: string)
    requires Tracks(convs, heard)
    ensures Tracks(convs - {id}, heard - {id})
  {
  }

  /** The conversation kept for `id`, or the empty one the handler creates. */
  function Prior(m: map<string, seq<Entry>>, id: string): seq<Entry>
  {
    if id in m then m[id] else []
  }

  /** The entry a final transcript contributes. */
  function Utterance(event: TranscriptEvent): Entry
  {
    Entry(SpeakerRole(event.words), event.transcript)
  }

  class RelayServer {
    /** `connections`, keyed by connection id. */
    var connections: map<string, Connection>
    /** `connectionConversations`, keyed by connection id. */
    var conversations: map<string, seq<Entry>>
    /** `connectionCounter`. */
    var counter: nat
    /** Every utterance appended to a conversation since it was created or
        last reset, oldest first. */
    ghost var utterances: map<string, seq<Entry>>

    ghost predicate Valid()
      reads this
    {
      && connections.Keys <= Issued(counter)
      && conversations.Keys <= Issued(counter)
      && Tracks(conversations, utterances)
      && (forall id :: id in connections ==>
            connections[id].active
            && (connections[id].transcriber.Some? ==> connections[id].transcriber.value.connectionId == id))
    }

    /** Every conversation holds at most 20 entries. */
    lemma ConversationsBounded()
      requires Valid()
      ensures forall id :: id in conversations ==> |conversations[id]| <= Capacity
    {
    }

    constructor ()
      ensures Valid()
      ensures connections == map[] && conversations == map[] && counter == 0
    {
      connections := map[];
      conversations := map[];
      counter := 0;
      utterances := map[];
    }

    /** `wss.on("connection")`: draw a fresh id from the counter, register the
        connection without a handle, and tell the browser its id. */
    method OnConnection() returns (id: string, effects: seq<Effect>)
      requires Valid()
      modifies this
      ensures Valid()
      ensures id == ConnectionName(old(counter)) && id !in Issued(old(counter))
      ensures id !in old(connections)
      ensures counter == old(counter) + 1
      ensures connections == old(connections)[id := Connection(None, true)]
      ensures conversations == old(conversations) && utterances == old(utterances)
      ensures effects == [Send(ConnectionMessage(id))]
    {
      IssueNext(counter);
      id := ConnectionName(counter);
      counter := counter + 1;
      connections := connections[id := Connection(None, true)];
      effects := [Send(ConnectionMessage(id))];
    }

    /** `ws.on("message")`: the `switch` on the message kind. */
    method OnMessage(id: string, msg: ClientMessage, readyState: int) returns (effects: seq<Effect>)
      requires Valid()
      requires id in Issued(counter)
      modifies this
      ensures Valid()
      ensures counter == old(counter)
      ensures msg.StartTranscription? ==>
                connections == Start(old(connections), id).table && effects == Start(old(connections), id).effects
      ensures msg.StopTranscription? ==>
                connections == Stop(old(connections), id).table && effects == Stop(old(connections), id).effects
      ensures msg.AudioData? ==>
                connections == old(connections) && effects == AudioEffects(old(connections), id, msg.payload, readyState)
      ensures msg.ResetConversation? ==>
                && connections == old(connections)
                && conversations == old(conversations)[id := []] && utterances == old(utterances)[id := []]
                && effects == [Send(NotificationMessage(ResetNotice))]
      ensures !msg.ResetConversation? ==> conversations == old(conversations) && utterances == old(utterances)
      ensures msg.Unknown? || msg.Malformed? ==> connections == old(connections) && effects == []
    {
      match msg
      case StartTranscription =>
        var step := Start(connections, id);
        connections, effects := step.table, step.effects;
      case StopTranscription =>
        var step := Stop(connections, id);
        connections, effects := step.table, step.effects;
      case AudioData(payload) =>
        effects := AudioEffects(connections, id, payload, readyState);
      case ResetConversation =>
        TracksUpdate(conversations, utterances, id, []);
        conversations := conversations[id := []];
        utterances := utterances[id := []];
        effects := [Send(NotificationMessage(ResetNotice))];
      case Unknown(_) =>
        effects := [];
      case Malformed =>
        effects := [];
    }

    /** `ws.on("close")`: release the handle if any, then drop the
        conversation and the connection. */
    method OnClose(id: string) returns (effects: seq<Effect>)
      requires Valid()
      modifies this
      ensures Valid()
      ensures counter == old(counter)
      ensures effects == CloseEffects(old(connections), id)
      ensures connections == old(connections) - {id}
      ensures conversations == old(conversations) - {id} && utterances == old(utterances) - {id}
    {
      effects := CloseEffects(connections, id);
      TracksRemove(conversations, utterances, id);
      conversations := conversations - {id};
      utterances := utterances - {id};
      connections := connections - {id};
    }

    /** `transcriptReceived` for the transcriber of connection `id`. An
        interim event does nothing. A final one makes sure the conversation
        exists; an all-space transcript stops there. Otherwise the utterance
        is appended (bounded to 20), echoed to the browser, and the two-stage
        decision may add one tip. */
    method OnTranscriptReceived(id: string, event: TranscriptEvent,
                                advisor: Request -> Reply, decode: string -> Option<Tip>)
      returns (effects: seq<Effect>)
      requires Valid()
      requires id in Issued(counter)
      modifies this
      ensures Valid()
      ensures connections == old(connections) && counter == old(counter)
      ensures !event.isFinal ==>
                conversations == old(conversations) && utterances == old(utterances) && effects == []
      ensures event.isFinal && Trim(event.transcript) == "" ==>
                && (id in old(conversations) ==> conversations == old(conversations) && utterances == old(utterances))
                && (id !in old(conversations) ==>
                      conversations == old(conversations)[id := []] && utterances == old(utterances)[id := []])
                && effects == []
      ensures event.isFinal && Trim(event.transcript) != "" ==>
                && conversations == old(conversations)[id := Append(Prior(old(conversations), id), Utterance(event))]
                && utterances == old(utterances)[id := Prior(old(utterances), id) + [Utterance(event)]]
                && effects == TranscriptEffects(event.transcript, Utterance(event).role,
                                                Decide(conversations[id], advisor, decode))
    {
      if !event.isFinal {
        effects := [];
        return;
      }
      var prev := Prior(conversations, id);
      ghost var heard := Prior(utterances, id);
      assert prev == Window(heard);
      if Trim(event.transcript) == "" {
        if id !in conversations {
          TracksUpdate(conversations, utterances, id, []);
          conversations := conversations[id := []];
          utterances := utterances[id := []];
        }
        effects := [];
        return;
      }
      var entry := Utterance(event);
      AppendKeepsWindow(heard, entry);
      var conversation := Append(prev, entry);
      TracksUpdate(conversations, utterances, id, heard + [entry]);
      conversations := conversations[id := conversation];
      utterances := utterances[id := heard + [entry]];
      var decision := Decide(conversation, advisor, decode);
      effects := TranscriptEffects(event.transcript, entry.role, decision);
    }
  }
}
